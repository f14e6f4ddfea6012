/** application/transfer.py and the credit interceptor of overdraft/application/service.py. */
module Transfers {
  import opened Kernel
  import opened Sums
  import opened Queries
  import opened Accounts
  import opened Ledger
  import opened Policies
  import opened Tables
  import opened Idempotency

  datatype TransferCommand = TransferCommand(
    actor: UserId,
    sender: AccountId,
    receiver: AccountId,
    amount: int,
    key: IdemKey,
    fingerprint: Payload,
    kind: Kind,
    status: TransferStatus,
    parent: Option<TransferId>,
    intended: Option<AccountId>,
    enforceLimits: bool)

  datatype TransferResult = TransferResult(
    transferId: TransferId,
    status: TransferStatus,
    amount: int,
    fee: int,
    senderAfter: int,
    receiverAfter: int,
    completedAt: Time,
    replayed: bool)
  {
    function ToResponse(): Body {
      TransferBody(transferId, status, amount, fee, senderAfter, completedAt)
    }
  }

  datatype Executed = Executed(state: State, result: TransferResult)

  predicate SystemInitiated(kind: Kind) {
    kind in {SignupGrant, UndoSettle, UndoRefund, EscrowRelease, EscrowRefund}
  }

  /** Kinds the credit interceptor ignores. */
  predicate SpotMeKind(kind: Kind) { kind == OverdraftDraw || kind == OverdraftRepay }

  function Authorize(sender: Account, c: TransferCommand): Result<()> {
    if SystemInitiated(c.kind) && sender.owner == None then Ok(())
    else sender.EnsureOwnedBy(c.actor)
  }

  const DAY: int := 86_400

  /** Whole UTC days since the epoch; `_start_of_day` is `DAY * DayOf(now)`. */
  function DayOf(now: Time): int { now / DAY }

  predicate CountsAsSent(status: TransferStatus) { status != Refunded }

  function SentWeight(account: AccountId, since: Time): Transfer -> int {
    (t: Transfer) =>
      if t.sender == account && CountsAsSent(t.status) && t.createdAt >= since then t.amount else 0
  }

  function SumSentSince(transfers: seq<Transfer>, account: AccountId, since: Time): int {
    Sum(transfers, SentWeight(account, since))
  }

  /** What a REPLAY decision is turned back into; the receiver's balance is not stored. */
  function ReplayedResult(body: Body, now: Time): TransferResult {
    match body
    case TransferBody(id, status, amount, fee, senderBalance, completedAt) =>
      TransferResult(id, status, amount, fee, senderBalance, 0, completedAt, true)
    case SendBody(TransferBody(id, status, amount, fee, senderBalance, completedAt), _, _) =>
      TransferResult(id, status, amount, fee, senderBalance, 0, completedAt, true)
    case _ => TransferResult(0, Succeeded, 0, 0, 0, 0, now, true)
  }

  /** Steps 4 to 6 of `execute`: both balances, the transfer row, and the two-line posting. */
  function Move(s: State, now: Time, c: TransferCommand, sender: Account, receiver: Account): State
    requires c.sender < |s.accounts| && c.receiver < |s.accounts|
  {
    s.(
      accounts := s.accounts[c.sender := sender][c.receiver := receiver],
      transfers := s.transfers +
        [Transfer(c.sender, c.receiver, c.amount, c.kind, c.status, c.actor, c.parent, c.intended, now)],
      postings := s.postings +
        [Posting(|s.transfers|, TransferLines(c.sender, c.receiver, c.amount, sender.balance, receiver.balance))])
  }

  function Execute(cfg: Config, s: State, now: Time, c: TransferCommand): Result<Executed>
    decreases if SpotMeKind(c.kind) then 0 else 1, 2, 0
  {
    match Reserve(s.idem, c.key, c.fingerprint)
    case PayloadMismatch => Err(IdempotencyKeyReuse)
    case InProgress => Err(RequestInProgress)
    case Replay(body) => Ok(Executed(s, ReplayedResult(body, now)))
    case Proceed =>
      var s0 := Begin(s, c.key, c.fingerprint);
      var _ :- Need(c.sender != c.receiver, SelfTransfer);
      var _ :- Need(c.sender < |s.accounts| && c.receiver < |s.accounts|, NotFound);
      var sender, receiver := s.accounts[c.sender], s.accounts[c.receiver];
      var _ :- Authorize(sender, c);
      var _ :- sender.EnsureActive();
      var _ :- receiver.EnsureActive();
      var fee := FeeFor(cfg.fees, c.amount);
      var total := c.amount + fee;
      var _ :- if c.enforceLimits
               then EnsureWithinLimits(cfg, total, SumSentSince(s.transfers, c.sender, DAY * DayOf(now)))
               else Ok(());
      var _ :- sender.EnsureCanAfford(total);
      var debited :- sender.Debit(total);
      var credited :- receiver.Credit(c.amount);
      var id := |s.transfers|;
      var s1 := Move(s0, now, c, debited, credited);
      var result := TransferResult(id, c.status, c.amount, fee, debited.balance, credited.balance, now, false);
      var s2 :- AfterCredit(cfg, s1, now, id, c.receiver, credited, c.amount, c.kind);
      Ok(Executed(Complete(s2, c.key, c.fingerprint, result.ToResponse()), result))
  }

  // -- overdraft repository -------------------------------------------------

  datatype LoanRow = LoanRow(id: nat, outstanding: int, poolAccount: AccountId)

  predicate IsOwing(loan: Loan, pools: seq<Pool>, user: UserId) {
    loan.borrower == user && loan.status == Outstanding && loan.outstanding > 0 && loan.pool < |pools|
  }

  function Owing(pools: seq<Pool>, user: UserId): Loan -> bool {
    (loan: Loan) => IsOwing(loan, pools, user)
  }

  function LoanAge(loans: seq<Loan>): nat -> int {
    (i: nat) => if i < |loans| then loans[i].createdAt else 0
  }

  /** Ids of the user's unpaid loans, `ORDER BY created_at, id`. */
  function OwingIds(pools: seq<Pool>, loans: seq<Loan>, user: UserId): (ids: seq<nat>)
    ensures Ordered(ids, LoanAge(loans))
    ensures forall i: nat :: i in ids <==> i < |loans| && IsOwing(loans[i], pools, user)
  {
    OrderBy(Where(loans, Owing(pools, user)), LoanAge(loans))
  }

  function LoanRows(pools: seq<Pool>, loans: seq<Loan>, ids: seq<nat>): seq<LoanRow>
    requires forall i :: i in ids ==> i < |loans| && loans[i].pool < |pools|
  {
    seq(|ids|, k requires 0 <= k < |ids| =>
      assert ids[k] in ids;
      LoanRow(ids[k], loans[ids[k]].outstanding, pools[loans[ids[k]].pool].account))
  }

  function OutstandingLoans(pools: seq<Pool>, loans: seq<Loan>, user: UserId): seq<LoanRow> {
    LoanRows(pools, loans, OwingIds(pools, loans, user))
  }

  function ApplyRepayment(s: State, loan: nat, transfer: TransferId, amount: int, trigger: TransferId): State {
    if loan >= |s.loans| || s.loans[loan].status != Outstanding then s
    else
      var left := Max(0, s.loans[loan].outstanding - amount);
      s.(
        loans := s.loans[loan := s.loans[loan].(
          outstanding := left,
          status := if left == 0 then Repaid else Outstanding)],
        repayments := s.repayments + [Repayment(loan, transfer, amount, trigger)])
  }

  // -- credit interceptor ---------------------------------------------------

  /** `additional_lock_ids`: pools a credit to `receiver` may have to repay. */
  function AdditionalLockIds(s: State, receiver: AccountId, kind: Kind): seq<AccountId> {
    if SpotMeKind(kind) then []
    else if receiver >= |s.accounts| then []
    else if s.accounts[receiver].kind != UserAccount || s.accounts[receiver].owner == None then []
    else
      var rows := OutstandingLoans(s.pools, s.loans, s.accounts[receiver].owner.value);
      seq(|rows|, k requires 0 <= k < |rows| => rows[k].poolAccount)
  }

  function Budget(cfg: Config, amount: int): int { FloorBps(amount * cfg.lienBasisPoints) }

  function AfterCredit(cfg: Config, s: State, now: Time, incoming: TransferId, receiverId: AccountId,
                       receiver: Account, amount: int, kind: Kind): Result<State>
    decreases if SpotMeKind(kind) then 0 else 1, 1, 0
  {
    if SpotMeKind(kind) then Ok(s)
    else if receiver.kind != UserAccount || receiver.owner == None then Ok(s)
    else
      var budget := Budget(cfg, amount);
      if budget <= 0 then Ok(s)
      else
        var user := receiver.owner.value;
        Sweep(cfg, s, now, incoming, receiverId, user, OutstandingLoans(s.pools, s.loans, user), budget)
  }

  function RepayCommand(user: UserId, payer: AccountId, incoming: TransferId, row: LoanRow,
                        amount: int): TransferCommand {
    TransferCommand(user, payer, row.poolAccount, amount,
                    IdemKey(user, InternalLien, LienKey(incoming, row.id)),
                    LienPayload(incoming, row.id, amount),
                    OverdraftRepay, Succeeded, None, None, false)
  }

  /** The repayment loop of `after_credit`: each turn re-enters `Execute`. */
  function Sweep(cfg: Config, s: State, now: Time, incoming: TransferId, payer: AccountId, user: UserId,
                 rows: seq<LoanRow>, budget: int): Result<State>
    decreases 1, 0, |rows|
  {
    if rows == [] || budget <= 0 then Ok(s)
    else
      var repay := Min(budget, rows[0].outstanding);
      var leg :- Execute(cfg, s, now, RepayCommand(user, payer, incoming, rows[0], repay));
      var s' := ApplyRepayment(leg.state, rows[0].id, leg.result.transferId, repay, incoming);
      Sweep(cfg, s', now, incoming, payer, user, rows[1..], budget - repay)
  }
}
