/** `execute` as a whole: one leg, then the lien sweep it triggers. */
module Executions {
  import opened Kernel
  import opened Sums
  import opened Queries
  import opened Accounts
  import opened Ledger
  import opened Policies
  import opened Tables
  import opened Idempotency
  import opened Transfers
  import opened Invariants
  import opened Legs
  import opened Backing
  import opened Sweeps

  /** Only the owner moves money out of an account; out of an unowned one, only the kinds the system initiates. */
  predicate MayMove(sender: Account, actor: UserId, kind: Kind) {
    || sender.owner == Some(actor)
    || (sender.owner == None && kind in {SignupGrant, UndoSettle, UndoRefund, EscrowRelease, EscrowRefund})
  }

  /** What an account has sent since the midnight, UTC, before `now`; refunded transfers do not count. */
  function SentToday(transfers: seq<Transfer>, a: AccountId, now: Time): int {
    if transfers == [] then 0
    else
      var n := |transfers| - 1;
      var t := transfers[n];
      SentToday(transfers[..n], a, now)
      + if t.sender == a && t.status != Refunded && t.createdAt >= now - now % 86_400 then t.amount else 0
  }

  predicate WithinLimits(cfg: Config, transfers: seq<Transfer>, a: AccountId, now: Time, amount: int) {
    amount <= cfg.maxSingle && SentToday(transfers, a, now) + amount <= cfg.dailyTotal
  }

  /** The limit query computes exactly that. */
  lemma {:induction false} SentTodayIsSummed(transfers: seq<Transfer>, a: AccountId, now: Time)
    ensures SumSentSince(transfers, a, DAY * DayOf(now)) == SentToday(transfers, a, now)
  {
    if transfers != [] {
      SentTodayIsSummed(transfers[..|transfers| - 1], a, now);
    }
  }

  lemma SentTodayAppends(transfers: seq<Transfer>, t: Transfer, a: AccountId, now: Time)
    ensures SentToday(transfers + [t], a, now)
         == SentToday(transfers, a, now)
            + if t.sender == a && t.status != Refunded && t.createdAt >= now - now % 86_400 then t.amount else 0
  {
    assert (transfers + [t])[..|transfers|] == transfers;
  }

  /** Every guard of `execute` that lets a first attempt through. */
  predicate Allowed(cfg: Config, s: State, now: Time, c: TransferCommand) {
    && c.key !in s.idem
    && InRange(s, c)
    && c.amount > 0
    && MayMove(s.accounts[c.sender], c.actor, c.kind)
    && s.accounts[c.sender].status == Active
    && s.accounts[c.receiver].status == Active
    && (s.accounts[c.sender].MayGoNegative() || s.accounts[c.sender].balance >= c.amount)
    && (c.enforceLimits ==> WithinLimits(cfg, s.transfers, c.sender, now, c.amount))
  }

  function Charged(s: State, now: Time, c: TransferCommand): State
    requires InRange(s, c)
  {
    Leg(Begin(s, c.key, c.fingerprint), now, c)
  }

  function ResultOf(s: State, now: Time, c: TransferCommand): TransferResult
    requires InRange(s, c)
  {
    TransferResult(|s.transfers|, c.status, c.amount, 0, Debited(s, c).balance, Credited(s, c).balance, now, false)
  }

  /** Without fees, `execute` succeeds on a new key exactly when its guards and its lien sweep do. */
  lemma ExecuteUnfolds(cfg: Config, s: State, now: Time, c: TransferCommand)
    requires cfg.fees == NoFee && c.key !in s.idem
    ensures var r := Execute(cfg, s, now, c);
      if !Allowed(cfg, s, now, c) then r.Err?
      else
        var swept := AfterCredit(cfg, Charged(s, now, c), now, |s.transfers|, c.receiver, Credited(s, c), c.amount,
                                 c.kind);
        if swept.Err? then r == Err(swept.error)
        else r == Ok(Executed(Complete(swept.value, c.key, c.fingerprint, ResultOf(s, now, c).ToResponse()),
                              ResultOf(s, now, c)))
  {
    hide AfterCredit, SumSentSince, TransferLines, SentToday;
    SentTodayIsSummed(s.transfers, c.sender, now);
  }

  /** A key already used never moves money again. */
  lemma ExecuteReplays(cfg: Config, s: State, now: Time, c: TransferCommand)
    requires c.key in s.idem
    ensures var r := Execute(cfg, s, now, c); r.Ok? ==> r.value.state == s && r.value.result.replayed
  {
    hide AfterCredit, SentToday, SumSentSince, TransferLines;
  }

  /** The row the command would insert is well-formed where it lands. */
  predicate LegalRow(s: State, now: Time, c: TransferCommand) {
    c.amount > 0 && InRange(s, c) ==> TransferOk(s.accounts, s.transfers + [RowOf(now, c)], |s.transfers|)
  }

  /** Lien keys name transfers already posted. */
  predicate LienKeysOld(idem: map<IdemKey, IdemRecord>, n: nat) {
    forall k :: k in idem && k.key.LienKey? ==> k.key.incoming < n
  }

  predicate Liened(s: State, c: TransferCommand)
    requires InRange(s, c)
  {
    !SpotMeKind(c.kind) && s.accounts[c.receiver].kind == UserAccount && s.accounts[c.receiver].owner.Some?
  }

  lemma ChargedKeepsCore(cfg: Config, s: State, now: Time, c: TransferCommand)
    requires Core(s) && Allowed(cfg, s, now, c) && LegalRow(s, now, c)
    ensures Core(Charged(s, now, c))
  {
    hide BooksOk, LoansOk, TransferLines, TransferOk, TransfersOk, MayMove, Authorize, SentToday, SumSentSince,
         Backed;
    var s0 := Begin(s, c.key, c.fingerprint);
    assert AccountOk(c.sender, s.accounts[c.sender]);
    LegKeepsBooks(s0, now, c);
    LegKeepsAccounts(s0, now, c);
    LegBalances(s0, now, c, c.sender);
    var s1 := Charged(s, now, c);
    ShapeKeepsTransferOk(s.accounts, s1.accounts, s.transfers + [RowOf(now, c)], |s.transfers|);
    AppendKeepsTransfers(s.accounts, s1.accounts, s.transfers, RowOf(now, c));
    assert PoolsOk(s1.accounts, s1.pools);
    BackedStands(s, s1);
  }

  lemma ShapeKeepsTransferOk(before: seq<Account>, after: seq<Account>, transfers: seq<Transfer>, i: nat)
    requires i < |transfers| && TransferOk(before, transfers, i) && SameShape(before, after)
    ensures TransferOk(after, transfers, i)
  {
  }

  /** The sweep starts ready: the credit itself covers the whole budget. */
  lemma ChargedIsReady(cfg: Config, s: State, now: Time, c: TransferCommand)
    requires cfg.Valid() && Core(s) && Allowed(cfg, s, now, c) && LegalRow(s, now, c)
    requires Liened(s, c) && LienKeysOld(s.idem, |s.transfers|) && !c.key.key.LienKey?
    ensures var s1 := Charged(s, now, c);
      var user := s.accounts[c.receiver].owner.value;
      && 0 <= Budget(cfg, c.amount) <= c.amount
      && Ready(s1, |s.transfers|, c.receiver, user, OutstandingLoans(s1.pools, s1.loans, user), Budget(cfg, c.amount))
  {
    hide BooksOk, LoansOk, TransferLines, TransferOk, TransfersOk, MayMove, Authorize, SentToday, SumSentSince,
         OutstandingLoans, RowReady, Budget, PoolsOk, Backed;
    ChargedKeepsCore(cfg, s, now, c);
    BudgetBounds(cfg, c.amount);
    assert AccountOk(c.receiver, s.accounts[c.receiver]);
    var user := s.accounts[c.receiver].owner.value;
    var s1 := Charged(s, now, c);
    RowsAreReady(s1, user);
    assert PayerReady(s1, c.receiver, user, Budget(cfg, c.amount));
  }

  /** The rows the lien reads agree with their loans and are distinct. */
  lemma RowsAreReady(s: State, user: UserId)
    ensures var rows := OutstandingLoans(s.pools, s.loans, user);
      && (forall k :: 0 <= k < |rows| ==>
            RowReady(s, rows[k]) && rows[k].id < |s.loans| && s.loans[rows[k].id].borrower == user)
      && (forall j, k :: 0 <= j < k < |rows| ==> rows[j].id != rows[k].id)
  {
    var ids := OwingIds(s.pools, s.loans, user);
    var rows := OutstandingLoans(s.pools, s.loans, user);
    forall k | 0 <= k < |rows|
      ensures rows[k].id == ids[k] && RowReady(s, rows[k]) && s.loans[rows[k].id].borrower == user
    {
      assert ids[k] in ids;
    }
    forall j, k | 0 <= j < k < |rows|
      ensures rows[j].id != rows[k].id
    {
      assert Precedes(ids[j], ids[k], LoanAge(s.loans));
    }
  }

  lemma BudgetBounds(cfg: Config, amount: int)
    requires cfg.Valid() && amount > 0
    ensures 0 <= Budget(cfg, amount) <= amount
  {
    SharesWithin(amount, cfg.lienBasisPoints, 10_000);
  }

  lemma SharesWithin(amount: int, share: int, whole: int)
    requires amount > 0 && 0 <= share <= whole
    ensures 0 <= amount * share <= amount * whole
  {
    assert amount * (whole - share) >= 0;
  }

  lemma AfterCreditUnfolds(cfg: Config, s: State, now: Time, incoming: TransferId, receiverId: AccountId,
                           receiver: Account, amount: int, kind: Kind)
    requires !SpotMeKind(kind) && receiver.kind == UserAccount && receiver.owner.Some? && Budget(cfg, amount) >= 0
    ensures AfterCredit(cfg, s, now, incoming, receiverId, receiver, amount, kind)
      == Sweep(cfg, s, now, incoming, receiverId, receiver.owner.value,
               OutstandingLoans(s.pools, s.loans, receiver.owner.value), Budget(cfg, amount))
  {
    hide Execute, OutstandingLoans;
  }

  /** What a sweep after this credit repays: the smaller of the budget and the receiver's whole debt. */
  function LienOn(cfg: Config, s: State, c: TransferCommand): int
    requires InRange(s, c)
  {
    if Liened(s, c) then Min(Budget(cfg, c.amount), Sum(s.loans, UserOwed(s.accounts[c.receiver].owner.value))) else 0
  }

  function LienUser(s: State, c: TransferCommand): UserId
    requires InRange(s, c)
  {
    if s.accounts[c.receiver].owner.Some? then s.accounts[c.receiver].owner.value else 0
  }

  /** The rows a sweep reads add up to everything the user owes. */
  lemma OutstandingTotal(pools: seq<Pool>, loans: seq<Loan>, repayments: seq<Repayment>, user: UserId)
    requires LoansOk(pools, loans, repayments)
    ensures Sum(OutstandingLoans(pools, loans, user), RowOutstanding) == Sum(loans, UserOwed(user))
  {
    var ids := Where(loans, Owing(pools, user));
    assert forall l :: l in loans && !IsOwing(l, pools, user) ==> UserOwed(user)(l) == 0 by {
      forall l | l in loans && !IsOwing(l, pools, user)
        ensures UserOwed(user)(l) == 0
      {
        var i :| 0 <= i < |loans| && loans[i] == l;
        assert LoanOk(pools, loans, repayments, i);
      }
    }
    var owed := (i: nat) => if i < |loans| then UserOwed(user)(loans[i]) else 0;
    WhereSum(loans, Owing(pools, user), UserOwed(user), owed);
    OrderBySum(ids, LoanAge(loans), owed);
    RowsTotal(pools, loans, user, OwingIds(pools, loans, user), owed);
  }

  lemma {:induction false} RowsTotal(pools: seq<Pool>, loans: seq<Loan>, user: UserId, ids: seq<nat>, owed: nat -> int)
    requires forall i :: i in ids ==> i < |loans| && loans[i].pool < |pools| && loans[i].borrower == user
    requires forall i: nat :: i < |loans| ==> owed(i) == UserOwed(user)(loans[i])
    ensures Sum(LoanRows(pools, loans, ids), RowOutstanding) == Sum(ids, owed)
  {
    if ids != [] {
      var n := |ids| - 1;
      assert forall i :: i in ids[..n] ==> i in ids;
      RowsTotal(pools, loans, user, ids[..n], owed);
      assert LoanRows(pools, loans, ids)[..n] == LoanRows(pools, loans, ids[..n]);
      assert ids[n] in ids;
    }
  }

  /** The new row, then only lien rows. */
  predicate RowsAppended(before: seq<Transfer>, after: seq<Transfer>, row: Transfer, now: Time) {
    && |before| < |after| && before == after[..|before|] && after[|before|] == row
    && (forall i :: |before| < i < |after| ==> IsLienRow(after[i], row.receiver, now))
  }

  /** The new key and lien keys of the new transfer; every older record is as it was. */
  predicate KeysAdded(before: map<IdemKey, IdemRecord>, after: map<IdemKey, IdemRecord>, key: IdemKey,
                      record: IdemRecord, n: nat) {
    && key !in before && key in after && after[key] == record
    && (forall k :: k in before ==> k in after && after[k] == before[k])
    && (forall k :: k in after && k !in before && k != key ==>
          after[k].Completed? && k.endpoint == InternalLien && k.key.LienKey? && k.key.incoming == n)
  }

  /** Everything a first execution does, stated without its loop. */
  ghost predicate Posted(s: State, s': State, now: Time, c: TransferCommand, repaid: int)
    requires InRange(s, c)
  {
    && SameTables(s, s')
    && RowsAppended(s.transfers, s'.transfers, RowOf(now, c), now)
    && KeysAdded(s.idem, s'.idem, c.key, Completed(c.fingerprint, ResultOf(s, now, c).ToResponse()), |s.transfers|)
    && RepaidExactly(Charged(s, now, c), s', c.receiver, LienUser(s, c), repaid)
  }

  lemma SweptIsPosted(s: State, s2: State, now: Time, c: TransferCommand, repaid: int)
    requires InRange(s, c) && c.key !in s.idem && !(c.key.key.LienKey? && c.key.key.incoming == |s.transfers|)
    requires Swept(Charged(s, now, c), s2, now, |s.transfers|, c.receiver, LienUser(s, c), repaid)
    ensures Posted(s, Complete(s2, c.key, c.fingerprint, ResultOf(s, now, c).ToResponse()), now, c, repaid)
  {
    hide Sum, TransferLines;
    var s1 := Charged(s, now, c);
    var n := |s.transfers|;
    assert s1.transfers == s.transfers + [RowOf(now, c)];
    assert s2.transfers[..n] == s2.transfers[..n + 1][..n] == s.transfers;
    assert s2.transfers[n] == s2.transfers[..n + 1][n];
  }

  /** The central fact about `execute`: it succeeds exactly when its guards hold, and then does exactly this. */
  lemma ExecuteEffect(cfg: Config, s: State, now: Time, c: TransferCommand)
    requires cfg.fees == NoFee && cfg.Valid() && Core(s)
    requires LegalRow(s, now, c) && LienKeysOld(s.idem, |s.transfers|) && !c.key.key.LienKey?
    requires c.key !in s.idem
    ensures Execute(cfg, s, now, c).Ok? <==> Allowed(cfg, s, now, c)
    ensures Allowed(cfg, s, now, c) ==>
      var e := Execute(cfg, s, now, c).value;
      e.result == ResultOf(s, now, c) && Core(e.state) && Posted(s, e.state, now, c, LienOn(cfg, s, c))
  {
    ExecuteUnfolds(cfg, s, now, c);
    if Allowed(cfg, s, now, c) {
      var s2 := ChargeThenSweep(cfg, s, now, c);
      hide *;
      ChargedInRange(cfg, s, now, c);
      SweptIsPosted(s, s2, now, c, LienOn(cfg, s, c));
      CompleteKeepsCore(s2, c.key, c.fingerprint, ResultOf(s, now, c).ToResponse());
    }
  }

  lemma ChargedInRange(cfg: Config, s: State, now: Time, c: TransferCommand)
    requires Allowed(cfg, s, now, c)
    ensures InRange(s, c)
  {
  }

  lemma CompleteKeepsCore(s: State, key: IdemKey, fingerprint: Payload, body: Body)
    requires Core(s)
    ensures Core(Complete(s, key, fingerprint, body))
  {
  }

  lemma ChargeThenSweep(cfg: Config, s: State, now: Time, c: TransferCommand) returns (s2: State)
    requires cfg.fees == NoFee && cfg.Valid() && Core(s) && Allowed(cfg, s, now, c)
    requires LegalRow(s, now, c) && LienKeysOld(s.idem, |s.transfers|) && !c.key.key.LienKey?
    ensures AfterCredit(cfg, Charged(s, now, c), now, |s.transfers|, c.receiver, Credited(s, c), c.amount, c.kind)
      == Ok(s2)
    ensures Core(s2) && Swept(Charged(s, now, c), s2, now, |s.transfers|, c.receiver, LienUser(s, c), LienOn(cfg, s, c))
  {
    hide BooksOk, LoansOk, TransferLines, TransferOk, TransfersOk, SentToday, SumSentSince, Execute, Sum,
         OutstandingLoans, Sweep, RowReady, Swept;
    var s1 := Charged(s, now, c);
    ChargedKeepsCore(cfg, s, now, c);
    if Liened(s, c) {
      var user := s.accounts[c.receiver].owner.value;
      ChargedIsReady(cfg, s, now, c);
      AfterCreditUnfolds(cfg, s1, now, |s.transfers|, c.receiver, Credited(s, c), c.amount, c.kind);
      SweepSucceeds(cfg, s1, now, |s.transfers|, c.receiver, user, OutstandingLoans(s1.pools, s1.loans, user),
                    Budget(cfg, c.amount));
      OutstandingTotal(s.pools, s.loans, s.repayments, user);
      s2 := Sweep(cfg, s1, now, |s.transfers|, c.receiver, user, OutstandingLoans(s1.pools, s1.loans, user),
                  Budget(cfg, c.amount)).value;
    } else {
      s2 := s1;
      SweptNothing(s1, now, |s.transfers|, c.receiver, LienUser(s, c));
    }
  }

  lemma SweptNothing(s: State, now: Time, incoming: TransferId, payer: AccountId, user: UserId)
    ensures Swept(s, s, now, incoming, payer, user, 0)
  {
  }

  /** The state after a leg that triggers no repayment. */
  function Paid(s: State, now: Time, c: TransferCommand): State
    requires InRange(s, c)
  {
    Complete(Charged(s, now, c), c.key, c.fingerprint, ResultOf(s, now, c).ToResponse())
  }

  /** With no lien on the receiver, an execution is its leg alone. */
  lemma UnlienedExecute(cfg: Config, s: State, now: Time, c: TransferCommand)
    requires cfg.fees == NoFee && Allowed(cfg, s, now, c) && !Liened(s, c)
    ensures Execute(cfg, s, now, c)
         == Ok(Executed(Paid(s, now, c), ResultOf(s, now, c)))
  {
    hide SentToday, SumSentSince, MayMove, Authorize, OutstandingLoans;
    ExecuteUnfolds(cfg, s, now, c);
  }

  /** An execution whose receiver has nothing to repay is its leg alone. */
  lemma DebtlessExecute(cfg: Config, s: State, now: Time, c: TransferCommand)
    requires cfg.fees == NoFee && cfg.Valid() && Allowed(cfg, s, now, c)
    requires forall l :: 0 <= l < |s.loans| ==> Some(s.loans[l].borrower) != s.accounts[c.receiver].owner
    ensures Execute(cfg, s, now, c) == Ok(Executed(Paid(s, now, c), ResultOf(s, now, c)))
  {
    hide SentToday, MayMove, OutstandingLoans, Execute;
    ExecuteUnfolds(cfg, s, now, c);
    if Liened(s, c) {
      NothingOutstanding(s.pools, s.loans, s.accounts[c.receiver].owner.value);
      BudgetBounds(cfg, c.amount);
      AfterCreditUnfolds(cfg, Charged(s, now, c), now, |s.transfers|, c.receiver, Credited(s, c), c.amount, c.kind);
    } else {
      UnlienedExecute(cfg, s, now, c);
    }
  }

  lemma NothingOutstanding(pools: seq<Pool>, loans: seq<Loan>, user: UserId)
    requires forall l :: 0 <= l < |loans| ==> loans[l].borrower != user
    ensures OutstandingLoans(pools, loans, user) == []
  {
    NoMembers(OwingIds(pools, loans, user));
  }

  lemma NoMembers(ids: seq<nat>)
    ensures (forall i: nat :: i !in ids) ==> ids == []
  {
    if ids != [] {
      assert ids[0] in ids;
    }
  }
}
