/** What every committed state satisfies, table by table. */
module Invariants {
  import opened Kernel
  import opened Sums
  import opened Accounts
  import opened Ledger
  import opened Policies
  import opened Tables
  import opened Transfers
  import opened Scheduling

  // -- accounts -------------------------------------------------------------

  predicate AccountOk(i: nat, a: Account) {
    && (i == ISSUANCE <==> a.kind == SystemIssuance)
    && (i == ESCROW <==> a.kind == EscrowAccount)
    && (i == PENDING_SETTLEMENT <==> a.kind == PendingSettlement)
    && (a.owner.None? <==> i < 3)
    && (a.kind != UserAccount ==> a.status == Active)
    && (i != ISSUANCE ==> a.balance >= 0)
  }

  predicate AccountsOk(accounts: seq<Account>) {
    && |accounts| >= 3
    && (forall i :: 0 <= i < |accounts| ==> AccountOk(i, accounts[i]))
    && (forall i, j :: 0 <= i < j < |accounts| && accounts[i].kind == UserAccount && accounts[j].kind == UserAccount
          ==> accounts[i].owner != accounts[j].owner)
  }

  /** Everything about the accounts but their balances and versions. */
  predicate SameShape(before: seq<Account>, after: seq<Account>) {
    && |before| == |after|
    && (forall i :: 0 <= i < |before| ==>
          before[i].kind == after[i].kind && before[i].owner == after[i].owner && before[i].status == after[i].status)
  }

  /** `after` has every account of `before`, with the same owner and kind. */
  predicate AccountsKept(before: seq<Account>, after: seq<Account>) {
    && |before| <= |after|
    && (forall i :: 0 <= i < |before| ==> after[i].kind == before[i].kind && after[i].owner == before[i].owner)
  }

  function BalanceOf(accounts: seq<Account>, a: AccountId): int {
    if a < |accounts| then accounts[a].balance else 0
  }

  // -- the books ------------------------------------------------------------

  predicate PostingMatches(i: nat, posting: Posting, t: Transfer) {
    && posting.transfer == i
    && |posting.lines| == 2
    && posting.lines[0].account == t.sender && posting.lines[0].amount == -t.amount
    && posting.lines[1].account == t.receiver && posting.lines[1].amount == t.amount
    && t.amount > 0 && t.sender != t.receiver
  }

  /** Each line's stored balance is its account's running total in posting order. */
  predicate RunningBalances(postings: seq<Posting>, i: nat)
    requires i < |postings|
  {
    forall k :: 0 <= k < |postings[i].lines| ==>
      postings[i].lines[k].balanceAfter == Sum(postings[..i + 1], EntryFor(postings[i].lines[k].account))
  }

  predicate BooksOk(accounts: seq<Account>, transfers: seq<Transfer>, postings: seq<Posting>) {
    && |postings| == |transfers|
    && (forall i :: 0 <= i < |postings| ==> PostingMatches(i, postings[i], transfers[i]))
    && (forall i :: 0 <= i < |postings| ==> RunningBalances(postings, i))
    && (forall a :: 0 <= a < |accounts| ==> accounts[a].balance == Sum(postings, EntryFor(a)))
  }

  // -- transfers ------------------------------------------------------------

  predicate IsHold(kind: Kind) { kind == UndoHold || kind == EscrowHold }

  predicate IsOpen(status: TransferStatus) { status == PendingUndo || status == Held }

  predicate IsKind(accounts: seq<Account>, a: AccountId, kind: AccountType) {
    a < |accounts| && accounts[a].kind == kind
  }

  predicate HoldOk(accounts: seq<Account>, t: Transfer, holding: AccountId, open: TransferStatus) {
    && t.receiver == holding
    && IsKind(accounts, t.sender, UserAccount) && accounts[t.sender].owner == Some(t.initiatedBy)
    && t.intended.Some? && IsKind(accounts, t.intended.value, UserAccount)
    && t.status in {open, Succeeded, Refunded}
    && t.parent == None
  }

  /** A settlement leg pays out exactly its hold, to the party its hold's status names. */
  predicate LegOk(transfers: seq<Transfer>, i: nat, holding: AccountId, hold: Kind, outcome: TransferStatus)
    requires i < |transfers|
  {
    var t := transfers[i];
    && t.sender == holding && t.status == Succeeded
    && t.parent.Some? && t.parent.value < i
    && var h := transfers[t.parent.value];
       && h.kind == hold && h.status == outcome && h.amount == t.amount
       && Some(t.receiver) == (if outcome == Succeeded then h.intended else Some(h.sender))
  }

  predicate PlainOk(accounts: seq<Account>, t: Transfer, from: AccountType, to: AccountType) {
    && IsKind(accounts, t.sender, from) && IsKind(accounts, t.receiver, to)
    && t.status == Succeeded && t.parent == None
  }

  predicate TransferOk(accounts: seq<Account>, transfers: seq<Transfer>, i: nat)
    requires i < |transfers|
  {
    var t := transfers[i];
    && t.amount > 0 && t.sender != t.receiver && t.sender < |accounts| && t.receiver < |accounts|
    && match t.kind
       case UndoHold => HoldOk(accounts, t, PENDING_SETTLEMENT, PendingUndo)
       case EscrowHold => HoldOk(accounts, t, ESCROW, Held)
       case UndoSettle => LegOk(transfers, i, PENDING_SETTLEMENT, UndoHold, Succeeded)
       case UndoRefund => LegOk(transfers, i, PENDING_SETTLEMENT, UndoHold, Refunded)
       case EscrowRelease => LegOk(transfers, i, ESCROW, EscrowHold, Succeeded)
       case EscrowRefund => LegOk(transfers, i, ESCROW, EscrowHold, Refunded)
       case SignupGrant => PlainOk(accounts, t, SystemIssuance, UserAccount)
       case RequestSettlement => PlainOk(accounts, t, UserAccount, UserAccount)
       case OverdraftDraw => PlainOk(accounts, t, OverdraftPool, UserAccount)
       case OverdraftRepay => PlainOk(accounts, t, UserAccount, OverdraftPool)
       case OverdraftFund => PlainOk(accounts, t, UserAccount, OverdraftPool)
  }

  predicate TransfersOk(accounts: seq<Account>, transfers: seq<Transfer>) {
    forall i :: 0 <= i < |transfers| ==> TransferOk(accounts, transfers, i)
  }

  function LegOf(hold: TransferId): Transfer -> int {
    (t: Transfer) => if t.parent == Some(hold) then 1 else 0
  }

  /** How many settlement legs a transfer must have: one once it is a closed hold, otherwise none. */
  function LegsDue(transfers: seq<Transfer>, h: TransferId): int {
    if h < |transfers| && IsHold(transfers[h].kind) && !IsOpen(transfers[h].status) then 1 else 0
  }

  ghost predicate LegsOk(transfers: seq<Transfer>) {
    forall h: TransferId :: Sum(transfers, LegOf(h)) == LegsDue(transfers, h)
  }

  // -- holding accounts -----------------------------------------------------

  function UndoOpen(t: Transfer): int { if t.status == PendingUndo then t.amount else 0 }

  function EscrowOpen(t: Transfer): int { if t.status == Held then t.amount else 0 }

  /** Balance of the undo holding account beyond the holds still open. */
  function PendingGap(accounts: seq<Account>, transfers: seq<Transfer>): int {
    BalanceOf(accounts, PENDING_SETTLEMENT) - Sum(transfers, UndoOpen)
  }

  function EscrowGap(accounts: seq<Account>, transfers: seq<Transfer>): int {
    BalanceOf(accounts, ESCROW) - Sum(transfers, EscrowOpen)
  }

  // -- Spot-Me --------------------------------------------------------------

  predicate PoolsOk(accounts: seq<Account>, pools: seq<Pool>) {
    && (forall p :: 0 <= p < |pools| ==>
          IsKind(accounts, pools[p].account, OverdraftPool) && accounts[pools[p].account].owner
              == Some(pools[p].sponsor))
    && (forall p, q :: 0 <= p < q < |pools| ==> pools[p].account != pools[q].account)
  }

  function RepaidOn(loan: nat): Repayment -> int {
    (r: Repayment) => if r.loan == loan then r.amount else 0
  }

  predicate LoanOk(pools: seq<Pool>, loans: seq<Loan>, repayments: seq<Repayment>, l: nat)
    requires l < |loans|
  {
    && loans[l].pool < |pools|
    && 0 < loans[l].principal
    && 0 <= loans[l].outstanding
    && (loans[l].status == Repaid <==> loans[l].outstanding == 0)
    && loans[l].principal == loans[l].outstanding + Sum(repayments, RepaidOn(l))
  }

  predicate LoansOk(pools: seq<Pool>, loans: seq<Loan>, repayments: seq<Repayment>) {
    && (forall l :: 0 <= l < |loans| ==> LoanOk(pools, loans, repayments, l))
    && (forall r :: 0 <= r < |repayments| ==> repayments[r].loan < |loans| && repayments[r].amount > 0)
  }

  /** Some grant of the loan's pool let its borrower draw that much. */
  predicate Granted(grants: seq<Grant>, loan: Loan) {
    exists g :: 0 <= g < |grants|
      && grants[g].pool == loan.pool && grants[g].beneficiary == loan.borrower && loan.principal <= grants[g].maxDraw
  }

  /** A loan is a draw of its principal from its pool into its borrower's account, under a grant that allowed it. */
  predicate LoanBacked(s: State, loan: Loan) {
    && loan.draw < |s.transfers| && loan.pool < |s.pools| && Granted(s.grants, loan)
    && var t := s.transfers[loan.draw];
       && t.kind == OverdraftDraw && t.amount == loan.principal && t.createdAt == loan.createdAt
       && t.sender == s.pools[loan.pool].account
       && IsKind(s.accounts, t.receiver, UserAccount) && s.accounts[t.receiver].owner == Some(loan.borrower)
  }

  /**
   * A repayment is a transfer of its amount from the loan's borrower to its pool, out of the credit that triggered
   * it.
   */
  predicate RepaymentBacked(s: State, r: Repayment) {
    && r.loan < |s.loans| && s.loans[r.loan].pool < |s.pools| && r.trigger < r.transfer < |s.transfers|
    && var t := s.transfers[r.transfer];
       && t.kind == OverdraftRepay && t.amount == r.amount
       && t.receiver == s.pools[s.loans[r.loan].pool].account
       && t.sender < |s.accounts| && s.accounts[t.sender].owner == Some(s.loans[r.loan].borrower)
       && s.transfers[r.trigger].receiver == t.sender && !SpotMeKind(s.transfers[r.trigger].kind)
  }

  predicate Backed(s: State) {
    && (forall l :: 0 <= l < |s.loans| ==> LoanBacked(s, s.loans[l]))
    && (forall r :: 0 <= r < |s.repayments| ==> RepaymentBacked(s, s.repayments[r]))
    && (forall l, m :: 0 <= l < m < |s.loans| ==> s.loans[l].draw != s.loans[m].draw)
    && (forall q, r :: 0 <= q < r < |s.repayments| ==> s.repayments[q].transfer != s.repayments[r].transfer)
  }

  function PoolOwed(pool: nat): Loan -> int {
    (l: Loan) => if l.pool == pool then l.outstanding else 0
  }

  function UserOwed(user: UserId): Loan -> int {
    (l: Loan) => if l.borrower == user then l.outstanding else 0
  }

  function FundedInto(account: AccountId): Transfer -> int {
    (t: Transfer) => if t.kind == OverdraftFund && t.receiver == account then t.amount else 0
  }

  /** Pool balance plus what is owed to it, beyond everything ever paid in. */
  function PoolGap(accounts: seq<Account>, transfers: seq<Transfer>, pools: seq<Pool>, loans: seq<Loan>, p: nat): int
    requires p < |pools|
  {
    BalanceOf(accounts, pools[p].account) + Sum(loans, PoolOwed(p)) - Sum(transfers, FundedInto(pools[p].account))
  }

  predicate PoolsWhole(accounts: seq<Account>, transfers: seq<Transfer>, pools: seq<Pool>, loans: seq<Loan>) {
    forall p :: 0 <= p < |pools| ==> PoolGap(accounts, transfers, pools, loans, p) == 0
  }

  /** Balance minus Spot-Me debt. */
  function NetPosition(accounts: seq<Account>, loans: seq<Loan>, a: AccountId, user: UserId): int {
    BalanceOf(accounts, a) - Sum(loans, UserOwed(user))
  }

  // -- daily cap ------------------------------------------------------------

  /** The kinds whose commands enforce limits. */
  predicate LimitedKind(kind: Kind) {
    kind in {UndoHold, EscrowHold, RequestSettlement, OverdraftFund}
  }

  function CappedOn(account: AccountId, day: int): Transfer -> int {
    (t: Transfer) =>
      if t.sender == account && DayOf(t.createdAt) == day && LimitedKind(t.kind) && CountsAsSent(t.status)
      then t.amount else 0
  }

  /** Every limit-enforced row is within the single limit, and no day's rows of one account exceed the daily total. */
  ghost predicate DailyOk(cfg: Config, transfers: seq<Transfer>) {
    && (forall a: AccountId, day: int :: Sum(transfers, CappedOn(a, day)) <= cfg.dailyTotal)
    && (forall i :: 0 <= i < |transfers| && LimitedKind(transfers[i].kind) ==> transfers[i].amount <= cfg.maxSingle)
  }

  // -- escrows --------------------------------------------------------------

  predicate EscrowOk(accounts: seq<Account>, transfers: seq<Transfer>, e: Escrow) {
    && e.hold < |transfers|
    && var h := transfers[e.hold];
       && h.kind == EscrowHold && h.amount == e.amount && h.initiatedBy == e.buyer
       && h.intended.Some? && h.intended.value < |accounts| && accounts[h.intended.value].owner == Some(e.seller)
       && match e.status
          case Released =>
            h.status == Succeeded && SettledBy(transfers, e, EscrowRelease, h.intended.value)
          case EscrowRefunded =>
            h.status == Refunded && SettledBy(transfers, e, EscrowRefund, h.sender)
          case _ => h.status == Held && e.settlement == None
  }

  predicate SettledBy(transfers: seq<Transfer>, e: Escrow, kind: Kind, to: AccountId) {
    && e.settlement.Some? && e.settlement.value < |transfers|
    && var leg := transfers[e.settlement.value];
       leg.kind == kind && leg.parent == Some(e.hold) && leg.receiver == to && leg.amount == e.amount
  }

  predicate EscrowsOk(accounts: seq<Account>, transfers: seq<Transfer>, escrows: seq<Escrow>) {
    && (forall e :: 0 <= e < |escrows| ==> EscrowOk(accounts, transfers, escrows[e]))
    && (forall e, f :: 0 <= e < f < |escrows| ==> escrows[e].hold != escrows[f].hold)
  }

  // -- money requests -------------------------------------------------------

  predicate RequestOk(accounts: seq<Account>, transfers: seq<Transfer>, r: MoneyRequest) {
    && IsKind(accounts, r.requester, UserAccount) && IsKind(accounts, r.payer, UserAccount)
    && r.amount > 0
    && (r.status == Accepted <==> r.transfer.Some?)
    && (r.transfer.Some? ==>
          && r.transfer.value < |transfers|
          && var t := transfers[r.transfer.value];
             t.kind == RequestSettlement && t.sender == r.payer && t.receiver == r.requester && t.amount == r.amount)
  }

  predicate RequestsOk(accounts: seq<Account>, transfers: seq<Transfer>, requests: seq<MoneyRequest>) {
    && (forall r :: 0 <= r < |requests| ==> RequestOk(accounts, transfers, requests[r]))
    && (forall r, q :: 0 <= r < q < |requests| && requests[r].transfer.Some? ==>
          requests[r].transfer != requests[q].transfer)
  }

  // -- tasks ----------------------------------------------------------------

  predicate Live(tasks: map<TaskKey, Task>, key: TaskKey) {
    key in tasks && tasks[key].status in {TaskPending, TaskFailed}
  }

  predicate TaskOk(transfers: seq<Transfer>, escrows: seq<Escrow>, key: TaskKey, task: Task) {
    && (key.taskType == UndoSettleTask ==> key.resource < |transfers|)
    && (key.taskType == AutoReleaseTask ==>
          key.resource < |escrows| && escrows[key.resource].status !in {AwaitingShipment, Shipped})
    && (task.status == TaskPending ==> task.attempts < MAX_ATTEMPTS)
    && (task.status == TaskFailed ==> task.attempts == MAX_ATTEMPTS)
    && task.attempts <= MAX_ATTEMPTS
  }

  /** No stranded money: whatever only the scheduler will move has a live task. */
  predicate TasksOk(transfers: seq<Transfer>, escrows: seq<Escrow>, tasks: map<TaskKey, Task>) {
    && (forall key :: key in tasks ==> TaskOk(transfers, escrows, key, tasks[key]))
    && (forall t :: 0 <= t < |transfers| && transfers[t].status == PendingUndo ==>
        Live(tasks, TaskKey(UndoSettleTask, t)))
    && (forall e :: 0 <= e < |escrows| && escrows[e].status == Delivered ==> Live(tasks, TaskKey(AutoReleaseTask, e)))
  }

  // -- idempotency ----------------------------------------------------------

  /** What a key proves about the rows its command wrote. */
  predicate KeyOk(s: State, k: IdemKey, fingerprint: Payload) {
    && (k.endpoint.UndoOf? ==> k.endpoint.transfer < |s.transfers|)
    && (match k.key
        case ClientKey(_) =>
          k.endpoint == Transfers && fingerprint.RequestPayload? ==>
            fingerprint.request < |s.requests| && s.requests[fingerprint.request].status == Accepted
        case SignupKey(user) => FindUser(s.accounts, user).Some?
        case PoolFundKey(pool) => pool < |s.pools|
        case DrawKey(key) =>
          fingerprint.DrawPayload? && IdemKey(fingerprint.borrower, Transfers, ClientKey(key)) in s.idem
        case UndoHoldKey(key) => IdemKey(k.actor, Transfers, ClientKey(key)) in s.idem
        case SafePayHoldKey(escrow) => escrow < |s.escrows|
        case SettleKey(hold, outcome) =>
          hold < |s.transfers| && s.transfers[hold].status == outcome && !IsOpen(outcome)
        case LienKey(incoming, _) => incoming < |s.transfers|)
  }

  predicate IdemOk(s: State) {
    forall k :: k in s.idem ==> s.idem[k].Completed? && KeyOk(s, k, s.idem[k].fingerprint)
  }

  // -- all together ---------------------------------------------------------

  /** The part that holds between any two ledger legs, even inside a command. */
  predicate Core(s: State) {
    && AccountsOk(s.accounts)
    && BooksOk(s.accounts, s.transfers, s.postings)
    && TransfersOk(s.accounts, s.transfers)
    && PoolsOk(s.accounts, s.pools)
    && LoansOk(s.pools, s.loans, s.repayments)
    && Backed(s)
  }

  ghost predicate Inv(cfg: Config, s: State) {
    && Core(s)
    && LegsOk(s.transfers)
    && PendingGap(s.accounts, s.transfers) == 0
    && EscrowGap(s.accounts, s.transfers) == 0
    && PoolsWhole(s.accounts, s.transfers, s.pools, s.loans)
    && DailyOk(cfg, s.transfers)
    && EscrowsOk(s.accounts, s.transfers, s.escrows)
    && RequestsOk(s.accounts, s.transfers, s.requests)
    && TasksOk(s.transfers, s.escrows, s.tasks)
    && IdemOk(s)
  }
}
