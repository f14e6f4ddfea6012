/** Which loans a credit repays: oldest first, at most one of them in part. */
module Liens {
  import opened Kernel
  import opened Sums
  import opened Queries
  import opened Accounts
  import opened Policies
  import opened Tables
  import opened Transfers
  import opened Invariants
  import opened Idempotency
  import opened Legs
  import opened Sweeps
  import opened Executions

  /** Closed form of the loop: what is left of the budget once every earlier row is paid off. */
  function PaidTo(rows: seq<LoanRow>, k: nat, budget: int): int
    requires k < |rows|
  {
    Max(0, Min(rows[k].outstanding, budget - Sum(rows[..k], RowOutstanding)))
  }

  /** The loan table after `budget` has been paid out over `rows`. */
  predicate PaidInOrder(before: seq<Loan>, after: seq<Loan>, rows: seq<LoanRow>, budget: int) {
    && |after| == |before|
    && (forall k :: 0 <= k < |rows| ==> rows[k].id < |before|)
    && (forall k :: 0 <= k < |rows| ==>
          after[rows[k].id].outstanding == before[rows[k].id].outstanding - PaidTo(rows, k, budget))
    && (forall l :: 0 <= l < |before| && (forall k :: 0 <= k < |rows| ==> rows[k].id != l) ==> after[l] == before[l])
  }

  predicate Positive(rows: seq<LoanRow>) { forall k :: 0 <= k < |rows| ==> rows[k].outstanding > 0 }

  lemma PrefixSplits(rows: seq<LoanRow>, k: nat)
    requires 0 < k <= |rows|
    ensures Sum(rows[..k], RowOutstanding) == rows[0].outstanding + Sum(rows[1..][..k - 1], RowOutstanding)
  {
    assert rows[..k] == [rows[0]] + rows[1..][..k - 1];
    SumConcat([rows[0]], rows[1..][..k - 1], RowOutstanding);
    assert [rows[0]][..0] == [];
  }

  lemma PrefixNonNegative(rows: seq<LoanRow>, k: nat)
    requires Positive(rows) && k <= |rows|
    ensures Sum(rows[..k], RowOutstanding) >= 0
  {
    SumNonNegative(rows[..k], RowOutstanding);
  }

  /** Paying the first row and then the rest is the closed form of the whole. */
  lemma PaidToRest(rows: seq<LoanRow>, k: nat, budget: int)
    requires Positive(rows) && 0 < k < |rows| && budget > 0
    ensures PaidTo(rows[1..], k - 1, budget - Min(budget, rows[0].outstanding)) == PaidTo(rows, k, budget)
  {
    hide Sum;
    PrefixSplits(rows, k);
    assert Positive(rows[1..]);
    PrefixNonNegative(rows[1..], k - 1);
  }

  lemma {:induction false} SweepInOrder(cfg: Config, s: State, now: Time, incoming: TransferId, payer: AccountId,
                                        user: UserId,
                                        rows: seq<LoanRow>, budget: int)
    requires cfg.fees == NoFee && budget >= 0 && Ready(s, incoming, payer, user, rows, budget)
    ensures Sweep(cfg, s, now, incoming, payer, user, rows, budget).Ok?
    ensures PaidInOrder(s.loans, Sweep(cfg, s, now, incoming, payer, user, rows, budget).value.loans, rows, budget)
    decreases |rows|
  {
    hide Execute, Sum, Swept, Core, Sweep;
    forall k | 0 <= k < |rows|
      ensures rows[k].id < |s.loans| && rows[k].outstanding > 0
    {
      assert RowReady(s, rows[k]);
    }
    if rows == [] || budget == 0 {
      assert Sum(rows, RowOutstanding) >= 0 by { SumNonNegative(rows, RowOutstanding); }
      SweepStops(cfg, s, now, incoming, payer, user, rows, budget);
      NothingPaid(s.loans, rows, budget);
    } else {
      var amount := Min(budget, rows[0].outstanding);
      var s1 := SweepUnfolds(cfg, s, now, incoming, payer, user, rows, budget);
      SweepInOrder(cfg, s1, now, incoming, payer, user, rows[1..], budget - amount);
      assert RowReady(s, rows[0]);
      var rest := Sweep(cfg, s1, now, incoming, payer, user, rows[1..], budget - amount);
      FirstThenRest(s.loans, s1.loans, rest.value.loans, rows, budget);
    }
  }

  lemma NothingPaid(loans: seq<Loan>, rows: seq<LoanRow>, budget: int)
    requires Positive(rows) && (rows == [] || budget == 0) && forall k :: 0 <= k < |rows| ==> rows[k].id < |loans|
    ensures PaidInOrder(loans, loans, rows, budget)
  {
    forall k | 0 <= k < |rows|
      ensures PaidTo(rows, k, budget) == 0
    {
      PrefixNonNegative(rows, k);
    }
  }

  lemma FirstThenRest(before: seq<Loan>, mid: seq<Loan>, after: seq<Loan>, rows: seq<LoanRow>, budget: int)
    requires rows != [] && budget > 0 && Positive(rows)
    requires forall k :: 0 <= k < |rows| ==> rows[k].id < |before|
    requires forall j, k :: 0 <= j < k < |rows| ==> rows[j].id != rows[k].id
    requires |mid| == |before| && before[rows[0].id].outstanding == rows[0].outstanding
    requires mid[rows[0].id].outstanding == rows[0].outstanding - Min(budget, rows[0].outstanding)
    requires forall l :: 0 <= l < |before| && l != rows[0].id ==> mid[l] == before[l]
    requires PaidInOrder(mid, after, rows[1..], budget - Min(budget, rows[0].outstanding))
    ensures PaidInOrder(before, after, rows, budget)
  {
    hide Sum;
    var rest := rows[1..];
    forall k | 0 <= k < |rows|
      ensures after[rows[k].id].outstanding == before[rows[k].id].outstanding - PaidTo(rows, k, budget)
    {
      if k == 0 {
        assert forall j :: 0 <= j < |rest| ==> rest[j].id != rows[0].id;
        assert rows[..0] == [];
        assert Sum(rows[..0], RowOutstanding) == 0 by { SumZero(rows[..0], RowOutstanding); }
      } else {
        PaidToRest(rows, k, budget);
        assert rest[k - 1] == rows[k];
      }
    }
    forall l | 0 <= l < |before| && (forall k :: 0 <= k < |rows| ==> rows[k].id != l)
      ensures after[l] == before[l]
    {
      assert l != rows[0].id;
      assert forall j :: 0 <= j < |rest| ==> rest[j].id == rows[j + 1].id;
    }
  }

  /** A credit repays the receiver's loans in order of age; the loans it does not reach are untouched. */
  lemma CreditRepaysInOrder(cfg: Config, s: State, now: Time, c: TransferCommand)
    requires cfg.fees == NoFee && cfg.Valid() && Core(s) && Allowed(cfg, s, now, c)
    requires LegalRow(s, now, c) && LienKeysOld(s.idem, |s.transfers|) && !c.key.key.LienKey? && Liened(s, c)
    ensures var user := s.accounts[c.receiver].owner.value;
      var rows := OutstandingLoans(s.pools, s.loans, user);
      && Execute(cfg, s, now, c).Ok?
      && PaidInOrder(s.loans, Execute(cfg, s, now, c).value.state.loans, rows, Budget(cfg, c.amount))
  {
    hide BooksOk, LoansOk, TransferOk, TransfersOk, SentToday, SumSentSince, Execute, Sum, OutstandingLoans, Sweep,
         RowReady, PaidInOrder, Core;
    var s1 := Charged(s, now, c);
    var user := s.accounts[c.receiver].owner.value;
    ExecuteUnfolds(cfg, s, now, c);
    ChargedIsReady(cfg, s, now, c);
    AfterCreditUnfolds(cfg, s1, now, |s.transfers|, c.receiver, Credited(s, c), c.amount, c.kind);
    SweepInOrder(cfg, s1, now, |s.transfers|, c.receiver, user, OutstandingLoans(s1.pools, s1.loans, user),
                 Budget(cfg, c.amount));
  }

  /** What `user` owes in all. */
  function Owes(loans: seq<Loan>, user: UserId): int { Sum(loans, UserOwed(user)) }

  /** The credit reaches `user`'s own account, and is not itself a Spot-Me movement. */
  predicate CreditsUser(s: State, c: TransferCommand, user: UserId) {
    && IsKind(s.accounts, c.receiver, UserAccount) && s.accounts[c.receiver].owner == Some(user)
    && c.kind !in {OverdraftDraw, OverdraftRepay}
  }

  /**
   * What a credit takes off the receiver's debt is the largest whole amount within the lien's share of it, or the whole
   * debt if that is less; nobody else's debt changes.
   */
  lemma CreditSweepsFloor(cfg: Config, s: State, now: Time, c: TransferCommand, user: UserId)
    requires cfg.fees == NoFee && cfg.Valid() && Core(s) && Allowed(cfg, s, now, c)
    requires LegalRow(s, now, c) && LienKeysOld(s.idem, |s.transfers|) && !c.key.key.LienKey?
    ensures Execute(cfg, s, now, c).Ok?
    ensures var s' := Execute(cfg, s, now, c).value.state;
      var swept := Owes(s.loans, user) - Owes(s'.loans, user);
      if !CreditsUser(s, c, user) then swept == 0
      else
        && 0 <= swept && 10_000 * swept <= c.amount * cfg.lienBasisPoints
        && (Owes(s'.loans, user) > 0 ==> c.amount * cfg.lienBasisPoints < 10_000 * (swept + 1))
        && Owes(s'.loans, user) >= 0
        && BalanceOf(s'.accounts, c.receiver) == BalanceOf(s.accounts, c.receiver) + c.amount - swept
  {
    hide BooksOk, TransferOk, TransfersOk, SentToday, Execute, Sum, LienKeysOld, Backed, PoolsOk, RunningBalances,
         SameTables, RowsAppended, KeysAdded, LegalRow;
    ExecuteEffect(cfg, s, now, c);
    DebtsNonNegative(s.pools, s.loans, s.repayments, user);
    DebtsNonNegative(s.pools, s.loans, s.repayments, LienUser(s, c));
    BudgetIsFloor(cfg, c.amount);
    var s' := Execute(cfg, s, now, c).value.state;
    LegBalances(Begin(s, c.key, c.fingerprint), now, c, c.receiver);
    assert BalanceOf(s'.accounts, c.receiver) == BalanceOf(Charged(s, now, c).accounts, c.receiver) - LienOn(cfg, s, c);
  }

  lemma BudgetIsFloor(cfg: Config, amount: int)
    requires cfg.Valid() && amount > 0
    ensures var x := amount * cfg.lienBasisPoints;
      0 <= 10_000 * Budget(cfg, amount) <= x < 10_000 * (Budget(cfg, amount) + 1)
  {
    BudgetBounds(cfg, amount);
  }

  lemma DebtsNonNegative(pools: seq<Pool>, loans: seq<Loan>, repayments: seq<Repayment>, user: UserId)
    requires LoansOk(pools, loans, repayments)
    ensures Sum(loans, UserOwed(user)) >= 0
  {
    forall l | l in loans
      ensures UserOwed(user)(l) >= 0
    {
      var i :| 0 <= i < |loans| && loans[i] == l;
      assert LoanOk(pools, loans, repayments, i);
    }
    SumNonNegative(loans, UserOwed(user));
  }

  /** Rows come oldest first, each once; if a row is paid at all, every older one is paid off. */
  lemma OldestFirst(pools: seq<Pool>, loans: seq<Loan>, user: UserId, budget: int, j: nat, k: nat)
    requires var rows := OutstandingLoans(pools, loans, user); j < k < |rows|
    ensures var rows := OutstandingLoans(pools, loans, user);
      && rows[j].id < |loans| && rows[k].id < |loans|
      && (loans[rows[j].id].createdAt < loans[rows[k].id].createdAt
          || (loans[rows[j].id].createdAt == loans[rows[k].id].createdAt && rows[j].id < rows[k].id))
      && (PaidTo(rows, k, budget) > 0 ==> PaidTo(rows, j, budget) == rows[j].outstanding)
  {
    var ids := OwingIds(pools, loans, user);
    var rows := OutstandingLoans(pools, loans, user);
    assert ids[j] in ids && ids[k] in ids;
    assert Precedes(ids[j], ids[k], LoanAge(loans));
    forall i | 0 <= i < |rows|
      ensures rows[i].outstanding > 0
    {
      assert ids[i] in ids;
    }
    PrefixGrows(rows, j, k);
  }

  lemma PrefixGrows(rows: seq<LoanRow>, j: nat, k: nat)
    requires Positive(rows) && j < k < |rows|
    ensures Sum(rows[..k], RowOutstanding) >= Sum(rows[..j], RowOutstanding) + rows[j].outstanding
  {
    assert rows[..k] == rows[..j + 1] + rows[j + 1..k];
    SumConcat(rows[..j + 1], rows[j + 1..k], RowOutstanding);
    assert rows[..j + 1][..j] == rows[..j];
    SumNonNegative(rows[j + 1..k], RowOutstanding);
  }

  // -- locks ----------------------------------------------------------------

  /** The rows `execute` locks, in one batch, before it reads a balance. */
  function LockSet(s: State, c: TransferCommand): set<AccountId> {
    {c.sender, c.receiver} + set a | a in AdditionalLockIds(s, c.receiver, c.kind)
  }

  /** Every repayment leg of the sweep asks only for rows its trigger already locked. */
  lemma SweepLocksCovered(s: State, now: Time, c: TransferCommand, incoming: TransferId, k: nat, amount: int)
    requires InRange(s, c) && Liened(s, c)
    requires k < |OutstandingLoans(s.pools, s.loans, s.accounts[c.receiver].owner.value)|
    ensures var user := s.accounts[c.receiver].owner.value;
      LockSet(Charged(s, now, c), RepayCommand(user, c.receiver, incoming,
                                               OutstandingLoans(s.pools, s.loans, user)[k], amount)) <= LockSet(s, c)
  {
    hide OutstandingLoans;
    var rows := OutstandingLoans(s.pools, s.loans, s.accounts[c.receiver].owner.value);
    assert AdditionalLockIds(s, c.receiver, c.kind)[k] == rows[k].poolAccount;
  }
}
