/** The repayment lien: the loop that re-enters the transfer engine after a credit. */
module Sweeps {
  import opened Kernel
  import opened Sums
  import opened Accounts
  import opened Ledger
  import opened Policies
  import opened Tables
  import opened Idempotency
  import opened Transfers
  import opened Invariants
  import opened Legs
  import opened Backing

  /** The row agrees with the loan it was read from. */
  predicate RowReady(s: State, row: LoanRow) {
    && row.id < |s.loans|
    && s.loans[row.id].status == Outstanding
    && s.loans[row.id].outstanding == row.outstanding > 0
    && s.loans[row.id].pool < |s.pools|
    && row.poolAccount == s.pools[s.loans[row.id].pool].account
  }

  predicate PayerReady(s: State, payer: AccountId, user: UserId, budget: int) {
    && IsKind(s.accounts, payer, UserAccount)
    && s.accounts[payer].owner == Some(user)
    && s.accounts[payer].status == Active
    && s.accounts[payer].balance >= budget
  }

  function LienIdemKey(user: UserId, incoming: TransferId, loan: nat): IdemKey {
    IdemKey(user, InternalLien, LienKey(incoming, loan))
  }

  /** What the loop relies on at the head of every turn. */
  predicate Ready(s: State, incoming: TransferId, payer: AccountId, user: UserId, rows: seq<LoanRow>, budget: int) {
    && Core(s)
    && PayerReady(s, payer, user, budget)
    && (forall k :: 0 <= k < |rows| ==>
          RowReady(s, rows[k]) && rows[k].id < |s.loans| && s.loans[rows[k].id].borrower == user
          && LienIdemKey(user, incoming, rows[k].id) !in s.idem)
    && (forall j, k :: 0 <= j < k < |rows| ==> rows[j].id != rows[k].id)
    && Triggered(s, incoming, payer)
  }

  /** The credit that set the sweep off reached the payer, and is not itself a Spot-Me movement. */
  predicate Triggered(s: State, incoming: TransferId, payer: AccountId) {
    incoming < |s.transfers| && s.transfers[incoming].receiver == payer && !SpotMeKind(s.transfers[incoming].kind)
  }

  /** The state after one turn that repays `amount` on `row`. */
  function Turn(s: State, now: Time, incoming: TransferId, payer: AccountId, user: UserId, row: LoanRow,
                amount: int): State
    requires InRange(s, RepayCommand(user, payer, incoming, row, amount))
  {
    var c := RepayCommand(user, payer, incoming, row, amount);
    var moved := Leg(Begin(s, c.key, c.fingerprint), now, c);
    var body := TransferBody(|s.transfers|, Succeeded, amount, 0, Debited(s, c).balance, now);
    ApplyRepayment(Complete(moved, c.key, c.fingerprint, body), row.id, |s.transfers|, amount, incoming)
  }

  /** A repayment leg cannot be refused: no guard of `execute` can fail. */
  lemma TurnSucceeds(cfg: Config, s: State, now: Time, incoming: TransferId, payer: AccountId, user: UserId,
                     rows: seq<LoanRow>, budget: int)
    requires cfg.fees == NoFee && rows != [] && budget > 0
    requires Ready(s, incoming, payer, user, rows, budget)
    ensures var amount := Min(budget, rows[0].outstanding);
      var c := RepayCommand(user, payer, incoming, rows[0], amount);
      && InRange(s, c)
      && var leg := Execute(cfg, s, now, c);
         && leg.Ok?
         && leg.value.result.transferId == |s.transfers|
         && ApplyRepayment(leg.value.state, rows[0].id, |s.transfers|, amount, incoming)
              == Turn(s, now, incoming, payer, user, rows[0], amount)
  {
    hide BooksOk, TransfersOk, LoansOk, TransferLines, Backed, OutstandingLoans, SumSentSince, Sweep;
    var row := rows[0];
    var amount := Min(budget, row.outstanding);
    var c := RepayCommand(user, payer, incoming, row, amount);
    assert RowReady(s, row);
    assert AccountOk(c.receiver, s.accounts[c.receiver]);
    var s0 := Begin(s, c.key, c.fingerprint);
    var s1 := Leg(s0, now, c);
    assert AfterCredit(cfg, s1, now, |s.transfers|, c.receiver, Credited(s, c), amount, OverdraftRepay) == Ok(s1);
  }

  predicate SameTables(s: State, s': State) {
    && s'.pools == s.pools && s'.grants == s.grants && s'.escrows == s.escrows
    && s'.requests == s.requests && s'.tasks == s.tasks
    && SameShape(s.accounts, s'.accounts)
    && |s'.loans| == |s.loans|
  }

  predicate IsLienRow(t: Transfer, payer: AccountId, now: Time) {
    t.kind == OverdraftRepay && t.sender == payer && t.status == Succeeded && t.parent == None && t.createdAt == now
  }

  predicate LienRowsAppended(before: seq<Transfer>, after: seq<Transfer>, payer: AccountId, now: Time) {
    && |before| <= |after| && before == after[..|before|]
    && (forall i :: |before| <= i < |after| ==> IsLienRow(after[i], payer, now))
  }

  predicate LienKeysAdded(before: map<IdemKey, IdemRecord>, after: map<IdemKey, IdemRecord>, incoming: TransferId) {
    && (forall k :: k in before ==> k in after && after[k] == before[k])
    && (forall k :: k in after && k !in before ==>
          after[k].Completed? && k.endpoint == InternalLien && k.key.LienKey? && k.key.incoming == incoming)
  }

  /** Money a pool holds or is owed. */
  function PoolWorth(s: State, p: nat): int
    requires p < |s.pools|
  {
    BalanceOf(s.accounts, s.pools[p].account) + Sum(s.loans, PoolOwed(p))
  }

  /** The payer lost exactly `repaid` and owes exactly `repaid` less; nobody else, and no pool, gained or lost. */
  ghost predicate RepaidExactly(s: State, s': State, payer: AccountId, user: UserId, repaid: int) {
    && BalanceOf(s'.accounts, payer) == BalanceOf(s.accounts, payer) - repaid
    && (forall a: AccountId :: a != payer && !IsKind(s.accounts, a, OverdraftPool) ==>
          BalanceOf(s'.accounts, a) == BalanceOf(s.accounts, a))
    && Sum(s'.loans, UserOwed(user)) == Sum(s.loans, UserOwed(user)) - repaid
    && (forall u: UserId :: u != user ==> Sum(s'.loans, UserOwed(u)) == Sum(s.loans, UserOwed(u)))
    && s'.pools == s.pools
    && (forall p :: 0 <= p < |s.pools| ==> PoolWorth(s', p) == PoolWorth(s, p))
  }

  lemma TurnKeepsCore(s: State, now: Time, incoming: TransferId, payer: AccountId, user: UserId,
                      rows: seq<LoanRow>, budget: int, amount: int)
    requires rows != [] && Ready(s, incoming, payer, user, rows, budget)
    requires 0 < amount <= rows[0].outstanding && amount <= budget
    ensures InRange(s, RepayCommand(user, payer, incoming, rows[0], amount))
    ensures Core(Turn(s, now, incoming, payer, user, rows[0], amount))
  {
    hide BooksOk, TransfersOk, LoansOk, TransferLines, Execute, Backed;
    var row := rows[0];
    var c := RepayCommand(user, payer, incoming, row, amount);
    assert RowReady(s, row);
    assert AccountOk(payer, s.accounts[payer]);
    var s1 := Leg(Begin(s, c.key, c.fingerprint), now, c);
    LegKeepsBooks(Begin(s, c.key, c.fingerprint), now, c);
    LegKeepsAccounts(Begin(s, c.key, c.fingerprint), now, c);
    AppendKeepsTransfers(s.accounts, s1.accounts, s.transfers, RowOf(now, c));
    RepaymentKeepsLoans(s.pools, s.loans, s.repayments, row.id, |s.transfers|, amount, incoming);
    var s' := Turn(s, now, incoming, payer, user, row, amount);
    assert s'.accounts == s1.accounts && s'.transfers == s1.transfers && s'.postings == s1.postings;
    assert PoolsOk(s'.accounts, s'.pools);
    assert Backed(s') by { TurnIsBacked(s, now, incoming, payer, user, row, amount); }
  }

  lemma TurnIsBacked(s: State, now: Time, incoming: TransferId, payer: AccountId, user: UserId, row: LoanRow,
                     amount: int)
    requires Backed(s) && RowReady(s, row) && Triggered(s, incoming, payer)
    requires InRange(s, RepayCommand(user, payer, incoming, row, amount))
    requires s.accounts[payer].owner == Some(user) && s.loans[row.id].borrower == user
    ensures Backed(Turn(s, now, incoming, payer, user, row, amount))
  {
    hide TransferLines, Granted;
    var s' := Turn(s, now, incoming, payer, user, row, amount);
    var n := |s.transfers|;
    var r := Repayment(row.id, n, amount, incoming);
    var s1 := s'.(repayments := s.repayments);
    assert Stands(s, s1);
    forall q | 0 <= q < |s.repayments|
      ensures s.repayments[q].transfer < n
    {
      assert RepaymentBacked(s, s.repayments[q]);
    }
    assert RepaymentBacked(s1, r);
    hide Backed, RepaymentBacked, Turn;
    BackedStands(s, s1);
    RepaymentAdded(s1, r);
  }

  /** `apply_repayment` keeps every loan's books, and its `max(0, ...)` never clips. */
  lemma RepaymentKeepsLoans(pools: seq<Pool>, loans: seq<Loan>, repayments: seq<Repayment>, l: nat,
                            transfer: TransferId, amount: int, trigger: TransferId)
    requires LoansOk(pools, loans, repayments)
    requires l < |loans| && 0 < amount <= loans[l].outstanding
    ensures var left := loans[l].outstanding - amount;
      var loan := loans[l].(outstanding := left, status := if left == 0 then Repaid else Outstanding);
      && Max(0, left) == left
      && LoansOk(pools, loans[l := loan], repayments + [Repayment(l, transfer, amount, trigger)])
  {
    var left := loans[l].outstanding - amount;
    var loan := loans[l].(outstanding := left, status := if left == 0 then Repaid else Outstanding);
    var r := Repayment(l, transfer, amount, trigger);
    var loans', repayments' := loans[l := loan], repayments + [r];
    forall k | 0 <= k < |loans'|
      ensures LoanOk(pools, loans', repayments', k)
    {
      assert LoanOk(pools, loans, repayments, k);
      SumAppend(repayments, r, RepaidOn(k));
    }
  }

  /** The turn's repayment takes exactly `amount` off one borrower's debt and off what one pool is owed. */
  lemma TurnRepays(loans: seq<Loan>, l: nat, loan: Loan, amount: int, u: UserId, p: nat)
    requires l < |loans| && loan == loans[l].(outstanding := loans[l].outstanding - amount, status := loan.status)
    ensures Sum(loans[l := loan], UserOwed(u)) == Sum(loans, UserOwed(u))
      - (if u == loans[l].borrower then amount else 0)
    ensures Sum(loans[l := loan], PoolOwed(p)) == Sum(loans, PoolOwed(p)) - (if p == loans[l].pool then amount else 0)
  {
    hide Sum;
    SumUpdate(loans, l, loan, UserOwed(u));
    SumUpdate(loans, l, loan, PoolOwed(p));
  }

  lemma TurnShape(s: State, now: Time, incoming: TransferId, payer: AccountId, user: UserId,
                  rows: seq<LoanRow>, budget: int, amount: int)
    requires rows != [] && Ready(s, incoming, payer, user, rows, budget)
    requires 0 < amount <= rows[0].outstanding && amount <= budget
    ensures InRange(s, RepayCommand(user, payer, incoming, rows[0], amount))
    ensures var s' := Turn(s, now, incoming, payer, user, rows[0], amount);
      && SameTables(s, s')
      && LienRowsAppended(s.transfers, s'.transfers, payer, now)
      && LienKeysAdded(s.idem, s'.idem, incoming)
  {
    hide BooksOk, TransfersOk, LoansOk, TransferLines, Backed, Execute, Sum, AccountOk;
    assert RowReady(s, rows[0]);
  }

  lemma TurnMoves(s: State, now: Time, incoming: TransferId, payer: AccountId, user: UserId,
                  rows: seq<LoanRow>, budget: int, amount: int)
    requires rows != [] && Ready(s, incoming, payer, user, rows, budget)
    requires 0 < amount <= rows[0].outstanding && amount <= budget
    ensures InRange(s, RepayCommand(user, payer, incoming, rows[0], amount))
    ensures Swept(s, Turn(s, now, incoming, payer, user, rows[0], amount), now, incoming, payer, user, amount)
  {
    hide BooksOk, TransfersOk, LoansOk, TransferLines, Backed, Execute, Sum, AccountOk, SameTables, LienRowsAppended,
         LienKeysAdded;
    TurnShape(s, now, incoming, payer, user, rows, budget, amount);
    var row := rows[0];
    var c := RepayCommand(user, payer, incoming, row, amount);
    assert RowReady(s, row);
    var s0 := Begin(s, c.key, c.fingerprint);
    var s' := Turn(s, now, incoming, payer, user, row, amount);
    var loan := s'.loans[row.id];
    forall a: AccountId
      ensures BalanceOf(s'.accounts, a)
           == BalanceOf(s.accounts, a) + (if a == row.poolAccount then amount else 0)
               - (if a == payer then amount else 0)
    {
      LegBalances(s0, now, c, a);
    }
    forall u: UserId
      ensures Sum(s'.loans, UserOwed(u)) == Sum(s.loans, UserOwed(u)) - (if u == user then amount else 0)
    {
      TurnRepays(s.loans, row.id, loan, amount, u, 0);
    }
    forall p | 0 <= p < |s.pools|
      ensures PoolWorth(s', p) == PoolWorth(s, p)
    {
      TurnRepays(s.loans, row.id, loan, amount, user, p);
      assert p != s.loans[row.id].pool ==> s.pools[p].account != row.poolAccount;
      assert s.pools[p].account != payer;
    }
  }

  lemma TurnKeepsReady(s: State, now: Time, incoming: TransferId, payer: AccountId, user: UserId,
                       rows: seq<LoanRow>, budget: int, amount: int)
    requires rows != [] && Ready(s, incoming, payer, user, rows, budget)
    requires 0 < amount <= rows[0].outstanding && amount <= budget
    ensures InRange(s, RepayCommand(user, payer, incoming, rows[0], amount))
    ensures Ready(Turn(s, now, incoming, payer, user, rows[0], amount), incoming, payer, user, rows[1..], budget
                  - amount)
  {
    hide Core, Granted, TransferLines, RepaidExactly;
    TurnKeepsCore(s, now, incoming, payer, user, rows, budget, amount);
    TurnMoves(s, now, incoming, payer, user, rows, budget, amount);
    var s' := Turn(s, now, incoming, payer, user, rows[0], amount);
    forall k | 0 <= k < |rows[1..]|
      ensures RowReady(s', rows[1..][k]) && rows[1..][k].id < |s'.loans| && s'.loans[rows[1..][k].id].borrower == user
      ensures LienIdemKey(user, incoming, rows[1..][k].id) !in s'.idem
    {
      assert RowReady(s, rows[k + 1]) && rows[0].id != rows[k + 1].id;
      assert RowReady(s, rows[0]);
    }
  }

  /** Everything a sweep does to the store. */
  ghost predicate Swept(s: State, s': State, now: Time, incoming: TransferId, payer: AccountId, user: UserId,
                        repaid: int) {
    && SameTables(s, s')
    && LienRowsAppended(s.transfers, s'.transfers, payer, now)
    && LienKeysAdded(s.idem, s'.idem, incoming)
    && RepaidExactly(s, s', payer, user, repaid)
  }

  lemma SweptThenSwept(s: State, s1: State, s2: State, now: Time, incoming: TransferId, payer: AccountId, user: UserId,
                       first: int, rest: int)
    requires Swept(s, s1, now, incoming, payer, user, first)
    requires Swept(s1, s2, now, incoming, payer, user, rest)
    ensures Swept(s, s2, now, incoming, payer, user, first + rest)
  {
    assert RepaidExactly(s, s2, payer, user, first + rest) by {
      forall p | 0 <= p < |s.pools|
        ensures PoolWorth(s2, p) == PoolWorth(s, p)
      {
        assert PoolWorth(s1, p) == PoolWorth(s, p);
      }
    }
    assert LienRowsAppended(s.transfers, s2.transfers, payer, now) by {
      assert s2.transfers[..|s.transfers|] == s2.transfers[..|s1.transfers|][..|s.transfers|];
      forall i | |s.transfers| <= i < |s2.transfers|
        ensures IsLienRow(s2.transfers[i], payer, now)
      {
        if i < |s1.transfers| {
          assert s2.transfers[i] == s2.transfers[..|s1.transfers|][i] == s1.transfers[i];
        }
      }
    }
  }

  function RowOutstanding(row: LoanRow): int { row.outstanding }

  lemma OutstandingNonNegative(s: State, incoming: TransferId, payer: AccountId, user: UserId, rows: seq<LoanRow>,
                               budget: int)
    requires Ready(s, incoming, payer, user, rows, budget)
    ensures Sum(rows, RowOutstanding) >= 0
    ensures rows != [] ==> rows[0].outstanding > 0
    ensures rows != [] ==> Sum(rows, RowOutstanding) == rows[0].outstanding + Sum(rows[1..], RowOutstanding)
    ensures rows != [] ==> Sum(rows[1..], RowOutstanding) >= 0
  {
    forall k | 0 <= k < |rows|
      ensures RowOutstanding(rows[k]) > 0
    {
      assert RowReady(s, rows[k]);
    }
    SumNonNegative(rows, RowOutstanding);
    if rows != [] {
      assert [rows[0]] + rows[1..] == rows;
      SumConcat([rows[0]], rows[1..], RowOutstanding);
      SumAppend([], rows[0], RowOutstanding);
      assert [] + [rows[0]] == [rows[0]];
      SumNonNegative(rows[1..], RowOutstanding);
    }
  }

  lemma MinSplits(budget: int, first: int, rest: int)
    requires budget >= 0 && rest >= 0
    ensures Min(budget, first) <= budget
    ensures Min(budget, first + rest) == Min(budget, first) + Min(budget - Min(budget, first), rest)
  {
  }

  lemma SweepStops(cfg: Config, s: State, now: Time, incoming: TransferId, payer: AccountId, user: UserId,
                   rows: seq<LoanRow>, budget: int)
    requires Ready(s, incoming, payer, user, rows, budget)
    requires budget >= 0 && Sum(rows, RowOutstanding) >= 0 && (rows == [] || budget == 0)
    ensures Sweep(cfg, s, now, incoming, payer, user, rows, budget) == Ok(s) && Core(s)
    ensures Swept(s, s, now, incoming, payer, user, Min(budget, Sum(rows, RowOutstanding)))
  {
  }

  lemma FirstRowOwes(s: State, incoming: TransferId, payer: AccountId, user: UserId, rows: seq<LoanRow>, budget: int)
    requires rows != [] && Ready(s, incoming, payer, user, rows, budget)
    ensures rows[0].outstanding > 0
  {
    assert RowReady(s, rows[0]);
  }

  lemma TurnLoans(s: State, now: Time, incoming: TransferId, payer: AccountId, user: UserId, rows: seq<LoanRow>,
                  budget: int, amount: int)
    requires rows != [] && Ready(s, incoming, payer, user, rows, budget)
    requires InRange(s, RepayCommand(user, payer, incoming, rows[0], amount)) && 0 < amount <= rows[0].outstanding
    ensures rows[0].id < |s.loans| && rows[0].outstanding > 0
    ensures Turn(s, now, incoming, payer, user, rows[0], amount).loans
         == s.loans[rows[0].id := s.loans[rows[0].id].(
              outstanding := rows[0].outstanding - amount,
              status := if rows[0].outstanding == amount then Repaid else Outstanding)]
  {
    hide Core, TransferLines;
    assert RowReady(s, rows[0]);
  }

  /** Exactly `amount` went from `from` to `to`. */
  ghost predicate MovedBetween(before: seq<Account>, after: seq<Account>, from: AccountId, to: AccountId, amount: int) {
    forall a: AccountId ::
      BalanceOf(after, a) == BalanceOf(before, a) + (if a == to then amount else 0) - (if a == from then amount else 0)
  }

  lemma TurnBalances(s: State, now: Time, incoming: TransferId, payer: AccountId, user: UserId, row: LoanRow,
                     amount: int)
    requires InRange(s, RepayCommand(user, payer, incoming, row, amount))
    ensures MovedBetween(s.accounts, Turn(s, now, incoming, payer, user, row, amount).accounts, payer,
                         row.poolAccount, amount)
  {
    var c := RepayCommand(user, payer, incoming, row, amount);
    forall a: AccountId
      ensures BalanceOf(Turn(s, now, incoming, payer, user, row, amount).accounts, a)
           == BalanceOf(s.accounts, a) + (if a == row.poolAccount then amount else 0)
               - (if a == payer then amount else 0)
    {
      LegBalances(Begin(s, c.key, c.fingerprint), now, c, a);
    }
  }

  /** One turn of the loop, then the rest of it. */
  lemma SweepUnfolds(cfg: Config, s: State, now: Time, incoming: TransferId, payer: AccountId, user: UserId,
                     rows: seq<LoanRow>, budget: int) returns (s1: State)
    requires cfg.fees == NoFee && rows != [] && budget > 0
    requires Ready(s, incoming, payer, user, rows, budget)
    ensures var amount := Min(budget, rows[0].outstanding);
      && Swept(s, s1, now, incoming, payer, user, amount)
      && Ready(s1, incoming, payer, user, rows[1..], budget - amount)
      && Sweep(cfg, s, now, incoming, payer, user, rows, budget)
           == Sweep(cfg, s1, now, incoming, payer, user, rows[1..], budget - amount)
      && rows[0].id < |s.loans|
      && s1.loans == s.loans[rows[0].id := s.loans[rows[0].id].(
           outstanding := rows[0].outstanding - amount,
           status := if rows[0].outstanding == amount then Repaid else Outstanding)]
      && MovedBetween(s.accounts, s1.accounts, payer, rows[0].poolAccount, amount)
  {
    hide MovedBetween;
    hide Ready, RowReady, Swept, Turn, Execute, ApplyRepayment, Core;
    var amount := Min(budget, rows[0].outstanding);
    FirstRowOwes(s, incoming, payer, user, rows, budget);
    TurnSucceeds(cfg, s, now, incoming, payer, user, rows, budget);
    TurnLoans(s, now, incoming, payer, user, rows, budget, amount);
    TurnBalances(s, now, incoming, payer, user, rows[0], amount);
    TurnMoves(s, now, incoming, payer, user, rows, budget, amount);
    TurnKeepsReady(s, now, incoming, payer, user, rows, budget, amount);
    s1 := Turn(s, now, incoming, payer, user, rows[0], amount);
  }

  /** The sweep cannot fail, and repays exactly the smaller of its budget and the debt. */
  lemma {:induction false} SweepSucceeds(cfg: Config, s: State, now: Time, incoming: TransferId, payer: AccountId,
                                         user: UserId, rows: seq<LoanRow>, budget: int)
    requires cfg.fees == NoFee && budget >= 0
    requires Ready(s, incoming, payer, user, rows, budget)
    ensures var swept := Sweep(cfg, s, now, incoming, payer, user, rows, budget);
      swept.Ok? && Core(swept.value)
      && Swept(s, swept.value, now, incoming, payer, user, Min(budget, Sum(rows, RowOutstanding)))
    decreases |rows|
  {
    hide *;
    OutstandingNonNegative(s, incoming, payer, user, rows, budget);
    if rows == [] || budget <= 0 {
      SweepStops(cfg, s, now, incoming, payer, user, rows, budget);
    } else {
      var amount := Min(budget, rows[0].outstanding);
      MinSplits(budget, rows[0].outstanding, Sum(rows[1..], RowOutstanding));
      var s1 := SweepUnfolds(cfg, s, now, incoming, payer, user, rows, budget);
      SweepSucceeds(cfg, s1, now, incoming, payer, user, rows[1..], budget - amount);
      var s2 := Sweep(cfg, s1, now, incoming, payer, user, rows[1..], budget - amount).value;
      SweptThenSwept(s, s1, s2, now, incoming, payer, user, amount,
                     Min(budget - amount, Sum(rows[1..], RowOutstanding)));
    }
  }
}
