/** reconciliation/service.py: the report that recomputes the books from the raw tables. */
module Reconciliation {
  import opened Kernel
  import opened Sums
  import opened Accounts
  import opened Ledger
  import opened Policies
  import opened Tables
  import opened Invariants
  import opened Settling
  import opened Bank
  import opened Runs

  // -- the queries ----------------------------------------------------------

  function Indicator<T>(p: T -> bool): T -> int { (row: T) => if p(row) then 1 else 0 }

  /** `SELECT count(*) FROM rows WHERE p`. */
  function Count<T>(rows: seq<T>, p: T -> bool): int { Sum(rows, Indicator(p)) }

  function Ids(n: nat): seq<nat> { seq(n, i => i) }

  function PostingSum(posting: Posting): int { Sum(posting.lines, LineAmount) }

  predicate Unbalanced(posting: Posting) { PostingSum(posting) != 0 }

  predicate Mismatched(accounts: seq<Account>, postings: seq<Posting>, a: nat) {
    a < |accounts| && accounts[a].balance != Sum(postings, EntryFor(a))
  }

  function MismatchIn(accounts: seq<Account>, postings: seq<Posting>): nat -> bool {
    (a: nat) => Mismatched(accounts, postings, a)
  }

  predicate NegativeUser(a: Account) { a.kind == UserAccount && a.balance < 0 }

  predicate WithoutLedger(transfers: seq<Transfer>, postings: seq<Posting>, t: nat) {
    && t < |transfers| && transfers[t].status == Succeeded
    && !exists i :: 0 <= i < |postings| && postings[i].transfer == t
  }

  function LedgerlessIn(transfers: seq<Transfer>, postings: seq<Posting>): nat -> bool {
    (t: nat) => WithoutLedger(transfers, postings, t)
  }

  predicate WrongEntryCount(posting: Posting) { |posting.lines| != 0 && |posting.lines| != 2 }

  predicate AcceptedWithoutTransfer(r: MoneyRequest) { r.status == Accepted && r.transfer == None }

  function LedgerSum(postings: seq<Posting>): int { Sum(postings, PostingSum) }

  function OfType(kind: AccountType): Account -> int {
    (a: Account) => if a.kind == kind then a.balance else 0
  }

  const ACCOUNT_TYPES: seq<AccountType> := [UserAccount, SystemIssuance, PendingSettlement, EscrowAccount,
      OverdraftPool]

  /** `SELECT account_type, SUM(balance_minor) ... GROUP BY account_type`: only types that occur have a group. */
  function BalanceByType(accounts: seq<Account>): map<AccountType, int> {
    map kind | kind in ACCOUNT_TYPES && (exists i :: 0 <= i < |accounts| && accounts[i].kind == kind) ::
      Sum(accounts, OfType(kind))
  }

  function GroupOf(groups: map<AccountType, int>): AccountType -> int {
    (kind: AccountType) => if kind in groups then groups[kind] else 0
  }

  /** `sum(balance_by_account_type.values())`. */
  function AllGroups(groups: map<AccountType, int>): int { Sum(ACCOUNT_TYPES, GroupOf(groups)) }

  // Each query as one number.
  function UnbalancedCount(postings: seq<Posting>): int { Count(postings, Unbalanced) }
  function MismatchCount(accounts: seq<Account>, postings: seq<Posting>): int { Count(Ids(|accounts|),
                         MismatchIn(accounts, postings)) }
  function NegativeCount(accounts: seq<Account>): int { Count(accounts, NegativeUser) }
  function LedgerlessCount(transfers: seq<Transfer>, postings: seq<Posting>): int { Count(Ids(|transfers|),
                           LedgerlessIn(transfers, postings)) }
  function WrongCount(postings: seq<Posting>): int { Count(postings, WrongEntryCount) }
  function AcceptedCount(requests: seq<MoneyRequest>): int { Count(requests, AcceptedWithoutTransfer) }
  function TypeTotal(accounts: seq<Account>, kind: AccountType): int { Sum(accounts, OfType(kind)) }
  function BalanceTotal(accounts: seq<Account>): int { Sum(accounts, Balance) }

  // -- the report object ----------------------------------------------------

  class Report {
    var unbalancedTransactions: int
    var balanceMismatches: int
    var negativeUserAccounts: int
    var succeededWithoutLedger: int
    var wrongEntryCounts: int
    var acceptedWithoutTransfer: int
    var ledgerSum: int
    var totalUserBalance: int
    var issuanceBalance: int
    var inCirculation: int
    var totalHeld: int
    var balanceByType: map<AccountType, int>

    constructor ()
      ensures unbalancedTransactions == balanceMismatches == negativeUserAccounts == succeededWithoutLedger == 0
      ensures wrongEntryCounts == acceptedWithoutTransfer == ledgerSum == 0 && balanceByType == map[]
    {
      unbalancedTransactions, balanceMismatches, negativeUserAccounts, succeededWithoutLedger := 0, 0, 0, 0;
      wrongEntryCounts, acceptedWithoutTransfer, ledgerSum := 0, 0, 0;
      totalUserBalance, issuanceBalance, inCirculation, totalHeld, balanceByType := 0, 0, 0, 0, map[];
    }

    predicate IsBalanced()
      reads this
    {
      && unbalancedTransactions == 0 && balanceMismatches == 0 && negativeUserAccounts == 0
      && succeededWithoutLedger == 0 && wrongEntryCounts == 0 && acceptedWithoutTransfer == 0
      && ledgerSum == 0 && AllGroups(balanceByType) == 0
    }

    /** `run`: the verdict is exactly `Clean`, and the totals locate all the money. */
    method Run(s: State)
      modifies this
      ensures IsBalanced() <==> Clean(s.accounts, s.transfers, s.postings, s.requests)
      ensures balanceByType == BalanceByType(s.accounts)
      ensures totalUserBalance == BalancesOf(s.accounts, {UserAccount})
      ensures issuanceBalance == BalancesOf(s.accounts, {SystemIssuance}) == -inCirculation
      ensures totalHeld == BalancesOf(s.accounts, {PendingSettlement, EscrowAccount, OverdraftPool})
      ensures totalUserBalance + issuanceBalance + totalHeld == BalanceTotal(s.accounts)
    {
      hide UnbalancedCount, MismatchCount, NegativeCount, LedgerlessCount, WrongCount, AcceptedCount, TypeTotal,
           BalanceTotal, BalanceByType, AllGroups, Clean, LedgerSum, HeldBalance, BalancesOf;
      unbalancedTransactions := UnbalancedCount(s.postings);
      balanceMismatches := MismatchCount(s.accounts, s.postings);
      negativeUserAccounts := NegativeCount(s.accounts);
      succeededWithoutLedger := LedgerlessCount(s.transfers, s.postings);
      wrongEntryCounts := WrongCount(s.postings);
      acceptedWithoutTransfer := AcceptedCount(s.requests);
      ledgerSum := LedgerSum(s.postings);
      totalUserBalance := TypeTotal(s.accounts, UserAccount);
      issuanceBalance := TypeTotal(s.accounts, SystemIssuance);
      inCirculation := -issuanceBalance;
      balanceByType := BalanceByType(s.accounts);
      totalHeld := HeldBalance(balanceByType);
      HeldIsTheRest(s.accounts);
      TotalsByAccount(s.accounts);
      ReportIsClean(s);
    }
  }

  /** Every group but the users' and the issuer's. */
  function HeldBalance(groups: map<AccountType, int>): int {
    var g := GroupOf(groups);
    g(PendingSettlement) + g(EscrowAccount) + g(OverdraftPool)
  }

  /** What the accounts of the given types hold together, account by account. */
  function BalancesOf(accounts: seq<Account>, kinds: set<AccountType>): int {
    if accounts == [] then 0
    else
      var n := |accounts| - 1;
      BalancesOf(accounts[..n], kinds) + if accounts[n].kind in kinds then accounts[n].balance else 0
  }

  lemma {:induction false} OneTypeTotal(accounts: seq<Account>, kind: AccountType)
    ensures TypeTotal(accounts, kind) == BalancesOf(accounts, {kind})
  {
    if accounts != [] {
      OneTypeTotal(accounts[..|accounts| - 1], kind);
    }
  }

  lemma {:induction false} HeldTypesTotal(accounts: seq<Account>)
    ensures BalancesOf(accounts, {PendingSettlement, EscrowAccount, OverdraftPool})
         == BalancesOf(accounts, {PendingSettlement}) + BalancesOf(accounts, {EscrowAccount})
            + BalancesOf(accounts, {OverdraftPool})
  {
    if accounts != [] {
      HeldTypesTotal(accounts[..|accounts| - 1]);
    }
  }

  lemma TotalsByAccount(accounts: seq<Account>)
    ensures TypeTotal(accounts, UserAccount) == BalancesOf(accounts, {UserAccount})
    ensures TypeTotal(accounts, SystemIssuance) == BalancesOf(accounts, {SystemIssuance})
    ensures HeldBalance(BalanceByType(accounts))
         == BalancesOf(accounts, {PendingSettlement, EscrowAccount, OverdraftPool})
  {
    hide BalanceByType, Sum, BalancesOf;
    OneTypeTotal(accounts, UserAccount);
    OneTypeTotal(accounts, SystemIssuance);
    OneTypeTotal(accounts, PendingSettlement);
    OneTypeTotal(accounts, EscrowAccount);
    OneTypeTotal(accounts, OverdraftPool);
    GroupIsTotal(accounts, PendingSettlement);
    GroupIsTotal(accounts, EscrowAccount);
    GroupIsTotal(accounts, OverdraftPool);
    HeldTypesTotal(accounts);
  }

  lemma HeldIsTheRest(accounts: seq<Account>)
    ensures TypeTotal(accounts, UserAccount) + TypeTotal(accounts, SystemIssuance)
      + HeldBalance(BalanceByType(accounts))
         == BalanceTotal(accounts)
  {
    hide BalanceByType, Sum;
    GroupIsTotal(accounts, PendingSettlement);
    GroupIsTotal(accounts, EscrowAccount);
    GroupIsTotal(accounts, OverdraftPool);
    TypesPartition(accounts);
  }

  /** What a clean report says about the tables, without counting. */
  predicate Clean(accounts: seq<Account>, transfers: seq<Transfer>, postings: seq<Posting>,
                  requests: seq<MoneyRequest>) {
    && (forall i :: 0 <= i < |postings| ==> Sum(postings[i].lines, LineAmount) == 0 && |postings[i].lines| in {0, 2})
    && (forall a :: 0 <= a < |accounts| ==> accounts[a].balance == Sum(postings, EntryFor(a)))
    && (forall a :: 0 <= a < |accounts| && accounts[a].kind == UserAccount ==> accounts[a].balance >= 0)
    && (forall t :: 0 <= t < |transfers| && transfers[t].status == Succeeded ==>
          exists i :: 0 <= i < |postings| && postings[i].transfer == t)
    && (forall r :: 0 <= r < |requests| && requests[r].status == Accepted ==> requests[r].transfer.Some?)
    && LedgerSum(postings) == 0
    && Sum(accounts, Balance) == 0
  }

  lemma {:induction false} CountZero<T>(rows: seq<T>, p: T -> bool)
    ensures Count(rows, p) >= 0
    ensures Count(rows, p) == 0 <==> forall i :: 0 <= i < |rows| ==> !p(rows[i])
  {
    if rows != [] {
      CountZero(rows[..|rows| - 1], p);
    }
  }

  lemma GroupIsTotal(accounts: seq<Account>, kind: AccountType)
    requires kind in ACCOUNT_TYPES
    ensures GroupOf(BalanceByType(accounts))(kind) == Sum(accounts, OfType(kind))
  {
    if !exists i :: 0 <= i < |accounts| && accounts[i].kind == kind {
      forall a | a in accounts
        ensures OfType(kind)(a) == 0
      {
        var i :| 0 <= i < |accounts| && accounts[i] == a;
      }
      SumZero(accounts, OfType(kind));
    }
  }

  function TypeTotals(accounts: seq<Account>): int {
    Sum(accounts, OfType(UserAccount)) + Sum(accounts, OfType(SystemIssuance))
    + Sum(accounts, OfType(PendingSettlement))
    + Sum(accounts, OfType(EscrowAccount)) + Sum(accounts, OfType(OverdraftPool))
  }

  lemma {:induction false} TypesAddUp(accounts: seq<Account>)
    ensures TypeTotals(accounts) == Sum(accounts, Balance)
  {
    if accounts != [] {
      TypesAddUp(accounts[..|accounts| - 1]);
    }
  }

  /** Grouping by type loses nothing. */
  lemma TypesPartition(accounts: seq<Account>)
    ensures AllGroups(BalanceByType(accounts)) == Sum(accounts, Balance)
    ensures TypeTotals(accounts) == Sum(accounts, Balance)
  {
    hide BalanceByType;
    var g := GroupOf(BalanceByType(accounts));
    FiveTypes(g);
    GroupIsTotal(accounts, UserAccount);
    GroupIsTotal(accounts, SystemIssuance);
    GroupIsTotal(accounts, PendingSettlement);
    GroupIsTotal(accounts, EscrowAccount);
    GroupIsTotal(accounts, OverdraftPool);
    TypesAddUp(accounts);
  }

  lemma FiveTypes(g: AccountType -> int)
    ensures Sum(ACCOUNT_TYPES, g)
         == g(UserAccount) + g(SystemIssuance) + g(PendingSettlement) + g(EscrowAccount) + g(OverdraftPool)
  {
    var a := [UserAccount];
    var b := a + [SystemIssuance];
    var c := b + [PendingSettlement];
    var d := c + [EscrowAccount];
    assert ACCOUNT_TYPES == d + [OverdraftPool];
    assert [] + [UserAccount] == a;
    hide Sum;
    SumZero<AccountType>([], g);
    SumAppend<AccountType>([], UserAccount, g);
    SumAppend(a, SystemIssuance, g);
    SumAppend(b, PendingSettlement, g);
    SumAppend(c, EscrowAccount, g);
    SumAppend(d, OverdraftPool, g);
  }

  lemma ReportIsClean(s: State)
    ensures Clean(s.accounts, s.transfers, s.postings, s.requests) <==>
      && UnbalancedCount(s.postings) == 0
      && MismatchCount(s.accounts, s.postings) == 0
      && NegativeCount(s.accounts) == 0
      && LedgerlessCount(s.transfers, s.postings) == 0
      && WrongCount(s.postings) == 0
      && AcceptedCount(s.requests) == 0
      && LedgerSum(s.postings) == 0 && AllGroups(BalanceByType(s.accounts)) == 0
  {
    hide Count, Sum, BalanceByType, AllGroups;
    CountZero(s.postings, Unbalanced);
    CountZero(s.accounts, NegativeUser);
    CountZero(s.postings, WrongEntryCount);
    CountZero(s.requests, AcceptedWithoutTransfer);
    MismatchesCounted(s.accounts, s.postings);
    LedgerlessCounted(s.transfers, s.postings);
    TypesPartition(s.accounts);
  }

  lemma MismatchesCounted(accounts: seq<Account>, postings: seq<Posting>)
    ensures MismatchCount(accounts, postings) == 0 <==>
      forall a :: 0 <= a < |accounts| ==> accounts[a].balance == Sum(postings, EntryFor(a))
  {
    hide Count, Sum;
    var ids, p := Ids(|accounts|), MismatchIn(accounts, postings);
    CountZero(ids, p);
    forall a | 0 <= a < |accounts|
      ensures !p(ids[a]) <==> accounts[a].balance == Sum(postings, EntryFor(a))
    {
    }
  }

  lemma LedgerlessCounted(transfers: seq<Transfer>, postings: seq<Posting>)
    ensures LedgerlessCount(transfers, postings) == 0 <==>
      forall t :: 0 <= t < |transfers| && transfers[t].status == Succeeded ==>
        exists i :: 0 <= i < |postings| && postings[i].transfer == t
  {
    hide Count;
    var ids, p := Ids(|transfers|), LedgerlessIn(transfers, postings);
    CountZero(ids, p);
    forall t | 0 <= t < |transfers|
      ensures !p(ids[t]) <==>
        (transfers[t].status == Succeeded ==> exists i :: 0 <= i < |postings| && postings[i].transfer == t)
    {
    }
  }

  // -- the checks imply each other ------------------------------------------

  /** Every entry belongs to an account: the foreign key of the entries table. */
  predicate EntriesHaveAccounts(postings: seq<Posting>, n: nat) {
    forall i, k :: 0 <= i < |postings| && 0 <= k < |postings[i].lines| ==> postings[i].lines[k].account < n
  }

  function EntriesOf(postings: seq<Posting>): nat -> int { (a: nat) => Sum(postings, EntryFor(a)) }

  function LinesOf(lines: seq<Line>): nat -> int { (a: nat) => Sum(lines, LineFor(a)) }

  function LineIn(line: Line): nat -> int { (a: nat) => LineFor(a)(line) }

  lemma {:induction false} OneLine(line: Line, n: nat)
    requires line.account < n
    ensures Sum(Ids(n), LineIn(line)) == line.amount
  {
    var f := LineIn(line);
    assert Ids(n)[..n - 1] == Ids(n - 1) && Ids(n)[n - 1] == n - 1;
    if line.account == n - 1 {
      forall a | a in Ids(n - 1)
        ensures f(a) == 0
      {
        var i :| 0 <= i < n - 1 && Ids(n - 1)[i] == a;
        assert LineFor(a)(line) == 0;
      }
      SumZero(Ids(n - 1), f);
      assert f(n - 1) == LineFor(n - 1)(line) == line.amount;
    } else {
      OneLine(line, n - 1);
      assert f(n - 1) == LineFor(n - 1)(line) == 0;
    }
  }

  /** By account or by line, one posting adds up to the same. */
  lemma {:induction false} LinesByAccount(lines: seq<Line>, n: nat)
    requires forall k :: 0 <= k < |lines| ==> lines[k].account < n
    ensures Sum(Ids(n), LinesOf(lines)) == Sum(lines, LineAmount)
  {
    if lines == [] {
      SumZero(Ids(n), LinesOf(lines));
    } else {
      var last := |lines| - 1;
      LinesByAccount(lines[..last], n);
      OneLine(lines[last], n);
      SumsAdd(Ids(n), LinesOf(lines[..last]), LineIn(lines[last]), LinesOf(lines));
    }
  }

  /** By account or by transaction, the whole ledger adds up to the same: the sums are exchanged. */
  lemma {:induction false} EntriesByAccount(postings: seq<Posting>, n: nat)
    requires EntriesHaveAccounts(postings, n)
    ensures Sum(Ids(n), EntriesOf(postings)) == LedgerSum(postings)
  {
    if postings == [] {
      SumZero(Ids(n), EntriesOf(postings));
    } else {
      var last := |postings| - 1;
      EntriesByAccount(postings[..last], n);
      LinesByAccount(postings[last].lines, n);
      SumsAdd(Ids(n), EntriesOf(postings[..last]), LinesOf(postings[last].lines), EntriesOf(postings));
    }
  }

  lemma {:induction false} BalancesById(accounts: seq<Account>, f: nat -> int)
    requires forall a :: 0 <= a < |accounts| ==> accounts[a].balance == f(a)
    ensures Sum(accounts, Balance) == Sum(Ids(|accounts|), f)
  {
    if accounts != [] {
      var n := |accounts| - 1;
      BalancesById(accounts[..n], f);
      assert Ids(n + 1)[..n] == Ids(n);
    }
  }

  /** On any tables: no mismatch makes the balance total the ledger total, and no unbalanced posting makes both zero. */
  lemma ChecksImplyTotals(accounts: seq<Account>, postings: seq<Posting>)
    requires EntriesHaveAccounts(postings, |accounts|)
    requires MismatchCount(accounts, postings) == 0
    ensures AllGroups(BalanceByType(accounts)) == LedgerSum(postings)
    ensures UnbalancedCount(postings) == 0 ==> LedgerSum(postings) == 0
  {
    hide Sum, BalanceByType, AllGroups;
    MismatchesCounted(accounts, postings);
    BalancesById(accounts, EntriesOf(postings));
    EntriesByAccount(postings, |accounts|);
    TypesPartition(accounts);
    CountZero(postings, Unbalanced);
    if UnbalancedCount(postings) == 0 {
      forall p | p in postings
        ensures PostingSum(p) == 0
      {
        var i :| 0 <= i < |postings| && postings[i] == p;
        assert !Unbalanced(postings[i]);
      }
      SumZero(postings, PostingSum);
    }
  }

  // -- every reachable state reconciles -------------------------------------

  lemma PostingsAreValid(s: State)
    requires BooksOk(s.accounts, s.transfers, s.postings)
    ensures forall i :: 0 <= i < |s.postings| ==> ValidPosting(s.postings[i].lines) && PostingSum(s.postings[i]) == 0
    ensures forall i :: 0 <= i < |s.postings| ==> |s.postings[i].lines| == 2 && s.postings[i].transfer == i
  {
    hide RunningBalances;
    forall i | 0 <= i < |s.postings|
      ensures ValidPosting(s.postings[i].lines) && PostingSum(s.postings[i]) == 0 && |s.postings[i].lines| == 2
    {
      assert PostingMatches(i, s.postings[i], s.transfers[i]);
      var lines := s.postings[i].lines;
      assert lines == [lines[0], lines[1]];
      SumTwo(lines[0], lines[1], LineAmount);
    }
  }

  lemma InvIsClean(cfg: Config, s: State)
    requires Inv(cfg, s)
    ensures Clean(s.accounts, s.transfers, s.postings, s.requests)
  {
    hide Sum, RunningBalances, TransferOk, LoanOk, EscrowOk, TaskOk, KeyOk, LegsOk, DailyOk, PoolsWhole, TasksOk,
         EscrowsOk, IdemOk, LoansOk, PoolsOk, Count;
    PostingsAreValid(s);
    forall a | 0 <= a < |s.accounts|
      ensures s.accounts[a].kind == UserAccount ==> s.accounts[a].balance >= 0
    {
      assert AccountOk(a, s.accounts[a]);
    }
    forall t | 0 <= t < |s.transfers| && s.transfers[t].status == Succeeded
      ensures exists i :: 0 <= i < |s.postings| && s.postings[i].transfer == t
    {
      assert s.postings[t].transfer == t;
    }
    forall r | 0 <= r < |s.requests|
      ensures s.requests[r].status == Accepted ==> s.requests[r].transfer.Some?
    {
      assert RequestOk(s.accounts, s.transfers, s.requests[r]);
    }
    CleanTotals(s);
  }

  lemma CleanTotals(s: State)
    requires BooksOk(s.accounts, s.transfers, s.postings) && TransfersOk(s.accounts, s.transfers)
    ensures LedgerSum(s.postings) == 0 && Sum(s.accounts, Balance) == 0
  {
    hide Sum, RunningBalances, Count, BalanceByType, AllGroups;
    PostingsAreValid(s);
    forall i, k | 0 <= i < |s.postings| && 0 <= k < |s.postings[i].lines|
      ensures s.postings[i].lines[k].account < |s.accounts|
    {
      assert PostingMatches(i, s.postings[i], s.transfers[i]) && TransferOk(s.accounts, s.transfers, i);
    }
    MismatchesCounted(s.accounts, s.postings);
    CountZero(s.postings, Unbalanced);
    ChecksImplyTotals(s.accounts, s.postings);
    TypesPartition(s.accounts);
  }

  /** Reconciliation passes after every run. */
  lemma EveryRunReconciles(cfg: Config, events: seq<Event>)
    requires Wired(cfg)
    ensures var s := Run(cfg, events); Clean(s.accounts, s.transfers, s.postings, s.requests)
  {
    hide Inv, Step, Clean;
    EveryRunKeeps(cfg, events);
    InvIsClean(cfg, Run(cfg, events));
  }
}
