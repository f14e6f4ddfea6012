/** Frames shared by the command proofs: links, keys, and newly inserted rows. */
module Keeping {
  import opened Kernel
  import opened Sums
  import opened Accounts
  import opened Ledger
  import opened Policies
  import opened Tables
  import opened Transfers
  import opened Invariants
  import opened Legs
  import opened Backing
  import opened Executions
  import opened Settling
  import opened Conservation

  predicate Linked(s: State) {
    && EscrowsOk(s.accounts, s.transfers, s.escrows)
    && RequestsOk(s.accounts, s.transfers, s.requests)
    && TasksOk(s.transfers, s.escrows, s.tasks)
  }

  lemma InvParts(cfg: Config, s: State)
    ensures Inv(cfg, s) <==> Conserved(cfg, s) && Linked(s) && IdemOk(s)
  {
  }

  // -- keys -----------------------------------------------------------------

  /** Besides `extra`, only lien keys of posted transfers were added, and no record changed. */
  predicate OnlyKeys(s: State, s': State, extra: set<IdemKey>) {
    && (forall k :: k in s.idem ==> k in s'.idem && s'.idem[k] == s.idem[k])
    && (forall k :: k in s'.idem && k !in s.idem && k !in extra ==>
          s'.idem[k].Completed? && k.endpoint == InternalLien && k.key.LienKey? && k.key.incoming < |s'.transfers|)
  }

  predicate Justified(s: State, k: IdemKey) {
    k in s.idem && s.idem[k].Completed? && KeyOk(s, k, s.idem[k].fingerprint)
  }

  lemma KeysJustified(s: State, s': State, extra: set<IdemKey>)
    requires IdemOk(s) && Extends(s, s') && OnlyKeys(s, s', extra)
    requires forall k :: k in extra ==> Justified(s', k)
    ensures IdemOk(s')
  {
    hide Extends;
    forall k | k in s'.idem && k !in s.idem
      ensures s'.idem[k].Completed? && KeyOk(s', k, s'.idem[k].fingerprint)
    {
      if k in extra { assert Justified(s', k); }
    }
    KeysStay(s, s');
  }

  lemma KeyMeans(s: State, k: IdemKey)
    requires IdemOk(s)
    ensures k in s.idem ==> s.idem[k].Completed? && KeyOk(s, k, s.idem[k].fingerprint)
  {
  }

  lemma LienKeysAreOld(s: State)
    requires IdemOk(s)
    ensures LienKeysOld(s.idem, |s.transfers|)
  {
  }

  /** Accounting for the keys of a command that reserves `top` around one execution. */
  lemma KeysAround(s: State, s0: State, s1: State, s2: State, top: IdemKey, key: IdemKey, record: IdemRecord)
    requires top !in s.idem
    requires forall k :: k != top ==> (k in s0.idem <==> k in s.idem) && (k in s.idem ==> s0.idem[k] == s.idem[k])
    requires KeysAdded(s0.idem, s1.idem, key, record, |s0.transfers|)
    requires |s0.transfers| < |s2.transfers|
    requires forall k :: k != top ==> (k in s2.idem <==> k in s1.idem) && (k in s1.idem ==> s2.idem[k] == s1.idem[k])
    ensures OnlyKeys(s, s2, {top, key})
  {
  }

  // -- links ----------------------------------------------------------------

  lemma EscrowsKept(accounts: seq<Account>, after: seq<Account>, transfers: seq<Transfer>, after': seq<Transfer>,
                    h: TransferId,
                    escrows: seq<Escrow>)
    requires EscrowsOk(accounts, transfers, escrows)
    requires RowsKept(transfers, after', h) && AccountsKept(accounts, after)
    requires h < |transfers| ==> transfers[h].kind == UndoHold
    ensures EscrowsOk(after, after', escrows)
  {
    forall e | 0 <= e < |escrows|
      ensures EscrowOk(after, after', escrows[e])
    {
      assert EscrowOk(accounts, transfers, escrows[e]);
      EscrowKept(accounts, after, transfers, after', h, escrows[e]);
    }
  }

  /** New rows need no task unless one of them opens an undo window. */
  lemma TasksKept(transfers: seq<Transfer>, after: seq<Transfer>, h: TransferId, escrows: seq<Escrow>,
                  tasks: map<TaskKey, Task>)
    requires TasksOk(transfers, escrows, tasks) && RowsKept(transfers, after, h)
    requires forall i :: |transfers| <= i < |after| ==> after[i].status != PendingUndo
    requires h < |transfers| ==> after[h].status != PendingUndo
    ensures TasksOk(after, escrows, tasks)
  {
    forall key | key in tasks
      ensures TaskOk(after, escrows, key, tasks[key])
    {
      assert TaskOk(transfers, escrows, key, tasks[key]);
    }
  }

  /** An execution leaves every link alone, unless it opens an undo window. */
  lemma PostedKeepsLinks(s: State, s': State, now: Time, c: TransferCommand, repaid: int)
    requires InRange(s, c) && Posted(s, s', now, c, repaid)
    requires EscrowsOk(s.accounts, s.transfers, s.escrows) && RequestsOk(s.accounts, s.transfers, s.requests)
    ensures EscrowsOk(s'.accounts, s'.transfers, s'.escrows) && RequestsOk(s'.accounts, s'.transfers, s'.requests)
    ensures TasksOk(s.transfers, s.escrows, s.tasks) && c.status != PendingUndo ==>
      TasksOk(s'.transfers, s'.escrows, s'.tasks)
  {
    hide Sum, Posted, EscrowOk, RequestOk, TaskOk;
    PostedTables(s, s', now, c, repaid);
    var n := |s.transfers|;
    AppendedKeepsRows(s.transfers, s.transfers, s'.transfers, RowOf(now, c), now, n);
    EscrowsKept(s.accounts, s'.accounts, s.transfers, s'.transfers, n, s.escrows);
    RequestsKept(s.accounts, s'.accounts, s.transfers, s'.transfers, n, s.requests);
    if TasksOk(s.transfers, s.escrows, s.tasks) && c.status != PendingUndo {
      TasksKept(s.transfers, s'.transfers, n, s.escrows, s.tasks);
    }
  }

  /** An execution extends the store. */
  lemma PostedExtends(s: State, s': State, now: Time, c: TransferCommand, repaid: int)
    requires InRange(s, c) && Posted(s, s', now, c, repaid)
    ensures Extends(s, s') && |s.transfers| < |s'.transfers|
    ensures RowsKept(s.transfers, s'.transfers, |s.transfers|) && s'.transfers[|s.transfers|] == RowOf(now, c)
    ensures s'.tasks == s.tasks && s'.escrows == s.escrows && s'.requests == s.requests && s'.pools == s.pools
    ensures SameShape(s.accounts, s'.accounts)
  {
    hide Sum;
    AppendedKeepsRows(s.transfers, s.transfers, s'.transfers, RowOf(now, c), now, |s.transfers|);
  }

  lemma ExtendsThenExtends(s: State, s1: State, s2: State)
    requires Extends(s, s1) && Extends(s1, s2)
    ensures Extends(s, s2)
  {
  }

  // -- new accounts ---------------------------------------------------------

  predicate NoTraceOf(transfers: seq<Transfer>, n: nat) {
    forall i :: 0 <= i < |transfers| ==> transfers[i].sender < n && transfers[i].receiver < n
  }

  lemma NewAccountKeepsBooks(accounts: seq<Account>, transfers: seq<Transfer>, postings: seq<Posting>, a: Account)
    requires BooksOk(accounts, transfers, postings) && NoTraceOf(transfers, |accounts|) && a.balance == 0
    ensures BooksOk(accounts + [a], transfers, postings)
  {
    hide RunningBalances;
    var n := |accounts|;
    forall p | p in postings
      ensures EntryFor(n)(p) == 0
    {
      var i :| 0 <= i < |postings| && postings[i] == p;
      assert PostingMatches(i, postings[i], transfers[i]);
      assert p.lines == [p.lines[0], p.lines[1]];
      SumTwo(p.lines[0], p.lines[1], LineFor(n));
    }
    SumZero(postings, EntryFor(n));
  }

  lemma NewAccountKeepsTransfers(accounts: seq<Account>, transfers: seq<Transfer>, a: Account)
    requires TransfersOk(accounts, transfers)
    ensures TransfersOk(accounts + [a], transfers) && NoTraceOf(transfers, |accounts|)
  {
    forall i | 0 <= i < |transfers|
      ensures TransferOk(accounts + [a], transfers, i) && transfers[i].sender < |accounts|
        && transfers[i].receiver < |accounts|
    {
      assert TransferOk(accounts, transfers, i);
    }
  }

  /** Inserting an empty account disturbs nothing. */
  lemma NewAccountKeeps(cfg: Config, s: State, a: Account)
    requires Conserved(cfg, s) && Linked(s) && IdemOk(s)
    requires a.balance == 0 && a.status == Active && a.owner.Some? && a.kind in {UserAccount, OverdraftPool}
    requires a.kind == UserAccount ==> FindUser(s.accounts, a.owner.value).None?
    ensures var s' := s.(accounts := s.accounts + [a]);
      Conserved(cfg, s') && Linked(s') && IdemOk(s') && Extends(s, s')
  {
    hide Backed;
    hide Sum, TransferOk, RunningBalances, BooksOk, LoanOk, EscrowOk, RequestOk, TaskOk, KeyOk, TransfersOk, LoansOk,
         LegsOk, DailyOk, TasksOk;
    var s' := s.(accounts := s.accounts + [a]);
    BackedStands(s, s');
    NewAccountKeepsTransfers(s.accounts, s.transfers, a);
    NewAccountKeepsBooks(s.accounts, s.transfers, s.postings, a);
    EscrowsKept(s.accounts, s'.accounts, s.transfers, s.transfers, |s.transfers|, s.escrows);
    RequestsKept(s.accounts, s'.accounts, s.transfers, s.transfers, |s.transfers|, s.requests);
    assert AccountsOk(s'.accounts) by {
      forall i | 0 <= i < |s'.accounts|
        ensures AccountOk(i, s'.accounts[i])
      {
        if i < |s.accounts| { assert AccountOk(i, s.accounts[i]); }
      }
      assert forall i :: 0 <= i < |s.accounts| ==> !(a.kind == UserAccount && IsPrimary(s.accounts[i], a.owner.value));
    }
    assert PoolsWhole(s'.accounts, s'.transfers, s'.pools, s'.loans) by {
      forall p | 0 <= p < |s.pools|
        ensures PoolGap(s'.accounts, s'.transfers, s'.pools, s'.loans, p) == 0
      {
        assert PoolGap(s.accounts, s.transfers, s.pools, s.loans, p) == 0;
      }
    }
    KeysStay(s, s');
  }

  /** A pool row over an untouched account starts whole: nothing owed, nothing paid in. */
  lemma NewPoolKeeps(cfg: Config, s: State, sponsor: UserId, account: AccountId)
    requires Conserved(cfg, s) && Linked(s) && IdemOk(s)
    requires IsKind(s.accounts, account, OverdraftPool) && s.accounts[account].owner == Some(sponsor)
    requires s.accounts[account].balance == 0
    requires NoTraceOf(s.transfers, account)
    requires forall p :: 0 <= p < |s.pools| ==> s.pools[p].account != account
    ensures var s' := s.(pools := s.pools + [Pool(sponsor, account)]);
      Conserved(cfg, s') && Linked(s') && IdemOk(s') && Extends(s, s')
  {
    hide Backed;
    hide Sum, TransferOk, RunningBalances, BooksOk, EscrowOk, RequestOk, TaskOk, KeyOk, TransfersOk, LegsOk, DailyOk,
         TasksOk;
    var s' := s.(pools := s.pools + [Pool(sponsor, account)]);
    BackedStands(s, s');
    var n := |s.pools|;
    forall l | 0 <= l < |s.loans|
      ensures LoanOk(s'.pools, s'.loans, s'.repayments, l)
    {
      assert LoanOk(s.pools, s.loans, s.repayments, l);
    }
    NewPoolOwedNothing(s.pools, s.loans, s.repayments, s.transfers, account);
    forall p | 0 <= p < |s'.pools|
      ensures PoolGap(s'.accounts, s'.transfers, s'.pools, s'.loans, p) == 0
    {
      if p < n { assert PoolGap(s.accounts, s.transfers, s.pools, s.loans, p) == 0; }
    }
    KeysStay(s, s');
  }

  lemma NewPoolOwedNothing(pools: seq<Pool>, loans: seq<Loan>, repayments: seq<Repayment>, transfers: seq<Transfer>,
                           account: AccountId)
    requires LoansOk(pools, loans, repayments) && NoTraceOf(transfers, account)
    ensures Sum(loans, PoolOwed(|pools|)) == 0 && Sum(transfers, FundedInto(account)) == 0
  {
    forall l | l in loans
      ensures PoolOwed(|pools|)(l) == 0
    {
      var i :| 0 <= i < |loans| && loans[i] == l;
      assert LoanOk(pools, loans, repayments, i);
    }
    SumZero(loans, PoolOwed(|pools|));
    forall t | t in transfers
      ensures FundedInto(account)(t) == 0
    {
      var i :| 0 <= i < |transfers| && transfers[i] == t;
    }
    SumZero(transfers, FundedInto(account));
  }
}
