/** `execute` as a transaction of the lock machine: what it reads, what it writes, and nothing else. */
module LockedTransfers {
  import opened Kernel
  import opened Sums
  import opened Accounts
  import opened Policies
  import opened Tables
  import Idempotency
  import opened Transfers
  import opened Invariants
  import opened Legs
  import opened Sweeps
  import opened Executions
  import opened Effects
  import opened Settling
  import opened Liens
  import opened Concurrency
  import Growth

  /** What `execute` decides on besides the balances it locks. */
  datatype Facts = Facts(open: bool, overdraw: bool, rows: seq<LoanRow>, budget: int)

  /** Read from the key, the two account rows, the sender's outflow of the day and the receiver's loans. */
  function FactsOf(cfg: Config, s: State, now: Time, c: TransferCommand): Facts {
    if !InRange(s, c) then Facts(false, false, [], 0)
    else
      var sender, receiver := s.accounts[c.sender], s.accounts[c.receiver];
      Facts(
        && c.key !in s.idem && c.amount > 0
        && MayMove(sender, c.actor, c.kind) && sender.status == Active && receiver.status == Active
        && (c.enforceLimits ==> WithinLimits(cfg, s.transfers, c.sender, now, c.amount)),
        sender.MayGoNegative(),
        if Liened(s, c) then OutstandingLoans(s.pools, s.loans, receiver.owner.value) else [],
        Budget(cfg, c.amount))
  }

  // -- what is written --------------------------------------------------------

  /** What the lien pays into account `a`. */
  function PaidInto(rows: seq<LoanRow>, budget: int, a: AccountId): int {
    if rows == [] || budget <= 0 then 0
    else
      var pay := Min(budget, rows[0].outstanding);
      (if rows[0].poolAccount == a then pay else 0) + PaidInto(rows[1..], budget - pay, a)
  }

  /** What the lien pays in all. */
  function PaidOut(rows: seq<LoanRow>, budget: int): int {
    if rows == [] || budget <= 0 then 0
    else
      var pay := Min(budget, rows[0].outstanding);
      pay + PaidOut(rows[1..], budget - pay)
  }

  function Change(c: TransferCommand, f: Facts, a: AccountId): int {
    Signed(c, a) + PaidInto(f.rows, f.budget, a) - (if a == c.receiver then PaidOut(f.rows, f.budget) else 0)
  }

  lemma {:induction false} SweepBalances(cfg: Config, s: State, now: Time, incoming: TransferId, payer: AccountId,
                                         user: UserId, rows: seq<LoanRow>, budget: int, a: AccountId)
    requires cfg.fees == NoFee && budget >= 0 && Ready(s, incoming, payer, user, rows, budget)
    ensures var r := Sweep(cfg, s, now, incoming, payer, user, rows, budget);
      && r.Ok?
      && BalanceOf(r.value.accounts, a)
           == BalanceOf(s.accounts, a) + PaidInto(rows, budget, a) - (if a == payer then PaidOut(rows, budget) else 0)
    decreases |rows|
  {
    hide Execute, Sum, Swept, Core, Sweep, Ready;
    if rows == [] || budget == 0 {
      OutstandingNonNegative(s, incoming, payer, user, rows, budget);
      SweepStops(cfg, s, now, incoming, payer, user, rows, budget);
    } else {
      var amount := Min(budget, rows[0].outstanding);
      var s1 := SweepUnfolds(cfg, s, now, incoming, payer, user, rows, budget);
      SweepBalances(cfg, s1, now, incoming, payer, user, rows[1..], budget - amount, a);
    }
  }

  /** What a legal execution relies on. */
  predicate Sound(cfg: Config, s: State, now: Time, c: TransferCommand) {
    && Wired(cfg) && Core(s) && LegalRow(s, now, c) && LienKeysOld(s.idem, |s.transfers|) && !c.key.key.LienKey?
  }

  function AccountsAfter(s: State, r: Result<Executed>): seq<Account> {
    if r.Ok? then r.value.state.accounts else s.accounts
  }

  predicate Passes(f: Facts, c: TransferCommand, balance: int) { f.open && (f.overdraw || balance >= c.amount) }

  /** The whole effect of an execution on every balance, computed from the facts and the sender's balance. */
  lemma ExecuteBalances(cfg: Config, s: State, now: Time, c: TransferCommand, a: AccountId)
    requires Sound(cfg, s, now, c)
    ensures var f := FactsOf(cfg, s, now, c);
      BalanceOf(AccountsAfter(s, Execute(cfg, s, now, c)), a)
        == BalanceOf(s.accounts, a) + (if Passes(f, c, BalanceOf(s.accounts, c.sender)) then Change(c, f, a) else 0)
  {
    hide BooksOk, LoansOk, TransferOk, TransfersOk, SentToday, SumSentSince, Execute, Sum, OutstandingLoans, Sweep,
         RowReady, Core, MayMove, Authorize, PaidInto, PaidOut, Ready, LienKeysOld, LegalRow;
    if c.key in s.idem {
      ExecuteReplays(cfg, s, now, c);
    } else {
      ExecuteUnfolds(cfg, s, now, c);
      if Allowed(cfg, s, now, c) {
        LegBalances(Idempotency.Begin(s, c.key, c.fingerprint), now, c, a);
        if Liened(s, c) {
          var s1 := Charged(s, now, c);
          var user := s.accounts[c.receiver].owner.value;
          ChargedIsReady(cfg, s, now, c);
          AfterCreditUnfolds(cfg, s1, now, |s.transfers|, c.receiver, Credited(s, c), c.amount, c.kind);
          SweepBalances(cfg, s1, now, |s.transfers|, c.receiver, user, OutstandingLoans(s1.pools, s1.loans, user),
                        Budget(cfg, c.amount), a);
        } else {
          UnlienedExecute(cfg, s, now, c);
          NothingPaidInto(Budget(cfg, c.amount), a);
        }
      }
    }
  }

  lemma NothingPaidInto(budget: int, a: AccountId)
    ensures PaidInto([], budget, a) == 0 && PaidOut([], budget) == 0
  {
  }

  // -- the program ------------------------------------------------------------

  function PoolAccounts(rows: seq<LoanRow>): seq<AccountId> {
    seq(|rows|, k requires 0 <= k < |rows| => rows[k].poolAccount)
  }

  /** The rows `execute` asks `lock_for_update` for. */
  function Wished(c: TransferCommand, f: Facts): seq<AccountId> { [c.sender, c.receiver] + PoolAccounts(f.rows) }

  function Batch(c: TransferCommand, f: Facts): seq<AccountId> { LockBatch(Wished(c, f)) }

  /** The balance read for `a`. */
  function Reading(batch: seq<AccountId>, read: seq<int>, a: AccountId): int
    requires |batch| == |read|
  {
    if batch == [] then 0 else if batch[0] == a then read[0] else Reading(batch[1..], read[1..], a)
  }

  function Written(c: TransferCommand, f: Facts, batch: seq<AccountId>, read: seq<int>): seq<int>
    requires |batch| == |read|
  {
    seq(|batch|, i requires 0 <= i < |batch| => read[i] + Change(c, f, batch[i]))
  }

  function Work(c: TransferCommand, f: Facts): seq<int> -> Option<seq<int>> {
    (read: seq<int>) =>
      var batch := Batch(c, f);
      if |read| == |batch| && Passes(f, c, Reading(batch, read, c.sender)) then Some(Written(c, f, batch,
          read)) else None
  }

  function ExecuteProgram(c: TransferCommand, f: Facts): Program { Program(Batch(c, f), Work(c, f)) }

  lemma {:induction false} ReadingAt(batch: seq<AccountId>, read: seq<int>, i: nat)
    requires |batch| == |read| && Distinct(batch) && i < |batch|
    ensures Reading(batch, read, batch[i]) == read[i]
  {
    if i > 0 {
      ReadingAt(batch[1..], read[1..], i - 1);
    }
  }

  lemma InBatch(c: TransferCommand, f: Facts, a: AccountId)
    ensures a in Batch(c, f) <==> a == c.sender || a == c.receiver || a in PoolAccounts(f.rows)
    ensures Distinct(Batch(c, f)) && Ascending(Batch(c, f))
  {
    hide LockBatch;
    assert Wished(c, f)[0] == c.sender && Wished(c, f)[1] == c.receiver;
  }

  /** Whoever is not in the batch is paid nothing. */
  lemma {:induction false} UnlistedUnpaid(rows: seq<LoanRow>, budget: int, a: AccountId)
    requires a !in PoolAccounts(rows)
    ensures PaidInto(rows, budget, a) == 0
  {
    if rows != [] && budget > 0 {
      assert PoolAccounts(rows)[0] == rows[0].poolAccount;
      assert forall k :: 0 <= k < |rows| - 1 ==> PoolAccounts(rows[1..])[k] == PoolAccounts(rows)[k + 1];
      UnlistedUnpaid(rows[1..], budget - Min(budget, rows[0].outstanding), a);
    }
  }

  function Balances(accounts: seq<Account>): seq<int> {
    seq(|accounts|, a requires 0 <= a < |accounts| => accounts[a].balance)
  }

  /** The batch is `execute`'s lock set, and its rows exist. */
  lemma BatchIsLockSet(cfg: Config, s: State, now: Time, c: TransferCommand)
    requires InRange(s, c) && PoolsOk(s.accounts, s.pools)
    ensures var batch := Batch(c, FactsOf(cfg, s, now, c));
      && (forall a :: a in batch <==> a in LockSet(s, c))
      && (forall i :: 0 <= i < |batch| ==> batch[i] < |s.accounts|)
  {
    hide SentToday, SumSentSince, MayMove, Authorize;
    var f := FactsOf(cfg, s, now, c);
    forall a: AccountId
      ensures a in Batch(c, f) <==> a in LockSet(s, c)
      ensures a in Batch(c, f) ==> a < |s.accounts|
    {
      hide LockBatch;
      InBatch(c, f, a);
      RowsOnPools(s, c, a);
      assert AdditionalLockIds(s, c.receiver, c.kind) == PoolAccounts(f.rows) by { hide OutstandingLoans; }
    }
    var batch := Batch(c, f);
    assert forall i :: 0 <= i < |batch| ==> batch[i] in batch;
  }

  lemma RowsOnPools(s: State, c: TransferCommand, a: AccountId)
    requires InRange(s, c) && PoolsOk(s.accounts, s.pools)
    ensures a in AdditionalLockIds(s, c.receiver, c.kind) ==> a < |s.accounts|
  {
    if a in AdditionalLockIds(s, c.receiver, c.kind) {
      var ids := OwingIds(s.pools, s.loans, s.accounts[c.receiver].owner.value);
      var k :| 0 <= k < |ids| && AdditionalLockIds(s, c.receiver, c.kind)[k] == a;
      assert ids[k] in ids;
    }
  }

  lemma ProgramRunnable(c: TransferCommand, f: Facts, n: nat)
    requires forall i :: 0 <= i < |Batch(c, f)| ==> Batch(c, f)[i] < n
    ensures Runnable(ExecuteProgram(c, f), n)
  {
    InBatch(c, f, 0);
    hide LockBatch, Change, Passes;
  }

  /** A transaction alone: every row of the batch changes by its `Change`, the others not at all. */
  lemma ProgramAlone(balances: seq<int>, c: TransferCommand, f: Facts, a: AccountId)
    requires a < |balances| && c.sender < |balances|
    requires forall i :: 0 <= i < |Batch(c, f)| ==> Batch(c, f)[i] < |balances|
    ensures Alone(balances, ExecuteProgram(c, f))[a]
         == balances[a] + if a in Batch(c, f) && Passes(f, c, balances[c.sender]) then Change(c, f, a) else 0
  {
    hide LockBatch, Change, Passes, Runnable, Store;
    var p, batch := ExecuteProgram(c, f), Batch(c, f);
    ProgramRunnable(c, f, |balances|);
    var read := Values(balances, batch);
    InBatch(c, f, c.sender);
    var k :| 0 <= k < |batch| && batch[k] == c.sender;
    ReadingAt(batch, read, k);
    assert read[k] == balances[c.sender];
    if Passes(f, c, balances[c.sender]) {
      assert p.work(read) == Some(Written(c, f, batch, read));
      StoreAt(balances, batch, Written(c, f, batch, read), a);
      if a in batch {
        var i :| 0 <= i < |batch| && batch[i] == a;
        assert Written(c, f, batch, read)[i] == balances[a] + Change(c, f, a);
      }
    }
  }

  lemma AccountAgrees(cfg: Config, s: State, now: Time, c: TransferCommand, a: AccountId)
    requires Sound(cfg, s, now, c) && InRange(s, c) && a < |s.accounts|
    ensures var f := FactsOf(cfg, s, now, c);
      BalanceOf(AccountsAfter(s, Execute(cfg, s, now, c)), a) == Alone(Balances(s.accounts), ExecuteProgram(c, f))[a]
  {
    hide Execute, Change, LockBatch, FactsOf, LegalRow, LienKeysOld, Alone, ExecuteProgram, Batch, BooksOk,
         TransfersOk, LoansOk, AccountsAfter, AccountsOk;
    var f := FactsOf(cfg, s, now, c);
    BatchIsLockSet(cfg, s, now, c);
    ExecuteBalances(cfg, s, now, c, a);
    ProgramAlone(Balances(s.accounts), c, f, a);
    UnlistedUnchanged(c, f, a);
  }

  /** `execute` does to the balances exactly what its program does in the lock machine. */
  lemma ExecuteIsProgram(cfg: Config, s: State, now: Time, c: TransferCommand)
    requires Sound(cfg, s, now, c)
    ensures Balances(AccountsAfter(s, Execute(cfg, s, now, c)))
         == Alone(Balances(s.accounts), ExecuteProgram(c, FactsOf(cfg, s, now, c)))
    ensures InRange(s, c) ==> Runnable(ExecuteProgram(c, FactsOf(cfg, s, now, c)), |s.accounts|)
    ensures Ascending(ExecuteProgram(c, FactsOf(cfg, s, now, c)).batch)
  {
    hide Execute, Sum, OutstandingLoans, SentToday, SumSentSince, MayMove, Authorize, Change, LockBatch, Runnable,
         Alone, Sound, Core, AccountsAfter;
    var f := FactsOf(cfg, s, now, c);
    var p, after := ExecuteProgram(c, f), AccountsAfter(s, Execute(cfg, s, now, c));
    InBatch(c, f, 0);
    SameCount(cfg, s, now, c);
    if InRange(s, c) {
      assert PoolsOk(s.accounts, s.pools) by { SoundPools(cfg, s, now, c); }
      BatchIsLockSet(cfg, s, now, c);
      ProgramRunnable(c, f, |s.accounts|);
      forall a | 0 <= a < |s.accounts|
        ensures Balances(after)[a] == Alone(Balances(s.accounts), p)[a]
      {
        AccountAgrees(cfg, s, now, c, a);
      }
    } else {
      ClosedAlone(Balances(s.accounts), c, f);
      forall a | 0 <= a < |s.accounts|
        ensures Balances(after)[a] == Balances(s.accounts)[a]
      {
        ExecuteBalances(cfg, s, now, c, a);
      }
    }
  }

  lemma SoundPools(cfg: Config, s: State, now: Time, c: TransferCommand)
    requires Sound(cfg, s, now, c)
    ensures PoolsOk(s.accounts, s.pools)
  {
  }

  lemma SameCount(cfg: Config, s: State, now: Time, c: TransferCommand)
    ensures |AccountsAfter(s, Execute(cfg, s, now, c))| == |s.accounts|
  {
    hide Execute;
    Growth.ExecuteFramed(cfg, s, now, c);
  }

  /** Rows outside the batch are not changed. */
  lemma UnlistedUnchanged(c: TransferCommand, f: Facts, a: AccountId)
    ensures a !in Batch(c, f) ==> Change(c, f, a) == 0
  {
    hide LockBatch;
    InBatch(c, f, a);
    if a !in Batch(c, f) {
      UnlistedUnpaid(f.rows, f.budget, a);
    }
  }

  lemma ClosedAlone(balances: seq<int>, c: TransferCommand, f: Facts)
    requires !f.open
    ensures Alone(balances, ExecuteProgram(c, f)) == balances
  {
    hide LockBatch, Runnable, Store;
  }

  /** Two states that agree on what `execute` reads. */
  predicate SameReads(s: State, t: State, now: Time, c: TransferCommand) {
    && InRange(s, c) && InRange(t, c)
    && s.accounts[c.sender] == t.accounts[c.sender] && s.accounts[c.receiver] == t.accounts[c.receiver]
    && (c.key in s.idem <==> c.key in t.idem)
    && SentToday(s.transfers, c.sender, now) == SentToday(t.transfers, c.sender, now)
    && (s.accounts[c.receiver].owner.Some? ==>
          OutstandingLoans(s.pools, s.loans, s.accounts[c.receiver].owner.value)
            == OutstandingLoans(t.pools, t.loans, s.accounts[c.receiver].owner.value))
  }

  /** A new execution depends on, and changes, only what it locks and reads. */
  lemma ExecuteIsLocal(cfg: Config, s: State, t: State, now: Time, c: TransferCommand, a: AccountId)
    requires Sound(cfg, s, now, c) && Sound(cfg, t, now, c) && SameReads(s, t, now, c) && c.key !in s.idem
    ensures LockSet(s, c) == LockSet(t, c)
    ensures Execute(cfg, s, now, c).Ok? <==> Execute(cfg, t, now, c).Ok?
    ensures var x, y := AccountsAfter(s, Execute(cfg, s, now, c)), AccountsAfter(t, Execute(cfg, t, now, c));
      && BalanceOf(x, a) - BalanceOf(s.accounts, a) == BalanceOf(y, a) - BalanceOf(t.accounts, a)
      && (a !in LockSet(s, c) ==> BalanceOf(x, a) == BalanceOf(s.accounts, a))
  {
    hide Execute, Sum, SentToday, SumSentSince, MayMove, Authorize, LegalRow, LienKeysOld, OutstandingLoans, Change,
         BooksOk, TransfersOk, LoansOk, Posted, LienOn;
    var f := FactsOf(cfg, s, now, c);
    assert f == FactsOf(cfg, t, now, c);
    ExecuteBalances(cfg, s, now, c, a);
    ExecuteBalances(cfg, t, now, c, a);
    BatchIsLockSet(cfg, s, now, c);
    BatchIsLockSet(cfg, t, now, c);
    ExecuteUnfolds(cfg, s, now, c);
    ExecuteEffect(cfg, s, now, c);
    ExecuteEffect(cfg, t, now, c);
    UnlistedUnchanged(c, f, a);
  }

  // -- conservation over interleavings ----------------------------------------

  function Same(x: int): int { x }

  /** `v` at `x`, nothing elsewhere. */
  function Spike(x: AccountId, v: int): AccountId -> int { (a: AccountId) => if a == x then v else 0 }

  lemma {:induction false} SpikeSum(batch: seq<AccountId>, x: AccountId, v: int)
    requires Distinct(batch)
    ensures Sum(batch, Spike(x, v)) == if x in batch then v else 0
  {
    if batch != [] {
      SpikeSum(batch[..|batch| - 1], x, v);
    }
  }

  function Into(rows: seq<LoanRow>, budget: int): AccountId -> int { (a: AccountId) => PaidInto(rows, budget, a) }

  /** What the lien pays out arrives in the batch. */
  lemma {:induction false} PaidIntoBatch(batch: seq<AccountId>, rows: seq<LoanRow>, budget: int)
    requires Distinct(batch) && forall k :: 0 <= k < |rows| ==> rows[k].poolAccount in batch
    ensures Sum(batch, Into(rows, budget)) == PaidOut(rows, budget)
    decreases |rows|
  {
    if rows == [] || budget <= 0 {
      SumZero(batch, Into(rows, budget));
    } else {
      var pay := Min(budget, rows[0].outstanding);
      PaidIntoBatch(batch, rows[1..], budget - pay);
      SpikeSum(batch, rows[0].poolAccount, pay);
      SumsAdd(batch, Spike(rows[0].poolAccount, pay), Into(rows[1..], budget - pay), Into(rows, budget));
    }
  }

  function Changes(c: TransferCommand, f: Facts): AccountId -> int { (a: AccountId) => Change(c, f, a) }

  lemma ChangesCancel(c: TransferCommand, f: Facts)
    requires c.sender != c.receiver
    ensures Sum(Batch(c, f), Changes(c, f)) == 0
  {
    hide LockBatch, Sum, PaidInto, PaidOut;
    var batch := Batch(c, f);
    InBatch(c, f, c.sender);
    InBatch(c, f, c.receiver);
    forall k | 0 <= k < |f.rows|
      ensures f.rows[k].poolAccount in batch
    {
      assert PoolAccounts(f.rows)[k] == f.rows[k].poolAccount;
      InBatch(c, f, f.rows[k].poolAccount);
    }
    var paid := PaidOut(f.rows, f.budget);
    var out, in_ := Spike(c.sender, -c.amount), Spike(c.receiver, c.amount - paid);
    var both := (a: AccountId) => out(a) + in_(a);
    SpikeSum(batch, c.sender, -c.amount);
    SpikeSum(batch, c.receiver, c.amount - paid);
    SumsAdd(batch, out, in_, both);
    PaidIntoBatch(batch, f.rows, f.budget);
    SumsAdd(batch, both, Into(f.rows, f.budget), Changes(c, f));
  }

  lemma {:induction false} StoreAddsUp(balances: seq<int>, batch: seq<AccountId>, values: seq<int>, g: AccountId -> int)
    requires Distinct(batch) && |values| == |batch| && forall i :: 0 <= i < |batch| ==> batch[i] < |balances|
    requires forall i :: 0 <= i < |batch| ==> values[i] == balances[batch[i]] + g(batch[i])
    ensures Sum(Store(balances, batch, values), Same) == Sum(balances, Same) + Sum(batch, g)
  {
    if batch != [] {
      var n := |batch| - 1;
      StoreAddsUp(balances, batch[..n], values[..n], g);
      var before := Store(balances, batch[..n], values[..n]);
      StoreAt(balances, batch[..n], values[..n], batch[n]);
      SumUpdate(before, batch[n], values[n], Same);
    }
  }

  /** Any execution program, whatever it reads, keeps the total. */
  lemma ProgramConserves(balances: seq<int>, c: TransferCommand, f: Facts)
    requires c.sender != c.receiver
    ensures Sum(Alone(balances, ExecuteProgram(c, f)), Same) == Sum(balances, Same)
  {
    hide LockBatch, Sum, Change, Store;
    var p, batch := ExecuteProgram(c, f), Batch(c, f);
    var read := Values(balances, batch);
    if Runnable(p, |balances|) && p.work(read).Some? {
      ChangesCancel(c, f);
      StoreAddsUp(balances, batch, p.work(read).value, Changes(c, f));
    }
  }

  ghost predicate Executes(p: Program) {
    exists c: TransferCommand, f: Facts :: c.sender != c.receiver && p == ExecuteProgram(c, f)
  }

  lemma {:induction false} SerialConserves(balances: seq<int>, txns: seq<Txn>, log: seq<nat>)
    requires forall i :: 0 <= i < |log| ==> log[i] < |txns| && Executes(txns[log[i]].program)
    ensures Sum(Serial(balances, txns, log), Same) == Sum(balances, Same)
  {
    hide ExecuteProgram, Alone;
    if log != [] {
      var n := |log| - 1;
      SerialConserves(balances, txns, log[..n]);
      assert Executes(txns[log[n]].program);
      var c: TransferCommand, f: Facts :| c.sender != c.receiver && txns[log[n]].program == ExecuteProgram(c, f);
      ProgramConserves(Serial(balances, txns, log[..n]), c, f);
    }
  }

  /** No interleaving of executions, liens and issuance included, creates or loses money. */
  lemma InterleavingConserves(balances: seq<int>, steps: seq<Step>)
    requires var m := Interleaved(balances, steps); forall t :: 0 <= t < |m.txns| ==> Executes(m.txns[t].program)
    ensures Sum(Interleaved(balances, steps).balances, Same) == Sum(balances, Same)
  {
    hide Executes, Serial, Sum;
    var m := Interleaved(balances, steps);
    SerialRefinement(balances, steps);
    SerialConserves(balances, m.txns, m.log);
  }
}
