/**
 * Transactions interleaved at the granularity of one row lock, one row write, commit and abort.
 * A lock reads the row it takes, locks are held until the transaction ends, and balances are
 * written as absolute values that only become visible at commit.
 */
module Concurrency {
  import opened Kernel
  import opened Accounts

  // -- transactions ---------------------------------------------------------

  /** Rows to lock, in locking order, and the balances to write for the balances read; `None` refuses. */
  datatype Program = Program(batch: seq<AccountId>, work: seq<int> -> Option<seq<int>>)

  datatype Status = Running | Committed | Aborted

  datatype Txn = Txn(program: Program, read: seq<int>, written: nat, status: Status)

  datatype Machine = Machine(balances: seq<int>, txns: seq<Txn>, log: seq<nat>)

  predicate Distinct(batch: seq<AccountId>) {
    forall i, j :: 0 <= i < j < |batch| ==> batch[i] != batch[j]
  }

  predicate Ascending(batch: seq<AccountId>) {
    forall i, j :: 0 <= i < j < |batch| ==> batch[i] < batch[j]
  }

  ghost predicate Runnable(p: Program, n: nat) {
    && Distinct(p.batch)
    && (forall i :: 0 <= i < |p.batch| ==> p.batch[i] < n)
    && (forall read: seq<int> :: |read| == |p.batch| && p.work(read).Some? ==> |p.work(read).value| == |p.batch|)
  }

  /** `sorted(set(ids))`: the order in which `lock_for_update` takes its rows. */
  function LockBatch(ids: seq<AccountId>): (batch: seq<AccountId>)
    ensures Ascending(batch)
    ensures forall a :: a in batch <==> a in ids
  {
    if ids == [] then []
    else
      var n := |ids| - 1;
      assert forall a :: a in ids <==> a in ids[..n] || a == ids[n];
      InsertAscending(ids[n], LockBatch(ids[..n]))
  }

  function InsertAscending(a: AccountId, batch: seq<AccountId>): (r: seq<AccountId>)
    requires Ascending(batch)
    ensures Ascending(r)
    ensures forall x :: x in r <==> x == a || x in batch
  {
    if batch == [] then [a]
    else if a < batch[0] then [a] + batch
    else if a == batch[0] then batch
    else
      var rest := InsertAscending(a, batch[1..]);
      assert forall x :: x in batch <==> x == batch[0] || x in batch[1..];
      assert forall i :: 0 <= i < |rest| ==> rest[i] in rest;
      assert forall x :: x in batch[1..] ==> batch[0] < x;
      [batch[0]] + rest
  }

  // -- steps ----------------------------------------------------------------

  datatype Step = Begin(program: Program) | Lock(t: nat) | Write(t: nat) | Commit(t: nat) | Abort(t: nat)

  predicate IsRunning(m: Machine, t: nat) { t < |m.txns| && m.txns[t].status == Running }

  /** The rows a running transaction has locked. */
  function Held(m: Machine, t: nat): seq<AccountId> {
    if IsRunning(m, t)
        && |m.txns[t].read| <= |m.txns[t].program.batch| then m.txns[t].program.batch[..|m.txns[t].read|] else []
  }

  predicate Wants(m: Machine, t: nat) {
    IsRunning(m, t) && |m.txns[t].read| < |m.txns[t].program.batch|
  }

  function Wanted(m: Machine, t: nat): AccountId
    requires Wants(m, t)
  {
    m.txns[t].program.batch[|m.txns[t].read|]
  }

  predicate WaitsFor(m: Machine, t: nat, u: nat) {
    Wants(m, t) && u != t && Wanted(m, t) in Held(m, u)
  }

  predicate Blocked(m: Machine, t: nat) {
    exists u :: 0 <= u < |m.txns| && WaitsFor(m, t, u)
  }

  /** All rows locked and read, and the work accepts what it read. */
  predicate Decided(m: Machine, t: nat) {
    && IsRunning(m, t)
    && |m.txns[t].read| == |m.txns[t].program.batch|
    && m.txns[t].program.work(m.txns[t].read).Some?
  }

  function Store(balances: seq<int>, batch: seq<AccountId>, values: seq<int>): seq<int>
    requires |values| == |batch| && forall i :: 0 <= i < |batch| ==> batch[i] < |balances|
    ensures |Store(balances, batch, values)| == |balances|
  {
    if batch == [] then balances
    else
      var n := |batch| - 1;
      Store(balances, batch[..n], values[..n])[batch[n] := values[n]]
  }

  ghost predicate Enabled(m: Machine, step: Step) {
    match step
    case Begin(p) => Runnable(p, |m.balances|)
    case Lock(t) => Wants(m, t) && Wanted(m, t) < |m.balances| && !Blocked(m, t)
    case Write(t) => Decided(m, t) && m.txns[t].written < |m.txns[t].program.batch|
    case Commit(t) =>
      && Decided(m, t) && m.txns[t].written == |m.txns[t].program.batch|
      && Runnable(m.txns[t].program, |m.balances|)
    case Abort(t) => IsRunning(m, t)
  }

  ghost function Next(m: Machine, step: Step): Machine {
    if !Enabled(m, step) then m
    else
      match step
      case Begin(p) => m.(txns := m.txns + [Txn(p, [], 0, Running)])
      case Lock(t) => m.(txns := m.txns[t := m.txns[t].(read := m.txns[t].read + [m.balances[Wanted(m, t)]])])
      case Write(t) => m.(txns := m.txns[t := m.txns[t].(written := m.txns[t].written + 1)])
      case Commit(t) =>
        Machine(Store(m.balances, m.txns[t].program.batch, m.txns[t].program.work(m.txns[t].read).value),
                m.txns[t := m.txns[t].(status := Committed)],
                m.log + [t])
      case Abort(t) => m.(txns := m.txns[t := m.txns[t].(status := Aborted)])
  }

  ghost function Interleaved(balances: seq<int>, steps: seq<Step>): Machine {
    if steps == [] then Machine(balances, [], [])
    else Next(Interleaved(balances, steps[..|steps| - 1]), steps[|steps| - 1])
  }

  // -- the serial reference -------------------------------------------------

  function Values(balances: seq<int>, batch: seq<AccountId>): seq<int> {
    seq(|batch|, i requires 0 <= i < |batch| => if batch[i] < |balances| then balances[batch[i]] else 0)
  }

  /** One transaction alone: read, decide, write. A refusal changes nothing. */
  ghost function Alone(balances: seq<int>, p: Program): (after: seq<int>)
    ensures |after| == |balances|
  {
    var r := p.work(Values(balances, p.batch));
    if Runnable(p, |balances|) && r.Some? then Store(balances, p.batch, r.value) else balances
  }

  /** The logged transactions, one at a time in commit order. */
  ghost function Serial(balances: seq<int>, txns: seq<Txn>, log: seq<nat>): (after: seq<int>)
    ensures |after| == |balances|
  {
    if log == [] then balances
    else
      var n := |log| - 1;
      var before := Serial(balances, txns, log[..n]);
      if log[n] < |txns| then Alone(before, txns[log[n]].program) else before
  }

  // -- serial refinement ----------------------------------------------------

  predicate TxnOk(m: Machine, t: nat)
    requires t < |m.txns|
  {
    var x := m.txns[t];
    && |x.read| <= |x.program.batch|
    && (x.status == Running ==> forall i :: 0 <= i < |x.read| ==>
          x.program.batch[i] < |m.balances| && x.read[i] == m.balances[x.program.batch[i]])
  }

  /** What a running transaction has read is still what is committed, because nobody else can hold those rows. */
  ghost predicate Isolated(m: Machine) {
    && (forall t :: 0 <= t < |m.txns| ==> Runnable(m.txns[t].program, |m.balances|) && TxnOk(m, t))
    && (forall t, u, a :: 0 <= t < |m.txns| && 0 <= u < |m.txns| && t != u && a in Held(m, t) ==> a !in Held(m, u))
    && (forall i :: 0 <= i < |m.log| ==> m.log[i] < |m.txns|)
  }

  lemma {:induction false} StoreAt(balances: seq<int>, batch: seq<AccountId>, values: seq<int>, a: AccountId)
    requires |values| == |batch| && Distinct(batch) && forall i :: 0 <= i < |batch| ==> batch[i] < |balances|
    requires a < |balances|
    ensures a !in batch ==> Store(balances, batch, values)[a] == balances[a]
    ensures forall i :: 0 <= i < |batch| && batch[i] == a ==> Store(balances, batch, values)[a] == values[i]
  {
    if batch != [] {
      var n := |batch| - 1;
      StoreAt(balances, batch[..n], values[..n], a);
    }
  }

  lemma HeldIsPrefix(m: Machine, t: nat, i: nat)
    requires IsRunning(m, t) && i < |m.txns[t].read| <= |m.txns[t].program.batch|
    ensures m.txns[t].program.batch[i] in Held(m, t)
  {
    assert Held(m, t)[i] == m.txns[t].program.batch[i];
  }

  lemma LockKeepsIsolation(m: Machine, t: nat)
    requires Isolated(m) && Enabled(m, Lock(t))
    ensures Isolated(Next(m, Lock(t)))
  {
    hide Runnable;
    var m' := Next(m, Lock(t));
    var a := Wanted(m, t);
    forall u | 0 <= u < |m'.txns|
      ensures Runnable(m'.txns[u].program, |m'.balances|) && TxnOk(m', u)
    {
      assert Runnable(m.txns[u].program, |m.balances|) && TxnOk(m, u);
    }
    LockGrows(m, t);
    forall u, v, b | 0 <= u < |m.txns| && 0 <= v < |m.txns| && u != v && b in Held(m', u)
      ensures b !in Held(m', v)
    {
      hide Held, TxnOk;
      assert !WaitsFor(m, t, u) && !WaitsFor(m, t, v);
      assert b in Held(m, u) ==> b !in Held(m, v);
    }
  }

  lemma LockGrows(m: Machine, t: nat)
    requires Isolated(m) && Enabled(m, Lock(t))
    ensures Held(Next(m, Lock(t)), t) == Held(m, t) + [Wanted(m, t)]
    ensures forall u :: 0 <= u < |m.txns| && u != t ==> Held(Next(m, Lock(t)), u) == Held(m, u)
  {
    hide Runnable;
  }

  lemma CommitKeepsIsolation(m: Machine, t: nat)
    requires Isolated(m) && Enabled(m, Commit(t))
    ensures Isolated(Next(m, Commit(t)))
  {
    var m' := Next(m, Commit(t));
    var batch := m.txns[t].program.batch;
    var values := m.txns[t].program.work(m.txns[t].read).value;
    assert Held(m, t) == batch;
    forall u | 0 <= u < |m'.txns|
      ensures Runnable(m'.txns[u].program, |m'.balances|) && TxnOk(m', u)
      ensures Held(m', u) == if u == t then [] else Held(m, u)
    {
      assert Runnable(m.txns[u].program, |m.balances|) && TxnOk(m, u);
      if u != t && m.txns[u].status == Running {
        forall i | 0 <= i < |m.txns[u].read|
          ensures m'.balances[m.txns[u].program.batch[i]] == m.balances[m.txns[u].program.batch[i]]
        {
          var a := m.txns[u].program.batch[i];
          HeldIsPrefix(m, u, i);
          assert a !in Held(m, t);
          StoreAt(m.balances, batch, values, a);
        }
      }
    }
  }

  lemma OthersKeepIsolation(m: Machine, step: Step)
    requires Isolated(m) && Enabled(m, step) && (step.Begin? || step.Write? || step.Abort?)
    ensures Isolated(Next(m, step))
  {
    var m' := Next(m, step);
    forall u | 0 <= u < |m'.txns|
      ensures Runnable(m'.txns[u].program, |m'.balances|) && TxnOk(m', u)
      ensures Held(m', u) == (if u < |m.txns| && !(step.Abort? && u == step.t) then Held(m, u) else [])
    {
      if u < |m.txns| {
        assert Runnable(m.txns[u].program, |m.balances|) && TxnOk(m, u);
      }
    }
  }

  /** The serial run does not depend on transactions that have not committed. */
  lemma {:induction false} SerialKept(balances: seq<int>, txns: seq<Txn>, after: seq<Txn>, log: seq<nat>)
    requires |txns| <= |after| && forall i :: 0 <= i < |log| ==> log[i] < |txns|
    requires forall t :: 0 <= t < |txns| ==> after[t].program == txns[t].program
    ensures Serial(balances, after, log) == Serial(balances, txns, log)
  {
    if log != [] {
      SerialKept(balances, txns, after, log[..|log| - 1]);
    }
  }

  /**
   * At its commit, a transaction's reads are exactly the committed balances, so it commits what it would have done
   * alone.
   */
  lemma CommitIsAlone(m: Machine, t: nat)
    requires Isolated(m) && Enabled(m, Commit(t))
    ensures Next(m, Commit(t)).balances == Alone(m.balances, m.txns[t].program)
  {
    assert TxnOk(m, t) && Runnable(m.txns[t].program, |m.balances|);
    assert Values(m.balances, m.txns[t].program.batch) == m.txns[t].read;
  }

  lemma NextRefines(balances: seq<int>, m: Machine, step: Step)
    requires Isolated(m) && |m.balances| == |balances| && m.balances == Serial(balances, m.txns, m.log)
    ensures var m' := Next(m, step);
      Isolated(m') && |m'.balances| == |balances| && m'.balances == Serial(balances, m'.txns, m'.log)
  {
    var m' := Next(m, step);
    if Enabled(m, step) {
      SerialKept(balances, m.txns, m'.txns, m.log);
      match step
      case Lock(t) => LockKeepsIsolation(m, t);
      case Commit(t) =>
        CommitKeepsIsolation(m, t);
        CommitIsAlone(m, t);
        assert m'.log[..|m.log|] == m.log;
      case _ => OthersKeepIsolation(m, step);
    }
  }

  /** Any interleaving leaves the balances that the committed transactions give one at a time, in commit order. */
  lemma {:induction false} SerialRefinement(balances: seq<int>, steps: seq<Step>)
    ensures var m := Interleaved(balances, steps);
      Isolated(m) && |m.balances| == |balances| && m.balances == Serial(balances, m.txns, m.log)
  {
    if steps != [] {
      var n := |steps| - 1;
      SerialRefinement(balances, steps[..n]);
      hide Isolated, Next, Serial;
      NextRefines(balances, Interleaved(balances, steps[..n]), steps[n]);
    }
  }

  // -- deadlock -------------------------------------------------------------

  predicate AllAscending(m: Machine) {
    forall t :: 0 <= t < |m.txns| ==> Ascending(m.txns[t].program.batch)
  }

  /** Along a wait the wanted row only grows. */
  lemma WaitsAscend(m: Machine, t: nat, u: nat)
    requires AllAscending(m) && WaitsFor(m, t, u) && Wants(m, u)
    ensures Wanted(m, t) < Wanted(m, u)
  {
    var i :| 0 <= i < |Held(m, u)| && Held(m, u)[i] == Wanted(m, t);
    assert Ascending(m.txns[u].program.batch);
  }

  predicate WaitChain(m: Machine, path: seq<nat>) {
    && |path| >= 2
    && (forall i :: 0 <= i < |path| - 1 ==> WaitsFor(m, path[i], path[i + 1]))
    && Wants(m, path[|path| - 1])
  }

  lemma {:induction false} ChainsAscend(m: Machine, path: seq<nat>)
    requires AllAscending(m) && WaitChain(m, path)
    ensures Wants(m, path[0]) && Wanted(m, path[0]) < Wanted(m, path[|path| - 1])
  {
    var n := |path| - 1;
    assert WaitsFor(m, path[n - 1], path[n]);
    if n > 1 {
      var shorter := path[..n];
      assert forall i :: 0 <= i < |shorter| - 1 ==> WaitsFor(m, shorter[i], shorter[i + 1]);
      ChainsAscend(m, shorter);
    }
    WaitsAscend(m, path[n - 1], path[n]);
  }

  /** Transactions that each take one ascending batch never wait in a circle. */
  lemma NoWaitCycle(m: Machine, path: seq<nat>)
    requires AllAscending(m) && WaitChain(m, path)
    ensures path[0] != path[|path| - 1]
  {
    ChainsAscend(m, path);
  }

  /** From any running transaction, following waits reaches one that can go on. */
  lemma SomeoneAdvances(m: Machine, t: nat) returns (u: nat)
    requires Isolated(m) && AllAscending(m) && IsRunning(m, t)
    ensures IsRunning(m, u) && !Blocked(m, u)
    ensures Wants(m, u) ==> Enabled(m, Lock(u))
    decreases |m.balances| - (if Wants(m, t) then Wanted(m, t) else |m.balances|)
  {
    assert TxnOk(m, t) && Runnable(m.txns[t].program, |m.balances|);
    if Blocked(m, t) {
      var v :| 0 <= v < |m.txns| && WaitsFor(m, t, v);
      if Wants(m, v) {
        WaitsAscend(m, t, v);
        assert Runnable(m.txns[v].program, |m.balances|);
      }
      u := SomeoneAdvances(m, v);
    } else {
      u := t;
    }
  }

  predicate OnlyAscending(steps: seq<Step>) {
    forall i :: 0 <= i < |steps| && steps[i].Begin? ==> Ascending(steps[i].program.batch)
  }

  lemma {:induction false} BatchesStayAscending(balances: seq<int>, steps: seq<Step>)
    requires OnlyAscending(steps)
    ensures AllAscending(Interleaved(balances, steps))
  {
    hide Ascending, Runnable, Store;
    if steps != [] {
      BatchesStayAscending(balances, steps[..|steps| - 1]);
    }
  }

  /** In every interleaving of one-batch transactions there is no wait cycle, and some running transaction can go on. */
  lemma DeadlockFree(balances: seq<int>, steps: seq<Step>, path: seq<nat>, t: nat)
    requires OnlyAscending(steps)
    ensures var m := Interleaved(balances, steps);
      && (WaitChain(m, path) ==> path[0] != path[|path| - 1])
      && (IsRunning(m, t) ==> exists u :: IsRunning(m, u) && !Blocked(m, u) && (Wants(m, u) ==> Enabled(m, Lock(u))))
  {
    var m := Interleaved(balances, steps);
    BatchesStayAscending(balances, steps);
    SerialRefinement(balances, steps);
    if WaitChain(m, path) {
      NoWaitCycle(m, path);
    }
    if IsRunning(m, t) {
      var u := SomeoneAdvances(m, t);
    }
  }

  lemma Stepwise(balances: seq<int>, steps: seq<Step>, step: Step)
    ensures Interleaved(balances, steps + [step]) == Next(Interleaved(balances, steps), step)
  {
    assert (steps + [step])[..|steps|] == steps;
  }

  /** With batches in no common order the circle is reachable: two transfers in opposite directions. */
  lemma UnorderedBatchesDeadlock(p: Program, q: Program)
    requires Runnable(p, 2) && Runnable(q, 2) && p.batch == [0, 1] && q.batch == [1, 0]
    ensures var m := Interleaved([0, 0], [Begin(p), Begin(q), Lock(0), Lock(1)]);
      WaitsFor(m, 0, 1) && WaitsFor(m, 1, 0)
  {
    hide Interleaved, Runnable;
    assert [] + [Begin(p)] == [Begin(p)];
    assert [Begin(p)] + [Begin(q)] == [Begin(p), Begin(q)];
    assert [Begin(p), Begin(q)] + [Lock(0)] == [Begin(p), Begin(q), Lock(0)];
    assert [Begin(p), Begin(q), Lock(0)] + [Lock(1)] == [Begin(p), Begin(q), Lock(0), Lock(1)];
    Stepwise([0, 0], [], Begin(p));
    Stepwise([0, 0], [Begin(p)], Begin(q));
    Stepwise([0, 0], [Begin(p), Begin(q)], Lock(0));
    Stepwise([0, 0], [Begin(p), Begin(q), Lock(0)], Lock(1));
    NoSteps([0, 0]);
    var m2 := Interleaved([0, 0], [Begin(p), Begin(q)]);
    assert m2 == Machine([0, 0], [Txn(p, [], 0, Running), Txn(q, [], 0, Running)], []);
    hide Next, WaitsFor;
    OppositeLocks(p, q);
  }

  lemma OppositeLocks(p: Program, q: Program)
    requires p.batch == [0, 1] && q.batch == [1, 0]
    ensures var m := Next(Next(Machine([0, 0], [Txn(p, [], 0, Running), Txn(q, [], 0, Running)], []), Lock(0)),
                          Lock(1));
      WaitsFor(m, 0, 1) && WaitsFor(m, 1, 0)
  {
    hide Runnable;
    var m2 := Machine([0, 0], [Txn(p, [], 0, Running), Txn(q, [], 0, Running)], []);
    assert Held(m2, 0) == [] && Held(m2, 1) == [];
    var m3 := Next(m2, Lock(0));
    assert Held(m3, 0) == [0] && Held(m3, 1) == [];
    var m4 := Next(m3, Lock(1));
    assert Held(m4, 0) == [0] && Held(m4, 1) == [1];
  }

  lemma NoSteps(balances: seq<int>)
    ensures Interleaved(balances, []) == Machine(balances, [], [])
  {
  }
}
