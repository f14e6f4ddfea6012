/** The scheduler worker: one batch of claimed tasks, each under its own savepoint. */
module Batches {
  import opened Kernel
  import opened Sums
  import opened Policies
  import opened Tables
  import opened Scheduling
  import opened Invariants
  import opened Settling
  import opened Conservation
  import opened Keeping
  import opened Payments
  import opened Sending
  import opened Closings
  import opened Escrows
  import opened Worker
  import Holds
  import SafePay
  import MoneyRequests

  ghost predicate OtherTasksKept(before: map<TaskKey, Task>, after: map<TaskKey, Task>, key: TaskKey) {
    && (key in before ==> key in after)
    && (forall k :: k != key ==> (k in after <==> k in before) && (k in before ==> after[k] == before[k]))
  }

  /** The work a task exists for is done. */
  predicate Discharged(s: State, key: TaskKey) {
    && (key.taskType == UndoSettleTask && key.resource < |s.transfers| ==>
        s.transfers[key.resource].status != PendingUndo)
    && (key.taskType == AutoReleaseTask && key.resource < |s.escrows| ==> s.escrows[key.resource].status != Delivered)
  }

  lemma HandleKeeps(cfg: Config, s: State, now: Time, key: TaskKey)
    requires Wired(cfg) && Inv(cfg, s)
    ensures var r := Handle(cfg, s, now, key);
      r.Ok? ==> Inv(cfg, r.value) && OtherTasksKept(s.tasks, r.value.tasks, key) && Discharged(r.value, key)
  {
    hide Inv, Holds.SettleUndo, SafePay.AutoReleaseDue, MoneyRequests.ExpireDue;
    match key.taskType
    case UndoSettleTask => SettleUndoKeeps(cfg, s, now, key.resource);
    case AutoReleaseTask =>
      AutoReleaseKeeps(cfg, s, now, key.resource);
      assert SafePay.AutoRelease(key.resource) == key;
    case RequestExpiryTask =>
      ExpireDueKeeps(cfg, s, now);
      ExpiryTouchesRequestsOnly(s, now);
  }

  lemma ExpiryTouchesRequestsOnly(s: State, now: Time)
    ensures MoneyRequests.ExpireDue(s, now) == s.(requests := MoneyRequests.ExpireDue(s, now).requests)
  {
  }

  /** Changing one task's row keeps the invariant when the task stays well-formed, and live unless discharged. */
  lemma TaskUpdateKeeps(cfg: Config, s: State, key: TaskKey, task: Task)
    requires Inv(cfg, s) && key in s.tasks
    requires TaskOk(s.transfers, s.escrows, key, task)
    requires Discharged(s, key) || task.status in {TaskPending, TaskFailed}
    ensures Inv(cfg, s.(tasks := s.tasks[key := task]))
  {
    hide Conserved, EscrowsOk, RequestsOk, IdemOk, Inv, KeyOk, Extends, TaskOk;
    var s' := s.(tasks := s.tasks[key := task]);
    InvParts(cfg, s);
    ConservedButTasks(cfg, s, s');
    TasksExtend(s, s');
    NoOpenKeys(s);
    ExtendKeepsKeys(s, s', {});
    NoOpenKeys(s');
    forall t | 0 <= t < |s.transfers| && s.transfers[t].status == PendingUndo
      ensures Live(s'.tasks, TaskKey(UndoSettleTask, t))
    {
      assert Live(s.tasks, TaskKey(UndoSettleTask, t));
    }
    forall e | 0 <= e < |s.escrows| && s.escrows[e].status == Delivered
      ensures Live(s'.tasks, TaskKey(AutoReleaseTask, e))
    {
      assert Live(s.tasks, TaskKey(AutoReleaseTask, e));
    }
    InvParts(cfg, s');
  }

  lemma TaskWellFormed(cfg: Config, s: State, key: TaskKey)
    requires Inv(cfg, s) && key in s.tasks
    ensures TaskOk(s.transfers, s.escrows, key, s.tasks[key])
  {
    InvParts(cfg, s);
  }

  /** One task: done together with its work, or nothing but one more recorded attempt. */
  lemma RunTaskKeeps(cfg: Config, s: State, now: Time, key: TaskKey)
    requires Wired(cfg) && Inv(cfg, s) && key in s.tasks && s.tasks[key].status == TaskPending
    ensures var (s', ok) := RunTask(cfg, s, now, key);
      && Inv(cfg, s')
      && OtherTasksKept(s.tasks, s'.tasks, key)
      && ok == Handle(cfg, s, now, key).Ok?
      && (ok ==> s'.tasks[key].status == TaskDone && Discharged(s', key))
      && (!ok ==>
            && s' == s.(tasks := s'.tasks)
            && s'.tasks[key].attempts == s.tasks[key].attempts + 1 <= MAX_ATTEMPTS
            && s'.tasks[key].status == (if s'.tasks[key].attempts == MAX_ATTEMPTS then TaskFailed else TaskPending)
            && (s'.tasks[key].status == TaskPending ==> s'.tasks[key].dueAt == now + Backoff(s'.tasks[key].attempts))
            && (s'.tasks[key].status == TaskFailed ==> s'.tasks[key].dueAt == s.tasks[key].dueAt))
  {
    hide Inv, Handle, TaskOk, Pow2;
    BackoffIsPow2(s.tasks[key].attempts + 1);
    TaskWellFormed(cfg, s, key);
    var h := Handle(cfg, s, now, key);
    if h.Ok? {
      HandleKeeps(cfg, s, now, key);
      TaskWellFormed(cfg, h.value, key);
      var task := h.value.tasks[key].(status := TaskDone);
      assert TaskOk(h.value.transfers, h.value.escrows, key,
                    task) by { DoneIsOk(h.value.transfers, h.value.escrows, key, h.value.tasks[key]); }
      TaskUpdateKeeps(cfg, h.value, key, task);
    } else {
      var tasks := RecordFailure(s.tasks, key, s.tasks[key].attempts + 1, now);
      FailedIsOk(s.transfers, s.escrows, key, s.tasks[key], tasks[key]);
      TaskUpdateKeeps(cfg, s, key, tasks[key]);
    }
  }

  /** Seconds to wait after the n-th failure. */
  function Backoff(n: nat): int {
    if n < 8 then [1, 2, 4, 8, 16, 32, 64, 128][n] else 300
  }

  lemma BackoffIsPow2(n: nat)
    ensures n < 8 ==> Min(Pow2(n), 300) == Backoff(n)
  {
    assert Pow2(3) == 8 && Pow2(6) == 64 by { assert Pow2(4) == 16; }
  }

  lemma DoneIsOk(transfers: seq<Transfer>, escrows: seq<Escrow>, key: TaskKey, task: Task)
    requires TaskOk(transfers, escrows, key, task)
    ensures TaskOk(transfers, escrows, key, task.(status := TaskDone))
  {
  }

  lemma FailedIsOk(transfers: seq<Transfer>, escrows: seq<Escrow>, key: TaskKey, task: Task, after: Task)
    requires TaskOk(transfers, escrows, key, task) && task.status == TaskPending
    requires after.attempts == task.attempts + 1
    requires after.status == (if after.attempts >= MAX_ATTEMPTS then TaskFailed else TaskPending)
    ensures TaskOk(transfers, escrows, key, after) && after.attempts <= MAX_ATTEMPTS
  {
  }

  function IsDone(tasks: map<TaskKey, Task>): TaskKey -> int {
    (k: TaskKey) => if k in tasks && tasks[k].status == TaskDone then 1 else 0
  }

  /** What is true of one claimed task after its batch. */
  predicate Attempted(before: map<TaskKey, Task>, after: map<TaskKey, Task>, key: TaskKey) {
    && key in before && key in after
    && (after[key].status == TaskDone
        || (after[key].status in {TaskPending, TaskFailed} && after[key].attempts == before[key].attempts + 1))
  }

  /** A batch settles or charges exactly its own rows, and counts what it completed. */
  ghost predicate BatchRan(before: map<TaskKey, Task>, after: map<TaskKey, Task>, claimed: seq<TaskKey>, done: int) {
    && (forall k :: k !in claimed ==> (k in after <==> k in before) && (k in before ==> after[k] == before[k]))
    && (forall k :: k in claimed ==> Attempted(before, after, k))
    && done == Sum(claimed, IsDone(after))
  }

  lemma BatchGrows(before: map<TaskKey, Task>, mid: map<TaskKey, Task>, after: map<TaskKey, Task>,
                   claimed: seq<TaskKey>,
                   n: nat, done: int)
    requires |claimed| == n + 1 && claimed[n] !in claimed[..n] && claimed[n] in before
    requires BatchRan(before, mid, claimed[..n], done) && OtherTasksKept(mid, after, claimed[n])
      && Attempted(mid, after, claimed[n])
    ensures BatchRan(before, after, claimed, done + IsDone(after)(claimed[n]))
  {
    var front, key := claimed[..n], claimed[n];
    assert forall k :: k in claimed <==> k in front || k == key;
    forall k | k in front
      ensures Attempted(before, after, k) && IsDone(after)(k) == IsDone(mid)(k)
    {
      assert k != key;
    }
    SumSame(front, IsDone(after), IsDone(mid));
  }

  lemma ClaimedLast(tasks: map<TaskKey, Task>, now: Time, claimed: seq<TaskKey>, n: nat)
    requires Claimable(tasks, now, claimed) && |claimed| == n + 1
    ensures Claimable(tasks, now, claimed[..n]) && claimed[n] !in claimed[..n]
    ensures claimed[n] in tasks && tasks[claimed[n]].status == TaskPending
  {
  }

  lemma UnclaimedKept(before: map<TaskKey, Task>, after: map<TaskKey, Task>, claimed: seq<TaskKey>, done: int,
                      key: TaskKey)
    requires BatchRan(before, after, claimed, done) && key !in claimed && key in before
    ensures key in after && after[key] == before[key]
  {
  }

  lemma TaskAttempted(cfg: Config, s: State, now: Time, key: TaskKey)
    requires Wired(cfg) && Inv(cfg, s) && key in s.tasks && s.tasks[key].status == TaskPending
    ensures var (s', ok) := RunTask(cfg, s, now, key);
      && Inv(cfg, s') && OtherTasksKept(s.tasks, s'.tasks, key) && Attempted(s.tasks, s'.tasks, key)
      && IsDone(s'.tasks)(key) == if ok then 1 else 0
  {
    hide Inv, RunTask, Handle, Discharged;
    RunTaskKeeps(cfg, s, now, key);
  }

  /** A batch keeps the invariant whichever of its tasks fail. */
  lemma {:induction false} RunBatchKeeps(cfg: Config, s: State, now: Time, claimed: seq<TaskKey>)
    requires Wired(cfg) && Inv(cfg, s) && Claimable(s.tasks, now, claimed)
    ensures var (s', done) := RunBatch(cfg, s, now, claimed);
      Inv(cfg, s') && BatchRan(s.tasks, s'.tasks, claimed, done)
  {
    hide Inv, RunTask, Attempted, IsDone, OtherTasksKept, Claimable;
    if claimed == [] {
      assert BatchRan(s.tasks, s.tasks, claimed, 0);
    } else {
      hide BatchRan;
      var n := |claimed| - 1;
      var key := claimed[n];
      ClaimedLast(s.tasks, now, claimed, n);
      RunBatchKeeps(cfg, s, now, claimed[..n]);
      var (s1, d1) := RunBatch(cfg, s, now, claimed[..n]);
      UnclaimedKept(s.tasks, s1.tasks, claimed[..n], d1, key);
      TaskAttempted(cfg, s1, now, key);
      var (s2, ok) := RunTask(cfg, s1, now, key);
      BatchGrows(s.tasks, s1.tasks, s2.tasks, claimed, n, d1);
    }
  }
}
