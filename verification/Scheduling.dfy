/** platform_/scheduling/repository.py: the durable task queue, keyed by (task_type, resource_id). */
module Scheduling {
  import opened Kernel
  import opened Tables

  const MAX_ATTEMPTS: nat := 8
  const BATCH_SIZE: nat := 50

  /** `INSERT ... ON CONFLICT (task_type, resource_id) DO NOTHING`. */
  function Schedule(tasks: map<TaskKey, Task>, key: TaskKey, dueAt: Time): (after: map<TaskKey, Task>)
    ensures tasks.Keys <= after.Keys
  {
    if key in tasks then tasks else tasks[key := Task(TaskPending, 0, dueAt)]
  }

  /** Cancels the row only while it is still pending. */
  function Cancel(tasks: map<TaskKey, Task>, key: TaskKey): (after: map<TaskKey, Task>)
    ensures after.Keys == tasks.Keys
  {
    if key in tasks && tasks[key].status == TaskPending
    then tasks[key := tasks[key].(status := TaskCancelled)]
    else tasks
  }

  function Finish(tasks: map<TaskKey, Task>, key: TaskKey): (after: map<TaskKey, Task>)
    ensures after.Keys == tasks.Keys
  {
    if key in tasks then tasks[key := tasks[key].(status := TaskDone)] else tasks
  }

  function Pow2(n: nat): nat { if n == 0 then 1 else 2 * Pow2(n - 1) }

  /** Back off, or park the row for an operator. */
  function RecordFailure(tasks: map<TaskKey, Task>, key: TaskKey, attempt: nat, now: Time): (after: map<TaskKey, Task>)
    ensures after.Keys == tasks.Keys
  {
    if key !in tasks then tasks
    else
      var terminal := attempt >= MAX_ATTEMPTS;
      tasks[key := Task(
        if terminal then TaskFailed else TaskPending,
        attempt,
        if terminal then tasks[key].dueAt else now + Min(Pow2(attempt), 300))]
  }

  /** A row set `claim_due` may return: due, pending, distinct, bounded; rows other workers hold are skipped. */
  predicate Claimable(tasks: map<TaskKey, Task>, now: Time, claimed: seq<TaskKey>) {
    && |claimed| <= BATCH_SIZE
    && (forall i :: 0 <= i < |claimed| ==>
          claimed[i] in tasks && tasks[claimed[i]].status == TaskPending && tasks[claimed[i]].dueAt <= now)
    && (forall i, j :: 0 <= i < j < |claimed| ==>
          claimed[i] != claimed[j] && tasks[claimed[i]].dueAt <= tasks[claimed[j]].dueAt)
  }
}
