/** What drives the use cases: the scheduler's batch loop and the retrying unit of work. */
module Processes {
  import opened Kernel
  import opened Policies
  import opened Tables
  import opened Scheduling
  import opened Store
  import opened Operations
  import opened EscrowOperations
  import opened Invariants
  import opened Settling
  import opened Batches
  import opened Runs
  import Bank
  import Worker
  import Holds
  import SafePay
  import MoneyRequests
  import SpotMe

  method Handle(session: Session, cfg: Config, now: Time, key: TaskKey) returns (r: Result<()>)
    modifies session
    ensures Does(r, session.View(), Worker.Handle(cfg, old(session.View()), now, key))
  {
    hide Holds.SettleUndo, SafePay.AutoReleaseDue;
    match key.taskType {
      case UndoSettleTask => r := SettleUndo(session, cfg, now, key.resource);
      case AutoReleaseTask => r := AutoRelease(session, cfg, now, key.resource);
      case RequestExpiryTask =>
        var expired := ExpireDue(session, now);
        assert session.requests == MoneyRequests.ExpireDue(old(session.View()), now).requests;
        r := Ok(());
    }
  }

  /** `run_due_tasks`: a savepoint per task, so one failure leaves the rest of the batch and the invariant intact. */
  method RunDueTasks(session: Session, cfg: Config, now: Time, claimed: seq<TaskKey>) returns (completed: nat)
    modifies session
    ensures (session.View(), completed) == Worker.RunBatch(cfg, old(session.View()), now, claimed)
    ensures Wired(cfg) && Inv(cfg, old(session.View())) && Claimable(old(session.tasks), now, claimed) ==>
      Inv(cfg, session.View()) && BatchRan(old(session.tasks), session.tasks, claimed, completed)
  {
    hide Worker.Handle, Finish, RecordFailure, Inv, Wired, Claimable, BatchRan;
    completed := 0;
    ghost var start := session.View();
    var i := 0;
    while i < |claimed|
      invariant 0 <= i <= |claimed|
      invariant (session.View(), completed) == Worker.RunBatch(cfg, start, now, claimed[..i])
    {
      var key := claimed[i];
      var savepoint := session.View();
      var r := Handle(session, cfg, now, key);
      if r.Ok? {
        session.tasks := Finish(session.tasks, key);
        completed := completed + 1;
      } else {
        session.Restore(savepoint);
        var attempt := (if key in session.tasks then session.tasks[key].attempts else 0) + 1;
        session.tasks := RecordFailure(session.tasks, key, attempt, now);
      }
      assert claimed[..i + 1][..i] == claimed[..i];
      i := i + 1;
    }
    assert claimed[..i] == claimed;
    if Wired(cfg) && Inv(cfg, start) && Claimable(start.tasks, now, claimed) {
      RunBatchKeeps(cfg, start, now, claimed);
    }
  }

  datatype Answer = Answer(body: Option<Body>, replayed: bool)

  predicate Answered(r: Result<Answer>, after: State, spec: Result<Bank.Answer>) {
    && (spec.Ok? ==> r == Ok(Answer(spec.value.body, spec.value.replayed)) && after == spec.value.state)
    && (spec.Err? ==> r == Err(spec.error))
  }

  function FromReply(r: Result<Reply>): Result<Answer> {
    match r case Ok(v) => Ok(Answer(Some(v.body), v.replayed)) case Err(e) => Err(e)
  }

  function FromUnit(r: Result<()>): Result<Answer> {
    match r case Ok(_) => Ok(Answer(None, false)) case Err(e) => Err(e)
  }

  /** Any command, inside an open transaction. */
  method Perform(session: Session, cfg: Config, now: Time, command: Bank.Command) returns (r: Result<Answer>)
    modifies session
    ensures Answered(r, session.View(), Bank.Step(cfg, old(session.View()), now, command))
    ensures Wired(cfg) && Inv(cfg, old(session.View())) && r.Ok? ==> Inv(cfg, session.View())
  {
    hide Inv, Wired, BatchRan;
    hide SpotMe.OpenAccount, SpotMe.CreatePool, SpotMe.FundPool, SpotMe.GrantAccess, SpotMe.Send, Holds.Undo,
         SafePay.Create, SafePay.Perform, MoneyRequests.Request, MoneyRequests.Accept, MoneyRequests.Terminate,
         Worker.RunBatch, Claimable;
    match command {
      case OpenAccount(user, opening) =>
        var u := OpenAccount(session, cfg, now, user, opening); r := FromUnit(u);
      case CreatePool(sponsor, amount, key) =>
        var a := CreatePool(session, cfg, now, sponsor, amount, key); r := FromReply(a);
      case FundPool(sponsor, amount, key) =>
        var a := FundPool(session, cfg, now, sponsor, amount, key); r := FromReply(a);
      case GrantAccess(sponsor, beneficiary, maxDraw, key) =>
        var a := GrantAccess(session, cfg, now, sponsor, beneficiary, maxDraw, key); r := FromReply(a);
      case Send(user, recipient, amount, key, note) =>
        var a := Send(session, cfg, now, user, recipient, amount, key, note); r := FromReply(a);
      case Undo(transfer, actor, key) =>
        var a := Undo(session, cfg, now, transfer, actor, key); r := FromReply(a);
      case CreateEscrow(buyer, seller, amount, description, key) =>
        var a := Create(session, cfg, now, buyer, seller, amount, description, key); r := FromReply(a);
      case OrderEscrow(order, key) =>
        var a := EscrowOperations.Perform(session, cfg, now, order, key); r := FromReply(a);
      case RequestMoney(requester, payer, amount) =>
        var u := RequestMoney(session, cfg, now, requester, payer, amount); r := FromUnit(u);
      case AcceptRequest(request, user, key) =>
        var u := Accept(session, cfg, now, request, user, key); r := FromUnit(u);
      case TerminateRequest(request, user, byPayer) =>
        var u := Terminate(session, request, user, byPayer); r := FromUnit(u);
      case RunTasks(claimed) =>
        if Claimable(session.tasks, now, claimed) {
          var completed := RunDueTasks(session, cfg, now, claimed);
          r := Ok(Answer(None, false));
        } else {
          r := Err(NotFound);
        }
    }
    if Wired(cfg) && Inv(cfg, old(session.View())) && r.Ok? {
      StepKeeps(cfg, old(session.View()), now, command);
    }
  }

  // -- unit_of_work.py --------------------------------------------------------

  /**
   * What the database does to one attempt: nothing, a serialization failure or deadlock, an outage, or another error.
   */
  datatype Fault = NoFault | Transient | Unavailable | OtherFault

  /** An attempt: the clock it reads, the fault it meets, and whether its writes had been made by then. */
  datatype Attempt = Attempt(now: Time, fault: Fault, late: bool)

  datatype Ending =
    | Finished(answer: Answer)
    | Refused(error: Error)
    | DependencyUnavailable
    | DatabaseError

  /** The attempt that decides: the first one not ended by a transient fault, if it comes in time. */
  function Deciding(attempts: seq<Attempt>, max: nat): Option<nat> {
    if max == 0 || |attempts| == 0 then None
    else if attempts[0].fault != Transient then Some(0)
    else match Deciding(attempts[1..], max - 1) case Some(k) => Some(k + 1) case None => None
  }

  /**
   * Bounded retry of whole transactions: at most one attempt commits, and it commits as if it had been the only one.
   */
  function Outcome(cfg: Config, s: State, attempts: seq<Attempt>, max: nat, command: Bank.Command): (State, Ending)
    requires |attempts| >= max
  {
    match Deciding(attempts, max)
    case None => (s, DependencyUnavailable)
    case Some(k) =>
      if k >= |attempts| then (s, DependencyUnavailable)
      else match attempts[k].fault
        case NoFault =>
          (match Bank.Step(cfg, s, attempts[k].now, command)
           case Ok(a) => (a.state, Finished(Answer(a.body, a.replayed)))
           case Err(e) => (s, Refused(e)))
        case Unavailable => (s, DependencyUnavailable)
        case _ => (s, DatabaseError)
  }

  lemma {:induction false} DecidedLater(attempts: seq<Attempt>, max: nat, k: nat)
    requires k <= max <= |attempts| && forall i :: 0 <= i < k ==> attempts[i].fault == Transient
    ensures k < max && attempts[k].fault != Transient ==> Deciding(attempts, max) == Some(k)
    ensures k == max ==> Deciding(attempts, max) == None
    decreases k
  {
    if k > 0 {
      assert attempts[1..][k - 1..] == attempts[k..];
      DecidedLater(attempts[1..], max - 1, k - 1);
    }
  }

  /** `UnitOfWork.run`. */
  method RunUnit(session: Session, cfg: Config, attempts: seq<Attempt>, max: nat,
                 command: Bank.Command) returns (ending: Ending)
    requires |attempts| >= max
    modifies session
    ensures (session.View(), ending) == Outcome(cfg, old(session.View()), attempts, max, command)
    ensures Wired(cfg) && Inv(cfg, old(session.View())) ==> Inv(cfg, session.View())
  {
    hide Bank.Step, Deciding, Inv, Wired;
    ghost var start := session.View();
    var attempt := 0;
    while attempt < max
      invariant 0 <= attempt <= max
      invariant session.View() == start
      invariant forall i :: 0 <= i < attempt ==> attempts[i].fault == Transient
    {
      var before := session.View();
      var a := attempts[attempt];
      DecidedLater(attempts, max, attempt);
      if a.fault == NoFault {
        var r := Perform(session, cfg, a.now, command);
        if r.Err? {
          session.Restore(before);
          return Refused(r.error);
        }
        return Finished(r.value);
      }
      if a.late {
        var lost := Perform(session, cfg, a.now, command);
      }
      session.Restore(before);
      if a.fault == Unavailable { return DependencyUnavailable; }
      if a.fault != Transient { return DatabaseError; }
      attempt := attempt + 1;
    }
    DecidedLater(attempts, max, max);
    return DependencyUnavailable;
  }

  /** Whatever faults occur, a retried unit of work leaves the store untouched or as one commit of the command. */
  lemma AtMostOneCommit(cfg: Config, s: State, attempts: seq<Attempt>, max: nat, command: Bank.Command)
    requires |attempts| >= max
    ensures var (s', ending) := Outcome(cfg, s, attempts, max, command);
      && (ending.Finished? || ending.Refused? ==>
            exists k :: 0 <= k < max && attempts[k].fault == NoFault
                        && s' == Bank.Commit(cfg, s, Bank.Event(attempts[k].now, command))
                        && (forall i :: 0 <= i < k ==> attempts[i].fault == Transient))
      && (!ending.Finished? ==> s' == s)
  {
    hide Bank.Step;
    DecidingIsFirst(attempts, max);
  }

  lemma {:induction false} DecidingIsFirst(attempts: seq<Attempt>, max: nat)
    requires |attempts| >= max
    ensures var d := Deciding(attempts, max);
      d.Some? ==> d.value < max && attempts[d.value].fault != Transient && forall i :: 0 <= i < d.value ==>
          attempts[i].fault == Transient
  {
    if max > 0 && attempts[0].fault == Transient {
      DecidingIsFirst(attempts[1..], max - 1);
      var d := Deciding(attempts, max);
      assert d.Some? ==> forall i :: 1 <= i < d.value ==> attempts[i] == attempts[1..][i - 1];
    }
  }

  /** How a unit of work ends, from its first attempt without a transient fault alone. */
  lemma UnitEndsExactly(cfg: Config, s: State, attempts: seq<Attempt>, max: nat, command: Bank.Command, k: nat)
    requires |attempts| >= max && k <= max && forall i :: 0 <= i < k ==> attempts[i].fault == Transient
    ensures k == max ==> Outcome(cfg, s, attempts, max, command) == (s, DependencyUnavailable)
    ensures k < max && attempts[k].fault == Unavailable ==>
      Outcome(cfg, s, attempts, max, command) == (s, DependencyUnavailable)
    ensures k < max && attempts[k].fault == OtherFault ==>
      Outcome(cfg, s, attempts, max, command) == (s, DatabaseError)
    ensures k < max && attempts[k].fault == NoFault ==>
      var (s', ending) := Outcome(cfg, s, attempts, max, command);
      && s' == Bank.Commit(cfg, s, Bank.Event(attempts[k].now, command))
      && ending == match Bank.Step(cfg, s, attempts[k].now, command)
                   case Ok(a) => Finished(Answer(a.body, a.replayed))
                   case Err(e) => Refused(e)
  {
    hide Bank.Step;
    DecidedLater(attempts, max, k);
  }
}
