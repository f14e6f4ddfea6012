/** The delivery-code lockout over whole runs of the system. */
module CodeRuns {
  import opened Kernel
  import opened Accounts
  import opened Policies
  import opened Tables
  import opened Idempotency
  import opened Invariants
  import opened Settling
  import opened Escrows
  import opened EscrowRuns
  import opened Growth
  import opened Lockout
  import opened Bank
  import opened Runs
  import SpotMe
  import Holds
  import SafePay
  import Transfers
  import Worker

  /** The request reaches escrow `e`'s code check: right seller, open order, key not used before. */
  predicate ReachesCheck(s: State, command: Command, e: nat) {
    && command.OrderEscrow? && command.order.EnterCode? && command.order.escrow == e
    && e < |s.escrows| && s.escrows[e].seller == command.order.seller
    && s.escrows[e].status in {AwaitingShipment, Shipped, Delivered}
    && IdemKey(command.order.seller, CodeOf(e), ClientKey(command.key)) !in s.idem
  }

  /** A code was compared and found wrong. */
  predicate WrongCode(s: State, event: Event, e: nat) {
    && ReachesCheck(s, event.command, e)
    && !IsLocked(CodeCounter(s.escrows[e]), event.now)
    && !event.command.order.correct
  }

  /** When, over a run, codes for escrow `e` were compared and found wrong. */
  function WrongCodeTimes(cfg: Config, events: seq<Event>, e: nat): seq<Time> {
    if events == [] then []
    else
      var n := |events| - 1;
      var earlier := WrongCodeTimes(cfg, events[..n], e);
      if WrongCode(Run(cfg, events[..n]), events[n], e) then earlier + [events[n].now] else earlier
  }

  // -- one step ---------------------------------------------------------------

  lemma ReleaseSettles(cfg: Config, s: State, now: Time, id: nat, actor: UserId)
    requires id < |s.escrows|
    ensures var r := SafePay.Release(cfg, s, now, id, actor);
      r.Ok? ==> id < |r.value.state.escrows| && r.value.state.escrows[id].status == Released
  {
    hide Holds.Settle;
  }

  lemma RefundSettles(cfg: Config, s: State, now: Time, id: nat)
    requires id < |s.escrows|
    ensures var r := SafePay.Refund(cfg, s, now, id);
      r.Ok? ==> id < |r.value.state.escrows| && r.value.state.escrows[id].status == EscrowRefunded
  {
    hide Holds.Settle;
  }

  /** Orders other than a code leave the counter alone while the escrow stays unsettled. */
  lemma OrderKeepsCounter(cfg: Config, s: State, now: Time, order: SafePay.Order)
    requires order.escrow < |s.escrows| && !order.EnterCode? && SafePay.ApplyOrder(cfg, s, now, order).Ok?
    ensures var s' := SafePay.ApplyOrder(cfg, s, now, order).value.state;
      order.escrow < |s'.escrows| && Unsettled(s'.escrows[order.escrow].status) ==>
        CodeCounter(s'.escrows[order.escrow]) == CodeCounter(s.escrows[order.escrow])
  {
    hide SafePay.Release, SafePay.Refund, FindUser;
    var id := order.escrow;
    match order
    case Confirm(_, buyer) => ReleaseSettles(cfg, s, now, id, buyer);
    case Deliver(_, _, _, _) =>
      var s1 := SafePay.WithEscrow(s, id, s.escrows[id].(status := Delivered));
      ReleaseSettles(cfg, s1, now, id, s.escrows[id].seller);
    case Resolve(_, _, _, _) =>
      ReleaseSettles(cfg, s, now, id, s.escrows[id].seller);
      RefundSettles(cfg, s, now, id);
    case _ =>
  }

  lemma CodeAccepted(cfg: Config, s: State, now: Time, id: nat, seller: UserId, correct: bool)
    ensures SafePay.CodeOnce(cfg, s, now, id, seller, correct).Ok? ==>
      id < |s.escrows| && s.escrows[id].seller == seller && s.escrows[id].status in {AwaitingShipment, Shipped,
          Delivered}
  {
    hide SafePay.Release;
  }

  /** What one step does to the counter of an escrow that is unsettled before and after it. */
  lemma StepCounts(cfg: Config, s: State, event: Event, e: nat)
    requires Wired(cfg) && Inv(cfg, s) && e < |s.escrows| && Unsettled(s.escrows[e].status)
    ensures var s' := Commit(cfg, s, event);
      var before := CodeCounter(s.escrows[e]);
      && e < |s'.escrows|
      && (!ReachesCheck(s, event.command, e) && Unsettled(s'.escrows[e].status) ==>
            CodeCounter(s'.escrows[e]) == before)
      && (ReachesCheck(s, event.command, e) && Unsettled(s'.escrows[e].status) ==>
            CodeCounter(s'.escrows[e]) == After(CodePolicy(cfg), before, event.now, event.command.order.correct, false))
      && (WrongCode(s, event, e) ==> Unsettled(s'.escrows[e].status))
  {
    hide Inv, Step, Edge, SafePay.Perform;
    StepFollows(cfg, s, event, e);
    if event.command.OrderEscrow? && event.command.order.escrow == e {
      OrderCounts(cfg, s, event.now, event.command.order, event.command.key);
      OrderStep(cfg, s, event);
    }
  }

  lemma OrderStep(cfg: Config, s: State, event: Event)
    requires event.command.OrderEscrow?
    ensures var r := SafePay.Perform(cfg, s, event.now, event.command.order, event.command.key);
      Commit(cfg, s, event) == if r.Ok? then r.value.state else s
  {
    hide SafePay.Perform;
  }

  lemma OrderCounts(cfg: Config, s: State, now: Time, order: SafePay.Order, key: nat)
    requires order.escrow < |s.escrows| && Unsettled(s.escrows[order.escrow].status)
    ensures var e := order.escrow;
      var r := SafePay.Perform(cfg, s, now, order, key);
      var s' := if r.Ok? then r.value.state else s;
      var reaches := ReachesCheck(s, OrderEscrow(order, key), e);
      var before := CodeCounter(s.escrows[e]);
      && (e < |s'.escrows| && Unsettled(s'.escrows[e].status) ==>
            CodeCounter(s'.escrows[e])
              == if reaches then After(CodePolicy(cfg), before, now, order.correct, false) else before)
      && (reaches && !IsLocked(before, now) && !order.correct ==>
            e < |s'.escrows| && s'.escrows[e].status == s.escrows[e].status)
  {
    hide SafePay.ApplyOrder, SafePay.OrderKey;
    var e := order.escrow;
    var (top, fp) := SafePay.OrderKey(s, order, key);
    if order.EnterCode? {
      CodeCounts(cfg, s, now, order, key);
    } else if top !in s.idem {
      var s0 := Begin(s, top, fp);
      if SafePay.ApplyOrder(cfg, s0, now, order).Ok? {
        OrderKeepsCounter(cfg, s0, now, order);
      }
    }
  }

  lemma CodeCounts(cfg: Config, s: State, now: Time, order: SafePay.Order, key: nat)
    requires order.EnterCode? && order.escrow < |s.escrows|
    ensures var e := order.escrow;
      var r := SafePay.Perform(cfg, s, now, order, key);
      var s' := if r.Ok? then r.value.state else s;
      var reaches := ReachesCheck(s, OrderEscrow(order, key), e);
      var before := CodeCounter(s.escrows[e]);
      && (e < |s'.escrows| && Unsettled(s'.escrows[e].status) ==>
            CodeCounter(s'.escrows[e])
              == if reaches then After(CodePolicy(cfg), before, now, order.correct, false) else before)
      && (reaches && !IsLocked(before, now) && !order.correct ==>
            e < |s'.escrows| && s'.escrows[e].status == s.escrows[e].status)
  {
    hide SafePay.CodeOnce, SafePay.Release;
    var e := order.escrow;
    var top, fp := IdemKey(order.seller, CodeOf(e), ClientKey(key)), CodePayload(order.code);
    if top !in s.idem {
      var s0 := Begin(s, top, fp);
      CodeAccepted(cfg, s0, now, e, order.seller, order.correct);
      if ReachesCheck(s, OrderEscrow(order, key), e) {
        CodeIsLockout(cfg, s0, now, e, order.correct);
        ReleaseSettles(cfg, s0, now, e, order.seller);
      }
    }
  }

  // -- runs as plays ----------------------------------------------------------

  /** The attempts a run makes at escrow `e`'s code without settling it. */
  ghost function CodePlay(cfg: Config, events: seq<Event>, e: nat): seq<Attempt> {
    if events == [] then []
    else
      var n := |events| - 1;
      var earlier := CodePlay(cfg, events[..n], e);
      var s, s' := Run(cfg, events[..n]), Run(cfg, events);
      if ReachesCheck(s, events[n].command, e) && e < |s'.escrows| && Unsettled(s'.escrows[e].status)
      then earlier + [Attempt(events[n].now, events[n].command.order.correct, false)] else earlier
  }

  /** A new escrow starts with a fresh counter. */
  lemma NewEscrowIsFresh(cfg: Config, s: State, event: Event, e: nat)
    requires Wired(cfg) && Inv(cfg, s) && e >= |s.escrows|
    ensures var s' := Commit(cfg, s, event); e < |s'.escrows| ==> CodeCounter(s'.escrows[e]) == FRESH
  {
    hide Inv, SpotMe.OpenAccount, SpotMe.CreatePool, SpotMe.FundPool, SpotMe.GrantAccess, SpotMe.SendFrom,
         Holds.Undo, SafePay.Create, SafePay.Perform, Worker.RunBatch, FindUser, Edge, Unsettled;
    var now := event.now;
    match event.command
    case CreatePool(sponsor, amount, key) => PoolsLeaveEscrows(cfg, s, now, sponsor, amount, key);
    case FundPool(sponsor, amount, key) => PoolsLeaveEscrows(cfg, s, now, sponsor, amount, key);
    case Send(user, recipient, amount, key, note) =>
      if FindUser(s.accounts, user).Some? && FindUser(s.accounts, recipient).Some? {
        SendLeavesEscrows(cfg, s, now, user, FindUser(s.accounts, user).value, FindUser(s.accounts, recipient).value,
                          amount, key, note);
      }
    case Undo(transfer, actor, key) => UndoLeavesEscrows(cfg, s, now, transfer, actor, key);
    case CreateEscrow(buyer, seller, amount, description, key) =>
      CreateStartsFresh(cfg, s, now, buyer, seller, amount, description, key);
    case OrderEscrow(order, key) =>
      if SafePay.Perform(cfg, s, now, order, key).Ok? {
        PerformKeeps(cfg, s, now, order, key);
      }
    case RunTasks(claimed) => BatchKeepsCount(cfg, s, now, claimed);
    case _ => OthersLeaveEscrows(cfg, s, now, event.command);
  }

  lemma CreateStartsFresh(cfg: Config, s: State, now: Time, buyer: UserId, seller: UserId, amount: int,
                          description: nat, key: nat)
    ensures var r := SafePay.Create(cfg, s, now, buyer, seller, amount, description, key);
      r.Ok? ==>
        forall e :: |s.escrows| <= e < |r.value.state.escrows| ==> CodeCounter(r.value.state.escrows[e]) == FRESH
  {
    hide Transfers.Execute, FindUser;
    var payer, payee := FindUser(s.accounts, buyer), FindUser(s.accounts, seller);
    if payer.Some? && payee.Some? {
      var top, fp := IdemKey(buyer, SafePayEndpoint, ClientKey(key)), SafePayPayload(seller, amount, description);
      ExecuteLeavesEscrows(cfg, Begin(s, top, fp), now,
        Holds.HoldCommand(buyer, payer.value, ESCROW, amount, EscrowHold, Held,
                          IdemKey(buyer, InternalSafePayHold, SafePayHoldKey(|s.escrows|)), payee.value));
    }
  }

  lemma {:induction false} BatchKeepsCount(cfg: Config, s: State, now: Time, claimed: seq<TaskKey>)
    ensures |Worker.RunBatch(cfg, s, now, claimed).0.escrows| == |s.escrows|
  {
    hide Worker.Handle;
    if claimed != [] {
      var n := |claimed| - 1;
      BatchKeepsCount(cfg, s, now, claimed[..n]);
      HandleKeepsCount(cfg, Worker.RunBatch(cfg, s, now, claimed[..n]).0, now, claimed[n]);
    }
  }

  lemma HandleKeepsCount(cfg: Config, s: State, now: Time, key: TaskKey)
    ensures var r := Worker.Handle(cfg, s, now, key); r.Ok? ==> |r.value.escrows| == |s.escrows|
  {
    hide Holds.Settle;
    var id := key.resource;
    if id < |s.transfers| && s.transfers[id].intended.Some? {
      SettleGrows(cfg, s, now, id, PendingUndo, Succeeded, s.transfers[id].intended.value, PENDING_SETTLEMENT,
                  s.transfers[id].amount, UndoSettle, s.transfers[id].initiatedBy);
    }
    if id < |s.escrows| && s.escrows[id].hold < |s.transfers| && s.transfers[s.escrows[id].hold].intended.Some? {
      var h := s.escrows[id].hold;
      SettleGrows(cfg, s, now, h, Held, Succeeded, s.transfers[h].intended.value, ESCROW, s.escrows[id].amount,
                  EscrowRelease, s.escrows[id].seller);
    }
  }

  /** Appending one attempt to a play. */
  lemma PlayAppends(policy: Policy, attempts: seq<Attempt>, a: Attempt)
    ensures var c := Play(policy, FRESH, attempts);
      && Play(policy, FRESH, attempts + [a]) == After(policy, c, a.now, a.correct, a.commits)
      && WrongTimes(policy, FRESH, attempts + [a])
           == WrongTimes(policy, FRESH, attempts) + (if Judge(policy, c, a.now, a.correct).Wrong? then [a.now] else [])
      && (NoReset(policy, FRESH, attempts) && !a.commits ==> NoReset(policy, FRESH, attempts + [a]))
  {
    assert (attempts + [a])[..|attempts|] == attempts;
  }

  ghost predicate Matches(cfg: Config, s: State, play: seq<Attempt>, times: seq<Time>, e: nat) {
    && (e < |s.escrows| && Unsettled(s.escrows[e].status) ==>
          CodeCounter(s.escrows[e]) == Play(CodePolicy(cfg), FRESH, play))
    && (e >= |s.escrows| ==> play == [])
    && NoReset(CodePolicy(cfg), FRESH, play)
    && times == WrongTimes(CodePolicy(cfg), FRESH, play)
  }

  lemma StepMatches(cfg: Config, s: State, event: Event, play: seq<Attempt>, times: seq<Time>, e: nat)
    requires Wired(cfg) && Inv(cfg, s) && Matches(cfg, s, play, times, e)
    ensures var s' := Commit(cfg, s, event);
      var attempt := ReachesCheck(s, event.command, e) && e < |s'.escrows| && Unsettled(s'.escrows[e].status);
      Matches(cfg, s',
              if attempt then play + [Attempt(event.now, event.command.order.correct, false)] else play,
              if WrongCode(s, event, e) then times + [event.now] else times,
              e)
  {
    hide Inv, Commit, Play, WrongTimes, NoReset;
    var s' := Commit(cfg, s, event);
    if e >= |s.escrows| {
      NewEscrowIsFresh(cfg, s, event, e);
      EmptyPlay(CodePolicy(cfg));
      StepGrows(cfg, s, event);
    } else if Unsettled(s.escrows[e].status) {
      StepCounts(cfg, s, event, e);
      if ReachesCheck(s, event.command, e) {
        PlayAppends(CodePolicy(cfg), play, Attempt(event.now, event.command.order.correct, false));
      }
    } else {
      StepGrows(cfg, s, event);
      assert Settled(s.escrows[e].status);
    }
  }

  lemma EmptyPlay(policy: Policy)
    ensures Play(policy, FRESH, []) == FRESH && WrongTimes(policy, FRESH, []) == [] && NoReset(policy, FRESH, [])
  {
  }

  /** Every run plays the lockout machine at every escrow's code, and never resets it short of settling the escrow. */
  lemma {:induction false} RunIsPlay(cfg: Config, events: seq<Event>, e: nat)
    requires Wired(cfg)
    ensures Matches(cfg, Run(cfg, events), CodePlay(cfg, events, e), WrongCodeTimes(cfg, events, e), e)
  {
    hide Inv, Commit, Matches, ReachesCheck, WrongCode;
    if events == [] {
      EmptyMatches(cfg, e);
    } else {
      var n := |events| - 1;
      RunIsPlay(cfg, events[..n], e);
      EveryRunKeeps(cfg, events[..n]);
      StepMatches(cfg, Run(cfg, events[..n]), events[n], CodePlay(cfg, events[..n], e),
                  WrongCodeTimes(cfg, events[..n], e), e);
    }
  }

  lemma EmptyMatches(cfg: Config, e: nat)
    ensures Matches(cfg, INITIAL, [], [], e)
  {
  }

  /**
   * In every run, from the fifth on the wrong codes tried at an escrow are at least a lock period apart, and by time
   * `t` they number at most five plus the lock periods since the fifth.
   */
  lemma WrongCodesBounded(cfg: Config, events: seq<Event>, e: nat, t: Time)
    requires Wired(cfg)
    ensures var times := WrongCodeTimes(cfg, events, e);
      && SpacedFrom(times, 4, cfg.codeLockPeriod)
      && (|times| > 5 && times[|times| - 1] <= t ==> |times| <= 5 + (t - times[4]) / cfg.codeLockPeriod)
  {
    hide Play, WrongTimes, WrongSince, NoReset, CodePlay, Run, WrongCodeTimes;
    RunIsPlay(cfg, events, e);
    CounterCounts(CodePolicy(cfg), CodePlay(cfg, events, e));
    NoResetSince(CodePolicy(cfg), CodePlay(cfg, events, e));
    WrongTriesBounded(CodePolicy(cfg), CodePlay(cfg, events, e), t);
  }
}
