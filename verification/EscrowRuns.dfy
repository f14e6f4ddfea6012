/** The escrow status machine over whole runs: which command may move which escrow. */
module EscrowRuns {
  import opened Kernel
  import opened Accounts
  import opened Policies
  import opened Tables
  import opened Idempotency
  import opened Transfers
  import opened Scheduling
  import opened Invariants
  import opened Settling
  import opened Escrows
  import opened Batches
  import opened Growth
  import opened Bank
  import opened Runs
  import SpotMe
  import Holds
  import SafePay
  import MoneyRequests
  import Worker

  /** The only ways an escrow's row changes. */
  predicate Follows(command: Command, e: nat, before: Escrow, after: Escrow) {
    || after == before
    || (&& command.OrderEscrow? && command.order.escrow == e && ByParty(command.order, before)
        && Edge(command.order, before.status, after.status))
    || (&& command.RunTasks? && SafePay.AutoRelease(e) in command.claimed
        && before.status == Delivered && after.status == Released)
  }

  // -- commands that leave every escrow alone --------------------------------

  lemma SendLeavesEscrows(cfg: Config, s: State, now: Time, user: UserId, sender: AccountId, receiver: AccountId,
                          amount: int, key: nat, note: nat)
    ensures var r := SpotMe.SendFrom(cfg, s, now, user, sender, receiver, amount, key, note); r.Ok? ==>
      r.value.state.escrows == s.escrows
  {
    hide Execute, Framed, SpotMe.ActiveGrants, SpotMe.FirstCovering, Schedule;
    var r := SpotMe.SendFrom(cfg, s, now, user, sender, receiver, amount, key, note);
    var top, fp := IdemKey(user, Endpoint.Transfers, ClientKey(key)), SendPayload(sender, receiver, amount, note);
    if r.Ok? && top !in s.idem {
      var s0 := Begin(s, top, fp);
      DrawLeavesEscrows(cfg, s0, now, user, sender, amount, key);
      hide SpotMe.DrawShortfall;
      var s1 := SpotMe.DrawShortfall(cfg, s0, now, user, sender, amount, key).value.state;
      ExecuteLeavesEscrows(cfg, s1, now,
        Holds.HoldCommand(user, sender, PENDING_SETTLEMENT, amount, UndoHold, PendingUndo,
                          IdemKey(user, InternalUndoHold, UndoHoldKey(key)), receiver));
    }
  }

  lemma ExecuteLeavesEscrows(cfg: Config, s: State, now: Time, c: TransferCommand)
    ensures var r := Execute(cfg, s, now, c); r.Ok? ==> r.value.state.escrows == s.escrows
  {
    hide Execute;
    ExecuteFramed(cfg, s, now, c);
  }

  lemma DrawLeavesEscrows(cfg: Config, s: State, now: Time, user: UserId, sender: AccountId, amount: int, key: nat)
    requires sender < |s.accounts|
    ensures var r := SpotMe.DrawShortfall(cfg, s, now, user, sender, amount, key);
      r.Ok? ==> r.value.state.escrows == s.escrows
  {
    hide Execute;
    var short := Max(0, amount - s.accounts[sender].balance);
    if short > 0 && SpotMe.DrawShortfall(cfg, s, now, user, sender, amount, key).Ok? {
      var pool := s.grants[SpotMe.FirstCovering(s, SpotMe.ActiveGrants(s, user), short).value].pool;
      ExecuteLeavesEscrows(cfg, s, now, SpotMe.DrawCommand(s.pools[pool].sponsor, pool, s.pools[pool].account, user,
                                                           sender, short, key));
    }
  }

  lemma UndoLeavesEscrows(cfg: Config, s: State, now: Time, transfer: TransferId, actor: UserId, key: nat)
    ensures var r := Holds.Undo(cfg, s, now, transfer, actor, key); r.Ok? ==> r.value.state.escrows == s.escrows
  {
    hide Execute, Holds.Settle, Cancel;
    var s0 := Begin(s, IdemKey(actor, UndoOf(transfer), ClientKey(key)), UndoPayload(transfer));
    if transfer < |s.transfers| {
      SettleGrows(cfg, s0, now, transfer, PendingUndo, Refunded, s.transfers[transfer].sender, PENDING_SETTLEMENT,
                  s.transfers[transfer].amount, UndoRefund, actor);
    }
  }

  lemma PoolsLeaveEscrows(cfg: Config, s: State, now: Time, sponsor: UserId, amount: int, key: nat)
    ensures var r := SpotMe.CreatePool(cfg, s, now, sponsor, amount, key); r.Ok? ==> r.value.state.escrows == s.escrows
    ensures var r := SpotMe.FundPool(cfg, s, now, sponsor, amount, key); r.Ok? ==> r.value.state.escrows == s.escrows
  {
    hide Execute, FindUser, SpotMe.FindPool;
    var from := FindUser(s.accounts, sponsor);
    if from.Some? {
      var s0 := SpotMe.InsertPool(Begin(s, IdemKey(sponsor, PoolsEndpoint, ClientKey(key)), PoolPayload(amount)),
                                  sponsor);
      ExecuteLeavesEscrows(cfg, s0, now,
        SpotMe.FundCommand(sponsor, from.value, |s.pools|, |s.accounts|, amount,
                           IdemKey(sponsor, InternalFund, PoolFundKey(|s.pools|))));
      var pool := SpotMe.FindPool(s.pools, sponsor);
      if pool.Some? {
        ExecuteLeavesEscrows(cfg, s, now,
          SpotMe.FundCommand(sponsor, from.value, pool.value, s.pools[pool.value].account, amount,
                             IdemKey(sponsor, FundOf(pool.value), ClientKey(key))));
      }
    }
  }

  lemma CreateAppends(cfg: Config, s: State, now: Time, buyer: UserId, seller: UserId, amount: int, description: nat,
                      key: nat)
    ensures var r := SafePay.Create(cfg, s, now, buyer, seller, amount, description, key); r.Ok? ==>
      s.escrows <= r.value.state.escrows
  {
    hide Execute, FindUser;
    var payer, payee := FindUser(s.accounts, buyer), FindUser(s.accounts, seller);
    if payer.Some? && payee.Some? {
      ExecuteLeavesEscrows(cfg, Begin(s, IdemKey(buyer, SafePayEndpoint, ClientKey(key)),
                                      SafePayPayload(seller, amount, description)), now,
        Holds.HoldCommand(buyer, payer.value, ESCROW, amount, EscrowHold, Held,
                          IdemKey(buyer, InternalSafePayHold, SafePayHoldKey(|s.escrows|)), payee.value));
    }
  }

  lemma OthersLeaveEscrows(cfg: Config, s: State, now: Time, command: Command)
    requires command.OpenAccount? || command.GrantAccess? || command.RequestMoney? || command.AcceptRequest?
      || command.TerminateRequest?
    ensures Commit(cfg, s, Event(now, command)).escrows == s.escrows
  {
    hide Execute, FindUser, SpotMe.FindPool;
    match command
    case OpenAccount(user, opening) =>
      ExecuteLeavesEscrows(cfg, s.(accounts := s.accounts + [Account(Some(user), UserAccount, 0, Active, 0)]), now,
                           SpotMe.GrantCommand(user, |s.accounts|, opening));
    case AcceptRequest(id, user, key) =>
      if id < |s.requests| {
        ExecuteLeavesEscrows(cfg, s, now, MoneyRequests.SettlementCommand(user, s.requests[id], id, key));
      }
    case _ =>
  }

  // -- the worker -----------------------------------------------------------

  predicate ReleasedBy(claimed: seq<TaskKey>, e: nat, before: Escrow, after: Escrow) {
    after == before || (SafePay.AutoRelease(e) in claimed && before.status == Delivered && after.status == Released)
  }

  lemma TaskFollows(cfg: Config, s: State, now: Time, key: TaskKey, e: nat)
    requires Wired(cfg) && Inv(cfg, s) && e < |s.escrows|
    ensures var s' := Worker.RunTask(cfg, s, now, key).0;
      |s'.escrows| == |s.escrows| && ReleasedBy([key], e, s.escrows[e], s'.escrows[e])
  {
    hide Inv, Holds.Settle, SafePay.AutoReleaseDue, Finish, RecordFailure;
    match key.taskType
    case UndoSettleTask =>
      var id := key.resource;
      if id < |s.transfers| && s.transfers[id].intended.Some? {
        SettleGrows(cfg, s, now, id, PendingUndo, Succeeded, s.transfers[id].intended.value, PENDING_SETTLEMENT,
                    s.transfers[id].amount, UndoSettle, s.transfers[id].initiatedBy);
      }
    case AutoReleaseTask =>
      AutoReleaseKeeps(cfg, s, now, key.resource);
      assert SafePay.AutoRelease(key.resource) == key;
    case RequestExpiryTask =>
  }

  lemma {:induction false} BatchFollows(cfg: Config, s: State, now: Time, claimed: seq<TaskKey>, e: nat)
    requires Wired(cfg) && Inv(cfg, s) && Claimable(s.tasks, now, claimed) && e < |s.escrows|
    ensures var s' := Worker.RunBatch(cfg, s, now, claimed).0;
      |s'.escrows| == |s.escrows| && ReleasedBy(claimed, e, s.escrows[e], s'.escrows[e])
  {
    hide Inv, Worker.RunTask, Claimable, BatchRan;
    if claimed != [] {
      var n := |claimed| - 1;
      ClaimedLast(s.tasks, now, claimed, n);
      BatchFollows(cfg, s, now, claimed[..n], e);
      RunBatchKeeps(cfg, s, now, claimed[..n]);
      var s1 := Worker.RunBatch(cfg, s, now, claimed[..n]).0;
      TaskFollows(cfg, s1, now, claimed[n], e);
      assert forall k :: k in claimed <==> k in claimed[..n] || k == claimed[n];
    }
  }

  // -- every command --------------------------------------------------------

  /**
   * Whatever is done to the system, an escrow moves only along an edge of its machine, by the command that edge
   * belongs to.
   */
  lemma StepFollows(cfg: Config, s: State, event: Event, e: nat)
    requires Wired(cfg) && Inv(cfg, s) && e < |s.escrows|
    ensures var s' := Commit(cfg, s, event);
      e < |s'.escrows| && Follows(event.command, e, s.escrows[e], s'.escrows[e])
  {
    hide Inv, SpotMe.OpenAccount, SpotMe.CreatePool, SpotMe.FundPool, SpotMe.GrantAccess, SpotMe.SendFrom,
         Holds.Undo, SafePay.Create, SafePay.Perform, MoneyRequests.Request, MoneyRequests.Accept,
         MoneyRequests.Terminate, Worker.RunBatch, Edge, Unsettled;
    var now := event.now;
    match event.command
    case CreatePool(sponsor, amount, key) => PoolsLeaveEscrows(cfg, s, now, sponsor, amount, key);
    case FundPool(sponsor, amount, key) => PoolsLeaveEscrows(cfg, s, now, sponsor, amount, key);
    case Send(user, recipient, amount, key, note) =>
      if FindUser(s.accounts, user).Some? && FindUser(s.accounts, recipient).Some? {
        SendLeavesEscrows(cfg, s, now, user, FindUser(s.accounts, user).value, FindUser(s.accounts, recipient).value,
                          amount, key, note);
      }
    case Undo(transfer, actor, key) => UndoLeavesEscrows(cfg, s, now, transfer, actor, key);
    case CreateEscrow(buyer, seller, amount, description, key) => CreateAppends(cfg, s, now, buyer, seller, amount,
        description, key);
    case OrderEscrow(order, key) =>
      if SafePay.Perform(cfg, s, now, order, key).Ok? {
        PerformKeeps(cfg, s, now, order, key);
      }
    case RunTasks(claimed) =>
      if Claimable(s.tasks, now, claimed) {
        BatchFollows(cfg, s, now, claimed, e);
      }
    case _ => OthersLeaveEscrows(cfg, s, now, event.command);
  }

  /** Out of a dispute only the administrator moves money; a refund comes from nowhere else. */
  lemma OnlyResolutionEndsDispute(cfg: Config, events: seq<Event>, event: Event, e: nat)
    requires Wired(cfg) && e < |Run(cfg, events).escrows|
    ensures var before := Run(cfg, events).escrows[e];
      && e < |Run(cfg, events + [event]).escrows|
      && var after := Run(cfg, events + [event]).escrows[e];
         && (before.status == Disputed && after.status != Disputed ==>
               event.command.OrderEscrow? && event.command.order.Resolve? && event.command.order.escrow == e)
         && (after.status == EscrowRefunded && before.status != EscrowRefunded ==>
               before.status == Disputed && event.command.OrderEscrow? && event.command.order.Resolve?
                   && !event.command.order.release)
  {
    hide Inv, Commit;
    EveryRunKeeps(cfg, events);
    assert (events + [event])[..|events|] == events;
    StepFollows(cfg, Run(cfg, events), event, e);
  }
}
