/** The undo window and the dispute window over runs: what may touch a hold or a task before it is due. */
module HoldRuns {
  import opened Kernel
  import opened Accounts
  import opened Policies
  import opened Tables
  import opened Idempotency
  import opened Transfers
  import opened Scheduling
  import opened Invariants
  import opened Settling
  import opened Keeping
  import opened Payments
  import opened Sending
  import opened Closings
  import opened Positions
  import opened Escrows
  import opened Batches
  import opened EscrowRuns
  import opened EscrowOutcomes
  import opened Growth
  import opened Bank
  import opened Runs
  import Conservation
  import Executions
  import SpotMe
  import Holds
  import SafePay
  import MoneyRequests
  import Worker

  predicate RowSpared(s: State, s': State, h: TransferId) {
    h < |s.transfers| ==> h < |s'.transfers| && s'.transfers[h] == s.transfers[h]
  }

  predicate TaskSpared(s: State, s': State, k: TaskKey) {
    k in s.tasks ==> k in s'.tasks && s'.tasks[k] == s.tasks[k]
  }

  predicate Spared(s: State, s': State, h: TransferId, k: TaskKey) { RowSpared(s, s', h) && TaskSpared(s, s', k) }

  lemma FramedSpares(cfg: Config, s: State, s': State, h: TransferId, k: TaskKey)
    requires Framed(cfg, s, s')
    ensures Spared(s, s', h, k)
  {
  }

  lemma ExecuteSpares(cfg: Config, s: State, now: Time, c: TransferCommand, h: TransferId, k: TaskKey)
    ensures var r := Execute(cfg, s, now, c); r.Ok? ==> Spared(s, r.value.state, h, k)
  {
    hide Execute, Framed, Spared;
    ExecuteFramed(cfg, s, now, c);
    if Execute(cfg, s, now, c).Ok? {
      FramedSpares(cfg, s, Execute(cfg, s, now, c).value.state, h, k);
    }
  }

  /** Closing one hold leaves every other row, and every task, alone. */
  lemma SettleSpares(cfg: Config, s: State, now: Time, hold: TransferId, from: TransferStatus, to: TransferStatus,
                     beneficiary: AccountId, holding: AccountId, amount: int, kind: Kind, actor: UserId,
                     h: TransferId, k: TaskKey)
    requires hold == h && h < |s.transfers| ==> s.transfers[h].status != from
    ensures var r := Holds.Settle(cfg, s, now, hold, from, to, beneficiary, holding, amount, kind, actor);
      r.Ok? ==> Spared(s, r.value.state, h, k) && r.value.state.tasks == s.tasks
  {
    hide Execute;
    if hold < |s.transfers| {
      ExecuteFramed(cfg, Holds.Latch(s, hold, to), now,
                    Holds.SettleCommand(hold, to, beneficiary, holding, amount, kind, actor));
      ExecuteSpares(cfg, Holds.Latch(s, hold, to), now,
                    Holds.SettleCommand(hold, to, beneficiary, holding, amount, kind, actor), h, k);
    }
  }

  // -- commands ---------------------------------------------------------------

  lemma SendSpares(cfg: Config, s: State, now: Time, user: UserId, sender: AccountId, receiver: AccountId, amount: int,
                   key: nat, note: nat, h: TransferId, k: TaskKey)
    ensures var r := SpotMe.SendFrom(cfg, s, now, user, sender, receiver, amount, key, note);
      r.Ok? ==> Spared(s, r.value.state, h, k)
  {
    hide Execute;
    var r := SpotMe.SendFrom(cfg, s, now, user, sender, receiver, amount, key, note);
    var top, fp := IdemKey(user, Endpoint.Transfers, ClientKey(key)), SendPayload(sender, receiver, amount, note);
    if r.Ok? && top !in s.idem {
      var s0 := Begin(s, top, fp);
      DrawSpares(cfg, s0, now, user, sender, amount, key, h, k);
      hide SpotMe.DrawShortfall;
      var s1 := SpotMe.DrawShortfall(cfg, s0, now, user, sender, amount, key).value.state;
      ExecuteSpares(cfg, s1, now,
        Holds.HoldCommand(user, sender, PENDING_SETTLEMENT, amount, UndoHold, PendingUndo,
                          IdemKey(user, InternalUndoHold, UndoHoldKey(key)), receiver), h, k);
    }
  }

  lemma DrawSpares(cfg: Config, s: State, now: Time, user: UserId, sender: AccountId, amount: int, key: nat,
                   h: TransferId, k: TaskKey)
    requires sender < |s.accounts|
    ensures var r := SpotMe.DrawShortfall(cfg, s, now, user, sender, amount, key);
      r.Ok? ==> Spared(s, r.value.state, h, k)
  {
    hide Execute, SpotMe.ActiveGrants;
    var short := Max(0, amount - s.accounts[sender].balance);
    if short > 0 && SpotMe.DrawShortfall(cfg, s, now, user, sender, amount, key).Ok? {
      var pool := s.grants[SpotMe.FirstCovering(s, SpotMe.ActiveGrants(s, user), short).value].pool;
      ExecuteSpares(cfg, s, now,
        SpotMe.DrawCommand(s.pools[pool].sponsor, pool, s.pools[pool].account, user, sender, short, key), h, k);
    }
  }

  lemma UndoSpares(cfg: Config, s: State, now: Time, transfer: TransferId, actor: UserId, key: nat, h: TransferId,
                   k: TaskKey)
    requires transfer != h && k != TaskKey(UndoSettleTask, transfer)
    ensures var r := Holds.Undo(cfg, s, now, transfer, actor, key); r.Ok? ==> Spared(s, r.value.state, h, k)
  {
    hide Execute, Holds.Settle;
    var s0 := Begin(s, IdemKey(actor, UndoOf(transfer), ClientKey(key)), UndoPayload(transfer));
    if transfer < |s.transfers| {
      SettleSpares(cfg, s0, now, transfer, PendingUndo, Refunded, s.transfers[transfer].sender, PENDING_SETTLEMENT,
                   s.transfers[transfer].amount, UndoRefund, actor, h, k);
    }
  }

  lemma PoolsSpare(cfg: Config, s: State, now: Time, sponsor: UserId, amount: int, key: nat, h: TransferId, k: TaskKey)
    ensures var r := SpotMe.CreatePool(cfg, s, now, sponsor, amount, key); r.Ok? ==> Spared(s, r.value.state, h, k)
    ensures var r := SpotMe.FundPool(cfg, s, now, sponsor, amount, key); r.Ok? ==> Spared(s, r.value.state, h, k)
  {
    hide Execute, FindUser, SpotMe.FindPool;
    var from := FindUser(s.accounts, sponsor);
    if from.Some? {
      var top := IdemKey(sponsor, PoolsEndpoint, ClientKey(key));
      var s0 := SpotMe.InsertPool(Begin(s, top, PoolPayload(amount)), sponsor);
      ExecuteSpares(cfg, s0, now,
        SpotMe.FundCommand(sponsor, from.value, |s.pools|, |s.accounts|, amount,
                           IdemKey(sponsor, InternalFund, PoolFundKey(|s.pools|))), h, k);
      var pool := SpotMe.FindPool(s.pools, sponsor);
      if pool.Some? {
        ExecuteSpares(cfg, s, now,
          SpotMe.FundCommand(sponsor, from.value, pool.value, s.pools[pool.value].account, amount,
                             IdemKey(sponsor, FundOf(pool.value), ClientKey(key))), h, k);
      }
    }
  }

  lemma CreateSpares(cfg: Config, s: State, now: Time, buyer: UserId, seller: UserId, amount: int, description: nat,
                     key: nat, h: TransferId, k: TaskKey)
    ensures var r := SafePay.Create(cfg, s, now, buyer, seller, amount, description, key);
      r.Ok? ==> Spared(s, r.value.state, h, k)
  {
    hide Execute, FindUser;
    var payer, payee := FindUser(s.accounts, buyer), FindUser(s.accounts, seller);
    if payer.Some? && payee.Some? {
      var top, fp := IdemKey(buyer, SafePayEndpoint, ClientKey(key)), SafePayPayload(seller, amount, description);
      ExecuteSpares(cfg, Begin(s, top, fp), now,
        Holds.HoldCommand(buyer, payer.value, ESCROW, amount, EscrowHold, Held,
                          IdemKey(buyer, InternalSafePayHold, SafePayHoldKey(|s.escrows|)), payee.value), h, k);
    }
  }

  lemma OthersSpare(cfg: Config, s: State, now: Time, command: Command, h: TransferId, k: TaskKey)
    requires command.OpenAccount? || command.GrantAccess? || command.RequestMoney? || command.AcceptRequest?
             || command.TerminateRequest?
    ensures Spared(s, Commit(cfg, s, Event(now, command)), h, k)
  {
    hide Execute, FindUser, SpotMe.FindPool;
    match command
    case OpenAccount(user, opening) =>
      ExecuteSpares(cfg, s.(accounts := s.accounts + [Account(Some(user), UserAccount, 0, Active, 0)]), now,
                    SpotMe.GrantCommand(user, |s.accounts|, opening), h, k);
    case AcceptRequest(id, user, key) =>
      if id < |s.requests| {
        ExecuteSpares(cfg, s, now, MoneyRequests.SettlementCommand(user, s.requests[id], id, key), h, k);
      }
    case _ =>
  }

  // -- escrow orders ------------------------------------------------------------

  lemma ReleaseSparesRow(cfg: Config, s: State, now: Time, id: nat, actor: UserId, h: TransferId)
    requires id < |s.escrows| && (h < |s.transfers| ==> s.transfers[h].status != Held)
    ensures var r := SafePay.Release(cfg, s, now, id, actor); r.Ok? ==> RowSpared(s, r.value.state, h)
    ensures var r := SafePay.Refund(cfg, s, now, id); r.Ok? ==> RowSpared(s, r.value.state, h)
  {
    hide Holds.Settle, Cancel;
    var g := s.escrows[id].hold;
    var k := TaskKey(RequestExpiryTask, 0);
    if g < |s.transfers| {
      SettleSpares(cfg, s, now, g, Held, Refunded, s.transfers[g].sender, ESCROW, s.escrows[id].amount, EscrowRefund,
                   s.escrows[id].buyer, h, k);
      if s.transfers[g].intended.Some? {
        SettleSpares(cfg, s, now, g, Held, Succeeded, s.transfers[g].intended.value, ESCROW, s.escrows[id].amount,
                     EscrowRelease, actor, h, k);
      }
    }
  }

  lemma OrderSparesRow(cfg: Config, s: State, now: Time, order: SafePay.Order, h: TransferId)
    requires order.escrow < |s.escrows| && (h < |s.transfers| ==> s.transfers[h].status != Held)
    ensures var r := SafePay.ApplyOrder(cfg, s, now, order); r.Ok? ==> RowSpared(s, r.value.state, h)
  {
    hide SafePay.Release, SafePay.Refund, Cancel, Schedule, FindUser;
    var id := order.escrow;
    match order
    case EnterCode(_, seller, _, _) => ReleaseSparesRow(cfg, s, now, id, seller, h);
    case Confirm(_, buyer) => ReleaseSparesRow(cfg, s, now, id, buyer, h);
    case Deliver(_, _, _, _) =>
      var s1 := SafePay.WithEscrow(s, id, s.escrows[id].(status := Delivered));
      ReleaseSparesRow(cfg, s1, now, id, s.escrows[id].seller, h);
    case Resolve(_, _, _, _) => ReleaseSparesRow(cfg, s, now, id, s.escrows[id].seller, h);
    case _ =>
  }

  lemma PerformSpares(cfg: Config, s: State, now: Time, order: SafePay.Order, key: nat, h: TransferId, k: TaskKey)
    requires h < |s.transfers| ==> s.transfers[h].status != Held
    requires k != SafePay.AutoRelease(order.escrow)
    ensures var r := SafePay.Perform(cfg, s, now, order, key); r.Ok? ==> Spared(s, r.value.state, h, k)
  {
    hide SafePay.ApplyOrder, FindUser;
    var r := SafePay.Perform(cfg, s, now, order, key);
    if r.Ok? {
      var (top, fp) := SafePay.OrderKey(s, order, key);
      if top !in s.idem {
        var s0 := Begin(s, top, fp);
        if order.escrow < |s.escrows| {
          OrderSparesRow(cfg, s0, now, order, h);
          OrderAnswers(cfg, s0, now, order);
        } else {
          NoSuchEscrow(cfg, s0, now, order);
        }
      }
    }
  }

  lemma NoSuchEscrow(cfg: Config, s: State, now: Time, order: SafePay.Order)
    requires order.escrow >= |s.escrows| && !order.Deliver?
    ensures SafePay.ApplyOrder(cfg, s, now, order).Err?
  {
  }

  // -- the worker -----------------------------------------------------------------

  lemma TaskSparesRow(cfg: Config, s: State, now: Time, key: TaskKey, h: TransferId)
    requires key != TaskKey(UndoSettleTask, h) && (h < |s.transfers| ==> s.transfers[h].status != Held)
    ensures RowSpared(s, Worker.RunTask(cfg, s, now, key).0, h)
  {
    hide Holds.Settle, SafePay.Release, Finish, RecordFailure;
    var id := key.resource;
    match key.taskType
    case UndoSettleTask =>
      if id < |s.transfers| && s.transfers[id].intended.Some? {
        SettleSpares(cfg, s, now, id, PendingUndo, Succeeded, s.transfers[id].intended.value, PENDING_SETTLEMENT,
                     s.transfers[id].amount, UndoSettle, s.transfers[id].initiatedBy, h, key);
      }
    case AutoReleaseTask =>
      if id < |s.escrows| {
        ReleaseSparesRow(cfg, s, now, id, s.escrows[id].seller, h);
      }
    case RequestExpiryTask =>
  }

  lemma {:induction false} BatchSparesRow(cfg: Config, s: State, now: Time, claimed: seq<TaskKey>, h: TransferId)
    requires TaskKey(UndoSettleTask, h) !in claimed && h < |s.transfers| && s.transfers[h].status != Held
    ensures RowSpared(s, Worker.RunBatch(cfg, s, now, claimed).0, h)
  {
    hide Worker.RunTask;
    if claimed != [] {
      var n := |claimed| - 1;
      assert claimed[n] in claimed && forall k :: k in claimed[..n] ==> k in claimed;
      BatchSparesRow(cfg, s, now, claimed[..n], h);
      TaskSparesRow(cfg, Worker.RunBatch(cfg, s, now, claimed[..n]).0, now, claimed[n], h);
    }
  }

  // -- every command ------------------------------------------------------------

  /** The commands that may close undo hold `h` or act on task `k`. */
  predicate Concerns(command: Command, h: TransferId, k: TaskKey) {
    || (command.Undo? && (command.transfer == h || k == TaskKey(UndoSettleTask, command.transfer)))
    || (command.OrderEscrow? && k == SafePay.AutoRelease(command.order.escrow))
    || (command.RunTasks? && (TaskKey(UndoSettleTask, h) in command.claimed || k in command.claimed))
  }

  /** Every other command leaves both exactly as they are. */
  lemma StepSpares(cfg: Config, s: State, event: Event, h: TransferId, k: TaskKey)
    requires Wired(cfg) && Inv(cfg, s) && (h < |s.transfers| ==> s.transfers[h].status != Held)
    requires !Concerns(event.command, h, k)
    ensures Spared(s, Commit(cfg, s, event), h, k)
  {
    hide Inv, SpotMe.OpenAccount, SpotMe.CreatePool, SpotMe.FundPool, SpotMe.GrantAccess, SpotMe.SendFrom,
         Holds.Undo, SafePay.Create, SafePay.Perform, MoneyRequests.Request, MoneyRequests.Accept,
         MoneyRequests.Terminate, Worker.RunBatch, FindUser;
    var now := event.now;
    match event.command
    case CreatePool(sponsor, amount, key) => PoolsSpare(cfg, s, now, sponsor, amount, key, h, k);
    case FundPool(sponsor, amount, key) => PoolsSpare(cfg, s, now, sponsor, amount, key, h, k);
    case Send(user, recipient, amount, key, note) =>
      if FindUser(s.accounts, user).Some? && FindUser(s.accounts, recipient).Some? {
        SendSpares(cfg, s, now, user, FindUser(s.accounts, user).value, FindUser(s.accounts, recipient).value, amount,
                   key, note, h, k);
      }
    case Undo(transfer, actor, key) => UndoSpares(cfg, s, now, transfer, actor, key, h, k);
    case CreateEscrow(buyer, seller, amount, description, key) =>
      CreateSpares(cfg, s, now, buyer, seller, amount, description, key, h, k);
    case OrderEscrow(order, key) => PerformSpares(cfg, s, now, order, key, h, k);
    case RunTasks(claimed) =>
      if Claimable(s.tasks, now, claimed) {
        if h < |s.transfers| {
          BatchSparesRow(cfg, s, now, claimed, h);
        }
        RunBatchKeeps(cfg, s, now, claimed);
      }
    case _ => OthersSpare(cfg, s, now, event.command, h, k);
  }

  // -- the undo window ------------------------------------------------------------

  function SettleTask(h: TransferId): TaskKey { TaskKey(UndoSettleTask, h) }

  /** Commands given before `due`, none of them an undo of `h`. */
  predicate BeforeDue(events: seq<Event>, due: Time, h: TransferId) {
    forall i :: 0 <= i < |events| ==>
      events[i].now < due && !(events[i].command.Undo? && events[i].command.transfer == h)
  }

  predicate Waiting(s: State, h: TransferId, due: Time) {
    && OpenHold(s.transfers, h, UndoHold, PendingUndo)
    && SettleTask(h) in s.tasks && s.tasks[SettleTask(h)] == Task(TaskPending, 0, due)
  }

  lemma StepWaits(cfg: Config, s: State, event: Event, h: TransferId, due: Time)
    requires Wired(cfg) && Inv(cfg, s) && Waiting(s, h, due)
    requires event.now < due && !(event.command.Undo? && event.command.transfer == h)
    ensures Waiting(Commit(cfg, s, event), h, due) && RowSpared(s, Commit(cfg, s, event), h)
  {
    hide Inv, Step;
    if event.command.RunTasks? && SettleTask(h) in event.command.claimed {
      NotYetClaimable(cfg, s, event, SettleTask(h));
    } else {
      StepSpares(cfg, s, event, h, SettleTask(h));
    }
  }

  /** A worker cannot have claimed a task that is not due. */
  lemma NotYetClaimable(cfg: Config, s: State, event: Event, k: TaskKey)
    requires event.command.RunTasks? && k in event.command.claimed && k in s.tasks && event.now < s.tasks[k].dueAt
    ensures Commit(cfg, s, event) == s
  {
    hide Worker.RunBatch;
    var claimed := event.command.claimed;
    var i :| 0 <= i < |claimed| && claimed[i] == k;
  }

  /** Before its due time nothing but an undo touches an open hold or its task. */
  lemma {:induction false} RunWaits(cfg: Config, s: State, events: seq<Event>, h: TransferId, due: Time)
    requires Wired(cfg) && Inv(cfg, s) && Waiting(s, h, due) && BeforeDue(events, due, h)
    ensures Waiting(RunFrom(cfg, s, events), h, due) && RowSpared(s, RunFrom(cfg, s, events), h)
    ensures Inv(cfg, RunFrom(cfg, s, events))
  {
    hide Inv, Commit, Waiting;
    RunFromKeeps(cfg, s, events);
    assert RowSpared(s, s, h);
    if events != [] {
      var n := |events| - 1;
      RunWaits(cfg, s, events[..n], h, due);
      StepWaits(cfg, RunFrom(cfg, s, events[..n]), events[n], h, due);
    }
  }

  lemma FreshResult(cfg: Config, s: State, now: Time, c: TransferCommand)
    requires c.key !in s.idem && Execute(cfg, s, now, c).Ok?
    ensures var r := Execute(cfg, s, now, c).value.result;
      r.transferId == |s.transfers| && r.completedAt == now && !r.replayed
  {
    hide AfterCredit, SumSentSince;
  }

  /** The hold's settlement is scheduled one window, ten seconds, after it was made. */
  lemma HoldIsScheduled(cfg: Config, s: State, now: Time, user: UserId, sender: AccountId, receiver: AccountId,
                        amount: int, key: IdemKey)
    requires key !in s.idem && Holds.UndoableSend(cfg, s, now, user, sender, receiver, amount, key).Ok?
    ensures var e := Holds.UndoableSend(cfg, s, now, user, sender, receiver, amount, key).value;
      && e.result.transferId == |s.transfers| && e.result.completedAt == now
      && (SettleTask(|s.transfers|) !in s.tasks ==>
            e.state.tasks == s.tasks[SettleTask(|s.transfers|) := Task(TaskPending, 0, now + 10)])
  {
    hide Execute;
    var c := Holds.HoldCommand(user, sender, PENDING_SETTLEMENT, amount, UndoHold, PendingUndo, key, receiver);
    FreshResult(cfg, s, now, c);
    ExecuteFramed(cfg, s, now, c);
  }

  /** A send answers with a deadline ten seconds on, and its settlement task is due exactly then. */
  lemma SendOpensWindow(cfg: Config, s: State, now: Time, user: UserId, sender: AccountId, receiver: AccountId,
                        amount: int, key: nat, note: nat)
    requires Wired(cfg) && Inv(cfg, s) && SpotMe.SendFrom(cfg, s, now, user, sender, receiver, amount, key, note).Ok?
    requires IdemKey(user, Endpoint.Transfers, ClientKey(key)) !in s.idem
    requires IsKind(s.accounts, sender, UserAccount) && IsKind(s.accounts, receiver, UserAccount)
    ensures var r := SpotMe.SendFrom(cfg, s, now, user, sender, receiver, amount, key, note).value;
      && r.body.SendBody? && r.body.hold.TransferBody? && r.body.undoExpiresAt == now + 10
      && Waiting(r.state, r.body.hold.transferId, now + 10)
  {
    hide Inv, Conserved, Linked, IdemOk, IdemOkBut, KeyOk, SpotMe.DrawShortfall, Holds.UndoableSend, FindUser, Grows,
         Sent, Conservation.Extends;
    SendLowersNet(cfg, s, now, user, sender, receiver, amount, key, note, sender, user);
    InvParts(cfg, s);
    var top, fp := IdemKey(user, Endpoint.Transfers, ClientKey(key)), SendPayload(sender, receiver, amount, note);
    var s0 := Begin(s, top, fp);
    BeginKeepsKeys(s, top, fp);
    ConservedButKeys(cfg, s, s0);
    NoEarlierDraw(s, top, fp, key, user);
    DrawShortfallKeeps(cfg, s0, now, top, user, sender, amount, key);
    var d := SpotMe.DrawShortfall(cfg, s0, now, user, sender, amount, key).value.state;
    assert SettleTask(|d.transfers|) !in d.tasks by { NoTaskYet(d); }
    HoldIsScheduled(cfg, d, now, user, sender, receiver, amount, IdemKey(user, InternalUndoHold, UndoHoldKey(key)));
    var r := SpotMe.SendFrom(cfg, s, now, user, sender, receiver, amount, key, note).value;
    assert OpenHold(r.state.transfers, r.body.hold.transferId, UndoHold, PendingUndo) by {
      SentIsOpen(s, r, user, sender, receiver, amount);
    }
  }

  lemma NoTaskYet(s: State)
    requires Linked(s)
    ensures SettleTask(|s.transfers|) !in s.tasks
  {
    var k := SettleTask(|s.transfers|);
    assert k in s.tasks ==> TaskOk(s.transfers, s.escrows, k, s.tasks[k]);
  }

  lemma SentIsOpen(s: State, r: Holds.Reply, user: UserId, sender: AccountId, receiver: AccountId, amount: int)
    requires Sent(s, r, user, sender, receiver, amount)
    ensures OpenHold(r.state.transfers, r.body.hold.transferId, UndoHold, PendingUndo)
    ensures r.state.transfers[r.body.hold.transferId].sender == sender
    ensures IsKind(r.state.accounts, sender, UserAccount) && r.state.accounts[sender].owner == Some(user)
  {
  }

  /**
   * The promise of the deadline: whatever commands are given before it, short of undoing the send, its hold stays
   * open and its task pending, so that its sender, if still active, can undo it.
   */
  lemma UndoWindow(cfg: Config, s: State, now: Time, user: UserId, sender: AccountId, receiver: AccountId, amount: int,
                   key: nat, note: nat, events: seq<Event>, later: Time, undoKey: nat)
    requires Wired(cfg) && Inv(cfg, s) && SpotMe.SendFrom(cfg, s, now, user, sender, receiver, amount, key, note).Ok?
    requires IdemKey(user, Endpoint.Transfers, ClientKey(key)) !in s.idem
    requires IsKind(s.accounts, sender, UserAccount) && IsKind(s.accounts, receiver, UserAccount)
    requires var r := SpotMe.SendFrom(cfg, s, now, user, sender, receiver, amount, key, note).value;
      r.body.SendBody? && r.body.hold.TransferBody? ==> BeforeDue(events, r.body.undoExpiresAt, r.body.hold.transferId)
    ensures var r := SpotMe.SendFrom(cfg, s, now, user, sender, receiver, amount, key, note).value;
      && r.body.SendBody? && r.body.hold.TransferBody? && r.body.undoExpiresAt == now + 10
      && var h, s' := r.body.hold.transferId, RunFrom(cfg, r.state, events);
         && Waiting(s', h, now + 10) && sender < |s'.accounts|
         && (IdemKey(user, UndoOf(h), ClientKey(undoKey)) !in s'.idem ==>
               (Holds.Undo(cfg, s', later, h, user, undoKey).Ok? <==> s'.accounts[sender].status == Active))
  {
    hide Inv, SpotMe.SendFrom, Holds.Undo, Commit, Grows, Sent;
    var r := SpotMe.SendFrom(cfg, s, now, user, sender, receiver, amount, key, note).value;
    SendOpensWindow(cfg, s, now, user, sender, receiver, amount, key, note);
    SendLowersNet(cfg, s, now, user, sender, receiver, amount, key, note, sender, user);
    SentIsOpen(s, r, user, sender, receiver, amount);
    SendFromKeeps(cfg, s, now, user, sender, receiver, amount, key, note);
    var h := r.body.hold.transferId;
    RunWaits(cfg, r.state, events, h, now + 10);
    var s' := RunFrom(cfg, r.state, events);
    RunGrows(cfg, r.state, events);
    GrowsAccounts(cfg, r.state, s');
    UndoKeeps(cfg, s', later, h, user, undoKey);
  }

  /**
   * The hold is settled in its receiver's favour if that can be paid; otherwise nothing moves and one attempt is
   * recorded.
   */
  predicate SettledOrCharged(s: State, s': State, h: TransferId) {
    && h < |s.transfers| && h < |s'.transfers| && SettleTask(h) in s'.tasks
    && s.transfers[h].intended.Some? && s.transfers[h].intended.value < |s.accounts|
    && if s.accounts[s.transfers[h].intended.value].status == Active
       then s'.transfers[h].status == Succeeded && s'.tasks[SettleTask(h)].status == TaskDone
       else s'.transfers == s.transfers && s'.tasks[SettleTask(h)].attempts == 1
  }

  /**
   * Once due, a pending task can be claimed alone, and one pass settles its hold unless the receiver cannot be paid.
   */
  lemma WindowCloses(cfg: Config, s: State, now: Time, h: TransferId, due: Time)
    requires Wired(cfg) && Inv(cfg, s) && Waiting(s, h, due) && due <= now
    ensures Step(cfg, s, now, RunTasks([SettleTask(h)])).Ok?
    ensures SettledOrCharged(s, Commit(cfg, s, Event(now, RunTasks([SettleTask(h)]))), h)
  {
    hide Inv, Worker.RunTask, Worker.Handle, IdemOk;
    var claimed := [SettleTask(h)];
    assert Claimable(s.tasks, now, claimed);
    assert claimed[..0] == [];
    assert Worker.RunBatch(cfg, s, now, []) == (s, 0);
    TaskCloses(cfg, s, now, h, due);
  }

  lemma TaskCloses(cfg: Config, s: State, now: Time, h: TransferId, due: Time)
    requires Wired(cfg) && Inv(cfg, s) && Waiting(s, h, due)
    ensures SettledOrCharged(s, Worker.RunTask(cfg, s, now, SettleTask(h)).0, h)
  {
    hide Inv, Holds.SettleUndo, IdemOk, Conserved;
    SettleUndoKeeps(cfg, s, now, h);
    assert s.transfers[h].intended.Some? && s.transfers[h].intended.value < |s.accounts| by {
      InvParts(cfg, s);
      ConservedAccounts(cfg, s);
      assert TransferOk(s.accounts, s.transfers, h);
    }
    if s.accounts[s.transfers[h].intended.value].status == Active {
      SettlesSucceeded(cfg, s, now, h);
    }
  }

  lemma SettlesSucceeded(cfg: Config, s: State, now: Time, h: TransferId)
    requires OpenHold(s.transfers, h, UndoHold, PendingUndo) && Holds.SettleUndo(cfg, s, now, h).Ok?
    ensures var s' := Holds.SettleUndo(cfg, s, now, h).value;
      h < |s'.transfers| && s'.transfers[h].status == Succeeded && s'.tasks == s.tasks
  {
    hide Execute;
    var hold := s.transfers[h];
    ExecuteFramed(cfg, Holds.Latch(s, h, Succeeded), now,
                  Holds.SettleCommand(h, Succeeded, hold.intended.value, PENDING_SETTLEMENT, hold.amount, UndoSettle,
                                      hold.initiatedBy));
  }

  /** An undo takes its hold's settlement off the queue, if it is still there. */
  lemma UndoCancels(cfg: Config, s: State, now: Time, h: TransferId, actor: UserId, key: nat)
    requires IdemKey(actor, UndoOf(h), ClientKey(key)) !in s.idem && Holds.Undo(cfg, s, now, h, actor, key).Ok?
    ensures Holds.Undo(cfg, s, now, h, actor, key).value.state.tasks == CancelledIfPending(s.tasks, SettleTask(h))
  {
    hide Execute, Holds.Settle;
    var s0 := Begin(s, IdemKey(actor, UndoOf(h), ClientKey(key)), UndoPayload(h));
    SettleSpares(cfg, s0, now, h, PendingUndo, Refunded, s.transfers[h].sender, PENDING_SETTLEMENT,
                 s.transfers[h].amount, UndoRefund, actor, |s.transfers|, SettleTask(h));
  }

  // -- the dispute window -----------------------------------------------------------

  predicate AwaitsRelease(s: State, e: nat, due: Time) {
    && e < |s.escrows| && s.escrows[e].status == Delivered
    && SafePay.AutoRelease(e) in s.tasks && s.tasks[SafePay.AutoRelease(e)] == Task(TaskPending, 0, due)
  }

  lemma StepAwaits(cfg: Config, s: State, event: Event, e: nat, due: Time)
    requires Wired(cfg) && Inv(cfg, s) && AwaitsRelease(s, e, due)
    requires event.now < due && !(event.command.OrderEscrow? && event.command.order.escrow == e)
    ensures var s' := Commit(cfg, s, event); AwaitsRelease(s', e, due) && s'.escrows[e] == s.escrows[e]
  {
    hide Inv, Step, Edge;
    var k := SafePay.AutoRelease(e);
    if event.command.RunTasks? && k in event.command.claimed {
      NotYetClaimable(cfg, s, event, k);
    } else {
      StepFollows(cfg, s, event, e);
      if event.command.RunTasks? && TaskKey(UndoSettleTask, |s.transfers|) in event.command.claimed {
        UnknownUnclaimable(cfg, s, event);
      } else {
        var nowhere := |s.transfers| + if event.command.Undo? then event.command.transfer + 1 else 0;
        StepSpares(cfg, s, event, nowhere, k);
      }
    }
  }

  lemma UnknownUnclaimable(cfg: Config, s: State, event: Event)
    requires Inv(cfg, s) && event.command.RunTasks? && TaskKey(UndoSettleTask, |s.transfers|) in event.command.claimed
    ensures Commit(cfg, s, event) == s
  {
    hide Worker.RunBatch, Inv, IdemOk, Conserved;
    InvParts(cfg, s);
    NoTaskYet(s);
    var claimed := event.command.claimed;
    var i :| 0 <= i < |claimed| && claimed[i] == TaskKey(UndoSettleTask, |s.transfers|);
  }

  /** A delivery answers with its automatic release time, a full delay on, and the task is due exactly then. */
  lemma DeliveryOpensWindow(cfg: Config, s: State, now: Time, order: SafePay.Order, key: nat)
    requires Wired(cfg) && Inv(cfg, s) && NewOrder(s, order, key) && order.Deliver? && !order.releaseNow
    requires order.escrow < |s.escrows| && s.escrows[order.escrow].status == Shipped
    ensures var r := SafePay.Perform(cfg, s, now, order, key);
      && r.Ok? && r.value.body == DeliveredBody(order.escrow, now + cfg.autoReleaseDelay)
      && AwaitsRelease(r.value.state, order.escrow, now + cfg.autoReleaseDelay)
  {
    hide Inv, IdemOk, Conserved, SafePay.Release;
    InvParts(cfg, s);
    var k := SafePay.AutoRelease(order.escrow);
    assert k in s.tasks ==> TaskOk(s.transfers, s.escrows, k, s.tasks[k]);
  }

  predicate NoOrderOf(events: seq<Event>, due: Time, e: nat) {
    forall i :: 0 <= i < |events| ==>
      events[i].now < due && !(events[i].command.OrderEscrow? && events[i].command.order.escrow == e)
  }

  /** Until that time nothing but an order of its own moves the escrow, and its buyer can dispute. */
  lemma {:induction false} DisputeWindow(cfg: Config, s: State, events: seq<Event>, e: nat, due: Time)
    requires Wired(cfg) && Inv(cfg, s) && AwaitsRelease(s, e, due) && NoOrderOf(events, due, e)
    ensures var s' := RunFrom(cfg, s, events);
      && Inv(cfg, s') && AwaitsRelease(s', e, due) && s'.escrows[e] == s.escrows[e]
      && (forall now, reason :: MayOrder(s', now, SafePay.Dispute(e, s.escrows[e].buyer, reason)))
  {
    hide Inv, Commit;
    RunFromKeeps(cfg, s, events);
    if events != [] {
      var n := |events| - 1;
      DisputeWindow(cfg, s, events[..n], e, due);
      StepAwaits(cfg, RunFrom(cfg, s, events[..n]), events[n], e, due);
    }
  }

  // -- the legs that close a hold -------------------------------------------------------

  /**
   * The row of the leg that closed hold `h`: the whole amount back or on, in the name of whoever made or undid the
   * hold.
   */
  predicate LegRow(s: State, s': State, now: Time, h: TransferId, to: AccountId, kind: Kind, actor: UserId)
    requires h < |s.transfers|
  {
    && |s.transfers| < |s'.transfers|
    && s'.transfers[|s.transfers|]
         == Transfer(PENDING_SETTLEMENT, to, s.transfers[h].amount, kind, Succeeded, actor, Some(h), None, now)
  }

  lemma UndoLeg(cfg: Config, s: State, now: Time, h: TransferId, actor: UserId, key: nat)
    requires Wired(cfg) && Inv(cfg, s) && MayUndo(s, h, actor) && IdemKey(actor, UndoOf(h), ClientKey(key)) !in s.idem
    ensures var r := Holds.Undo(cfg, s, now, h, actor, key);
      && r.Ok? && LegRow(s, r.value.state, now, h, s.transfers[h].sender, UndoRefund, actor)
      && h < |r.value.state.transfers| && r.value.state.transfers[h].status == Refunded
  {
    hide Inv, Execute, Conserved, Linked, IdemOk, IdemOkBut, KeyOk, Executions.Posted, Executions.LienOn,
         Conservation.Extends;
    InvParts(cfg, s);
    var top, fp := IdemKey(actor, UndoOf(h), ClientKey(key)), UndoPayload(h);
    var s0 := Begin(s, top, fp);
    BeginKeepsKeys(s, top, fp);
    ConservedButKeys(cfg, s, s0);
    ClosingKeeps(cfg, s0, now, {top}, h, UNDO_REFUND, actor);
  }

  lemma SettleLeg(cfg: Config, s: State, now: Time, h: TransferId)
    requires Wired(cfg) && Inv(cfg, s) && OpenHold(s.transfers, h, UndoHold, PendingUndo)
    requires Holds.SettleUndo(cfg, s, now, h).Ok?
    ensures s.transfers[h].intended.Some?
    ensures var s' := Holds.SettleUndo(cfg, s, now, h).value;
      && LegRow(s, s', now, h, s.transfers[h].intended.value, UndoSettle, s.transfers[h].initiatedBy)
      && h < |s'.transfers| && s'.transfers[h].status == Succeeded
  {
    hide Inv, Execute, Conserved, Linked, IdemOk, IdemOkBut, KeyOk, Executions.Posted, Executions.LienOn,
         Conservation.Extends;
    InvParts(cfg, s);
    NoOpenKeys(s);
    ClosingKeeps(cfg, s, now, {}, h, UNDO_SETTLE, s.transfers[h].initiatedBy);
  }
}
