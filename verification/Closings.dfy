/** Undoing or settling a send: closing a hold keeps the invariant. */
module Closings {
  import opened Kernel
  import opened Sums
  import opened Accounts
  import opened Policies
  import opened Tables
  import opened Idempotency
  import opened Transfers
  import opened Scheduling
  import opened Invariants
  import opened Legs
  import opened Sweeps
  import opened Executions
  import opened Settling
  import opened Conservation
  import opened Keeping
  import opened Payments
  import opened Sending
  import opened Holds

  predicate NoLienKeys(open: set<IdemKey>) { forall k :: k in open ==> k.key.ClientKey? }

  /** Everything closing hold `h` does to the tables that refer to it. */
  predicate ClosedBy(s: State, s': State, now: Time, h: TransferId, z: Closing, c: TransferCommand)
    requires h < |s.transfers|
  {
    && RowsKept(s.transfers, s'.transfers, h)
    && s'.transfers[h] == s.transfers[h].(status := z.outcome)
    && |s.transfers| < |s'.transfers| && s'.transfers[|s.transfers|] == RowOf(now, c)
    && (forall i :: |s.transfers| <= i < |s'.transfers| ==> s'.transfers[i].status == Succeeded)
    && SameShape(s.accounts, s'.accounts)
    && s'.pools == s.pools && s'.escrows == s.escrows && s'.requests == s.requests && s'.tasks == s.tasks
    && Extends(s, s')
  }

  /** A hold still open has no settlement key yet. */
  lemma SettleKeyIsNew(s: State, open: set<IdemKey>, h: TransferId, z: Closing, actor: UserId)
    requires IdemOkBut(s, open) && NoLienKeys(open) && IsClosing(z) && OpenHold(s.transfers, h, z.hold, z.open)
    ensures ClosingCommand(s, h, z, actor).key !in s.idem
  {
    var k := ClosingCommand(s, h, z, actor).key;
    assert k !in open;
    assert k in s.idem ==> KeyOk(s, k, s.idem[k].fingerprint);
  }

  lemma LatchExtends(s: State, h: TransferId, z: Closing)
    requires IsClosing(z) && OpenHold(s.transfers, h, z.hold, z.open)
    ensures Extends(s, Latch(s, h, z.outcome)) && RowsKept(s.transfers, Latch(s, h, z.outcome).transfers, h)
  {
  }

  lemma ClosingKeyOk(s: State, h: TransferId, z: Closing, c: TransferCommand)
    requires h < |s.transfers| && s.transfers[h].status == z.outcome && IsClosing(z)
    requires c.key.key == SettleKey(h, z.outcome) && !c.key.endpoint.UndoOf?
    ensures KeyOk(s, c.key, c.fingerprint)
  {
  }

  /** Closing a hold: it succeeds exactly when the beneficiary is active, and then keeps money, links and keys. */
  lemma ClosingKeeps(cfg: Config, s: State, now: Time, open: set<IdemKey>, h: TransferId, z: Closing, actor: UserId)
    requires Wired(cfg) && Conserved(cfg, s) && IdemOkBut(s, open) && NoLienKeys(open)
    requires IsClosing(z) && OpenHold(s.transfers, h, z.hold, z.open)
    ensures var c := ClosingCommand(s, h, z, actor);
      var r := Execute(cfg, Latch(s, h, z.outcome), now, c);
      && InRange(s, c)
      && (r.Ok? <==> s.accounts[c.receiver].status == Active)
      && (r.Ok? ==>
            && Conserved(cfg, r.value.state) && IdemOkBut(r.value.state, open)
            && r.value.result == ResultOf(s, now, c)
            && (forall k :: k in s.idem ==> k in r.value.state.idem)
            && ClosedBy(s, r.value.state, now, h, z, c)
            && Posted(Latch(s, h, z.outcome), r.value.state, now, c, LienOn(cfg, Latch(s, h, z.outcome), c)))
  {
    hide Sum, Posted, LienOn, Execute, Conserved, KeyOk, IdemOkBut, Extends, LienKeysOld;
    var c := ClosingCommand(s, h, z, actor);
    var latched := Latch(s, h, z.outcome);
    SettleKeyIsNew(s, open, h, z, actor);
    LienKeysOldBut(s, open);
    SettleEffect(cfg, s, now, h, z, actor);
    LatchExtends(s, h, z);
    ExtendKeepsKeys(s, latched, open);
    var r := Execute(cfg, latched, now, c);
    if r.Ok? {
      var s' := r.value.state;
      PostedExtends(latched, s', now, c, LienOn(cfg, latched, c));
      PostedTables(latched, s', now, c, LienOn(cfg, latched, c));
      ClosingKeyOk(s', h, z, c);
      PostedKeepsKeys(latched, s', now, c, LienOn(cfg, latched, c), open);
      ExtendsThenExtends(s, latched, s');
      NewRowsSucceeded(latched.transfers, s'.transfers, RowOf(now, c), now);
    }
  }

  lemma NewRowsSucceeded(before: seq<Transfer>, after: seq<Transfer>, row: Transfer, now: Time)
    requires RowsAppended(before, after, row, now) && row.status == Succeeded
    ensures forall i :: |before| <= i < |after| ==> after[i].status == Succeeded
  {
    forall i | |before| <= i < |after|
      ensures after[i].status == Succeeded
    {
      assert i > |before| ==> IsLienRow(after[i], row.receiver, now);
    }
  }

  /** Closing an undo hold leaves every link alone. */
  lemma UndoClosedLinks(s: State, s': State, now: Time, h: TransferId, z: Closing, c: TransferCommand)
    requires Linked(s) && IsClosing(z) && OpenHold(s.transfers, h, UndoHold, PendingUndo)
    requires ClosedBy(s, s', now, h, z, c)
    ensures Linked(s')
  {
    hide EscrowOk, RequestOk, TaskOk, Extends;
    EscrowsKept(s.accounts, s'.accounts, s.transfers, s'.transfers, h, s.escrows);
    RequestsKept(s.accounts, s'.accounts, s.transfers, s'.transfers, h, s.requests);
    TasksKept(s.transfers, s'.transfers, h, s.escrows, s.tasks);
  }

  lemma CancelKeepsTasks(transfers: seq<Transfer>, escrows: seq<Escrow>, tasks: map<TaskKey, Task>, key: TaskKey)
    requires TasksOk(transfers, escrows, tasks)
    requires key.taskType == UndoSettleTask && key.resource < |transfers| ==>
      transfers[key.resource].status != PendingUndo
    requires key.taskType == AutoReleaseTask && key.resource < |escrows| ==> escrows[key.resource].status != Delivered
    ensures TasksOk(transfers, escrows, Cancel(tasks, key))
  {
    var tasks' := Cancel(tasks, key);
    forall k | k in tasks'
      ensures TaskOk(transfers, escrows, k, tasks'[k])
    {
      assert TaskOk(transfers, escrows, k, tasks[k]);
    }
  }

  // -- undo -----------------------------------------------------------------

  const UNDO_REFUND: Closing := Closing(UndoHold, PendingUndo, Refunded, PENDING_SETTLEMENT, UndoRefund)
  const UNDO_SETTLE: Closing := Closing(UndoHold, PendingUndo, Succeeded, PENDING_SETTLEMENT, UndoSettle)

  predicate MayUndo(s: State, h: TransferId, actor: UserId) {
    && OpenHold(s.transfers, h, UndoHold, PendingUndo)
    && s.transfers[h].sender < |s.accounts|
    && s.accounts[s.transfers[h].sender].owner == Some(actor)
    && s.accounts[s.transfers[h].sender].status == Active
  }

  /** An undo under a new key goes through exactly while its hold is open and its sender active. */
  lemma UndoKeeps(cfg: Config, s: State, now: Time, h: TransferId, actor: UserId, key: nat)
    requires Wired(cfg) && Inv(cfg, s)
    ensures var r := Undo(cfg, s, now, h, actor, key);
      && (r.Ok? ==> Inv(cfg, r.value.state))
      && (IdemKey(actor, UndoOf(h), ClientKey(key)) !in s.idem ==> (r.Ok? <==> MayUndo(s, h, actor)))
  {
    hide Sum, Posted, LienOn, Execute, Conserved, KeyOk, IdemOkBut, Extends, Inv, Linked, IdemOk, TransferOk,
         RunningBalances, ClosedBy;
    InvParts(cfg, s);
    var top, fp := IdemKey(actor, UndoOf(h), ClientKey(key)), UndoPayload(h);
    if top !in s.idem && OpenHold(s.transfers, h, UndoHold, PendingUndo) {
      var s0 := Begin(s, top, fp);
      BeginKeepsKeys(s, top, fp);
      ConservedButKeys(cfg, s, s0);
      ClosingKeeps(cfg, s0, now, {top}, h, UNDO_REFUND, actor);
      if MayUndo(s, h, actor) {
        UndoneKeeps(cfg, s0, now, h, actor, top, fp, Undo(cfg, s, now, h, actor, key).value.body);
      }
    }
  }

  lemma UndoneKeeps(cfg: Config, s0: State, now: Time, h: TransferId, actor: UserId, top: IdemKey, fp: Payload,
                    body: Body)
    requires Conserved(cfg, s0) && Linked(s0) && top in s0.idem
    requires OpenHold(s0.transfers, h, UndoHold, PendingUndo)
    requires top.key.ClientKey? && top.endpoint == UndoOf(h)
    requires var c := ClosingCommand(s0, h, UNDO_REFUND, actor);
      var r := Execute(cfg, Latch(s0, h, Refunded), now, c);
      r.Ok? && Conserved(cfg, r.value.state) && IdemOkBut(r.value.state, {top})
          && ClosedBy(s0, r.value.state, now, h, UNDO_REFUND, c)
      && top in r.value.state.idem
    ensures var c := ClosingCommand(s0, h, UNDO_REFUND, actor);
      var s1 := Execute(cfg, Latch(s0, h, Refunded), now, c).value.state;
      Inv(cfg, Complete(s1.(tasks := Cancel(s1.tasks, TaskKey(UndoSettleTask, h))), top, fp, body))
  {
    hide Sum, Execute, Conserved, KeyOk, IdemOkBut, Inv, IdemOk, EscrowsOk, RequestsOk, TasksOk, Extends;
    var c := ClosingCommand(s0, h, UNDO_REFUND, actor);
    var s1 := Execute(cfg, Latch(s0, h, Refunded), now, c).value.state;
    UndoClosedLinks(s0, s1, now, h, UNDO_REFUND, c);
    var s2 := s1.(tasks := Cancel(s1.tasks, TaskKey(UndoSettleTask, h)));
    CancelKeepsTasks(s1.transfers, s1.escrows, s1.tasks, TaskKey(UndoSettleTask, h));
    ConservedButTasks(cfg, s1, s2);
    TasksExtend(s1, s2);
    ExtendKeepsKeys(s1, s2, {top});
    assert KeyOk(s2, top, fp) by { UndoKeyOk(s2, top, fp); }
    CompleteKeepsKeys(s2, top, fp, body);
    var s3 := Complete(s2, top, fp, body);
    ConservedButKeys(cfg, s2, s3);
    InvParts(cfg, s3);
  }

  lemma UndoKeyOk(s: State, top: IdemKey, fp: Payload)
    requires top.key.ClientKey? && top.endpoint.UndoOf? && top.endpoint.transfer < |s.transfers|
    ensures KeyOk(s, top, fp)
  {
  }

  // -- the scheduler's handler ----------------------------------------------

  lemma NoOpenKeys(s: State)
    ensures IdemOkBut(s, {}) <==> IdemOk(s)
  {
  }

  /** The handler leaves no open window behind, and fails exactly when the receiver cannot be paid. */
  lemma SettleUndoKeeps(cfg: Config, s: State, now: Time, h: TransferId)
    requires Wired(cfg) && Inv(cfg, s)
    ensures var r := SettleUndo(cfg, s, now, h);
      && (r.Ok? <==> (OpenHold(s.transfers, h, UndoHold, PendingUndo) ==>
            s.transfers[h].intended.Some? && s.transfers[h].intended.value < |s.accounts|
            && s.accounts[s.transfers[h].intended.value].status == Active))
      && (r.Ok? ==>
            && Inv(cfg, r.value)
            && r.value.tasks == s.tasks
            && (h < |r.value.transfers| ==> r.value.transfers[h].status != PendingUndo))
  {
    hide Sum, Posted, LienOn, Execute, Conserved, KeyOk, IdemOkBut, Extends, Inv, Linked, IdemOk, RunningBalances;
    InvParts(cfg, s);
    ConservedAccounts(cfg, s);
    assert h < |s.transfers| ==> TransferOk(s.accounts, s.transfers, h);
    if OpenHold(s.transfers, h, UndoHold, PendingUndo) {
      NoOpenKeys(s);
      var actor := s.transfers[h].initiatedBy;
      var c := ClosingCommand(s, h, UNDO_SETTLE, actor);
      ClosingKeeps(cfg, s, now, {}, h, UNDO_SETTLE, actor);
      var r := SettleUndo(cfg, s, now, h);
      if r.Ok? {
        UndoClosedLinks(s, r.value, now, h, UNDO_SETTLE, c);
        NoOpenKeys(r.value);
        InvParts(cfg, r.value);
      }
    }
  }
}
