/** SafePay: every order keeps escrow and hold in agreement. */
module Escrows {
  import opened Kernel
  import opened Sums
  import opened Accounts
  import opened Policies
  import opened Tables
  import opened Idempotency
  import opened Transfers
  import opened Scheduling
  import opened Invariants
  import opened Legs
  import opened Backing
  import opened Executions
  import opened Settling
  import opened Conservation
  import opened Keeping
  import opened Payments
  import opened Sending
  import opened Closings
  import opened Holds
  import opened SafePay

  /** What holds between reserving a command's key and storing its response. */
  ghost predicate Inside(cfg: Config, s: State, top: IdemKey) {
    Conserved(cfg, s) && Linked(s) && IdemOkBut(s, {top}) && top in s.idem
  }

  // -- opening an escrow ----------------------------------------------------

  lemma CreatedLinks(s: State, s1: State, now: Time, c: TransferCommand, row: Escrow)
    requires EscrowsOk(s1.accounts, s1.transfers, s1.escrows) && TasksOk(s1.transfers, s1.escrows, s1.tasks)
    requires EscrowsOk(s.accounts, s.transfers, s.escrows) && s1.escrows == s.escrows
    requires |s.transfers| < |s1.transfers| && s1.transfers[|s.transfers|] == RowOf(now, c)
    requires row.hold == |s.transfers| && row.settlement == None && row.status == AwaitingShipment
    requires c.kind == EscrowHold && c.status == Held && c.amount == row.amount && c.actor == row.buyer
    requires c.intended.Some? && c.intended.value < |s1.accounts| && s1.accounts[c.intended.value].owner
      == Some(row.seller)
    ensures EscrowsOk(s1.accounts, s1.transfers, s1.escrows + [row])
    ensures TasksOk(s1.transfers, s1.escrows + [row], s1.tasks)
  {
    var escrows := s1.escrows + [row];
    forall e | 0 <= e < |s.escrows|
      ensures EscrowOk(s1.accounts, s1.transfers, escrows[e]) && escrows[e].hold < |s.transfers|
    {
      assert EscrowOk(s1.accounts, s1.transfers, s1.escrows[e]) && EscrowOk(s.accounts, s.transfers, s.escrows[e]);
    }
    forall key | key in s1.tasks
      ensures TaskOk(s1.transfers, escrows, key, s1.tasks[key])
    {
      assert TaskOk(s1.transfers, s1.escrows, key, s1.tasks[key]);
    }
  }

  lemma CreateKeeps(cfg: Config, s: State, now: Time, buyer: UserId, seller: UserId, amount: int, description: nat,
                    key: nat)
    requires Wired(cfg) && Inv(cfg, s) && Create(cfg, s, now, buyer, seller, amount, description, key).Ok?
    ensures Inv(cfg, Create(cfg, s, now, buyer, seller, amount, description, key).value.state)
  {
    hide Sum, Posted, LienOn, SumSentSince, Execute, BooksOk, TransfersOk, LoansOk, LegalRow, EscrowsOk, RequestsOk,
         TasksOk, LegsOk, DailyOk, PoolsWhole, PendingGap, EscrowGap, Conserved, Extends, IdemOkBut, KeyOk, PoolsOk,
         Allowed, Inv, IdemOk;
    InvParts(cfg, s);
    var top := IdemKey(buyer, SafePayEndpoint, ClientKey(key));
    var fp := SafePayPayload(seller, amount, description);
    if top !in s.idem {
      var id := |s.escrows|;
      var payer, payee := FindUser(s.accounts, buyer).value, FindUser(s.accounts, seller).value;
      var c := HoldCommand(buyer, payer, ESCROW, amount, EscrowHold, Held,
                           IdemKey(buyer, InternalSafePayHold, SafePayHoldKey(id)), payee);
      assert c.key !in s.idem by {
        HoldKeyIsNew(s, c.key);
      }
      ConservedAccounts(cfg, s);
      HoldIsLegal(s, now, buyer, payer, payee, amount, c.key);
      WrappedExecute(cfg, s, now, c, top, fp);
      var s0 := Begin(s, top, fp);
      var s1 := Execute(cfg, s0, now, c).value.state;
      PostedExtends(s0, s1, now, c, LienOn(cfg, s0, c));
      var row := Escrow(|s.transfers|, None, buyer, seller, amount, AwaitingShipment, 0, None);
      CreatedLinks(s, s1, now, c, row);
      CreatedKeeps(cfg, s, now, c, top, fp, row, EscrowCreatedBody(id, |s.transfers|, amount));
    }
  }

  lemma HoldKeyIsNew(s: State, k: IdemKey)
    requires IdemOk(s) && k.key == SafePayHoldKey(|s.escrows|)
    ensures k !in s.idem
  {
    KeyMeans(s, k);
  }

  lemma CreatedKeeps(cfg: Config, s: State, now: Time, c: TransferCommand, top: IdemKey, fp: Payload, row: Escrow,
                     body: Body)
    requires IdemOk(s) && top !in s.idem && c.key !in s.idem && c.key != top
    requires c.key.key == SafePayHoldKey(|s.escrows|) && !c.key.endpoint.UndoOf?
    requires top.key.ClientKey? && top.endpoint == SafePayEndpoint
    requires var s0 := Begin(s, top, fp);
      var r := Execute(cfg, s0, now, c);
      && r.Ok? && InRange(s0, c) && Conserved(cfg, r.value.state)
           && Posted(s0, r.value.state, now, c, LienOn(cfg, s0, c))
      && r.value.state.escrows == s.escrows
      && RequestsOk(r.value.state.accounts, r.value.state.transfers, r.value.state.requests)
      && EscrowsOk(r.value.state.accounts, r.value.state.transfers, s.escrows + [row])
      && TasksOk(r.value.state.transfers, s.escrows + [row], r.value.state.tasks)
    ensures var s1 := Execute(cfg, Begin(s, top, fp), now, c).value.state;
      Inv(cfg, Complete(s1.(escrows := s1.escrows + [row]), top, fp, body))
  {
    hide Sum, Posted, LienOn, Execute, EscrowsOk, RequestsOk, TasksOk, Extends, Inv, IdemOk, LegsOk, DailyOk, Core,
         PoolsWhole, IdemOkBut, KeyOk, Conserved;
    var s0 := Begin(s, top, fp);
    var s1 := Execute(cfg, s0, now, c).value.state;
    BeginKeepsKeys(s, top, fp);
    MoreOpen(s0, {top}, {top, c.key});
    PostedKeepsKeys(s0, s1, now, c, LienOn(cfg, s0, c), {top, c.key});
    PostedTables(s0, s1, now, c, LienOn(cfg, s0, c));
    var s2 := s1.(escrows := s1.escrows + [row]);
    assert Extends(s1, s2) by { EscrowExtends(s1, s2); }
    ExtendKeepsKeys(s1, s2, {top, c.key});
    FewerOpen(s2, top, c.key);
    assert KeyOk(s2, top, fp) by { SendKeyOk(s2, top, fp); }
    CompleteKeepsKeys(s2, top, fp, body);
    ConservedButEscrows(cfg, s1, s2);
    var s3 := Complete(s2, top, fp, body);
    ConservedButKeys(cfg, s2, s3);
    InvParts(cfg, s3);
  }

  lemma MoreOpen(s: State, fewer: set<IdemKey>, more: set<IdemKey>)
    requires IdemOkBut(s, fewer) && fewer <= more
    ensures IdemOkBut(s, more)
  {
  }

  lemma FewerOpen(s: State, top: IdemKey, k: IdemKey)
    requires IdemOkBut(s, {top, k}) && k in s.idem && s.idem[k].Completed?
    requires k.key.SafePayHoldKey? && k.key.escrow < |s.escrows| && !k.endpoint.UndoOf?
    ensures IdemOkBut(s, {top})
  {
  }

  lemma EscrowExtends(s: State, s': State)
    requires s' == s.(escrows := s'.escrows, tasks := s'.tasks) && |s.escrows| <= |s'.escrows|
    ensures Extends(s, s')
  {
  }

  lemma ConservedButEscrows(cfg: Config, s: State, s': State)
    requires s' == s.(escrows := s'.escrows, tasks := s'.tasks)
    ensures Conserved(cfg, s) <==> Conserved(cfg, s')
  {
  }

  // -- settling an escrow ---------------------------------------------------

  const RELEASE: Closing := Closing(EscrowHold, Held, Succeeded, ESCROW, EscrowRelease)
  const REFUND: Closing := Closing(EscrowHold, Held, Refunded, ESCROW, EscrowRefund)

  predicate Unsettled(status: EscrowStatus) { status in {AwaitingShipment, Shipped, Delivered, Disputed} }

  /** The tasks as they need to be once escrow `id` is settled. */
  predicate TasksOnceSettled(s: State, id: nat)
    requires id < |s.escrows|
  {
    TasksOk(s.transfers, s.escrows[id := s.escrows[id].(status := Released)], s.tasks)
  }

  lemma SettlingNeedsNoTask(s: State, id: nat)
    requires id < |s.escrows| && TasksOk(s.transfers, s.escrows, s.tasks)
    ensures TasksOnceSettled(s, id)
  {
    var escrows := s.escrows[id := s.escrows[id].(status := Released)];
    forall key | key in s.tasks
      ensures TaskOk(s.transfers, escrows, key, s.tasks[key])
    {
      assert TaskOk(s.transfers, s.escrows, key, s.tasks[key]);
    }
  }

  /** The other escrows keep their holds, and the settled one points at the leg that settled it. */
  lemma SettledEscrows(s: State, s': State, now: Time, id: nat, z: Closing, c: TransferCommand, row: Escrow)
    requires EscrowsOk(s.accounts, s.transfers, s.escrows) && id < |s.escrows|
    requires z in {RELEASE, REFUND} && OpenHold(s.transfers, s.escrows[id].hold, EscrowHold, Held)
    requires ClosedBy(s, s', now, s.escrows[id].hold, z, c)
    requires exists actor :: c == ClosingCommand(s, s.escrows[id].hold, z, actor)
    requires row == s.escrows[id].(status := if z == RELEASE then Released else EscrowRefunded,
                                   settlement := Some(|s.transfers|), codeAttempts := 0, codeLockedUntil := None)
    ensures EscrowsOk(s'.accounts, s'.transfers, s.escrows[id := row])
  {
    hide Extends;
    var h := s.escrows[id].hold;
    var escrows := s.escrows[id := row];
    assert EscrowOk(s.accounts, s.transfers, s.escrows[id]);
    forall e | 0 <= e < |escrows|
      ensures EscrowOk(s'.accounts, s'.transfers, escrows[e])
    {
      if e != id {
        assert EscrowOk(s.accounts, s.transfers, s.escrows[e]);
        assert s.escrows[e].hold != h by { assert e < id || id < e; }
        EscrowKept(s.accounts, s'.accounts, s.transfers, s'.transfers, h, s.escrows[e]);
      }
    }
    forall e, f | 0 <= e < f < |escrows|
      ensures escrows[e].hold != escrows[f].hold
    {
      assert s.escrows[e].hold != s.escrows[f].hold;
    }
  }

  lemma SettledTasks(s: State, s': State, id: nat, row: Escrow, h: TransferId)
    requires id < |s.escrows| && TasksOnceSettled(s, id) && !Unsettled(row.status)
    requires RowsKept(s.transfers, s'.transfers, h) && h < |s.transfers| && s'.transfers[h].status != PendingUndo
    requires forall i :: |s.transfers| <= i < |s'.transfers| ==> s'.transfers[i].status == Succeeded
    ensures TasksOk(s'.transfers, s.escrows[id := row], s.tasks)
  {
    hide TaskOk;
    var relaxed := s.escrows[id := s.escrows[id].(status := Released)];
    TasksKept(s.transfers, s'.transfers, h, relaxed, s.tasks);
    var escrows := s.escrows[id := row];
    forall key | key in s.tasks
      ensures TaskOk(s'.transfers, escrows, key, s.tasks[key])
    {
      assert TaskOk(s'.transfers, relaxed, key, s.tasks[key]);
      SettledTask(s'.transfers, relaxed, escrows, key, s.tasks[key], id);
    }
    forall e | 0 <= e < |escrows| && escrows[e].status == Delivered
      ensures Live(s.tasks, TaskKey(AutoReleaseTask, e))
    {
      assert relaxed[e].status == Delivered;
    }
  }

  lemma SettledTask(transfers: seq<Transfer>, relaxed: seq<Escrow>, escrows: seq<Escrow>, key: TaskKey, task: Task,
                    id: nat)
    requires TaskOk(transfers, relaxed, key, task) && |relaxed| == |escrows| && id < |escrows|
    requires forall e :: 0 <= e < |escrows| && e != id ==> escrows[e] == relaxed[e]
    requires !Unsettled(escrows[id].status)
    ensures TaskOk(transfers, escrows, key, task)
  {
  }

  /** The escrow with its settlement recorded, in the state the settlement leg left. */
  function Recorded(s': State, s: State, id: nat, z: Closing): State
    requires id < |s.escrows| == |s'.escrows|
  {
    s'.(escrows := s'.escrows[id := s.escrows[id].(
      status := if z == RELEASE then Released else EscrowRefunded,
      settlement := Some(|s.transfers|), codeAttempts := 0, codeLockedUntil := None)])
  }

  ghost predicate BeforeSettling(cfg: Config, s: State, id: nat, open: set<IdemKey>) {
    && Conserved(cfg, s) && IdemOkBut(s, open) && NoLienKeys(open)
    && EscrowsOk(s.accounts, s.transfers, s.escrows) && RequestsOk(s.accounts, s.transfers, s.requests)
    && id < |s.escrows| && TasksOnceSettled(s, id)
  }

  lemma SettledKeeps(cfg: Config, s: State, now: Time, id: nat, open: set<IdemKey>, z: Closing, actor: UserId)
    requires Wired(cfg) && BeforeSettling(cfg, s, id, open) && z in {RELEASE, REFUND}
    requires Unsettled(s.escrows[id].status)
    ensures OpenHold(s.transfers, s.escrows[id].hold, EscrowHold, Held)
    ensures var h := s.escrows[id].hold;
      var c := ClosingCommand(s, h, z, actor);
      var r := Execute(cfg, Latch(s, h, z.outcome), now, c);
      && s.transfers[h].amount == s.escrows[id].amount && s.transfers[h].intended.Some? && InRange(s, c)
      && (r.Ok? <==> s.accounts[c.receiver].status == Active)
      && (r.Ok? ==>
            && r.value.result.transferId == |s.transfers| && |r.value.state.escrows| == |s.escrows|
            && r.value.state.escrows == s.escrows && r.value.state.tasks == s.tasks
            && |s.transfers| < |r.value.state.transfers|
            && r.value.state.transfers[|s.transfers|].initiatedBy == actor
            && Posted(Latch(s, h, z.outcome), r.value.state, now, c, LienOn(cfg, Latch(s, h, z.outcome), c))
            && var s' := Recorded(r.value.state, s, id, z);
               Conserved(cfg, s') && Linked(s') && IdemOkBut(s', open) && (forall k :: k in s.idem ==> k in s'.idem))
  {
    hide Sum, Posted, LienOn, Execute, Conserved, KeyOk, IdemOkBut, Extends, TasksOk, RequestOk, TasksOnceSettled,
         EscrowsOk;
    var h := s.escrows[id].hold;
    AgreesWithHold(s, id);
    var c := ClosingCommand(s, h, z, actor);
    ClosingKeeps(cfg, s, now, open, h, z, actor);
    var r := Execute(cfg, Latch(s, h, z.outcome), now, c);
    if r.Ok? {
      var s1 := r.value.state;
      var s' := Recorded(s1, s, id, z);
      SettledEscrows(s, s1, now, id, z, c, s'.escrows[id]);
      SettledTasks(s, s1, id, s'.escrows[id], h);
      RequestsKept(s.accounts, s1.accounts, s.transfers, s1.transfers, h, s.requests);
      ConservedButEscrows(cfg, s1, s');
      assert Extends(s1, s') by { EscrowExtends(s1, s'); }
      ExtendKeepsKeys(s1, s', open);
    }
  }

  lemma AgreesWithHold(s: State, id: nat)
    requires EscrowsOk(s.accounts, s.transfers, s.escrows) && id < |s.escrows| && Unsettled(s.escrows[id].status)
    ensures OpenHold(s.transfers, s.escrows[id].hold, EscrowHold, Held)
    ensures s.transfers[s.escrows[id].hold].amount == s.escrows[id].amount
    ensures s.transfers[s.escrows[id].hold].intended.Some? && s.escrows[id].settlement == None
  {
    assert EscrowOk(s.accounts, s.transfers, s.escrows[id]);
  }

  /** What a settlement order leaves, whoever gave it. */
  ghost predicate Settles(cfg: Config, s: State, s': State, id: nat, to: EscrowStatus, open: set<IdemKey>)
    requires id < |s.escrows|
  {
    && Conserved(cfg, s') && Linked(s') && IdemOkBut(s', open) && (forall k :: k in s.idem ==> k in s'.idem)
    && |s'.escrows| == |s.escrows| && s'.escrows[id].status == to
    && (forall e :: 0 <= e < |s.escrows| && e != id ==> s'.escrows[e] == s.escrows[e])
    && (forall k :: k != AutoRelease(id) ==>
          (k in s'.tasks <==> k in s.tasks) && (k in s.tasks ==> s'.tasks[k] == s.tasks[k]))
    && (AutoRelease(id) in s.tasks ==> AutoRelease(id) in s'.tasks)
  }

  predicate Payable(s: State, id: nat, z: Closing) {
    && id < |s.escrows| && s.escrows[id].hold < |s.transfers|
    && var to := Beneficiary(s.transfers[s.escrows[id].hold], z.outcome);
       to < |s.accounts| && s.accounts[to].status == Active
  }

  /** The leg that settled the escrow was initiated by `actor`. */
  predicate SignedBy(s: State, id: nat, actor: UserId) {
    && id < |s.escrows| && s.escrows[id].settlement.Some? && s.escrows[id].settlement.value < |s.transfers|
    && s.transfers[s.escrows[id].settlement.value].initiatedBy == actor
  }

  /** A release succeeds exactly while the escrow is unsettled and the seller can be paid. */
  lemma ReleaseKeeps(cfg: Config, s: State, now: Time, id: nat, actor: UserId, open: set<IdemKey>)
    requires Wired(cfg) && BeforeSettling(cfg, s, id, open) && Unsettled(s.escrows[id].status)
    ensures var r := Release(cfg, s, now, id, actor);
      && (r.Ok? <==> Payable(s, id, RELEASE))
      && (r.Ok? ==> Settles(cfg, s, r.value.state, id, Released, open) && SignedBy(r.value.state, id, actor))
  {
    hide Sum, Posted, LienOn, Execute, Conserved, KeyOk, IdemOkBut, Extends, TasksOk, RequestsOk, TasksOnceSettled,
         EscrowsOk;
    AgreesWithHold(s, id);
    SettledKeeps(cfg, s, now, id, open, RELEASE, actor);
    var r := Release(cfg, s, now, id, actor);
    if r.Ok? {
      var h := s.escrows[id].hold;
      var leg := Execute(cfg, Latch(s, h, Succeeded), now, ClosingCommand(s, h, RELEASE, actor)).value;
      var s1 := Recorded(leg.state, s, id, RELEASE);
      assert r.value.state == s1.(tasks := Cancel(s1.tasks, AutoRelease(id)));
      CancelKeepsTasks(s1.transfers, s1.escrows, s1.tasks, AutoRelease(id));
      ConservedButTasks(cfg, s1, r.value.state);
      TasksExtend(s1, r.value.state);
      ExtendKeepsKeys(s1, r.value.state, open);
    }
  }

  /** Refunds come only out of a dispute. */
  lemma RefundKeeps(cfg: Config, s: State, now: Time, id: nat, open: set<IdemKey>)
    requires Wired(cfg) && BeforeSettling(cfg, s, id, open) && s.escrows[id].status == Disputed
    ensures var r := Refund(cfg, s, now, id);
      && (r.Ok? <==> Payable(s, id, REFUND))
      && (r.Ok? ==>
            && Settles(cfg, s, r.value.state, id, EscrowRefunded, open)
            && SignedBy(r.value.state, id, s.escrows[id].buyer))
  {
    hide Sum, Posted, LienOn, Execute, Conserved, KeyOk, IdemOkBut, Extends, TasksOk, RequestsOk, TasksOnceSettled,
         EscrowsOk;
    AgreesWithHold(s, id);
    SettledKeeps(cfg, s, now, id, open, REFUND, s.escrows[id].buyer);
    var r := Refund(cfg, s, now, id);
    if r.Ok? {
      var h := s.escrows[id].hold;
      var leg := Execute(cfg, Latch(s, h, Refunded), now, ClosingCommand(s, h, REFUND, s.escrows[id].buyer)).value;
      assert r.value.state == Recorded(leg.state, s, id, REFUND);
    }
  }

  // -- orders ---------------------------------------------------------------

  /** The escrow status machine: which order takes which status where. */
  predicate Edge(order: Order, before: EscrowStatus, after: EscrowStatus) {
    match order
    case Ship(_, _, _, _) => before == AwaitingShipment && after == Shipped
    case EnterCode(_, _, _, correct) =>
      before in {AwaitingShipment, Shipped, Delivered} && (after == before || (correct && after == Released))
    case Confirm(_, _) => before in {Shipped, Delivered} && after == Released
    case Dispute(_, _, _) => before in {AwaitingShipment, Shipped, Delivered} && after == Disputed
    case Deliver(_, _, _, releaseNow) =>
      if before == Shipped then after == (if releaseNow then Released else Delivered)
      else before in {Disputed, Released, EscrowRefunded} && after == before
    case Resolve(_, release, _, _) => before == Disputed && after == (if release then Released else EscrowRefunded)
  }

  /** Whose order it is: the seller ships and enters codes, the buyer confirms and disputes. */
  predicate ByParty(order: Order, escrow: Escrow) {
    match order
    case Ship(_, seller, _, _) => seller == escrow.seller
    case EnterCode(_, seller, _, _) => seller == escrow.seller
    case Confirm(_, buyer) => buyer == escrow.buyer
    case Dispute(_, buyer, _) => buyer == escrow.buyer
    case _ => true
  }

  /** An order carried out: the invariant's parts, one edge of the machine, and money only where the edge settles. */
  ghost predicate Carried(cfg: Config, s: State, s': State, order: Order, top: IdemKey) {
    && Inside(cfg, s', top)
    && order.escrow < |s.escrows| == |s'.escrows|
    && ByParty(order, s.escrows[order.escrow])
    && Edge(order, s.escrows[order.escrow].status, s'.escrows[order.escrow].status)
    && (forall e :: 0 <= e < |s.escrows| && e != order.escrow ==> s'.escrows[e] == s.escrows[e])
    && (s'.escrows[order.escrow].status == s.escrows[order.escrow].status
        || Unsettled(s'.escrows[order.escrow].status) ==>
          s'.accounts == s.accounts && s'.transfers == s.transfers)
  }

  /** Rewriting an unsettled escrow's status or attempts leaves the agreement with its hold alone. */
  lemma RelabelKeeps(s: State, id: nat, row: Escrow)
    requires EscrowsOk(s.accounts, s.transfers, s.escrows) && id < |s.escrows|
    requires Unsettled(s.escrows[id].status) && Unsettled(row.status)
    requires row == s.escrows[id].(status := row.status, codeAttempts := row.codeAttempts,
                                   codeLockedUntil := row.codeLockedUntil)
    ensures EscrowsOk(s.accounts, s.transfers, s.escrows[id := row])
  {
    var escrows := s.escrows[id := row];
    forall e | 0 <= e < |escrows|
      ensures EscrowOk(s.accounts, s.transfers, escrows[e])
    {
      assert EscrowOk(s.accounts, s.transfers, s.escrows[e]);
    }
    forall e, f | 0 <= e < f < |escrows|
      ensures escrows[e].hold != escrows[f].hold
    {
      assert s.escrows[e].hold != s.escrows[f].hold;
    }
  }

  /** Tasks after a relabelling that schedules what `DELIVERED` needs. */
  lemma RelabelTasks(s: State, id: nat, row: Escrow, due: Time)
    requires TasksOk(s.transfers, s.escrows, s.tasks) && id < |s.escrows|
    ensures row.status == s.escrows[id].status ==> TasksOk(s.transfers, s.escrows[id := row], s.tasks)
    ensures s.escrows[id].status == AwaitingShipment && row.status == Shipped ==>
      TasksOk(s.transfers, s.escrows[id := row], s.tasks)
    ensures row.status == Disputed ==> TasksOk(s.transfers, s.escrows[id := row], Cancel(s.tasks, AutoRelease(id)))
    ensures s.escrows[id].status == Shipped && row.status == Delivered ==>
      TasksOk(s.transfers, s.escrows[id := row], Schedule(s.tasks, AutoRelease(id), due))
    ensures s.escrows[id].status == Shipped && row.status == Delivered ==>
      TasksOnceSettled(s.(escrows := s.escrows[id := row]), id)
  {
    var escrows := s.escrows[id := row];
    forall key | key in s.tasks
      ensures TaskOk(s.transfers, s.escrows, key, s.tasks[key])
    {
    }
    if row.status == Disputed {
      assert TasksOk(s.transfers, escrows, s.tasks) by {
        assert forall key :: key in s.tasks ==> TaskOk(s.transfers, escrows, key, s.tasks[key]);
      }
      CancelKeepsTasks(s.transfers, escrows, s.tasks, AutoRelease(id));
    }
    if s.escrows[id].status == Shipped && row.status == Delivered {
      assert AutoRelease(id) !in s.tasks;
      var relaxed := escrows[id := row.(status := Released)];
      assert forall key :: key in s.tasks ==> TaskOk(s.transfers, relaxed, key, s.tasks[key]);
    }
  }

  /** Orders that only relabel: the books are untouched. */
  lemma RelabelledKeeps(cfg: Config, s: State, id: nat, row: Escrow, tasks: map<TaskKey, Task>, top: IdemKey)
    requires Inside(cfg, s, top) && id < |s.escrows|
    requires Unsettled(s.escrows[id].status) && Unsettled(row.status)
    requires row == s.escrows[id].(status := row.status, codeAttempts := row.codeAttempts,
                                   codeLockedUntil := row.codeLockedUntil)
    requires TasksOk(s.transfers, s.escrows[id := row], tasks)
    ensures Inside(cfg, s.(escrows := s.escrows[id := row], tasks := tasks), top)
  {
    hide Conserved, EscrowsOk, RequestsOk, TasksOk, IdemOkBut, Extends;
    var s' := s.(escrows := s.escrows[id := row], tasks := tasks);
    RelabelKeeps(s, id, row);
    ConservedButEscrows(cfg, s, s');
    EscrowExtends(s, s');
    ExtendKeepsKeys(s, s', {top});
  }

  lemma InsideSettling(cfg: Config, s: State, id: nat, top: IdemKey)
    requires Inside(cfg, s, top) && id < |s.escrows| && top.key.ClientKey?
    ensures BeforeSettling(cfg, s, id, {top})
  {
    SettlingNeedsNoTask(s, id);
  }

  lemma ReleaseOrder(cfg: Config, s: State, now: Time, id: nat, actor: UserId, top: IdemKey)
    requires Wired(cfg) && Inside(cfg, s, top) && id < |s.escrows| && top.key.ClientKey?
      && Unsettled(s.escrows[id].status)
    ensures var r := Release(cfg, s, now, id, actor);
      && (r.Ok? <==> Payable(s, id, RELEASE))
      && (r.Ok? ==>
            && Inside(cfg, r.value.state, top) && Settles(cfg, s, r.value.state, id, Released, {top})
            && SignedBy(r.value.state, id, actor))
  {
    hide Conserved, Linked, IdemOkBut, Execute, BeforeSettling;
    InsideSettling(cfg, s, id, top);
    ReleaseKeeps(cfg, s, now, id, actor, {top});
  }

  lemma ShipKeeps(cfg: Config, s: State, order: Order, top: IdemKey)
    requires Inside(cfg, s, top) && order.Ship? && ShipOnce(s, order.escrow, order.seller).Ok?
    ensures Carried(cfg, s, ShipOnce(s, order.escrow, order.seller).value.state, order, top)
  {
    hide Conserved, EscrowsOk, RequestsOk, TasksOk, IdemOkBut;
    var row := s.escrows[order.escrow].(status := Shipped);
    RelabelTasks(s, order.escrow, row, 0);
    RelabelledKeeps(cfg, s, order.escrow, row, s.tasks, top);
  }

  lemma DisputeKeeps(cfg: Config, s: State, order: Order, top: IdemKey)
    requires Inside(cfg, s, top) && order.Dispute? && DisputeOnce(s, order.escrow, order.buyer).Ok?
    ensures Carried(cfg, s, DisputeOnce(s, order.escrow, order.buyer).value.state, order, top)
  {
    hide Conserved, EscrowsOk, RequestsOk, TasksOk, IdemOkBut, Cancel;
    var row := s.escrows[order.escrow].(status := Disputed);
    RelabelTasks(s, order.escrow, row, 0);
    RelabelledKeeps(cfg, s, order.escrow, row, Cancel(s.tasks, AutoRelease(order.escrow)), top);
  }

  lemma CodeKeeps(cfg: Config, s: State, now: Time, order: Order, top: IdemKey)
    requires Wired(cfg) && Inside(cfg, s, top) && top.key.ClientKey?
    requires order.EnterCode? && CodeOnce(cfg, s, now, order.escrow, order.seller, order.correct).Ok?
    ensures Carried(cfg, s, CodeOnce(cfg, s, now, order.escrow, order.seller, order.correct).value.state, order, top)
  {
    hide Conserved, EscrowsOk, RequestsOk, TasksOk, IdemOkBut, Release, Linked;
    var id, escrow := order.escrow, s.escrows[order.escrow];
    if escrow.codeLockedUntil.Some? && now < escrow.codeLockedUntil.value {
    } else if order.correct {
      ReleaseOrder(cfg, s, now, id, order.seller, top);
    } else {
      assert Linked(s);
      var row := CodeFailure(cfg, s, now, id).state.escrows[id];
      assert TasksOk(s.transfers, s.escrows, s.tasks) by { LinkedTasks(s); }
      RelabelTasks(s, id, row, 0);
      RelabelledKeeps(cfg, s, id, row, s.tasks, top);
    }
  }

  lemma LinkedTasks(s: State)
    requires Linked(s)
    ensures TasksOk(s.transfers, s.escrows, s.tasks)
  {
  }

  lemma ConfirmKeeps(cfg: Config, s: State, now: Time, order: Order, top: IdemKey)
    requires Wired(cfg) && Inside(cfg, s, top) && top.key.ClientKey?
    requires order.Confirm? && ConfirmOnce(cfg, s, now, order.escrow, order.buyer).Ok?
    ensures Carried(cfg, s, ConfirmOnce(cfg, s, now, order.escrow, order.buyer).value.state, order, top)
  {
    hide Conserved, Linked, IdemOkBut, Release;
    ReleaseOrder(cfg, s, now, order.escrow, order.buyer, top);
  }

  lemma DeliverKeeps(cfg: Config, s: State, now: Time, order: Order, top: IdemKey)
    requires Wired(cfg) && Inside(cfg, s, top) && top.key.ClientKey?
    requires order.Deliver? && order.escrow < |s.escrows| && DeliverOnce(cfg, s, now, order.escrow,
      order.releaseNow).Ok?
    ensures Carried(cfg, s, DeliverOnce(cfg, s, now, order.escrow, order.releaseNow).value.state, order, top)
  {
    hide Conserved, EscrowsOk, RequestsOk, TasksOk, IdemOkBut, Release, Schedule, Extends, TasksOnceSettled;
    var id, escrow := order.escrow, s.escrows[order.escrow];
    if escrow.status == Shipped {
      var row := escrow.(status := Delivered);
      var s1 := WithEscrow(s, id, row);
      var due := now + cfg.autoReleaseDelay;
      RelabelTasks(s, id, row, due);
      if order.releaseNow {
        RelabelKeeps(s, id, row);
        ConservedButEscrows(cfg, s, s1);
        EscrowExtends(s, s1);
        ExtendKeepsKeys(s, s1, {top});
        ReleaseKeeps(cfg, s1, now, id, escrow.seller, {top});
      } else {
        RelabelledKeeps(cfg, s, id, row, Schedule(s.tasks, AutoRelease(id), due), top);
      }
    }
  }

  /** Closing an account moves no money and breaks no link. */
  lemma BanKeeps(cfg: Config, s: State, buyer: UserId, top: IdemKey)
    requires Inside(cfg, s, top)
    ensures Inside(cfg, Ban(s, buyer), top)
    ensures Ban(s, buyer) == s.(accounts := Ban(s, buyer).accounts)
  {
    hide Sum, RunningBalances, EscrowOk, RequestOk, TaskOk, KeyOk, LoanOk, LegsOk, DailyOk, TasksOk, IdemOkBut,
         Backed;
    var s' := Ban(s, buyer);
    assert AccountsKept(s.accounts, s'.accounts);
    BackedStands(s, s');
    EscrowsKept(s.accounts, s'.accounts, s.transfers, s.transfers, |s.transfers|, s.escrows);
    RequestsKept(s.accounts, s'.accounts, s.transfers, s.transfers, |s.transfers|, s.requests);
    assert AccountsOk(s'.accounts) by {
      forall i | 0 <= i < |s'.accounts|
        ensures AccountOk(i, s'.accounts[i])
      {
        assert AccountOk(i, s.accounts[i]);
      }
    }
    BanKeepsTransfers(s, s');
    assert PoolsWhole(s'.accounts, s'.transfers, s'.pools, s'.loans) by {
      forall p | 0 <= p < |s.pools|
        ensures PoolGap(s'.accounts, s'.transfers, s'.pools, s'.loans, p) == 0
      {
        assert PoolGap(s.accounts, s.transfers, s.pools, s.loans, p) == 0;
      }
    }
    ExtendKeepsKeys(s, s', {top});
  }

  lemma BanKeepsTransfers(s: State, s': State)
    requires TransfersOk(s.accounts, s.transfers) && AccountsKept(s.accounts, s'.accounts)
    requires s'.transfers == s.transfers
    ensures TransfersOk(s'.accounts, s'.transfers)
  {
    forall i | 0 <= i < |s.transfers|
      ensures TransferOk(s'.accounts, s'.transfers, i)
    {
      assert TransferOk(s.accounts, s.transfers, i);
    }
  }

  lemma ResolveKeeps(cfg: Config, s: State, now: Time, order: Order, top: IdemKey)
    requires Wired(cfg) && Inside(cfg, s, top) && top.key.ClientKey?
    requires order.Resolve? && ResolveOnce(cfg, s, now, order.escrow, order.release, order.banBuyer).Ok?
    ensures Carried(cfg, s, ResolveOnce(cfg, s, now, order.escrow, order.release, order.banBuyer).value.state, order,
                    top)
  {
    hide Conserved, Linked, IdemOkBut, Release, Refund, BeforeSettling, Ban;
    var id := order.escrow;
    if order.release {
      ReleaseOrder(cfg, s, now, id, s.escrows[id].seller, top);
      BanKeeps(cfg, Release(cfg, s, now, id, s.escrows[id].seller).value.state, s.escrows[id].buyer, top);
    } else {
      InsideSettling(cfg, s, id, top);
      RefundKeeps(cfg, s, now, id, {top});
    }
  }

  /** Every order, from reservation to response. */
  lemma OrderKeeps(cfg: Config, s: State, now: Time, order: Order, top: IdemKey)
    requires Wired(cfg) && Inside(cfg, s, top) && top.key.ClientKey?
    requires order.Deliver? ==> order.escrow < |s.escrows|
    requires ApplyOrder(cfg, s, now, order).Ok?
    ensures Carried(cfg, s, ApplyOrder(cfg, s, now, order).value.state, order, top)
  {
    hide Carried, Inside, ShipOnce, CodeOnce, ConfirmOnce, DisputeOnce, DeliverOnce, ResolveOnce;
    match order
    case Ship(_, _, _, _) => ShipKeeps(cfg, s, order, top);
    case EnterCode(_, _, _, _) => CodeKeeps(cfg, s, now, order, top);
    case Confirm(_, _) => ConfirmKeeps(cfg, s, now, order, top);
    case Dispute(_, _, _) => DisputeKeeps(cfg, s, order, top);
    case Deliver(_, _, _, _) => DeliverKeeps(cfg, s, now, order, top);
    case Resolve(_, _, _, _) => ResolveKeeps(cfg, s, now, order, top);
  }

  /** An order that is not a replay follows one edge of the machine; every order keeps the invariant. */
  lemma PerformKeeps(cfg: Config, s: State, now: Time, order: Order, key: nat)
    requires Wired(cfg) && Inv(cfg, s) && Perform(cfg, s, now, order, key).Ok?
    ensures var r := Perform(cfg, s, now, order, key).value;
      && Inv(cfg, r.state)
      && (r.replayed ==> r.state == s)
      && (!r.replayed ==>
            && order.escrow < |s.escrows| == |r.state.escrows|
            && ByParty(order, s.escrows[order.escrow])
            && Edge(order, s.escrows[order.escrow].status, r.state.escrows[order.escrow].status)
            && (forall e :: 0 <= e < |s.escrows| && e != order.escrow ==> r.state.escrows[e] == s.escrows[e])
            && (r.state.escrows[order.escrow].status == s.escrows[order.escrow].status
                || Unsettled(r.state.escrows[order.escrow].status) ==>
                  r.state.accounts == s.accounts && r.state.transfers == s.transfers))
  {
    hide Conserved, Linked, IdemOkBut, Inv, IdemOk, KeyOk, ApplyOrder, Edge, Unsettled, ByParty;
    var (top, fp) := OrderKey(s, order, key);
    if top !in s.idem {
      InvParts(cfg, s);
      var s0 := Begin(s, top, fp);
      BeginKeepsKeys(s, top, fp);
      ConservedButKeys(cfg, s, s0);
      OrderKeeps(cfg, s0, now, order, top);
      var out := ApplyOrder(cfg, s0, now, order).value;
      assert KeyOk(out.state, top, fp) by { SendKeyOk(out.state, top, fp); }
      CompleteKeepsKeys(out.state, top, fp, out.body);
      var s' := Complete(out.state, top, fp, out.body);
      ConservedButKeys(cfg, out.state, s');
      InvParts(cfg, s');
    }
  }

  /** The scheduler's handler leaves no delivered escrow behind; it fails only when the seller cannot be paid. */
  lemma AutoReleaseKeeps(cfg: Config, s: State, now: Time, id: nat)
    requires Wired(cfg) && Inv(cfg, s)
    ensures var r := AutoReleaseDue(cfg, s, now, id);
      && (r.Ok? <==> (id < |s.escrows| && s.escrows[id].status == Delivered ==> Payable(s, id, RELEASE)))
      && (r.Ok? ==>
            && Inv(cfg, r.value)
            && (id < |r.value.escrows| ==> r.value.escrows[id].status != Delivered)
            && (forall k :: k != AutoRelease(id) ==>
                  (k in r.value.tasks <==> k in s.tasks) && (k in s.tasks ==> r.value.tasks[k] == s.tasks[k]))
            && (AutoRelease(id) in s.tasks ==> AutoRelease(id) in r.value.tasks)
            && |r.value.escrows| == |s.escrows|
            && (forall e :: 0 <= e < |s.escrows| && e != id ==> r.value.escrows[e] == s.escrows[e])
            && (id < |s.escrows| && s.escrows[id].status == Delivered ==>
                  r.value.escrows[id].status == Released && SignedBy(r.value, id, s.escrows[id].seller))
            && (id < |s.escrows| && s.escrows[id].status != Delivered ==> r.value == s))
  {
    hide Conserved, IdemOkBut, Inv, IdemOk, Release, Payable, EscrowsOk, RequestsOk, TasksOk, TasksOnceSettled;
    InvParts(cfg, s);
    if id < |s.escrows| && s.escrows[id].status == Delivered {
      NoOpenKeys(s);
      SettlingNeedsNoTask(s, id);
      ReleaseKeeps(cfg, s, now, id, s.escrows[id].seller, {});
      var r := AutoReleaseDue(cfg, s, now, id);
      if r.Ok? {
        NoOpenKeys(r.value);
        InvParts(cfg, r.value);
      }
    }
  }
}
