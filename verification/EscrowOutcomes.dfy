/** When each escrow order goes through, what it answers, and whom it may lock out. */
module EscrowOutcomes {
  import opened Kernel
  import opened Accounts
  import opened Policies
  import opened Tables
  import opened Idempotency
  import opened Scheduling
  import opened Invariants
  import opened Settling
  import opened Keeping
  import opened Payments
  import opened Sending
  import opened Escrows
  import opened SafePay
  import CodeRuns
  import Conservation
  import Growth
  import Holds
  import Transfers

  /** The user has an account that money can be paid into. */
  predicate CanReceive(s: State, user: UserId) {
    FindUser(s.accounts, user).Some? && s.accounts[FindUser(s.accounts, user).value].status == Active
  }

  predicate CodeIsLocked(escrow: Escrow, now: Time) {
    escrow.codeLockedUntil.Some? && now < escrow.codeLockedUntil.value
  }

  /** Everything an order under a new key needs: the party, the status, and a beneficiary who can be paid. */
  predicate MayOrder(s: State, now: Time, order: Order) {
    && order.escrow < |s.escrows|
    && ByParty(order, s.escrows[order.escrow])
    && var escrow := s.escrows[order.escrow];
       match order
       case Ship(_, _, _, _) => escrow.status == AwaitingShipment
       case EnterCode(_, _, _, correct) =>
         && escrow.status in {AwaitingShipment, Shipped, Delivered}
         && (CodeIsLocked(escrow, now) || !correct || CanReceive(s, escrow.seller))
       case Confirm(_, _) => escrow.status in {Shipped, Delivered} && CanReceive(s, escrow.seller)
       case Dispute(_, _, _) => escrow.status in {AwaitingShipment, Shipped, Delivered}
       case Deliver(_, _, _, releaseNow) =>
         || (escrow.status == Shipped && (releaseNow ==> CanReceive(s, escrow.seller)))
         || escrow.status in {Disputed, Released, EscrowRefunded}
       case Resolve(_, release, _, _) =>
         escrow.status == Disputed && CanReceive(s, if release then escrow.seller else escrow.buyer)
  }

  /** The hold's parties are the escrow's. */
  lemma PayableMeans(cfg: Config, s: State, id: nat)
    requires Conserved(cfg, s) && EscrowsOk(s.accounts, s.transfers, s.escrows) && id < |s.escrows|
    ensures Payable(s, id, RELEASE) <==> CanReceive(s, s.escrows[id].seller)
    ensures Payable(s, id, REFUND) <==> CanReceive(s, s.escrows[id].buyer)
  {
    hide Conserved, FindUser;
    ConservedAccounts(cfg, s);
    assert EscrowOk(s.accounts, s.transfers, s.escrows[id]);
    var h := s.transfers[s.escrows[id].hold];
    assert TransferOk(s.accounts, s.transfers, s.escrows[id].hold);
    OwnAccount(s.accounts, h.intended.value, s.escrows[id].seller);
    OwnAccount(s.accounts, h.sender, s.escrows[id].buyer);
  }

  lemma OwnAccount(accounts: seq<Account>, a: AccountId, user: UserId)
    requires AccountsOk(accounts) && IsKind(accounts, a, UserAccount) && accounts[a].owner == Some(user)
    ensures FindUser(accounts, user) == Some(a)
  {
    hide AccountOk;
    assert IsPrimary(accounts[a], user);
  }

  /** Inside its transaction an order succeeds exactly when it may be given. */
  lemma OrderOutcome(cfg: Config, s: State, now: Time, order: Order, top: IdemKey)
    requires Wired(cfg) && Inside(cfg, s, top) && top.key.ClientKey?
    requires order.Deliver? ==> order.escrow < |s.escrows|
    ensures ApplyOrder(cfg, s, now, order).Ok? <==> MayOrder(s, now, order)
  {
    hide Conserved, IdemOkBut, Release, Refund, Ban, FindUser, TasksOk, RequestsOk, EscrowsOk, Schedule, Cancel,
         CanReceive;
    var id := order.escrow;
    if id < |s.escrows| {
      PayableMeans(cfg, s, id);
      if s.escrows[id].status in {AwaitingShipment, Shipped, Delivered, Disputed} {
        hide Inside, Linked, Payable;
        OpenOrderOutcome(cfg, s, now, order, top);
      }
    }
  }

  lemma OpenOrderOutcome(cfg: Config, s: State, now: Time, order: Order, top: IdemKey)
    requires Wired(cfg) && Inside(cfg, s, top) && top.key.ClientKey?
    requires order.escrow < |s.escrows|
    requires s.escrows[order.escrow].status in {AwaitingShipment, Shipped, Delivered, Disputed}
    requires Payable(s, order.escrow, RELEASE) <==> CanReceive(s, s.escrows[order.escrow].seller)
    requires Payable(s, order.escrow, REFUND) <==> CanReceive(s, s.escrows[order.escrow].buyer)
    ensures ApplyOrder(cfg, s, now, order).Ok? <==> MayOrder(s, now, order)
  {
    hide Conserved, Linked, IdemOkBut, Release, Refund, Ban, Schedule, Cancel, CanReceive, BeforeSettling, Settles,
         Payable, Inside;
    var id := order.escrow;
    match order
    case EnterCode(_, seller, _, _) => ReleaseOrder(cfg, s, now, id, seller, top);
    case Confirm(_, buyer) => ReleaseOrder(cfg, s, now, id, buyer, top);
    case Deliver(_, _, _, releaseNow) =>
      if s.escrows[id].status == Shipped {
        DeliveredRelease(cfg, s, now, id, top);
      }
    case Resolve(_, release, _, _) =>
      ReleaseOrder(cfg, s, now, id, s.escrows[id].seller, top);
      if s.escrows[id].status == Disputed {
        InsideSettling(cfg, s, id, top);
        RefundKeeps(cfg, s, now, id, {top});
      }
    case _ =>
  }

  /** The release that follows a delivery in the same order. */
  lemma DeliveredRelease(cfg: Config, s: State, now: Time, id: nat, top: IdemKey)
    requires Wired(cfg) && Inside(cfg, s, top) && top.key.ClientKey? && id < |s.escrows|
    requires s.escrows[id].status == Shipped
    ensures var s1 := WithEscrow(s, id, s.escrows[id].(status := Delivered));
      && (Release(cfg, s1, now, id, s.escrows[id].seller).Ok? <==> Payable(s, id, RELEASE))
      && (Release(cfg, s1, now, id, s.escrows[id].seller).Ok? ==>
            SignedBy(Release(cfg, s1, now, id, s.escrows[id].seller).value.state, id, s.escrows[id].seller))
  {
    hide Conserved, EscrowsOk, RequestsOk, TasksOk, IdemOkBut, Release, Schedule, TasksOnceSettled, Settles,
         Conservation.Extends;
    var row := s.escrows[id].(status := Delivered);
    var s1 := WithEscrow(s, id, row);
    RelabelTasks(s, id, row, 0);
    RelabelKeeps(s, id, row);
    ConservedButEscrows(cfg, s, s1);
    EscrowExtends(s, s1);
    ExtendKeepsKeys(s, s1, {top});
    ReleaseKeeps(cfg, s1, now, id, s.escrows[id].seller, {top});
  }

  /** The order is not a retry. */
  predicate NewOrder(s: State, order: Order, key: nat) {
    (order.Deliver? ==> order.escrow < |s.escrows|) ==> OrderKey(s, order, key).0 !in s.idem
  }

  /** An order under a new key goes through exactly when its party, status and beneficiary allow it. */
  lemma OrderSucceeds(cfg: Config, s: State, now: Time, order: Order, key: nat)
    requires Wired(cfg) && Inv(cfg, s) && NewOrder(s, order, key)
    ensures Perform(cfg, s, now, order, key).Ok? <==> MayOrder(s, now, order)
  {
    hide Conserved, Linked, IdemOkBut, Inv, IdemOk, KeyOk, ApplyOrder, FindUser, Conservation.Extends;
    if order.Deliver? ==> order.escrow < |s.escrows| {
      InvParts(cfg, s);
      var (top, fp) := OrderKey(s, order, key);
      var s0 := Begin(s, top, fp);
      BeginKeepsKeys(s, top, fp);
      ConservedButKeys(cfg, s, s0);
      OrderOutcome(cfg, s0, now, order, top);
      assert MayOrder(s0, now, order) <==> MayOrder(s, now, order);
    }
  }

  // -- answers ----------------------------------------------------------------

  lemma SettleKeepsShape(cfg: Config, s: State, now: Time, hold: TransferId, from: TransferStatus, to: TransferStatus,
                         beneficiary: AccountId, holding: AccountId, amount: int, kind: Kind, actor: UserId)
    ensures var r := Holds.Settle(cfg, s, now, hold, from, to, beneficiary, holding, amount, kind, actor);
      r.Ok? ==> SameShape(s.accounts, r.value.state.accounts) && r.value.state.tasks == s.tasks
  {
    hide Transfers.Execute;
    if hold < |s.transfers| {
      Growth.ExecuteFramed(cfg, Holds.Latch(s, hold, to), now,
                           Holds.SettleCommand(hold, to, beneficiary, holding, amount, kind, actor));
    }
  }

  predicate CodeCleared(escrow: Escrow) { escrow.codeAttempts == 0 && escrow.codeLockedUntil == None }

  /** A settlement answers with the leg it recorded on the escrow, cancels the pending task, and locks nobody out. */
  lemma ReleaseAnswers(cfg: Config, s: State, now: Time, id: nat, actor: UserId)
    requires id < |s.escrows|
    ensures var r := Release(cfg, s, now, id, actor);
      r.Ok? ==>
        && SameShape(s.accounts, r.value.state.accounts) && id < |r.value.state.escrows|
        && r.value.state.escrows[id].settlement.Some? && CodeCleared(r.value.state.escrows[id])
        && r.value.body == SettledBody(id, Released, r.value.state.escrows[id].settlement.value, false)
        && r.value.state.tasks == CancelledIfPending(s.tasks, AutoRelease(id))
  {
    hide Holds.Settle;
    var h := s.escrows[id].hold;
    if h < |s.transfers| && s.transfers[h].intended.Some? {
      SettleKeepsShape(cfg, s, now, h, Held, Succeeded, s.transfers[h].intended.value, ESCROW, s.escrows[id].amount,
                       EscrowRelease, actor);
    }
  }

  lemma RefundAnswers(cfg: Config, s: State, now: Time, id: nat)
    requires id < |s.escrows|
    ensures var r := Refund(cfg, s, now, id);
      r.Ok? ==>
        && SameShape(s.accounts, r.value.state.accounts) && id < |r.value.state.escrows|
        && r.value.state.escrows[id].settlement.Some? && CodeCleared(r.value.state.escrows[id])
        && r.value.body == SettledBody(id, EscrowRefunded, r.value.state.escrows[id].settlement.value, false)
        && r.value.state.tasks == s.tasks
  {
    hide Holds.Settle;
    var h := s.escrows[id].hold;
    if h < |s.transfers| {
      SettleKeepsShape(cfg, s, now, h, Held, Refunded, s.transfers[h].sender, ESCROW, s.escrows[id].amount,
                       EscrowRefund,
                       s.escrows[id].buyer);
    }
  }

  /** The task, if it is still pending, is cancelled; nothing else changes. */
  function CancelledIfPending(tasks: map<TaskKey, Task>, key: TaskKey): map<TaskKey, Task> {
    if key in tasks && tasks[key].status == TaskPending
    then tasks[key := Task(TaskCancelled, tasks[key].attempts, tasks[key].dueAt)]
    else tasks
  }

  /** Everything but balances and versions; a closed account is the only change allowed, and only where said so. */
  predicate OnlyCloses(before: seq<Account>, after: seq<Account>, user: UserId, closes: bool) {
    && |before| == |after|
    && (forall i :: 0 <= i < |before| ==>
          && after[i].kind == before[i].kind && after[i].owner == before[i].owner
          && after[i].status == if closes && FindUser(before, user) == Some(i) then Closed else before[i].status)
  }

  /** What an order does to the task queue. */
  function TasksAfter(s: State, order: Order, tasks: map<TaskKey, Task>, due: Time): map<TaskKey, Task>
    requires order.escrow < |s.escrows|
  {
    var key := AutoRelease(order.escrow);
    match order
    case Dispute(_, _, _) => CancelledIfPending(tasks, key)
    case Deliver(_, _, _, releaseNow) =>
      if s.escrows[order.escrow].status != Shipped then tasks
      else if releaseNow then CancelledIfPending(tasks, key)
      else if key in tasks then tasks else tasks[key := Task(TaskPending, 0, due)]
    case Confirm(_, _) => CancelledIfPending(tasks, key)
    case Resolve(_, release, _, _) => if release then CancelledIfPending(tasks, key) else tasks
    case _ => tasks
  }

  /** The answer an order gives, read off the escrow it leaves. */
  predicate Truthful(order: Order, escrow: Escrow, body: Body, due: Time) {
    match body
    case EscrowStatusBody(id, status) => id == order.escrow && status == escrow.status
    case CodeRejectedBody(id, status, _, _) => id == order.escrow && status == escrow.status && order.EnterCode?
    case SettledBody(id, status, leg, banned) =>
      && id == order.escrow && status == escrow.status && Some(leg) == escrow.settlement && CodeCleared(escrow)
      && banned == (order.Resolve? && order.release && order.banBuyer)
    case DeliveredBody(id, at) => id == order.escrow && order.Deliver? && !order.releaseNow && at == due
    case _ => false
  }

  /**
   * An order answers with the state it leaves, closes at most the banned buyer's account, and leaves the task queue
   * as its kind requires: a scheduled release is due a full delay after the delivery.
   */
  lemma OrderAnswers(cfg: Config, s: State, now: Time, order: Order)
    requires order.escrow < |s.escrows| && ApplyOrder(cfg, s, now, order).Ok?
    ensures var out := ApplyOrder(cfg, s, now, order).value;
      var e := order.escrow;
      && e < |out.state.escrows|
      && Truthful(order, out.state.escrows[e], out.body, now + cfg.autoReleaseDelay)
      && OnlyCloses(s.accounts, out.state.accounts, s.escrows[e].buyer,
                    order.Resolve? && order.release && order.banBuyer)
      && (order.EnterCode? ==>
            out.state.tasks == if out.body.SettledBody? then CancelledIfPending(s.tasks, AutoRelease(e)) else s.tasks)
      && (!order.EnterCode? ==> out.state.tasks == TasksAfter(s, order, s.tasks, now + cfg.autoReleaseDelay))
  {
    hide Release, Refund, FindUser;
    var id := order.escrow;
    match order
    case EnterCode(_, seller, _, _) =>
      ReleaseAnswers(cfg, s, now, id, seller);
      CodeRuns.ReleaseSettles(cfg, s, now, id, seller);
    case Confirm(_, buyer) =>
      ReleaseAnswers(cfg, s, now, id, buyer);
      CodeRuns.ReleaseSettles(cfg, s, now, id, buyer);
    case Deliver(_, _, _, _) =>
      var s1 := WithEscrow(s, id, s.escrows[id].(status := Delivered));
      ReleaseAnswers(cfg, s1, now, id, s.escrows[id].seller);
      CodeRuns.ReleaseSettles(cfg, s1, now, id, s.escrows[id].seller);
    case Resolve(_, release, _, banBuyer) => ResolveAnswers(cfg, s, now, order);
    case _ =>
  }

  lemma ResolveAnswers(cfg: Config, s: State, now: Time, order: Order)
    requires order.Resolve? && order.escrow < |s.escrows| && ApplyOrder(cfg, s, now, order).Ok?
    ensures var out := ApplyOrder(cfg, s, now, order).value;
      var e := order.escrow;
      && e < |out.state.escrows|
      && Truthful(order, out.state.escrows[e], out.body, now + cfg.autoReleaseDelay)
      && OnlyCloses(s.accounts, out.state.accounts, s.escrows[e].buyer, order.release && order.banBuyer)
      && out.state.tasks == TasksAfter(s, order, s.tasks, now + cfg.autoReleaseDelay)
  {
    hide Release, Refund, FindUser;
    var id := order.escrow;
    if order.release {
      ReleaseAnswers(cfg, s, now, id, s.escrows[id].seller);
      CodeRuns.ReleaseSettles(cfg, s, now, id, s.escrows[id].seller);
      var released := Release(cfg, s, now, id, s.escrows[id].seller).value.state;
      SameUserFound(s.accounts, released.accounts, s.escrows[id].buyer);
    } else {
      RefundAnswers(cfg, s, now, id);
      CodeRuns.RefundSettles(cfg, s, now, id);
    }
  }

  lemma {:induction false} SameUserFound(before: seq<Account>, after: seq<Account>, user: UserId)
    requires SameShape(before, after)
    ensures FindUser(after, user) == FindUser(before, user)
  {
    if before != [] {
      SameUserFound(before[..|before| - 1], after[..|after| - 1], user);
    }
  }

  /** Who stands behind the leg an order settles an escrow with. */
  function Signer(order: Order, escrow: Escrow): UserId {
    match order
    case Confirm(_, _) => escrow.buyer
    case Resolve(_, release, _, _) => if release then escrow.seller else escrow.buyer
    case _ => escrow.seller
  }

  /** An order that settles its escrow does so in the name of the party it belongs to. */
  lemma OrderSigned(cfg: Config, s: State, now: Time, order: Order, top: IdemKey)
    requires Wired(cfg) && Inside(cfg, s, top) && top.key.ClientKey?
    requires order.escrow < |s.escrows| && Unsettled(s.escrows[order.escrow].status)
    requires ApplyOrder(cfg, s, now, order).Ok?
    ensures var s' := ApplyOrder(cfg, s, now, order).value.state;
      order.escrow < |s'.escrows| && !Unsettled(s'.escrows[order.escrow].status) ==>
        SignedBy(s', order.escrow, Signer(order, s.escrows[order.escrow]))
  {
    hide Conserved, Linked, IdemOkBut, Release, Refund, Schedule, Cancel, FindUser, BeforeSettling, Settles, Payable,
         Inside;
    var id := order.escrow;
    match order
    case EnterCode(_, seller, _, _) => ReleaseOrder(cfg, s, now, id, seller, top);
    case Confirm(_, buyer) => ReleaseOrder(cfg, s, now, id, buyer, top);
    case Deliver(_, _, _, releaseNow) =>
      if s.escrows[id].status == Shipped {
        DeliveredRelease(cfg, s, now, id, top);
      }
    case Resolve(_, release, _, _) =>
      ReleaseOrder(cfg, s, now, id, s.escrows[id].seller, top);
      InsideSettling(cfg, s, id, top);
      RefundKeeps(cfg, s, now, id, {top});
    case _ =>
  }
}
