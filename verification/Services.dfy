/** application/holding.py and application/undo.py. */
module Holds {
  import opened Kernel
  import opened Accounts
  import opened Policies
  import opened Tables
  import opened Idempotency
  import opened Transfers
  import opened Scheduling

  /** A command that ran to completion, or replayed a stored response. */
  datatype Reply = Reply(state: State, body: Body, replayed: bool)

  const UNDO_WINDOW: int := 10

  function HoldCommand(actor: UserId, payer: AccountId, holding: AccountId, amount: int, kind: Kind,
                       pending: TransferStatus, key: IdemKey, intended: AccountId): TransferCommand {
    TransferCommand(actor, payer, holding, amount, key, HoldPayload(payer, holding, amount, kind),
                    kind, pending, None, Some(intended), true)
  }

  /** `try_transition_status`, when its row count is 1. */
  function Latch(s: State, hold: TransferId, to: TransferStatus): State
    requires hold < |s.transfers|
  {
    s.(transfers := s.transfers[hold := s.transfers[hold].(status := to)])
  }

  function SettleCommand(hold: TransferId, to: TransferStatus, beneficiary: AccountId, holding: AccountId,
                         amount: int, kind: Kind, actor: UserId): TransferCommand {
    TransferCommand(actor, holding, beneficiary, amount,
                    IdemKey(actor, InternalSettle(kind), SettleKey(hold, to)),
                    OutcomePayload(hold, to), kind, Succeeded, Some(hold), None, false)
  }

  /** `HoldingService.settle`: latch first, then pay. */
  function Settle(cfg: Config, s: State, now: Time, hold: TransferId, from: TransferStatus, to: TransferStatus,
                  beneficiary: AccountId, holding: AccountId, amount: int, kind: Kind,
                      actor: UserId): Result<Executed> {
    if hold >= |s.transfers| || s.transfers[hold].status != from then Err(StateConflict)
    else Execute(cfg, Latch(s, hold, to), now, SettleCommand(hold, to, beneficiary, holding, amount, kind, actor))
  }

  /** `UndoableTransferService.send`. */
  function UndoableSend(cfg: Config, s: State, now: Time, actor: UserId, sender: AccountId, receiver: AccountId,
                        amount: int, key: IdemKey): Result<Executed> {
    var hold :- Execute(cfg, s, now,
      HoldCommand(actor, sender, PENDING_SETTLEMENT, amount, UndoHold, PendingUndo, key, receiver));
    if hold.result.replayed then Ok(hold)
    else
      var tasks := Schedule(hold.state.tasks, TaskKey(UndoSettleTask, hold.result.transferId), now + UNDO_WINDOW);
      Ok(Executed(hold.state.(tasks := tasks), hold.result))
  }

  /** `UndoableTransferService.undo`. */
  function Undo(cfg: Config, s: State, now: Time, transfer: TransferId, actor: UserId, key: nat): Result<Reply> {
    var idemKey := IdemKey(actor, UndoOf(transfer), ClientKey(key));
    var fingerprint := UndoPayload(transfer);
    var stored :- ReplayBodyOrRaise(Reserve(s.idem, idemKey, fingerprint));
    if stored.Some? then Ok(Reply(s, stored.value, true))
    else
      var s0 := Begin(s, idemKey, fingerprint);
      var _ :- Need(transfer < |s.transfers| && s.transfers[transfer].kind == UndoHold, NotFound);
      var hold := s.transfers[transfer];
      var _ :- Need(hold.status == PendingUndo, StateConflict);
      var _ :- Need(hold.sender < |s.accounts| && s.accounts[hold.sender].owner == Some(actor), NotFound);
      var refund :- Settle(cfg, s0, now, transfer, PendingUndo, Refunded, hold.sender, PENDING_SETTLEMENT,
                           hold.amount, UndoRefund, actor);
      var s1 := refund.state.(tasks := Cancel(refund.state.tasks, TaskKey(UndoSettleTask, transfer)));
      var body := UndoBody(transfer, refund.result.transferId, refund.result.amount, refund.result.receiverAfter);
      Ok(Reply(Complete(s1, idemKey, fingerprint, body), body, false))
  }

  /** `UndoableTransferService.settle`: the scheduler's handler. */
  function SettleUndo(cfg: Config, s: State, now: Time, transfer: TransferId): Result<State> {
    if transfer >= |s.transfers| || s.transfers[transfer].status != PendingUndo then Ok(s)
    else
      var hold := s.transfers[transfer];
      var _ :- Need(hold.intended.Some?, StateConflict);
      var leg :- Settle(cfg, s, now, transfer, PendingUndo, Succeeded, hold.intended.value, PENDING_SETTLEMENT,
                        hold.amount, UndoSettle, hold.initiatedBy);
      Ok(leg.state)
  }
}

/** overdraft/application/service.py and application/open_account.py. */
module SpotMe {
  import opened Kernel
  import opened Queries
  import opened Accounts
  import opened Policies
  import opened Tables
  import opened Idempotency
  import opened Transfers
  import opened Holds

  // -- opening an account ---------------------------------------------------

  function GrantCommand(user: UserId, account: AccountId, amount: int): TransferCommand {
    TransferCommand(user, ISSUANCE, account, amount, IdemKey(user, Transfers, SignupKey(user)),
                    GrantPayload(user, amount), SignupGrant, Succeeded, None, None, false)
  }

  /** `OpenAccountUseCase.execute`: an empty row first, then the grant through the ledger. */
  function OpenAccount(cfg: Config, s: State, now: Time, user: UserId, opening: int): Result<State> {
    var _ :- Need(FindUser(s.accounts, user).None?, Conflict);
    var id := |s.accounts|;
    var s0 := s.(accounts := s.accounts + [Account(Some(user), UserAccount, 0, Active, 0)]);
    if opening <= 0 then Ok(s0)
    else
      var funded :- Execute(cfg, s0, now, GrantCommand(user, id, opening));
      Ok(funded.state)
  }

  // -- sponsor commands -----------------------------------------------------

  function FindPool(pools: seq<Pool>, sponsor: UserId): (r: Option<nat>)
    ensures r.Some? ==> r.value < |pools| && pools[r.value].sponsor == sponsor
    ensures r.None? ==> forall i :: 0 <= i < |pools| ==> pools[i].sponsor != sponsor
  {
    if pools == [] then None
    else
      var n := |pools| - 1;
      if pools[n].sponsor == sponsor then Some(n) else FindPool(pools[..n], sponsor)
  }

  function FundCommand(sponsor: UserId, from: AccountId, pool: nat, account: AccountId, amount: int,
                       key: IdemKey): TransferCommand {
    TransferCommand(sponsor, from, account, amount, key, FundPayload(pool, amount),
                    OverdraftFund, Succeeded, None, None, true)
  }

  /** The rows `create_pool` inserts before it funds the pool. */
  function InsertPool(s: State, sponsor: UserId): State {
    s.(accounts := s.accounts + [Account(Some(sponsor), OverdraftPool, 0, Active, 0)],
       pools := s.pools + [Pool(sponsor, |s.accounts|)])
  }

  function CreatePool(cfg: Config, s: State, now: Time, sponsor: UserId, amount: int, key: nat): Result<Reply> {
    var idemKey := IdemKey(sponsor, PoolsEndpoint, ClientKey(key));
    var fingerprint := PoolPayload(amount);
    var stored :- ReplayBodyOrRaise(Reserve(s.idem, idemKey, fingerprint));
    if stored.Some? then Ok(Reply(s, stored.value, true))
    else
      var s0 := Begin(s, idemKey, fingerprint);
      var _ :- Need(FindPool(s.pools, sponsor).None?, Conflict);
      var from := FindUser(s.accounts, sponsor);
      var _ :- Need(from.Some?, NotFound);
      var pool, account := |s.pools|, |s.accounts|;
      var funding :- Execute(cfg, InsertPool(s0, sponsor), now,
        FundCommand(sponsor, from.value, pool, account, amount, IdemKey(sponsor, InternalFund, PoolFundKey(pool))));
      var body := PoolBody(pool, account, amount, funding.result.transferId);
      Ok(Reply(Complete(funding.state, idemKey, fingerprint, body), body, false))
  }

  /** `fund_pool`; a replay reports the pool's balance of the moment, not the first one. */
  function FundPool(cfg: Config, s: State, now: Time, sponsor: UserId, amount: int, key: nat): Result<Reply> {
    var pool := FindPool(s.pools, sponsor);
    var _ :- Need(pool.Some?, NotFound);
    var from := FindUser(s.accounts, sponsor);
    var _ :- Need(from.Some?, NotFound);
    var account := s.pools[pool.value].account;
    var funding :- Execute(cfg, s, now,
      FundCommand(sponsor, from.value, pool.value, account, amount,
                  IdemKey(sponsor, FundOf(pool.value), ClientKey(key))));
    var balance := if account < |funding.state.accounts| then funding.state.accounts[account].balance else 0;
    Ok(Reply(funding.state, PoolBody(pool.value, account, balance, funding.result.transferId), funding.result.replayed))
  }

  predicate HasGrant(grants: seq<Grant>, pool: nat, user: UserId) {
    exists i :: 0 <= i < |grants| && grants[i].pool == pool && grants[i].beneficiary == user
  }

  /** A closed user's account is closed with them, so the account stands for the user's status. */
  function GrantAccess(cfg: Config, s: State, now: Time, sponsor: UserId, beneficiary: UserId, maxDraw: int,
                       key: nat): Result<Reply> {
    var idemKey := IdemKey(sponsor, GrantsEndpoint, ClientKey(key));
    var fingerprint := AccessPayload(beneficiary, maxDraw);
    var stored :- ReplayBodyOrRaise(Reserve(s.idem, idemKey, fingerprint));
    if stored.Some? then Ok(Reply(s, stored.value, true))
    else
      var pool := FindPool(s.pools, sponsor);
      var _ :- Need(pool.Some?, NotFound);
      var account := FindUser(s.accounts, beneficiary);
      var _ :- Need(account.Some? && s.accounts[account.value].status == Active, NotFound);
      var _ :- Need(beneficiary != sponsor, SelfTransfer);
      var _ :- Need(maxDraw <= cfg.maxDraw, Conflict);
      var _ :- Need(!HasGrant(s.grants, pool.value, beneficiary), Conflict);
      var _ :- Need(maxDraw > 0, InvalidAmount);
      var grant := |s.grants|;
      var s1 := s.(grants := s.grants + [Grant(pool.value, beneficiary, maxDraw, now)]);
      var body := AccessBody(grant, pool.value, beneficiary, maxDraw);
      Ok(Reply(Complete(s1, idemKey, fingerprint, body), body, false))
  }

  // -- send with automatic shortfall ----------------------------------------

  predicate IsUsable(grant: Grant, pools: seq<Pool>, accounts: seq<Account>, user: UserId) {
    && grant.beneficiary == user
    && grant.pool < |pools|
    && pools[grant.pool].account < |accounts|
    && accounts[pools[grant.pool].account].status == Active
  }

  function Usable(pools: seq<Pool>, accounts: seq<Account>, user: UserId): Grant -> bool {
    (grant: Grant) => IsUsable(grant, pools, accounts, user)
  }

  function GrantAge(grants: seq<Grant>): nat -> int {
    (i: nat) => if i < |grants| then grants[i].createdAt else 0
  }

  /** `active_grants_for_borrower`, `ORDER BY created_at, id`. */
  function ActiveGrants(s: State, user: UserId): (ids: seq<nat>)
    ensures Ordered(ids, GrantAge(s.grants))
    ensures forall i: nat :: i in ids <==> i < |s.grants| && IsUsable(s.grants[i], s.pools, s.accounts, user)
  {
    OrderBy(Where(s.grants, Usable(s.pools, s.accounts, user)), GrantAge(s.grants))
  }

  predicate Covers(s: State, grant: nat, shortfall: int)
    requires grant < |s.grants| && s.grants[grant].pool < |s.pools|
    requires s.pools[s.grants[grant].pool].account < |s.accounts|
  {
    shortfall <= s.grants[grant].maxDraw && shortfall <= s.accounts[s.pools[s.grants[grant].pool].account].balance
  }

  predicate NoneCovers(s: State, ids: seq<nat>, shortfall: int) {
    forall i ::
      (&& i in ids && i < |s.grants| && s.grants[i].pool < |s.pools|
       && s.pools[s.grants[i].pool].account < |s.accounts|) ==>
        !Covers(s, i, shortfall)
  }

  /** The first usable grant that covers the shortfall. */
  function FirstCovering(s: State, ids: seq<nat>, shortfall: int): (r: Option<nat>)
    requires forall i :: i in ids ==> i < |s.grants| && s.grants[i].pool < |s.pools|
    requires forall i :: i in ids ==> s.pools[s.grants[i].pool].account < |s.accounts|
    ensures r.Some? ==> r.value in ids && Covers(s, r.value, shortfall)
    ensures r.None? ==> forall i :: i in ids ==> !Covers(s, i, shortfall)
  {
    if ids == [] then None
    else
      assert ids[0] in ids;
      assert forall i :: i in ids <==> i == ids[0] || i in ids[1..];
      if Covers(s, ids[0], shortfall) then Some(ids[0]) else FirstCovering(s, ids[1..], shortfall)
  }

  /** It is the first: no grant before it in the list covers the shortfall. */
  lemma {:induction false} FirstCoveringIsFirst(s: State, ids: seq<nat>, shortfall: int) returns (k: nat)
    requires forall i :: i in ids ==> i < |s.grants| && s.grants[i].pool < |s.pools|
    requires forall i :: i in ids ==> s.pools[s.grants[i].pool].account < |s.accounts|
    requires FirstCovering(s, ids, shortfall).Some?
    ensures k < |ids| && ids[k] == FirstCovering(s, ids, shortfall).value && NoneCovers(s, ids[..k], shortfall)
  {
    hide Covers;
    assert ids[0] in ids;
    if Covers(s, ids[0], shortfall) {
      k := 0;
    } else {
      assert forall i :: i in ids[1..] ==> i in ids;
      var j := FirstCoveringIsFirst(s, ids[1..], shortfall);
      k := j + 1;
      assert ids[..k] == [ids[0]] + ids[1..][..j];
    }
  }

  function DrawCommand(sponsor: UserId, pool: nat, account: AccountId, borrower: UserId, to: AccountId, amount: int,
                       key: nat): TransferCommand {
    TransferCommand(sponsor, account, to, amount, IdemKey(sponsor, InternalDraw, DrawKey(key)),
                    DrawPayload(pool, borrower, amount), OverdraftDraw, Succeeded, None, None, false)
  }

  function CreateLoan(s: State, pool: nat, borrower: UserId, draw: TransferId, amount: int, now: Time): State {
    s.(loans := s.loans + [Loan(pool, borrower, draw, amount, amount, Outstanding, now)])
  }

  datatype Drawn = Drawn(state: State, draw: Option<DrawInfo>)

  /** The shortfall branch of `send`. */
  function DrawShortfall(cfg: Config, s: State, now: Time, user: UserId, sender: AccountId, amount: int,
                         key: nat): Result<Drawn>
    requires sender < |s.accounts|
  {
    var shortfall := Max(0, amount - s.accounts[sender].balance);
    if shortfall == 0 then Ok(Drawn(s, None))
    else
      var selected := FirstCovering(s, ActiveGrants(s, user), shortfall);
      var _ :- Need(selected.Some? && shortfall <= cfg.maxDraw, InsufficientFunds);
      var pool := s.grants[selected.value].pool;
      var draw :- Execute(cfg, s, now,
        DrawCommand(s.pools[pool].sponsor, pool, s.pools[pool].account, user, sender, shortfall, key));
      var loan := |draw.state.loans|;
      Ok(Drawn(CreateLoan(draw.state, pool, user, draw.result.transferId, shortfall, now),
               Some(DrawInfo(loan, pool, draw.result.transferId, shortfall))))
  }

  /** `OverdraftService.send`. */
  function SendFrom(cfg: Config, s: State, now: Time, user: UserId, sender: AccountId, receiver: AccountId,
                    amount: int, key: nat, note: nat): Result<Reply> {
    var idemKey := IdemKey(user, Transfers, ClientKey(key));
    var fingerprint := SendPayload(sender, receiver, amount, note);
    var stored :- ReplayBodyOrRaise(Reserve(s.idem, idemKey, fingerprint));
    if stored.Some? then Ok(Reply(s, stored.value, true))
    else
      var s0 := Begin(s, idemKey, fingerprint);
      var _ :- Need(sender < |s.accounts|, NotFound);
      var _ :- s.accounts[sender].EnsureOwnedBy(user);
      var drawn :- DrawShortfall(cfg, s0, now, user, sender, amount, key);
      var hold :- UndoableSend(cfg, drawn.state, now, user, sender, receiver, amount,
                               IdemKey(user, InternalUndoHold, UndoHoldKey(key)));
      var body := SendBody(hold.result.ToResponse(), hold.result.completedAt + UNDO_WINDOW, drawn.draw);
      Ok(Reply(Complete(hold.state, idemKey, fingerprint, body), body, false))
  }

  /** `POST /transfers`: both parties are resolved to their primary accounts. */
  function Send(cfg: Config, s: State, now: Time, user: UserId, recipient: UserId, amount: int, key: nat,
                note: nat): Result<Reply> {
    var sender := FindUser(s.accounts, user);
    var _ :- Need(sender.Some?, NotFound);
    var receiver := FindUser(s.accounts, recipient);
    var _ :- Need(receiver.Some?, NotFound);
    var _ :- Need(sender != receiver, SelfTransfer);
    SendFrom(cfg, s, now, user, sender.value, receiver.value, amount, key, note)
  }
}

/** safepay/application/service.py and its repository. */
module SafePay {
  import opened Kernel
  import opened Accounts
  import opened Policies
  import opened Tables
  import opened Idempotency
  import opened Transfers
  import opened Holds
  import opened Scheduling

  const CODE_MAX_ATTEMPTS: nat := 5

  function AutoRelease(escrow: nat): TaskKey { TaskKey(AutoReleaseTask, escrow) }

  function WithEscrow(s: State, id: nat, escrow: Escrow): State
    requires id < |s.escrows|
  {
    s.(escrows := s.escrows[id := escrow])
  }

  function Create(cfg: Config, s: State, now: Time, buyer: UserId, seller: UserId, amount: int, description: nat,
                  key: nat): Result<Reply> {
    var payer := FindUser(s.accounts, buyer);
    var payee := FindUser(s.accounts, seller);
    var _ :- Need(payer.Some? && payee.Some?, NotFound);
    var _ :- Need(payer != payee, SelfTransfer);
    var idemKey := IdemKey(buyer, SafePayEndpoint, ClientKey(key));
    var fingerprint := SafePayPayload(seller, amount, description);
    var stored :- ReplayBodyOrRaise(Reserve(s.idem, idemKey, fingerprint));
    if stored.Some? then Ok(Reply(s, stored.value, true))
    else
      var s0 := Begin(s, idemKey, fingerprint);
      var id := |s.escrows|;
      var hold :- Execute(cfg, s0, now,
        HoldCommand(buyer, payer.value, ESCROW, amount, EscrowHold, Held,
                    IdemKey(buyer, InternalSafePayHold, SafePayHoldKey(id)), payee.value));
      var row := Escrow(hold.result.transferId, None, buyer, seller, amount, AwaitingShipment, 0, None);
      var s1 := hold.state.(escrows := hold.state.escrows + [row]);
      var body := EscrowCreatedBody(id, hold.result.transferId, amount);
      Ok(Reply(Complete(s1, idemKey, fingerprint, body), body, false))
  }

  datatype Outcome = Outcome(state: State, body: Body)

  /** `mark_settled`: one guarded update that also clears the delivery-code lockout. */
  function MarkSettled(s: State, id: nat, from: set<EscrowStatus>, to: EscrowStatus,
                       settlement: TransferId): Result<State>
    requires id < |s.escrows|
  {
    var escrow := s.escrows[id];
    if escrow.status in from && escrow.settlement == None
    then Ok(WithEscrow(s, id, escrow.(status := to, settlement := Some(settlement), codeAttempts := 0,
                                      codeLockedUntil := None)))
    else Err(StateConflict)
  }

  /** `_release_locked`: pays the hold's intended receiver. */
  function Release(cfg: Config, s: State, now: Time, id: nat, actor: UserId): Result<Outcome>
    requires id < |s.escrows|
  {
    var escrow := s.escrows[id];
    var _ :- Need(escrow.hold < |s.transfers| && s.transfers[escrow.hold].intended.Some?, StateConflict);
    var leg :- Settle(cfg, s, now, escrow.hold, Held, Succeeded, s.transfers[escrow.hold].intended.value, ESCROW,
                      escrow.amount, EscrowRelease, actor);
    var _ :- Need(id < |leg.state.escrows|, NotFound);
    var s1 :- MarkSettled(leg.state, id, {AwaitingShipment, Shipped, Delivered, Disputed}, Released,
                          leg.result.transferId);
    Ok(Outcome(s1.(tasks := Cancel(s1.tasks, AutoRelease(id))),
               SettledBody(id, Released, leg.result.transferId, false)))
  }

  /** `_refund_locked`: pays the original payer back, only out of a dispute. */
  function Refund(cfg: Config, s: State, now: Time, id: nat): Result<Outcome>
    requires id < |s.escrows|
  {
    var escrow := s.escrows[id];
    var _ :- Need(escrow.hold < |s.transfers|, StateConflict);
    var leg :- Settle(cfg, s, now, escrow.hold, Held, Refunded, s.transfers[escrow.hold].sender, ESCROW,
                      escrow.amount, EscrowRefund, escrow.buyer);
    var _ :- Need(id < |leg.state.escrows|, NotFound);
    var s1 :- MarkSettled(leg.state, id, {Disputed}, EscrowRefunded, leg.result.transferId);
    Ok(Outcome(s1, SettledBody(id, EscrowRefunded, leg.result.transferId, false)))
  }

  // -- one-shot state transitions -------------------------------------------

  function ShipOnce(s: State, id: nat, seller: UserId): Result<Outcome> {
    if id < |s.escrows| && s.escrows[id].seller == seller && s.escrows[id].status == AwaitingShipment
    then Ok(Outcome(WithEscrow(s, id, s.escrows[id].(status := Shipped)), EscrowStatusBody(id, Shipped)))
    else Err(StateConflict)
  }

  function ConfirmOnce(cfg: Config, s: State, now: Time, id: nat, buyer: UserId): Result<Outcome> {
    var _ :- Need(id < |s.escrows| && s.escrows[id].buyer == buyer, NotFound);
    var _ :- Need(s.escrows[id].status in {Shipped, Delivered}, StateConflict);
    Release(cfg, s, now, id, buyer)
  }

  function DisputeOnce(s: State, id: nat, buyer: UserId): Result<Outcome> {
    if id < |s.escrows| && s.escrows[id].buyer == buyer && s.escrows[id].status in {AwaitingShipment, Shipped,
        Delivered}
    then
      var s1 := WithEscrow(s, id, s.escrows[id].(status := Disputed));
      Ok(Outcome(s1.(tasks := Cancel(s1.tasks, AutoRelease(id))), EscrowStatusBody(id, Disputed)))
    else Err(StateConflict)
  }

  /** Closing the banned buyer's primary account. */
  function Ban(s: State, buyer: UserId): State {
    var account := FindUser(s.accounts, buyer);
    if account.None? then s
    else s.(accounts := s.accounts[account.value := s.accounts[account.value].(status := Closed)])
  }

  function ResolveOnce(cfg: Config, s: State, now: Time, id: nat, release: bool, banBuyer: bool): Result<Outcome> {
    var _ :- Need(id < |s.escrows|, NotFound);
    var escrow := s.escrows[id];
    var _ :- Need(escrow.status == Disputed, StateConflict);
    if release then
      var out :- Release(cfg, s, now, id, escrow.seller);
      if banBuyer then
        Ok(Outcome(Ban(out.state, escrow.buyer),
                   match out.body case SettledBody(e, st, leg, _) => SettledBody(e, st, leg, true) case b => b))
      else Ok(out)
    else Refund(cfg, s, now, id)
  }

  /** Records the wrong attempt on the row; a lock is written exactly when the count reaches the maximum. */
  function CodeFailure(cfg: Config, s: State, now: Time, id: nat): Outcome
    requires id < |s.escrows|
  {
    var escrow := s.escrows[id];
    var attempts := escrow.codeAttempts + 1;
    var locked := attempts >= CODE_MAX_ATTEMPTS;
    Outcome(
      WithEscrow(s, id, escrow.(
        codeAttempts := attempts,
        codeLockedUntil := if locked then Some(now + cfg.codeLockPeriod) else None)),
      CodeRejectedBody(id, escrow.status, locked, Some(Max(0, CODE_MAX_ATTEMPTS - attempts))))
  }

  function CodeOnce(cfg: Config, s: State, now: Time, id: nat, seller: UserId, correct: bool): Result<Outcome> {
    var _ :- Need(id < |s.escrows| && s.escrows[id].seller == seller, NotFound);
    var escrow := s.escrows[id];
    var _ :- Need(escrow.status in {AwaitingShipment, Shipped, Delivered}, StateConflict);
    if escrow.codeLockedUntil.Some? && now < escrow.codeLockedUntil.value
    then Ok(Outcome(s, CodeRejectedBody(id, escrow.status, true, None)))
    else if !correct then Ok(CodeFailure(cfg, s, now, id))
    else Release(cfg, s, now, id, seller)
  }

  function DeliverOnce(cfg: Config, s: State, now: Time, id: nat, releaseNow: bool): Result<Outcome>
    requires id < |s.escrows|
  {
    var escrow := s.escrows[id];
    if escrow.status == Shipped then
      var s1 := WithEscrow(s, id, escrow.(status := Delivered));
      if releaseNow then Release(cfg, s1, now, id, escrow.seller)
      else
        var due := now + cfg.autoReleaseDelay;
        Ok(Outcome(s1.(tasks := Schedule(s1.tasks, AutoRelease(id), due)), DeliveredBody(id, due)))
    else if escrow.status in {Released, EscrowRefunded, Disputed}
    then Ok(Outcome(s, EscrowStatusBody(id, escrow.status)))
    else Err(StateConflict)
  }

  // -- commands with a stored response --------------------------------------

  datatype Order =
    | Ship(escrow: nat, seller: UserId, courier: nat, tracking: nat)
    | EnterCode(escrow: nat, seller: UserId, code: nat, correct: bool)
    | Confirm(escrow: nat, buyer: UserId)
    | Dispute(escrow: nat, buyer: UserId, reason: nat)
    | Deliver(escrow: nat, courier: nat, tracking: nat, releaseNow: bool)
    | Resolve(escrow: nat, release: bool, note: nat, banBuyer: bool)

  /** Actor, endpoint and payload each command is reserved under; `courier_delivered` acts for the seller. */
  function OrderKey(s: State, order: Order, key: nat): (IdemKey, Payload)
    requires order.Deliver? ==> order.escrow < |s.escrows|
  {
    match order
    case Ship(e, seller, courier, tracking) =>
      (IdemKey(seller, ShipOf(e), ClientKey(key)), ShipPayload(courier, tracking))
    case EnterCode(e, seller, code, _) =>
      (IdemKey(seller, CodeOf(e), ClientKey(key)), CodePayload(code))
    case Confirm(e, buyer) =>
      (IdemKey(buyer, ConfirmOf(e), ClientKey(key)), ConfirmPayload(e))
    case Dispute(e, buyer, reason) =>
      (IdemKey(buyer, DisputeOf(e), ClientKey(key)), DisputePayload(reason))
    case Deliver(e, courier, tracking, releaseNow) =>
      (IdemKey(s.escrows[e].seller, CourierEvent(courier), ClientKey(key)), CourierPayload(tracking, releaseNow))
    case Resolve(e, release, note, banBuyer) =>
      (IdemKey(e, ResolveOf(e), ClientKey(key)), ResolvePayload(release, note, banBuyer))
  }

  function ApplyOrder(cfg: Config, s: State, now: Time, order: Order): Result<Outcome>
    requires order.Deliver? ==> order.escrow < |s.escrows|
  {
    match order
    case Ship(e, seller, _, _) => ShipOnce(s, e, seller)
    case EnterCode(e, seller, _, correct) => CodeOnce(cfg, s, now, e, seller, correct)
    case Confirm(e, buyer) => ConfirmOnce(cfg, s, now, e, buyer)
    case Dispute(e, buyer, _) => DisputeOnce(s, e, buyer)
    case Deliver(e, _, _, releaseNow) => DeliverOnce(cfg, s, now, e, releaseNow)
    case Resolve(e, release, _, banBuyer) => ResolveOnce(cfg, s, now, e, release, banBuyer)
  }

  /** `_state_command`: reserve, run once, store the response. */
  function Perform(cfg: Config, s: State, now: Time, order: Order, key: nat): Result<Reply> {
    var _ :- Need(order.Deliver? ==> order.escrow < |s.escrows|, NotFound);
    var (idemKey, fingerprint) := OrderKey(s, order, key);
    var stored :- ReplayBodyOrRaise(Reserve(s.idem, idemKey, fingerprint));
    if stored.Some? then Ok(Reply(s, stored.value, true))
    else
      var out :- ApplyOrder(cfg, Begin(s, idemKey, fingerprint), now, order);
      Ok(Reply(Complete(out.state, idemKey, fingerprint, out.body), out.body, false))
  }

  /** `auto_release`: the scheduler's handler. */
  function AutoReleaseDue(cfg: Config, s: State, now: Time, id: nat): Result<State> {
    if id >= |s.escrows| || s.escrows[id].status != Delivered then Ok(s)
    else
      var out :- Release(cfg, s, now, id, s.escrows[id].seller);
      Ok(out.state)
  }
}

/** money_request/application/money_request_service.py and its repository. */
module MoneyRequests {
  import opened Kernel
  import opened Accounts
  import opened Policies
  import opened Tables
  import opened Transfers

  datatype Settled = Settled(state: State, transfer: TransferId)

  function Request(cfg: Config, s: State, now: Time, requester: UserId, payer: UserId, amount: int): Result<State> {
    var to := FindUser(s.accounts, requester);
    var _ :- Need(to.Some?, NotFound);
    var from := FindUser(s.accounts, payer);
    var _ :- Need(from.Some?, NotFound);
    var _ :- Need(to != from, SelfTransfer);
    var _ :- s.accounts[to.value].EnsureActive();
    var _ :- s.accounts[from.value].EnsureActive();
    var _ :- Need(amount > 0, InvalidAmount);
    var row := MoneyRequest(to.value, from.value, amount, Pending, None, now + cfg.requestExpiry);
    Ok(s.(requests := s.requests + [row]))
  }

  function SettlementCommand(user: UserId, row: MoneyRequest, id: nat, key: nat): TransferCommand {
    TransferCommand(user, row.payer, row.requester, row.amount, IdemKey(user, Transfers, ClientKey(key)),
                    RequestPayload(id, row.amount), RequestSettlement, Succeeded, None, None, true)
  }

  function Accept(cfg: Config, s: State, now: Time, id: nat, user: UserId, key: nat): Result<Settled> {
    var _ :- Need(id < |s.requests|, NotFound);
    var row := s.requests[id];
    var _ :- Need(row.payer < |s.accounts| && s.accounts[row.payer].owner == Some(user), NotFound);
    var _ :- Need(row.status == Pending, StateConflict);
    var _ :- Need(now < row.expiresAt, StateConflict);
    var paid :- Execute(cfg, s, now, SettlementCommand(user, row, id, key));
    var _ :- Need(id < |paid.state.requests| && paid.state.requests[id].status == Pending, StateConflict);
    var accepted := paid.state.requests[id].(status := Accepted, transfer := Some(paid.result.transferId));
    Ok(Settled(paid.state.(requests := paid.state.requests[id := accepted]), paid.result.transferId))
  }

  /** `_terminate`: the payer rejects, the requester cancels. */
  function Terminate(s: State, id: nat, user: UserId, byPayer: bool): Result<State> {
    var _ :- Need(id < |s.requests|, NotFound);
    var row := s.requests[id];
    var account := if byPayer then row.payer else row.requester;
    var _ :- Need(account < |s.accounts| && s.accounts[account].owner == Some(user), Unauthorized);
    var _ :- Need(row.status == Pending, StateConflict);
    Ok(s.(requests := s.requests[id := row.(status := if byPayer then Rejected else Cancelled)]))
  }

  /** `expire_due`: one sweep over the whole table. */
  function ExpireDue(s: State, now: Time): State {
    s.(requests := seq(|s.requests|, i requires 0 <= i < |s.requests| =>
      if s.requests[i].status == Pending && s.requests[i].expiresAt <= now
      then s.requests[i].(status := Expired) else s.requests[i]))
  }
}

/** apps/scheduler_worker/main.py. */
module Worker {
  import opened Kernel
  import opened Policies
  import opened Tables
  import opened Scheduling
  import Holds
  import SafePay
  import MoneyRequests

  function Handle(cfg: Config, s: State, now: Time, key: TaskKey): Result<State> {
    match key.taskType
    case UndoSettleTask => Holds.SettleUndo(cfg, s, now, key.resource)
    case AutoReleaseTask => SafePay.AutoReleaseDue(cfg, s, now, key.resource)
    case RequestExpiryTask => Ok(MoneyRequests.ExpireDue(s, now))
  }

  /** One task under its savepoint: its work and completion together, or only its failure record. */
  function RunTask(cfg: Config, s: State, now: Time, key: TaskKey): (State, bool) {
    match Handle(cfg, s, now, key)
    case Ok(s') => (s'.(tasks := Finish(s'.tasks, key)), true)
    case Err(_) =>
      (s.(tasks := RecordFailure(s.tasks, key, (if key in s.tasks then s.tasks[key].attempts else 0) + 1, now)), false)
  }

  /** `run_due_tasks` over the claimed rows, in order; the count is of completed tasks. */
  function RunBatch(cfg: Config, s: State, now: Time, claimed: seq<TaskKey>): (State, nat) {
    if claimed == [] then (s, 0)
    else
      var n := |claimed| - 1;
      var (s', done) := RunBatch(cfg, s, now, claimed[..n]);
      var (s'', ok) := RunTask(cfg, s', now, claimed[n]);
      (s'', if ok then done + 1 else done)
  }
}
