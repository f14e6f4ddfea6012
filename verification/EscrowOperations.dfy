/** The escrow and money-request use cases over one session. */
module EscrowOperations {
  import opened Kernel
  import opened Accounts
  import opened Policies
  import opened Tables
  import opened Idempotency
  import opened Transfers
  import opened Scheduling
  import opened Store
  import opened Operations
  import Holds
  import SafePay
  import MoneyRequests

  method Create(session: Session, cfg: Config, now: Time, buyer: UserId, seller: UserId, amount: int,
                description: nat, key: nat)
    returns (r: Result<Reply>)
    modifies session
    ensures Answers(r, session.View(), SafePay.Create(cfg, old(session.View()), now, buyer, seller, amount,
                                                      description, key))
  {
    hide Transfers.Execute, FindUser, Reserve;
    var payer := FindUser(session.accounts, buyer);
    var payee := FindUser(session.accounts, seller);
    var _ :- Need(payer.Some? && payee.Some?, NotFound);
    var _ :- Need(payer != payee, SelfTransfer);
    var idemKey := IdemKey(buyer, SafePayEndpoint, ClientKey(key));
    var fingerprint := SafePayPayload(seller, amount, description);
    var stored :- ReplayBodyOrRaise(Reserve(session.idem, idemKey, fingerprint));
    if stored.Some? { return Ok(Reply(stored.value, true)); }
    session.idem := session.idem[idemKey := Processing(fingerprint)];
    assert session.View() == Begin(old(session.View()), idemKey, fingerprint);
    var id := |session.escrows|;
    var hold :- session.Execute(cfg, now,
      Holds.HoldCommand(buyer, payer.value, ESCROW, amount, EscrowHold, Held,
                        IdemKey(buyer, InternalSafePayHold, SafePayHoldKey(id)), payee.value));
    var row := Escrow(hold.transferId, None, buyer, seller, amount, AwaitingShipment, 0, None);
    session.escrows := session.escrows + [row];
    var body := EscrowCreatedBody(id, hold.transferId, amount);
    session.idem := session.idem[idemKey := Completed(fingerprint, body)];
    return Ok(Reply(body, false));
  }

  predicate Yields(r: Result<Body>, after: State, spec: Result<SafePay.Outcome>) {
    && (spec.Ok? ==> r == Ok(spec.value.body) && after == spec.value.state)
    && (spec.Err? ==> r == Err(spec.error))
  }

  /** One guarded update; no matching row means someone settled first. */
  method MarkSettled(session: Session, id: nat, from: set<EscrowStatus>, to: EscrowStatus,
                     settlement: TransferId) returns (r: Result<()>)
    requires id < |session.escrows|
    modifies session
    ensures Does(r, session.View(), SafePay.MarkSettled(old(session.View()), id, from, to, settlement))
  {
    var escrow := session.escrows[id];
    var _ :- Need(escrow.status in from && escrow.settlement == None, StateConflict);
    session.escrows := session.escrows[id := escrow.(status := to, settlement := Some(settlement), codeAttempts := 0,
                                                     codeLockedUntil := None)];
    return Ok(());
  }

  method Release(session: Session, cfg: Config, now: Time, id: nat, actor: UserId) returns (r: Result<Body>)
    requires id < |session.escrows|
    modifies session
    ensures Yields(r, session.View(), SafePay.Release(cfg, old(session.View()), now, id, actor))
  {
    hide Holds.Settle, SafePay.MarkSettled, Cancel;
    var escrow := session.escrows[id];
    var _ :- Need(escrow.hold < |session.transfers| && session.transfers[escrow.hold].intended.Some?, StateConflict);
    var leg :- Settle(session, cfg, now, escrow.hold, Held, Succeeded, session.transfers[escrow.hold].intended.value,
                      ESCROW,
                      escrow.amount, EscrowRelease, actor);
    var _ :- Need(id < |session.escrows|, NotFound);
    var _ :- MarkSettled(session, id, {AwaitingShipment, Shipped, Delivered, Disputed}, Released, leg.transferId);
    session.tasks := Cancel(session.tasks, SafePay.AutoRelease(id));
    return Ok(SettledBody(id, Released, leg.transferId, false));
  }

  method Refund(session: Session, cfg: Config, now: Time, id: nat) returns (r: Result<Body>)
    requires id < |session.escrows|
    modifies session
    ensures Yields(r, session.View(), SafePay.Refund(cfg, old(session.View()), now, id))
  {
    hide Holds.Settle, SafePay.MarkSettled;
    var escrow := session.escrows[id];
    var _ :- Need(escrow.hold < |session.transfers|, StateConflict);
    var leg :- Settle(session, cfg, now, escrow.hold, Held, Refunded, session.transfers[escrow.hold].sender, ESCROW,
                      escrow.amount, EscrowRefund, escrow.buyer);
    var _ :- Need(id < |session.escrows|, NotFound);
    var _ :- MarkSettled(session, id, {Disputed}, EscrowRefunded, leg.transferId);
    return Ok(SettledBody(id, EscrowRefunded, leg.transferId, false));
  }

  method ShipOnce(session: Session, id: nat, seller: UserId) returns (r: Result<Body>)
    modifies session
    ensures Yields(r, session.View(), SafePay.ShipOnce(old(session.View()), id, seller))
  {
    var _ :- Need(id < |session.escrows| && session.escrows[id].seller == seller
                  && session.escrows[id].status == AwaitingShipment, StateConflict);
    session.escrows := session.escrows[id := session.escrows[id].(status := Shipped)];
    return Ok(EscrowStatusBody(id, Shipped));
  }

  method ConfirmOnce(session: Session, cfg: Config, now: Time, id: nat, buyer: UserId) returns (r: Result<Body>)
    modifies session
    ensures Yields(r, session.View(), SafePay.ConfirmOnce(cfg, old(session.View()), now, id, buyer))
  {
    hide SafePay.Release;
    var _ :- Need(id < |session.escrows| && session.escrows[id].buyer == buyer, NotFound);
    var _ :- Need(session.escrows[id].status in {Shipped, Delivered}, StateConflict);
    r := Release(session, cfg, now, id, buyer);
  }

  method DisputeOnce(session: Session, id: nat, buyer: UserId) returns (r: Result<Body>)
    modifies session
    ensures Yields(r, session.View(), SafePay.DisputeOnce(old(session.View()), id, buyer))
  {
    hide Cancel;
    var _ :- Need(id < |session.escrows| && session.escrows[id].buyer == buyer
                  && session.escrows[id].status in {AwaitingShipment, Shipped, Delivered}, StateConflict);
    session.escrows := session.escrows[id := session.escrows[id].(status := Disputed)];
    session.tasks := Cancel(session.tasks, SafePay.AutoRelease(id));
    return Ok(EscrowStatusBody(id, Disputed));
  }

  method Ban(session: Session, buyer: UserId)
    modifies session
    ensures session.View() == SafePay.Ban(old(session.View()), buyer)
  {
    hide FindUser;
    var account := FindUser(session.accounts, buyer);
    if account.Some? {
      session.accounts := session.accounts[account.value := session.accounts[account.value].(status := Closed)];
    }
  }

  method ResolveOnce(session: Session, cfg: Config, now: Time, id: nat, release: bool,
                     banBuyer: bool) returns (r: Result<Body>)
    modifies session
    ensures Yields(r, session.View(), SafePay.ResolveOnce(cfg, old(session.View()), now, id, release, banBuyer))
  {
    hide SafePay.Release, SafePay.Refund, SafePay.Ban;
    var _ :- Need(id < |session.escrows|, NotFound);
    var escrow := session.escrows[id];
    var _ :- Need(escrow.status == Disputed, StateConflict);
    if !release {
      r := Refund(session, cfg, now, id);
    } else {
      var body :- Release(session, cfg, now, id, escrow.seller);
      if banBuyer {
        Ban(session, escrow.buyer);
        if body.SettledBody? {
          body := body.(buyerBanned := true);
        }
      }
      r := Ok(body);
    }
  }

  method CodeOnce(session: Session, cfg: Config, now: Time, id: nat, seller: UserId,
                  correct: bool) returns (r: Result<Body>)
    modifies session
    ensures Yields(r, session.View(), SafePay.CodeOnce(cfg, old(session.View()), now, id, seller, correct))
  {
    hide SafePay.Release;
    var _ :- Need(id < |session.escrows| && session.escrows[id].seller == seller, NotFound);
    var escrow := session.escrows[id];
    var _ :- Need(escrow.status in {AwaitingShipment, Shipped, Delivered}, StateConflict);
    if escrow.codeLockedUntil.Some? && now < escrow.codeLockedUntil.value {
      return Ok(CodeRejectedBody(id, escrow.status, true, None));
    }
    if correct {
      r := Release(session, cfg, now, id, seller);
    } else {
      var attempts := escrow.codeAttempts + 1;
      var locked := attempts >= SafePay.CODE_MAX_ATTEMPTS;
      session.escrows := session.escrows[id := escrow.(
        codeAttempts := attempts, codeLockedUntil := if locked then Some(now + cfg.codeLockPeriod) else None)];
      r := Ok(CodeRejectedBody(id, escrow.status, locked, Some(Max(0, SafePay.CODE_MAX_ATTEMPTS - attempts))));
    }
  }

  method DeliverOnce(session: Session, cfg: Config, now: Time, id: nat, releaseNow: bool) returns (r: Result<Body>)
    requires id < |session.escrows|
    modifies session
    ensures Yields(r, session.View(), SafePay.DeliverOnce(cfg, old(session.View()), now, id, releaseNow))
  {
    hide SafePay.Release, Schedule;
    var escrow := session.escrows[id];
    if escrow.status == Shipped {
      session.escrows := session.escrows[id := escrow.(status := Delivered)];
      if releaseNow {
        r := Release(session, cfg, now, id, escrow.seller);
      } else {
        var due := now + cfg.autoReleaseDelay;
        session.tasks := Schedule(session.tasks, SafePay.AutoRelease(id), due);
        r := Ok(DeliveredBody(id, due));
      }
    } else if escrow.status in {Released, EscrowRefunded, Disputed} {
      r := Ok(EscrowStatusBody(id, escrow.status));
    } else {
      r := Err(StateConflict);
    }
  }

  method ApplyOrder(session: Session, cfg: Config, now: Time, order: SafePay.Order) returns (r: Result<Body>)
    requires order.Deliver? ==> order.escrow < |session.escrows|
    modifies session
    ensures Yields(r, session.View(), SafePay.ApplyOrder(cfg, old(session.View()), now, order))
  {
    hide Yields, SafePay.ShipOnce, SafePay.CodeOnce, SafePay.ConfirmOnce, SafePay.DisputeOnce, SafePay.DeliverOnce,
         SafePay.ResolveOnce;
    match order {
      case Ship(e, seller, _, _) => r := ShipOnce(session, e, seller);
      case EnterCode(e, seller, _, correct) => r := CodeOnce(session, cfg, now, e, seller, correct);
      case Confirm(e, buyer) => r := ConfirmOnce(session, cfg, now, e, buyer);
      case Dispute(e, buyer, _) => r := DisputeOnce(session, e, buyer);
      case Deliver(e, _, _, releaseNow) => r := DeliverOnce(session, cfg, now, e, releaseNow);
      case Resolve(e, release, _, banBuyer) => r := ResolveOnce(session, cfg, now, e, release, banBuyer);
    }
  }

  /** `_state_command`: reserve, run once, store the response. */
  method Perform(session: Session, cfg: Config, now: Time, order: SafePay.Order, key: nat) returns (r: Result<Reply>)
    modifies session
    ensures Answers(r, session.View(), SafePay.Perform(cfg, old(session.View()), now, order, key))
  {
    hide SafePay.ApplyOrder, Reserve, SafePay.OrderKey;
    var _ :- Need(order.Deliver? ==> order.escrow < |session.escrows|, NotFound);
    var (idemKey, fingerprint) := SafePay.OrderKey(session.View(), order, key);
    var stored :- ReplayBodyOrRaise(Reserve(session.idem, idemKey, fingerprint));
    if stored.Some? { return Ok(Reply(stored.value, true)); }
    session.idem := session.idem[idemKey := Processing(fingerprint)];
    assert session.View() == Begin(old(session.View()), idemKey, fingerprint);
    var body :- ApplyOrder(session, cfg, now, order);
    session.idem := session.idem[idemKey := Completed(fingerprint, body)];
    return Ok(Reply(body, false));
  }

  method AutoRelease(session: Session, cfg: Config, now: Time, id: nat) returns (r: Result<()>)
    modifies session
    ensures Does(r, session.View(), SafePay.AutoReleaseDue(cfg, old(session.View()), now, id))
  {
    hide SafePay.Release;
    if id >= |session.escrows| || session.escrows[id].status != Delivered { return Ok(()); }
    var body :- Release(session, cfg, now, id, session.escrows[id].seller);
    return Ok(());
  }

  // -- money requests ---------------------------------------------------------

  method RequestMoney(session: Session, cfg: Config, now: Time, requester: UserId, payer: UserId,
                      amount: int) returns (r: Result<()>)
    modifies session
    ensures Does(r, session.View(), MoneyRequests.Request(cfg, old(session.View()), now, requester, payer, amount))
  {
    hide FindUser;
    var to := FindUser(session.accounts, requester);
    var _ :- Need(to.Some?, NotFound);
    var from := FindUser(session.accounts, payer);
    var _ :- Need(from.Some?, NotFound);
    var _ :- Need(to != from, SelfTransfer);
    var _ :- session.accounts[to.value].EnsureActive();
    var _ :- session.accounts[from.value].EnsureActive();
    var _ :- Need(amount > 0, InvalidAmount);
    var row := MoneyRequest(to.value, from.value, amount, Pending, None, now + cfg.requestExpiry);
    session.requests := session.requests + [row];
    return Ok(());
  }

  method Accept(session: Session, cfg: Config, now: Time, id: nat, user: UserId, key: nat) returns (r: Result<()>)
    modifies session
    ensures var spec := MoneyRequests.Accept(cfg, old(session.View()), now, id, user, key);
      (spec.Ok? ==> r == Ok(()) && session.View() == spec.value.state) && (spec.Err? ==> r == Err(spec.error))
  {
    hide Transfers.Execute;
    var _ :- Need(id < |session.requests|, NotFound);
    var row := session.requests[id];
    var _ :- Need(row.payer < |session.accounts| && session.accounts[row.payer].owner == Some(user), NotFound);
    var _ :- Need(row.status == Pending, StateConflict);
    if now >= row.expiresAt {
      session.requests := session.requests[id := row.(status := Expired)];
      return Err(StateConflict);
    }
    var paid :- session.Execute(cfg, now, MoneyRequests.SettlementCommand(user, row, id, key));
    var _ :- Need(id < |session.requests| && session.requests[id].status == Pending, StateConflict);
    session.requests := session.requests[id := session.requests[id].(status := RequestStatus.Accepted,
                                                                     transfer := Some(paid.transferId))];
    return Ok(());
  }

  method Terminate(session: Session, id: nat, user: UserId, byPayer: bool) returns (r: Result<()>)
    modifies session
    ensures Does(r, session.View(), MoneyRequests.Terminate(old(session.View()), id, user, byPayer))
  {
    var _ :- Need(id < |session.requests|, NotFound);
    var row := session.requests[id];
    var account := if byPayer then row.payer else row.requester;
    var _ :- Need(account < |session.accounts| && session.accounts[account].owner == Some(user), Unauthorized);
    var _ :- Need(row.status == Pending, StateConflict);
    session.requests := session.requests[id := row.(status := if byPayer then Rejected else Cancelled)];
    return Ok(());
  }

  predicate IsDue(row: MoneyRequest, now: Time) { row.status == Pending && row.expiresAt <= now }

  function DueCount(rows: seq<MoneyRequest>, now: Time): nat {
    if rows == [] then 0 else DueCount(rows[..|rows| - 1], now) + if IsDue(rows[|rows| - 1], now) then 1 else 0
  }

  /** The sweep expires exactly the pending rows that are due, returns how many, and touches nothing else. */
  method ExpireDue(session: Session, now: Time) returns (expired: nat)
    modifies session
    ensures session.View() == old(session.View()).(requests := session.requests)
    ensures |session.requests| == |old(session.requests)|
    ensures forall r :: 0 <= r < |session.requests| ==>
      && (IsDue(old(session.requests)[r], now) ==> session.requests[r] == old(session.requests)[r].(status := Expired))
      && (!IsDue(old(session.requests)[r], now) ==> session.requests[r] == old(session.requests)[r])
    ensures expired == DueCount(old(session.requests), now)
  {
    expired := 0;
    var rows := session.requests;
    var i := 0;
    while i < |rows|
      invariant 0 <= i <= |rows| && |session.requests| == |rows|
      invariant session.View() == old(session.View()).(requests := session.requests)
      invariant forall r :: i <= r < |rows| ==> session.requests[r] == rows[r]
      invariant forall r :: 0 <= r < i ==>
        && (IsDue(rows[r], now) ==> session.requests[r] == rows[r].(status := Expired))
        && (!IsDue(rows[r], now) ==> session.requests[r] == rows[r])
      invariant expired == DueCount(rows[..i], now)
    {
      if IsDue(rows[i], now) {
        session.requests := session.requests[i := rows[i].(status := Expired)];
        expired := expired + 1;
      }
      assert rows[..i + 1][..i] == rows[..i];
      i := i + 1;
    }
    assert rows[..i] == rows;
  }
}
