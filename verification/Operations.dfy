/** The use cases over one session, written as the services write them. */
module Operations {
  import opened Kernel
  import opened Accounts
  import opened Policies
  import opened Tables
  import opened Idempotency
  import opened Transfers
  import opened Scheduling
  import opened Store
  import Holds
  import SpotMe

  // -- holding.py and undo.py -------------------------------------------------

  /** Latch first: the status is flipped before the money moves. */
  method Settle(session: Session, cfg: Config, now: Time, hold: TransferId, from: TransferStatus, to: TransferStatus,
                beneficiary: AccountId, holding: AccountId, amount: int, kind: Kind,
                    actor: UserId) returns (r: Result<TransferResult>)
    modifies session
    ensures var spec := Holds.Settle(cfg, old(session.View()), now, hold, from, to, beneficiary, holding, amount,
                                     kind, actor);
      (spec.Ok? ==> r == Ok(spec.value.result) && session.View() == spec.value.state)
          && (spec.Err? ==> r == Err(spec.error))
  {
    hide Transfers.Execute;
    var _ :- Need(hold < |session.transfers| && session.transfers[hold].status == from, StateConflict);
    session.transfers := session.transfers[hold := session.transfers[hold].(status := to)];
    assert session.View() == Holds.Latch(old(session.View()), hold, to);
    r := session.Execute(cfg, now, Holds.SettleCommand(hold, to, beneficiary, holding, amount, kind, actor));
  }

  method UndoableSend(session: Session, cfg: Config, now: Time, actor: UserId, sender: AccountId, receiver: AccountId,
                      amount: int, key: IdemKey) returns (r: Result<TransferResult>)
    modifies session
    ensures var spec := Holds.UndoableSend(cfg, old(session.View()), now, actor, sender, receiver, amount, key);
      (spec.Ok? ==> r == Ok(spec.value.result) && session.View() == spec.value.state)
          && (spec.Err? ==> r == Err(spec.error))
  {
    hide Transfers.Execute, Schedule;
    var hold :- session.Execute(cfg, now,
      Holds.HoldCommand(actor, sender, PENDING_SETTLEMENT, amount, UndoHold, PendingUndo, key, receiver));
    if hold.replayed { return Ok(hold); }
    session.tasks := Schedule(session.tasks, TaskKey(UndoSettleTask, hold.transferId), now + Holds.UNDO_WINDOW);
    return Ok(hold);
  }

  /** What a command answers: its body, and whether it was a replay. */
  datatype Reply = Reply(body: Body, replayed: bool)

  predicate Answers(r: Result<Reply>, after: State, spec: Result<Holds.Reply>) {
    && (spec.Ok? ==> r == Ok(Reply(spec.value.body, spec.value.replayed)) && after == spec.value.state)
    && (spec.Err? ==> r == Err(spec.error))
  }

  method Undo(session: Session, cfg: Config, now: Time, transfer: TransferId, actor: UserId,
              key: nat) returns (r: Result<Reply>)
    modifies session
    ensures Answers(r, session.View(), Holds.Undo(cfg, old(session.View()), now, transfer, actor, key))
  {
    hide Holds.Settle, Cancel, Reserve;
    var idemKey := IdemKey(actor, UndoOf(transfer), ClientKey(key));
    var fingerprint := UndoPayload(transfer);
    var stored :- ReplayBodyOrRaise(Reserve(session.idem, idemKey, fingerprint));
    if stored.Some? { return Ok(Reply(stored.value, true)); }
    session.idem := session.idem[idemKey := Processing(fingerprint)];
    assert session.View() == Begin(old(session.View()), idemKey, fingerprint);
    var _ :- Need(transfer < |session.transfers| && session.transfers[transfer].kind == UndoHold, NotFound);
    var hold := session.transfers[transfer];
    var _ :- Need(hold.status == PendingUndo, StateConflict);
    var _ :- Need(hold.sender < |session.accounts| && session.accounts[hold.sender].owner == Some(actor), NotFound);
    var refund :- Settle(session, cfg, now, transfer, PendingUndo, Refunded, hold.sender, PENDING_SETTLEMENT,
                         hold.amount, UndoRefund, actor);
    session.tasks := Cancel(session.tasks, TaskKey(UndoSettleTask, transfer));
    var body := UndoBody(transfer, refund.transferId, refund.amount, refund.receiverAfter);
    session.idem := session.idem[idemKey := Completed(fingerprint, body)];
    return Ok(Reply(body, false));
  }

  /** A unit outcome: done, or the error that ends the transaction. */
  predicate Does(r: Result<()>, after: State, spec: Result<State>) {
    && (spec.Ok? ==> r == Ok(()) && after == spec.value)
    && (spec.Err? ==> r == Err(spec.error))
  }

  method SettleUndo(session: Session, cfg: Config, now: Time, transfer: TransferId) returns (r: Result<()>)
    modifies session
    ensures Does(r, session.View(), Holds.SettleUndo(cfg, old(session.View()), now, transfer))
  {
    hide Holds.Settle;
    if transfer >= |session.transfers| || session.transfers[transfer].status != PendingUndo { return Ok(()); }
    var hold := session.transfers[transfer];
    var _ :- Need(hold.intended.Some?, StateConflict);
    var leg :- Settle(session, cfg, now, transfer, PendingUndo, Succeeded, hold.intended.value, PENDING_SETTLEMENT,
                      hold.amount, UndoSettle, hold.initiatedBy);
    return Ok(());
  }

  // -- open_account.py and overdraft/application/service.py -------------------

  method OpenAccount(session: Session, cfg: Config, now: Time, user: UserId, opening: int) returns (r: Result<()>)
    modifies session
    ensures Does(r, session.View(), SpotMe.OpenAccount(cfg, old(session.View()), now, user, opening))
  {
    hide Transfers.Execute, FindUser;
    var _ :- Need(FindUser(session.accounts, user).None?, Conflict);
    var id := |session.accounts|;
    session.accounts := session.accounts + [Account(Some(user), UserAccount, 0, Active, 0)];
    if opening > 0 {
      var funded :- session.Execute(cfg, now, SpotMe.GrantCommand(user, id, opening));
    }
    return Ok(());
  }

  method CreatePool(session: Session, cfg: Config, now: Time, sponsor: UserId, amount: int,
                    key: nat) returns (r: Result<Reply>)
    modifies session
    ensures Answers(r, session.View(), SpotMe.CreatePool(cfg, old(session.View()), now, sponsor, amount, key))
  {
    hide Transfers.Execute, FindUser, SpotMe.FindPool, Reserve;
    var idemKey := IdemKey(sponsor, PoolsEndpoint, ClientKey(key));
    var fingerprint := PoolPayload(amount);
    var stored :- ReplayBodyOrRaise(Reserve(session.idem, idemKey, fingerprint));
    if stored.Some? { return Ok(Reply(stored.value, true)); }
    session.idem := session.idem[idemKey := Processing(fingerprint)];
    var _ :- Need(SpotMe.FindPool(session.pools, sponsor).None?, Conflict);
    var from := FindUser(session.accounts, sponsor);
    var _ :- Need(from.Some?, NotFound);
    var pool, account := |session.pools|, |session.accounts|;
    session.accounts := session.accounts + [Account(Some(sponsor), OverdraftPool, 0, Active, 0)];
    session.pools := session.pools + [Pool(sponsor, account)];
    assert session.View() == SpotMe.InsertPool(Begin(old(session.View()), idemKey, fingerprint), sponsor);
    var funding :- session.Execute(cfg, now,
      SpotMe.FundCommand(sponsor, from.value, pool, account, amount,
                         IdemKey(sponsor, InternalFund, PoolFundKey(pool))));
    var body := PoolBody(pool, account, amount, funding.transferId);
    session.idem := session.idem[idemKey := Completed(fingerprint, body)];
    return Ok(Reply(body, false));
  }

  method FundPool(session: Session, cfg: Config, now: Time, sponsor: UserId, amount: int,
                  key: nat) returns (r: Result<Reply>)
    modifies session
    ensures Answers(r, session.View(), SpotMe.FundPool(cfg, old(session.View()), now, sponsor, amount, key))
  {
    hide Transfers.Execute, FindUser, SpotMe.FindPool;
    var pool := SpotMe.FindPool(session.pools, sponsor);
    var _ :- Need(pool.Some?, NotFound);
    var from := FindUser(session.accounts, sponsor);
    var _ :- Need(from.Some?, NotFound);
    var account := session.pools[pool.value].account;
    var funding :- session.Execute(cfg, now,
      SpotMe.FundCommand(sponsor, from.value, pool.value, account, amount,
                         IdemKey(sponsor, FundOf(pool.value), ClientKey(key))));
    var balance := if account < |session.accounts| then session.accounts[account].balance else 0;
    return Ok(Reply(PoolBody(pool.value, account, balance, funding.transferId), funding.replayed));
  }

  method GrantAccess(session: Session, cfg: Config, now: Time, sponsor: UserId, beneficiary: UserId, maxDraw: int,
                     key: nat) returns (r: Result<Reply>)
    modifies session
    ensures Answers(r, session.View(), SpotMe.GrantAccess(cfg, old(session.View()), now, sponsor, beneficiary,
                                                          maxDraw, key))
  {
    hide FindUser, SpotMe.FindPool, SpotMe.HasGrant, Reserve;
    var idemKey := IdemKey(sponsor, GrantsEndpoint, ClientKey(key));
    var fingerprint := AccessPayload(beneficiary, maxDraw);
    var stored :- ReplayBodyOrRaise(Reserve(session.idem, idemKey, fingerprint));
    if stored.Some? { return Ok(Reply(stored.value, true)); }
    session.idem := session.idem[idemKey := Processing(fingerprint)];
    var pool := SpotMe.FindPool(session.pools, sponsor);
    var _ :- Need(pool.Some?, NotFound);
    var account := FindUser(session.accounts, beneficiary);
    var _ :- Need(account.Some? && session.accounts[account.value].status == Active, NotFound);
    var _ :- Need(beneficiary != sponsor, SelfTransfer);
    var _ :- Need(maxDraw <= cfg.maxDraw, Conflict);
    var _ :- Need(!SpotMe.HasGrant(session.grants, pool.value, beneficiary), Conflict);
    var _ :- Need(maxDraw > 0, InvalidAmount);
    var grant := |session.grants|;
    session.grants := session.grants + [Grant(pool.value, beneficiary, maxDraw, now)];
    var body := AccessBody(grant, pool.value, beneficiary, maxDraw);
    session.idem := session.idem[idemKey := Completed(fingerprint, body)];
    return Ok(Reply(body, false));
  }

  /** The first grant, oldest first, whose limit and whose pool's balance both cover the shortfall. */
  method FirstGrant(session: Session, grants: seq<nat>, shortfall: int) returns (selected: Option<nat>)
    requires forall g :: g in grants ==> g < |session.grants| && session.grants[g].pool < |session.pools|
    requires forall g :: g in grants ==> session.pools[session.grants[g].pool].account < |session.accounts|
    ensures selected == SpotMe.FirstCovering(session.View(), grants, shortfall)
  {
    ghost var s := session.View();
    selected := None;
    var i := 0;
    while i < |grants|
      invariant 0 <= i <= |grants|
      invariant forall g :: g in grants[i..] ==> g in grants
      invariant SpotMe.FirstCovering(s, grants, shortfall) == SpotMe.FirstCovering(s, grants[i..], shortfall)
    {
      var g := grants[i];
      assert grants[i..][0] == g && grants[i..][1..] == grants[i + 1..];
      var pool := session.accounts[session.pools[session.grants[g].pool].account];
      if shortfall <= session.grants[g].maxDraw && shortfall <= pool.balance {
        return Some(g);
      }
      i := i + 1;
    }
  }

  /** The shortfall branch of `send`: one draw of exactly what is missing, and the loan for it. */
  method DrawShortfall(session: Session, cfg: Config, now: Time, user: UserId, sender: AccountId, amount: int, key: nat)
    returns (r: Result<Option<DrawInfo>>)
    requires sender < |session.accounts|
    modifies session
    ensures var spec := SpotMe.DrawShortfall(cfg, old(session.View()), now, user, sender, amount, key);
      (spec.Ok? ==> r == Ok(spec.value.draw) && session.View() == spec.value.state)
          && (spec.Err? ==> r == Err(spec.error))
  {
    hide Transfers.Execute, SpotMe.ActiveGrants, SpotMe.FirstCovering;
    var shortfall := Max(0, amount - session.accounts[sender].balance);
    if shortfall == 0 { return Ok(None); }
    var grants := SpotMe.ActiveGrants(session.View(), user);
    var selected := FirstGrant(session, grants, shortfall);
    var _ :- Need(selected.Some? && shortfall <= cfg.maxDraw, InsufficientFunds);
    var pool := session.grants[selected.value].pool;
    var draw :- session.Execute(cfg, now,
      SpotMe.DrawCommand(session.pools[pool].sponsor, pool, session.pools[pool].account, user, sender, shortfall, key));
    var loan := |session.loans|;
    session.loans := session.loans + [Loan(pool, user, draw.transferId, shortfall, shortfall, Outstanding, now)];
    return Ok(Some(DrawInfo(loan, pool, draw.transferId, shortfall)));
  }

  method SendFrom(session: Session, cfg: Config, now: Time, user: UserId, sender: AccountId, receiver: AccountId,
                  amount: int, key: nat, note: nat) returns (r: Result<Reply>)
    modifies session
    ensures Answers(r, session.View(), SpotMe.SendFrom(cfg, old(session.View()), now, user, sender, receiver, amount,
                                                       key, note))
  {
    hide SpotMe.DrawShortfall, Holds.UndoableSend, Reserve;
    var idemKey := IdemKey(user, Endpoint.Transfers, ClientKey(key));
    var fingerprint := SendPayload(sender, receiver, amount, note);
    var stored :- ReplayBodyOrRaise(Reserve(session.idem, idemKey, fingerprint));
    if stored.Some? { return Ok(Reply(stored.value, true)); }
    session.idem := session.idem[idemKey := Processing(fingerprint)];
    assert session.View() == Begin(old(session.View()), idemKey, fingerprint);
    var _ :- Need(sender < |session.accounts|, NotFound);
    var _ :- session.accounts[sender].EnsureOwnedBy(user);
    var draw :- DrawShortfall(session, cfg, now, user, sender, amount, key);
    var hold :- UndoableSend(session, cfg, now, user, sender, receiver, amount,
                             IdemKey(user, InternalUndoHold, UndoHoldKey(key)));
    var body := SendBody(hold.ToResponse(), hold.completedAt + Holds.UNDO_WINDOW, draw);
    session.idem := session.idem[idemKey := Completed(fingerprint, body)];
    return Ok(Reply(body, false));
  }

  method Send(session: Session, cfg: Config, now: Time, user: UserId, recipient: UserId, amount: int, key: nat,
              note: nat) returns (r: Result<Reply>)
    modifies session
    ensures Answers(r, session.View(), SpotMe.Send(cfg, old(session.View()), now, user, recipient, amount, key, note))
  {
    hide SpotMe.SendFrom, FindUser;
    var sender := FindUser(session.accounts, user);
    var _ :- Need(sender.Some?, NotFound);
    var receiver := FindUser(session.accounts, recipient);
    var _ :- Need(receiver.Some?, NotFound);
    var _ :- Need(sender != receiver, SelfTransfer);
    r := SendFrom(session, cfg, now, user, sender.value, receiver.value, amount, key, note);
  }
}
