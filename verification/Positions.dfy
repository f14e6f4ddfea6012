/** Net position: balance minus Spot-Me debt, through sends, undos and settlements. */
module Positions {
  import opened Kernel
  import opened Sums
  import opened Accounts
  import opened Policies
  import opened Tables
  import opened Idempotency
  import opened Transfers
  import opened Scheduling
  import opened Invariants
  import opened Legs
  import opened Sweeps
  import opened Executions
  import opened Effects
  import opened Settling
  import opened Conservation
  import opened Keeping
  import opened Payments
  import opened Sending
  import opened Closings
  import opened Liens
  import opened Holds
  import opened SpotMe
  import Growth

  predicate NoUndoKeys(idem: map<IdemKey, IdemRecord>, h: TransferId) {
    forall k :: k in idem && k.endpoint.UndoOf? ==> k.endpoint.transfer < h
  }

  function Debt(s: State, user: UserId): int { Sum(s.loans, UserOwed(user)) }

  function Net(s: State, a: AccountId, user: UserId): int { NetPosition(s.accounts, s.loans, a, user) }

  /** An execution that repays nothing moves balances by its leg and leaves every debt alone. */
  lemma PostedPlainly(s: State, s': State, now: Time, c: TransferCommand, a: AccountId, user: UserId)
    requires InRange(s, c) && Posted(s, s', now, c, 0) && !IsKind(s.accounts, a, OverdraftPool)
    ensures BalanceOf(s'.accounts, a) == BalanceOf(s.accounts, a) + Signed(c, a)
    ensures Debt(s', user) == Debt(s, user)
  {
    hide Sum, KeysAdded, RowsAppended;
    PostedBalance(s, s', now, c, 0, a);
    assert user == LienUser(s, c) || user != LienUser(s, c);
  }

  lemma PostedUndoKeys(s: State, s': State, now: Time, c: TransferCommand, repaid: int, h: TransferId)
    requires InRange(s, c) && Posted(s, s', now, c, repaid) && !c.key.endpoint.UndoOf? && NoUndoKeys(s.idem, h)
    ensures NoUndoKeys(s'.idem, h) && |s.transfers| < |s'.transfers|
  {
    hide Sum, RepaidExactly;
  }

  function Shortfall(s: State, sender: AccountId, amount: int): int { Max(0, amount - BalanceOf(s.accounts, sender)) }

  /** The draw brings in exactly the shortfall, and the debt for it. */
  lemma DrawIsShortfall(cfg: Config, s: State, now: Time, top: IdemKey, user: UserId, sender: AccountId, amount: int,
                        key: nat, a: AccountId, u: UserId)
    requires Wired(cfg) && Conserved(cfg, s) && Linked(s) && IdemOkBut(s, {top}) && top in s.idem
    requires top == IdemKey(user, Transfers, ClientKey(key))
    requires forall k :: k in s.idem && k.key == DrawKey(key) && s.idem[k].fingerprint.DrawPayload? ==>
      s.idem[k].fingerprint.borrower != user
    requires IsKind(s.accounts, sender, UserAccount) && s.accounts[sender].owner == Some(user)
    requires DrawShortfall(cfg, s, now, user, sender, amount, key).Ok?
    requires !IsKind(s.accounts, a, OverdraftPool) && NoUndoKeys(s.idem, |s.transfers|)
    ensures var d := DrawShortfall(cfg, s, now, user, sender, amount, key).value;
      var short := Shortfall(s, sender, amount);
      && BalanceOf(d.state.accounts, a) == BalanceOf(s.accounts, a) + (if a == sender then short else 0)
      && Debt(d.state, u) == Debt(s, u) + (if u == user then short else 0)
      && (d.draw.None? <==> short == 0) && (d.draw.Some? ==> d.draw.value.amount == short)
      && NoUndoKeys(d.state.idem, |d.state.transfers|)
  {
    hide Sum, Posted, SentToday, SumSentSince, Execute, Core, LegalRow, FindUser, NoUndoKeys, LegsOk, DailyOk,
         PoolsWhole, PendingGap, EscrowGap, EscrowsOk, RequestsOk, TasksOk, Conserved, IdemOkBut, KeyOk, Allowed,
         Linked, Extends;
    var short := Shortfall(s, sender, amount);
    if short > 0 {
      var selected := FirstCovering(s, ActiveGrants(s, user), short);
      var pool := s.grants[selected.value].pool;
      GrantAllows(s, user, short, selected.value, now);
      DrawKeeps(cfg, s, now, top, pool, user, sender, short, key);
      var c := DrawCommand(s.pools[pool].sponsor, pool, s.pools[pool].account, user, sender, short, key);
      var s1 := Execute(cfg, s, now, c).value.state;
      PostedPlainly(s, s1, now, c, a, u);
      assert PoolsOk(s.accounts, s.pools) by { ConservedAccounts(cfg, s); }
      assert c.sender != a && c.sender != sender;
      var d := DrawShortfall(cfg, s, now, user, sender, amount, key).value;
      SumAppend(s1.loans, d.state.loans[|s1.loans|], UserOwed(u));
      PostedUndoKeys(s, s1, now, c, 0, |s.transfers|);
      assert NoUndoKeys(d.state.idem, |d.state.transfers|) by { MoreTransfers(s1.idem, |s.transfers|, |s1.transfers|); }
    }
  }

  lemma MoreTransfers(idem: map<IdemKey, IdemRecord>, h: TransferId, h': TransferId)
    requires NoUndoKeys(idem, h) && h <= h'
    ensures NoUndoKeys(idem, h')
  {
  }

  lemma UndoKeysOld(s: State, top: IdemKey, fp: Payload)
    requires IdemOk(s) && !top.endpoint.UndoOf?
    ensures NoUndoKeys(Begin(s, top, fp).idem, |s.transfers|)
  {
  }

  /** What a first send leaves behind. */
  ghost predicate Sent(s: State, r: Reply, user: UserId, sender: AccountId, receiver: AccountId, amount: int) {
    var short := Shortfall(s, sender, amount);
    && r.body.SendBody? && r.body.hold.TransferBody?
    && (r.body.draw.None? <==> short == 0) && (r.body.draw.Some? ==> r.body.draw.value.amount == short)
    && amount > 0 && IsKind(r.state.accounts, sender, UserAccount)
    && r.state.accounts[sender].owner == Some(user) && r.state.accounts[sender].status == Active
    && var h := r.body.hold.transferId;
       && OpenHold(r.state.transfers, h, UndoHold, PendingUndo)
       && r.state.transfers[h].sender == sender && r.state.transfers[h].intended == Some(receiver)
            && r.state.transfers[h].amount == amount
       && (forall k :: k in r.state.idem && k.endpoint.UndoOf? ==> k.endpoint.transfer != h)
  }

  /**
   * A send lowers the sender's net position by exactly its amount, drawing exactly the shortfall; nobody else's
   * changes.
   */
  lemma SendLowersNet(cfg: Config, s: State, now: Time, user: UserId, sender: AccountId, receiver: AccountId,
                      amount: int, key: nat, note: nat,
                      a: AccountId, u: UserId)
    requires Wired(cfg) && Inv(cfg, s) && SendFrom(cfg, s, now, user, sender, receiver, amount, key, note).Ok?
    requires IdemKey(user, Transfers, ClientKey(key)) !in s.idem
    requires IsKind(s.accounts, sender, UserAccount) && IsKind(s.accounts, receiver, UserAccount)
    requires IsKind(s.accounts, a, UserAccount)
    ensures var r := SendFrom(cfg, s, now, user, sender, receiver, amount, key, note).value;
      var short := Shortfall(s, sender, amount);
      && Sent(s, r, user, sender, receiver, amount)
      && BalanceOf(r.state.accounts, a) == BalanceOf(s.accounts, a) - (if a == sender then amount - short else 0)
      && Debt(r.state, u) == Debt(s, u) + (if u == user then short else 0)
      && Net(r.state, a, u) == Net(s, a, u) - (if a == sender then amount - short else 0)
           - (if u == user then short else 0)
  {
    hide Sum, Posted, SentToday, SumSentSince, Execute, BooksOk, TransfersOk, LoansOk, LegalRow, FindUser,
         TransferOk, RequestOk, EscrowOk, LegsOk, DailyOk, PoolsWhole, PendingGap, EscrowGap, EscrowsOk, RequestsOk,
         TasksOk, Conserved, IdemOkBut, KeyOk, LienKeysOld, PoolsOk, Allowed, UndoableSend, Inv, ActiveGrants,
         FirstCovering, IdemOk, Linked, Extends, DrawShortfall, NoUndoKeys, Schedule;
    InvParts(cfg, s);
    var top, fp := IdemKey(user, Transfers, ClientKey(key)), SendPayload(sender, receiver, amount, note);
    var s0 := Begin(s, top, fp);
    BeginKeepsKeys(s, top, fp);
    ConservedButKeys(cfg, s, s0);
    NoEarlierDraw(s, top, fp, key, user);
    UndoKeysOld(s, top, fp);
    DrawIsShortfall(cfg, s0, now, top, user, sender, amount, key, a, u);
    DrawShortfallKeeps(cfg, s0, now, top, user, sender, amount, key);
    var d := DrawShortfall(cfg, s0, now, user, sender, amount, key).value;
    HoldTakesAmount(cfg, d.state, now, top, user, sender, receiver, amount, key, a, u);
  }

  lemma HoldTakesAmount(cfg: Config, s: State, now: Time, top: IdemKey, user: UserId, sender: AccountId,
                        receiver: AccountId, amount: int, key: nat,
                        a: AccountId, u: UserId)
    requires Wired(cfg) && Conserved(cfg, s) && Linked(s) && IdemOkBut(s, {top}) && top in s.idem
    requires top == IdemKey(user, Transfers, ClientKey(key))
    requires IdemKey(user, InternalUndoHold, UndoHoldKey(key)) !in s.idem
    requires IsKind(s.accounts, sender, UserAccount) && s.accounts[sender].owner == Some(user)
      && IsKind(s.accounts, receiver, UserAccount)
    requires IsKind(s.accounts, a, UserAccount) && NoUndoKeys(s.idem, |s.transfers|)
    requires UndoableSend(cfg, s, now, user, sender, receiver, amount,
                          IdemKey(user, InternalUndoHold, UndoHoldKey(key))).Ok?
    ensures var e := UndoableSend(cfg, s, now, user, sender, receiver, amount,
                                  IdemKey(user, InternalUndoHold, UndoHoldKey(key))).value;
      var h := e.result.transferId;
      && BalanceOf(e.state.accounts, a) == BalanceOf(s.accounts, a) - (if a == sender then amount else 0)
      && Debt(e.state, u) == Debt(s, u)
      && OpenHold(e.state.transfers, h, UndoHold, PendingUndo)
      && e.state.transfers[h].sender == sender && e.state.transfers[h].intended == Some(receiver)
           && e.state.transfers[h].amount == amount
      && (forall k :: k in e.state.idem && k.endpoint.UndoOf? ==> k.endpoint.transfer != h)
      && amount > 0 && SameShape(s.accounts, e.state.accounts) && s.accounts[sender].status == Active
  {
    hide Sum, Posted, SentToday, SumSentSince, Execute, Core, LegalRow, Conserved, IdemOkBut, KeyOk, Linked, Extends,
         LienKeysOld, Schedule;
    var holdKey := IdemKey(user, InternalUndoHold, UndoHoldKey(key));
    var c := HoldCommand(user, sender, PENDING_SETTLEMENT, amount, UndoHold, PendingUndo, holdKey, receiver);
    UndoableSendKeeps(cfg, s, now, top, user, sender, receiver, amount, key);
    var s1 := Execute(cfg, s, now, c).value.state;
    PostedPlainly(s, s1, now, c, a, u);
    PostedExtends(s, s1, now, c, 0);
    PostedUndoKeys(s, s1, now, c, 0, |s.transfers|);
    ConservedAccounts(cfg, s);
    assert AccountOk(PENDING_SETTLEMENT, s.accounts[PENDING_SETTLEMENT]);
    assert Allowed(cfg, s, now, c) by {
      assert LegalRow(s, now, c) by { HoldIsLegal(s, now, user, sender, receiver, amount, holdKey); }
      LienKeysOldBut(s, {top});
      ConservedCore(cfg, s);
      ExecuteEffect(cfg, s, now, c);
    }
  }

  /** Closing a hold raises its beneficiary's net position by exactly the amount, however much of it the lien takes. */
  lemma ClosingRaisesNet(cfg: Config, s: State, now: Time, open: set<IdemKey>, h: TransferId, z: Closing,
                         actor: UserId, a: AccountId, user: UserId)
    requires Wired(cfg) && Conserved(cfg, s) && IdemOkBut(s, open) && NoLienKeys(open)
    requires IsClosing(z) && OpenHold(s.transfers, h, z.hold, z.open)
    requires IsKind(s.accounts, a, UserAccount) && s.accounts[a].owner == Some(user)
    ensures var c := ClosingCommand(s, h, z, actor);
      var r := Execute(cfg, Latch(s, h, z.outcome), now, c);
      && InRange(s, c)
      && (r.Ok? <==> s.accounts[c.receiver].status == Active)
      && (r.Ok? ==>
            Net(r.value.state, a, user) == Net(s, a, user) + (if a == c.receiver then s.transfers[h].amount else 0))
  {
    hide Sum, Posted, LienOn, Execute, Core, Conserved, KeyOk, IdemOkBut, Extends;
    ClosingKeeps(cfg, s, now, open, h, z, actor);
    var c := ClosingCommand(s, h, z, actor);
    var latched := Latch(s, h, z.outcome);
    var r := Execute(cfg, latched, now, c);
    if r.Ok? {
      ConservedAccounts(cfg, s);
      PostedNet(cfg, latched, r.value.state, now, c, a, user);
      assert AccountOk(c.sender, s.accounts[c.sender]);
    }
  }

  /** Undoing a send gives its sender exactly the amount back. */
  lemma UndoRaisesNet(cfg: Config, s: State, now: Time, h: TransferId, actor: UserId, key: nat, a: AccountId,
                      user: UserId)
    requires Wired(cfg) && Inv(cfg, s) && MayUndo(s, h, actor) && IdemKey(actor, UndoOf(h), ClientKey(key)) !in s.idem
    requires IsKind(s.accounts, a, UserAccount) && s.accounts[a].owner == Some(user)
    ensures var r := Undo(cfg, s, now, h, actor, key);
      r.Ok? && Net(r.value.state, a, user) == Net(s, a, user)
          + (if a == s.transfers[h].sender then s.transfers[h].amount else 0)
  {
    hide Sum, Posted, LienOn, Execute, Core, Conserved, KeyOk, IdemOkBut, Extends, Inv, Linked, IdemOk, Cancel;
    InvParts(cfg, s);
    var top, fp := IdemKey(actor, UndoOf(h), ClientKey(key)), UndoPayload(h);
    var s0 := Begin(s, top, fp);
    BeginKeepsKeys(s, top, fp);
    ConservedButKeys(cfg, s, s0);
    ClosingRaisesNet(cfg, s0, now, {top}, h, UNDO_REFUND, actor, a, user);
  }

  /**
   * The balance an undo reports is the one before the lien on the refund: it is the final balance exactly when
   * nothing is swept.
   */
  lemma UndoReportsBeforeLien(cfg: Config, s: State, now: Time, h: TransferId, actor: UserId, key: nat)
    requires Wired(cfg) && Inv(cfg, s) && MayUndo(s, h, actor) && IdemKey(actor, UndoOf(h), ClientKey(key)) !in s.idem
    ensures var r := Undo(cfg, s, now, h, actor, key);
      var hold := s.transfers[h];
      && r.Ok? && r.value.body.UndoBody?
      && r.value.body.transferId == h && r.value.body.refund == |s.transfers| && r.value.body.amount == hold.amount
      && r.value.body.senderBalance == BalanceOf(s.accounts, hold.sender) + hold.amount
      && r.value.body.senderBalance - BalanceOf(r.value.state.accounts, hold.sender)
           == Min(Budget(cfg, hold.amount), Debt(s, actor))
  {
    hide Sum, Posted, Execute, Core, Conserved, KeyOk, IdemOkBut, Extends, Inv, Linked, IdemOk, Cancel;
    InvParts(cfg, s);
    var top, fp := IdemKey(actor, UndoOf(h), ClientKey(key)), UndoPayload(h);
    var s0 := Begin(s, top, fp);
    BeginKeepsKeys(s, top, fp);
    ConservedButKeys(cfg, s, s0);
    ClosingKeeps(cfg, s0, now, {top}, h, UNDO_REFUND, actor);
    ConservedAccounts(cfg, s);
    var c := ClosingCommand(s0, h, UNDO_REFUND, actor);
    var latched := Latch(s0, h, Refunded);
    assert TransferOk(s.accounts, s.transfers, h);
    PostedBalance(latched, Execute(cfg, latched, now, c).value.state, now, c, LienOn(cfg, latched, c), c.receiver);
  }

  /** A send and then its undo, under any key: the undo cannot fail, and every user ends where they started. */
  lemma SendThenUndo(cfg: Config, s: State, now: Time, user: UserId, sender: AccountId, receiver: AccountId,
                     amount: int, key: nat, note: nat,
                     later: Time, undoKey: nat, a: AccountId, u: UserId)
    requires Wired(cfg) && Inv(cfg, s) && SendFrom(cfg, s, now, user, sender, receiver, amount, key, note).Ok?
    requires IdemKey(user, Transfers, ClientKey(key)) !in s.idem
    requires IsKind(s.accounts, sender, UserAccount) && IsKind(s.accounts, receiver, UserAccount)
    requires IsKind(s.accounts, a, UserAccount) && s.accounts[a].owner == Some(u)
    ensures var r := SendFrom(cfg, s, now, user, sender, receiver, amount, key, note).value;
      && r.body.SendBody? && r.body.hold.TransferBody?
      && var undone := Undo(cfg, r.state, later, r.body.hold.transferId, user, undoKey);
         undone.Ok? && Net(undone.value.state, a, u) == Net(s, a, u)
  {
    hide Sum, Inv, SendFrom, Undo, NetPosition, AccountOk;
    var r := SendFrom(cfg, s, now, user, sender, receiver, amount, key, note).value;
    SendLowersNet(cfg, s, now, user, sender, receiver, amount, key, note, a, u);
    SendFromKeeps(cfg, s, now, user, sender, receiver, amount, key, note);
    var h := r.body.hold.transferId;
    assert IsKind(r.state.accounts, a, UserAccount) && r.state.accounts[a].owner == Some(u) by {
      SendKeepsAccounts(cfg, s, now, user, sender, receiver, amount, key, note);
    }
    UndoRaisesNet(cfg, r.state, later, h, user, undoKey, a, u);
    assert a == sender <==> u == user by {
      SendKeepsAccounts(cfg, s, now, user, sender, receiver, amount, key, note);
      InvParts(cfg, s);
      ConservedAccounts(cfg, s);
    }
  }

  lemma SendKeepsAccounts(cfg: Config, s: State, now: Time, user: UserId, sender: AccountId, receiver: AccountId,
                          amount: int, key: nat, note: nat)
    requires SendFrom(cfg, s, now, user, sender, receiver, amount, key, note).Ok?
    requires IdemKey(user, Transfers, ClientKey(key)) !in s.idem
    ensures AccountsKept(s.accounts, SendFrom(cfg, s, now, user, sender, receiver, amount, key,
                                              note).value.state.accounts)
    ensures sender < |s.accounts| && s.accounts[sender].owner == Some(user)
  {
    hide Growth.Grows, DrawShortfall, UndoableSend;
    Growth.SendGrows(cfg, s, now, user, sender, receiver, amount, key, note);
    Growth.GrowsAccounts(cfg, s, SendFrom(cfg, s, now, user, sender, receiver, amount, key, note).value.state);
  }

  // -- locks ----------------------------------------------------------------

  /** The one sorted batch `send` locks before anything else. */
  function SendBatch(s: State, user: UserId, sender: AccountId): set<AccountId> {
    {sender, PENDING_SETTLEMENT} + set g | g in ActiveGrants(s, user) && g < |s.grants|
        && s.grants[g].pool < |s.pools| :: s.pools[s.grants[g].pool].account
  }

  /** The draw a send would make from grant `g`. */
  function DrawFrom(s: State, user: UserId, sender: AccountId, short: int, key: nat, g: nat): TransferCommand
    requires g < |s.grants| && s.grants[g].pool < |s.pools|
  {
    var pool := s.grants[g].pool;
    DrawCommand(s.pools[pool].sponsor, pool, s.pools[pool].account, user, sender, short, key)
  }

  /** Every transfer nested in a send, drawn or not, locks only rows of that batch. */
  lemma SendLocksCovered(cfg: Config, s: State, now: Time, user: UserId, sender: AccountId, receiver: AccountId,
                         amount: int, key: nat)
    requires AccountsOk(s.accounts) && sender < |s.accounts|
    ensures var short := Shortfall(s, sender, amount);
      var selected := FirstCovering(s, ActiveGrants(s, user), short);
      selected.Some? ==> LockSet(s, DrawFrom(s, user, sender, short, key, selected.value)) <= SendBatch(s, user, sender)
    ensures var drawn := DrawShortfall(cfg, s, now, user, sender, amount, key);
      drawn.Ok? ==>
        LockSet(drawn.value.state,
                HoldCommand(user, sender, PENDING_SETTLEMENT, amount, UndoHold, PendingUndo,
                            IdemKey(user, InternalUndoHold, UndoHoldKey(key)), receiver))
          <= SendBatch(s, user, sender)
  {
    hide ActiveGrants, FirstCovering, DrawShortfall, Growth.Grows;
    var drawn := DrawShortfall(cfg, s, now, user, sender, amount, key);
    Growth.DrawGrows(cfg, s, now, user, sender, amount, key);
    assert AccountOk(PENDING_SETTLEMENT, s.accounts[PENDING_SETTLEMENT]);
    if drawn.Ok? {
      Growth.GrowsAccounts(cfg, s, drawn.value.state);
    }
  }
}
