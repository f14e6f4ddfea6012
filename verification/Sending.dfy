/** `send`, `undo` and the settlement of undo holds keep the invariant. */
module Sending {
  import opened Kernel
  import opened Sums
  import opened Accounts
  import opened Policies
  import opened Tables
  import opened Idempotency
  import opened Transfers
  import opened Scheduling
  import opened Invariants
  import opened Legs
  import opened Backing
  import opened Sweeps
  import opened Executions
  import opened Settling
  import opened Conservation
  import opened Keeping
  import opened Payments
  import opened SpotMe
  import opened Holds
  import Growth

  // -- keys while a command's own reservation is still open ------------------

  predicate IdemOkBut(s: State, open: set<IdemKey>) {
    forall k :: k in s.idem && k !in open ==> s.idem[k].Completed? && KeyOk(s, k, s.idem[k].fingerprint)
  }

  lemma BeginKeepsKeys(s: State, top: IdemKey, fingerprint: Payload)
    requires IdemOk(s) && top !in s.idem
    ensures IdemOkBut(Begin(s, top, fingerprint), {top}) && Extends(s, Begin(s, top, fingerprint))
  {
    hide KeyOk;
    var s' := Begin(s, top, fingerprint);
    assert Extends(s, s');
    forall k | k in s'.idem && k != top
      ensures s'.idem[k].Completed? && KeyOk(s', k, s'.idem[k].fingerprint)
    {
      KeyStays(s, s', k, s.idem[k].fingerprint);
    }
  }

  lemma PostedKeepsKeys(s: State, s': State, now: Time, c: TransferCommand, repaid: int, open: set<IdemKey>)
    requires IdemOkBut(s, open) && InRange(s, c) && Posted(s, s', now, c, repaid)
    requires c.key in open || KeyOk(s', c.key, c.fingerprint)
    ensures IdemOkBut(s', open)
  {
    hide Sum, Posted, Extends;
    PostedTables(s, s', now, c, repaid);
    PostedExtends(s, s', now, c, repaid);
    forall k | k in s'.idem && k !in open
      ensures s'.idem[k].Completed? && KeyOk(s', k, s'.idem[k].fingerprint)
    {
      if k in s.idem {
        KeyStays(s, s', k, s.idem[k].fingerprint);
      }
    }
  }

  lemma CompleteKeepsKeys(s: State, top: IdemKey, fingerprint: Payload, body: Body)
    requires IdemOkBut(s, {top}) && top in s.idem && KeyOk(s, top, fingerprint)
    ensures IdemOk(Complete(s, top, fingerprint, body))
  {
    hide KeyOk;
    var s' := Complete(s, top, fingerprint, body);
    assert Extends(s, s');
    forall k | k in s'.idem
      ensures s'.idem[k].Completed? && KeyOk(s', k, s'.idem[k].fingerprint)
    {
      KeyStays(s, s', k, if k == top then fingerprint else s.idem[k].fingerprint);
    }
  }

  /** Keys survive a change to tables they do not read. */
  lemma ExtendKeepsKeys(s: State, s': State, open: set<IdemKey>)
    requires IdemOkBut(s, open) && Extends(s, s') && s'.idem == s.idem
    ensures IdemOkBut(s', open)
  {
    hide KeyOk, Extends;
    forall k | k in s'.idem && k !in open
      ensures s'.idem[k].Completed? && KeyOk(s', k, s'.idem[k].fingerprint)
    {
      KeyStays(s, s', k, s.idem[k].fingerprint);
    }
  }

  lemma LienKeysOldBut(s: State, open: set<IdemKey>)
    requires IdemOkBut(s, open) && forall k :: k in open ==> !k.key.LienKey?
    ensures LienKeysOld(s.idem, |s.transfers|)
  {
  }

  // -- the draw -------------------------------------------------------------

  /** The draw of a new send never replays: its key names a borrower whose send would have to exist. */
  lemma DrawKeyIsNew(cfg: Config, s: State, now: Time, top: IdemKey, c: TransferCommand, key: nat, pool: nat,
                     user: UserId)
    requires IdemOkBut(s, {top}) && top == IdemKey(user, Transfers, ClientKey(key))
    requires c.key.key == DrawKey(key) && c.fingerprint == DrawPayload(pool, user, c.amount)
    requires forall k :: k in s.idem && k.key == DrawKey(key) && s.idem[k].fingerprint.DrawPayload? ==>
      s.idem[k].fingerprint.borrower != user
    requires Execute(cfg, s, now, c).Ok?
    ensures c.key !in s.idem
  {
    hide Execute;
    MismatchFails(cfg, s, now, c);
  }

  lemma NoEarlierDraw(s: State, top: IdemKey, fingerprint: Payload, key: nat, user: UserId)
    requires IdemOk(s) && top == IdemKey(user, Transfers, ClientKey(key)) && top !in s.idem
    ensures var idem := Begin(s, top, fingerprint).idem;
      forall k :: k in idem && k.key == DrawKey(key) && idem[k].fingerprint.DrawPayload? ==>
        idem[k].fingerprint.borrower != user
    ensures IdemKey(user, InternalUndoHold, UndoHoldKey(key)) !in Begin(s, top, fingerprint).idem
  {
    hide FindUser;
    KeyMeans(s, IdemKey(user, InternalUndoHold, UndoHoldKey(key)));
    forall k | k in s.idem && k.key == DrawKey(key) && s.idem[k].fingerprint.DrawPayload?
      ensures s.idem[k].fingerprint.borrower != user
    {
      KeyMeans(s, k);
    }
  }

  lemma DrawIsLegal(s: State, now: Time, pool: nat, user: UserId, sender: AccountId, amount: int, key: nat)
    requires PoolsOk(s.accounts, s.pools) && pool < |s.pools| && IsKind(s.accounts, sender, UserAccount)
    ensures LegalRow(s, now, DrawCommand(s.pools[pool].sponsor, pool, s.pools[pool].account, user, sender, amount, key))
  {
  }

  /** One draw: the pool pays, the loan records it, and nothing else moves. */
  lemma DrawKeeps(cfg: Config, s: State, now: Time, top: IdemKey, pool: nat, user: UserId, sender: AccountId,
                  amount: int, key: nat)
    requires Wired(cfg) && Conserved(cfg, s) && Linked(s) && IdemOkBut(s, {top}) && top in s.idem
    requires top == IdemKey(user, Transfers, ClientKey(key))
    requires forall k :: k in s.idem && k.key == DrawKey(key) && s.idem[k].fingerprint.DrawPayload? ==>
      s.idem[k].fingerprint.borrower != user
    requires pool < |s.pools| && IsKind(s.accounts, sender, UserAccount) && s.accounts[sender].owner == Some(user)
    requires Granted(s.grants, Loan(pool, user, |s.transfers|, amount, amount, Outstanding, now))
    requires var c := DrawCommand(s.pools[pool].sponsor, pool, s.pools[pool].account, user, sender, amount, key);
      Execute(cfg, s, now, c).Ok?
    ensures var c := DrawCommand(s.pools[pool].sponsor, pool, s.pools[pool].account, user, sender, amount, key);
      var draw := Execute(cfg, s, now, c).value;
      var s' := CreateLoan(draw.state, pool, user, draw.result.transferId, amount, now);
      && InRange(s, c) && c.key !in s.idem && draw.result == ResultOf(s, now, c)
      && Posted(s, draw.state, now, c, 0)
      && Conserved(cfg, s') && Linked(s') && IdemOkBut(s', {top}) && Extends(s, s') && s'.tasks == s.tasks
  {
    hide Sum, Posted, SentToday, SumSentSince, Execute, BooksOk, TransfersOk, LoansOk, LegalRow, AccountsOk,
         FindUser, TransferOk, LegsOk, DailyOk, PoolsWhole, PendingGap, EscrowGap, EscrowsOk, RequestsOk, TasksOk,
         Conserved, Extends, IdemOkBut, KeyOk, LienKeysOld, PoolsOk;
    var c := DrawCommand(s.pools[pool].sponsor, pool, s.pools[pool].account, user, sender, amount, key);
    DrawKeyIsNew(cfg, s, now, top, c, key, pool, user);
    ConservedAccounts(cfg, s);
    DrawIsLegal(s, now, pool, user, sender, amount, key);
    LienKeysOldBut(s, {top});
    ConservedCore(cfg, s);
    ExecuteEffect(cfg, s, now, c);
    var s1 := Execute(cfg, s, now, c).value.state;
    assert LienOn(cfg, s, c) == 0;
    assert TermsStand(s.loans, s1.loans) by { Growth.ExecuteFramed(cfg, s, now, c); }
    DrawConserves(cfg, s, s1, now, c, pool, user);
    PostedKeepsLinks(s, s1, now, c, 0);
    PostedExtends(s, s1, now, c, 0);
    assert top in s1.idem by { PostedTables(s, s1, now, c, 0); }
    assert KeyOk(s1, c.key, c.fingerprint) by { DrawKeyOk(s1, c.key, c.fingerprint, top); }
    PostedKeepsKeys(s, s1, now, c, 0, {top});
    var s2 := CreateLoan(s1, pool, user, |s.transfers|, amount, now);
    assert Extends(s1, s2) by { LoanExtends(s1, pool, user, |s.transfers|, amount, now); }
    ExtendKeepsKeys(s1, s2, {top});
    ExtendsThenExtends(s, s1, s2);
  }

  lemma DrawKeyOk(s: State, k: IdemKey, fingerprint: Payload, top: IdemKey)
    requires k.key.DrawKey? && fingerprint.DrawPayload? && !k.endpoint.UndoOf?
    requires top == IdemKey(fingerprint.borrower, Transfers, ClientKey(k.key.key)) && top in s.idem
    ensures KeyOk(s, k, fingerprint)
  {
  }

  lemma LoanExtends(s: State, pool: nat, user: UserId, draw: TransferId, amount: int, now: Time)
    ensures Extends(s, CreateLoan(s, pool, user, draw, amount, now))
  {
  }

  lemma ConservedCore(cfg: Config, s: State)
    requires Conserved(cfg, s)
    ensures Core(s)
  {
  }

  // -- the hold -------------------------------------------------------------

  lemma HoldIsLegal(s: State, now: Time, actor: UserId, payer: AccountId, receiver: AccountId, amount: int,
                    key: IdemKey)
    requires AccountsOk(s.accounts)
    requires IsKind(s.accounts, payer, UserAccount) && s.accounts[payer].owner == Some(actor)
      && IsKind(s.accounts, receiver, UserAccount)
    ensures LegalRow(s, now, HoldCommand(actor, payer, PENDING_SETTLEMENT, amount, UndoHold, PendingUndo, key,
                                         receiver))
    ensures LegalRow(s, now, HoldCommand(actor, payer, ESCROW, amount, EscrowHold, Held, key, receiver))
  {
  }

  /** Opening an undo window: the hold and its task together. */
  lemma UndoableSendKeeps(cfg: Config, s: State, now: Time, top: IdemKey, user: UserId, sender: AccountId,
                          receiver: AccountId, amount: int, key: nat)
    requires Wired(cfg) && Conserved(cfg, s) && Linked(s) && IdemOkBut(s, {top}) && top in s.idem
    requires top == IdemKey(user, Transfers, ClientKey(key))
    requires IdemKey(user, InternalUndoHold, UndoHoldKey(key)) !in s.idem
    requires IsKind(s.accounts, sender, UserAccount) && s.accounts[sender].owner == Some(user)
      && IsKind(s.accounts, receiver, UserAccount)
    requires UndoableSend(cfg, s, now, user, sender, receiver, amount,
                          IdemKey(user, InternalUndoHold, UndoHoldKey(key))).Ok?
    ensures var hold := UndoableSend(cfg, s, now, user, sender, receiver, amount,
                                     IdemKey(user, InternalUndoHold, UndoHoldKey(key))).value;
      var c := HoldCommand(user, sender, PENDING_SETTLEMENT, amount, UndoHold, PendingUndo,
                           IdemKey(user, InternalUndoHold, UndoHoldKey(key)), receiver);
      && InRange(s, c) && hold.result == ResultOf(s, now, c)
      && Execute(cfg, s, now, c).Ok? && hold.state == Execute(cfg, s, now, c).value.state.(tasks := hold.state.tasks)
      && Posted(s, Execute(cfg, s, now, c).value.state, now, c, 0)
      && Conserved(cfg, hold.state) && Linked(hold.state) && IdemOkBut(hold.state, {top}) && top in hold.state.idem
  {
    hide Sum, Posted, SentToday, SumSentSince, Execute, BooksOk, TransfersOk, LoansOk, LegalRow, FindUser,
         TransferOk, RequestOk, EscrowOk, LegsOk, DailyOk, PoolsWhole, PendingGap, EscrowGap, EscrowsOk, RequestsOk,
         TasksOk, Conserved, Extends, IdemOkBut, KeyOk, LienKeysOld, PoolsOk, Allowed;
    var holdKey := IdemKey(user, InternalUndoHold, UndoHoldKey(key));
    var c := HoldCommand(user, sender, PENDING_SETTLEMENT, amount, UndoHold, PendingUndo, holdKey, receiver);
    ConservedAccounts(cfg, s);
    HoldIsLegal(s, now, user, sender, receiver, amount, holdKey);
    LienKeysOldBut(s, {top});
    ExecuteConserves(cfg, s, now, c);
    var s1 := Execute(cfg, s, now, c).value.state;
    assert AccountOk(PENDING_SETTLEMENT, s.accounts[PENDING_SETTLEMENT]);
    assert LienOn(cfg, s, c) == 0;
    PostedKeepsLinks(s, s1, now, c, 0);
    PostedExtends(s, s1, now, c, 0);
    assert top in s1.idem by { PostedTables(s, s1, now, c, 0); }
    assert KeyOk(s1, c.key, c.fingerprint) by { UndoHoldKeyOk(s1, c.key, c.fingerprint, top); }
    PostedKeepsKeys(s, s1, now, c, 0, {top});
    var n := |s.transfers|;
    var s2 := s1.(tasks := Schedule(s1.tasks, TaskKey(UndoSettleTask, n), now + UNDO_WINDOW));
    assert TasksOk(s2.transfers, s2.escrows, s2.tasks) by {
      PostedTables(s, s1, now, c, 0);
      HoldScheduled(s.transfers, s1.transfers, RowOf(now, c), now, s.escrows, s.tasks, now + UNDO_WINDOW);
    }
    assert Extends(s1, s2) by { TasksExtend(s1, s2); }
    ExtendKeepsKeys(s1, s2, {top});
    assert Conserved(cfg, s2) by { ConservedButTasks(cfg, s1, s2); }
  }

  lemma ConservedButTasks(cfg: Config, s: State, s': State)
    requires Conserved(cfg, s) && s' == s.(tasks := s'.tasks)
    ensures Conserved(cfg, s')
  {
  }

  lemma TasksExtend(s: State, s': State)
    requires s' == s.(tasks := s'.tasks)
    ensures Extends(s, s')
  {
  }

  lemma UndoHoldKeyOk(s: State, k: IdemKey, fingerprint: Payload, top: IdemKey)
    requires k.key.UndoHoldKey? && !k.endpoint.UndoOf?
    requires top == IdemKey(k.actor, Transfers, ClientKey(k.key.key)) && top in s.idem
    ensures KeyOk(s, k, fingerprint)
  {
  }

  lemma HoldScheduled(before: seq<Transfer>, after: seq<Transfer>, row: Transfer, now: Time, escrows: seq<Escrow>,
                      tasks: map<TaskKey, Task>, due: Time)
    requires TasksOk(before, escrows, tasks) && RowsAppended(before, after, row, now)
    ensures TasksOk(after, escrows, Schedule(tasks, TaskKey(UndoSettleTask, |before|), due))
  {
    var n := |before|;
    var key := TaskKey(UndoSettleTask, n);
    var tasks' := Schedule(tasks, key, due);
    assert key !in tasks by {
      assert key in tasks ==> TaskOk(before, escrows, key, tasks[key]);
    }
    AppendedKeepsRows(before, before, after, row, now, n);
    forall k | k in tasks'
      ensures TaskOk(after, escrows, k, tasks'[k])
    {
      if k in tasks { assert TaskOk(before, escrows, k, tasks[k]); }
    }
    forall t | 0 <= t < |after| && after[t].status == PendingUndo
      ensures Live(tasks', TaskKey(UndoSettleTask, t))
    {
      assert t > n ==> IsLienRow(after[t], row.receiver, now);
    }
  }

  // -- send -----------------------------------------------------------------

  lemma SendFromKeeps(cfg: Config, s: State, now: Time, user: UserId, sender: AccountId, receiver: AccountId,
                      amount: int, key: nat, note: nat)
    requires Wired(cfg) && Inv(cfg, s) && SendFrom(cfg, s, now, user, sender, receiver, amount, key, note).Ok?
    requires IsKind(s.accounts, sender, UserAccount) && IsKind(s.accounts, receiver, UserAccount)
    ensures Inv(cfg, SendFrom(cfg, s, now, user, sender, receiver, amount, key, note).value.state)
  {
    hide Sum, Posted, SentToday, SumSentSince, Execute, BooksOk, TransfersOk, LoansOk, LegalRow, FindUser,
         TransferOk, RequestOk, EscrowOk, AccountsOk, LegsOk, DailyOk, PoolsWhole, PendingGap, EscrowGap, EscrowsOk,
         RequestsOk, TasksOk, Conserved, IdemOkBut, KeyOk, LienKeysOld, PoolsOk, Allowed, UndoableSend, Inv,
         ActiveGrants, FirstCovering, IdemOk, Linked, Extends;
    InvParts(cfg, s);
    var top := IdemKey(user, Transfers, ClientKey(key));
    var fp := SendPayload(sender, receiver, amount, note);
    if top !in s.idem {
      var s0 := Begin(s, top, fp);
      BeginKeepsKeys(s, top, fp);
      ConservedButKeys(cfg, s, s0);
      NoEarlierDraw(s, top, fp, key, user);
      var drawn := DrawShortfall(cfg, s0, now, user, sender, amount, key).value;
      DrawShortfallKeeps(cfg, s0, now, top, user, sender, amount, key);
      UndoableSendKeeps(cfg, drawn.state, now, top, user, sender, receiver, amount, key);
      var hold := UndoableSend(cfg, drawn.state, now, user, sender, receiver, amount,
                               IdemKey(user, InternalUndoHold, UndoHoldKey(key))).value;
      var body := SendBody(hold.result.ToResponse(), hold.result.completedAt + UNDO_WINDOW, drawn.draw);
      assert KeyOk(hold.state, top, fp) by { SendKeyOk(hold.state, top, fp); }
      CompleteKeepsKeys(hold.state, top, fp, body);
      var s2 := Complete(hold.state, top, fp, body);
      ConservedButKeys(cfg, hold.state, s2);
      InvParts(cfg, s2);
    }
  }

  lemma SendKeyOk(s: State, top: IdemKey, fingerprint: Payload)
    requires top.key.ClientKey? && !top.endpoint.UndoOf? && (top.endpoint == Transfers ==> !fingerprint.RequestPayload?)
    ensures KeyOk(s, top, fingerprint)
  {
  }

  /** The shortfall branch, drawn or not. */
  lemma DrawShortfallKeeps(cfg: Config, s: State, now: Time, top: IdemKey, user: UserId, sender: AccountId,
                           amount: int, key: nat)
    requires Wired(cfg) && Conserved(cfg, s) && Linked(s) && IdemOkBut(s, {top}) && top in s.idem
    requires top == IdemKey(user, Transfers, ClientKey(key))
    requires forall k :: k in s.idem && k.key == DrawKey(key) && s.idem[k].fingerprint.DrawPayload? ==>
      s.idem[k].fingerprint.borrower != user
    requires IdemKey(user, InternalUndoHold, UndoHoldKey(key)) !in s.idem
    requires IsKind(s.accounts, sender, UserAccount) && s.accounts[sender].owner == Some(user)
    requires DrawShortfall(cfg, s, now, user, sender, amount, key).Ok?
    ensures var s' := DrawShortfall(cfg, s, now, user, sender, amount, key).value.state;
      && Conserved(cfg, s') && Linked(s') && IdemOkBut(s', {top}) && top in s'.idem
      && Extends(s, s') && SameShape(s.accounts, s'.accounts)
      && IdemKey(user, InternalUndoHold, UndoHoldKey(key)) !in s'.idem
  {
    hide Sum, SentToday, SumSentSince, Execute, BooksOk, TransfersOk, LoansOk, LegalRow, FindUser, TransferOk,
         RequestOk, EscrowOk, AccountsOk, LegsOk, DailyOk, PoolsWhole, PendingGap, EscrowGap, EscrowsOk, RequestsOk,
         TasksOk, Conserved, IdemOkBut, KeyOk, LienKeysOld, PoolsOk, Allowed, Linked, RepaidExactly;
    var shortfall := Max(0, amount - s.accounts[sender].balance);
    if shortfall == 0 {
      assert Extends(s, s);
    } else {
      var selected := FirstCovering(s, ActiveGrants(s, user), shortfall);
      var pool := s.grants[selected.value].pool;
      GrantAllows(s, user, shortfall, selected.value, now);
      DrawKeeps(cfg, s, now, top, pool, user, sender, shortfall, key);
    }
  }

  /** The grant selected for a draw allows the loan it makes. */
  lemma GrantAllows(s: State, user: UserId, short: int, g: nat, now: Time)
    requires g in ActiveGrants(s, user) && Covers(s, g, short)
    ensures Granted(s.grants, Loan(s.grants[g].pool, user, |s.transfers|, short, short, Outstanding, now))
  {
    assert s.grants[g].beneficiary == user;
  }

  lemma SendKeeps(cfg: Config, s: State, now: Time, user: UserId, recipient: UserId, amount: int, key: nat, note: nat)
    requires Wired(cfg) && Inv(cfg, s) && Send(cfg, s, now, user, recipient, amount, key, note).Ok?
    ensures Inv(cfg, Send(cfg, s, now, user, recipient, amount, key, note).value.state)
  {
    hide Inv, SendFrom;
    var sender, receiver := FindUser(s.accounts, user).value, FindUser(s.accounts, recipient).value;
    SendFromKeeps(cfg, s, now, user, sender, receiver, amount, key, note);
  }
}
