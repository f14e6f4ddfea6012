/** When a send goes through: the exact condition, and the draw key two borrowers can collide on. */
module Shortfalls {
  import opened Kernel
  import opened Sums
  import opened Accounts
  import opened Policies
  import opened Tables
  import opened Idempotency
  import opened Transfers
  import opened Scheduling
  import opened Invariants
  import opened Legs
  import opened Executions
  import opened Settling
  import opened Conservation
  import opened Keeping
  import opened Payments
  import opened Sending
  import opened Positions
  import opened Holds
  import opened SpotMe
  import Queries

  /** The grant `send` would draw on. */
  function Selected(s: State, user: UserId, short: int): (g: Option<nat>)
    ensures g.Some? ==> g.value in ActiveGrants(s, user) && Covers(s, g.value, short)
  {
    FirstCovering(s, ActiveGrants(s, user), short)
  }

  /** The draw's key names the sponsor and the client's key, but not the borrower. */
  function SponsorKey(s: State, g: nat, key: nat): IdemKey
    requires g < |s.grants| && s.grants[g].pool < |s.pools|
  {
    IdemKey(s.pools[s.grants[g].pool].sponsor, InternalDraw, DrawKey(key))
  }

  /** Grant `g` is the borrower's, its pool's account is active, and both its limit and the pool's balance suffice. */
  predicate Eligible(s: State, user: UserId, short: int, g: nat) {
    && g < |s.grants| && s.grants[g].beneficiary == user
    && s.grants[g].pool < |s.pools| && s.pools[s.grants[g].pool].account < |s.accounts|
    && var account := s.accounts[s.pools[s.grants[g].pool].account];
       account.status == Active && short <= s.grants[g].maxDraw && short <= account.balance
  }

  predicate Older(grants: seq<Grant>, g: nat, h: nat)
    requires g < |grants| && h < |grants|
  {
    grants[g].createdAt < grants[h].createdAt || (grants[g].createdAt == grants[h].createdAt && g < h)
  }

  /** The oldest eligible grant. */
  predicate Chosen(s: State, user: UserId, short: int, g: nat) {
    && Eligible(s, user, short, g)
    && (forall h :: 0 <= h < |s.grants| && Eligible(s, user, short, h) ==> h == g || Older(s.grants, g, h))
  }

  /**
   * There is an oldest eligible grant, the shortfall is within the maximum, and its sponsor's draw key is not taken.
   */
  predicate MayDraw(cfg: Config, s: State, user: UserId, short: int, key: nat) {
    && short <= cfg.maxDraw
    && (exists g :: 0 <= g < |s.grants| && Chosen(s, user, short, g) && DrawKeyFree(s, g, key))
  }

  predicate DrawKeyFree(s: State, g: nat, key: nat) {
    g < |s.grants| && s.grants[g].pool < |s.pools| && SponsorKey(s, g, key) !in s.idem
  }

  predicate CanDraw(cfg: Config, s: State, user: UserId, short: int, key: nat) {
    var g := Selected(s, user, short);
    g.Some? && short <= cfg.maxDraw && SponsorKey(s, g.value, key) !in s.idem
  }

  /** Everything a send under a new key needs. */
  predicate MaySend(cfg: Config, s: State, now: Time, user: UserId, sender: AccountId, amount: int, key: nat) {
    && sender < |s.accounts|
    && s.accounts[sender].owner == Some(user) && s.accounts[sender].status == Active
    && amount > 0 && WithinLimits(cfg, s.transfers, sender, now, amount)
    && (Shortfall(s, sender, amount) == 0 || MayDraw(cfg, s, user, Shortfall(s, sender, amount), key))
  }

  /** The query and the search together find the oldest eligible grant. */
  lemma SelectedIsChosen(s: State, user: UserId, short: int, g: nat)
    ensures Selected(s, user, short) == Some(g) <==> Chosen(s, user, short, g)
  {
    hide FirstCovering, ActiveGrants;
    var ids := ActiveGrants(s, user);
    var r := Selected(s, user, short);
    forall h: nat
      ensures Eligible(s, user, short, h) <==> h in ids && Covers(s, h, short)
    {
    }
    if r.Some? {
      var k := FirstCoveringIsFirst(s, ids, short);
      SelectedIsOldest(s, user, short, ids, k);
      assert Chosen(s, user, short, r.value);
      OneChosen(s, user, short, g, r.value);
    }
  }

  lemma OneChosen(s: State, user: UserId, short: int, g: nat, h: nat)
    ensures Chosen(s, user, short, g) && Chosen(s, user, short, h) ==> g == h
  {
  }

  lemma SelectedIsOldest(s: State, user: UserId, short: int, ids: seq<nat>, k: nat)
    requires ids == ActiveGrants(s, user) && k < |ids| && Eligible(s, user, short, ids[k])
    requires NoneCovers(s, ids[..k], short)
    ensures Chosen(s, user, short, ids[k])
  {
    hide ActiveGrants;
    assert forall i :: 0 <= i < k ==> ids[i] in ids[..k] by {
      forall i | 0 <= i < k
        ensures ids[i] in ids[..k]
      {
        assert ids[..k][i] == ids[i];
      }
    }
    forall h | 0 <= h < |s.grants| && Eligible(s, user, short, h)
      ensures h == ids[k] || Older(s.grants, ids[k], h)
    {
      assert IsUsable(s.grants[h], s.pools, s.accounts, user);
      assert h in ids;
      var j :| 0 <= j < |ids| && ids[j] == h;
      assert j > k ==> Queries.Precedes(ids[k], ids[j], GrantAge(s.grants));
    }
  }

  lemma MayDrawMeans(cfg: Config, s: State, user: UserId, short: int, key: nat)
    ensures MayDraw(cfg, s, user, short, key) <==> CanDraw(cfg, s, user, short, key)
  {
    hide Eligible;
    var r := Selected(s, user, short);
    if r.Some? {
      SelectedIsChosen(s, user, short, r.value);
    }
    if MayDraw(cfg, s, user, short, key) {
      var g :| 0 <= g < |s.grants| && Chosen(s, user, short, g) && DrawKeyFree(s, g, key);
      SelectedIsChosen(s, user, short, g);
    }
  }

  lemma {:induction false} CoveringIgnoresKeys(s: State, s': State, ids: seq<nat>, short: int)
    requires SameButKeys(s, s')
    requires forall i :: i in ids ==> i < |s.grants| && s.grants[i].pool < |s.pools|
    requires forall i :: i in ids ==> s.pools[s.grants[i].pool].account < |s.accounts|
    ensures FirstCovering(s', ids, short) == FirstCovering(s, ids, short)
  {
    if ids != [] {
      assert ids[0] in ids;
      assert forall i :: i in ids[1..] ==> i in ids;
      CoveringIgnoresKeys(s, s', ids[1..], short);
    }
  }

  lemma SelectionIgnoresKeys(s: State, s': State, user: UserId, short: int)
    requires SameButKeys(s, s')
    ensures Selected(s', user, short) == Selected(s, user, short)
  {
    CoveringIgnoresKeys(s, s', ActiveGrants(s, user), short);
  }

  // -- the draw -------------------------------------------------------------

  /** With a grant selected, nothing but the borrower's status and the key can stop the draw. */
  lemma DrawAllowed(cfg: Config, s: State, now: Time, user: UserId, sender: AccountId, short: int, key: nat, g: nat)
    requires AccountsOk(s.accounts) && PoolsOk(s.accounts, s.pools) && IsKind(s.accounts, sender, UserAccount)
    requires g in ActiveGrants(s, user) && Covers(s, g, short) && short > 0
    ensures var c := DrawFrom(s, user, sender, short, key, g);
      && InRange(s, c) && !Liened(s, c)
      && (Allowed(cfg, s, now, c) <==> c.key !in s.idem && s.accounts[sender].status == Active)
  {
    hide SentToday, SumSentSince;
    var pool := s.grants[g].pool;
    assert IsUsable(s.grants[g], s.pools, s.accounts, user);
  }

  /** What the sender has sent today does not include what was drawn for it. */
  lemma DrawIsNotSent(s: State, now: Time, c: TransferCommand, sender: AccountId)
    requires InRange(s, c) && c.sender != sender
    ensures SentToday(Paid(s, now, c).transfers, sender, now) == SentToday(s.transfers, sender, now)
  {
    SentTodayAppends(s.transfers, RowOf(now, c), sender, now);
  }

  /** The draw branch succeeds exactly when there is nothing to draw, or the draw may be made. */
  lemma DrawOutcome(cfg: Config, s: State, now: Time, top: IdemKey, user: UserId, sender: AccountId, amount: int,
                    key: nat)
    requires Wired(cfg) && Conserved(cfg, s) && IdemOkBut(s, {top}) && top in s.idem
    requires top == IdemKey(user, Endpoint.Transfers, ClientKey(key))
    requires forall k :: k in s.idem && k.key == DrawKey(key) && s.idem[k].fingerprint.DrawPayload? ==>
      s.idem[k].fingerprint.borrower != user
    requires IsKind(s.accounts, sender, UserAccount)
    ensures var short := Shortfall(s, sender, amount);
      var d := DrawShortfall(cfg, s, now, user, sender, amount, key);
      && (short == 0 ==> d.Ok?)
      && (short > 0 ==> (d.Ok? <==> CanDraw(cfg, s, user, short, key) && s.accounts[sender].status == Active))
      && (d.Ok? ==>
            && SentToday(d.value.state.transfers, sender, now) == SentToday(s.transfers, sender, now)
            && SameShape(s.accounts, d.value.state.accounts)
            && BalanceOf(d.value.state.accounts, sender) == BalanceOf(s.accounts, sender) + short)
  {
    hide Sum, SentToday, SumSentSince, Execute, BooksOk, TransfersOk, LoansOk, LegsOk, DailyOk, PoolsWhole,
         PendingGap, EscrowGap, Conserved, IdemOkBut, KeyOk, Allowed, ActiveGrants, FirstCovering, Covers;
    var short := Shortfall(s, sender, amount);
    var g := Selected(s, user, short);
    if short > 0 && g.Some? && short <= cfg.maxDraw {
      ConservedAccounts(cfg, s);
      var c := DrawFrom(s, user, sender, short, key, g.value);
      DrawAllowed(cfg, s, now, user, sender, short, key, g.value);
      MismatchFails(cfg, s, now, c);
      if c.key !in s.idem {
        ExecuteUnfolds(cfg, s, now, c);
        if Allowed(cfg, s, now, c) {
          UnlienedExecute(cfg, s, now, c);
          DrawIsNotSent(s, now, c, sender);
          LegBalances(Begin(s, c.key, c.fingerprint), now, c, sender);
        }
      } else {
        TakenByAnother(cfg, s, top, c.key, user, key);
      }
    }
  }

  /** A draw key already taken was taken for another borrower. */
  lemma TakenByAnother(cfg: Config, s: State, top: IdemKey, k: IdemKey, user: UserId, key: nat)
    requires IdemOkBut(s, {top}) && top.key == ClientKey(key) && k in s.idem && k.key == DrawKey(key)
    requires forall k :: k in s.idem && k.key == DrawKey(key) && s.idem[k].fingerprint.DrawPayload? ==>
      s.idem[k].fingerprint.borrower != user
    ensures s.idem[k].fingerprint.DrawPayload? && s.idem[k].fingerprint.borrower != user
  {
    assert KeyOk(s, k, s.idem[k].fingerprint);
  }

  // -- the hold -------------------------------------------------------------

  lemma HoldAllowed(cfg: Config, s: State, now: Time, user: UserId, sender: AccountId, receiver: AccountId, amount: int,
                    key: IdemKey)
    requires AccountsOk(s.accounts) && IsKind(s.accounts, sender, UserAccount) && key !in s.idem
    ensures var c := HoldCommand(user, sender, PENDING_SETTLEMENT, amount, UndoHold, PendingUndo, key, receiver);
      Allowed(cfg, s, now, c) <==>
        && s.accounts[sender].owner == Some(user) && s.accounts[sender].status == Active
        && amount > 0 && BalanceOf(s.accounts, sender) >= amount
        && WithinLimits(cfg, s.transfers, sender, now, amount)
  {
    hide SentToday, SumSentSince;
    assert AccountOk(PENDING_SETTLEMENT, s.accounts[PENDING_SETTLEMENT]);
  }

  lemma HoldOutcome(cfg: Config, s: State, now: Time, user: UserId, sender: AccountId, receiver: AccountId, amount: int,
                    key: IdemKey)
    requires Wired(cfg) && AccountsOk(s.accounts) && IsKind(s.accounts, sender, UserAccount) && key !in s.idem
    ensures UndoableSend(cfg, s, now, user, sender, receiver, amount, key).Ok? <==>
      && s.accounts[sender].owner == Some(user) && s.accounts[sender].status == Active
      && amount > 0 && BalanceOf(s.accounts, sender) >= amount
      && WithinLimits(cfg, s.transfers, sender, now, amount)
  {
    hide SentToday, SumSentSince, Execute, WithinLimits, Allowed, Schedule;
    var c := HoldCommand(user, sender, PENDING_SETTLEMENT, amount, UndoHold, PendingUndo, key, receiver);
    HoldAllowed(cfg, s, now, user, sender, receiver, amount, key);
    assert AccountOk(PENDING_SETTLEMENT, s.accounts[PENDING_SETTLEMENT]);
    ExecuteUnfolds(cfg, s, now, c);
    if Allowed(cfg, s, now, c) {
      UnlienedExecute(cfg, s, now, c);
    }
  }

  // -- the send -------------------------------------------------------------

  /** A send under a new key goes through exactly when it may. */
  lemma SendSucceeds(cfg: Config, s: State, now: Time, user: UserId, sender: AccountId, receiver: AccountId,
                     amount: int, key: nat, note: nat)
    requires Wired(cfg) && Inv(cfg, s) && IdemKey(user, Endpoint.Transfers, ClientKey(key)) !in s.idem
    requires IsKind(s.accounts, sender, UserAccount) && IsKind(s.accounts, receiver, UserAccount)
    ensures SendFrom(cfg, s, now, user, sender, receiver, amount, key, note).Ok? <==>
      MaySend(cfg, s, now, user, sender, amount, key)
  {
    hide Sum, SentToday, SumSentSince, Execute, BooksOk, TransfersOk, LoansOk, AccountsOk, LegsOk, DailyOk,
         PoolsWhole, PendingGap, EscrowGap, EscrowsOk, RequestsOk, TasksOk, Conserved, IdemOkBut, KeyOk,
         UndoableSend, Inv, IdemOk, Linked, Extends, DrawShortfall, Selected, MayDraw;
    MayDrawMeans(cfg, s, user, Shortfall(s, sender, amount), key);
    InvParts(cfg, s);
    var top, fp := IdemKey(user, Endpoint.Transfers, ClientKey(key)), SendPayload(sender, receiver, amount, note);
    var s0 := Begin(s, top, fp);
    BeginKeepsKeys(s, top, fp);
    ConservedButKeys(cfg, s, s0);
    NoEarlierDraw(s, top, fp, key, user);
    SelectionIgnoresKeys(s, s0, user, Shortfall(s, sender, amount));
    DrawOutcome(cfg, s0, now, top, user, sender, amount, key);
    var d := DrawShortfall(cfg, s0, now, user, sender, amount, key);
    ShortfallOfNothing(cfg, s, sender, amount);
    if d.Ok? && s.accounts[sender].owner == Some(user) {
      DrawShortfallKeeps(cfg, s0, now, top, user, sender, amount, key);
      ConservedAccounts(cfg, d.value.state);
      HoldOutcome(cfg, d.value.state, now, user, sender, receiver, amount,
                  IdemKey(user, InternalUndoHold, UndoHoldKey(key)));
    }
  }

  /** The same at the command: both parties must exist and differ. */
  lemma SendCommandSucceeds(cfg: Config, s: State, now: Time, user: UserId, recipient: UserId, amount: int, key: nat,
                            note: nat)
    requires Wired(cfg) && Inv(cfg, s) && IdemKey(user, Endpoint.Transfers, ClientKey(key)) !in s.idem
    ensures var sender, receiver := FindUser(s.accounts, user), FindUser(s.accounts, recipient);
      Send(cfg, s, now, user, recipient, amount, key, note).Ok? <==>
        && sender.Some? && receiver.Some? && sender != receiver
        && MaySend(cfg, s, now, user, sender.value, amount, key)
  {
    hide Inv, SendFrom, MaySend;
    var sender, receiver := FindUser(s.accounts, user), FindUser(s.accounts, recipient);
    if sender.Some? && receiver.Some? {
      SendSucceeds(cfg, s, now, user, sender.value, receiver.value, amount, key, note);
    }
  }

  lemma ShortfallOfNothing(cfg: Config, s: State, sender: AccountId, amount: int)
    requires Conserved(cfg, s) && IsKind(s.accounts, sender, UserAccount)
    ensures BalanceOf(s.accounts, sender) + Shortfall(s, sender, amount) >= amount
    ensures amount <= 0 ==> Shortfall(s, sender, amount) == 0
  {
    ConservedAccounts(cfg, s);
    assert AccountOk(sender, s.accounts[sender]);
  }

  /** The state after the draw branch. */
  lemma DrawnExactly(cfg: Config, s: State, now: Time, user: UserId, sender: AccountId, amount: int, key: nat)
    requires Wired(cfg) && Conserved(cfg, s) && IsKind(s.accounts, sender, UserAccount)
    requires Shortfall(s, sender, amount) > 0 && CanDraw(cfg, s, user, Shortfall(s, sender, amount), key)
    requires s.accounts[sender].status == Active
    ensures var short := Shortfall(s, sender, amount);
      var c := DrawFrom(s, user, sender, short, key, Selected(s, user, short).value);
      && InRange(s, c)
      && DrawShortfall(cfg, s, now, user, sender, amount, key).Ok?
      && DrawShortfall(cfg, s, now, user, sender, amount, key).value.state
           == CreateLoan(Paid(s, now, c), s.grants[Selected(s, user, short).value].pool, user, |s.transfers|, short,
                         now)
      && DrawShortfall(cfg, s, now, user, sender, amount, key).value.draw
           == Some(DrawInfo(|s.loans|, s.grants[Selected(s, user, short).value].pool, |s.transfers|, short))
  {
    hide Execute, Conserved, Allowed, ActiveGrants, FirstCovering, Covers, Paid;
    var short := Shortfall(s, sender, amount);
    var g := Selected(s, user, short).value;
    ConservedAccounts(cfg, s);
    DrawAllowed(cfg, s, now, user, sender, short, key, g);
    UnlienedExecute(cfg, s, now, DrawFrom(s, user, sender, short, key, g));
    PaidTables(s, now, DrawFrom(s, user, sender, short, key, g), 0);
  }

  /** What a send with a draw leaves in the tables a later send reads. */
  ghost predicate DrewFrom(s: State, s': State, user: UserId, sender: AccountId, g: nat, short: int, key: nat)
    requires g < |s.grants| && s.grants[g].pool < |s.pools|
  {
    var pool := s.grants[g].pool;
    && s'.grants == s.grants && s'.pools == s.pools && SameShape(s.accounts, s'.accounts)
    && BalanceOf(s'.accounts, s.pools[pool].account) == BalanceOf(s.accounts, s.pools[pool].account) - short
    && s'.idem.Keys == s.idem.Keys + {IdemKey(user, Endpoint.Transfers, ClientKey(key)), SponsorKey(s, g, key),
                                      IdemKey(user, InternalUndoHold, UndoHoldKey(key))}
    && s'.idem[SponsorKey(s, g, key)].fingerprint == DrawPayload(pool, user, short)
    && (forall a: AccountId, now: Time :: a != sender && a != s.pools[pool].account ==>
          SentToday(s'.transfers, a, now) == SentToday(s.transfers, a, now))
  }

  lemma DrawnSend(cfg: Config, s: State, now: Time, user: UserId, sender: AccountId, receiver: AccountId, amount: int,
                  key: nat, note: nat)
    requires Wired(cfg) && Inv(cfg, s) && IdemKey(user, Endpoint.Transfers, ClientKey(key)) !in s.idem
    requires IsKind(s.accounts, sender, UserAccount) && IsKind(s.accounts, receiver, UserAccount)
    requires MaySend(cfg, s, now, user, sender, amount, key) && Shortfall(s, sender, amount) > 0
    ensures var r := SendFrom(cfg, s, now, user, sender, receiver, amount, key, note);
      var short := Shortfall(s, sender, amount);
      r.Ok? && DrewFrom(s, r.value.state, user, sender, Selected(s, user, short).value, short, key)
  {
    hide Sum, SentToday, SumSentSince, Execute, Core, Conserved, IdemOkBut, KeyOk, UndoableSend, Inv, IdemOk, Linked,
         Extends, DrawShortfall, WithinLimits, ActiveGrants, FirstCovering, Covers, Paid;
    MayDrawMeans(cfg, s, user, Shortfall(s, sender, amount), key);
    SendSucceeds(cfg, s, now, user, sender, receiver, amount, key, note);
    InvParts(cfg, s);
    var top, fp := IdemKey(user, Endpoint.Transfers, ClientKey(key)), SendPayload(sender, receiver, amount, note);
    var s0 := Begin(s, top, fp);
    ConservedButKeys(cfg, s, s0);
    BeginKeepsKeys(s, top, fp);
    NoEarlierDraw(s, top, fp, key, user);
    var short := Shortfall(s, sender, amount);
    SelectionIgnoresKeys(s, s0, user, short);
    DrawnExactly(cfg, s0, now, user, sender, amount, key);
    DrawShortfallKeeps(cfg, s0, now, top, user, sender, amount, key);
    var g := Selected(s, user, short).value;
    var d := DrawShortfall(cfg, s0, now, user, sender, amount, key).value.state;
    var holdKey := IdemKey(user, InternalUndoHold, UndoHoldKey(key));
    var c := HoldCommand(user, sender, PENDING_SETTLEMENT, amount, UndoHold, PendingUndo, holdKey, receiver);
    HeldExactly(cfg, d, now, user, sender, receiver, amount, holdKey);
    PoolIsNotHolding(cfg, s, g, sender);
    var r := SendFrom(cfg, s, now, user, sender, receiver, amount, key, note).value;
    hide DrewFrom;
    DrewExactly(s, r.state, now, top, fp, d, DrawFrom(s0, user, sender, short, key, g), c, g, user, short, key, r.body);
  }

  /** Draw, loan and hold, table by table. */
  lemma DrewExactly(s: State, s': State, now: Time, top: IdemKey, fp: Payload, d: State, draw: TransferCommand,
                    hold: TransferCommand, g: nat, user: UserId, short: int, key: nat, body: Body)
    requires g < |s.grants| && s.grants[g].pool < |s.pools| && top == IdemKey(user, Endpoint.Transfers, ClientKey(key))
    requires draw.key == SponsorKey(s, g, key) && draw.fingerprint == DrawPayload(s.grants[g].pool, user, short)
    requires draw.amount == short && draw.sender == s.pools[s.grants[g].pool].account && draw.receiver == hold.sender
    requires hold.key == IdemKey(user, InternalUndoHold, UndoHoldKey(key)) && hold.receiver != draw.sender
    requires InRange(Begin(s, top, fp), draw) && InRange(d, hold)
    requires d == CreateLoan(Paid(Begin(s, top, fp), now, draw), s.grants[g].pool, user, |s.transfers|, short, now)
    requires s' == Complete(Paid(d, now, hold).(tasks := s'.tasks), top, fp, body)
    ensures DrewFrom(s, s', user, hold.sender, g, short, key)
  {
    hide Paid, Sum;
    var account := s.pools[s.grants[g].pool].account;
    PaidTables(Begin(s, top, fp), now, draw, account);
    PaidTables(d, now, hold, account);
    forall a: AccountId, t: Time | a != hold.sender && a != account
      ensures SentToday(s'.transfers, a, t) == SentToday(s.transfers, a, t)
    {
      SentTodayAppends(s.transfers, RowOf(now, draw), a, t);
      SentTodayAppends(d.transfers, RowOf(now, hold), a, t);
    }
  }

  lemma PoolIsNotHolding(cfg: Config, s: State, g: nat, sender: AccountId)
    requires Conserved(cfg, s) && g < |s.grants| && s.grants[g].pool < |s.pools|
      && IsKind(s.accounts, sender, UserAccount)
    ensures s.pools[s.grants[g].pool].account !in {sender, PENDING_SETTLEMENT}
  {
    ConservedAccounts(cfg, s);
    assert AccountOk(PENDING_SETTLEMENT, s.accounts[PENDING_SETTLEMENT]);
  }

  lemma HeldExactly(cfg: Config, s: State, now: Time, user: UserId, sender: AccountId, receiver: AccountId, amount: int,
                    key: IdemKey)
    requires Wired(cfg) && Conserved(cfg, s) && IsKind(s.accounts, sender, UserAccount) && key !in s.idem
    requires UndoableSend(cfg, s, now, user, sender, receiver, amount, key).Ok?
    ensures var c := HoldCommand(user, sender, PENDING_SETTLEMENT, amount, UndoHold, PendingUndo, key, receiver);
      var e := UndoableSend(cfg, s, now, user, sender, receiver, amount, key).value;
      InRange(s, c) && e.state == Paid(s, now, c).(tasks := e.state.tasks)
  {
    hide SentToday, SumSentSince, Execute, Allowed, Schedule, Conserved, Paid;
    var c := HoldCommand(user, sender, PENDING_SETTLEMENT, amount, UndoHold, PendingUndo, key, receiver);
    ConservedAccounts(cfg, s);
    assert AccountOk(PENDING_SETTLEMENT, s.accounts[PENDING_SETTLEMENT]);
    ExecuteUnfolds(cfg, s, now, c);
    UnlienedExecute(cfg, s, now, c);
  }

  lemma PaidTables(s: State, now: Time, c: TransferCommand, a: AccountId)
    requires InRange(s, c)
    ensures var s' := Paid(s, now, c);
      && s'.grants == s.grants && s'.pools == s.pools && s'.requests == s.requests && s'.loans == s.loans
      && SameShape(s.accounts, s'.accounts)
      && BalanceOf(s'.accounts, a)
           == BalanceOf(s.accounts, a) + (if a == c.receiver then c.amount else 0)
               - (if a == c.sender then c.amount else 0)
      && s'.idem.Keys == s.idem.Keys + {c.key} && s'.idem[c.key].fingerprint == c.fingerprint
      && (forall k :: k in s.idem && k != c.key ==> s'.idem[k] == s.idem[k])
      && |s'.transfers| == |s.transfers| + 1 && s'.transfers == s.transfers + [RowOf(now, c)]
  {
    LegBalances(Begin(s, c.key, c.fingerprint), now, c, a);
  }

  /**
   * When another borrower of the same sponsor has drawn under the same client key, the send is refused as a key
   * reuse.
   */
  lemma SharedKeyIsRefused(cfg: Config, s: State, now: Time, user: UserId, sender: AccountId, receiver: AccountId,
                           amount: int, key: nat, note: nat)
    requires Wired(cfg) && Inv(cfg, s) && IdemKey(user, Endpoint.Transfers, ClientKey(key)) !in s.idem
    requires IsKind(s.accounts, sender, UserAccount) && s.accounts[sender].owner == Some(user)
    requires var short := Shortfall(s, sender, amount);
      var g := Selected(s, user, short);
      short > 0 && g.Some? && short <= cfg.maxDraw && SponsorKey(s, g.value, key) in s.idem
    ensures var k := SponsorKey(s, Selected(s, user, Shortfall(s, sender, amount)).value, key);
      && s.idem[k].fingerprint.DrawPayload? && s.idem[k].fingerprint.borrower != user
      && SendFrom(cfg, s, now, user, sender, receiver, amount, key, note) == Err(IdempotencyKeyReuse)
  {
    hide Sum, Execute, Conserved, IdemOkBut, KeyOk, UndoableSend, Inv, IdemOk, Linked, Extends, ActiveGrants,
         FirstCovering;
    InvParts(cfg, s);
    var top, fp := IdemKey(user, Endpoint.Transfers, ClientKey(key)), SendPayload(sender, receiver, amount, note);
    var s0 := Begin(s, top, fp);
    BeginKeepsKeys(s, top, fp);
    NoEarlierDraw(s, top, fp, key, user);
    var short := Shortfall(s, sender, amount);
    SelectionIgnoresKeys(s, s0, user, short);
    var g := Selected(s0, user, short).value;
    TakenByAnother(cfg, s0, top, SponsorKey(s0, g, key), user, key);
    ReuseIsRefused(cfg, s0, now, DrawFrom(s0, user, sender, short, key, g));
  }

  lemma ReuseIsRefused(cfg: Config, s: State, now: Time, c: TransferCommand)
    requires c.key in s.idem && s.idem[c.key].fingerprint != c.fingerprint
    ensures Execute(cfg, s, now, c) == Err(IdempotencyKeyReuse)
  {
    hide AfterCredit, SentToday, SumSentSince;
  }
}
