/** Runs from the empty database on which the code departs from what one would expect of it. */
module Witnesses {
  import opened Kernel
  import opened Sums
  import opened Accounts
  import opened Policies
  import opened Tables
  import opened Idempotency
  import opened Transfers
  import opened Invariants
  import opened Legs
  import opened Executions
  import opened Settling
  import opened Closings
  import opened Positions
  import opened Shortfalls
  import opened EscrowOutcomes
  import opened ExactlyOnce
  import opened Bank
  import opened Runs
  import Holds
  import SpotMe
  import MoneyRequests

  const CFG: Config := Config(NoFee, 1_000, 1_000, 5_000, 100, 60, 60, 900)

  // -- a short description of a state -----------------------------------------

  datatype Face = Face(owner: Option<UserId>, kind: AccountType, balance: int)

  function FaceOf(a: Account): Face { Face(a.owner, a.kind, a.balance) }

  predicate Faces(accounts: seq<Account>, faces: seq<Face>) {
    && |accounts| == |faces|
    && (forall i :: 0 <= i < |faces| ==> FaceOf(accounts[i]) == faces[i] && accounts[i].status == Active)
  }

  /** Accounts, pools, grants and used keys; no loan, no request; only account 3 has sent anything. */
  predicate Looks(s: State, faces: seq<Face>, pools: seq<Pool>, grants: seq<Grant>, keys: set<IdemKey>, sent: int) {
    && Faces(s.accounts, faces)
    && s.pools == pools && s.grants == grants && s.loans == [] && s.requests == [] && s.idem.Keys == keys
    && SentToday(s.transfers, 3, 0) == sent && SentToday(s.transfers, 4, 0) == 0 && SentToday(s.transfers, 5, 0) == 0
  }

  predicate OwnedOnce(faces: seq<Face>, user: UserId, i: nat) {
    && i < |faces| && faces[i].kind == UserAccount && faces[i].owner == Some(user)
    && (forall j :: 0 <= j < |faces| && faces[j].kind == UserAccount && faces[j].owner == Some(user) ==> j == i)
  }

  lemma Found(accounts: seq<Account>, faces: seq<Face>, user: UserId, i: nat)
    requires Faces(accounts, faces) && OwnedOnce(faces, user, i)
    ensures FindUser(accounts, user) == Some(i)
  {
    assert FaceOf(accounts[i]) == faces[i];
    assert IsPrimary(accounts[i], user);
    var r := FindUser(accounts, user);
    assert FaceOf(accounts[r.value]) == faces[r.value];
  }

  lemma NotFound(accounts: seq<Account>, faces: seq<Face>, user: UserId)
    requires Faces(accounts, faces)
    requires forall j :: 0 <= j < |faces| ==> !(faces[j].kind == UserAccount && faces[j].owner == Some(user))
    ensures FindUser(accounts, user) == None
  {
    forall i | 0 <= i < |accounts|
      ensures !IsPrimary(accounts[i], user)
    {
      assert FaceOf(accounts[i]) == faces[i];
    }
  }

  /** What a leg does to the description. */
  lemma PaidLooks(s: State, faces: seq<Face>, pools: seq<Pool>, grants: seq<Grant>, keys: set<IdemKey>, sent: int,
                  c: TransferCommand)
    requires Looks(s, faces, pools, grants, keys, sent) && InRange(s, c) && c.sender !in {4, 5} && c.status == Succeeded
    ensures var from, to := faces[c.sender], faces[c.receiver];
      Looks(Paid(s, 0, c),
            faces[c.sender := from.(balance := from.balance - c.amount)][c.receiver :=
                to.(balance := to.balance + c.amount)],
            pools, grants, keys + {c.key}, if c.sender == 3 then sent + c.amount else sent)
  {
    hide Sum;
    var s' := Paid(s, 0, c);
    SentTodayAppends(s.transfers, RowOf(0, c), 3, 0);
    SentTodayAppends(s.transfers, RowOf(0, c), 4, 0);
    SentTodayAppends(s.transfers, RowOf(0, c), 5, 0);
    forall i | 0 <= i < |faces|
      ensures s'.accounts[i].status == Active
    {
      assert FaceOf(s.accounts[i]) == faces[i];
    }
  }

  // -- the common prefix ------------------------------------------------------

  const SIGNUP: IdemKey := IdemKey(0, Endpoint.Transfers, SignupKey(0))
  const POOL_KEYS: set<IdemKey> := {IdemKey(0, PoolsEndpoint, ClientKey(0)), IdemKey(0, InternalFund, PoolFundKey(0))}
  const SYSTEM: seq<Face> := [Face(None, SystemIssuance, 0), Face(None, EscrowAccount, 0),
      Face(None, PendingSettlement, 0)]

  function Opened(sponsor: int): seq<Face> {
    [Face(None, SystemIssuance, -100), SYSTEM[1], SYSTEM[2], Face(Some(0), UserAccount, sponsor),
     Face(Some(1), UserAccount, 0), Face(Some(2), UserAccount, 0)]
  }

  lemma SponsorOpens()
    ensures var r := Step(CFG, INITIAL, 0, OpenAccount(0, 100));
      r.Ok? && Looks(r.value.state, Opened(100)[..4], [], [], {SIGNUP}, 0)
  {
    hide Execute, Sum, Paid, FindUser;
    assert Faces(INITIAL.accounts, SYSTEM);
    NotFound(INITIAL.accounts, SYSTEM, 0);
    var s0 := INITIAL.(accounts := INITIAL.accounts + [Account(Some(0), UserAccount, 0, Active, 0)]);
    var faces := SYSTEM + [Face(Some(0), UserAccount, 0)];
    assert Looks(s0, faces, [], [], {}, 0);
    var c := SpotMe.GrantCommand(0, 3, 100);
    DebtlessExecute(CFG, s0, 0, c);
    PaidLooks(s0, faces, [], [], {}, 0, c);
    assert faces[0 := Face(None, SystemIssuance, -100)][3 := Face(Some(0), UserAccount, 100)] == Opened(100)[..4];
    assert {} + {c.key} == {SIGNUP};
  }

  lemma BorrowerOpens(s: State, faces: seq<Face>, keys: set<IdemKey>, user: UserId)
    requires Looks(s, faces, [], [], keys, 0)
    requires forall j :: 0 <= j < |faces| ==> !(faces[j].kind == UserAccount && faces[j].owner == Some(user))
    ensures var r := Step(CFG, s, 0, OpenAccount(user, 0));
      r.Ok? && Looks(r.value.state, faces + [Face(Some(user), UserAccount, 0)], [], [], keys, 0)
  {
    hide Execute, Sum, SentToday, SumSentSince;
    NotFound(s.accounts, faces, user);
  }

  const POOL: seq<Pool> := [Pool(0, 6)]

  function WithPool(sponsor: int, pool: int): seq<Face> { Opened(sponsor) + [Face(Some(0), OverdraftPool, pool)] }

  lemma PoolOpens(s: State)
    requires Looks(s, Opened(100), [], [], {SIGNUP}, 0)
    ensures var r := Step(CFG, s, 0, CreatePool(0, 40, 0));
      r.Ok? && Looks(r.value.state, WithPool(60, 40), POOL, [], {SIGNUP} + POOL_KEYS, 40)
  {
    hide Execute, Sum, SentToday, SumSentSince, Paid;
    Found(s.accounts, Opened(100), 0, 3);
    var top, fp := IdemKey(0, PoolsEndpoint, ClientKey(0)), PoolPayload(40);
    var s0 := SpotMe.InsertPool(Begin(s, top, fp), 0);
    var faces := WithPool(100, 0);
    assert Looks(s0, faces, POOL, [], {SIGNUP, top}, 0);
    var c := SpotMe.FundCommand(0, 3, 0, 6, 40, IdemKey(0, InternalFund, PoolFundKey(0)));
    assert FaceOf(s0.accounts[3]) == faces[3] && FaceOf(s0.accounts[6]) == faces[6];
    DebtlessExecute(CFG, s0, 0, c);
    PaidLooks(s0, faces, POOL, [], {SIGNUP, top}, 0, c);
    assert faces[3 := Face(Some(0), UserAccount, 60)][6 := Face(Some(0), OverdraftPool, 40)] == WithPool(60, 40);
    assert {SIGNUP, top} + {c.key} == {SIGNUP} + POOL_KEYS;
  }

  lemma AccessGranted(s: State, grants: seq<Grant>, keys: set<IdemKey>, user: UserId)
    requires Looks(s, WithPool(60, 40), POOL, grants, keys, 40) && user in {1, 2}
    requires forall g :: 0 <= g < |grants| ==> grants[g].beneficiary != user
    requires IdemKey(0, GrantsEndpoint, ClientKey(user)) !in keys
    ensures var r := Step(CFG, s, 0, GrantAccess(0, user, 20, user));
      && r.Ok?
      && Looks(r.value.state, WithPool(60, 40), POOL, grants + [Grant(0, user, 20, 0)],
               keys + {IdemKey(0, GrantsEndpoint, ClientKey(user))}, 40)
  {
    hide Sum, SentToday, SumSentSince;
    Found(s.accounts, WithPool(60, 40), user, 3 + user);
    assert SpotMe.FindPool(s.pools, 0) == Some(0);
  }

  const GRANTS: seq<Grant> := [Grant(0, 1, 20, 0), Grant(0, 2, 20, 0)]
  const BASE_KEYS: set<IdemKey> :=
    {SIGNUP} + POOL_KEYS + {IdemKey(0, GrantsEndpoint, ClientKey(1)), IdemKey(0, GrantsEndpoint, ClientKey(2))}

  function At(command: Command): Event { Event(0, command) }

  /** A sponsor with a pool of 40 and two borrowers without money, each allowed to draw 20. */
  const BASE: seq<Event> :=
    [At(OpenAccount(0, 100)), At(OpenAccount(1, 0)), At(OpenAccount(2, 0)), At(CreatePool(0, 40, 0)),
     At(GrantAccess(0, 1, 20, 1)), At(GrantAccess(0, 2, 20, 2))]

  lemma RunAppends(events: seq<Event>, event: Event)
    ensures Run(CFG, events + [event]) == Commit(CFG, Run(CFG, events), event)
  {
    hide Commit;
    assert (events + [event])[..|events|] == events;
  }

  lemma BaseLooks()
    ensures Looks(Run(CFG, BASE), WithPool(60, 40), POOL, GRANTS, BASE_KEYS, 40)
    ensures Wired(CFG) && Inv(CFG, Run(CFG, BASE))
  {
    hide Step, Looks, Inv, Run;
    EveryRunKeeps(CFG, BASE);
    NoEvents();
    assert BASE[..1] == [] + [BASE[0]] && BASE[..2] == BASE[..1] + [BASE[1]] && BASE[..3] == BASE[..2] + [BASE[2]];
    assert BASE[..4] == BASE[..3] + [BASE[3]] && BASE[..5] == BASE[..4] + [BASE[4]] && BASE == BASE[..5] + [BASE[5]];
    RunAppends([], BASE[0]);
    RunAppends(BASE[..1], BASE[1]);
    RunAppends(BASE[..2], BASE[2]);
    RunAppends(BASE[..3], BASE[3]);
    RunAppends(BASE[..4], BASE[4]);
    RunAppends(BASE[..5], BASE[5]);
    SponsorOpens();
    BorrowerOpens(Run(CFG, BASE[..1]), Opened(100)[..4], {SIGNUP}, 1);
    BorrowerOpens(Run(CFG, BASE[..2]), Opened(100)[..4] + [Face(Some(1), UserAccount, 0)], {SIGNUP}, 2);
    assert Opened(100)[..4] + [Face(Some(1), UserAccount, 0)] + [Face(Some(2), UserAccount, 0)] == Opened(100);
    PoolOpens(Run(CFG, BASE[..3]));
    AccessGranted(Run(CFG, BASE[..4]), [], {SIGNUP} + POOL_KEYS, 1);
    var k1 := IdemKey(0, GrantsEndpoint, ClientKey(1));
    AccessGranted(Run(CFG, BASE[..5]), [] + [Grant(0, 1, 20, 0)], {SIGNUP} + POOL_KEYS + {k1}, 2);
    assert [] + [Grant(0, 1, 20, 0)] + [Grant(0, 2, 20, 0)] == GRANTS;
    assert {SIGNUP} + POOL_KEYS + {k1} + {IdemKey(0, GrantsEndpoint, ClientKey(2))} == BASE_KEYS;
  }

  lemma NoEvents()
    ensures Run(CFG, []) == INITIAL
  {
  }

  // -- two borrowers, one client key -------------------------------------------

  /** Borrower `user` is offered exactly its own grant, as long as the pool holds enough. */
  lemma GrantSelected(s: State, user: UserId, short: int)
    requires s.grants == GRANTS && s.pools == POOL && user in {1, 2} && 0 < short <= 20
    requires 6 < |s.accounts| && s.accounts[6].status == Active && s.accounts[6].balance >= short
    ensures Selected(s, user, short) == Some(user - 1)
    ensures SponsorKey(s, user - 1, 7) == IdemKey(0, InternalDraw, DrawKey(7))
  {
    hide SpotMe.FirstCovering;
    var ids := SpotMe.ActiveGrants(s, user);
    assert SpotMe.IsUsable(s.grants[user - 1], s.pools, s.accounts, user);
    assert user - 1 in ids && SpotMe.Covers(s, user - 1, short);
  }

  lemma FirstSend()
    ensures var s := Run(CFG, BASE);
      && Found3(s) && MaySend(CFG, s, 0, 1, 4, 10, 7) && Shortfall(s, 4, 10) == 10
      && IdemKey(1, Endpoint.Transfers, ClientKey(7)) !in s.idem
      && Selected(s, 1, 10) == Some(0)
  {
    hide Inv, Run, Found3, MaySend, Shortfall, Selected, Looks;
    BaseLooks();
    FirstMaySend(Run(CFG, BASE));
  }

  lemma FirstMaySend(s: State)
    requires Looks(s, WithPool(60, 40), POOL, GRANTS, BASE_KEYS, 40)
    ensures Found3(s) && MaySend(CFG, s, 0, 1, 4, 10, 7) && Shortfall(s, 4, 10) == 10
    ensures IdemKey(1, Endpoint.Transfers, ClientKey(7)) !in s.idem && Selected(s, 1, 10) == Some(0)
  {
    hide SentToday, SumSentSince, Selected, SponsorKey, FindUser;
    var faces := WithPool(60, 40);
    Found(s.accounts, faces, 0, 3);
    Found(s.accounts, faces, 1, 4);
    Found(s.accounts, faces, 2, 5);
    assert FaceOf(s.accounts[4]) == faces[4] && FaceOf(s.accounts[6]) == faces[6];
    GrantSelected(s, 1, 10);
    MayDrawMeans(CFG, s, 1, 10, 7);
  }

  predicate Found3(s: State) {
    FindUser(s.accounts, 0) == Some(3) && FindUser(s.accounts, 1) == Some(4) && FindUser(s.accounts, 2) == Some(5)
  }

  const FIRST_SEND: Event := At(Send(1, 0, 10, 7, 0))

  /** The store after borrower 1's send, which had to draw all of it. */
  lemma FirstSendRuns()
    ensures var s, s' := Run(CFG, BASE), Run(CFG, BASE + [FIRST_SEND]);
      && Inv(CFG, s) && Inv(CFG, s') && Wired(CFG)
      && IsKind(s.accounts, 4, UserAccount) && IsKind(s.accounts, 3, UserAccount)
      && SpotMe.SendFrom(CFG, s, 0, 1, 4, 3, 10, 7, 0).Ok?
      && SpotMe.SendFrom(CFG, s, 0, 1, 4, 3, 10, 7, 0).value.state == s'
      && s.grants == GRANTS && s.pools == POOL && s.loans == []
      && DrewFrom(s, s', 1, 4, 0, 10, 7)
  {
    hide Inv, Run, MaySend, SpotMe.SendFrom, DrewFrom, FindUser;
    BaseLooks();
    FirstSend();
    EveryRunKeeps(CFG, BASE + [FIRST_SEND]);
    RunAppends(BASE, FIRST_SEND);
    var s := Run(CFG, BASE);
    DrawnSend(CFG, s, 0, 1, 4, 3, 10, 7, 0);
  }

  /** What borrower 2 finds after it. */
  predicate SecondMaySend(s: State) {
    && Found3(s) && IsKind(s.accounts, 5, UserAccount) && IsKind(s.accounts, 3, UserAccount)
    && FaceOf(s.accounts[5]) == Face(Some(2), UserAccount, 0) && s.accounts[5].status == Active
    && s.grants == GRANTS && s.pools == POOL
    && 6 < |s.accounts| && s.accounts[6].status == Active && s.accounts[6].balance == 30
    && IdemKey(2, Endpoint.Transfers, ClientKey(7)) !in s.idem
         && IdemKey(2, Endpoint.Transfers, ClientKey(8)) !in s.idem
    && IdemKey(0, InternalDraw, DrawKey(7)) in s.idem && IdemKey(0, InternalDraw, DrawKey(8)) !in s.idem
    && SentToday(s.transfers, 5, 0) == 0
  }

  lemma SecondCouldSend()
    ensures SecondMaySend(Run(CFG, BASE + [FIRST_SEND]))
  {
    hide MaySend, Selected, Shortfall, Inv, Run, SpotMe.SendFrom, Looks, DrewFrom, Found3, SecondMaySend;
    BaseLooks();
    FirstSend();
    FirstSendRuns();
    UntouchedBalance();
    SecondFinds(Run(CFG, BASE), Run(CFG, BASE + [FIRST_SEND]));
  }

  lemma SecondFinds(before: State, s: State)
    requires Looks(before, WithPool(60, 40), POOL, GRANTS, BASE_KEYS, 40) && Found3(before)
    requires DrewFrom(before, s, 1, 4, 0, 10, 7) && BalanceOf(s.accounts, 5) == 0
    ensures SecondMaySend(s)
  {
    hide FindUser, SentToday;
    var faces := WithPool(60, 40);
    assert FaceOf(before.accounts[3]) == faces[3] && FaceOf(before.accounts[5]) == faces[5];
    assert FaceOf(before.accounts[6]) == faces[6];
    SameUsers(before, s);
  }

  /**
   * Borrower 2 of the same sponsor uses the same client key: its send is refused as a key reuse, although only
   * borrower 1 has used the key and the pool still holds enough. Under another key it goes through.
   */
  lemma TwoBorrowersOneKey()
    ensures var s := Run(CFG, BASE + [FIRST_SEND]);
      && IdemKey(2, Endpoint.Transfers, ClientKey(7)) !in s.idem
      && Step(CFG, s, 0, Send(2, 0, 10, 7, 0)) == Err(IdempotencyKeyReuse)
      && Step(CFG, s, 0, Send(2, 0, 10, 8, 0)).Ok?
  {
    hide Inv, Run, DrewFrom, SpotMe.SendFrom;
    SecondCouldSend();
    FirstSendRuns();
    SecondSends(Run(CFG, BASE + [FIRST_SEND]));
  }

  lemma SecondSends(s: State)
    requires Wired(CFG) && Inv(CFG, s) && SecondMaySend(s)
    ensures Step(CFG, s, 0, Send(2, 0, 10, 7, 0)) == Err(IdempotencyKeyReuse)
    ensures Step(CFG, s, 0, Send(2, 0, 10, 8, 0)).Ok?
  {
    hide Inv, SpotMe.SendFrom, FindUser, Selected, SentToday, SumSentSince;
    GrantSelected(s, 2, 10);
    SharedKeyIsRefused(CFG, s, 0, 2, 5, 3, 10, 7, 0);
    MayDrawMeans(CFG, s, 2, 10, 8);
    SendSucceeds(CFG, s, 0, 2, 5, 3, 10, 8, 0);
  }

  lemma SameUsers(s: State, s': State)
    requires Found3(s) && SameShape(s.accounts, s'.accounts)
    ensures Found3(s')
  {
    SameUserFound(s.accounts, s'.accounts, 0);
    SameUserFound(s.accounts, s'.accounts, 1);
    SameUserFound(s.accounts, s'.accounts, 2);
  }

  lemma UntouchedBalance()
    ensures BalanceOf(Run(CFG, BASE + [FIRST_SEND]).accounts, 5) == 0
  {
    hide Inv, Run, SpotMe.SendFrom, DrewFrom, Sent, FindUser;
    BaseLooks();
    FirstSend();
    FirstSendRuns();
    var s := Run(CFG, BASE);
    assert FaceOf(s.accounts[5]) == WithPool(60, 40)[5];
    SendLowersNet(CFG, s, 0, 1, 4, 3, 10, 7, 0, 5, 2);
  }

  // -- a late undo that reports more than the sender has --------------------------

  /**
   * Borrower 1 takes its send back long after the ten seconds, the worker not having settled it: the undo goes through,
   * it is told 10, and has 5, because the lien took half of the refund.
   */
  lemma UndoOverstates()
    ensures var s := Run(CFG, BASE + [FIRST_SEND]);
      exists h :: 0 <= h < |s.transfers| && Overstates(s, Undo(h, 1, 0))
  {
    hide Inv, Run, SpotMe.SendFrom, DrewFrom, Holds.Undo, Overstates, FindUser;
    BaseLooks();
    FirstSend();
    FirstSendRuns();
    var before, s := Run(CFG, BASE), Run(CFG, BASE + [FIRST_SEND]);
    assert FaceOf(before.accounts[4]) == WithPool(60, 40)[4];
    SendLowersNet(CFG, before, 0, 1, 4, 3, 10, 7, 0, 4, 1);
    var h := SpotMe.SendFrom(CFG, before, 0, 1, 4, 3, 10, 7, 0).value.body.hold.transferId;
    assert Debt(before, 1) == 0 by { SumZero(before.loans, UserOwed(1)); }
    RefundIsSwept(s, h);
  }

  const LATE: Time := 1_000

  /** The command answers a sender balance of 10 and leaves one of 5. */
  predicate Overstates(s: State, command: Command) {
    var r := Step(CFG, s, LATE, command);
    && LATE > Holds.UNDO_WINDOW
    && r.Ok? && r.value.body.Some? && r.value.body.value.UndoBody?
    && r.value.body.value.senderBalance == 10 && BalanceOf(r.value.state.accounts, 4) == 5
  }

  lemma RefundIsSwept(s: State, h: TransferId)
    requires Wired(CFG) && Inv(CFG, s) && MayUndo(s, h, 1) && IdemKey(1, UndoOf(h), ClientKey(0)) !in s.idem
    requires s.transfers[h].amount == 10 && s.transfers[h].sender == 4
    requires BalanceOf(s.accounts, 4) == 0 && Debt(s, 1) == 10
    ensures Overstates(s, Undo(h, 1, 0))
  {
    hide Inv, Holds.Undo, Debt, MayUndo;
    UndoReportsBeforeLien(CFG, s, LATE, h, 1, 0);
  }

  // -- a top-up whose replay answers differently ----------------------------------

  /** Under a new key, a top-up of this pool that the sponsor can afford is its leg. */
  lemma Tops(s: State, sponsor: int, pool: int, keys: set<IdemKey>, sent: int, amount: int, key: nat)
    requires Looks(s, WithPool(sponsor, pool), POOL, GRANTS, keys, sent)
    requires 0 < amount <= sponsor && 0 <= sent && amount + sent <= 1_000
      && IdemKey(0, FundOf(0), ClientKey(key)) !in keys
    ensures var r := SpotMe.FundPool(CFG, s, 0, 0, amount, key);
      && r.Ok? && !r.value.replayed
      && Looks(r.value.state, WithPool(sponsor - amount, pool + amount), POOL, GRANTS,
               keys + {IdemKey(0, FundOf(0), ClientKey(key))}, sent + amount)
  {
    hide Execute, Sum, SentToday, SumSentSince, Paid;
    var faces := WithPool(sponsor, pool);
    Found(s.accounts, faces, 0, 3);
    assert SpotMe.FindPool(s.pools, 0) == Some(0);
    var c := SpotMe.FundCommand(0, 3, 0, 6, amount, IdemKey(0, FundOf(0), ClientKey(key)));
    assert FaceOf(s.accounts[3]) == faces[3] && FaceOf(s.accounts[6]) == faces[6];
    DebtlessExecute(CFG, s, 0, c);
    PaidLooks(s, faces, POOL, GRANTS, keys, sent, c);
    assert faces[3 := Face(Some(0), UserAccount, sponsor - amount)][6 := Face(Some(0), OverdraftPool, pool + amount)]
        == WithPool(sponsor - amount, pool + amount);
  }

  const TOP_UP: Event := At(FundPool(0, 5, 1))
  const ANOTHER: Event := At(FundPool(0, 7, 2))

  function BalanceTold(r: Result<Answer>): Option<int> {
    if r.Ok? && r.value.body.Some? && r.value.body.value.PoolBody? then Some(r.value.body.value.balance) else None
  }

  /** The same request, answered 45 the first time and 52 the second, although it moved nothing then. */
  lemma TopUpAnswersDiffer()
    ensures var s, s' := Run(CFG, BASE), Run(CFG, BASE + [TOP_UP] + [ANOTHER]);
      && BalanceTold(Step(CFG, s, 0, TOP_UP.command)) == Some(45)
      && BalanceTold(Step(CFG, s', 0, TOP_UP.command)) == Some(52)
      && Step(CFG, s', 0, TOP_UP.command).value.state == s' && Step(CFG, s', 0, TOP_UP.command).value.replayed
  {
    hide Inv, Run, SpotMe.FundPool, SentToday, SumSentSince, Faces;
    BaseLooks();
    RunAppends(BASE, TOP_UP);
    RunAppends(BASE + [TOP_UP], ANOTHER);
    var s, s1 := Run(CFG, BASE), Run(CFG, BASE + [TOP_UP]);
    assert IdemKey(0, FundOf(0), ClientKey(1)) !in BASE_KEYS && IdemKey(0, FundOf(0), ClientKey(2)) !in BASE_KEYS;
    Tops(s, 60, 40, BASE_KEYS, 40, 5, 1);
    Tops(s1, 55, 45, BASE_KEYS + {IdemKey(0, FundOf(0), ClientKey(1))}, 45, 7, 2);
    FundReplayDrifts(CFG, s, 0, 0, 5, 1, 7, 2, 0);
    FundAdds(CFG, s, 0, 0, 5, 1);
    FundBody(CFG, s, 0, 0, 5, 1);
    ReplayChangesNothing(CFG, s, s1, 5, 1, [ANOTHER]);
    OneEvent(CFG, s1, ANOTHER);
    PoolHolds(s);
  }

  lemma PoolHolds(s: State)
    requires Looks(s, WithPool(60, 40), POOL, GRANTS, BASE_KEYS, 40)
    ensures BalanceOf(s.accounts, POOL[0].account) == 40 && SpotMe.FindPool(s.pools, 0) == Some(0)
  {
    assert FaceOf(s.accounts[6]) == WithPool(60, 40)[6];
  }

  lemma ReplayChangesNothing(cfg: Config, s: State, s1: State, amount: int, key: nat, events: seq<Event>)
    requires Wired(cfg) && Inv(cfg, s) && SpotMe.FundPool(cfg, s, 0, 0, amount, key).Ok?
    requires !SpotMe.FundPool(cfg, s, 0, 0, amount, key).value.replayed
    requires s1 == SpotMe.FundPool(cfg, s, 0, 0, amount, key).value.state
    ensures var s' := RunFrom(cfg, s1, events);
      var again := SpotMe.FundPool(cfg, s', 0, 0, amount, key);
      again.Ok? && again.value.state == s' && again.value.replayed
  {
    hide Inv, SpotMe.FundPool, Step;
    FundReplays(cfg, s, 0, 0, amount, key, events, 0);
  }

  // -- an acceptance that cannot be retried ----------------------------------------

  const ASK: Event := At(RequestMoney(1, 0, 5))
  const ACCEPT: Event := At(AcceptRequest(0, 0, 3))

  const REQUEST: MoneyRequest := MoneyRequest(4, 3, 5, Pending, None, 60)

  lemma Asked()
    ensures var s := Run(CFG, BASE); Run(CFG, BASE + [ASK]) == s.(requests := [REQUEST])
  {
    hide Inv, Run, SentToday, SumSentSince, FindUser;
    BaseLooks();
    FirstSend();
    RunAppends(BASE, ASK);
    var s := Run(CFG, BASE);
    assert FaceOf(s.accounts[3]) == WithPool(60, 40)[3] && FaceOf(s.accounts[4]) == WithPool(60, 40)[4];
  }

  lemma AcceptGoesThrough()
    ensures Step(CFG, Run(CFG, BASE + [ASK]), 0, ACCEPT.command).Ok?
  {
    hide Inv, Run, MoneyRequests.Accept, SentToday, SumSentSince;
    BaseLooks();
    Asked();
    AcceptsFrom(Run(CFG, BASE));
  }

  lemma AcceptsFrom(s: State)
    requires Looks(s, WithPool(60, 40), POOL, GRANTS, BASE_KEYS, 40)
    ensures MoneyRequests.Accept(CFG, s.(requests := [REQUEST]), 0, 0, 0, 3).Ok?
  {
    hide Execute, SentToday, SumSentSince, Paid;
    var s1 := s.(requests := [REQUEST]);
    var faces := WithPool(60, 40);
    assert FaceOf(s.accounts[3]) == faces[3] && FaceOf(s.accounts[4]) == faces[4];
    var c := MoneyRequests.SettlementCommand(0, REQUEST, 0, 3);
    assert c.key !in BASE_KEYS;
    DebtlessExecute(CFG, s1, 0, c);
    PaidTables(s1, 0, c, 0);
  }

  /** The acceptance goes through once; the same request under the same key is then refused instead of replayed. */
  lemma AcceptanceNotRetryable()
    ensures Step(CFG, Run(CFG, BASE + [ASK]), 0, ACCEPT.command).Ok?
    ensures Step(CFG, Run(CFG, BASE + [ASK] + [ACCEPT]), 0, ACCEPT.command) == Err(StateConflict)
  {
    hide Run, MoneyRequests.Accept;
    AcceptGoesThrough();
    RunAppends(BASE + [ASK], ACCEPT);
    var s := Run(CFG, BASE + [ASK]);
    AcceptNeverReplays(CFG, s, 0, 0, 0, 3, [], 0);
    assert RunFrom(CFG, MoneyRequests.Accept(CFG, s, 0, 0, 0, 3).value.state, [])
        == MoneyRequests.Accept(CFG, s, 0, 0, 0, 3).value.state;
  }
}
