/** Exactly once per intent: retries of one command over any run. */
module ExactlyOnce {
  import opened Kernel
  import opened Accounts
  import opened Policies
  import opened Tables
  import opened Idempotency
  import opened Transfers
  import opened Invariants
  import opened Settling
  import opened Executions
  import opened Legs
  import opened Keeping
  import opened Payments
  import opened Growth
  import opened Bank
  import opened Runs
  import SpotMe
  import Holds
  import SafePay
  import MoneyRequests

  /** Commands whose response is stored under the caller's key. */
  predicate Stores(command: Command) {
    match command
    case CreatePool(_, _, _) => true
    case GrantAccess(_, _, _, _) => true
    case Send(_, _, _, _, _) => true
    case Undo(_, _, _) => true
    case CreateEscrow(_, _, _, _, _) => true
    case OrderEscrow(_, _) => true
    case _ => false
  }

  /** The checks that come before the key is looked up. */
  predicate Resolved(s: State, command: Command) {
    match command
    case Send(user, recipient, _, _, _) =>
      var sender, receiver := FindUser(s.accounts, user), FindUser(s.accounts, recipient);
      sender.Some? && receiver.Some? && sender != receiver
    case CreateEscrow(buyer, seller, _, _, _) =>
      var payer, payee := FindUser(s.accounts, buyer), FindUser(s.accounts, seller);
      payer.Some? && payee.Some? && payer != payee
    case OrderEscrow(order, _) => order.Deliver? ==> order.escrow < |s.escrows|
    case _ => true
  }

  /** (actor, endpoint, key) and payload: the identity of an intent. */
  function Intent(s: State, command: Command): (IdemKey, Payload)
    requires Stores(command) && Resolved(s, command)
  {
    match command
    case CreatePool(sponsor, amount, key) => (IdemKey(sponsor, PoolsEndpoint, ClientKey(key)), PoolPayload(amount))
    case GrantAccess(sponsor, beneficiary, maxDraw, key) =>
      (IdemKey(sponsor, GrantsEndpoint, ClientKey(key)), AccessPayload(beneficiary, maxDraw))
    case Send(user, recipient, amount, key, note) =>
      (IdemKey(user, Endpoint.Transfers, ClientKey(key)),
       SendPayload(FindUser(s.accounts, user).value, FindUser(s.accounts, recipient).value, amount, note))
    case Undo(transfer, actor, key) => (IdemKey(actor, UndoOf(transfer), ClientKey(key)), UndoPayload(transfer))
    case CreateEscrow(buyer, seller, amount, description, key) =>
      (IdemKey(buyer, SafePayEndpoint, ClientKey(key)), SafePayPayload(seller, amount, description))
    case OrderEscrow(order, key) => SafePay.OrderKey(s, order, key)
  }

  predicate StoredReply(s: State, r: Result<Holds.Reply>, k: IdemKey, fp: Payload) {
    r.Ok? ==>
      && k in r.value.state.idem && r.value.state.idem[k] == Completed(fp, r.value.body)
      && (k in s.idem ==> r.value.replayed && r.value.state == s)
  }

  lemma CreatePoolStores(cfg: Config, s: State, now: Time, sponsor: UserId, amount: int, key: nat)
    ensures StoredReply(s, SpotMe.CreatePool(cfg, s, now, sponsor, amount, key),
                        IdemKey(sponsor, PoolsEndpoint, ClientKey(key)), PoolPayload(amount))
  {
    hide Execute, FindUser, SpotMe.FindPool;
  }

  lemma GrantAccessStores(cfg: Config, s: State, now: Time, sponsor: UserId, beneficiary: UserId, maxDraw: int,
                          key: nat)
    ensures StoredReply(s, SpotMe.GrantAccess(cfg, s, now, sponsor, beneficiary, maxDraw, key),
                        IdemKey(sponsor, GrantsEndpoint, ClientKey(key)), AccessPayload(beneficiary, maxDraw))
  {
    hide FindUser, SpotMe.FindPool, SpotMe.HasGrant;
  }

  lemma SendStores(cfg: Config, s: State, now: Time, user: UserId, sender: AccountId, receiver: AccountId,
                   amount: int, key: nat, note: nat)
    ensures StoredReply(s, SpotMe.SendFrom(cfg, s, now, user, sender, receiver, amount, key, note),
                        IdemKey(user, Endpoint.Transfers, ClientKey(key)), SendPayload(sender, receiver, amount, note))
  {
    hide SpotMe.DrawShortfall, Holds.UndoableSend;
  }

  lemma UndoStores(cfg: Config, s: State, now: Time, transfer: TransferId, actor: UserId, key: nat)
    ensures StoredReply(s, Holds.Undo(cfg, s, now, transfer, actor, key),
                        IdemKey(actor, UndoOf(transfer), ClientKey(key)), UndoPayload(transfer))
  {
    hide Holds.Settle;
  }

  lemma CreateStores(cfg: Config, s: State, now: Time, buyer: UserId, seller: UserId, amount: int, description: nat,
                     key: nat)
    ensures StoredReply(s, SafePay.Create(cfg, s, now, buyer, seller, amount, description, key),
                        IdemKey(buyer, SafePayEndpoint, ClientKey(key)), SafePayPayload(seller, amount, description))
  {
    hide Execute, FindUser;
  }

  lemma PerformStores(cfg: Config, s: State, now: Time, order: SafePay.Order, key: nat)
    requires order.Deliver? ==> order.escrow < |s.escrows|
    ensures StoredReply(s, SafePay.Perform(cfg, s, now, order, key), SafePay.OrderKey(s, order, key).0,
                        SafePay.OrderKey(s, order, key).1)
  {
    hide SafePay.ApplyOrder;
  }

  /** A completed command leaves exactly the response it gave, under its own key. */
  lemma StepStores(cfg: Config, s: State, now: Time, command: Command)
    requires Stores(command) && Step(cfg, s, now, command).Ok?
    ensures Resolved(s, command)
    ensures var a := Step(cfg, s, now, command).value;
      var (k, fp) := Intent(s, command);
      && a.body.Some? && k in a.state.idem && a.state.idem[k] == Completed(fp, a.body.value)
      && (k in s.idem ==> a.replayed && a.state == s)
  {
    StepResolves(cfg, s, now, command);
    hide SpotMe.CreatePool, SpotMe.GrantAccess, SpotMe.SendFrom, Holds.Undo, SafePay.Create, SafePay.Perform,
         FindUser, SafePay.OrderKey;
    match command
    case CreatePool(sponsor, amount, key) => CreatePoolStores(cfg, s, now, sponsor, amount, key);
    case GrantAccess(sponsor, beneficiary, maxDraw, key) => GrantAccessStores(cfg, s, now, sponsor, beneficiary,
        maxDraw, key);
    case Send(user, recipient, amount, key, note) =>
      SendStores(cfg, s, now, user, FindUser(s.accounts, user).value, FindUser(s.accounts, recipient).value, amount,
                 key, note);
    case Undo(transfer, actor, key) => UndoStores(cfg, s, now, transfer, actor, key);
    case CreateEscrow(buyer, seller, amount, description, key) => CreateStores(cfg, s, now, buyer, seller, amount,
        description, key);
    case OrderEscrow(order, key) => PerformStores(cfg, s, now, order, key);
  }

  lemma StepResolves(cfg: Config, s: State, now: Time, command: Command)
    requires Stores(command) && Step(cfg, s, now, command).Ok?
    ensures Resolved(s, command)
  {
    hide Execute, SpotMe.CreatePool, SpotMe.GrantAccess, SpotMe.SendFrom, Holds.Undo, SafePay.ApplyOrder, FindUser;
  }

  /** Replaying costs nothing and answers with the stored response; another payload is refused. */
  lemma StepReplays(cfg: Config, s: State, now: Time, command: Command)
    requires Stores(command) && Resolved(s, command)
    ensures var (k, fp) := Intent(s, command);
      k in s.idem ==>
        var r := Step(cfg, s, now, command);
        && (s.idem[k].fingerprint != fp ==> r == Err(IdempotencyKeyReuse))
        && (s.idem[k].fingerprint == fp && s.idem[k].Completed? ==> r == Ok(Answer(s, Some(s.idem[k].body), true)))
  {
    hide Execute, SpotMe.DrawShortfall, Holds.UndoableSend, Holds.Settle, SafePay.ApplyOrder, SpotMe.HasGrant,
         FindUser, SpotMe.FindPool;
  }

  lemma UserStays(before: seq<Account>, after: seq<Account>, user: UserId)
    requires AccountsKept(before, after) && AccountsOk(after) && FindUser(before, user).Some?
    ensures FindUser(after, user) == FindUser(before, user)
  {
    hide AccountOk;
    var i := FindUser(before, user).value;
    assert IsPrimary(after[i], user);
    var j := FindUser(after, user).value;
    assert i == j;
  }

  /** An intent means the same for ever. */
  lemma IntentStays(cfg: Config, s: State, s': State, command: Command)
    requires Grows(cfg, s, s') && AccountsOk(s'.accounts) && Stores(command) && Resolved(s, command)
    ensures Resolved(s', command) && Intent(s', command) == Intent(s, command)
  {
    hide FindUser, AccountsOk, AccountOk;
    match command
    case Send(user, recipient, _, _, _) =>
      UserStays(s.accounts, s'.accounts, user);
      UserStays(s.accounts, s'.accounts, recipient);
    case CreateEscrow(buyer, seller, _, _, _) =>
      UserStays(s.accounts, s'.accounts, buyer);
      UserStays(s.accounts, s'.accounts, seller);
    case _ =>
  }

  /**
   * Retried at any later time, after any other commands, a completed command answers as it first did and changes
   * nothing.
   */
  lemma RetriesReplay(cfg: Config, before: seq<Event>, first: Event, between: seq<Event>, now: Time)
    requires Wired(cfg) && Stores(first.command)
    requires Step(cfg, Run(cfg, before), first.now, first.command).Ok?
    ensures var a := Step(cfg, Run(cfg, before), first.now, first.command).value;
      var s := Run(cfg, before + [first] + between);
      Step(cfg, s, now, first.command) == Ok(Answer(s, a.body, true))
  {
    hide Inv, Step, Intent, Stores, Resolved, FindUser;
    var s0 := Run(cfg, before);
    var a := Step(cfg, s0, first.now, first.command).value;
    var s := Run(cfg, before + [first] + between);
    StepStores(cfg, s0, first.now, first.command);
    assert (before + [first])[..|before|] == before;
    assert Run(cfg, before + [first]) == a.state;
    RunsCompose(cfg, INITIAL, before + [first], between);
    RunGrows(cfg, a.state, between);
    StepGrows(cfg, s0, first);
    GrowsThenGrows(cfg, s0, a.state, s);
    EveryRunKeeps(cfg, before + [first] + between);
    assert AccountsOk(s.accounts) by { InvAccounts(cfg, s); }
    IntentStays(cfg, s0, s, first.command);
    StepReplays(cfg, s, now, first.command);
  }

  lemma InvAccounts(cfg: Config, s: State)
    requires Inv(cfg, s)
    ensures AccountsOk(s.accounts) && IdemOk(s)
  {
  }

  /** No committed reservation is ever left open. */
  lemma NeverProcessing(cfg: Config, events: seq<Event>, k: IdemKey)
    requires Wired(cfg) && k in Run(cfg, events).idem
    ensures Run(cfg, events).idem[k].Completed?
  {
    hide Inv, Step;
    EveryRunKeeps(cfg, events);
    InvAccounts(cfg, Run(cfg, events));
  }

  /** A stored transfer response, read back and serialised again, is the same response. */
  lemma ReplayReserialises(cfg: Config, s: State, now: Time, c: TransferCommand)
    requires c.key in s.idem && s.idem[c.key].Completed? && s.idem[c.key].fingerprint == c.fingerprint
    requires s.idem[c.key].body.TransferBody?
    ensures Execute(cfg, s, now, c).Ok? && Execute(cfg, s, now, c).value.state == s
    ensures Execute(cfg, s, now, c).value.result.ToResponse() == s.idem[c.key].body
  {
    hide AfterCredit, SentToday, SumSentSince;
  }

  // -- two commands that do not store their own response ---------------------

  /** A retried acceptance is refused, not replayed: the request is no longer pending. */
  lemma AcceptNeverReplays(cfg: Config, s: State, now: Time, id: nat, user: UserId, key: nat, events: seq<Event>,
                           later: Time)
    requires MoneyRequests.Accept(cfg, s, now, id, user, key).Ok?
    ensures var s' := RunFrom(cfg, MoneyRequests.Accept(cfg, s, now, id, user, key).value.state, events);
      MoneyRequests.Accept(cfg, s', later, id, user, key) == Err(StateConflict)
  {
    hide Execute, Step;
    var s1 := MoneyRequests.Accept(cfg, s, now, id, user, key).value.state;
    ExecuteFramed(cfg, s, now, MoneyRequests.SettlementCommand(user, s.requests[id], id, key));
    RunGrows(cfg, s1, events);
  }

  lemma ReplayedFlag(cfg: Config, s: State, now: Time, c: TransferCommand)
    ensures var r := Execute(cfg, s, now, c); r.Ok? ==> (r.value.result.replayed <==> c.key in s.idem)
  {
    hide AfterCredit, SentToday, SumSentSince;
  }

  lemma ExecuteStores(cfg: Config, s: State, now: Time, c: TransferCommand)
    requires c.key !in s.idem && Execute(cfg, s, now, c).Ok?
    ensures var e := Execute(cfg, s, now, c).value;
      c.key in e.state.idem && e.state.idem[c.key] == Completed(c.fingerprint, e.result.ToResponse())
  {
    hide AfterCredit, SentToday, SumSentSince;
  }

  lemma {:induction false} PoolStays(before: seq<Pool>, after: seq<Pool>, sponsor: UserId)
    requires PoolsGrow(before, after) && SpotMe.FindPool(before, sponsor).Some?
    ensures SpotMe.FindPool(after, sponsor) == SpotMe.FindPool(before, sponsor)
  {
    if |after| == |before| {
      assert after == before;
    } else {
      var n := |after| - 1;
      assert PoolsGrow(before, after[..n]);
      PoolStays(before, after[..n], sponsor);
      var p := SpotMe.FindPool(before, sponsor).value;
      assert after[n].sponsor != before[p].sponsor;
    }
  }

  /** A retried top-up moves nothing and names the first funding, but reports the pool's balance of the moment. */
  lemma FundReplays(cfg: Config, s: State, now: Time, sponsor: UserId, amount: int, key: nat, events: seq<Event>,
                    later: Time)
    requires Wired(cfg) && Inv(cfg, s) && SpotMe.FundPool(cfg, s, now, sponsor, amount, key).Ok?
    requires !SpotMe.FundPool(cfg, s, now, sponsor, amount, key).value.replayed
    ensures var r := SpotMe.FundPool(cfg, s, now, sponsor, amount, key).value;
      var s' := RunFrom(cfg, r.state, events);
      && r.body.PoolBody?
      && SpotMe.FundPool(cfg, s', later, sponsor, amount, key)
           == Ok(Holds.Reply(s', r.body.(balance := BalanceOf(s'.accounts, r.body.account)), true))
  {
    hide Inv, Execute, FindUser, SentToday, SumSentSince, SpotMe.FindPool, Step, AccountOk;
    var s1 := SpotMe.FundPool(cfg, s, now, sponsor, amount, key).value.state;
    var s' := RunFrom(cfg, s1, events);
    FundPoolKeeps(cfg, s, now, sponsor, amount, key);
    RunFromKeeps(cfg, s1, events);
    RunGrows(cfg, s1, events);
    FundPoolGrows(cfg, s, now, sponsor, amount, key);
    InvAccounts(cfg, s');
    FundReplaysIn(cfg, s, s1, s', now, sponsor, amount, key, later);
  }

  lemma FundReplaysIn(cfg: Config, s: State, s1: State, s': State, now: Time, sponsor: UserId, amount: int, key: nat,
                      later: Time)
    requires SpotMe.FundPool(cfg, s, now, sponsor, amount, key).Ok?
    requires !SpotMe.FundPool(cfg, s, now, sponsor, amount, key).value.replayed
    requires s1 == SpotMe.FundPool(cfg, s, now, sponsor, amount, key).value.state
    requires Grows(cfg, s, s1) && Grows(cfg, s1, s') && AccountsOk(s'.accounts)
    ensures var body := SpotMe.FundPool(cfg, s, now, sponsor, amount, key).value.body;
      && body.PoolBody?
      && SpotMe.FundPool(cfg, s', later, sponsor, amount, key)
           == Ok(Holds.Reply(s', body.(balance := BalanceOf(s'.accounts, body.account)), true))
  {
    hide Execute, FindUser, AccountsOk, SentToday, SumSentSince, SpotMe.FindPool, Grows, PoolsGrow;
    GrowsThenGrows(cfg, s, s1, s');
    assert AccountsKept(s.accounts, s'.accounts) && PoolsGrow(s.pools, s'.pools)
        && RecordsKept(s1.idem, s'.idem) by { GrowParts(cfg, s, s'); GrowParts(cfg, s1, s'); }
    var pool := SpotMe.FindPool(s.pools, sponsor).value;
    var from := FindUser(s.accounts, sponsor).value;
    UserStays(s.accounts, s'.accounts, sponsor);
    PoolStays(s.pools, s'.pools, sponsor);
    assert s'.pools[pool] == s.pools[pool] by { PoolRowStays(s.pools, s'.pools, pool); }
    var account := s.pools[pool].account;
    var c := SpotMe.FundCommand(sponsor, from, pool, account, amount, IdemKey(sponsor, FundOf(pool), ClientKey(key)));
    ReplayedFlag(cfg, s, now, c);
    ExecuteStores(cfg, s, now, c);
    ReplayReserialises(cfg, s', later, c);
    ReplayedFlag(cfg, s', later, c);
  }

  lemma GrowParts(cfg: Config, s: State, s': State)
    requires Grows(cfg, s, s')
    ensures AccountsKept(s.accounts, s'.accounts) && PoolsGrow(s.pools, s'.pools) && RecordsKept(s.idem, s'.idem)
  {
  }

  lemma PoolRowStays(before: seq<Pool>, after: seq<Pool>, p: nat)
    requires PoolsGrow(before, after) && p < |before|
    ensures p < |after| && after[p] == before[p]
  {
  }

  /** So the replay answers as the first time exactly when the pool's balance is again what it was then. */
  lemma FundReplayAgrees(cfg: Config, s: State, now: Time, sponsor: UserId, amount: int, key: nat, events: seq<Event>,
                         later: Time)
    requires Wired(cfg) && Inv(cfg, s) && SpotMe.FundPool(cfg, s, now, sponsor, amount, key).Ok?
    requires !SpotMe.FundPool(cfg, s, now, sponsor, amount, key).value.replayed
    ensures var r := SpotMe.FundPool(cfg, s, now, sponsor, amount, key).value;
      var s' := RunFrom(cfg, r.state, events);
      var again := SpotMe.FundPool(cfg, s', later, sponsor, amount, key);
      && r.body.PoolBody? && again.Ok?
      && (again.value.body == r.body <==>
            BalanceOf(s'.accounts, r.body.account) == BalanceOf(r.state.accounts, r.body.account))
  {
    hide Inv, SpotMe.FundPool, Step;
    FundReplays(cfg, s, now, sponsor, amount, key, events, later);
    FundBody(cfg, s, now, sponsor, amount, key);
  }

  /** So the replay of a top-up differs from its first answer as soon as another top-up has gone through. */
  lemma FundReplayDrifts(cfg: Config, s: State, now: Time, sponsor: UserId, amount: int, key: nat, more: int,
                         other: nat, later: Time)
    requires Wired(cfg) && Inv(cfg, s) && key != other
    requires SpotMe.FundPool(cfg, s, now, sponsor, amount, key).Ok?
    requires var r := SpotMe.FundPool(cfg, s, now, sponsor, amount, key).value;
      && !r.replayed && SpotMe.FundPool(cfg, r.state, now, sponsor, more, other).Ok?
      && !SpotMe.FundPool(cfg, r.state, now, sponsor, more, other).value.replayed
    ensures var r := SpotMe.FundPool(cfg, s, now, sponsor, amount, key).value;
      var s' := SpotMe.FundPool(cfg, r.state, now, sponsor, more, other).value.state;
      var again := SpotMe.FundPool(cfg, s', later, sponsor, amount, key);
      r.body.PoolBody? && again.Ok? && again.value.body == r.body.(balance := r.body.balance + more) && more > 0
  {
    hide Inv, SpotMe.FundPool, Step;
    var r := SpotMe.FundPool(cfg, s, now, sponsor, amount, key).value;
    FundPoolKeeps(cfg, s, now, sponsor, amount, key);
    var event := Event(now, Bank.FundPool(sponsor, more, other));
    FundReplays(cfg, s, now, sponsor, amount, key, [event], later);
    var s' := SpotMe.FundPool(cfg, r.state, now, sponsor, more, other).value.state;
    assert RunFrom(cfg, r.state, [event]) == s' by { OneEvent(cfg, r.state, event);
        FundStep(cfg, r.state, now, sponsor, more, other); }
    FundAdds(cfg, r.state, now, sponsor, more, other);
    FundBody(cfg, s, now, sponsor, amount, key);
    FundBody(cfg, r.state, now, sponsor, more, other);
    SamePool(cfg, s, now, sponsor, amount, key, more, other);
  }

  lemma OneEvent(cfg: Config, s: State, event: Event)
    ensures RunFrom(cfg, s, [event]) == Commit(cfg, s, event)
  {
    hide Commit;
    assert [event][..0] == [];
    assert RunFrom(cfg, s, []) == s;
  }

  lemma FundStep(cfg: Config, s: State, now: Time, sponsor: UserId, amount: int, key: nat)
    requires SpotMe.FundPool(cfg, s, now, sponsor, amount, key).Ok?
    ensures Commit(cfg, s, Event(now, Bank.FundPool(sponsor, amount, key)))
      == SpotMe.FundPool(cfg, s, now, sponsor, amount, key).value.state
  {
    hide SpotMe.FundPool;
  }

  lemma FundBody(cfg: Config, s: State, now: Time, sponsor: UserId, amount: int, key: nat)
    requires Inv(cfg, s) && SpotMe.FundPool(cfg, s, now, sponsor, amount, key).Ok?
    ensures var r := SpotMe.FundPool(cfg, s, now, sponsor, amount, key).value;
      r.body.PoolBody? && r.body.balance == BalanceOf(r.state.accounts, r.body.account)
      && SpotMe.FindPool(s.pools, sponsor) == Some(r.body.pool) && r.body.pool < |s.pools|
           && s.pools[r.body.pool].account == r.body.account
  {
    hide Inv, Execute, FindUser;
  }

  lemma SamePool(cfg: Config, s: State, now: Time, sponsor: UserId, amount: int, key: nat, more: int, other: nat)
    requires Wired(cfg) && Inv(cfg, s) && SpotMe.FundPool(cfg, s, now, sponsor, amount, key).Ok?
    requires SpotMe.FundPool(cfg, SpotMe.FundPool(cfg, s, now, sponsor, amount, key).value.state, now, sponsor, more,
                             other).Ok?
    ensures var r := SpotMe.FundPool(cfg, s, now, sponsor, amount, key).value;
      var r' := SpotMe.FundPool(cfg, r.state, now, sponsor, more, other).value;
      r.body.PoolBody? && r'.body.PoolBody? && r'.body.account == r.body.account
  {
    hide Inv, SpotMe.FundPool, Grows, SpotMe.FindPool;
    var r := SpotMe.FundPool(cfg, s, now, sponsor, amount, key).value;
    FundPoolKeeps(cfg, s, now, sponsor, amount, key);
    FundBody(cfg, s, now, sponsor, amount, key);
    FundBody(cfg, r.state, now, sponsor, more, other);
    FundPoolGrows(cfg, s, now, sponsor, amount, key);
    GrowParts(cfg, s, r.state);
    PoolStays(s.pools, r.state.pools, sponsor);
  }

  /** A first top-up adds exactly its amount to the pool's balance. */
  lemma FundAdds(cfg: Config, s: State, now: Time, sponsor: UserId, amount: int, key: nat)
    requires Wired(cfg) && Inv(cfg, s) && SpotMe.FundPool(cfg, s, now, sponsor, amount, key).Ok?
    requires !SpotMe.FundPool(cfg, s, now, sponsor, amount, key).value.replayed
    ensures var r := SpotMe.FundPool(cfg, s, now, sponsor, amount, key).value;
      r.body.PoolBody? && amount > 0 && r.body.balance == BalanceOf(s.accounts, r.body.account) + amount
  {
    hide Inv, Execute, FindUser, SentToday, SumSentSince, SpotMe.FindPool, AccountsOk, Conserved;
    var pool := SpotMe.FindPool(s.pools, sponsor).value;
    var from := FindUser(s.accounts, sponsor).value;
    var account := s.pools[pool].account;
    var c := SpotMe.FundCommand(sponsor, from, pool, account, amount, IdemKey(sponsor, FundOf(pool), ClientKey(key)));
    InvParts(cfg, s);
    ConservedAccounts(cfg, s);
    ReplayedFlag(cfg, s, now, c);
    ExecuteUnfolds(cfg, s, now, c);
    UnlienedExecute(cfg, s, now, c);
    LegBalances(Begin(s, c.key, c.fingerprint), now, c, account);
  }
}
