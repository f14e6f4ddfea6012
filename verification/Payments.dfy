/** Opening accounts, pools, grants and money requests keep the invariant. */
module Payments {
  import opened Kernel
  import opened Sums
  import opened Accounts
  import opened Policies
  import opened Tables
  import opened Idempotency
  import opened Transfers
  import opened Invariants
  import opened Legs
  import opened Backing
  import opened Executions
  import opened Settling
  import opened Conservation
  import opened Keeping
  import SpotMe
  import MoneyRequests

  predicate Ordinary(c: TransferCommand) {
    && SelfContained(c.kind) && c.parent == None && (c.enforceLimits || !LimitedKind(c.kind))
    && (c.kind == UndoHold ==> c.status == PendingUndo)
    && (c.kind == EscrowHold ==> c.status == Held)
    && !c.key.key.LienKey?
  }

  /** A self-contained execution on a new key conserves everything. */
  lemma ExecuteConserves(cfg: Config, s: State, now: Time, c: TransferCommand)
    requires Wired(cfg) && Conserved(cfg, s) && LienKeysOld(s.idem, |s.transfers|)
    requires Ordinary(c) && LegalRow(s, now, c) && c.key !in s.idem
    ensures Execute(cfg, s, now, c).Ok? <==> Allowed(cfg, s, now, c)
    ensures Allowed(cfg, s, now, c) ==>
      var e := Execute(cfg, s, now, c).value;
      InRange(s, c) && Conserved(cfg, e.state) && e.result == ResultOf(s, now, c)
          && Posted(s, e.state, now, c, LienOn(cfg, s, c))
  {
    hide Sum, Posted, LienOn, MayMove, Authorize, SentToday, SumSentSince, LegalRow, Execute, LienKeysOld, BooksOk,
         TransfersOk, AccountsOk, LoansOk, LegsOk, DailyOk, PoolsOk, PoolsWhole, PendingGap, EscrowGap;
    ExecuteEffect(cfg, s, now, c);
    if Allowed(cfg, s, now, c) {
      PlainConserves(cfg, s, Execute(cfg, s, now, c).value.state, now, c);
    }
  }

  /** `s` with only its idempotency table replaced. */
  predicate SameButKeys(s: State, s': State) { s' == s.(idem := s'.idem) }

  lemma ConservedButKeys(cfg: Config, s: State, s': State)
    requires SameButKeys(s, s')
    ensures Conserved(cfg, s) <==> Conserved(cfg, s')
    ensures Linked(s) <==> Linked(s')
  {
  }

  /** One execution wrapped in a reservation of `top`: conservation, links and keys all at once. */
  lemma WrappedExecute(cfg: Config, s: State, now: Time, c: TransferCommand, top: IdemKey, fingerprint: Payload)
    requires Wired(cfg) && Conserved(cfg, s) && Linked(s) && IdemOk(s)
    requires top !in s.idem && !top.key.LienKey? && c.key !in s.idem && c.key != top
    requires Ordinary(c) && LegalRow(s, now, c)
    requires Execute(cfg, Begin(s, top, fingerprint), now, c).Ok?
    ensures var s0 := Begin(s, top, fingerprint);
      var s1 := Execute(cfg, s0, now, c).value.state;
      && InRange(s0, c)
      && Execute(cfg, s0, now, c).value.result == ResultOf(s0, now, c)
      && Conserved(cfg, s1)
      && EscrowsOk(s1.accounts, s1.transfers, s1.escrows) && RequestsOk(s1.accounts, s1.transfers, s1.requests)
      && (c.status != PendingUndo ==> TasksOk(s1.transfers, s1.escrows, s1.tasks))
      && Posted(s0, s1, now, c, LienOn(cfg, s0, c))
      && Extends(s0, s1)
  {
    hide Sum, Posted, LienOn, SentToday, SumSentSince, LegalRow, Execute, BooksOk, TransfersOk, AccountsOk, LoansOk,
         LegsOk, DailyOk, PoolsOk, PoolsWhole, PendingGap, EscrowGap, KeyOk, EscrowsOk, RequestsOk, TasksOk,
         Conserved, Allowed;
    var s0 := Begin(s, top, fingerprint);
    ConservedButKeys(cfg, s, s0);
    LienKeysAreOld(s);
    assert LienKeysOld(s0.idem, |s0.transfers|);
    assert LegalRow(s0, now, c) by { LegalButKeys(s, s0, now, c); }
    ExecuteConserves(cfg, s0, now, c);
    var s1 := Execute(cfg, s0, now, c).value.state;
    PostedKeepsLinks(s0, s1, now, c, LienOn(cfg, s0, c));
    PostedExtends(s0, s1, now, c, LienOn(cfg, s0, c));
  }

  lemma LegalButKeys(s: State, s': State, now: Time, c: TransferCommand)
    requires SameButKeys(s, s') && LegalRow(s, now, c)
    ensures LegalRow(s', now, c)
  {
  }

  // -- opening an account ---------------------------------------------------

  lemma OpenAccountKeeps(cfg: Config, s: State, now: Time, user: UserId, opening: int)
    requires Wired(cfg) && Inv(cfg, s) && SpotMe.OpenAccount(cfg, s, now, user, opening).Ok?
    ensures Inv(cfg, SpotMe.OpenAccount(cfg, s, now, user, opening).value)
  {
    hide Sum, Posted, LienOn, SentToday, SumSentSince, Execute, BooksOk, TransfersOk, LoansOk, Allowed, LegsOk,
         DailyOk, PoolsOk, PoolsWhole, PendingGap, EscrowGap, EscrowsOk, RequestsOk, TasksOk, Conserved, Inv,
         FindUser;
    InvParts(cfg, s);
    var id := |s.accounts|;
    var a := Account(Some(user), UserAccount, 0, Active, 0);
    var s0 := s.(accounts := s.accounts + [a]);
    NewAccountKeeps(cfg, s, a);
    if opening > 0 {
      var c := SpotMe.GrantCommand(user, id, opening);
      assert c.key !in s0.idem by {
        KeyMeans(s, c.key);
      }
      assert LegalRow(s0, now, c) by {
        ConservedAccounts(cfg, s0);
        assert AccountOk(ISSUANCE, s0.accounts[ISSUANCE]);
      }
      LienKeysAreOld(s0);
      ExecuteConserves(cfg, s0, now, c);
      var s1 := Execute(cfg, s0, now, c).value.state;
      PostedKeepsLinks(s0, s1, now, c, LienOn(cfg, s0, c));
      PostedExtends(s0, s1, now, c, LienOn(cfg, s0, c));
      PostedTables(s0, s1, now, c, LienOn(cfg, s0, c));
      assert IsPrimary(s1.accounts[id], user);
      KeysJustified(s0, s1, {c.key});
      InvParts(cfg, s1);
    } else {
      InvParts(cfg, s0);
    }
  }

  lemma ConservedAccounts(cfg: Config, s: State)
    requires Conserved(cfg, s)
    ensures AccountsOk(s.accounts) && TransfersOk(s.accounts, s.transfers) && PoolsOk(s.accounts, s.pools)
    ensures LoansOk(s.pools, s.loans, s.repayments)
  {
  }

  // -- pools ----------------------------------------------------------------

  lemma InsertPoolKeeps(cfg: Config, s: State, sponsor: UserId)
    requires Conserved(cfg, s) && Linked(s) && IdemOk(s)
    ensures var s' := SpotMe.InsertPool(s, sponsor);
      Conserved(cfg, s') && Linked(s') && IdemOk(s') && Extends(s, s')
  {
    hide Sum, BooksOk, LoansOk, LegsOk, DailyOk, PoolsWhole, PendingGap, EscrowGap, EscrowsOk, RequestsOk, TasksOk,
         Conserved, KeyOk, TransferOk, AccountOk, IdemOk, Extends;
    var a := Account(Some(sponsor), OverdraftPool, 0, Active, 0);
    var s1 := s.(accounts := s.accounts + [a]);
    ConservedAccounts(cfg, s);
    NewAccountKeeps(cfg, s, a);
    NewAccountKeepsTransfers(s.accounts, s.transfers, a);
    NewPoolKeeps(cfg, s1, sponsor, |s.accounts|);
    ExtendsThenExtends(s, s1, SpotMe.InsertPool(s, sponsor));
  }

  lemma FundIsLegal(s: State, now: Time, sponsor: UserId, from: AccountId, pool: nat, key: IdemKey, amount: int)
    requires PoolsOk(s.accounts, s.pools) && pool < |s.pools| && IsKind(s.accounts, from, UserAccount)
    ensures LegalRow(s, now, SpotMe.FundCommand(sponsor, from, pool, s.pools[pool].account, amount, key))
  {
  }

  lemma CreatePoolKeeps(cfg: Config, s: State, now: Time, sponsor: UserId, amount: int, key: nat)
    requires Wired(cfg) && Inv(cfg, s) && SpotMe.CreatePool(cfg, s, now, sponsor, amount, key).Ok?
    ensures Inv(cfg, SpotMe.CreatePool(cfg, s, now, sponsor, amount, key).value.state)
  {
    hide Sum, Posted, LienOn, SentToday, SumSentSince, Execute, BooksOk, TransfersOk, LoansOk, Allowed, LegalRow,
         AccountsOk, LegsOk, DailyOk, PoolsWhole, PendingGap, EscrowGap, EscrowsOk, RequestsOk, TasksOk, Conserved,
         Inv, Extends;
    InvParts(cfg, s);
    var top := IdemKey(sponsor, PoolsEndpoint, ClientKey(key));
    var fp := PoolPayload(amount);
    if top !in s.idem {
      var from := FindUser(s.accounts, sponsor);
      var pool, account := |s.pools|, |s.accounts|;
      var c := SpotMe.FundCommand(sponsor, from.value, pool, account, amount,
                                  IdemKey(sponsor, InternalFund, PoolFundKey(pool)));
      var si := SpotMe.InsertPool(s, sponsor);
      assert SpotMe.InsertPool(Begin(s, top, fp), sponsor) == Begin(si, top, fp);
      InsertPoolKeeps(cfg, s, sponsor);
      assert c.key !in si.idem by {
        KeyMeans(s, c.key);
      }
      ConservedAccounts(cfg, si);
      FundIsLegal(si, now, sponsor, from.value, pool, c.key, amount);
      WrappedExecute(cfg, si, now, c, top, fp);
      FinishWrapped(cfg, si, now, c, top, fp, SpotMe.CreatePool(cfg, s, now, sponsor, amount, key).value.body);
    }
  }

  /** Storing the response closes a wrapped execution of a kind whose key is justified by the rows it wrote. */
  lemma FinishWrapped(cfg: Config, s: State, now: Time, c: TransferCommand, top: IdemKey, fingerprint: Payload,
                      body: Body)
    requires Wired(cfg) && IdemOk(s) && top !in s.idem && c.key != top
    requires top.key.ClientKey? && top.endpoint != Transfers && !top.endpoint.UndoOf?
    requires c.key.key.PoolFundKey? && c.key.key.pool < |s.pools| && !c.key.endpoint.UndoOf?
    requires c.status != PendingUndo
    requires var s0 := Begin(s, top, fingerprint);
      Execute(cfg, s0, now, c).Ok? && InRange(s0, c)
      && var s1 := Execute(cfg, s0, now, c).value.state;
         && Conserved(cfg, s1) && Linked(s1)
         && Posted(s0, s1, now, c, LienOn(cfg, s0, c))
         && Extends(s0, s1)
    ensures Inv(cfg, Complete(Execute(cfg, Begin(s, top, fingerprint), now, c).value.state, top, fingerprint, body))
  {
    hide Sum, Posted, LienOn, Execute, BooksOk, TransfersOk, LoansOk, AccountsOk, AccountOk, LegsOk, DailyOk,
         PoolsWhole, PendingGap, EscrowGap, EscrowsOk, RequestsOk, TasksOk, Conserved, Inv, FindUser;
    var s0 := Begin(s, top, fingerprint);
    var s1 := Execute(cfg, s0, now, c).value.state;
    var s2 := Complete(s1, top, fingerprint, body);
    PostedTables(s0, s1, now, c, LienOn(cfg, s0, c));
    ConservedButKeys(cfg, s1, s2);
    KeysAround(s, s0, s1, s2, top, c.key, Completed(c.fingerprint, ResultOf(s0, now, c).ToResponse()));
    KeysJustified(s, s2, {top, c.key});
    InvParts(cfg, s2);
  }

  lemma FundPoolKeeps(cfg: Config, s: State, now: Time, sponsor: UserId, amount: int, key: nat)
    requires Wired(cfg) && Inv(cfg, s) && SpotMe.FundPool(cfg, s, now, sponsor, amount, key).Ok?
    ensures Inv(cfg, SpotMe.FundPool(cfg, s, now, sponsor, amount, key).value.state)
  {
    hide Sum, Posted, LienOn, SentToday, SumSentSince, Execute, BooksOk, TransfersOk, LoansOk, Allowed, LegalRow,
         AccountsOk, FindUser, LegsOk, DailyOk, PoolsOk, PoolsWhole, PendingGap, EscrowGap, EscrowsOk, RequestsOk,
         TasksOk, Conserved, Inv, Extends;
    InvParts(cfg, s);
    var pool := SpotMe.FindPool(s.pools, sponsor).value;
    var from := FindUser(s.accounts, sponsor).value;
    var c := SpotMe.FundCommand(sponsor, from, pool, s.pools[pool].account, amount,
                                IdemKey(sponsor, FundOf(pool), ClientKey(key)));
    if c.key in s.idem {
      ExecuteReplays(cfg, s, now, c);
    } else {
      ConservedAccounts(cfg, s);
      FundIsLegal(s, now, sponsor, from, pool, c.key, amount);
      LienKeysAreOld(s);
      ExecuteConserves(cfg, s, now, c);
      DirectKeeps(cfg, s, Execute(cfg, s, now, c).value.state, now, c);
    }
  }

  /** An execution reserved directly under the caller's key. */
  lemma DirectKeeps(cfg: Config, s: State, s': State, now: Time, c: TransferCommand)
    requires Linked(s) && IdemOk(s) && Conserved(cfg, s') && InRange(s, c) && Posted(s, s', now, c, LienOn(cfg, s, c))
    requires c.status != PendingUndo && c.key.key.ClientKey? && !c.key.endpoint.UndoOf?
    requires c.key.endpoint != Transfers
    ensures Inv(cfg, s')
  {
    hide Sum, Posted, LienOn, BooksOk, TransfersOk, LoansOk, AccountsOk, AccountOk, FindUser, LegsOk, DailyOk,
         PoolsWhole, PendingGap, EscrowGap, EscrowsOk, RequestsOk, TasksOk, Conserved, Inv, Extends;
    PostedKeepsLinks(s, s', now, c, LienOn(cfg, s, c));
    PostedExtends(s, s', now, c, LienOn(cfg, s, c));
    PostedTables(s, s', now, c, LienOn(cfg, s, c));
    KeysJustified(s, s', {c.key});
    InvParts(cfg, s');
  }

  lemma GrantAccessKeeps(cfg: Config, s: State, now: Time, sponsor: UserId, beneficiary: UserId, maxDraw: int, key: nat)
    requires Inv(cfg, s) && SpotMe.GrantAccess(cfg, s, now, sponsor, beneficiary, maxDraw, key).Ok?
    ensures Inv(cfg, SpotMe.GrantAccess(cfg, s, now, sponsor, beneficiary, maxDraw, key).value.state)
  {
    hide Sum, BooksOk, TransfersOk, LoansOk, AccountsOk, AccountOk, LegsOk, DailyOk, PoolsOk, PoolsWhole, PendingGap,
         EscrowGap, EscrowsOk, RequestsOk, TasksOk, Inv, Backed, FindUser, SpotMe.FindPool, SpotMe.HasGrant;
    InvParts(cfg, s);
    var r := SpotMe.GrantAccess(cfg, s, now, sponsor, beneficiary, maxDraw, key).value;
    BackedStands(s, r.state);
    KeysJustified(s, r.state, {IdemKey(sponsor, GrantsEndpoint, ClientKey(key))} - s.idem.Keys);
    InvParts(cfg, r.state);
  }

  // -- money requests -------------------------------------------------------

  lemma RequestKeeps(cfg: Config, s: State, now: Time, requester: UserId, payer: UserId, amount: int)
    requires Inv(cfg, s) && MoneyRequests.Request(cfg, s, now, requester, payer, amount).Ok?
    ensures Inv(cfg, MoneyRequests.Request(cfg, s, now, requester, payer, amount).value)
  {
    hide Sum, BooksOk, TransfersOk, LoansOk, AccountsOk, AccountOk, LegsOk, DailyOk, PoolsOk, PoolsWhole, PendingGap,
         EscrowGap, EscrowsOk, TasksOk, Inv, KeyOk;
    InvParts(cfg, s);
    var s' := MoneyRequests.Request(cfg, s, now, requester, payer, amount).value;
    KeysStay(s, s');
    InvParts(cfg, s');
  }

  lemma TerminateKeeps(cfg: Config, s: State, id: nat, user: UserId, byPayer: bool)
    requires Inv(cfg, s) && MoneyRequests.Terminate(s, id, user, byPayer).Ok?
    ensures Inv(cfg, MoneyRequests.Terminate(s, id, user, byPayer).value)
  {
    hide Sum, BooksOk, TransfersOk, LoansOk, AccountsOk, AccountOk, LegsOk, DailyOk, PoolsOk, PoolsWhole, PendingGap,
         EscrowGap, EscrowsOk, TasksOk, Inv, KeyOk;
    InvParts(cfg, s);
    var s' := MoneyRequests.Terminate(s, id, user, byPayer).value;
    assert RequestOk(s.accounts, s.transfers, s.requests[id]);
    KeysStay(s, s');
    InvParts(cfg, s');
  }

  lemma ExpireDueKeeps(cfg: Config, s: State, now: Time)
    requires Inv(cfg, s)
    ensures Inv(cfg, MoneyRequests.ExpireDue(s, now))
  {
    hide Sum, BooksOk, TransfersOk, LoansOk, AccountsOk, AccountOk, LegsOk, DailyOk, PoolsOk, PoolsWhole, PendingGap,
         EscrowGap, EscrowsOk, TasksOk, Inv, KeyOk;
    InvParts(cfg, s);
    var s' := MoneyRequests.ExpireDue(s, now);
    forall r | 0 <= r < |s'.requests|
      ensures RequestOk(s'.accounts, s'.transfers, s'.requests[r])
    {
      assert RequestOk(s.accounts, s.transfers, s.requests[r]);
    }
    KeysStay(s, s');
    InvParts(cfg, s');
  }

  lemma AcceptKeeps(cfg: Config, s: State, now: Time, id: nat, user: UserId, key: nat)
    requires Wired(cfg) && Inv(cfg, s) && MoneyRequests.Accept(cfg, s, now, id, user, key).Ok?
    ensures Inv(cfg, MoneyRequests.Accept(cfg, s, now, id, user, key).value.state)
  {
    hide Sum, Posted, LienOn, SentToday, SumSentSince, Execute, BooksOk, TransfersOk, LoansOk, Allowed, LegalRow,
         AccountsOk, FindUser, LegsOk, DailyOk, PoolsOk, PoolsWhole, PendingGap, EscrowGap, EscrowsOk, TasksOk,
         Conserved, Inv, Extends;
    InvParts(cfg, s);
    var row := s.requests[id];
    var c := MoneyRequests.SettlementCommand(user, row, id, key);
    assert RequestOk(s.accounts, s.transfers, row);
    assert c.key !in s.idem by {
      KeyMeans(s, c.key);
      MismatchFails(cfg, s, now, c);
    }
    assert LegalRow(s, now, c) by { RequestIsLegal(s, now, user, row, id, key); }
    LienKeysAreOld(s);
    ExecuteConserves(cfg, s, now, c);
    var s1 := Execute(cfg, s, now, c).value.state;
    PostedKeepsLinks(s, s1, now, c, LienOn(cfg, s, c));
    PostedExtends(s, s1, now, c, LienOn(cfg, s, c));
    PostedTables(s, s1, now, c, LienOn(cfg, s, c));
    AcceptedKeeps(cfg, s, s1, now, c, id, key);
  }

  /** A key reused for another payload is refused. */
  lemma MismatchFails(cfg: Config, s: State, now: Time, c: TransferCommand)
    ensures c.key in s.idem && s.idem[c.key].fingerprint != c.fingerprint ==> Execute(cfg, s, now, c).Err?
  {
    hide AfterCredit, SentToday, SumSentSince;
  }

  lemma RequestIsLegal(s: State, now: Time, user: UserId, row: MoneyRequest, id: nat, key: nat)
    requires RequestOk(s.accounts, s.transfers, row)
    ensures LegalRow(s, now, MoneyRequests.SettlementCommand(user, row, id, key))
  {
  }

  lemma AcceptedKeeps(cfg: Config, s: State, s1: State, now: Time, c: TransferCommand, id: nat, key: nat)
    requires IdemOk(s) && Conserved(cfg, s1) && Linked(s1) && Extends(s, s1)
    requires s1.requests == s.requests && id < |s.requests| && s.requests[id].status == Pending
    requires c == MoneyRequests.SettlementCommand(c.actor, s.requests[id], id, key)
    requires |s.transfers| < |s1.transfers| && s1.transfers[|s.transfers|] == RowOf(now, c)
    requires RequestsOk(s.accounts, s.transfers, s.requests)
    requires c.key in s1.idem && s1.idem[c.key].Completed?
    requires KeysAdded(s.idem, s1.idem, c.key, s1.idem[c.key], |s.transfers|)
    requires s1.idem[c.key].fingerprint == c.fingerprint
    ensures var accepted := s1.requests[id].(status := Accepted, transfer := Some(|s.transfers|));
      Inv(cfg, s1.(requests := s1.requests[id := accepted]))
  {
    hide Sum, BooksOk, TransfersOk, LoansOk, AccountsOk, FindUser, LegsOk, DailyOk, PoolsOk, PoolsWhole, PendingGap,
         EscrowGap, EscrowsOk, TasksOk, Inv;
    var s2 := s1.(requests := s1.requests[id := s1.requests[id].(status := Accepted, transfer := Some(|s.transfers|))]);
    assert RequestOk(s.accounts, s.transfers, s.requests[id]);
    forall r | 0 <= r < |s2.requests|
      ensures RequestOk(s2.accounts, s2.transfers, s2.requests[r])
    {
      assert RequestOk(s1.accounts, s1.transfers, s1.requests[r]);
    }
    forall r | 0 <= r < |s.requests| && s.requests[r].transfer.Some?
      ensures s.requests[r].transfer.value < |s.transfers|
    {
      assert RequestOk(s.accounts, s.transfers, s.requests[r]);
    }
    assert Extends(s, s2);
    KeysJustified(s, s2, {c.key});
    InvParts(cfg, s2);
  }
}
