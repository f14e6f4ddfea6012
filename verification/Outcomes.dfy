/** When each remaining command goes through, and exactly what it leaves and answers. */
module Outcomes {
  import opened Kernel
  import opened Sums
  import opened Accounts
  import opened Policies
  import opened Tables
  import opened Idempotency
  import opened Transfers
  import opened Invariants
  import opened Legs
  import opened Executions
  import opened Effects
  import opened Settling
  import opened Keeping
  import opened Payments
  import opened Sending
  import opened Positions
  import opened Shortfalls
  import opened EscrowOutcomes
  import Bank
  import Conservation
  import Escrows
  import Growth
  import Holds
  import SpotMe
  import SafePay
  import MoneyRequests
  import Worker

  // -- vocabulary ---------------------------------------------------------------

  /** The user's account may pay `amount` today. */
  predicate MayPay(cfg: Config, s: State, now: Time, user: UserId, amount: int) {
    && FindUser(s.accounts, user).Some?
    && var a := FindUser(s.accounts, user).value;
       && s.accounts[a].status == Active && 0 < amount <= s.accounts[a].balance
       && WithinLimits(cfg, s.transfers, a, now, amount)
  }

  /**
   * Exactly `amount` moved from `from` to `to`; every other balance is as it was, and so is everything else about
   * accounts.
   */
  ghost predicate MovedOnly(before: seq<Account>, after: seq<Account>, from: AccountId, to: AccountId, amount: int) {
    && SameShape(before, after)
    && (forall a: AccountId ::
          BalanceOf(after, a)
            == BalanceOf(before, a) + (if a == to then amount else 0) - (if a == from then amount else 0))
  }

  lemma PaidMoves(s: State, now: Time, c: TransferCommand)
    requires InRange(s, c)
    ensures MovedOnly(s.accounts, Paid(s, now, c).accounts, c.sender, c.receiver, c.amount)
  {
    hide Paid;
    forall a: AccountId
      ensures BalanceOf(Paid(s, now, c).accounts, a)
           == BalanceOf(s.accounts, a) + (if a == c.receiver then c.amount else 0)
              - (if a == c.sender then c.amount else 0)
    {
      PaidTables(s, now, c, a);
    }
    PaidTables(s, now, c, 0);
  }

  // -- opening an account -----------------------------------------------------------

  /** Nobody owes before having an account. */
  lemma NoAccountNoDebt(s: State, user: UserId)
    requires Backed(s) && FindUser(s.accounts, user) == None
    ensures forall l :: 0 <= l < |s.loans| ==> s.loans[l].borrower != user
  {
    hide Granted;
    forall l | 0 <= l < |s.loans|
      ensures s.loans[l].borrower != user
    {
      assert LoanBacked(s, s.loans[l]);
      assert !IsPrimary(s.accounts[s.transfers[s.loans[l].draw].receiver], user);
    }
  }

  /** The new account, and what the issuer paid into it. */
  ghost predicate Opened(s: State, s': State, user: UserId, opening: int) {
    var n := |s.accounts|;
    && |s'.accounts| == n + 1
    && s'.accounts[n].owner == Some(user) && s'.accounts[n].kind == UserAccount && s'.accounts[n].status == Active
    && MovedOnly(s.accounts + [Account(Some(user), UserAccount, 0, Active, 0)], s'.accounts, ISSUANCE, n,
                 Max(0, opening))
    && |s'.transfers| == |s.transfers| + (if opening > 0 then 1 else 0)
  }

  /** An account opens exactly for a user without one, funded by issuance with exactly the opening balance. */
  lemma OpenAccountOutcome(cfg: Config, s: State, now: Time, user: UserId, opening: int)
    requires Wired(cfg) && Inv(cfg, s)
    ensures var r := SpotMe.OpenAccount(cfg, s, now, user, opening);
      && (r.Ok? <==> FindUser(s.accounts, user) == None)
      && (r.Ok? ==> Opened(s, r.value, user, opening))
  {
    hide Inv, Execute, Paid, Conserved, IdemOk, Linked, KeyOk, FindUser, Backed, SentToday;
    InvParts(cfg, s);
    if FindUser(s.accounts, user) == None {
      var s0 := s.(accounts := s.accounts + [Account(Some(user), UserAccount, 0, Active, 0)]);
      var c := SpotMe.GrantCommand(user, |s.accounts|, opening);
      ConservedAccounts(cfg, s);
      assert AccountOk(ISSUANCE, s.accounts[ISSUANCE]);
      assert c.key !in s.idem by { SignupIsNew(s, user); }
      ConservedBacked(cfg, s);
      NoAccountNoDebt(s, user);
      if opening > 0 {
        DebtlessExecute(cfg, s0, now, c);
        PaidMoves(s0, now, c);
        PaidTables(s0, now, c, 0);
      }
    }
  }

  lemma SignupIsNew(s: State, user: UserId)
    requires IdemOk(s) && FindUser(s.accounts, user) == None
    ensures IdemKey(user, Endpoint.Transfers, SignupKey(user)) !in s.idem
  {
    KeyMeans(s, IdemKey(user, Endpoint.Transfers, SignupKey(user)));
  }

  lemma ConservedBacked(cfg: Config, s: State)
    requires Conserved(cfg, s)
    ensures Backed(s)
  {
  }

  // -- pools ------------------------------------------------------------------------

  /**
   * A pool opens under a new key exactly for a sponsor without one who may pay the first funding, and holds exactly
   * that.
   */
  lemma CreatePoolOutcome(cfg: Config, s: State, now: Time, sponsor: UserId, amount: int, key: nat)
    requires Wired(cfg) && Inv(cfg, s) && IdemKey(sponsor, PoolsEndpoint, ClientKey(key)) !in s.idem
    ensures var r := SpotMe.CreatePool(cfg, s, now, sponsor, amount, key);
      && (r.Ok? <==> SpotMe.FindPool(s.pools, sponsor) == None && MayPay(cfg, s, now, sponsor, amount))
      && (r.Ok? ==>
            && r.value.body == PoolBody(|s.pools|, |s.accounts|, amount, |s.transfers|)
            && r.value.state.pools == s.pools + [Pool(sponsor, |s.accounts|)]
            && MovedOnly(s.accounts + [Account(Some(sponsor), OverdraftPool, 0, Active, 0)], r.value.state.accounts,
                         FindUser(s.accounts, sponsor).value, |s.accounts|, amount))
  {
    hide Inv, Execute, Paid, Conserved, IdemOk, Linked, KeyOk, FindUser, SentToday, SpotMe.FindPool;
    InvParts(cfg, s);
    var top, fp := IdemKey(sponsor, PoolsEndpoint, ClientKey(key)), PoolPayload(amount);
    var from := FindUser(s.accounts, sponsor);
    if SpotMe.FindPool(s.pools, sponsor) == None && from.Some? {
      var s0 := SpotMe.InsertPool(Begin(s, top, fp), sponsor);
      var fundKey := IdemKey(sponsor, InternalFund, PoolFundKey(|s.pools|));
      var c := SpotMe.FundCommand(sponsor, from.value, |s.pools|, |s.accounts|, amount, fundKey);
      assert fundKey !in s.idem by { FundKeyIsNew(s, sponsor); }
      assert Allowed(cfg, s0, now, c) <==> MayPay(cfg, s, now, sponsor, amount);
      ExecuteUnfolds(cfg, s0, now, c);
      if Allowed(cfg, s0, now, c) {
        UnlienedExecute(cfg, s0, now, c);
        PaidMoves(s0, now, c);
        PaidTables(s0, now, c, 0);
      }
    }
  }

  lemma FundKeyIsNew(s: State, sponsor: UserId)
    requires IdemOk(s)
    ensures IdemKey(sponsor, InternalFund, PoolFundKey(|s.pools|)) !in s.idem
  {
    KeyMeans(s, IdemKey(sponsor, InternalFund, PoolFundKey(|s.pools|)));
  }

  /**
   * A top-up under a new key goes through exactly for a sponsor with a pool who may pay it, and adds exactly its
   * amount.
   */
  lemma FundPoolOutcome(cfg: Config, s: State, now: Time, sponsor: UserId, amount: int, key: nat)
    requires Wired(cfg) && Inv(cfg, s)
    requires var pool := SpotMe.FindPool(s.pools, sponsor);
      pool.Some? ==> IdemKey(sponsor, FundOf(pool.value), ClientKey(key)) !in s.idem
    ensures var r := SpotMe.FundPool(cfg, s, now, sponsor, amount, key);
      var pool := SpotMe.FindPool(s.pools, sponsor);
      && (r.Ok? <==> pool.Some? && MayPay(cfg, s, now, sponsor, amount))
      && (r.Ok? ==>
            var account := s.pools[pool.value].account;
            && r.value.body == PoolBody(pool.value, account, BalanceOf(s.accounts, account) + amount, |s.transfers|)
            && r.value.state.pools == s.pools
            && MovedOnly(s.accounts, r.value.state.accounts, FindUser(s.accounts, sponsor).value, account, amount))
  {
    hide Inv, Execute, Paid, Conserved, IdemOk, Linked, KeyOk, FindUser, SentToday, SpotMe.FindPool;
    InvParts(cfg, s);
    ConservedAccounts(cfg, s);
    var pool, from := SpotMe.FindPool(s.pools, sponsor), FindUser(s.accounts, sponsor);
    if pool.Some? && from.Some? {
      var account := s.pools[pool.value].account;
      var c := SpotMe.FundCommand(sponsor, from.value, pool.value, account, amount,
                                  IdemKey(sponsor, FundOf(pool.value), ClientKey(key)));
      assert AccountOk(account, s.accounts[account]);
      assert Allowed(cfg, s, now, c) <==> MayPay(cfg, s, now, sponsor, amount);
      ExecuteUnfolds(cfg, s, now, c);
      if Allowed(cfg, s, now, c) {
        UnlienedExecute(cfg, s, now, c);
        PaidMoves(s, now, c);
        PaidTables(s, now, c, account);
      }
    }
  }

  /** The pool already has a grant for the user. */
  predicate AlreadyGranted(grants: seq<Grant>, pool: nat, user: UserId) {
    exists g :: 0 <= g < |grants| && grants[g].pool == pool && grants[g].beneficiary == user
  }

  /** Access is granted under a new key exactly within these bounds, and adds exactly one row. */
  lemma GrantAccessOutcome(cfg: Config, s: State, now: Time, sponsor: UserId, beneficiary: UserId, maxDraw: int,
                           key: nat)
    requires IdemKey(sponsor, GrantsEndpoint, ClientKey(key)) !in s.idem
    ensures var r := SpotMe.GrantAccess(cfg, s, now, sponsor, beneficiary, maxDraw, key);
      var pool := SpotMe.FindPool(s.pools, sponsor);
      && (r.Ok? <==>
            && pool.Some? && CanReceive(s, beneficiary) && beneficiary != sponsor
            && 0 < maxDraw <= cfg.maxDraw && !AlreadyGranted(s.grants, pool.value, beneficiary))
      && (r.Ok? ==>
            && r.value.state == s.(grants := s.grants + [Grant(pool.value, beneficiary, maxDraw, now)],
                                   idem := r.value.state.idem)
            && r.value.body == AccessBody(|s.grants|, pool.value, beneficiary, maxDraw))
  {
    hide FindUser, SpotMe.FindPool;
  }

  // -- escrows ------------------------------------------------------------------------

  /**
   * An escrow opens under a new key exactly when both parties exist and differ and the buyer may pay; the money moves
   * into escrow.
   */
  lemma CreateEscrowOutcome(cfg: Config, s: State, now: Time, buyer: UserId, seller: UserId, amount: int,
                            description: nat, key: nat)
    requires Wired(cfg) && Inv(cfg, s) && IdemKey(buyer, SafePayEndpoint, ClientKey(key)) !in s.idem
    ensures var r := SafePay.Create(cfg, s, now, buyer, seller, amount, description, key);
      var payer, payee := FindUser(s.accounts, buyer), FindUser(s.accounts, seller);
      && (r.Ok? <==> payee.Some? && payer != payee && MayPay(cfg, s, now, buyer, amount))
      && (r.Ok? ==>
            && r.value.body == EscrowCreatedBody(|s.escrows|, |s.transfers|, amount)
            && r.value.state.escrows
                 == s.escrows + [Escrow(|s.transfers|, None, buyer, seller, amount, AwaitingShipment, 0, None)]
            && MovedOnly(s.accounts, r.value.state.accounts, payer.value, ESCROW, amount)
            && r.value.state.tasks == s.tasks)
  {
    hide Inv, Execute, Paid, Conserved, IdemOk, Linked, KeyOk, FindUser, SentToday;
    InvParts(cfg, s);
    ConservedAccounts(cfg, s);
    var payer, payee := FindUser(s.accounts, buyer), FindUser(s.accounts, seller);
    if payer.Some? && payee.Some? && payer != payee {
      var top, fp := IdemKey(buyer, SafePayEndpoint, ClientKey(key)), SafePayPayload(seller, amount, description);
      var s0 := Begin(s, top, fp);
      var holdKey := IdemKey(buyer, InternalSafePayHold, SafePayHoldKey(|s.escrows|));
      var c := Holds.HoldCommand(buyer, payer.value, ESCROW, amount, EscrowHold, Held, holdKey, payee.value);
      assert holdKey !in s.idem by { Escrows.HoldKeyIsNew(s, holdKey); }
      assert AccountOk(ESCROW, s.accounts[ESCROW]) && AccountOk(payer.value, s.accounts[payer.value]);
      assert Allowed(cfg, s0, now, c) <==> MayPay(cfg, s, now, buyer, amount);
      ExecuteUnfolds(cfg, s0, now, c);
      if Allowed(cfg, s0, now, c) {
        UnlienedExecute(cfg, s0, now, c);
        PaidMoves(s0, now, c);
        PaidTables(s0, now, c, 0);
        Growth.ExecuteFramed(cfg, s0, now, c);
      }
    }
  }

  // -- money requests -------------------------------------------------------------------

  /** A request is made exactly between two active accounts for a positive amount, and adds exactly one row. */
  lemma RequestOutcome(cfg: Config, s: State, now: Time, requester: UserId, payer: UserId, amount: int)
    ensures var r := MoneyRequests.Request(cfg, s, now, requester, payer, amount);
      var to, from := FindUser(s.accounts, requester), FindUser(s.accounts, payer);
      && (r.Ok? <==> CanReceive(s, requester) && CanReceive(s, payer) && to != from && amount > 0)
      && (r.Ok? ==>
            var row := MoneyRequest(to.value, from.value, amount, Pending, None, now + cfg.requestExpiry);
            r.value == s.(requests := s.requests + [row]))
  {
    hide FindUser;
  }

  /** Rejecting is the payer's, cancelling the requester's, and only while the request is pending. */
  lemma TerminateOutcome(s: State, id: nat, user: UserId, byPayer: bool)
    ensures var r := MoneyRequests.Terminate(s, id, user, byPayer);
      && (r.Ok? <==>
            && id < |s.requests| && s.requests[id].status == Pending
            && var a := if byPayer then s.requests[id].payer else s.requests[id].requester;
               a < |s.accounts| && s.accounts[a].owner == Some(user))
      && (r.Ok? ==>
            var ended := s.requests[id].(status := if byPayer then Rejected else Cancelled);
            r.value == s.(requests := s.requests[id := ended]))
  {
  }

  /** The payer accepts in time, under a new key, and may pay. */
  predicate MayAccept(cfg: Config, s: State, now: Time, id: nat, user: UserId, key: nat) {
    && id < |s.requests|
    && var row := s.requests[id];
       && row.status == Pending && now < row.expiresAt
       && FindUser(s.accounts, user) == Some(row.payer) && MayPay(cfg, s, now, user, row.amount)
       && row.requester < |s.accounts| && s.accounts[row.requester].status == Active && row.requester != row.payer
       && IdemKey(user, Endpoint.Transfers, ClientKey(key)) !in s.idem
  }

  /**
   * What an acceptance leaves: the request settled by the new transfer, its amount off one net position and onto the
   * other.
   */
  ghost predicate AcceptedExactly(s: State, s': State, id: nat, a: AccountId, u: UserId)
    requires id < |s.requests|
  {
    var row := s.requests[id];
    && s'.requests == s.requests[id := row.(status := Accepted, transfer := Some(|s.transfers|))]
    && |s.transfers| < |s'.transfers|
    && s'.transfers[|s.transfers|].amount == row.amount
    && s'.transfers[|s.transfers|].sender == row.payer && s'.transfers[|s.transfers|].receiver == row.requester
    && Net(s', a, u)
         == Net(s, a, u) + (if a == row.requester then row.amount else 0) - (if a == row.payer then row.amount else 0)
  }

  /** A request is accepted exactly so, and every user's net position changes by exactly its amount or not at all. */
  lemma AcceptOutcome(cfg: Config, s: State, now: Time, id: nat, user: UserId, key: nat, a: AccountId, u: UserId)
    requires Wired(cfg) && Inv(cfg, s) && IsKind(s.accounts, a, UserAccount) && s.accounts[a].owner == Some(u)
    ensures var r := MoneyRequests.Accept(cfg, s, now, id, user, key);
      && (r.Ok? <==> MayAccept(cfg, s, now, id, user, key))
      && (r.Ok? ==> id < |s.requests| && AcceptedExactly(s, r.value.state, id, a, u))
  {
    hide Inv, Execute, Conserved, IdemOk, Linked, KeyOk, FindUser, SentToday, Posted, LienOn, Core, LegalRow,
         LienKeysOld;
    InvParts(cfg, s);
    ConservedAccounts(cfg, s);
    if id < |s.requests| && s.requests[id].status == Pending {
      var row := s.requests[id];
      assert RequestOk(s.accounts, s.transfers, row) by { LinkedRequest(s, id); }
      var c := MoneyRequests.SettlementCommand(user, row, id, key);
      assert s.accounts[row.payer].owner == Some(user) ==> FindUser(s.accounts, user) == Some(row.payer) by {
        if s.accounts[row.payer].owner == Some(user) {
          OwnAccount(s.accounts, row.payer, user);
        }
      }
      assert AccountOk(row.payer, s.accounts[row.payer]);
      UsedKeyRefuses(cfg, s, now, c, id);
      if c.key !in s.idem {
        RequestIsLegal(s, now, user, row, id, key);
        LienKeysAreOld(s);
        ConservedCore(cfg, s);
        ExecuteEffect(cfg, s, now, c);
        if Allowed(cfg, s, now, c) {
          var s1 := Execute(cfg, s, now, c).value.state;
          PostedNet(cfg, s, s1, now, c, a, u);
          PostedExtends(s, s1, now, c, LienOn(cfg, s, c));
        }
      }
    }
  }

  lemma LinkedRequest(s: State, id: nat)
    requires Linked(s) && id < |s.requests|
    ensures RequestOk(s.accounts, s.transfers, s.requests[id])
  {
  }

  /** A key already used, for whatever, cannot accept a request that is still pending. */
  lemma UsedKeyRefuses(cfg: Config, s: State, now: Time, c: TransferCommand, id: nat)
    requires IdemOk(s) && id < |s.requests| && s.requests[id].status == Pending
    requires c.key.endpoint == Endpoint.Transfers && c.key.key.ClientKey?
    requires c.fingerprint.RequestPayload? && c.fingerprint.request == id
    ensures c.key in s.idem ==> Execute(cfg, s, now, c).Err?
  {
    hide Execute;
    MismatchFails(cfg, s, now, c);
    KeyMeans(s, c.key);
  }

  // -- what a send answers ------------------------------------------------------------------

  /** The loan a send makes, if it falls short, and the answer about it. */
  ghost predicate LoanMade(s: State, s': State, now: Time, user: UserId, short: int, draw: Option<DrawInfo>) {
    if short == 0 then s'.loans == s.loans && draw == None
    else
      exists g :: 0 <= g < |s.grants| && Chosen(s, user, short, g)
        && s'.loans == s.loans + [Loan(s.grants[g].pool, user, |s.transfers|, short, short, Outstanding, now)]
        && draw == Some(DrawInfo(|s.loans|, s.grants[g].pool, |s.transfers|, short))
  }

  /**
   * The hold is the latest transfer; the answer gives its id, status, amount, the sender's balance now, and the time.
   */
  predicate HoldAnswered(r: Holds.Reply, sender: AccountId, amount: int, now: Time) {
    && r.body.SendBody? && r.state.transfers != []
    && r.body.hold
         == TransferBody(|r.state.transfers| - 1, PendingUndo, amount, 0, BalanceOf(r.state.accounts, sender), now)
  }

  /**
   * A send answers with its hold as it stands, the balance it leaves, and the loan it made from the oldest eligible
   * grant.
   */
  lemma SendAnswers(cfg: Config, s: State, now: Time, user: UserId, sender: AccountId, receiver: AccountId, amount: int,
                    key: nat, note: nat)
    requires Wired(cfg) && Inv(cfg, s) && IdemKey(user, Endpoint.Transfers, ClientKey(key)) !in s.idem
    requires IsKind(s.accounts, sender, UserAccount) && IsKind(s.accounts, receiver, UserAccount)
    requires SpotMe.SendFrom(cfg, s, now, user, sender, receiver, amount, key, note).Ok?
    ensures var r := SpotMe.SendFrom(cfg, s, now, user, sender, receiver, amount, key, note).value;
      r.body.SendBody? && HoldAnswered(r, sender, amount, now)
      && LoanMade(s, r.state, now, user, Shortfall(s, sender, amount), r.body.draw)
  {
    hide Sum, SentToday, Execute, Core, Conserved, IdemOkBut, KeyOk, Holds.UndoableSend, Inv, IdemOk, Linked,
         Conservation.Extends, SpotMe.DrawShortfall, WithinLimits, SpotMe.ActiveGrants, SpotMe.FirstCovering,
         SpotMe.Covers, Paid, LoanMade, Posted, MayDraw, CanDraw;
    SendSucceeds(cfg, s, now, user, sender, receiver, amount, key, note);
    InvParts(cfg, s);
    var top, fp := IdemKey(user, Endpoint.Transfers, ClientKey(key)), SendPayload(sender, receiver, amount, note);
    var s0 := Begin(s, top, fp);
    ConservedButKeys(cfg, s, s0);
    BeginKeepsKeys(s, top, fp);
    NoEarlierDraw(s, top, fp, key, user);
    DrawOutcome(cfg, s0, now, top, user, sender, amount, key);
    DrawShortfallKeeps(cfg, s0, now, top, user, sender, amount, key);
    var d := SpotMe.DrawShortfall(cfg, s0, now, user, sender, amount, key).value;
    var holdKey := IdemKey(user, InternalUndoHold, UndoHoldKey(key));
    var c := Holds.HoldCommand(user, sender, PENDING_SETTLEMENT, amount, UndoHold, PendingUndo, holdKey, receiver);
    UndoableSendKeeps(cfg, d.state, now, top, user, sender, receiver, amount, key);
    HeldExactly(cfg, d.state, now, user, sender, receiver, amount, holdKey);
    PaidTables(d.state, now, c, sender);
    LoanIsMade(cfg, s, s0, now, user, sender, amount, key);
    var r := SpotMe.SendFrom(cfg, s, now, user, sender, receiver, amount, key, note).value;
    SameLoans(s, d.state, r.state, now, user, Shortfall(s, sender, amount), d.draw);
  }

  lemma SameLoans(s: State, d: State, s': State, now: Time, user: UserId, short: int, draw: Option<DrawInfo>)
    requires LoanMade(s, d, now, user, short, draw) && s'.loans == d.loans
    ensures LoanMade(s, s', now, user, short, draw)
  {
  }

  lemma LoanIsMade(cfg: Config, s: State, s0: State, now: Time, user: UserId, sender: AccountId, amount: int, key: nat)
    requires Wired(cfg) && Conserved(cfg, s0) && SameButKeys(s, s0) && IsKind(s.accounts, sender, UserAccount)
    requires var short := Shortfall(s, sender, amount);
      short == 0 || (CanDraw(cfg, s0, user, short, key) && s.accounts[sender].status == Active)
    ensures var d := SpotMe.DrawShortfall(cfg, s0, now, user, sender, amount, key);
      d.Ok? && LoanMade(s, d.value.state, now, user, Shortfall(s, sender, amount), d.value.draw)
  {
    hide Execute, Conserved, SpotMe.ActiveGrants, SpotMe.FirstCovering, SpotMe.Covers, Paid, Chosen;
    var short := Shortfall(s, sender, amount);
    if short > 0 {
      DrawnExactly(cfg, s0, now, user, sender, amount, key);
      SelectionIgnoresKeys(s, s0, user, short);
      var g := Selected(s, user, short).value;
      SelectedIsChosen(s, user, short, g);
      PaidTables(s0, now, DrawFrom(s0, user, sender, short, key, g), 0);
    }
  }

  // -- what a worker may claim -----------------------------------------------------------------

  /** A worker's batch is at most fifty distinct tasks, pending and due, the longest due first. */
  lemma RunTasksOutcome(cfg: Config, s: State, now: Time, claimed: seq<TaskKey>)
    ensures Bank.Step(cfg, s, now, Bank.RunTasks(claimed)).Ok? <==>
      && |claimed| <= 50
      && (forall i :: 0 <= i < |claimed| ==>
            claimed[i] in s.tasks && s.tasks[claimed[i]].status == TaskPending && s.tasks[claimed[i]].dueAt <= now)
      && (forall i, j :: 0 <= i < j < |claimed| ==>
            claimed[i] != claimed[j] && s.tasks[claimed[i]].dueAt <= s.tasks[claimed[j]].dueAt)
  {
    hide Worker.RunBatch;
  }
}
