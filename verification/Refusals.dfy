/** Which error each refusal gives, and what an execution charges under any fee strategy. */
module Refusals {
  import opened Kernel
  import opened Accounts
  import opened Policies
  import opened Tables
  import opened Idempotency
  import opened Transfers
  import opened Invariants
  import opened Executions
  import opened Positions
  import opened Shortfalls
  import opened EscrowOutcomes
  import Holds
  import SpotMe
  import SafePay
  import MoneyRequests

  // -- execute under any fee strategy ---------------------------------------------------

  /** The guards of a first execution in the order they are tested, with the error each gives. */
  function Refusal(cfg: Config, s: State, now: Time, c: TransferCommand): Option<Error> {
    var total := c.amount + FeeFor(cfg.fees, c.amount);
    if c.sender == c.receiver then Some(SelfTransfer)
    else if c.sender >= |s.accounts| || c.receiver >= |s.accounts| then Some(NotFound)
    else
      var sender, receiver := s.accounts[c.sender], s.accounts[c.receiver];
      if !MayMove(sender, c.actor, c.kind) then Some(Unauthorized)
      else if sender.status != Active || receiver.status != Active then Some(AccountInactive)
      else if c.enforceLimits && total > cfg.maxSingle then Some(TransferLimitExceeded)
      else if c.enforceLimits && SentToday(s.transfers, c.sender, now) + total > cfg.dailyTotal
      then Some(DailyLimitExceeded)
      else if sender.kind != SystemIssuance && sender.balance < total then Some(InsufficientFunds)
      else if total <= 0 || c.amount <= 0 then Some(InvalidAmount)
      else None
  }

  /** A first execution is refused with exactly that error; otherwise only its lien could still stop it. */
  lemma ExecuteRefusals(cfg: Config, s: State, now: Time, c: TransferCommand)
    requires c.key !in s.idem
    ensures var refusal := Refusal(cfg, s, now, c);
      && (refusal.Some? ==> Execute(cfg, s, now, c) == Err(refusal.value))
      && (refusal.None? && s.accounts[c.receiver].kind != UserAccount ==> Execute(cfg, s, now, c).Ok?)
  {
    hide AfterCredit, SumSentSince, SentToday, FeeFor;
    SentTodayIsSummed(s.transfers, c.sender, now);
    if Refusal(cfg, s, now, c).None? {
      NoLienOn(cfg, s, now, c);
    }
  }

  lemma NoLienOn(cfg: Config, s: State, now: Time, c: TransferCommand)
    ensures forall s1: State, a: Account, n: TransferId :: a.kind != UserAccount ==>
      AfterCredit(cfg, s1, now, n, c.receiver, a, c.amount, c.kind) == Ok(s1)
  {
    hide Sweep;
  }

  /** The sender pays the fee on top, the receiver gets the amount, and the answer says so. */
  lemma SenderPaysFee(cfg: Config, s: State, now: Time, c: TransferCommand)
    requires c.key !in s.idem && Refusal(cfg, s, now, c).None? && s.accounts[c.receiver].kind != UserAccount
    ensures Execute(cfg, s, now, c).Ok?
    ensures var e := Execute(cfg, s, now, c).value;
      var fee := FeeFor(cfg.fees, c.amount);
      && BalanceOf(e.state.accounts, c.sender) == BalanceOf(s.accounts, c.sender) - c.amount - fee
      && BalanceOf(e.state.accounts, c.receiver) == BalanceOf(s.accounts, c.receiver) + c.amount
      && e.result.fee == fee && e.result.amount == c.amount
      && e.result.senderAfter == BalanceOf(e.state.accounts, c.sender)
  {
    hide AfterCredit, SumSentSince, SentToday, FeeFor;
    SentTodayIsSummed(s.transfers, c.sender, now);
    NoLienOn(cfg, s, now, c);
  }

  // -- commands -----------------------------------------------------------------------------

  /**
   * A send that falls short is refused for lack of funds when no grant is eligible or the shortfall exceeds the
   * maximum.
   */
  lemma SendRefusals(cfg: Config, s: State, now: Time, user: UserId, sender: AccountId, receiver: AccountId,
                     amount: int, key: nat, note: nat)
    requires IdemKey(user, Endpoint.Transfers, ClientKey(key)) !in s.idem && sender < |s.accounts|
    ensures var r := SpotMe.SendFrom(cfg, s, now, user, sender, receiver, amount, key, note);
      var short := Shortfall(s, sender, amount);
      && (s.accounts[sender].owner != Some(user) ==> r == Err(Unauthorized))
      && (&& s.accounts[sender].owner == Some(user) && short > 0
          && (short > cfg.maxDraw || forall g :: 0 <= g < |s.grants| ==> !Eligible(s, user, short, g))
          ==> r == Err(InsufficientFunds))
  {
    hide Execute, Holds.UndoableSend, SpotMe.ActiveGrants, SpotMe.FirstCovering, Eligible;
    var top, fp := IdemKey(user, Endpoint.Transfers, ClientKey(key)), SendPayload(sender, receiver, amount, note);
    var short := Shortfall(s, sender, amount);
    var s0 := Begin(s, top, fp);
    SelectionIgnoresKeys(s, s0, user, short);
    if Selected(s, user, short).Some? {
      SelectedIsChosen(s, user, short, Selected(s, user, short).value);
    }
  }

  lemma UndoRefusals(cfg: Config, s: State, now: Time, h: TransferId, actor: UserId, key: nat)
    requires IdemKey(actor, UndoOf(h), ClientKey(key)) !in s.idem
    ensures var r := Holds.Undo(cfg, s, now, h, actor, key);
      if h >= |s.transfers| || s.transfers[h].kind != UndoHold then r == Err(NotFound)
      else if s.transfers[h].status != PendingUndo then r == Err(StateConflict)
      else
        var a := s.transfers[h].sender;
        a >= |s.accounts| || s.accounts[a].owner != Some(actor) ==> r == Err(NotFound)
  {
    hide Holds.Settle;
  }

  /** A stranger to an escrow, or one that does not exist, is not found; the wrong moment is a conflict. */
  lemma OrderRefusals(cfg: Config, s: State, now: Time, order: SafePay.Order, key: nat)
    requires NewOrder(s, order, key)
    ensures var r := SafePay.Perform(cfg, s, now, order, key);
      var e := order.escrow;
      match order
      case Ship(_, seller, _, _) =>
        e >= |s.escrows| || s.escrows[e].seller != seller || s.escrows[e].status != AwaitingShipment ==>
          r == Err(StateConflict)
      case EnterCode(_, seller, _, _) =>
        if e >= |s.escrows| || s.escrows[e].seller != seller then r == Err(NotFound)
        else s.escrows[e].status in {Disputed, Released, EscrowRefunded} ==> r == Err(StateConflict)
      case Confirm(_, buyer) =>
        if e >= |s.escrows| || s.escrows[e].buyer != buyer then r == Err(NotFound)
        else s.escrows[e].status in {AwaitingShipment, Disputed, Released, EscrowRefunded} ==> r == Err(StateConflict)
      case Dispute(_, buyer, _) =>
        (|| e >= |s.escrows| || s.escrows[e].buyer != buyer
         || s.escrows[e].status in {Disputed, Released, EscrowRefunded}) ==>
          r == Err(StateConflict)
      case Deliver(_, _, _, _) =>
        if e >= |s.escrows| then r == Err(NotFound)
        else s.escrows[e].status in {AwaitingShipment, Delivered} ==> r == Err(StateConflict)
      case Resolve(_, _, _, _) =>
        if e >= |s.escrows| then r == Err(NotFound)
        else s.escrows[e].status != Disputed ==> r == Err(StateConflict)
  {
    hide SafePay.Release, SafePay.Refund, SafePay.Ban;
  }

  lemma AccountRefusals(cfg: Config, s: State, now: Time, user: UserId, other: UserId, amount: int, key: nat)
    ensures FindUser(s.accounts, user).Some? ==> SpotMe.OpenAccount(cfg, s, now, user, amount) == Err(Conflict)
    ensures IdemKey(user, PoolsEndpoint, ClientKey(key)) !in s.idem ==>
      var r := SpotMe.CreatePool(cfg, s, now, user, amount, key);
      if SpotMe.FindPool(s.pools, user).Some? then r == Err(Conflict)
      else FindUser(s.accounts, user).None? ==> r == Err(NotFound)
    ensures SpotMe.FindPool(s.pools, user).None? || FindUser(s.accounts, user).None? ==>
      SpotMe.FundPool(cfg, s, now, user, amount, key) == Err(NotFound)
    ensures var r := SpotMe.Send(cfg, s, now, user, other, amount, key, 0);
      var q := SafePay.Create(cfg, s, now, user, other, amount, 0, key);
      if FindUser(s.accounts, user).None? || FindUser(s.accounts, other).None? then r == q == Err(NotFound)
      else user == other ==> r == Err(SelfTransfer) && q == Err(SelfTransfer)
  {
    hide Execute, SpotMe.SendFrom, FindUser, SpotMe.FindPool;
  }

  lemma GrantRefusals(cfg: Config, s: State, now: Time, sponsor: UserId, user: UserId, maxDraw: int, key: nat)
    requires IdemKey(sponsor, GrantsEndpoint, ClientKey(key)) !in s.idem
    ensures var r := SpotMe.GrantAccess(cfg, s, now, sponsor, user, maxDraw, key);
      if SpotMe.FindPool(s.pools, sponsor).None? || !CanReceive(s, user) then r == Err(NotFound)
      else if user == sponsor then r == Err(SelfTransfer)
      else if maxDraw > cfg.maxDraw then r == Err(Conflict)
      else
        (exists g :: 0 <= g < |s.grants| && s.grants[g].pool == SpotMe.FindPool(s.pools, sponsor).value
                     && s.grants[g].beneficiary == user) ==> r == Err(Conflict)
  {
    hide FindUser, SpotMe.FindPool;
  }

  /** Requests: not the payer's is not found; decided or expired is a conflict; only the right party may end one. */
  lemma RequestRefusals(cfg: Config, s: State, now: Time, id: nat, user: UserId, key: nat, byPayer: bool)
    ensures var r := MoneyRequests.Accept(cfg, s, now, id, user, key);
      var mine := id < |s.requests| && s.requests[id].payer < |s.accounts|
                  && s.accounts[s.requests[id].payer].owner == Some(user);
      if !mine then r == Err(NotFound)
      else s.requests[id].status != Pending || s.requests[id].expiresAt <= now ==> r == Err(StateConflict)
    ensures var r := MoneyRequests.Terminate(s, id, user, byPayer);
      if id >= |s.requests| then r == Err(NotFound)
      else
        var a := if byPayer then s.requests[id].payer else s.requests[id].requester;
        if a >= |s.accounts| || s.accounts[a].owner != Some(user) then r == Err(Unauthorized)
        else s.requests[id].status != Pending ==> r == Err(StateConflict)
  {
    hide Execute;
  }
}
