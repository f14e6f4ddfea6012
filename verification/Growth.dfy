/** History is append-only: what any command may do to what earlier commands wrote. */
module Growth {
  import opened Kernel
  import opened Sums
  import opened Accounts
  import opened Policies
  import opened Tables
  import opened Idempotency
  import opened Transfers
  import opened Scheduling
  import opened Invariants
  import opened Bank
  import SpotMe
  import Holds
  import SafePay
  import MoneyRequests
  import Worker

  predicate RecordsKept(before: map<IdemKey, IdemRecord>, after: map<IdemKey, IdemRecord>) {
    forall k :: k in before ==> k in after && after[k] == before[k]
  }

  /** The fee a transfer row was charged. */
  function FeeOn(cfg: Config): Transfer -> int {
    (t: Transfer) => FeeFor(cfg.fees, t.amount)
  }

  /** All balances together, plus every fee ever charged. */
  function Worth(cfg: Config, accounts: seq<Account>, transfers: seq<Transfer>): int {
    Sum(accounts, Balance) + Sum(transfers, FeeOn(cfg))
  }

  /** Money leaves an owned account by its owner's hand, and an unowned one only by a system-initiated kind. */
  predicate ByOwner(accounts: seq<Account>, t: Transfer) {
    && t.sender < |accounts|
    && (accounts[t.sender].owner == Some(t.initiatedBy) || (accounts[t.sender].owner == None
                                                            && SystemInitiated(t.kind)))
  }

  predicate Authorised(accounts: seq<Account>, transfers: seq<Transfer>) {
    forall i :: 0 <= i < |transfers| ==> ByOwner(accounts, transfers[i])
  }

  /** A loan keeps its terms, its debt never rises, and once repaid it stays as it is. */
  predicate LoansKept(before: seq<Loan>, after: seq<Loan>) {
    && |before| <= |after|
    && (forall l :: 0 <= l < |before| ==>
          && after[l] == before[l].(outstanding := after[l].outstanding, status := after[l].status)
          && after[l].outstanding <= Max(0, before[l].outstanding)
          && (before[l].status == Repaid ==> after[l] == before[l]))
  }

  /** What an execution may touch: balances, loans, and new rows at the end of the append-only tables. */
  predicate Framed(cfg: Config, s: State, s': State) {
    && RecordsKept(s.idem, s'.idem)
    && Worth(cfg, s'.accounts, s'.transfers) == Worth(cfg, s.accounts, s.transfers)
    && (Authorised(s.accounts, s.transfers) ==> Authorised(s'.accounts, s'.transfers))
    && SameShape(s.accounts, s'.accounts)
    && s.transfers <= s'.transfers && s.postings <= s'.postings && s.repayments <= s'.repayments
    && s'.pools == s.pools && s'.grants == s.grants && s'.escrows == s.escrows
    && s'.requests == s.requests && s'.tasks == s.tasks
    && |s'.loans| == |s.loans| && LoansKept(s.loans, s'.loans)
  }

  lemma FramedThenFramed(cfg: Config, s: State, s1: State, s2: State)
    requires Framed(cfg, s, s1) && Framed(cfg, s1, s2)
    ensures Framed(cfg, s, s2)
  {
  }

  lemma {:induction false} ExecuteFramed(cfg: Config, s: State, now: Time, c: TransferCommand)
    ensures Execute(cfg, s, now, c).Ok? ==> Framed(cfg, s, Execute(cfg, s, now, c).value.state)
    decreases if SpotMeKind(c.kind) then 0 else 1, 2, 0
  {
    hide SumSentSince, AfterCredit, Framed;
    FramedNowhere(cfg, s);
    var r := Execute(cfg, s, now, c);
    if r.Ok? && c.key !in s.idem {
      var fee := FeeFor(cfg.fees, c.amount);
      var sender, receiver := s.accounts[c.sender], s.accounts[c.receiver];
      var debited, credited := sender.Debit(c.amount + fee).value, receiver.Credit(c.amount).value;
      var s1 := Move(Begin(s, c.key, c.fingerprint), now, c, debited, credited);
      AfterCreditFramed(cfg, s1, now, |s.transfers|, c.receiver, credited, c.amount, c.kind);
      CompletedFrame(cfg, s, s1, AfterCredit(cfg, s1, now, |s.transfers|, c.receiver, credited, c.amount,
                                             c.kind).value, now, c, debited, credited,
                     TransferResult(|s.transfers|, c.status, c.amount, fee, debited.balance, credited.balance, now,
                                    false).ToResponse());
    }
  }

  lemma CompletedFrame(cfg: Config, s: State, s1: State, s2: State, now: Time, c: TransferCommand, debited: Account,
                       credited: Account, body: Body)
    requires c.key !in s.idem && c.sender < |s.accounts| && c.receiver < |s.accounts|
    requires c.sender != c.receiver && Authorize(s.accounts[c.sender], c).Ok?
    requires debited == s.accounts[c.sender].(balance := s.accounts[c.sender].balance - c.amount
                                              - FeeFor(cfg.fees, c.amount), version := debited.version)
    requires credited == s.accounts[c.receiver].(balance := s.accounts[c.receiver].balance + c.amount,
                                                 version := credited.version)
    requires s1 == Move(Begin(s, c.key, c.fingerprint), now, c, debited, credited) && Framed(cfg, s1, s2)
    ensures Framed(cfg, s, Complete(s2, c.key, c.fingerprint, body))
  {
    hide Sum;
    SumUpdate(s.accounts, c.sender, debited, Balance);
    SumUpdate(s.accounts[c.sender := debited], c.receiver, credited, Balance);
    SumAppend(s.transfers, s1.transfers[|s.transfers|], FeeOn(cfg));
  }

  lemma {:induction false} AfterCreditFramed(cfg: Config, s: State, now: Time, incoming: TransferId,
                                             receiverId: AccountId,
                                             receiver: Account, amount: int, kind: Kind)
    ensures var r := AfterCredit(cfg, s, now, incoming, receiverId, receiver, amount, kind);
      r.Ok? ==> Framed(cfg, s, r.value)
    decreases if SpotMeKind(kind) then 0 else 1, 1, 0
  {
    hide OutstandingLoans, Sweep;
    FramedNowhere(cfg, s);
    if !SpotMeKind(kind) && receiver.owner.Some? {
      OutstandingIsOwed(s.pools, s.loans, receiver.owner.value);
      SweepFramed(cfg, s, now, incoming, receiverId, receiver.owner.value,
                  OutstandingLoans(s.pools, s.loans, receiver.owner.value), Budget(cfg, amount));
    }
  }

  predicate Owed(rows: seq<LoanRow>) { forall k :: 0 <= k < |rows| ==> rows[k].outstanding > 0 }

  lemma OutstandingIsOwed(pools: seq<Pool>, loans: seq<Loan>, user: UserId)
    ensures Owed(OutstandingLoans(pools, loans, user))
  {
    var ids := OwingIds(pools, loans, user);
    var rows := OutstandingLoans(pools, loans, user);
    forall k | 0 <= k < |rows|
      ensures rows[k].outstanding > 0
    {
      assert ids[k] in ids;
    }
  }

  lemma RepaymentFramed(cfg: Config, s: State, loan: nat, transfer: TransferId, amount: int, trigger: TransferId)
    requires amount > 0
    ensures Framed(cfg, s, ApplyRepayment(s, loan, transfer, amount, trigger))
  {
    hide Sum, FeeOn;
  }

  lemma {:induction false} SweepFramed(cfg: Config, s: State, now: Time, incoming: TransferId, payer: AccountId,
                                       user: UserId,
                                       rows: seq<LoanRow>, budget: int)
    requires Owed(rows)
    ensures var r := Sweep(cfg, s, now, incoming, payer, user, rows, budget);
      r.Ok? ==> Framed(cfg, s, r.value)
    decreases 1, 0, |rows|
  {
    hide Execute, Framed, ApplyRepayment;
    if rows == [] || budget <= 0 {
      FramedNowhere(cfg, s);
    } else {
      var repay := Min(budget, rows[0].outstanding);
      var leg := Execute(cfg, s, now, RepayCommand(user, payer, incoming, rows[0], repay));
      ExecuteFramed(cfg, s, now, RepayCommand(user, payer, incoming, rows[0], repay));
      if leg.Ok? {
        var s' := ApplyRepayment(leg.value.state, rows[0].id, leg.value.result.transferId, repay, incoming);
        RepaymentFramed(cfg, leg.value.state, rows[0].id, leg.value.result.transferId, repay, incoming);
        FramedThenFramed(cfg, s, leg.value.state, s');
        SweepFramed(cfg, s', now, incoming, payer, user, rows[1..], budget - repay);
        var rest := Sweep(cfg, s', now, incoming, payer, user, rows[1..], budget - repay);
        if rest.Ok? {
          FramedThenFramed(cfg, s, s', rest.value);
        }
      }
    }
  }

  lemma FramedNowhere(cfg: Config, s: State)
    ensures Framed(cfg, s, s)
  {
  }

  // -- commands -------------------------------------------------------------

  predicate TransfersGrow(before: seq<Transfer>, after: seq<Transfer>) {
    && |before| <= |after|
    && (forall i :: 0 <= i < |before| ==>
          && after[i] == before[i].(status := after[i].status)
          && (!IsOpen(before[i].status) ==> after[i].status == before[i].status))
  }

  predicate PoolsGrow(before: seq<Pool>, after: seq<Pool>) {
    && before <= after
    && (forall p, q :: 0 <= p < |before| <= q < |after| ==> after[q].sponsor != before[p].sponsor)
  }

  predicate Settled(status: EscrowStatus) { status == Released || status == EscrowRefunded }

  predicate EscrowsGrow(before: seq<Escrow>, after: seq<Escrow>) {
    && |before| <= |after|
    && (forall e :: 0 <= e < |before| ==>
          && after[e].hold == before[e].hold && after[e].buyer == before[e].buyer
          && after[e].seller == before[e].seller && after[e].amount == before[e].amount
          && (Settled(before[e].status) ==> after[e] == before[e]))
  }

  predicate RequestsGrow(before: seq<MoneyRequest>, after: seq<MoneyRequest>) {
    && |before| <= |after|
    && (forall r :: 0 <= r < |before| ==>
          && after[r] == before[r].(status := after[r].status, transfer := after[r].transfer)
          && (before[r].status != Pending ==> after[r] == before[r]))
  }

  /**
   * Responses, postings, repayments and closed rows are never rewritten, nothing is ever removed, money leaves only
   * as fees, and only owners spend.
   */
  predicate Grows(cfg: Config, s: State, s': State) {
    && RecordsKept(s.idem, s'.idem)
    && Worth(cfg, s'.accounts, s'.transfers) == Worth(cfg, s.accounts, s.transfers)
    && (Authorised(s.accounts, s.transfers) ==> Authorised(s'.accounts, s'.transfers))
    && AccountsKept(s.accounts, s'.accounts)
    && TransfersGrow(s.transfers, s'.transfers)
    && s.postings <= s'.postings && s.repayments <= s'.repayments && s.grants <= s'.grants
    && PoolsGrow(s.pools, s'.pools)
    && EscrowsGrow(s.escrows, s'.escrows)
    && RequestsGrow(s.requests, s'.requests)
    && LoansKept(s.loans, s'.loans)
    && s.tasks.Keys <= s'.tasks.Keys
  }

  lemma GrowsThenGrows(cfg: Config, s: State, s1: State, s2: State)
    requires Grows(cfg, s, s1) && Grows(cfg, s1, s2)
    ensures Grows(cfg, s, s2)
  {
    hide Worth, Authorised, PoolsGrow;
    PoolsGrowThenGrow(s.pools, s1.pools, s2.pools);
  }

  lemma PoolsGrowThenGrow(a: seq<Pool>, b: seq<Pool>, c: seq<Pool>)
    requires PoolsGrow(a, b) && PoolsGrow(b, c)
    ensures PoolsGrow(a, c)
  {
    forall p, q | 0 <= p < |a| <= q < |c|
      ensures c[q].sponsor != a[p].sponsor
    {
      assert a[p] == b[p];
      if q < |b| { assert c[q] == b[q]; }
    }
  }

  lemma FramedGrows(cfg: Config, s: State, s': State)
    requires Framed(cfg, s, s')
    ensures Grows(cfg, s, s')
  {
  }

  lemma ExecuteGrows(cfg: Config, s: State, now: Time, c: TransferCommand)
    ensures Execute(cfg, s, now, c).Ok? ==> Grows(cfg, s, Execute(cfg, s, now, c).value.state)
  {
    hide Execute, Framed, Grows;
    ExecuteFramed(cfg, s, now, c);
    if Execute(cfg, s, now, c).Ok? {
      FramedGrows(cfg, s, Execute(cfg, s, now, c).value.state);
    }
  }

  /** A command's own record may change between its reservation and its completion. */
  lemma Wrapped(cfg: Config, s: State, top: IdemKey, fp: Payload, s1: State, body: Body)
    requires top !in s.idem && Grows(cfg, Begin(s, top, fp), s1)
    ensures Grows(cfg, s, Complete(s1, top, fp, body))
  {
  }

  lemma GrowsAccounts(cfg: Config, s: State, s': State)
    requires Grows(cfg, s, s')
    ensures AccountsKept(s.accounts, s'.accounts)
  {
  }

  lemma OpenAccountGrows(cfg: Config, s: State, now: Time, user: UserId, opening: int)
    ensures var r := SpotMe.OpenAccount(cfg, s, now, user, opening); r.Ok? ==> Grows(cfg, s, r.value)
  {
    hide Execute;
    var id := |s.accounts|;
    var s0 := s.(accounts := s.accounts + [Account(Some(user), UserAccount, 0, Active, 0)]);
    SumAppend(s.accounts, s0.accounts[id], Balance);
    assert Grows(cfg, s, s0);
    hide Grows;
    ExecuteGrows(cfg, s0, now, SpotMe.GrantCommand(user, id, opening));
    if opening > 0 && Execute(cfg, s0, now, SpotMe.GrantCommand(user, id, opening)).Ok? {
      GrowsThenGrows(cfg, s, s0, Execute(cfg, s0, now, SpotMe.GrantCommand(user, id, opening)).value.state);
    }
  }

  lemma InsertPoolGrows(cfg: Config, s: State, sponsor: UserId)
    requires SpotMe.FindPool(s.pools, sponsor).None?
    ensures Grows(cfg, s, SpotMe.InsertPool(s, sponsor))
  {
    hide SpotMe.FindPool, Sum;
    SumAppend(s.accounts, SpotMe.InsertPool(s, sponsor).accounts[|s.accounts|], Balance);
  }

  lemma CreatePoolGrows(cfg: Config, s: State, now: Time, sponsor: UserId, amount: int, key: nat)
    ensures var r := SpotMe.CreatePool(cfg, s, now, sponsor, amount, key); r.Ok? ==> Grows(cfg, s, r.value.state)
  {
    hide Execute, Grows, SpotMe.FindPool, FindUser;
    var r := SpotMe.CreatePool(cfg, s, now, sponsor, amount, key);
    var top, fp := IdemKey(sponsor, PoolsEndpoint, ClientKey(key)), PoolPayload(amount);
    if r.Ok? && top in s.idem {
      GrowsNowhere(cfg, s);
    } else if r.Ok? {
      var s0 := Begin(s, top, fp);
      var s1 := SpotMe.InsertPool(s0, sponsor);
      InsertPoolGrows(cfg, s0, sponsor);
      var c := SpotMe.FundCommand(sponsor, FindUser(s.accounts, sponsor).value, |s.pools|, |s.accounts|, amount,
                                  IdemKey(sponsor, InternalFund, PoolFundKey(|s.pools|)));
      ExecuteGrows(cfg, s1, now, c);
      GrowsThenGrows(cfg, s0, s1, Execute(cfg, s1, now, c).value.state);
      Wrapped(cfg, s, top, fp, Execute(cfg, s1, now, c).value.state, r.value.body);
    }
  }

  lemma GrowsNowhere(cfg: Config, s: State)
    ensures Grows(cfg, s, s)
  {
  }

  lemma FundPoolGrows(cfg: Config, s: State, now: Time, sponsor: UserId, amount: int, key: nat)
    ensures var r := SpotMe.FundPool(cfg, s, now, sponsor, amount, key); r.Ok? ==> Grows(cfg, s, r.value.state)
  {
    hide Execute, Grows;
    var r := SpotMe.FundPool(cfg, s, now, sponsor, amount, key);
    if r.Ok? {
      var pool := SpotMe.FindPool(s.pools, sponsor).value;
      ExecuteGrows(cfg, s, now,
        SpotMe.FundCommand(sponsor, FindUser(s.accounts, sponsor).value, pool, s.pools[pool].account, amount,
                           IdemKey(sponsor, FundOf(pool), ClientKey(key))));
    }
  }

  lemma GrantAccessGrows(cfg: Config, s: State, now: Time, sponsor: UserId, beneficiary: UserId, maxDraw: int, key: nat)
    ensures var r := SpotMe.GrantAccess(cfg, s, now, sponsor, beneficiary, maxDraw, key); r.Ok? ==>
      Grows(cfg, s, r.value.state)
  {
    hide Worth, Authorised, FindUser, SpotMe.FindPool, SpotMe.HasGrant;
  }

  lemma LoanGrows(cfg: Config, s: State, pool: nat, user: UserId, draw: TransferId, amount: int, now: Time)
    ensures Grows(cfg, s, SpotMe.CreateLoan(s, pool, user, draw, amount, now))
  {
    hide Worth, Authorised;
  }

  lemma DrawGrows(cfg: Config, s: State, now: Time, user: UserId, sender: AccountId, amount: int, key: nat)
    requires sender < |s.accounts|
    ensures var r := SpotMe.DrawShortfall(cfg, s, now, user, sender, amount, key);
      r.Ok? ==> Grows(cfg, s, r.value.state)
  {
    hide Execute, Grows, SpotMe.CreateLoan;
    GrowsNowhere(cfg, s);
    var short := Max(0, amount - s.accounts[sender].balance);
    var r := SpotMe.DrawShortfall(cfg, s, now, user, sender, amount, key);
    if short > 0 && r.Ok? {
      var pool := s.grants[SpotMe.FirstCovering(s, SpotMe.ActiveGrants(s, user), short).value].pool;
      var c := SpotMe.DrawCommand(s.pools[pool].sponsor, pool, s.pools[pool].account, user, sender, short, key);
      var draw := Execute(cfg, s, now, c).value;
      ExecuteGrows(cfg, s, now, c);
      LoanGrows(cfg, draw.state, pool, user, draw.result.transferId, short, now);
      GrowsThenGrows(cfg, s, draw.state, r.value.state);
    }
  }

  lemma HoldGrows(cfg: Config, s: State, now: Time, actor: UserId, sender: AccountId, receiver: AccountId,
                  amount: int, key: IdemKey)
    ensures var r := Holds.UndoableSend(cfg, s, now, actor, sender, receiver, amount, key); r.Ok? ==>
      Grows(cfg, s, r.value.state)
  {
    hide Execute;
    ExecuteGrows(cfg, s, now, Holds.HoldCommand(actor, sender, PENDING_SETTLEMENT, amount, UndoHold, PendingUndo,
                                                key, receiver));
  }

  lemma SendGrows(cfg: Config, s: State, now: Time, user: UserId, sender: AccountId, receiver: AccountId,
                  amount: int, key: nat, note: nat)
    ensures var r := SpotMe.SendFrom(cfg, s, now, user, sender, receiver, amount, key, note); r.Ok? ==>
      Grows(cfg, s, r.value.state)
  {
    hide Execute, Grows, SpotMe.DrawShortfall, Holds.UndoableSend;
    var r := SpotMe.SendFrom(cfg, s, now, user, sender, receiver, amount, key, note);
    var top, fp := IdemKey(user, Transfers, ClientKey(key)), SendPayload(sender, receiver, amount, note);
    if r.Ok? && top in s.idem {
      GrowsNowhere(cfg, s);
    } else if r.Ok? {
      var s0 := Begin(s, top, fp);
      var s1 := SpotMe.DrawShortfall(cfg, s0, now, user, sender, amount, key).value.state;
      DrawGrows(cfg, s0, now, user, sender, amount, key);
      var holdKey := IdemKey(user, InternalUndoHold, UndoHoldKey(key));
      HoldGrows(cfg, s1, now, user, sender, receiver, amount, holdKey);
      var s2 := Holds.UndoableSend(cfg, s1, now, user, sender, receiver, amount, holdKey).value.state;
      GrowsThenGrows(cfg, s0, s1, s2);
      Wrapped(cfg, s, top, fp, s2, r.value.body);
    }
  }

  /** Latching changes an open row's status and nothing else; the leg then appends. */
  lemma SettleGrows(cfg: Config, s: State, now: Time, hold: TransferId, from: TransferStatus, to: TransferStatus,
                    beneficiary: AccountId, holding: AccountId, amount: int, kind: Kind, actor: UserId)
    requires IsOpen(from)
    ensures var r := Holds.Settle(cfg, s, now, hold, from, to, beneficiary, holding, amount, kind, actor);
      r.Ok? ==>
        && Grows(cfg, s, r.value.state)
        && r.value.state.escrows == s.escrows && r.value.state.requests == s.requests
  {
    hide Execute;
    var r := Holds.Settle(cfg, s, now, hold, from, to, beneficiary, holding, amount, kind, actor);
    if r.Ok? {
      var s0 := Holds.Latch(s, hold, to);
      SumUpdate(s.transfers, hold, s0.transfers[hold], FeeOn(cfg));
      assert Grows(cfg, s, s0);
      hide Grows;
      var c := Holds.SettleCommand(hold, to, beneficiary, holding, amount, kind, actor);
      ExecuteFramed(cfg, s0, now, c);
      ExecuteGrows(cfg, s0, now, c);
      GrowsThenGrows(cfg, s, s0, r.value.state);
    }
  }

  lemma TasksGrow(cfg: Config, s: State, s': State, tasks: map<TaskKey, Task>)
    requires Grows(cfg, s, s') && s'.tasks.Keys <= tasks.Keys
    ensures Grows(cfg, s, s'.(tasks := tasks))
  {
  }

  lemma UndoGrows(cfg: Config, s: State, now: Time, transfer: TransferId, actor: UserId, key: nat)
    ensures var r := Holds.Undo(cfg, s, now, transfer, actor, key); r.Ok? ==> Grows(cfg, s, r.value.state)
  {
    hide Execute, Grows, Holds.Settle;
    var r := Holds.Undo(cfg, s, now, transfer, actor, key);
    var top, fp := IdemKey(actor, UndoOf(transfer), ClientKey(key)), UndoPayload(transfer);
    if r.Ok? && top in s.idem {
      GrowsNowhere(cfg, s);
    } else if r.Ok? {
      var s0 := Begin(s, top, fp);
      var hold := s.transfers[transfer];
      SettleGrows(cfg, s0, now, transfer, PendingUndo, Refunded, hold.sender, PENDING_SETTLEMENT, hold.amount,
                  UndoRefund, actor);
      var s1 := Holds.Settle(cfg, s0, now, transfer, PendingUndo, Refunded, hold.sender, PENDING_SETTLEMENT,
                             hold.amount, UndoRefund, actor).value.state;
      var tasks := Cancel(s1.tasks, TaskKey(UndoSettleTask, transfer));
      TasksGrow(cfg, s0, s1, tasks);
      Wrapped(cfg, s, top, fp, s1.(tasks := tasks), r.value.body);
    }
  }

  lemma CreateGrows(cfg: Config, s: State, now: Time, buyer: UserId, seller: UserId, amount: int, description: nat,
                    key: nat)
    ensures var r := SafePay.Create(cfg, s, now, buyer, seller, amount, description, key); r.Ok? ==>
      Grows(cfg, s, r.value.state)
  {
    hide Execute, FindUser;
    var r := SafePay.Create(cfg, s, now, buyer, seller, amount, description, key);
    var top, fp := IdemKey(buyer, SafePayEndpoint, ClientKey(key)), SafePayPayload(seller, amount, description);
    if r.Ok? && top !in s.idem {
      var s0 := Begin(s, top, fp);
      var c := Holds.HoldCommand(buyer, FindUser(s.accounts, buyer).value, ESCROW, amount, EscrowHold, Held,
                                 IdemKey(buyer, InternalSafePayHold, SafePayHoldKey(|s.escrows|)),
                                     FindUser(s.accounts, seller).value);
      ExecuteFramed(cfg, s0, now, c);
      var hold := Execute(cfg, s0, now, c).value;
      var row := Escrow(hold.result.transferId, None, buyer, seller, amount, AwaitingShipment, 0, None);
      assert Grows(cfg, s0, hold.state.(escrows := hold.state.escrows + [row]));
      hide Grows, Framed;
      Wrapped(cfg, s, top, fp, hold.state.(escrows := hold.state.escrows + [row]), r.value.body);
    }
  }

  lemma ReleaseGrows(cfg: Config, s: State, now: Time, id: nat, actor: UserId)
    requires id < |s.escrows|
    ensures var r := SafePay.Release(cfg, s, now, id, actor); r.Ok? ==> Grows(cfg, s, r.value.state)
  {
    hide Execute, Holds.Settle;
    var h := s.escrows[id].hold;
    if h < |s.transfers| && s.transfers[h].intended.Some? {
      SettleGrows(cfg, s, now, h, Held, Succeeded, s.transfers[h].intended.value, ESCROW, s.escrows[id].amount,
                  EscrowRelease, actor);
    }
  }

  lemma RefundGrows(cfg: Config, s: State, now: Time, id: nat)
    requires id < |s.escrows|
    ensures var r := SafePay.Refund(cfg, s, now, id); r.Ok? ==> Grows(cfg, s, r.value.state)
  {
    hide Execute, Holds.Settle;
    var h := s.escrows[id].hold;
    if h < |s.transfers| {
      SettleGrows(cfg, s, now, h, Held, Refunded, s.transfers[h].sender, ESCROW, s.escrows[id].amount, EscrowRefund,
                  s.escrows[id].buyer);
    }
  }

  lemma BanGrows(cfg: Config, s: State, buyer: UserId)
    ensures Grows(cfg, s, SafePay.Ban(s, buyer))
  {
    hide Sum;
    var a := FindUser(s.accounts, buyer);
    if a.Some? {
      SumUpdate(s.accounts, a.value, SafePay.Ban(s, buyer).accounts[a.value], Balance);
    }
  }

  lemma RelabelGrows(cfg: Config, s: State, id: nat, row: Escrow)
    requires id < |s.escrows| && !Settled(s.escrows[id].status)
    requires row == s.escrows[id].(status := row.status, codeAttempts := row.codeAttempts,
                                   codeLockedUntil := row.codeLockedUntil)
    ensures Grows(cfg, s, SafePay.WithEscrow(s, id, row))
  {
  }

  lemma OrderGrows(cfg: Config, s: State, now: Time, order: SafePay.Order)
    requires order.Deliver? ==> order.escrow < |s.escrows|
    ensures var r := SafePay.ApplyOrder(cfg, s, now, order); r.Ok? ==> Grows(cfg, s, r.value.state)
  {
    hide Grows, SafePay.Release, SafePay.Refund, SafePay.Ban, Cancel, Schedule;
    GrowsNowhere(cfg, s);
    var id := order.escrow;
    if id < |s.escrows| && SafePay.ApplyOrder(cfg, s, now, order).Ok? {
      match order
      case Ship(_, _, _, _) => RelabelGrows(cfg, s, id, s.escrows[id].(status := Shipped));
      case EnterCode(_, seller, _, correct) =>
        ReleaseGrows(cfg, s, now, id, seller);
        RelabelGrows(cfg, s, id, SafePay.CodeFailure(cfg, s, now, id).state.escrows[id]);
      case Confirm(_, buyer) => ReleaseGrows(cfg, s, now, id, buyer);
      case Dispute(_, _, _) =>
        var s1 := SafePay.WithEscrow(s, id, s.escrows[id].(status := Disputed));
        RelabelGrows(cfg, s, id, s.escrows[id].(status := Disputed));
        TasksGrow(cfg, s, s1, Cancel(s1.tasks, SafePay.AutoRelease(id)));
      case Deliver(_, _, _, releaseNow) => DeliverGrows(cfg, s, now, id, releaseNow);
      case Resolve(_, release, _, banBuyer) =>
        ReleaseGrows(cfg, s, now, id, s.escrows[id].seller);
        RefundGrows(cfg, s, now, id);
        if release && banBuyer {
          var s1 := SafePay.Release(cfg, s, now, id, s.escrows[id].seller).value.state;
          BanGrows(cfg, s1, s.escrows[id].buyer);
          GrowsThenGrows(cfg, s, s1, SafePay.Ban(s1, s.escrows[id].buyer));
        }
    }
  }

  lemma DeliverGrows(cfg: Config, s: State, now: Time, id: nat, releaseNow: bool)
    requires id < |s.escrows|
    ensures var r := SafePay.DeliverOnce(cfg, s, now, id, releaseNow); r.Ok? ==> Grows(cfg, s, r.value.state)
  {
    hide Grows, SafePay.Release, Schedule;
    GrowsNowhere(cfg, s);
    if s.escrows[id].status == Shipped {
      var s1 := SafePay.WithEscrow(s, id, s.escrows[id].(status := Delivered));
      RelabelGrows(cfg, s, id, s.escrows[id].(status := Delivered));
      ReleaseGrows(cfg, s1, now, id, s.escrows[id].seller);
      var r := SafePay.DeliverOnce(cfg, s, now, id, releaseNow);
      if releaseNow && r.Ok? {
        GrowsThenGrows(cfg, s, s1, r.value.state);
      } else {
        TasksGrow(cfg, s, s1, Schedule(s1.tasks, SafePay.AutoRelease(id), now + cfg.autoReleaseDelay));
      }
    }
  }

  lemma PerformGrows(cfg: Config, s: State, now: Time, order: SafePay.Order, key: nat)
    ensures var r := SafePay.Perform(cfg, s, now, order, key); r.Ok? ==> Grows(cfg, s, r.value.state)
  {
    hide Grows, SafePay.ApplyOrder;
    GrowsNowhere(cfg, s);
    var r := SafePay.Perform(cfg, s, now, order, key);
    if r.Ok? {
      var (top, fp) := SafePay.OrderKey(s, order, key);
      if top !in s.idem {
        var s0 := Begin(s, top, fp);
        OrderGrows(cfg, s0, now, order);
        Wrapped(cfg, s, top, fp, SafePay.ApplyOrder(cfg, s0, now, order).value.state, r.value.body);
      }
    }
  }

  lemma AcceptGrows(cfg: Config, s: State, now: Time, id: nat, user: UserId, key: nat)
    ensures var r := MoneyRequests.Accept(cfg, s, now, id, user, key); r.Ok? ==> Grows(cfg, s, r.value.state)
  {
    hide Execute;
    if id < |s.requests| {
      ExecuteFramed(cfg, s, now, MoneyRequests.SettlementCommand(user, s.requests[id], id, key));
    }
  }

  lemma RequestsOnlyGrow(cfg: Config, s: State, now: Time, requester: UserId, payer: UserId, amount: int, id: nat,
                         byPayer: bool)
    ensures var r := MoneyRequests.Request(cfg, s, now, requester, payer, amount); r.Ok? ==> Grows(cfg, s, r.value)
    ensures var r := MoneyRequests.Terminate(s, id, requester, byPayer); r.Ok? ==> Grows(cfg, s, r.value)
    ensures Grows(cfg, s, MoneyRequests.ExpireDue(s, now))
  {
    hide FindUser;
  }

  lemma HandleGrows(cfg: Config, s: State, now: Time, key: TaskKey)
    ensures var r := Worker.Handle(cfg, s, now, key); r.Ok? ==> Grows(cfg, s, r.value)
  {
    hide Grows, Holds.Settle, SafePay.Release, MoneyRequests.ExpireDue;
    GrowsNowhere(cfg, s);
    RequestsOnlyGrow(cfg, s, now, 0, 0, 0, 0, false);
    var id := key.resource;
    if id < |s.transfers| && s.transfers[id].intended.Some? {
      SettleGrows(cfg, s, now, id, PendingUndo, Succeeded, s.transfers[id].intended.value, PENDING_SETTLEMENT,
                  s.transfers[id].amount, UndoSettle, s.transfers[id].initiatedBy);
    }
    if id < |s.escrows| {
      ReleaseGrows(cfg, s, now, id, s.escrows[id].seller);
    }
  }

  lemma {:induction false} BatchGrows(cfg: Config, s: State, now: Time, claimed: seq<TaskKey>)
    ensures Grows(cfg, s, Worker.RunBatch(cfg, s, now, claimed).0)
  {
    hide Grows, Worker.Handle, RecordFailure, Finish;
    GrowsNowhere(cfg, s);
    if claimed != [] {
      var n := |claimed| - 1;
      BatchGrows(cfg, s, now, claimed[..n]);
      var s1 := Worker.RunBatch(cfg, s, now, claimed[..n]).0;
      HandleGrows(cfg, s1, now, claimed[n]);
      var h := Worker.Handle(cfg, s1, now, claimed[n]);
      if h.Ok? {
        GrowsThenGrows(cfg, s, s1, h.value);
        TasksGrow(cfg, s, h.value, Finish(h.value.tasks, claimed[n]));
      } else {
        TasksGrow(cfg, s, s1, Worker.RunTask(cfg, s1, now, claimed[n]).0.tasks);
      }
    }
  }

  /** No command, whatever its outcome, rewrites history. */
  lemma StepGrows(cfg: Config, s: State, event: Event)
    ensures Grows(cfg, s, Commit(cfg, s, event))
  {
    hide Grows, SpotMe.OpenAccount, SpotMe.CreatePool, SpotMe.FundPool, SpotMe.GrantAccess, SpotMe.SendFrom,
         Holds.Undo, SafePay.Create, SafePay.Perform, MoneyRequests.Request, MoneyRequests.Accept,
         MoneyRequests.Terminate, Worker.RunBatch, Claimable;
    var now := event.now;
    GrowsNowhere(cfg, s);
    match event.command
    case OpenAccount(user, opening) => OpenAccountGrows(cfg, s, now, user, opening);
    case CreatePool(sponsor, amount, key) => CreatePoolGrows(cfg, s, now, sponsor, amount, key);
    case FundPool(sponsor, amount, key) => FundPoolGrows(cfg, s, now, sponsor, amount, key);
    case GrantAccess(sponsor, beneficiary, maxDraw, key) => GrantAccessGrows(cfg, s, now, sponsor, beneficiary,
        maxDraw, key);
    case Send(user, recipient, amount, key, note) =>
      if FindUser(s.accounts, user).Some? && FindUser(s.accounts, recipient).Some? {
        SendGrows(cfg, s, now, user, FindUser(s.accounts, user).value, FindUser(s.accounts, recipient).value, amount,
                  key, note);
      }
    case Undo(transfer, actor, key) => UndoGrows(cfg, s, now, transfer, actor, key);
    case CreateEscrow(buyer, seller, amount, description, key) => CreateGrows(cfg, s, now, buyer, seller, amount,
        description, key);
    case OrderEscrow(order, key) => PerformGrows(cfg, s, now, order, key);
    case RequestMoney(requester, payer, amount) => RequestsOnlyGrow(cfg, s, now, requester, payer, amount, 0, false);
    case AcceptRequest(request, user, key) => AcceptGrows(cfg, s, now, request, user, key);
    case TerminateRequest(request, user, byPayer) => RequestsOnlyGrow(cfg, s, now, user, 0, 0, request, byPayer);
    case RunTasks(claimed) => BatchGrows(cfg, s, now, claimed);
  }

  lemma {:induction false} RunGrows(cfg: Config, s: State, events: seq<Event>)
    ensures Grows(cfg, s, RunFrom(cfg, s, events))
  {
    hide Grows, Commit;
    GrowsNowhere(cfg, s);
    if events != [] {
      var n := |events| - 1;
      RunGrows(cfg, s, events[..n]);
      StepGrows(cfg, RunFrom(cfg, s, events[..n]), events[n]);
      GrowsThenGrows(cfg, s, RunFrom(cfg, s, events[..n]), RunFrom(cfg, s, events));
    }
  }

  /** Under any fee strategy, and over any run, all balances together are short by exactly the fees charged. */
  lemma FeesAreTheOnlyDrift(cfg: Config, events: seq<Event>)
    ensures var s := Run(cfg, events);
      && Sum(s.accounts, Balance) == -Sum(s.transfers, FeeOn(cfg))
      && (cfg.fees == NoFee ==> Sum(s.accounts, Balance) == 0)
  {
    hide Step;
    RunGrows(cfg, INITIAL, events);
    var s := Run(cfg, events);
    SumZero(INITIAL.accounts, Balance);
    if cfg.fees == NoFee {
      SumZero(s.transfers, FeeOn(cfg));
    }
  }

  /** In every run, every transfer out of an owned account was initiated by its owner. */
  lemma OnlyOwnersSpend(cfg: Config, events: seq<Event>, t: TransferId)
    requires t < |Run(cfg, events).transfers|
    ensures var s := Run(cfg, events);
      && s.transfers[t].sender < |s.accounts|
      && var owner := s.accounts[s.transfers[t].sender].owner;
         owner == Some(s.transfers[t].initiatedBy) || (owner == None && SystemInitiated(s.transfers[t].kind))
  {
    hide Step;
    RunGrows(cfg, INITIAL, events);
    var s := Run(cfg, events);
    assert ByOwner(s.accounts, s.transfers[t]);
  }
}
