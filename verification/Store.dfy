/** The services as they run: methods that update the tables of one transaction in place. */
module Store {
  import opened Kernel
  import opened Accounts
  import opened Ledger
  import opened Policies
  import opened Tables
  import opened Idempotency
  import opened Transfers

  /** One unfolding of the lien loop. */
  lemma SweepTurn(cfg: Config, s: State, now: Time, incoming: TransferId, payer: AccountId, user: UserId,
                  rows: seq<LoanRow>, budget: int)
    ensures rows == [] || budget <= 0 ==> Sweep(cfg, s, now, incoming, payer, user, rows, budget) == Ok(s)
    ensures rows != [] && budget > 0 ==>
      var repay := Min(budget, rows[0].outstanding);
      var leg := Transfers.Execute(cfg, s, now, RepayCommand(user, payer, incoming, rows[0], repay));
      && (leg.Err? ==> Sweep(cfg, s, now, incoming, payer, user, rows, budget) == Err(leg.error))
      && (leg.Ok? ==>
            Sweep(cfg, s, now, incoming, payer, user, rows, budget)
              == Sweep(cfg, Transfers.ApplyRepayment(leg.value.state, rows[0].id, leg.value.result.transferId, repay,
                                                     incoming),
                       now, incoming, payer, user, rows[1..], budget - repay))
  {
    hide Transfers.Execute;
  }

  class Session {
    var accounts: seq<Account>
    var transfers: seq<Transfer>
    var postings: seq<Posting>
    var idem: map<IdemKey, IdemRecord>
    var pools: seq<Pool>
    var grants: seq<Grant>
    var loans: seq<Loan>
    var repayments: seq<Repayment>
    var escrows: seq<Escrow>
    var requests: seq<MoneyRequest>
    var tasks: map<TaskKey, Task>

    function View(): State
      reads this
    {
      State(accounts, transfers, postings, idem, pools, grants, loans, repayments, escrows, requests, tasks)
    }

    constructor ()
      ensures View() == INITIAL
    {
      accounts, transfers, postings, idem := INITIAL.accounts, [], [], map[];
      pools, grants, loans, repayments := [], [], [], [];
      escrows, requests, tasks := [], [], map[];
    }

    /** Rolling back to a savepoint, or to the start of the transaction. */
    method Restore(saved: State)
      modifies this
      ensures View() == saved
    {
      accounts, transfers, postings, idem := saved.accounts, saved.transfers, saved.postings, saved.idem;
      pools, grants, loans, repayments := saved.pools, saved.grants, saved.loans, saved.repayments;
      escrows, requests, tasks := saved.escrows, saved.requests, saved.tasks;
    }

    // -- application/transfer.py ----------------------------------------------

    method Execute(cfg: Config, now: Time, c: TransferCommand) returns (r: Result<TransferResult>)
      modifies this
      ensures var spec := Transfers.Execute(cfg, old(View()), now, c);
        (spec.Ok? ==> r == Ok(spec.value.result) && View() == spec.value.state) && (spec.Err? ==> r == Err(spec.error))
      decreases if SpotMeKind(c.kind) then 0 else 1, 2, 0
    {
      hide Transfers.AfterCredit, SumSentSince, TransferLines, FeeFor, Authorize, EnsureWithinLimits, Reserve,
           ReplayedResult;
      var decision := Reserve(idem, c.key, c.fingerprint);
      if decision.PayloadMismatch? { return Err(IdempotencyKeyReuse); }
      if decision.InProgress? { return Err(RequestInProgress); }
      if decision.Replay? { return Ok(ReplayedResult(decision.body, now)); }
      idem := idem[c.key := Processing(c.fingerprint)];
      var _ :- Need(c.sender != c.receiver, SelfTransfer);
      var _ :- Need(c.sender < |accounts| && c.receiver < |accounts|, NotFound);
      var sender, receiver := accounts[c.sender], accounts[c.receiver];
      var _ :- Authorize(sender, c);
      var _ :- sender.EnsureActive();
      var _ :- receiver.EnsureActive();
      var fee := FeeFor(cfg.fees, c.amount);
      var total := c.amount + fee;
      if c.enforceLimits {
        var _ :- EnsureWithinLimits(cfg, total, SumSentSince(transfers, c.sender, DAY * DayOf(now)));
      }
      var _ :- sender.EnsureCanAfford(total);
      var debited :- sender.Debit(total);
      var credited :- receiver.Credit(c.amount);
      accounts := accounts[c.sender := debited];
      accounts := accounts[c.receiver := credited];
      var id := |transfers|;
      transfers := transfers +
        [Transfer(c.sender, c.receiver, c.amount, c.kind, c.status, c.actor, c.parent, c.intended, now)];
      postings := postings + [Posting(id, TransferLines(c.sender, c.receiver, c.amount, debited.balance,
                                                        credited.balance))];
      var result := TransferResult(id, c.status, c.amount, fee, debited.balance, credited.balance, now, false);
      assert View() == Move(Begin(old(View()), c.key, c.fingerprint), now, c, debited, credited);
      var _ :- AfterCredit(cfg, now, id, c.receiver, credited, c.amount, c.kind);
      idem := idem[c.key := Completed(c.fingerprint, result.ToResponse())];
      return Ok(result);
    }

    // -- overdraft/application/service.py --------------------------------------

    method ApplyRepayment(loan: nat, transfer: TransferId, amount: int, trigger: TransferId)
      modifies this
      ensures View() == Transfers.ApplyRepayment(old(View()), loan, transfer, amount, trigger)
    {
      if loan < |loans| && loans[loan].status == Outstanding {
        var left := Max(0, loans[loan].outstanding - amount);
        loans := loans[loan := loans[loan].(outstanding := left, status := if left == 0 then Repaid else Outstanding)];
        repayments := repayments + [Repayment(loan, transfer, amount, trigger)];
      }
    }

    /** The lien: repay loan after loan, oldest first, until the budget is spent. */
    method AfterCredit(cfg: Config, now: Time, incoming: TransferId, receiverId: AccountId, receiver: Account,
                       amount: int, kind: Kind)
      returns (r: Result<()>)
      modifies this
      ensures var spec := Transfers.AfterCredit(cfg, old(View()), now, incoming, receiverId, receiver, amount, kind);
        (spec.Ok? ==> r == Ok(()) && View() == spec.value) && (spec.Err? ==> r == Err(spec.error))
      decreases if SpotMeKind(kind) then 0 else 1, 1, 0
    {
      hide Sweep, OutstandingLoans, Transfers.Execute, Transfers.ApplyRepayment;
      if SpotMeKind(kind) { return Ok(()); }
      if receiver.kind != UserAccount || receiver.owner == None { return Ok(()); }
      var budget := Budget(cfg, amount);
      if budget <= 0 { return Ok(()); }
      var user := receiver.owner.value;
      var rows := OutstandingLoans(pools, loans, user);
      ghost var spec := Sweep(cfg, old(View()), now, incoming, receiverId, user, rows, budget);
      var i := 0;
      while i < |rows| && budget > 0
        invariant 0 <= i <= |rows|
        invariant spec == Sweep(cfg, View(), now, incoming, receiverId, user, rows[i..], budget)
      {
        var row := rows[i];
        var repay := Min(budget, row.outstanding);
        SweepTurn(cfg, View(), now, incoming, receiverId, user, rows[i..], budget);
        assert rows[i..][0] == row && rows[i..][1..] == rows[i + 1..];
        var leg :- Execute(cfg, now, RepayCommand(user, receiverId, incoming, row, repay));
        ApplyRepayment(row.id, leg.transferId, repay, incoming);
        budget := budget - repay;
        i := i + 1;
      }
      SweepTurn(cfg, View(), now, incoming, receiverId, user, rows[i..], budget);
      return Ok(());
    }
  }
}
