/** What the invariant says of every reachable state, one promise at a time. */
module Consequences {
  import opened Kernel
  import opened Sums
  import opened Accounts
  import opened Ledger
  import opened Policies
  import opened Tables
  import opened Transfers
  import opened Invariants
  import opened Settling
  import opened Bank
  import opened Runs

  lemma Reached(cfg: Config, events: seq<Event>)
    requires Wired(cfg)
    ensures var s := Run(cfg, events);
      && AccountsOk(s.accounts) && BooksOk(s.accounts, s.transfers, s.postings) && TransfersOk(s.accounts, s.transfers)
      && PoolsOk(s.accounts, s.pools) && LoansOk(s.pools, s.loans, s.repayments) && LegsOk(s.transfers)
      && PendingGap(s.accounts, s.transfers) == 0 && EscrowGap(s.accounts, s.transfers) == 0
      && PoolsWhole(s.accounts, s.transfers, s.pools, s.loans) && DailyOk(cfg, s.transfers)
      && EscrowsOk(s.accounts, s.transfers, s.escrows) && TasksOk(s.transfers, s.escrows, s.tasks)
      && RequestsOk(s.accounts, s.transfers, s.requests) && Backed(s)
  {
    hide Step;
    EveryRunKeeps(cfg, events);
  }

  /** Every balance is the sum of its account's entries, and only issuance is ever negative. */
  lemma BalancesAreEntries(cfg: Config, events: seq<Event>, a: AccountId)
    requires Wired(cfg) && a < |Run(cfg, events).accounts|
    ensures var s := Run(cfg, events);
      && s.accounts[a].balance == Sum(s.postings, EntryFor(a))
      && (s.accounts[a].balance < 0 ==> s.accounts[a].kind == SystemIssuance)
  {
    hide Step, Sum, TransfersOk, LoansOk, LegsOk, DailyOk, PoolsWhole, EscrowsOk, TasksOk, PoolsOk, PendingGap,
         EscrowGap, Run;
    Reached(cfg, events);
    assert AccountOk(a, Run(cfg, events).accounts[a]);
  }

  /** Every entry stores its account's running balance in posting order, nested lien legs included. */
  lemma EntriesRun(cfg: Config, events: seq<Event>, i: nat, k: nat)
    requires Wired(cfg)
    requires var s := Run(cfg, events); i < |s.postings| && k < |s.postings[i].lines|
    ensures var s := Run(cfg, events);
      var line := s.postings[i].lines[k];
      line.balanceAfter == Sum(s.postings[..i + 1], EntryFor(line.account))
  {
    hide Step, Sum, TransfersOk, LoansOk, LegsOk, DailyOk, PoolsWhole, EscrowsOk, TasksOk, PoolsOk, PendingGap,
         EscrowGap, Run;
    Reached(cfg, events);
    assert RunningBalances(Run(cfg, events).postings, i);
  }

  /** What the two holding accounts contain is exactly what the open holds say. */
  lemma HoldingEqualsOpenHolds(cfg: Config, events: seq<Event>)
    requires Wired(cfg)
    ensures var s := Run(cfg, events);
      && |s.accounts| >= 3
      && s.accounts[PENDING_SETTLEMENT].balance == Sum(s.transfers, UndoOpen)
      && s.accounts[ESCROW].balance == Sum(s.transfers, EscrowOpen)
  {
    hide Step, Sum, BooksOk, TransfersOk, LoansOk, LegsOk, DailyOk, PoolsWhole, EscrowsOk, TasksOk, PoolsOk, Run;
    Reached(cfg, events);
  }

  /**
   * A hold has one settlement leg once closed and none before; the leg pays exactly the hold, to the party its
   * outcome names.
   */
  lemma OneLegPerHold(cfg: Config, events: seq<Event>, h: TransferId, t: TransferId)
    requires Wired(cfg)
    requires var s := Run(cfg, events); h < |s.transfers| && IsHold(s.transfers[h].kind)
    ensures var s := Run(cfg, events);
      && Sum(s.transfers, LegOf(h)) == (if IsOpen(s.transfers[h].status) then 0 else 1)
      && (t < |s.transfers| && s.transfers[t].parent == Some(h) ==>
            && s.transfers[t].amount == s.transfers[h].amount
            && s.transfers[t].sender == s.transfers[h].receiver
            && s.transfers[t].status == Succeeded
            && (s.transfers[h].status == Succeeded ==> Some(s.transfers[t].receiver) == s.transfers[h].intended)
            && (s.transfers[h].status == Refunded ==> s.transfers[t].receiver == s.transfers[h].sender))
  {
    hide Step, Sum, BooksOk, LoansOk, DailyOk, PoolsWhole, EscrowsOk, TasksOk, PoolsOk, PendingGap, EscrowGap, Run;
    Reached(cfg, events);
    var s := Run(cfg, events);
    assert Sum(s.transfers, LegOf(h)) == LegsDue(s.transfers, h);
    assert TransferOk(s.accounts, s.transfers, h);
    assert t < |s.transfers| ==> TransferOk(s.accounts, s.transfers, t);
  }

  /** Pool balance plus what its borrowers owe is everything ever paid in. */
  lemma PoolsStayWhole(cfg: Config, events: seq<Event>, p: nat)
    requires Wired(cfg) && p < |Run(cfg, events).pools|
    ensures var s := Run(cfg, events);
      var account := s.pools[p].account;
      && account < |s.accounts|
      && s.accounts[account].balance + Sum(s.loans, PoolOwed(p)) == Sum(s.transfers, FundedInto(account))
  {
    hide Step, Sum, BooksOk, TransfersOk, LegsOk, DailyOk, EscrowsOk, TasksOk, PendingGap, EscrowGap, Run;
    Reached(cfg, events);
    var s := Run(cfg, events);
    assert PoolGap(s.accounts, s.transfers, s.pools, s.loans, p) == 0;
  }

  /** Each loan's books close. */
  lemma LoansAddUp(cfg: Config, events: seq<Event>, l: nat)
    requires Wired(cfg) && l < |Run(cfg, events).loans|
    ensures var s := Run(cfg, events);
      && s.loans[l].principal == s.loans[l].outstanding + Sum(s.repayments, RepaidOn(l))
      && s.loans[l].outstanding >= 0 && (s.loans[l].status == Repaid <==> s.loans[l].outstanding == 0)
  {
    hide Step, Sum, BooksOk, TransfersOk, LegsOk, DailyOk, EscrowsOk, TasksOk, PendingGap, EscrowGap, Run;
    Reached(cfg, events);
    var s := Run(cfg, events);
    assert LoanOk(s.pools, s.loans, s.repayments, l);
  }

  /** Escrow and hold agree, in both directions. */
  lemma EscrowAgreesWithHold(cfg: Config, events: seq<Event>, e: nat)
    requires Wired(cfg) && e < |Run(cfg, events).escrows|
    ensures var s := Run(cfg, events);
      var escrow := s.escrows[e];
      && escrow.hold < |s.transfers|
      && var hold := s.transfers[escrow.hold];
         && (hold.status == Held <==> escrow.status in {AwaitingShipment, Shipped, Delivered, Disputed})
         && (hold.status == Succeeded <==> escrow.status == Released)
         && (hold.status == Refunded <==> escrow.status == EscrowRefunded)
         && (escrow.status == Released ==>
               hold.intended.Some? && SettledBy(s.transfers, escrow, EscrowRelease, hold.intended.value)
               && hold.intended.value < |s.accounts| && s.accounts[hold.intended.value].owner == Some(escrow.seller))
         && (escrow.status == EscrowRefunded ==>
               SettledBy(s.transfers, escrow, EscrowRefund, hold.sender) && hold.initiatedBy == escrow.buyer)
  {
    hide Step, Sum, BooksOk, LoansOk, LegsOk, DailyOk, PoolsWhole, TasksOk, PoolsOk, PendingGap, EscrowGap,
         TransfersOk, Run;
    Reached(cfg, events);
    var s := Run(cfg, events);
    assert EscrowOk(s.accounts, s.transfers, s.escrows[e]);
  }

  /** Whatever only the scheduler will move has a task that is pending or parked, never done or cancelled. */
  lemma NoStrandedMoney(cfg: Config, events: seq<Event>, t: TransferId, e: nat, key: TaskKey)
    requires Wired(cfg)
    ensures var s := Run(cfg, events);
      && (t < |s.transfers| && s.transfers[t].status == PendingUndo ==> Live(s.tasks, TaskKey(UndoSettleTask, t)))
      && (e < |s.escrows| && s.escrows[e].status == Delivered ==> Live(s.tasks, TaskKey(AutoReleaseTask, e)))
      && (key in s.tasks ==> s.tasks[key].attempts <= 8 && (s.tasks[key].status == TaskFailed ==>
                                                            s.tasks[key].attempts == 8))
  {
    hide Step, Sum, BooksOk, LoansOk, LegsOk, DailyOk, PoolsWhole, EscrowsOk, PoolsOk, PendingGap, EscrowGap,
         TransfersOk, Run;
    Reached(cfg, events);
    var s := Run(cfg, events);
    assert key in s.tasks ==> TaskOk(s.transfers, s.escrows, key, s.tasks[key]);
  }

  /**
   * On no UTC day does an account's capped, unrefunded outflow exceed the daily total, whatever the clock did in
   * between.
   */
  lemma DailyCapHolds(cfg: Config, events: seq<Event>, a: AccountId, day: int)
    requires Wired(cfg)
    ensures Sum(Run(cfg, events).transfers, CappedOn(a, day)) <= cfg.dailyTotal
  {
    hide Step, Sum, BooksOk, LoansOk, LegsOk, PoolsWhole, TasksOk, EscrowsOk, PoolsOk, PendingGap, EscrowGap,
         TransfersOk, Run;
    Reached(cfg, events);
  }

  /** No limit-enforced transfer ever exceeds the single limit. */
  lemma SingleLimitHolds(cfg: Config, events: seq<Event>, t: TransferId)
    requires Wired(cfg) && t < |Run(cfg, events).transfers|
    ensures var row := Run(cfg, events).transfers[t];
      row.kind in {UndoHold, EscrowHold, RequestSettlement, OverdraftFund} ==> row.amount <= cfg.maxSingle
  {
    hide Step, Sum, BooksOk, LoansOk, LegsOk, PoolsWhole, TasksOk, EscrowsOk, PoolsOk, PendingGap, EscrowGap,
         TransfersOk, RequestsOk, Backed, Run;
    Reached(cfg, events);
    assert LimitedKind(Run(cfg, events).transfers[t].kind) ==> Run(cfg, events).transfers[t].amount <= cfg.maxSingle;
  }

  /**
   * Every loan is one draw of its principal from its pool to its borrower, within a grant of that pool to that
   * borrower.
   */
  lemma LoansAreBacked(cfg: Config, events: seq<Event>, l: nat)
    requires Wired(cfg) && l < |Run(cfg, events).loans|
    ensures var s := Run(cfg, events);
      var loan := s.loans[l];
      && loan.pool < |s.pools| && loan.draw < |s.transfers|
      && (exists g :: 0 <= g < |s.grants|
            && s.grants[g].pool == loan.pool && s.grants[g].beneficiary == loan.borrower
            && loan.principal <= s.grants[g].maxDraw)
      && (forall m :: 0 <= m < |s.loans| && m != l ==> s.loans[m].draw != loan.draw)
      && var draw := s.transfers[loan.draw];
         && draw.kind == OverdraftDraw && draw.amount == loan.principal && draw.sender == s.pools[loan.pool].account
         && draw.receiver < |s.accounts| && s.accounts[draw.receiver].owner == Some(loan.borrower)
  {
    hide Step, Sum, BooksOk, LoansOk, LegsOk, PoolsWhole, TasksOk, EscrowsOk, PoolsOk, PendingGap, EscrowGap,
         TransfersOk, RequestsOk, DailyOk, RepaymentBacked, Run;
    Reached(cfg, events);
    var s := Run(cfg, events);
    assert LoanBacked(s, s.loans[l]) && Granted(s.grants, s.loans[l]);
    forall m | 0 <= m < |s.loans| && m != l
      ensures s.loans[m].draw != s.loans[l].draw
    {
      assert m < l || l < m;
    }
  }

  /**
   * Every repayment is one transfer from the borrower to the loan's pool, out of an earlier credit to the same
   * account.
   */
  lemma RepaymentsAreBacked(cfg: Config, events: seq<Event>, r: nat)
    requires Wired(cfg) && r < |Run(cfg, events).repayments|
    ensures var s := Run(cfg, events);
      var rep := s.repayments[r];
      && rep.loan < |s.loans| && s.loans[rep.loan].pool < |s.pools| && rep.trigger < rep.transfer < |s.transfers|
      && var paid := s.transfers[rep.transfer];
         && paid.kind == OverdraftRepay && paid.amount == rep.amount
         && paid.receiver == s.pools[s.loans[rep.loan].pool].account
         && paid.sender < |s.accounts| && s.accounts[paid.sender].owner == Some(s.loans[rep.loan].borrower)
         && s.transfers[rep.trigger].receiver == paid.sender
  {
    hide Step, Sum, BooksOk, LoansOk, LegsOk, PoolsWhole, TasksOk, EscrowsOk, PoolsOk, PendingGap, EscrowGap,
         TransfersOk, RequestsOk, DailyOk, LoanBacked, Run;
    Reached(cfg, events);
    var s := Run(cfg, events);
    assert RepaymentBacked(s, s.repayments[r]);
  }

  /**
   * A request is accepted exactly when a transfer of its amount from payer to requester settled it, and no other
   * request.
   */
  lemma RequestsAreSettledOnce(cfg: Config, events: seq<Event>, r: nat, q: nat)
    requires Wired(cfg) && r < |Run(cfg, events).requests|
    ensures var s := Run(cfg, events);
      var row := s.requests[r];
      && (row.status == Accepted <==> row.transfer.Some?)
      && (row.transfer.Some? ==>
            && row.transfer.value < |s.transfers|
            && var t := s.transfers[row.transfer.value];
               && t.kind == RequestSettlement && t.sender == row.payer && t.receiver == row.requester
               && t.amount == row.amount)
      && (q < |s.requests| && q != r && row.transfer.Some? ==> s.requests[q].transfer != row.transfer)
  {
    hide Step, Sum, BooksOk, LoansOk, LegsOk, PoolsWhole, TasksOk, EscrowsOk, PoolsOk, PendingGap, EscrowGap,
         TransfersOk, DailyOk, Backed, Run;
    Reached(cfg, events);
    var s := Run(cfg, events);
    assert RequestOk(s.accounts, s.transfers, s.requests[r]);
  }
}
