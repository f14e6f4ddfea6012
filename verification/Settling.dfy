/** Hold, latch and settle: two-stage movements keep the books and cannot run out of money. */
module Settling {
  import opened Kernel
  import opened Sums
  import opened Accounts
  import opened Policies
  import opened Tables
  import opened Transfers
  import opened Invariants
  import opened Legs
  import opened Backing
  import opened Sweeps
  import opened Executions
  import opened Effects
  import opened Holds

  /** The conservation laws, apart from what ties holds to escrows, tasks and keys. */
  ghost predicate Conserved(cfg: Config, s: State) {
    && Core(s)
    && LegsOk(s.transfers)
    && PendingGap(s.accounts, s.transfers) == 0
    && EscrowGap(s.accounts, s.transfers) == 0
    && PoolsWhole(s.accounts, s.transfers, s.pools, s.loans)
    && DailyOk(cfg, s.transfers)
  }

  /** Wired configuration: no fee, and Spot-Me parameters inside their validated ranges. */
  predicate Wired(cfg: Config) { cfg.fees == NoFee && cfg.Valid() }

  predicate OpenHold(transfers: seq<Transfer>, h: TransferId, kind: Kind, status: TransferStatus) {
    h < |transfers| && transfers[h].kind == kind && transfers[h].status == status
  }

  /** The four ways a hold can close. */
  datatype Closing = Closing(hold: Kind, open: TransferStatus, outcome: TransferStatus, holding: AccountId, leg: Kind)

  predicate IsClosing(z: Closing) {
    || z == Closing(UndoHold, PendingUndo, Succeeded, PENDING_SETTLEMENT, UndoSettle)
    || z == Closing(UndoHold, PendingUndo, Refunded, PENDING_SETTLEMENT, UndoRefund)
    || z == Closing(EscrowHold, Held, Succeeded, ESCROW, EscrowRelease)
    || z == Closing(EscrowHold, Held, Refunded, ESCROW, EscrowRefund)
  }

  function Beneficiary(hold: Transfer, outcome: TransferStatus): AccountId {
    if outcome == Succeeded && hold.intended.Some? then hold.intended.value else hold.sender
  }

  function ClosingCommand(s: State, h: TransferId, z: Closing, actor: UserId): TransferCommand
    requires h < |s.transfers|
  {
    SettleCommand(h, z.outcome, Beneficiary(s.transfers[h], z.outcome), z.holding, s.transfers[h].amount, z.leg, actor)
  }

  // -- the latch ------------------------------------------------------------

  /** No leg can point at an open hold, so closing it leaves every row well-formed. */
  lemma LatchKeepsTransfers(accounts: seq<Account>, transfers: seq<Transfer>, h: TransferId, z: Closing)
    requires TransfersOk(accounts, transfers) && IsClosing(z) && OpenHold(transfers, h, z.hold, z.open)
    ensures TransfersOk(accounts, transfers[h := transfers[h].(status := z.outcome)])
  {
    var after := transfers[h := transfers[h].(status := z.outcome)];
    forall i | 0 <= i < |after|
      ensures TransferOk(accounts, after, i)
    {
      assert TransferOk(accounts, transfers, i);
    }
  }

  lemma LatchKeepsCore(s: State, h: TransferId, z: Closing)
    requires Core(s) && IsClosing(z) && OpenHold(s.transfers, h, z.hold, z.open)
    ensures Core(Latch(s, h, z.outcome))
  {
    hide TransferOk, RunningBalances, AccountOk, LoanOk, Sum, Backed;
    LatchKeepsTransfers(s.accounts, s.transfers, h, z);
    var s' := Latch(s, h, z.outcome);
    BackedStands(s, s');
    forall i | 0 <= i < |s'.postings|
      ensures PostingMatches(i, s'.postings[i], s'.transfers[i])
    {
      assert PostingMatches(i, s.postings[i], s.transfers[i]);
    }
  }

  /** The latch alone frees the hold's amount; the settlement leg then has to pay it out. */
  lemma LatchFreesHold(s: State, h: TransferId, z: Closing)
    requires IsClosing(z) && OpenHold(s.transfers, h, z.hold, z.open)
    ensures var s' := Latch(s, h, z.outcome);
      && PendingGap(s'.accounts, s'.transfers) == PendingGap(s.accounts, s.transfers)
           + (if z.hold == UndoHold then s.transfers[h].amount else 0)
      && EscrowGap(s'.accounts, s'.transfers) == EscrowGap(s.accounts, s.transfers)
           + (if z.hold == EscrowHold then s.transfers[h].amount else 0)
      && (forall g: TransferId :: Sum(s'.transfers, LegOf(g)) == Sum(s.transfers, LegOf(g)))
      && (forall p :: 0 <= p < |s.pools| ==>
            PoolGap(s'.accounts, s'.transfers, s'.pools, s'.loans, p)
                == PoolGap(s.accounts, s.transfers, s.pools, s.loans, p))
  {
    hide Sum;
    var s' := Latch(s, h, z.outcome);
    var row := s'.transfers[h];
    SumUpdate(s.transfers, h, row, UndoOpen);
    SumUpdate(s.transfers, h, row, EscrowOpen);
    forall g: TransferId
      ensures Sum(s'.transfers, LegOf(g)) == Sum(s.transfers, LegOf(g))
    {
      SumUpdate(s.transfers, h, row, LegOf(g));
    }
    forall p | 0 <= p < |s.pools|
      ensures PoolGap(s'.accounts, s'.transfers, s'.pools, s'.loans, p)
        == PoolGap(s.accounts, s.transfers, s.pools, s.loans, p)
    {
      SumUpdate(s.transfers, h, row, FundedInto(s.pools[p].account));
    }
  }

  lemma LatchKeepsDaily(cfg: Config, accounts: seq<Account>, transfers: seq<Transfer>, h: TransferId, z: Closing)
    requires TransfersOk(accounts, transfers) && DailyOk(cfg, transfers)
    requires IsClosing(z) && OpenHold(transfers, h, z.hold, z.open)
    ensures DailyOk(cfg, transfers[h := transfers[h].(status := z.outcome)])
  {
    hide Sum;
    var row := transfers[h].(status := z.outcome);
    assert TransferOk(accounts, transfers, h);
    forall a: AccountId, day: int
      ensures Sum(transfers[h := row], CappedOn(a, day)) <= cfg.dailyTotal
    {
      SumUpdate(transfers, h, row, CappedOn(a, day));
    }
  }

  // -- the settlement leg ---------------------------------------------------

  /** The holding account always covers an open hold. */
  lemma HoldingCoversHold(accounts: seq<Account>, transfers: seq<Transfer>, h: TransferId, z: Closing)
    requires TransfersOk(accounts, transfers) && IsClosing(z) && OpenHold(transfers, h, z.hold, z.open)
    requires PendingGap(accounts, transfers) == 0 && EscrowGap(accounts, transfers) == 0
    ensures BalanceOf(accounts, z.holding) >= transfers[h].amount
  {
    hide Sum;
    forall t | t in transfers
      ensures t.amount >= 0
    {
      var i :| 0 <= i < |transfers| && transfers[i] == t;
      assert TransferOk(accounts, transfers, i);
    }
    SumAtLeast(transfers, h, UndoOpen);
    SumAtLeast(transfers, h, EscrowOpen);
  }

  lemma ClosingIsLegal(s: State, now: Time, h: TransferId, z: Closing, actor: UserId)
    requires AccountsOk(s.accounts) && TransfersOk(s.accounts, s.transfers)
    requires IsClosing(z) && OpenHold(s.transfers, h, z.hold, z.open)
    ensures var c := ClosingCommand(s, h, z, actor);
      && InRange(s, c) && c.amount > 0
      && LegalRow(Latch(s, h, z.outcome), now, c)
      && s.accounts[c.sender].owner == None && s.accounts[c.sender].status == Active
      && s.accounts[c.receiver].kind == UserAccount
  {
    assert TransferOk(s.accounts, s.transfers, h);
    assert AccountOk(PENDING_SETTLEMENT, s.accounts[PENDING_SETTLEMENT]) && AccountOk(ESCROW, s.accounts[ESCROW]);
  }

  /** Closing a hold succeeds exactly when its beneficiary can receive: never for lack of funds. */
  lemma SettleEffect(cfg: Config, s: State, now: Time, h: TransferId, z: Closing, actor: UserId)
    requires Wired(cfg) && Conserved(cfg, s) && LienKeysOld(s.idem, |s.transfers|)
    requires IsClosing(z) && OpenHold(s.transfers, h, z.hold, z.open)
    requires ClosingCommand(s, h, z, actor).key !in s.idem
    ensures var c := ClosingCommand(s, h, z, actor);
      var latched := Latch(s, h, z.outcome);
      var r := Execute(cfg, latched, now, c);
      && InRange(latched, c)
      && (r.Ok? <==> s.accounts[c.receiver].status == Active)
      && (r.Ok? ==>
            && Conserved(cfg, r.value.state)
            && r.value.result == ResultOf(latched, now, c)
            && Posted(latched, r.value.state, now, c, LienOn(cfg, latched, c)))
  {
    var c := ClosingCommand(s, h, z, actor);
    var latched := Latch(s, h, z.outcome);
    ClosingIsLegal(s, now, h, z, actor);
    LatchKeepsCore(s, h, z);
    HoldingCoversHold(s.accounts, s.transfers, h, z);
    ExecuteEffect(cfg, latched, now, c);
    hide Sum, TransferOk, RunningBalances, AccountOk, LoanOk, Execute, Posted, BooksOk, LegalRow, PoolsOk;
    assert MayMove(s.accounts[c.sender], c.actor, c.kind);
    assert Allowed(cfg, latched, now, c) <==> s.accounts[c.receiver].status == Active;
    if Allowed(cfg, latched, now, c) {
      ClosingConserves(cfg, s, Execute(cfg, latched, now, c).value.state, now, h, z, actor);
    }
  }

  lemma ClosingConserves(cfg: Config, s: State, s': State, now: Time, h: TransferId, z: Closing, actor: UserId)
    requires Conserved(cfg, s) && Core(s') && IsClosing(z) && OpenHold(s.transfers, h, z.hold, z.open)
    requires var c := ClosingCommand(s, h, z, actor);
      var latched := Latch(s, h, z.outcome);
      && InRange(latched, c) && Allowed(cfg, latched, now, c) && s.accounts[c.receiver].kind == UserAccount
      && Posted(latched, s', now, c, LienOn(cfg, latched, c))
    ensures Conserved(cfg, s')
  {
    hide Sum, TransferOk, RunningBalances, LoanOk, Execute, Posted, BooksOk, LegalRow, MayMove, Authorize, SentToday,
         SumSentSince;
    var c := ClosingCommand(s, h, z, actor);
    var latched := Latch(s, h, z.outcome);
    LatchFreesHold(s, h, z);
    LatchKeepsTransfers(s.accounts, s.transfers, h, z);
    LatchKeepsDaily(cfg, s.accounts, s.transfers, h, z);
    PostedGaps(cfg, latched, s', now, c);
    PostedDaily(cfg, latched, s', now, c, LienOn(cfg, latched, c));
    assert AccountOk(c.receiver, s.accounts[c.receiver]);
    ClosingWhole(cfg, s, s', now, h, z, actor);
    ClosingLegs(cfg, s, s', now, h, z, actor);
  }

  lemma ClosingWhole(cfg: Config, s: State, s': State, now: Time, h: TransferId, z: Closing, actor: UserId)
    requires PoolsWhole(s.accounts, s.transfers, s.pools, s.loans) && PoolsOk(s.accounts, s.pools)
      && AccountsOk(s.accounts)
    requires IsClosing(z) && OpenHold(s.transfers, h, z.hold, z.open)
    requires var c := ClosingCommand(s, h, z, actor);
      var latched := Latch(s, h, z.outcome);
      && InRange(latched, c) && s.accounts[c.receiver].kind == UserAccount
      && Posted(latched, s', now, c, LienOn(cfg, latched, c))
    ensures PoolsWhole(s'.accounts, s'.transfers, s'.pools, s'.loans)
  {
    hide Sum, Execute, Posted, BooksOk, LienOn;
    var c := ClosingCommand(s, h, z, actor);
    var latched := Latch(s, h, z.outcome);
    LatchFreesHold(s, h, z);
    assert AccountOk(c.sender, s.accounts[c.sender]);
    PostedTables(latched, s', now, c, LienOn(cfg, latched, c));
    forall p | 0 <= p < |s.pools|
      ensures PoolGap(s'.accounts, s'.transfers, s'.pools, s'.loans, p) == 0
    {
      PostedPoolGap(cfg, latched, s', now, c, p);
      assert PoolGap(latched.accounts, latched.transfers, latched.pools, latched.loans, p) == 0;
    }
  }

  lemma PostedTables(s: State, s': State, now: Time, c: TransferCommand, repaid: int)
    requires InRange(s, c) && Posted(s, s', now, c, repaid)
    ensures SameTables(s, s') && RowsAppended(s.transfers, s'.transfers, RowOf(now, c), now)
    ensures KeysAdded(s.idem, s'.idem, c.key, Completed(c.fingerprint, ResultOf(s, now, c).ToResponse()), |s.transfers|)
  {
  }

  lemma ClosingLegs(cfg: Config, s: State, s': State, now: Time, h: TransferId, z: Closing, actor: UserId)
    requires LegsOk(s.transfers) && IsClosing(z) && OpenHold(s.transfers, h, z.hold, z.open)
    requires var c := ClosingCommand(s, h, z, actor);
      var latched := Latch(s, h, z.outcome);
      InRange(latched, c) && Posted(latched, s', now, c, LienOn(cfg, latched, c))
    ensures LegsOk(s'.transfers)
  {
    hide Sum, Execute, Posted, LienOn;
    var c := ClosingCommand(s, h, z, actor);
    var latched := Latch(s, h, z.outcome);
    LatchFreesHold(s, h, z);
    PostedTables(latched, s', now, c, LienOn(cfg, latched, c));
    forall g: TransferId
      ensures Sum(s'.transfers, LegOf(g)) == LegsDue(s'.transfers, g)
    {
      PostedLegs(latched, s', now, c, LienOn(cfg, latched, c), g);
      assert Sum(s.transfers, LegOf(g)) == LegsDue(s.transfers, g);
      DuesAppended(latched.transfers, s'.transfers, RowOf(now, c), now, g);
    }
  }

  /** Appending rows of non-hold kinds, or an open hold, makes no leg due. */
  lemma DuesAppended(before: seq<Transfer>, after: seq<Transfer>, row: Transfer, now: Time, g: TransferId)
    requires RowsAppended(before, after, row, now)
    requires !IsHold(row.kind) || IsOpen(row.status)
    ensures LegsDue(after, g) == LegsDue(before, g)
  {
    if g < |before| {
      assert after[g] == after[..|before|][g];
    }
  }
}
