/** What one execution does to the quantities the invariants are about. */
module Effects {
  import opened Kernel
  import opened Sums
  import opened Accounts
  import opened Policies
  import opened Tables
  import Idempotency
  import opened Transfers
  import opened Invariants
  import opened Legs
  import opened Sweeps
  import opened Executions

  /** A weight that lien rows do not carry grows by the new row alone. */
  lemma PostedSum(before: seq<Transfer>, after: seq<Transfer>, row: Transfer, now: Time, f: Transfer -> int)
    requires RowsAppended(before, after, row, now)
    requires forall t :: IsLienRow(t, row.receiver, now) ==> f(t) == 0
    ensures Sum(after, f) == Sum(before, f) + f(row)
  {
    var n := |before|;
    var liens := after[n + 1..];
    assert after == before + [row] + liens;
    SumConcat(before + [row], liens, f);
    SumAppend(before, row, f);
    SumZero(liens, f);
  }

  function Signed(c: TransferCommand, a: AccountId): int {
    (if a == c.receiver then c.amount else 0) - (if a == c.sender then c.amount else 0)
  }

  /** Accounts that are neither pools nor swept change by the leg alone. */
  lemma PostedBalance(s: State, s': State, now: Time, c: TransferCommand, repaid: int, a: AccountId)
    requires InRange(s, c) && Posted(s, s', now, c, repaid)
    requires !IsKind(s.accounts, a, OverdraftPool)
    ensures BalanceOf(s'.accounts, a) == BalanceOf(s.accounts, a) + Signed(c, a)
      - (if a == c.receiver then repaid else 0)
  {
    hide Sum, KeysAdded, RowsAppended;
    var s0 := Idempotency.Begin(s, c.key, c.fingerprint);
    LegBalances(s0, now, c, a);
    assert !IsKind(Charged(s, now, c).accounts, a, OverdraftPool);
  }

  lemma PostedGaps(cfg: Config, s: State, s': State, now: Time, c: TransferCommand)
    requires InRange(s, c) && AccountsOk(s.accounts)
    requires Posted(s, s', now, c, LienOn(cfg, s, c))
    ensures PendingGap(s'.accounts, s'.transfers) == PendingGap(s.accounts, s.transfers)
              + Signed(c, PENDING_SETTLEMENT) - (if c.status == PendingUndo then c.amount else 0)
    ensures EscrowGap(s'.accounts, s'.transfers) == EscrowGap(s.accounts, s.transfers)
              + Signed(c, ESCROW) - (if c.status == Held then c.amount else 0)
  {
    hide Sum, KeysAdded, RepaidExactly;
    assert AccountOk(PENDING_SETTLEMENT, s.accounts[PENDING_SETTLEMENT]) && AccountOk(ESCROW, s.accounts[ESCROW]);
    PostedBalance(s, s', now, c, LienOn(cfg, s, c), PENDING_SETTLEMENT);
    PostedBalance(s, s', now, c, LienOn(cfg, s, c), ESCROW);
    PostedSum(s.transfers, s'.transfers, RowOf(now, c), now, UndoOpen);
    PostedSum(s.transfers, s'.transfers, RowOf(now, c), now, EscrowOpen);
  }

  lemma PostedPoolGap(cfg: Config, s: State, s': State, now: Time, c: TransferCommand, p: nat)
    requires InRange(s, c) && p < |s.pools|
    requires Posted(s, s', now, c, LienOn(cfg, s, c))
    ensures s'.pools == s.pools
    ensures var account := s.pools[p].account;
      PoolGap(s'.accounts, s'.transfers, s'.pools, s'.loans, p)
        == PoolGap(s.accounts, s.transfers, s.pools, s.loans, p)
           + Signed(c, account) - (if c.kind == OverdraftFund && c.receiver == account then c.amount else 0)
  {
    hide Sum, KeysAdded;
    var s0 := Idempotency.Begin(s, c.key, c.fingerprint);
    LegPoolGap(s0, now, c, p);
    assert PoolWorth(Charged(s, now, c), p) == PoolWorth(s', p);
    PostedSum(s.transfers, s'.transfers, RowOf(now, c), now, FundedInto(s.pools[p].account));
  }

  /** Net position: the lien takes from the balance exactly what it takes off the debt. */
  lemma PostedNet(cfg: Config, s: State, s': State, now: Time, c: TransferCommand, a: AccountId, user: UserId)
    requires InRange(s, c) && AccountsOk(s.accounts)
    requires IsKind(s.accounts, a, UserAccount) && s.accounts[a].owner == Some(user)
    requires Posted(s, s', now, c, LienOn(cfg, s, c))
    ensures NetPosition(s'.accounts, s'.loans, a, user) == NetPosition(s.accounts, s.loans, a, user) + Signed(c, a)
  {
    hide Sum, KeysAdded;
    PostedBalance(s, s', now, c, LienOn(cfg, s, c), a);
    if LienUser(s, c) == user && Liened(s, c) {
      assert s.accounts[c.receiver].owner == s.accounts[a].owner;
      assert a == c.receiver;
    }
  }

  lemma PostedLegs(s: State, s': State, now: Time, c: TransferCommand, repaid: int, h: TransferId)
    requires InRange(s, c) && Posted(s, s', now, c, repaid)
    ensures Sum(s'.transfers, LegOf(h)) == Sum(s.transfers, LegOf(h)) + (if c.parent == Some(h) then 1 else 0)
  {
    hide Sum, KeysAdded, RepaidExactly;
    PostedSum(s.transfers, s'.transfers, RowOf(now, c), now, LegOf(h));
  }

  /** The daily cap survives any command that either enforces limits or is of an uncapped kind. */
  lemma PostedDaily(cfg: Config, s: State, s': State, now: Time, c: TransferCommand, repaid: int)
    requires InRange(s, c) && Posted(s, s', now, c, repaid) && Allowed(cfg, s, now, c)
    requires TransfersOk(s.accounts, s.transfers)
    requires c.enforceLimits || !LimitedKind(c.kind)
    requires DailyOk(cfg, s.transfers)
    ensures DailyOk(cfg, s'.transfers)
  {
    hide Sum, KeysAdded, RepaidExactly, TransferOk;
    forall a: AccountId, day: int
      ensures Sum(s'.transfers, CappedOn(a, day)) <= cfg.dailyTotal
    {
      PostedSum(s.transfers, s'.transfers, RowOf(now, c), now, CappedOn(a, day));
      if CappedOn(a, day)(RowOf(now, c)) != 0 {
        CappedIsSent(s.accounts, s.transfers, a, day);
        SentTodayIsSummed(s.transfers, a, now);
        assert DayOf(now) == day;
      }
    }
  }

  /** Whatever counts against a day's cap was counted by the limit check of that day. */
  lemma CappedIsSent(accounts: seq<Account>, transfers: seq<Transfer>, a: AccountId, day: int)
    requires TransfersOk(accounts, transfers)
    ensures Sum(transfers, CappedOn(a, day)) <= SumSentSince(transfers, a, DAY * day)
  {
    forall t | t in transfers
      ensures CappedOn(a, day)(t) <= SentWeight(a, DAY * day)(t)
    {
      var i :| 0 <= i < |transfers| && transfers[i] == t;
      assert TransferOk(accounts, transfers, i);
      assert DAY * DayOf(t.createdAt) <= t.createdAt;
    }
    SumMonotone(transfers, CappedOn(a, day), SentWeight(a, DAY * day));
  }
}
