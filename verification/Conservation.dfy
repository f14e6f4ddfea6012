/** Ordinary payments, holds and draws keep the conservation laws; unrelated rows keep their links. */
module Conservation {
  import opened Kernel
  import opened Sums
  import opened Accounts
  import opened Policies
  import opened Tables
  import opened Transfers
  import opened Invariants
  import opened Legs
  import opened Backing
  import opened Executions
  import opened Effects
  import opened Settling
  import SpotMe

  /** Kinds whose single leg conserves everything by itself. */
  predicate SelfContained(kind: Kind) {
    kind in {SignupGrant, RequestSettlement, OverdraftFund, UndoHold, EscrowHold}
  }

  lemma PlainGaps(cfg: Config, s: State, s': State, now: Time, c: TransferCommand)
    requires AccountsOk(s.accounts) && Allowed(cfg, s, now, c) && LegalRow(s, now, c)
    requires Posted(s, s', now, c, LienOn(cfg, s, c))
    requires SelfContained(c.kind) || c.kind == OverdraftDraw
    requires c.kind == UndoHold ==> c.status == PendingUndo
    requires c.kind == EscrowHold ==> c.status == Held
    ensures PendingGap(s'.accounts, s'.transfers) == PendingGap(s.accounts, s.transfers)
    ensures EscrowGap(s'.accounts, s'.transfers) == EscrowGap(s.accounts, s.transfers)
  {
    hide Sum, Posted, LienOn, MayMove, Authorize, SentToday, SumSentSince;
    PostedGaps(cfg, s, s', now, c);
    assert TransferOk(s.accounts, s.transfers + [RowOf(now, c)], |s.transfers|);
    assert AccountOk(c.sender, s.accounts[c.sender]) && AccountOk(c.receiver, s.accounts[c.receiver]);
    assert AccountOk(PENDING_SETTLEMENT, s.accounts[PENDING_SETTLEMENT]) && AccountOk(ESCROW, s.accounts[ESCROW]);
  }

  lemma PlainPools(cfg: Config, s: State, s': State, now: Time, c: TransferCommand, p: nat)
    requires PoolsOk(s.accounts, s.pools) && Allowed(cfg, s, now, c) && LegalRow(s, now, c)
    requires Posted(s, s', now, c, LienOn(cfg, s, c)) && p < |s.pools|
    requires AccountsOk(s.accounts)
    requires SelfContained(c.kind) || c.kind == OverdraftDraw
    ensures s'.pools == s.pools
    ensures PoolGap(s'.accounts, s'.transfers, s'.pools, s'.loans, p)
         == PoolGap(s.accounts, s.transfers, s.pools, s.loans, p)
            - (if c.kind == OverdraftDraw && c.sender == s.pools[p].account then c.amount else 0)
  {
    hide Sum, Posted, LienOn, MayMove, Authorize, SentToday, SumSentSince;
    PostedPoolGap(cfg, s, s', now, c, p);
    assert TransferOk(s.accounts, s.transfers + [RowOf(now, c)], |s.transfers|);
    assert AccountOk(c.receiver, s.accounts[c.receiver]);
  }

  lemma PlainLegs(s: State, s': State, now: Time, c: TransferCommand, repaid: int)
    requires InRange(s, c) && Posted(s, s', now, c, repaid) && LegsOk(s.transfers)
    requires c.parent == None && (!IsHold(c.kind) || IsOpen(c.status))
    ensures LegsOk(s'.transfers)
  {
    hide Sum, Posted;
    PostedTables(s, s', now, c, repaid);
    forall g: TransferId
      ensures Sum(s'.transfers, LegOf(g)) == LegsDue(s'.transfers, g)
    {
      PostedLegs(s, s', now, c, repaid, g);
      assert Sum(s.transfers, LegOf(g)) == LegsDue(s.transfers, g);
      DuesAppended(s.transfers, s'.transfers, RowOf(now, c), now, g);
    }
  }

  lemma PlainConserves(cfg: Config, s: State, s': State, now: Time, c: TransferCommand)
    requires Conserved(cfg, s) && Core(s') && Allowed(cfg, s, now, c) && LegalRow(s, now, c)
    requires Posted(s, s', now, c, LienOn(cfg, s, c))
    requires SelfContained(c.kind) && c.parent == None && (c.enforceLimits || !LimitedKind(c.kind))
    requires c.kind == UndoHold ==> c.status == PendingUndo
    requires c.kind == EscrowHold ==> c.status == Held
    ensures Conserved(cfg, s')
  {
    hide Sum, Posted, LienOn, MayMove, Authorize, SentToday, SumSentSince, LegalRow, TransferOk, RunningBalances,
         LoanOk, BooksOk, AccountOk;
    PlainGaps(cfg, s, s', now, c);
    PlainLegs(s, s', now, c, LienOn(cfg, s, c));
    PostedDaily(cfg, s, s', now, c, LienOn(cfg, s, c));
    PostedTables(s, s', now, c, LienOn(cfg, s, c));
    forall p | 0 <= p < |s'.pools|
      ensures PoolGap(s'.accounts, s'.transfers, s'.pools, s'.loans, p) == 0
    {
      PlainPools(cfg, s, s', now, c, p);
      assert PoolGap(s.accounts, s.transfers, s.pools, s.loans, p) == 0;
    }
  }

  /** A draw takes the pool's money and the loan puts the claim in its place. */
  lemma DrawConserves(cfg: Config, s: State, s': State, now: Time, c: TransferCommand, pool: nat, borrower: UserId)
    requires Conserved(cfg, s) && Core(s') && Allowed(cfg, s, now, c) && LegalRow(s, now, c)
    requires Posted(s, s', now, c, LienOn(cfg, s, c))
    requires c.kind == OverdraftDraw && c.parent == None
    requires pool < |s.pools| && c.sender == s.pools[pool].account
    requires IsKind(s.accounts, c.receiver, UserAccount) && s.accounts[c.receiver].owner == Some(borrower)
    requires Granted(s.grants, Loan(pool, borrower, |s.transfers|, c.amount, c.amount, Outstanding, now))
    requires TermsStand(s.loans, s'.loans)
    ensures Conserved(cfg, SpotMe.CreateLoan(s', pool, borrower, |s.transfers|, c.amount, now))
  {
    hide Sum, Posted, LienOn, MayMove, Authorize, SentToday, SumSentSince, LegalRow, TransferOk, RunningBalances,
         BooksOk, AccountOk, Backed;
    DrawIsBacked(s, s', now, c, LienOn(cfg, s, c), pool, borrower);
    PlainGaps(cfg, s, s', now, c);
    PlainLegs(s, s', now, c, LienOn(cfg, s, c));
    PostedDaily(cfg, s, s', now, c, LienOn(cfg, s, c));
    PostedTables(s, s', now, c, LienOn(cfg, s, c));
    var s2 := SpotMe.CreateLoan(s', pool, borrower, |s.transfers|, c.amount, now);
    var loan := s2.loans[|s'.loans|];
    NewLoanOk(s'.pools, s'.loans, s'.repayments, loan);
    forall p | 0 <= p < |s2.pools|
      ensures PoolGap(s2.accounts, s2.transfers, s2.pools, s2.loans, p) == 0
    {
      PlainPools(cfg, s, s', now, c, p);
      assert PoolGap(s.accounts, s.transfers, s.pools, s.loans, p) == 0;
      SumAppend(s'.loans, loan, PoolOwed(p));
      assert p != pool ==> s.pools[p].account != s.pools[pool].account;
    }
  }

  lemma DrawIsBacked(s: State, s': State, now: Time, c: TransferCommand, repaid: int, pool: nat, borrower: UserId)
    requires InRange(s, c) && Posted(s, s', now, c, repaid) && Backed(s) && Backed(s') && TermsStand(s.loans, s'.loans)
    requires c.kind == OverdraftDraw && pool < |s.pools| && c.sender == s.pools[pool].account
    requires IsKind(s.accounts, c.receiver, UserAccount) && s.accounts[c.receiver].owner == Some(borrower)
    requires Granted(s.grants, Loan(pool, borrower, |s.transfers|, c.amount, c.amount, Outstanding, now))
    ensures Backed(SpotMe.CreateLoan(s', pool, borrower, |s.transfers|, c.amount, now))
  {
    hide Sum, Posted, Granted, RepaymentBacked;
    PostedTables(s, s', now, c, repaid);
    forall l | 0 <= l < |s'.loans|
      ensures s'.loans[l].draw < |s.transfers|
    {
      assert LoanBacked(s, s.loans[l]);
    }
    LoanAdded(s', Loan(pool, borrower, |s.transfers|, c.amount, c.amount, Outstanding, now));
  }

  lemma NewLoanOk(pools: seq<Pool>, loans: seq<Loan>, repayments: seq<Repayment>, loan: Loan)
    requires LoansOk(pools, loans, repayments)
    requires loan.pool < |pools| && 0 < loan.principal == loan.outstanding && loan.status == Outstanding
    ensures LoansOk(pools, loans + [loan], repayments)
  {
    hide Sum;
    var n, loans' := |loans|, loans + [loan];
    forall r | r in repayments
      ensures RepaidOn(n)(r) == 0
    {
      var i :| 0 <= i < |repayments| && repayments[i] == r;
      assert repayments[i].loan < n;
    }
    SumZero(repayments, RepaidOn(n));
    forall l | 0 <= l < |loans'|
      ensures LoanOk(pools, loans', repayments, l)
    {
      if l < n { assert LoanOk(pools, loans, repayments, l); }
    }
  }

  // -- links from other tables into the transfer table ----------------------

  /** Rows that were there are there unchanged, except that an open hold `h` may have closed. */
  predicate RowsKept(before: seq<Transfer>, after: seq<Transfer>, h: TransferId) {
    && |before| <= |after|
    && (forall i :: 0 <= i < |before| && i != h ==> after[i] == before[i])
  }

  lemma AppendedKeepsRows(before: seq<Transfer>, mid: seq<Transfer>, after: seq<Transfer>, row: Transfer, now: Time,
                          h: TransferId)
    requires RowsKept(before, mid, h) && RowsAppended(mid, after, row, now)
    ensures RowsKept(before, after, h)
    ensures h < |before| ==> after[h] == mid[h]
  {
    forall i | 0 <= i < |mid|
      ensures after[i] == mid[i]
    {
      assert after[i] == after[..|mid|][i];
    }
  }

  /** Escrows whose hold was not touched keep their link. */
  lemma EscrowKept(accounts: seq<Account>, after: seq<Account>, transfers: seq<Transfer>, after': seq<Transfer>,
                   h: TransferId, e: Escrow)
    requires EscrowOk(accounts, transfers, e) && e.hold != h
    requires e.settlement != Some(h)
    requires RowsKept(transfers, after', h)
    requires |accounts| <= |after|
    requires forall i :: 0 <= i < |accounts| ==> after[i].owner == accounts[i].owner
    ensures EscrowOk(after, after', e)
  {
  }

  lemma RequestsKept(accounts: seq<Account>, after: seq<Account>, transfers: seq<Transfer>, after': seq<Transfer>,
                     h: TransferId,
                     requests: seq<MoneyRequest>)
    requires RequestsOk(accounts, transfers, requests)
    requires RowsKept(transfers, after', h)
    requires h < |transfers| ==> transfers[h].kind != RequestSettlement
    requires |accounts| <= |after|
    requires forall i :: 0 <= i < |accounts| ==> after[i].kind == accounts[i].kind
    ensures RequestsOk(after, after', requests)
  {
    forall r | 0 <= r < |requests|
      ensures RequestOk(after, after', requests[r])
    {
      assert RequestOk(accounts, transfers, requests[r]);
    }
  }

  // -- keys -----------------------------------------------------------------

  /** The store only ever extends what keys refer to. */
  predicate Extends(s: State, s': State) {
    && |s.transfers| <= |s'.transfers|
    && (forall i :: 0 <= i < |s.transfers| && !IsOpen(s.transfers[i].status) ==>
          s'.transfers[i].status == s.transfers[i].status)
    && |s.requests| <= |s'.requests|
    && (forall r :: 0 <= r < |s.requests| && s.requests[r].status == Accepted ==> s'.requests[r].status == Accepted)
    && |s.accounts| <= |s'.accounts|
    && (forall i :: 0 <= i < |s.accounts| ==>
          s'.accounts[i].kind == s.accounts[i].kind && s'.accounts[i].owner == s.accounts[i].owner)
    && |s.pools| <= |s'.pools| && |s.escrows| <= |s'.escrows|
    && (forall k :: k in s.idem ==> k in s'.idem)
  }

  lemma KeyStays(s: State, s': State, k: IdemKey, fingerprint: Payload)
    requires Extends(s, s') && KeyOk(s, k, fingerprint)
    ensures KeyOk(s', k, fingerprint)
  {
    if k.key.SignupKey? {
      var account := FindUser(s.accounts, k.key.user);
      assert IsPrimary(s'.accounts[account.value], k.key.user);
    }
  }

  /** Keys that survive a command: the old ones, and new ones each of which is justified. */
  lemma KeysStay(s: State, s': State)
    requires IdemOk(s) && Extends(s, s')
    requires forall k :: k in s.idem ==> s'.idem[k] == s.idem[k]
    requires forall k :: k in s'.idem && k !in s.idem ==> s'.idem[k].Completed? && KeyOk(s', k, s'.idem[k].fingerprint)
    ensures IdemOk(s')
  {
    hide KeyOk, Extends;
    forall k | k in s'.idem
      ensures s'.idem[k].Completed? && KeyOk(s', k, s'.idem[k].fingerprint)
    {
      if k in s.idem {
        KeyStays(s, s', k, s.idem[k].fingerprint);
      }
    }
  }
}
