/** What stays true of loans and repayments while rows are added around them. */
module Backing {
  import opened Accounts
  import opened Tables
  import opened Transfers
  import opened Invariants

  /** Transfer rows keep everything but their status. */
  predicate RowsStand(before: seq<Transfer>, after: seq<Transfer>) {
    && |before| <= |after|
    && (forall i :: 0 <= i < |before| ==> after[i] == before[i].(status := after[i].status))
  }

  /** Loans keep their terms. */
  predicate TermsStand(before: seq<Loan>, after: seq<Loan>) {
    && |before| == |after|
    && (forall l :: 0 <= l < |before| ==>
          after[l] == before[l].(outstanding := after[l].outstanding, status := after[l].status))
  }

  predicate Stands(s: State, s': State) {
    && AccountsKept(s.accounts, s'.accounts) && RowsStand(s.transfers, s'.transfers)
    && s.pools <= s'.pools && s.grants <= s'.grants && TermsStand(s.loans, s'.loans)
  }

  lemma BackedStands(s: State, s': State)
    requires Backed(s) && Stands(s, s') && s'.repayments == s.repayments
    ensures Backed(s')
  {
    hide AccountsKept;
    assert AccountsKept(s.accounts, s'.accounts);
    forall l | 0 <= l < |s'.loans|
      ensures LoanBacked(s', s'.loans[l])
    {
      assert LoanBacked(s, s.loans[l]);
      LoanStands(s, s', s.loans[l], s'.loans[l]);
    }
    forall r | 0 <= r < |s'.repayments|
      ensures RepaymentBacked(s', s'.repayments[r])
    {
      assert RepaymentBacked(s, s.repayments[r]);
      RepaymentStands(s, s', s.repayments[r]);
    }
  }

  lemma LoanStands(s: State, s': State, loan: Loan, after: Loan)
    requires LoanBacked(s, loan) && Stands(s, s')
    requires after == loan.(outstanding := after.outstanding, status := after.status)
    ensures LoanBacked(s', after)
  {
    var g :| 0 <= g < |s.grants| && s.grants[g].pool == loan.pool && s.grants[g].beneficiary == loan.borrower
      && loan.principal <= s.grants[g].maxDraw;
    assert s'.grants[g] == s.grants[g];
    assert s'.pools[loan.pool] == s.pools[loan.pool];
  }

  lemma RepaymentStands(s: State, s': State, r: Repayment)
    requires RepaymentBacked(s, r) && Stands(s, s')
    ensures RepaymentBacked(s', r)
  {
    var pool := s.loans[r.loan].pool;
    assert s'.pools[pool] == s.pools[pool];
  }

  /** A new repayment row over a transfer posted after every earlier one's. */
  lemma RepaymentAdded(s: State, r: Repayment)
    requires Backed(s) && RepaymentBacked(s, r)
    requires forall q :: 0 <= q < |s.repayments| ==> s.repayments[q].transfer < r.transfer
    ensures Backed(s.(repayments := s.repayments + [r]))
  {
    var s' := s.(repayments := s.repayments + [r]);
    forall l | 0 <= l < |s'.loans|
      ensures LoanBacked(s', s'.loans[l])
    {
      assert LoanBacked(s, s.loans[l]);
    }
    forall q | 0 <= q < |s'.repayments|
      ensures RepaymentBacked(s', s'.repayments[q])
    {
      assert q < |s.repayments| ==> RepaymentBacked(s, s.repayments[q]);
    }
  }

  /** A new loan over a draw posted after every earlier one's. */
  lemma LoanAdded(s: State, loan: Loan)
    requires Backed(s) && LoanBacked(s, loan)
    requires forall l :: 0 <= l < |s.loans| ==> s.loans[l].draw < loan.draw
    ensures Backed(s.(loans := s.loans + [loan]))
  {
    var s' := s.(loans := s.loans + [loan]);
    forall l | 0 <= l < |s'.loans|
      ensures LoanBacked(s', s'.loans[l])
    {
      assert l < |s.loans| ==> LoanBacked(s, s.loans[l]);
    }
    forall r | 0 <= r < |s'.repayments|
      ensures RepaymentBacked(s', s'.repayments[r])
    {
      assert RepaymentBacked(s, s.repayments[r]);
    }
  }
}
