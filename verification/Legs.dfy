/** One ledger leg: what it changes and what it keeps. */
module Legs {
  import opened Kernel
  import opened Sums
  import opened Accounts
  import opened Ledger
  import opened Policies
  import opened Tables
  import opened Transfers
  import opened Invariants

  predicate InRange(s: State, c: TransferCommand) {
    c.sender < |s.accounts| && c.receiver < |s.accounts| && c.sender != c.receiver
  }

  function Debited(s: State, c: TransferCommand): Account
    requires InRange(s, c)
  {
    var a := s.accounts[c.sender];
    a.(balance := a.balance - c.amount, version := a.version + 1)
  }

  function Credited(s: State, c: TransferCommand): Account
    requires InRange(s, c)
  {
    var a := s.accounts[c.receiver];
    a.(balance := a.balance + c.amount, version := a.version + 1)
  }

  /** The leg itself, free of charge. */
  function Leg(s: State, now: Time, c: TransferCommand): State
    requires InRange(s, c)
  {
    Move(s, now, c, Debited(s, c), Credited(s, c))
  }

  function RowOf(now: Time, c: TransferCommand): Transfer {
    Transfer(c.sender, c.receiver, c.amount, c.kind, c.status, c.actor, c.parent, c.intended, now)
  }

  lemma LegBalances(s: State, now: Time, c: TransferCommand, a: AccountId)
    requires InRange(s, c)
    ensures BalanceOf(Leg(s, now, c).accounts, a)
         == BalanceOf(s.accounts, a) + (if a == c.receiver then c.amount else 0)
             - (if a == c.sender then c.amount else 0)
    ensures SameShape(s.accounts, Leg(s, now, c).accounts)
  {
  }

  /** The posting changes each account's entries by what the leg changes its balance. */
  lemma LegEntries(s: State, now: Time, c: TransferCommand, a: AccountId)
    requires InRange(s, c)
    ensures Sum(Leg(s, now, c).postings, EntryFor(a))
         == Sum(s.postings, EntryFor(a)) + (if a == c.receiver then c.amount else 0)
             - (if a == c.sender then c.amount else 0)
  {
    hide Sum;
    var s' := Leg(s, now, c);
    SumAppend(s.postings, s'.postings[|s.postings|], EntryFor(a));
    TransferLinesEffect(c.sender, c.receiver, c.amount, Debited(s, c).balance, Credited(s, c).balance, a);
  }

  lemma LegKeepsBooks(s: State, now: Time, c: TransferCommand)
    requires InRange(s, c) && c.amount > 0
    requires BooksOk(s.accounts, s.transfers, s.postings)
    ensures var s' := Leg(s, now, c); BooksOk(s'.accounts, s'.transfers, s'.postings)
  {
    hide Sum;
    var s' := Leg(s, now, c);
    var n := |s.postings|;
    forall a: AccountId
      ensures Sum(s'.postings, EntryFor(a)) ==
              Sum(s.postings, EntryFor(a)) + (if a == c.receiver then c.amount else 0)
                  - (if a == c.sender then c.amount else 0)
    {
      LegEntries(s, now, c, a);
    }
    forall i | 0 <= i < |s'.postings|
      ensures PostingMatches(i, s'.postings[i], s'.transfers[i]) && RunningBalances(s'.postings, i)
    {
      if i < n {
        assert PostingMatches(i, s.postings[i], s.transfers[i]) && RunningBalances(s.postings, i);
        assert s'.postings[..i + 1] == s.postings[..i + 1];
      } else {
        assert s'.postings[..n + 1] == s'.postings;
      }
    }
  }

  lemma LegKeepsAccounts(s: State, now: Time, c: TransferCommand)
    requires InRange(s, c) && c.amount > 0 && AccountsOk(s.accounts)
    requires c.sender == ISSUANCE || s.accounts[c.sender].balance >= c.amount
    ensures AccountsOk(Leg(s, now, c).accounts)
  {
    var s' := Leg(s, now, c);
    forall i | 0 <= i < |s'.accounts|
      ensures AccountOk(i, s'.accounts[i])
    {
      assert AccountOk(i, s.accounts[i]);
    }
  }

  /** Rows already written stay well-formed when a row is appended or an account changes only its balance. */
  lemma AppendKeepsTransfers(before: seq<Account>, after: seq<Account>, transfers: seq<Transfer>, t: Transfer)
    requires TransfersOk(before, transfers) && SameShape(before, after)
    requires TransferOk(after, transfers + [t], |transfers|)
    ensures TransfersOk(after, transfers + [t])
  {
    forall i | 0 <= i < |transfers|
      ensures TransferOk(after, transfers + [t], i)
    {
      assert TransferOk(before, transfers, i);
    }
  }

  lemma LegPoolGap(s: State, now: Time, c: TransferCommand, p: nat)
    requires InRange(s, c) && p < |s.pools|
    ensures var s' := Leg(s, now, c);
      var account := s.pools[p].account;
      PoolGap(s'.accounts, s'.transfers, s'.pools, s'.loans, p) == PoolGap(s.accounts, s.transfers, s.pools, s.loans, p)
        + (if c.receiver == account then c.amount else 0)
        - (if c.sender == account then c.amount else 0)
        - (if c.kind == OverdraftFund && c.receiver == account then c.amount else 0)
  {
    LegBalances(s, now, c, s.pools[p].account);
    SumAppend(s.transfers, RowOf(now, c), FundedInto(s.pools[p].account));
  }
}
