/** domain/account.py: the account aggregate and its guards. */
module Accounts {
  import opened Kernel

  type AccountId = nat
  type UserId = nat

  // The three singleton system accounts have the three smallest ids.
  const ISSUANCE: AccountId := 0
  const ESCROW: AccountId := 1
  const PENDING_SETTLEMENT: AccountId := 2

  datatype AccountType =
    | UserAccount
    | SystemIssuance
    | PendingSettlement
    | EscrowAccount
    | OverdraftPool

  datatype AccountStatus = Active | Frozen | Closed

  datatype Account = Account(
    owner: Option<UserId>,
    kind: AccountType,
    balance: int,
    status: AccountStatus,
    version: nat)
  {
    predicate MayGoNegative() { kind == SystemIssuance }

    function EnsureActive(): Result<()> {
      Need(status == Active, AccountInactive)
    }

    function EnsureOwnedBy(user: UserId): Result<()> {
      Need(owner == Some(user), Unauthorized)
    }

    function EnsureCanAfford(amount: int): Result<()> {
      Need(MayGoNegative() || balance >= amount, InsufficientFunds)
    }

    function Debit(amount: int): Result<Account> {
      var _ :- Need(amount > 0, InvalidAmount);
      var _ :- EnsureActive();
      var _ :- EnsureCanAfford(amount);
      Ok(this.(balance := balance - amount, version := version + 1))
    }

    function Credit(amount: int): Result<Account> {
      var _ :- Need(amount > 0, InvalidAmount);
      var _ :- EnsureActive();
      Ok(this.(balance := balance + amount, version := version + 1))
    }
  }

  /** `get_by_user_id`: the user's primary account. */
  function FindUser(accounts: seq<Account>, user: UserId): (r: Option<AccountId>)
    ensures r.Some? ==> r.value < |accounts| && IsPrimary(accounts[r.value], user)
    ensures r.None? ==> forall i :: 0 <= i < |accounts| ==> !IsPrimary(accounts[i], user)
  {
    if accounts == [] then None
    else
      var n := |accounts| - 1;
      if IsPrimary(accounts[n], user) then Some(n) else FindUser(accounts[..n], user)
  }

  function Balance(a: Account): int { a.balance }

  predicate IsPrimary(account: Account, user: UserId) {
    account.kind == UserAccount && account.owner == Some(user)
  }
}

/** domain/ledger.py: the double-entry posting. */
module Ledger {
  import opened Sums
  import opened Accounts

  datatype Line = Line(account: AccountId, amount: int, balanceAfter: int)

  /** One ledger transaction with its entries. */
  datatype Posting = Posting(transfer: nat, lines: seq<Line>)

  function LineAmount(line: Line): int { line.amount }

  /** Signed change a line makes to account `a`. */
  function LineFor(a: AccountId): Line -> int {
    (line: Line) => if line.account == a then line.amount else 0
  }

  function EntryFor(a: AccountId): Posting -> int {
    (posting: Posting) => Sum(posting.lines, LineFor(a))
  }

  /** Exactly the values `LedgerPosting` can be constructed with. */
  predicate ValidPosting(lines: seq<Line>) {
    && |lines| >= 2
    && Sum(lines, LineAmount) == 0
    && (forall i :: 0 <= i < |lines| ==> lines[i].amount != 0)
    && (forall i, j :: 0 <= i < j < |lines| ==> lines[i].account != lines[j].account)
  }

  /** `LedgerPosting.transfer` with the running balances `post` stores beside each line. */
  function TransferLines(from: AccountId, to: AccountId, amount: int, fromAfter: int, toAfter: int): seq<Line> {
    [Line(from, -amount, fromAfter), Line(to, amount, toAfter)]
  }

  lemma SumTwo<T>(a: T, b: T, f: T -> int)
    ensures Sum([a, b], f) == f(a) + f(b)
  {
    SumAppend([a], b, f);
    assert [a] + [b] == [a, b];
    assert [a][..0] == [];
    assert Sum([a], f) == f(a);
  }

  /** The two-line posting is accepted by the constructor precisely for a non-zero amount between two accounts. */
  lemma TransferLinesValid(from: AccountId, to: AccountId, amount: int, fromAfter: int, toAfter: int)
    ensures ValidPosting(TransferLines(from, to, amount, fromAfter, toAfter)) <==> amount != 0 && from != to
  {
    var lines := TransferLines(from, to, amount, fromAfter, toAfter);
    SumTwo(lines[0], lines[1], LineAmount);
    assert lines[0].account == from && lines[1].account == to;
    assert lines[0].amount == -amount;
  }

  lemma TransferLinesEffect(from: AccountId, to: AccountId, amount: int, fromAfter: int, toAfter: int, a: AccountId)
    requires from != to
    ensures Sum(TransferLines(from, to, amount, fromAfter, toAfter), LineFor(a))
         == (if a == from then -amount else 0) + (if a == to then amount else 0)
  {
    SumTwo(Line(from, -amount, fromAfter), Line(to, amount, toAfter), LineFor(a));
  }
}

/** domain/policies.py: fees and limits, and the settings that parametrise the services. */
module Policies {
  import opened Kernel

  datatype FeeStrategy =
    | NoFee
    | FlatFee(flat: int)
    | PercentageFee(basisPoints: int, minimum: int)

  datatype Config = Config(
    fees: FeeStrategy,
    maxSingle: int,
    dailyTotal: int,
    lienBasisPoints: int,
    maxDraw: int,
    requestExpiry: int,
    autoReleaseDelay: int,
    codeLockPeriod: int)
  {
    /** The bounds `Settings` and the services put on their parameters. */
    predicate Valid() {
      1 <= lienBasisPoints <= 10_000 && 1 <= maxDraw && dailyTotal >= 1 && codeLockPeriod >= 1
    }
  }

  /** Python's floor division by 10 000; the divisor is positive, so it is Euclidean division. */
  function FloorBps(n: int): int { n / 10_000 }

  function FeeFor(fees: FeeStrategy, amount: int): int {
    match fees
    case NoFee => 0
    case FlatFee(flat) => flat
    case PercentageFee(bps, minimum) => Max(-FloorBps(-amount * bps), minimum)
  }

  /** The percentage fee is the least whole fee not below the exact rate. */
  lemma PercentageFeeIsCeiling(amount: int, bps: int)
    ensures
      var fee := -FloorBps(-amount * bps);
      10_000 * (fee - 1) < amount * bps <= 10_000 * fee
  {
    assert -amount * bps == -(amount * bps);
    var x := amount * bps;
    assert 10_000 * (-x / 10_000) <= -x < 10_000 * (-x / 10_000) + 10_000;
  }

  /** A fee is exact: nothing, the flat amount, or the least amount not below the minimum nor below the exact rate. */
  lemma FeeIsLeast(fees: FeeStrategy, amount: int, other: int)
    ensures fees.NoFee? ==> FeeFor(fees, amount) == 0
    ensures fees.FlatFee? ==> FeeFor(fees, amount) == fees.flat
    ensures fees.PercentageFee? ==>
      var fee := FeeFor(fees, amount);
      && fee >= fees.minimum && 10_000 * fee >= amount * fees.basisPoints
      && (other >= fees.minimum && 10_000 * other >= amount * fees.basisPoints ==> fee <= other)
  {
    if fees.PercentageFee? {
      PercentageFeeIsCeiling(amount, fees.basisPoints);
    }
  }

  function EnsureWithinLimits(cfg: Config, amount: int, alreadySentToday: int): Result<()> {
    var _ :- Need(amount <= cfg.maxSingle, TransferLimitExceeded);
    Need(alreadySentToday + amount <= cfg.dailyTotal, DailyLimitExceeded)
  }
}
