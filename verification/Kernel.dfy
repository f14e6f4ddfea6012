/** Shared vocabulary: optional values, the error taxonomy of platform_/kernel/errors.py, and results. */
module Kernel {
  type Time = int

  datatype Option<+T> = None | Some(value: T)

  datatype Error =
    | SelfTransfer
    | NotFound
    | Unauthorized
    | AccountInactive
    | InsufficientFunds
    | TransferLimitExceeded
    | DailyLimitExceeded
    | IdempotencyKeyReuse
    | RequestInProgress
    | StateConflict
    | Conflict
    | InvalidAmount

  /** A raised exception is `Err`; the enclosing transaction then discards every write. */
  datatype Result<+T> = Ok(value: T) | Err(error: Error) {
    predicate IsFailure() { Err? }
    function PropagateFailure<U>(): Result<U>
      requires Err?
    {
      Err(error)
    }
    function Extract(): T
      requires Ok?
    {
      value
    }
  }

  function Need(condition: bool, error: Error): Result<()> {
    if condition then Ok(()) else Err(error)
  }

  function Min(a: int, b: int): int { if a <= b then a else b }
  function Max(a: int, b: int): int { if a >= b then a else b }

  lemma Cancels(a: int, b: int, d: int)
    requires d >= 1
    ensures a * d < b * d ==> a < b
  {
    if a >= b {
      assert (a - b) * d >= 0;
    }
  }
}

/** Weighted sums over table rows: `SELECT SUM(f(row))`. */
module Sums {
  function Sum<T>(rows: seq<T>, f: T -> int): int {
    if rows == [] then 0 else Sum(rows[..|rows| - 1], f) + f(rows[|rows| - 1])
  }

  lemma SumAppend<T>(rows: seq<T>, row: T, f: T -> int)
    ensures Sum(rows + [row], f) == Sum(rows, f) + f(row)
  {
    assert (rows + [row])[..|rows|] == rows;
  }

  lemma {:induction false} SumUpdate<T>(rows: seq<T>, i: nat, row: T, f: T -> int)
    requires i < |rows|
    ensures Sum(rows[i := row], f) == Sum(rows, f) - f(rows[i]) + f(row)
  {
    var n := |rows| - 1;
    if i == n {
      assert rows[i := row][..n] == rows[..n];
    } else {
      SumUpdate(rows[..n], i, row, f);
      assert rows[i := row][..n] == rows[..n][i := row];
    }
  }

  lemma {:induction false} SumConcat<T>(a: seq<T>, b: seq<T>, f: T -> int)
    ensures Sum(a + b, f) == Sum(a, f) + Sum(b, f)
  {
    if b == [] {
      assert a + b == a;
    } else {
      var n := |b| - 1;
      SumConcat(a, b[..n], f);
      assert (a + b)[..|a| + n] == a + b[..n];
    }
  }

  /** Weights that agree on every row give the same sum. */
  lemma {:induction false} SumSame<T>(rows: seq<T>, f: T -> int, g: T -> int)
    requires forall row :: row in rows ==> f(row) == g(row)
    ensures Sum(rows, f) == Sum(rows, g)
  {
    if rows != [] {
      SumSame(rows[..|rows| - 1], f, g);
    }
  }

  /** Adding weights row by row adds the sums. */
  lemma {:induction false} SumsAdd<T>(rows: seq<T>, f: T -> int, g: T -> int, h: T -> int)
    requires forall row :: row in rows ==> h(row) == f(row) + g(row)
    ensures Sum(rows, h) == Sum(rows, f) + Sum(rows, g)
  {
    if rows != [] {
      SumsAdd(rows[..|rows| - 1], f, g, h);
    }
  }

  lemma {:induction false} SumZero<T>(rows: seq<T>, f: T -> int)
    requires forall row :: row in rows ==> f(row) == 0
    ensures Sum(rows, f) == 0
  {
    if rows != [] {
      SumZero(rows[..|rows| - 1], f);
    }
  }

  lemma {:induction false} SumNonNegative<T>(rows: seq<T>, f: T -> int)
    requires forall row :: row in rows ==> f(row) >= 0
    ensures Sum(rows, f) >= 0
  {
    if rows != [] {
      SumNonNegative(rows[..|rows| - 1], f);
    }
  }

  /** One row never outweighs a sum of non-negative weights. */
  lemma {:induction false} SumAtLeast<T>(rows: seq<T>, i: nat, f: T -> int)
    requires i < |rows|
    requires forall row :: row in rows ==> f(row) >= 0
    ensures f(rows[i]) <= Sum(rows, f)
  {
    var n := |rows| - 1;
    if i == n {
      SumNonNegative(rows[..n], f);
    } else {
      SumAtLeast(rows[..n], i, f);
    }
  }

  /** A pointwise bound carries over to the sums. */
  lemma {:induction false} SumMonotone<T>(rows: seq<T>, f: T -> int, g: T -> int)
    requires forall row :: row in rows ==> f(row) <= g(row)
    ensures Sum(rows, f) <= Sum(rows, g)
  {
    if rows != [] {
      SumMonotone(rows[..|rows| - 1], f, g);
    }
  }
}
