/** Attempt counters with a timed lock: PINs (identity/application/auth_service.py) and delivery codes. */
module Lockout {
  import opened Kernel
  import opened Policies
  import opened Tables
  import SafePay

  /** `maxAttempts` wrong tries lock for `period`; both come from settings. */
  datatype Policy = Policy(maxAttempts: nat, period: int) {
    predicate Valid() { maxAttempts >= 1 && period >= 1 }
  }

  datatype Counter = Counter(attempts: nat, lockedUntil: Option<Time>)

  datatype Verdict =
    | Refused
    | Matched
    | Wrong(nowLocked: bool, remaining: int)

  predicate IsLocked(c: Counter, now: Time) { c.lockedUntil.Some? && c.lockedUntil.value > now }

  function Judge(policy: Policy, c: Counter, now: Time, correct: bool): Verdict {
    if IsLocked(c, now) then Refused
    else if correct then Matched
    else Wrong(c.attempts + 1 >= policy.maxAttempts, policy.maxAttempts - (c.attempts + 1))
  }

  /** The counter the transaction commits; a success whose money command then fails rolls the reset back. */
  function After(policy: Policy, c: Counter, now: Time, correct: bool, commits: bool): Counter {
    match Judge(policy, c, now, correct)
    case Refused => c
    case Matched => if commits && c.attempts != 0 then Counter(0, None) else c
    case Wrong(locked, _) => Counter(c.attempts + 1, if locked then Some(now + policy.period) else None)
  }

  /** The user row as `verify_pin` updates it. */
  class PinRow {
    var attempts: nat
    var lockedUntil: Option<Time>

    constructor ()
      ensures View() == Counter(0, None)
    {
      attempts, lockedUntil := 0, None;
    }

    function View(): Counter
      reads this
    {
      Counter(attempts, lockedUntil)
    }

    method VerifyPin(policy: Policy, now: Time, correct: bool) returns (verdict: Verdict)
      modifies this
      ensures verdict == Judge(policy, old(View()), now, correct)
      ensures View() == After(policy, old(View()), now, correct, true)
    {
      if lockedUntil.Some? && lockedUntil.value > now {
        return Refused;
      }
      if correct {
        if attempts != 0 {
          attempts, lockedUntil := 0, None;
        }
        return Matched;
      }
      attempts := attempts + 1;
      if attempts >= policy.maxAttempts {
        lockedUntil := Some(now + policy.period);
      } else {
        lockedUntil := None;
      }
      return Wrong(lockedUntil.Some?, policy.maxAttempts - attempts);
    }
  }

  // -- runs of attempts -----------------------------------------------------

  datatype Attempt = Attempt(now: Time, correct: bool, commits: bool)

  function Play(policy: Policy, start: Counter, attempts: seq<Attempt>): Counter {
    if attempts == [] then start
    else
      var n := |attempts| - 1;
      After(policy, Play(policy, start, attempts[..n]), attempts[n].now, attempts[n].correct, attempts[n].commits)
  }

  /** Times at which a secret was compared and found wrong. */
  function WrongTimes(policy: Policy, start: Counter, attempts: seq<Attempt>): seq<Time> {
    if attempts == [] then []
    else
      var n := |attempts| - 1;
      var earlier := WrongTimes(policy, start, attempts[..n]);
      if Judge(policy, Play(policy, start, attempts[..n]), attempts[n].now, attempts[n].correct).Wrong?
      then earlier + [attempts[n].now] else earlier
  }

  /** No success committed: the counter was never reset. */
  predicate NoReset(policy: Policy, start: Counter, attempts: seq<Attempt>) {
    if attempts == [] then true
    else
      var n := |attempts| - 1;
      && NoReset(policy, start, attempts[..n])
      && !(Judge(policy, Play(policy, start, attempts[..n]), attempts[n].now, attempts[n].correct).Matched?
           && attempts[n].commits)
  }

  const FRESH: Counter := Counter(0, None)

  predicate SpacedFrom(times: seq<Time>, first: nat, period: int) {
    forall k :: first <= k < |times| - 1 ==> times[k + 1] >= times[k] + period
  }

  /** Times of the wrong tries since the last committed match. */
  function WrongSince(policy: Policy, attempts: seq<Attempt>): seq<Time> {
    if attempts == [] then []
    else
      var n := |attempts| - 1;
      var a := attempts[n];
      var earlier := WrongSince(policy, attempts[..n]);
      var verdict := Judge(policy, Play(policy, FRESH, attempts[..n]), a.now, a.correct);
      if verdict.Matched? && a.commits then [] else if verdict.Wrong? then earlier + [a.now] else earlier
  }

  /**
   * A committed match resets: the counter counts only the wrong tries since, holds a lock exactly when they have
   * reached the maximum, and then that of the latest; from the last permitted one on they are a period apart.
   */
  lemma {:induction false} CounterCounts(policy: Policy, attempts: seq<Attempt>)
    requires policy.Valid()
    ensures var times := WrongSince(policy, attempts);
      var c := Play(policy, FRESH, attempts);
      && c.attempts == |times|
      && c.lockedUntil == (if |times| >= policy.maxAttempts then Some(times[|times| - 1] + policy.period) else None)
      && SpacedFrom(times, policy.maxAttempts - 1, policy.period)
  {
    if attempts != [] {
      CounterCounts(policy, attempts[..|attempts| - 1]);
    }
  }

  /** The verdict on the next try, from the wrong tries since the last committed match alone. */
  lemma VerdictCounts(policy: Policy, attempts: seq<Attempt>, now: Time, correct: bool)
    requires policy.Valid()
    ensures var times := WrongSince(policy, attempts);
      var verdict := Judge(policy, Play(policy, FRESH, attempts), now, correct);
      var locked := |times| >= policy.maxAttempts && now < times[|times| - 1] + policy.period;
      && (verdict.Refused? <==> locked)
      && (verdict.Matched? <==> !locked && correct)
      && (verdict.Wrong? ==>
            && verdict.nowLocked == (|times| + 1 >= policy.maxAttempts)
            && verdict.remaining == policy.maxAttempts - |times| - 1)
  {
    CounterCounts(policy, attempts);
  }

  lemma {:induction false} NoResetSince(policy: Policy, attempts: seq<Attempt>)
    requires NoReset(policy, FRESH, attempts)
    ensures WrongSince(policy, attempts) == WrongTimes(policy, FRESH, attempts)
  {
    if attempts != [] {
      NoResetSince(policy, attempts[..|attempts| - 1]);
    }
  }

  lemma {:induction false} SpacedSpan(times: seq<Time>, first: nat, last: nat, period: int)
    requires first <= last < |times| && SpacedFrom(times, first, period) && period >= 0
    ensures times[last] >= times[first] + (last - first) * period
  {
    if first < last {
      SpacedSpan(times, first, last - 1, period);
      assert times[last] >= times[last - 1] + period;
      assert (last - first) * period == (last - 1 - first) * period + period;
    }
  }

  /** Between resets, the number of wrong tries by time `t` is bounded, whatever clock readings occur. */
  lemma WrongTriesBounded(policy: Policy, attempts: seq<Attempt>, t: Time)
    requires policy.Valid()
    ensures var times := WrongSince(policy, attempts);
      |times| > policy.maxAttempts && times[|times| - 1] <= t ==>
        |times| <= policy.maxAttempts + (t - times[policy.maxAttempts - 1]) / policy.period
  {
    CounterCounts(policy, attempts);
    var times := WrongSince(policy, attempts);
    if |times| > policy.maxAttempts && times[|times| - 1] <= t {
      var first, last := policy.maxAttempts - 1, |times| - 1;
      SpacedSpan(times, first, last, policy.period);
      Quotient(last - first, t - times[first], policy.period);
    }
  }

  lemma Quotient(q: int, x: int, d: int)
    requires d >= 1 && q * d <= x
    ensures q <= x / d
  {
    assert x < (x / d + 1) * d;
    Cancels(q, x / d + 1, d);
  }

  // -- delivery codes -------------------------------------------------------

  function CodeCounter(escrow: Escrow): Counter { Counter(escrow.codeAttempts, escrow.codeLockedUntil) }

  function CodePolicy(cfg: Config): Policy { Policy(SafePay.CODE_MAX_ATTEMPTS, cfg.codeLockPeriod) }

  /**
   * The delivery-code command is the same machine: it compares exactly when the PIN machine would, and counts alike.
   */
  lemma CodeIsLockout(cfg: Config, s: State, now: Time, id: nat, correct: bool)
    requires id < |s.escrows| && s.escrows[id].status in {AwaitingShipment, Shipped, Delivered}
    ensures var escrow := s.escrows[id];
      var verdict := Judge(CodePolicy(cfg), CodeCounter(escrow), now, correct);
      var r := SafePay.CodeOnce(cfg, s, now, id, escrow.seller, correct);
      && (verdict.Refused? ==>
            r.Ok? && r.value.state == s && r.value.body == CodeRejectedBody(id, escrow.status, true, None))
      && (verdict.Wrong? ==>
            && r.Ok?
            && r.value.body
                 == CodeRejectedBody(id, escrow.status, verdict.nowLocked, Some(Max(0, verdict.remaining)))
            && r.value.state == s.(escrows := r.value.state.escrows)
            && |r.value.state.escrows| == |s.escrows|
            && CodeCounter(r.value.state.escrows[id]) == After(CodePolicy(cfg), CodeCounter(escrow), now, correct, true)
            && r.value.state.escrows[id].status == escrow.status)
      && (verdict.Matched? ==> r == SafePay.Release(cfg, s, now, id, escrow.seller))
  {
  }
}
