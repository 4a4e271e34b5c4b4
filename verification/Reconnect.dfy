/** The two reconnect loops: after an OTA upload (`_verify_existing_upload_locked`) and after
    a calibration restart (`_reconnect_after_restart`). Time is a real number that every sleep
    advances by at least its length; how long calls take and how far sleeps overrun is up to
    the environment. */
module Reconnect {
  /** What one verification of the rebooted meter says. */
  datatype Verdict = Matches | Retryable | Terminal | CommunicationFailed

  datatype Outcome = Verified | Retained | Finished

  /** One reconnect attempt after a restart. */
  datatype Attempt = Connected | Transient | Fatal

  datatype Restart = Reconnected | Failed | Exhausted

  const LONGEST := 5.0

  /** `initial * 2**n`. */
  function Doubled(initial: real, n: nat): (delay: real)
    requires initial > 0.0
    ensures delay >= initial
  {
    if n == 0 then initial else 2.0 * Doubled(initial, n - 1)
  }

  function Least(x: real, y: real): real { if x <= y then x else y }

  /** The backoff before the next attempt: doubled each time, capped, and never past the deadline. */
  function Delay(initial: real, n: nat, remaining: real): (delay: real)
    requires initial > 0.0
    ensures 0.0 <= delay <= LONGEST
  {
    Least(Least(Doubled(initial, n), LONGEST), if remaining > 0.0 then remaining else 0.0)
  }

  lemma Halves(initial: real)
    requires 0.0 < initial < LONGEST
    ensures 2.0 * initial < LONGEST ==> (LONGEST / (2.0 * initial)).Floor < (LONGEST / initial).Floor
    ensures (LONGEST / initial).Floor >= 1
  {
    var x := LONGEST / initial;
    assert x > 1.0 by {
      assert x * initial == LONGEST;
      if x <= 1.0 { assert false; }
    }
    var y := LONGEST / (2.0 * initial);
    assert y * (2.0 * initial) == LONGEST;
    assert 2.0 * y == x by { assert (2.0 * y) * initial == LONGEST; }
  }

  lemma {:induction false} Shifts(initial: real, n: nat)
    requires initial > 0.0
    ensures Doubled(2.0 * initial, n) == Doubled(initial, n + 1)
  {
    if n > 0 { Shifts(initial, n - 1); }
  }

  /** The least number of doublings that brings the delay to its cap. */
  function Steady(initial: real): (k: nat)
    requires initial > 0.0
    ensures Doubled(initial, k) >= LONGEST
    ensures forall j: nat :: j < k ==> Doubled(initial, j) < LONGEST
    decreases if initial >= LONGEST then 0 else (LONGEST / initial).Floor
  {
    if initial >= LONGEST then 0
    else
      Halves(initial);
      var k := Steady(2.0 * initial);
      assert forall j: nat :: j < k + 1 ==> Doubled(initial, j) < LONGEST by {
        forall j: nat | j < k + 1 ensures Doubled(initial, j) < LONGEST { if j > 0 { Shifts(initial, j - 1); } }
      }
      Shifts(initial, k);
      k + 1
  }

  lemma {:induction false} Grows(initial: real, k: nat, n: nat)
    requires initial > 0.0 && k <= n
    ensures Doubled(initial, k) <= Doubled(initial, n)
  {
    if k < n { Grows(initial, k, n - 1); }
  }

  function Ceiling(x: real): int { -((-x).Floor) }

  /** No loop with this backoff makes more attempts within `timeout`. */
  function Most(initial: real, timeout: real): int
    requires initial > 0.0
  {
    Steady(initial) + Ceiling(timeout / LONGEST)
  }

  /** `n` attempts have passed and the clock, `t` after the start, allows another. */
  predicate Paced(initial: real, timeout: real, n: nat, t: real)
    requires initial > 0.0
  {
    t >= 0.0 && (t >= timeout || t >= LONGEST * (n - Steady(initial)) as real)
  }

  /** Sleeping the prescribed delay keeps the pace. */
  lemma Sleeps(initial: real, timeout: real, n: nat, t: real, t': real)
    requires initial > 0.0 && Paced(initial, timeout, n, t) && t < timeout
    requires t' >= t + Delay(initial, n, timeout - t)
    ensures Paced(initial, timeout, n + 1, t')
  {
    var k := Steady(initial);
    if n < k {
      assert LONGEST * (n + 1 - k) as real <= 0.0;
    } else {
      Grows(initial, k, n);
      assert LONGEST * (n + 1 - k) as real == LONGEST * (n - k) as real + LONGEST;
    }
  }

  lemma PacedBound(initial: real, timeout: real, n: nat, t: real)
    requires initial > 0.0 && Paced(initial, timeout, n, t) && t < timeout
    ensures n < Most(initial, timeout)
  {
    var k := Steady(initial);
    var x := timeout / LONGEST;
    assert x * LONGEST == timeout;
    assert (n - k) as real < x;
    assert x > 0.0;
    assert x <= Ceiling(x) as real;
  }

  /** After the upload: verify until the meter matches, fails for good, or time is up. */
  method VerifyUpload(timeout: real, initial: real, lag: real,
                      took: nat -> real, overslept: nat -> real, verdict: nat -> Verdict)
    returns (outcome: Outcome, attempts: nat, elapsed: real)
    requires timeout > 0.0 && initial > 0.0 && lag >= 0.0
    requires forall n :: took(n) >= 0.0 && overslept(n) >= 0.0
    ensures attempts <= Most(initial, timeout)
    ensures attempts == 0 <==> lag >= timeout
    ensures forall n :: 0 <= n < attempts - 1 ==> verdict(n).Retryable?
    ensures outcome.Verified? <==> attempts == 0 || verdict(attempts - 1).Matches?
    ensures outcome.Finished? <==> attempts > 0 && verdict(attempts - 1).Terminal?
    ensures outcome.Retained? && verdict(attempts - 1).Retryable? ==> elapsed >= timeout
  {
    attempts, elapsed := 0, lag;
    var error := Matches;
    while elapsed < timeout
      invariant elapsed >= lag && Paced(initial, timeout, attempts, elapsed)
      invariant attempts <= Most(initial, timeout)
      invariant attempts == 0 ==> elapsed == lag && error.Matches?
      invariant attempts > 0 ==> lag < timeout && error.Retryable?
      invariant forall n :: 0 <= n < attempts ==> verdict(n).Retryable?
      decreases Most(initial, timeout) - attempts
    {
      PacedBound(initial, timeout, attempts, elapsed);
      elapsed := elapsed + took(attempts);
      error := verdict(attempts);
      if !error.Retryable? {
        attempts := attempts + 1;
        break;
      }
      ghost var before := elapsed;
      elapsed := elapsed + Delay(initial, attempts, timeout - elapsed) + overslept(attempts);
      if before < timeout { Sleeps(initial, timeout, attempts, before, elapsed); }
      attempts := attempts + 1;
    }
    outcome := match error case Matches => Verified case Terminal => Finished case _ => Retained;
  }

  /** After a restart: reconnect until it works, fails for good, or time is up. */
  method ReconnectAfterRestart(timeout: real, initial: real, lag: real,
                               took: nat -> real, overslept: nat -> real, attempt: nat -> Attempt)
    returns (restart: Restart, attempts: nat, elapsed: real)
    requires initial > 0.0 && lag >= 0.0
    requires forall n :: took(n) >= 0.0 && overslept(n) >= 0.0
    ensures attempts <= Most(initial, timeout) || attempts == 0
    ensures attempts == 0 <==> lag >= timeout
    ensures forall n :: 0 <= n < attempts - 1 ==> attempt(n).Transient?
    ensures restart.Reconnected? <==> attempts > 0 && attempt(attempts - 1).Connected?
    ensures restart.Failed? <==> attempts > 0 && attempt(attempts - 1).Fatal?
    ensures restart.Exhausted? ==> elapsed >= timeout
  {
    attempts, elapsed := 0, lag;
    while elapsed < timeout
      invariant elapsed >= lag && Paced(initial, timeout, attempts, elapsed)
      invariant attempts <= Most(initial, timeout) || attempts == 0
      invariant attempts == 0 ==> elapsed == lag
      invariant attempts > 0 ==> lag < timeout
      invariant forall n :: 0 <= n < attempts ==> attempt(n).Transient?
      decreases Most(initial, timeout) - attempts
    {
      PacedBound(initial, timeout, attempts, elapsed);
      elapsed := elapsed + took(attempts);
      var result := attempt(attempts);
      if !result.Transient? {
        attempts := attempts + 1;
        return if result.Connected? then Reconnected else Failed, attempts, elapsed;
      }
      ghost var before := elapsed;
      elapsed := elapsed + Delay(initial, attempts, timeout - elapsed) + overslept(attempts);
      if before < timeout { Sleeps(initial, timeout, attempts, before, elapsed); }
      attempts := attempts + 1;
    }
    restart := Exhausted;
  }
}
