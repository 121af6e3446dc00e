/** Exponential backoff with downward jitter (pkg/backoff). Durations are
    Go `time.Duration` values: integer nanoseconds. The random draw
    `rand.Float64()` is the parameter `jitter`, which Go draws from [0, 1). */
module Backoff {

  type Duration = int

  const Second: Duration := 1_000_000_000

  function Pow(x: real, n: nat): real {
    if n == 0 then 1.0 else x * Pow(x, n - 1)
  }

  lemma {:induction false} PowNonNegative(x: real, n: nat)
    requires x >= 0.0
    ensures Pow(x, n) >= 0.0
  {
    if n > 0 {
      PowNonNegative(x, n - 1);
    }
  }

  /** Go's float64-to-Duration conversion, which truncates toward zero. */
  function Trunc(x: real): (r: int)
    ensures x >= 0.0 ==> r as real <= x < r as real + 1.0
    ensures x < 0.0 ==> r as real - 1.0 < x <= r as real
  {
    if x >= 0.0 then x.Floor else -((-x).Floor)
  }

  /** The undelayed backoff `baseDelay * factor^retryNum`. */
  function Undelayed(retryNum: nat, baseDelay: Duration, factor: real): real {
    baseDelay as real * Pow(factor, retryNum)
  }

  /** The backoff after the jitter has removed up to half of it. */
  function Jittered(retryNum: nat, baseDelay: Duration, factor: real, jitter: real): real {
    var b := Undelayed(retryNum, baseDelay, factor);
    b - b * 0.5 * jitter
  }

  /** Exponential: no wait before the first try, afterwards the jittered
      backoff capped at `maxDelay`. */
  function Exponential(retryNum: nat, baseDelay: Duration, maxDelay: Duration, factor: real, jitter: real): (r: Duration)
    ensures retryNum == 0 ==> r == 0
    ensures retryNum > 0 ==> r <= maxDelay
    ensures retryNum > 0 && Jittered(retryNum, baseDelay, factor, jitter) >= maxDelay as real ==> r == maxDelay
    ensures retryNum > 0 && Jittered(retryNum, baseDelay, factor, jitter) < maxDelay as real ==>
      r == Trunc(Jittered(retryNum, baseDelay, factor, jitter))
  {
    if retryNum == 0 then 0
    else
      var backoff := Jittered(retryNum, baseDelay, factor, jitter);
      Trunc(if maxDelay as real <= backoff then maxDelay as real else backoff)
  }

  /** For a draw in [0, 1) the jitter keeps more than half of a positive
      backoff and never adds to it. */
  lemma JitterBounds(retryNum: nat, baseDelay: Duration, factor: real, jitter: real)
    requires 0.0 <= jitter < 1.0
    requires Undelayed(retryNum, baseDelay, factor) > 0.0
    ensures var b := Undelayed(retryNum, baseDelay, factor);
      0.5 * b < Jittered(retryNum, baseDelay, factor, jitter) <= b
  {
    var b := Undelayed(retryNum, baseDelay, factor);
    var h := b * 0.5;
    assert h > 0.0;
    assert 0.0 <= h * jitter < h * 1.0;
    assert b * 0.5 * jitter == h * jitter;
    assert Jittered(retryNum, baseDelay, factor, jitter) == b - h * jitter;
  }

  /** With non-negative inputs the wait is never negative. */
  lemma ExponentialNonNegative(retryNum: nat, baseDelay: Duration, maxDelay: Duration, factor: real, jitter: real)
    requires baseDelay >= 0 && maxDelay >= 0 && factor >= 0.0
    requires 0.0 <= jitter < 1.0
    ensures Exponential(retryNum, baseDelay, maxDelay, factor, jitter) >= 0
  {
    PowNonNegative(factor, retryNum);
    var b := Undelayed(retryNum, baseDelay, factor);
    assert b >= 0.0;
    assert b * 0.5 * jitter <= b * 0.5;
  }
}
