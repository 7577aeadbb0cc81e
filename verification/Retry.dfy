/** The capped exponential backoff between automatic attempts, in 64-bit nanoseconds. */
module Retry {

  newtype int64 = x: int | -0x8000_0000_0000_0000 <= x < 0x8000_0000_0000_0000

  const MINUTE: int64 := 60_000_000_000
  const HOUR: int64 := 3_600_000_000_000
  const MULTIPLIER: int64 := 2

  function Pow2(n: nat): (p: nat)
    ensures p > 0
  {
    if n == 0 then 1 else 2 * Pow2(n - 1)
  }

  function Min(a: int, b: int): int { if a <= b then a else b }

  /** min(60 * 2^(n-1), 3600) seconds before the attempt that follows attempt number n. */
  function Delay(n: nat): (d: int)
    ensures MINUTE as int <= d <= HOUR as int
  {
    Min(MINUTE as int * Pow2(if n == 0 then 0 else n - 1), HOUR as int)
  }

  /** The first delay is a minute, and each further one doubles the last, up to an hour. */
  lemma DelayDoubles(n: nat)
    requires n >= 1
    ensures Delay(0) == Delay(1) == 60_000_000_000
    ensures Delay(n + 1) == if 2 * Delay(n) <= 3_600_000_000_000 then 2 * Delay(n) else 3_600_000_000_000
  {
    assert Pow2(n) == 2 * Pow2(n - 1);
  }

  /** From the seventh attempt on the delay is one hour. */
  lemma {:induction false} DelayIsCappedFromSeven(n: nat)
    requires n >= 7
    ensures Delay(n) == HOUR as int
  {
    if n == 7 {
      assert Pow2(6) == 2 * Pow2(5) == 4 * Pow2(4) == 8 * Pow2(3) == 16 * Pow2(2) == 32 * Pow2(1) == 64;
    } else {
      DelayIsCappedFromSeven(n - 1);
    }
  }

  /** The doubling loop: every product fits 64 bits and at most six rounds run. */
  method RetryDelay(attemptCount: nat) returns (delay: int64, rounds: nat)
    ensures delay as int == Delay(attemptCount)
    ensures rounds <= 6
  {
    delay, rounds := MINUTE, 0;
    var attempt := 1;
    while attempt < attemptCount && delay < HOUR
      invariant attempt == rounds + 1 <= 7
      invariant attempt <= attemptCount || attempt == 1
      invariant delay as int == Delay(attempt)
      decreases attemptCount - attempt
    {
      if attempt == 6 { DelayIsCappedFromSeven(7); }
      var doubled := delay * MULTIPLIER;
      delay := if doubled <= HOUR then doubled else HOUR;
      attempt := attempt + 1;
      rounds := rounds + 1;
    }
    if attempt < attemptCount {
      DelayStaysAtCap(attempt, attemptCount);
    }
  }

  lemma {:induction false} DelayStaysAtCap(n: nat, m: nat)
    requires 1 <= n <= m && Delay(n) == HOUR as int
    ensures Delay(m) == HOUR as int
    decreases m - n
  {
    if n < m {
      DelayStaysAtCap(n + 1, m);
    }
  }

  /** The least time from the first attempt's start to the start of attempt number n + 1. */
  function TotalDelay(n: nat): (t: int)
    ensures t >= n * MINUTE as int
  {
    if n == 0 then 0 else TotalDelay(n - 1) + Delay(n)
  }
}
