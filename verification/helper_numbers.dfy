/**
 * The numeric helpers of utils/helper_functions.py: `exponential_backoff`,
 * `us_to_eu_size` and `calculate_success_rate`. Floats are real numbers;
 * the draw of `random.uniform(0.5, 1.5)` is an oracle input `jitter`.
 */
module HelperNumbers {
  import opened Wrappers
  import SC = SupabaseClient

  // ---- exponential_backoff -----------------------------------------------------------------

  /** `2 ** e` for an integer exponent; a negative one gives a fraction. */
  function Pow2(e: int): (p: real)
    ensures p > 0.0
    decreases if e < 0 then -e else e
  {
    if e == 0 then 1.0
    else if e > 0 then 2.0 * Pow2(e - 1)
    else Pow2(e + 1) / 2.0
  }

  lemma Pow2Step(e: int)
    ensures Pow2(e + 1) == 2.0 * Pow2(e)
  {
  }

  lemma {:induction false} Pow2Monotone(a: int, b: int)
    requires a <= b
    ensures Pow2(a) <= Pow2(b)
    decreases b - a
  {
    if a < b {
      Pow2Step(a);
      Pow2Monotone(a + 1, b);
    }
  }

  function Min(x: real, y: real): real {
    if x <= y then x else y
  }

  /** `min(base_delay * 2 ** attempt, max_delay)`: the delay before jitter. */
  function CappedDelay(attempt: int, baseDelay: real, maxDelay: real): (d: real)
    ensures d <= maxDelay
    ensures d <= baseDelay * Pow2(attempt)
    ensures d == maxDelay || d == baseDelay * Pow2(attempt)
  {
    Min(baseDelay * Pow2(attempt), maxDelay)
  }

  /** `exponential_backoff(attempt, base_delay, max_delay)` with the draw of `uniform(0.5, 1.5)`. */
  function ExponentialBackoff(attempt: int, baseDelay: real, maxDelay: real, jitter: real): (d: real)
    requires 0.5 <= jitter <= 1.5
    ensures var c := CappedDelay(attempt, baseDelay, maxDelay);
            c >= 0.0 ==> 0.5 * c <= d <= 1.5 * c
  {
    CappedDelay(attempt, baseDelay, maxDelay) * jitter
  }

  /** Before jitter, a later attempt never waits less (for a non-negative base delay). */
  lemma CappedDelayMonotone(a: int, b: int, baseDelay: real, maxDelay: real)
    requires a <= b && baseDelay >= 0.0
    ensures CappedDelay(a, baseDelay, maxDelay) <= CappedDelay(b, baseDelay, maxDelay)
  {
    Pow2Monotone(a, b);
    ScaledMinMonotone(baseDelay, Pow2(a), Pow2(b), maxDelay);
  }

  lemma ScaledMinMonotone(c: real, x: real, y: real, m: real)
    requires c >= 0.0 && x <= y
    ensures Min(c * x, m) <= Min(c * y, m)
  {
    ScaleMonotone(c, x, y);
    MinMonotone(c * x, c * y, m);
  }

  lemma MinMonotone(x: real, y: real, m: real)
    requires x <= y
    ensures Min(x, m) <= Min(y, m)
  {
  }

  lemma ScaleMonotone(c: real, x: real, y: real)
    requires c >= 0.0 && x <= y
    ensures c * x <= c * y
  {
    assert c * y - c * x == c * (y - x);
  }

  /** With jitter the delay stays within one and a half times the cap. */
  lemma BackoffWithinJitteredCap(attempt: int, baseDelay: real, maxDelay: real, jitter: real)
    requires 0.5 <= jitter <= 1.5 && baseDelay >= 0.0 && maxDelay >= 0.0
    ensures 0.0 <= ExponentialBackoff(attempt, baseDelay, maxDelay, jitter) <= 1.5 * maxDelay
  {
  }

  /** Jitter applies after the cap, so the delay can exceed `max_delay`: attempt 10 with the defaults can wait 90 seconds. */
  lemma BackoffExceedsCap(attempt: int, jitter: real)
    requires attempt == 10 && jitter == 1.5
    ensures ExponentialBackoff(attempt, 1.0, 60.0, jitter) == 90.0 > 60.0
  {
    Pow2Monotone(6, attempt);
    assert Pow2(6) == 64.0;
  }

  // ---- us_to_eu_size -----------------------------------------------------------------------

  /** The offset of the conversion: 30.5 for "women"; any other gender uses the men's 33. */
  function EuOffset(gender: string): (k: real)
    ensures k == 30.5 || k == 33.0
    ensures k == 30.5 <==> gender == "women"
  {
    if gender == "women" then 30.5 else 33.0
  }

  /** `us_to_eu_size(us_size, gender)`; `us` is `float(us_size)`, None when that raises. */
  function UsToEuSize(us: Option<real>, gender: string): (eu: Option<real>)
    ensures eu.None? <==> us.None?
    ensures eu.Some? ==> eu.value - us.value == EuOffset(gender)
  {
    if us.None? then None else Some(us.value + EuOffset(gender))
  }

  /** The inverse conversion. */
  function EuToUsSize(eu: real, gender: string): real {
    eu - EuOffset(gender)
  }

  lemma UsToEuRoundTrip(us: real, gender: string)
    ensures EuToUsSize(UsToEuSize(Some(us), gender).value, gender) == us
  {
  }

  /** The same US size is 2.5 EU sizes smaller for women; unknown genders fall back to the men's rule. */
  lemma UsToEuGenders(us: real, gender: string)
    ensures UsToEuSize(Some(us), "men").value - UsToEuSize(Some(us), "women").value == 2.5
    ensures gender != "women" ==> UsToEuSize(Some(us), gender) == UsToEuSize(Some(us), "men")
  {
  }

  /** The conversion preserves the order of sizes. */
  lemma UsToEuMonotone(a: real, b: real, gender: string)
    requires a <= b
    ensures UsToEuSize(Some(a), gender).value <= UsToEuSize(Some(b), gender).value
  {
  }

  // ---- calculate_success_rate --------------------------------------------------------------

  /** `calculate_success_rate(successes, total_attempts)`: 0 when there were no attempts. */
  function CalculateSuccessRate(successes: int, totalAttempts: int): (r: real)
    ensures totalAttempts == 0 ==> r == 0.0
    ensures totalAttempts != 0 ==> r * totalAttempts as real == successes as real * 100.0
  {
    if totalAttempts == 0 then 0.0 else successes as real / totalAttempts as real * 100.0
  }

  /** For counts it agrees with the percentage the database client reports, and so lies in 0..100. */
  lemma SuccessRateAgreesWithPercent(successes: int, totalAttempts: int)
    requires totalAttempts >= 0
    ensures CalculateSuccessRate(successes, totalAttempts) == SC.Percent(successes, totalAttempts)
    ensures 0 <= successes <= totalAttempts ==> 0.0 <= CalculateSuccessRate(successes, totalAttempts) <= 100.0
  {
    if 0 <= successes <= totalAttempts {
      SC.PercentBounds(successes, totalAttempts);
    }
  }

  /** Nothing caps the rate: more successes than attempts give more than 100. */
  lemma SuccessRateUncapped(successes: int, totalAttempts: int)
    requires 0 < totalAttempts < successes
    ensures CalculateSuccessRate(successes, totalAttempts) > 100.0
  {
    assert successes as real / totalAttempts as real > 1.0;
  }
}
