/**
 * The arithmetic of the exponential backoff sequence: Java's `int` width, the
 * narrowing of `mCurrentBackOffTimeMs *= mMultiplier`, the capped step, the delay
 * reached after n steps, and the closed form `min(initial * multiplier^n, max)`
 * that the repository's test uses as its reference.
 */
module BackoffSpec {

  const MinInt32: int := -0x8000_0000
  const MaxInt32: int := 0x7fff_ffff

  /** A Java `int`. */
  type Int32 = x: int | MinInt32 <= x <= MaxInt32

  function Min(a: int, b: int): int {
    if a <= b then a else b
  }

  /** Distance between two integers. */
  function Dist(a: int, b: int): nat {
    if a <= b then b - a else a - b
  }

  /**
   * Java's narrowing of an integral `float` value to `int`: the value itself when it
   * is representable, otherwise the nearest `int` (the conversion saturates).
   */
  function Sat32(x: int): (r: Int32)
    ensures MinInt32 <= x <= MaxInt32 ==> r == x
    ensures forall y :: MinInt32 <= y <= MaxInt32 ==> Dist(r, x) <= Dist(y, x)
  {
    if x > MaxInt32 then MaxInt32 else if x < MinInt32 then MinInt32 else x
  }

  /**
   * One `incrementBackOffTime`: multiply, narrow to `int`, and clamp to `max`.
   */
  function NextBackOff(current: Int32, multiplier: int, max: Int32): (r: Int32)
    ensures r <= max
  {
    var product := Sat32(current * multiplier);
    if product > max then max else product
  }

  /** The current delay after `n` runs since construction or the last reset. */
  function BackOffAfter(initial: Int32, max: Int32, multiplier: int, n: nat): Int32
  {
    if n == 0 then initial
    else NextBackOff(BackOffAfter(initial, max, multiplier, n - 1), multiplier, max)
  }

  function Pow(b: int, n: nat): int {
    if n == 0 then 1 else b * Pow(b, n - 1)
  }

  /**
   * The test's reference interval for the n-th run (0-indexed) after a reset:
   * `initial * multiplier^n`, capped at `max`.
   */
  function ExpectedInterval(initial: int, max: int, multiplier: int, n: nat): int {
    Min(initial * Pow(multiplier, n), max)
  }

  /** The configurations for which the sequence behaves as a backoff sequence. */
  predicate WellConfigured(initial: int, max: int, multiplier: int) {
    0 <= initial <= max && 1 <= multiplier
  }

  /**
   * The configurations for which the runner's delay stays in `[initial, max]`: a
   * negative initial interval is allowed, because a run with a negative delay fails
   * before it changes anything.
   */
  predicate OrderedConfig(initial: int, max: int, multiplier: int) {
    initial <= max && 1 <= multiplier
  }

  lemma PowAtLeastOne(b: int, n: nat)
    requires 1 <= b
    ensures 1 <= Pow(b, n)
  {
    if n > 0 {
      PowAtLeastOne(b, n - 1);
      MulMonotone(1, Pow(b, n - 1), b);
    }
  }

  lemma MulMonotone(x: int, y: int, m: int)
    requires x <= y && 0 <= m
    ensures x * m <= y * m
  {
    assert y * m - x * m == (y - x) * m;
  }

  /** Scaling a non-negative delay by a multiplier of at least one never shrinks it. */
  lemma MulGrows(x: int, m: int)
    requires 0 <= x && 1 <= m
    ensures x <= x * m
  {
    MulMonotone(1, m, x);
  }

  /**
   * Unless the product underflows `int`, the narrowing cannot be observed: the step is
   * exactly `min(current * multiplier, max)`.
   */
  lemma NextBackOffIsMin(current: Int32, multiplier: int, max: Int32)
    requires MinInt32 <= current * multiplier
    ensures NextBackOff(current, multiplier, max) == Min(current * multiplier, max)
  {
  }

  /** A well-configured step keeps the delay between the initial value and the cap. */
  lemma NextBackOffStaysInRange(initial: Int32, current: Int32, multiplier: int, max: Int32)
    requires WellConfigured(initial, max, multiplier)
    requires initial <= current <= max
    ensures initial <= NextBackOff(current, multiplier, max) <= max
    ensures current <= NextBackOff(current, multiplier, max)
  {
    MulGrows(current, multiplier);
    NextBackOffIsMin(current, multiplier, max);
  }

  /** Once the delay is at the cap, a step keeps it there. */
  lemma CapIsFixedPoint(multiplier: int, max: Int32)
    requires 0 <= max && 1 <= multiplier
    ensures NextBackOff(max, multiplier, max) == max
  {
    MulGrows(max, multiplier);
    NextBackOffIsMin(max, multiplier, max);
  }

  /** For well-configured runners the delay always lies in `[initial, max]`. */
  lemma {:induction false} BackOffAfterInRange(initial: Int32, max: Int32, multiplier: int, n: nat)
    requires WellConfigured(initial, max, multiplier)
    ensures initial <= BackOffAfter(initial, max, multiplier, n) <= max
  {
    if n > 0 {
      BackOffAfterInRange(initial, max, multiplier, n - 1);
      NextBackOffStaysInRange(initial, BackOffAfter(initial, max, multiplier, n - 1), multiplier, max);
    }
  }

  /** Successive delays never decrease. */
  lemma BackOffNonDecreasing(initial: Int32, max: Int32, multiplier: int, n: nat)
    requires WellConfigured(initial, max, multiplier)
    ensures BackOffAfter(initial, max, multiplier, n) <= BackOffAfter(initial, max, multiplier, n + 1)
  {
    BackOffAfterInRange(initial, max, multiplier, n);
    NextBackOffStaysInRange(initial, BackOffAfter(initial, max, multiplier, n), multiplier, max);
  }

  /** Once the cap is reached, every later run stays at the cap. */
  lemma {:induction false} CapIsIdempotent(initial: Int32, max: Int32, multiplier: int, n: nat, k: nat)
    requires 0 <= max && 1 <= multiplier
    requires BackOffAfter(initial, max, multiplier, n) == max
    ensures BackOffAfter(initial, max, multiplier, n + k) == max
  {
    if k > 0 {
      CapIsIdempotent(initial, max, multiplier, n, k - 1);
      CapIsFixedPoint(multiplier, max);
    }
  }

  /** Capping before or after a scaling step gives the same capped value. */
  lemma CapCommutesWithScaling(a: int, m: int, max: int)
    requires 0 <= a && 1 <= m && 0 <= max
    ensures Min(Min(a, max) * m, max) == Min(a * m, max)
  {
    if a > max {
      MulMonotone(max, a, m);
      MulGrows(max, m);
    }
  }

  /** One more factor of the multiplier. */
  lemma PowStep(initial: int, b: int, n: nat)
    requires 0 < n
    ensures initial * Pow(b, n) == (initial * Pow(b, n - 1)) * b
  {
    var p := Pow(b, n - 1);
    assert Pow(b, n) == b * p;
    assert initial * (b * p) == (initial * p) * b;
  }

  /**
   * The delay the runner holds after `n` runs is the test's reference interval
   * `min(initial * multiplier^n, max)`.
   */
  lemma {:induction false} BackOffAfterIsExpected(initial: Int32, max: Int32, multiplier: int, n: nat)
    requires WellConfigured(initial, max, multiplier)
    ensures BackOffAfter(initial, max, multiplier, n) == ExpectedInterval(initial, max, multiplier, n)
  {
    if n > 0 {
      BackOffAfterIsExpected(initial, max, multiplier, n - 1);
      var a := initial * Pow(multiplier, n - 1);
      var c := BackOffAfter(initial, max, multiplier, n - 1);
      assert c == Min(a, max);
      PowAtLeastOne(multiplier, n - 1);
      MulMonotone(0, Pow(multiplier, n - 1), initial);
      BackOffAfterInRange(initial, max, multiplier, n - 1);
      MulGrows(c, multiplier);
      NextBackOffIsMin(c, multiplier, max);
      PowStep(initial, multiplier, n);
      CapCommutesWithScaling(a, multiplier, max);
    }
  }
}
