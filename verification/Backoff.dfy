/** The delay between delivery attempts: a 64-bit left shift that wraps, a cap, and equal jitter. */
module Backoff {
  import opened Numerals

  const TWO63: int := 0x8000_0000_0000_0000
  const TWO64: int := 0x1_0000_0000_0000_0000

  const MILLISECOND: int := 1_000_000
  const DEFAULT_BASE: int := 250 * MILLISECOND
  const DEFAULT_MAX: int := 5000 * MILLISECOND

  function Pow2(n: nat): (r: int)
    ensures r >= 1
  {
    Pow(2, n)
  }

  /** The signed 64-bit value congruent to x. */
  function Wrap(x: int): (r: int)
    ensures -TWO63 <= r < TWO63
    ensures (x - r) % TWO64 == 0
  {
    var m := x % TWO64;
    if m < TWO63 then m else m - TWO64
  }

  /** Shifting left by one at a time, dropping what leaves the word. */
  function ShiftLeft(base: int, n: nat): int {
    Wrap(base * Pow2(n))
  }

  /** The delay before jitter, as computed. */
  function Delay(base: int, max: int, attempt: nat): int {
    var d := ShiftLeft(base, attempt);
    if d <= 0 || d > max then max else d
  }

  /** The delay before jitter, as meant. */
  function Capped(base: int, max: int, attempt: nat): int {
    if base * Pow2(attempt) <= max then base * Pow2(attempt) else max
  }

  function Jittered(d: nat, rand: real): int
    requires 0.0 <= rand <= 1.0
  {
    var half := d / 2;
    half + (rand * half as real).Floor
  }

  lemma Pow2Adds(m: nat, n: nat)
    ensures Pow2(m + n) == Pow2(m) * Pow2(n)
  {
    PowAdds(2, m, n);
  }

  lemma Pow2Of16()
    ensures Pow2(16) == 0x1_0000
  {
    assert Pow2(2) == 4;
    Pow2Adds(2, 2);
    Pow2Adds(4, 4);
    Pow2Adds(8, 8);
  }

  lemma Pow2Of64()
    ensures Pow2(64) == TWO64
  {
    Pow2Of16();
    Pow2Adds(16, 16);
    Pow2Adds(32, 32);
  }

  /** Wrapping keeps every factor of two the shift put in, up to the width of the word. */
  lemma WrapKeepsFactor(base: int, n: nat)
    requires n <= 64
    ensures exists k :: ShiftLeft(base, n) == k * Pow2(n)
  {
    var x := base * Pow2(n);
    var q := (x - Wrap(x)) / TWO64;
    assert x - Wrap(x) == q * TWO64;
    Pow2Of64();
    Pow2Adds(64 - n, n);
    Regroup(base, q, Pow2(64 - n), Pow2(n), TWO64, Wrap(x));
  }

  lemma Regroup(base: int, q: int, p: int, t: int, word: int, w: int)
    requires word == p * t && base * t - w == q * word
    ensures w == (base - q * p) * t
  {
  }

  /** A whole word of shifting leaves nothing. */
  lemma LongShiftVanishes(base: int, n: nat)
    requires n >= 64
    ensures ShiftLeft(base, n) == 0
  {
    Pow2Of64();
    Pow2Adds(n - 64, 64);
    var q := base * Pow2(n - 64);
    assert base * Pow2(n) == q * TWO64;
    MultipleOfWord(q);
  }

  lemma MultipleOfWord(q: int)
    ensures Wrap(q * TWO64) == 0
  {
  }

  lemma FittingIsExact(x: int)
    requires 0 <= x
    ensures x < TWO63 ==> Wrap(x) == x
  {
  }

  /** A positive wrapped value within the cap forces 2^n within the cap, hence a product that fits. */
  lemma SmallMeansExact(base: int, max: int, n: nat)
    requires 0 < base && 0 < max && base * max < TWO63 && n < 64
    requires 0 < ShiftLeft(base, n) <= max
    ensures ShiftLeft(base, n) == base * Pow2(n)
  {
    WrapKeepsFactor(base, n);
    var k :| ShiftLeft(base, n) == k * Pow2(n);
    if k <= 0 { MulMonotone(k, 0, Pow2(n)); }
    assert k >= 1;
    MulMonotone(1, k, Pow2(n));
    assert Pow2(n) <= max;
    MulMonotone(Pow2(n), max, base);
    MulMonotone(0, Pow2(n), base);
  }

  lemma Pow2Monotone(m: nat, n: nat)
    requires m <= n
    ensures Pow2(m) <= Pow2(n)
  {
    Pow2Adds(m, n - m);
    MulMonotone(1, Pow2(n - m), Pow2(m));
  }

  /** The wrapping shift refines the capped doubling for every attempt number, whenever the base and the
      cap multiply to less than 2^63. */
  lemma ShiftRefinesCappedDoubling(base: int, max: int, attempt: nat)
    requires 0 < base && 0 < max && base * max < TWO63
    ensures Delay(base, max, attempt) == Capped(base, max, attempt)
  {
    var d := ShiftLeft(base, attempt);
    var p := base * Pow2(attempt);
    if attempt >= 64 {
      LongShiftVanishes(base, attempt);
      Pow2Of64();
      Pow2Monotone(64, attempt);
      MulMonotone(TWO64, Pow2(attempt), base);
      MulMonotone(1, base, max);
      assert max < TWO63 && TWO64 <= base * TWO64;
    } else if 0 < d <= max {
      SmallMeansExact(base, max, attempt);
    } else {
      MulMonotone(1, base, max);
      MulMonotone(1, Pow2(attempt), base);
      FittingIsExact(p);
    }
  }

  lemma DefaultsAreSafe()
    ensures 0 < DEFAULT_BASE && 0 < DEFAULT_MAX && DEFAULT_BASE * DEFAULT_MAX < TWO63
  {
  }

  /** In general the shift misses the capped doubling exactly when it wraps around into the open interval
      between zero and the cap. */
  lemma MissesExactlyWhenWrappedUnderCap(base: int, max: int, attempt: nat)
    requires 0 < base < TWO63 && 0 < max < TWO63
    ensures Delay(base, max, attempt) != Capped(base, max, attempt)
      <==> (base * Pow2(attempt) >= TWO63 && 0 < ShiftLeft(base, attempt) < max)
  {
  }

  /** Such a wrap-around exists: the delay falls back to four nanoseconds under a cap of five. */
  lemma WrapAroundUndercutsTheCap()
    ensures Delay(0x4000_0000_0000_0001, 5, 2) == 4 && Capped(0x4000_0000_0000_0001, 5, 2) == 5
  {
  }

  lemma ShareWithin(r: real, h: real)
    requires 0.0 <= r <= 1.0 && 0.0 <= h
    ensures 0.0 <= r * h <= h
  {
  }

  lemma SharesGrow(a: real, b: real, h: real)
    requires a <= b && 0.0 <= h
    ensures a * h <= b * h
  {
  }

  lemma FloorMonotone(x: real, y: real)
    requires x <= y
    ensures x.Floor <= y.Floor
  {
  }

  /** Equal jitter: never less than half the delay, never more than all of it. */
  lemma JitterBounds(d: nat, rand: real)
    requires 0.0 <= rand <= 1.0
    ensures d / 2 <= Jittered(d, rand) <= d
  {
    var h: nat := d / 2;
    ShareWithin(rand, h as real);
    FloorMonotone(0.0, rand * h as real);
    FloorMonotone(rand * h as real, h as real);
  }

  /** The share of the second half follows the random factor, from none of it to all. */
  lemma JitterEndpoints(d: nat, a: real, b: real)
    requires 0.0 <= a <= b <= 1.0
    ensures Jittered(d, 0.0) == d / 2 && Jittered(d, 1.0) == d / 2 + d / 2 && Jittered(d, a) <= Jittered(d, b)
  {
    var h := (d / 2) as real;
    SharesGrow(a, b, h);
    FloorMonotone(a * h, b * h);
    assert 0.0 * h == 0.0 && 1.0 * h == h;
  }

  /** Successive delays never shrink before jitter. */
  lemma DelaysGrow(base: int, max: int, m: nat, n: nat)
    requires 0 < base && 0 < max && base * max < TWO63 && m <= n
    ensures Delay(base, max, m) <= Delay(base, max, n) <= max
  {
    ShiftRefinesCappedDoubling(base, max, m);
    ShiftRefinesCappedDoubling(base, max, n);
    Pow2Monotone(m, n);
    MulMonotone(Pow2(m), Pow2(n), base);
  }
}
