/**
  The exponential retry delay of the migration controller.

  Durations are 64-bit nanosecond counts, so the multiplication loop wraps.  The delay is
  first tied to the wrapped product for every input, and the documented formula is then
  shown to hold on exactly the products that `Undisturbed` describes.
 */
module RetryBackoff {
  import opened Common

  const TWO_63: int := 0x8000_0000_0000_0000
  const TWO_64: int := 0x1_0000_0000_0000_0000

  /** A Go `time.Duration`, in nanoseconds. */
  type Duration = d: int | -TWO_63 <= d < TWO_63

  const MINUTE: Duration := 60_000_000_000
  const MAX_DELAY: Duration := 30 * MINUTE
  const DEFAULT_BASE_DELAY: Duration := 5 * MINUTE
  const DEFAULT_MULTIPLIER: int := 2

  /** Two's-complement reduction to 64 bits. */
  function Wrap64(x: int): Duration {
    (x + TWO_63) % TWO_64 - TWO_63
  }

  function Pow(b: int, n: nat): int {
    if n == 0 then 1 else Pow(b, n - 1) * b
  }

  /** The delay over unbounded integers, before the cap. */
  function ExactDelay(base: int, multiplier: int, retryCount: int): int {
    base * Pow(multiplier, Max(0, retryCount))
  }

  /** What the loop computes: the product modulo 2^64, capped at thirty minutes. */
  function Delay(base: int, multiplier: int, retryCount: int): int {
    Min(MAX_DELAY, Wrap64(ExactDelay(base, multiplier, retryCount)))
  }

  lemma WrapShift(x: int, k: int)
    ensures Wrap64(x + k * TWO_64) == Wrap64(x)
  {
    var y := x + TWO_63;
    var q, r := y / TWO_64, y % TWO_64;
    assert y + k * TWO_64 == (q + k) * TWO_64 + r;
    QuotientRemainderUnique(y + k * TWO_64, q + k, r);
  }

  lemma QuotientRemainderUnique(z: int, q: int, r: int)
    requires z == q * TWO_64 + r && 0 <= r < TWO_64
    ensures z % TWO_64 == r
  {
    assert z == (z / TWO_64) * TWO_64 + z % TWO_64;
    assert (z / TWO_64 - q) * TWO_64 == r - z % TWO_64;
  }

  /** Wrapping after every multiplication is the same as wrapping once at the end. */
  lemma WrapProduct(a: int, b: int)
    ensures Wrap64(Wrap64(a) * b) == Wrap64(a * b)
  {
    var k := (a + TWO_63) / TWO_64;
    assert Wrap64(a) == a - k * TWO_64;
    assert Wrap64(a) * b == a * b + (-k * b) * TWO_64 by {
      assert (a - k * TWO_64) * b == a * b - k * TWO_64 * b;
      assert k * TWO_64 * b == (k * b) * TWO_64;
    }
    WrapShift(a * b, -k * b);
  }

  /** The delay loop of the Failed phase. */
  method ComputeDelay(base: Duration, multiplier: int, retryCount: int) returns (delay: Duration)
    ensures delay == Delay(base, multiplier, retryCount)
  {
    delay := base;
    var i := 0;
    assert base * 1 == base;
    while i < retryCount
      invariant 0 <= i <= Max(0, retryCount)
      invariant delay == Wrap64(base * Pow(multiplier, i))
    {
      WrapProduct(base * Pow(multiplier, i), multiplier);
      assert base * Pow(multiplier, i) * multiplier == base * Pow(multiplier, i + 1);
      delay := Wrap64(delay * multiplier);
      i := i + 1;
    }
    if delay > MAX_DELAY {
      delay := MAX_DELAY;
    }
  }

  /**
    The products that 64-bit arithmetic and the cap leave as documented: those that fit, and
    those too large to fit whose low 64 bits still stand for a delay beyond the cap.
   */
  predicate Undisturbed(product: int) {
    || -TWO_63 <= product < TWO_63
    || (product >= TWO_63 && MAX_DELAY <= product % TWO_64 < TWO_63)
  }

  lemma WrapByRemainder(x: int)
    ensures Wrap64(x) == if x % TWO_64 < TWO_63 then x % TWO_64 else x % TWO_64 - TWO_64
  {
    var q, r := x / TWO_64, x % TWO_64;
    if r < TWO_63 {
      QuotientRemainderUnique(x + TWO_63, q, r + TWO_63);
    } else {
      QuotientRemainderUnique(x + TWO_63, q + 1, r - TWO_63);
    }
  }

  /**
    The documented delay, base * multiplier^retryCount capped at thirty minutes, is what
    the loop yields if and only if the product is undisturbed.
   */
  lemma DelayIsExactIff(base: int, multiplier: int, retryCount: int)
    ensures Delay(base, multiplier, retryCount) == Min(MAX_DELAY, ExactDelay(base, multiplier, retryCount))
            <==> Undisturbed(ExactDelay(base, multiplier, retryCount))
  {
    var product := ExactDelay(base, multiplier, retryCount);
    if -TWO_63 <= product < TWO_63 {
      QuotientRemainderUnique(product + TWO_63, 0, product + TWO_63);
    } else {
      WrapByRemainder(product);
    }
  }

  lemma PowGrows(b: int, m: nat, n: nat)
    requires b >= 1 && m <= n
    ensures 1 <= Pow(b, m) <= Pow(b, n)
    decreases n
  {
    if n > 0 {
      if m < n {
        PowGrows(b, m, n - 1);
      } else {
        PowGrows(b, m - 1, n - 1);
      }
      ProductGrows(Pow(b, n - 1), b);
    }
  }

  lemma ProductGrows(a: int, b: int)
    requires a >= 1 && b >= 1
    ensures a * b >= a
  {
    assert a * b - a == a * (b - 1);
  }

  lemma ScaleOrder(base: int, p: int, q: int)
    requires base >= 0 && p <= q
    ensures base * p <= base * q
  {
    assert base * q - base * p == base * (q - p);
  }

  /** Below 2^63 the delay never shrinks from one retry to a later one. */
  lemma DelayMonotone(base: int, multiplier: int, earlier: nat, later: nat)
    requires base >= 0 && multiplier >= 1 && earlier <= later
    requires ExactDelay(base, multiplier, later) < TWO_63
    ensures 0 <= Delay(base, multiplier, earlier) <= Delay(base, multiplier, later)
  {
    PowGrows(multiplier, earlier, later);
    ScaleOrder(base, Pow(multiplier, earlier), Pow(multiplier, later));
    ScaleOrder(base, 0, Pow(multiplier, earlier));
    DelayIsExactIff(base, multiplier, earlier);
    DelayIsExactIff(base, multiplier, later);
  }

  /** With the default base and multiplier the formula is exact for every retry count the CRD admits. */
  lemma DefaultsAreExact(retryCount: nat)
    requires retryCount <= 10
    ensures Delay(DEFAULT_BASE_DELAY, DEFAULT_MULTIPLIER, retryCount)
            == Min(MAX_DELAY, ExactDelay(DEFAULT_BASE_DELAY, DEFAULT_MULTIPLIER, retryCount))
  {
    PowGrows(DEFAULT_MULTIPLIER, retryCount, 10);
    assert Pow(2, 5) == 32;
    assert Pow(2, 10) == 1024;
    ScaleOrder(DEFAULT_BASE_DELAY, Pow(DEFAULT_MULTIPLIER, retryCount), 1024);
    ScaleOrder(DEFAULT_BASE_DELAY, 0, Pow(DEFAULT_MULTIPLIER, retryCount));
    DelayIsExactIff(DEFAULT_BASE_DELAY, DEFAULT_MULTIPLIER, retryCount);
  }

  /**
    The CRD bounds do not imply it: at the default base, multiplier 10 and eight retries the
    product wraps to a negative delay, so the ninth attempt would not wait at all.
   */
  lemma CrdBoundsAllowNegativeDelay()
    ensures Delay(DEFAULT_BASE_DELAY, 10, 8) < 0 < MAX_DELAY < ExactDelay(DEFAULT_BASE_DELAY, 10, 8)
  {
    assert Pow(10, 4) == 10_000;
    assert Pow(10, 8) == 100_000_000;
    var exact := ExactDelay(DEFAULT_BASE_DELAY, 10, 8);
    assert exact == 30_000_000_000_000_000_000;
    QuotientRemainderUnique(exact + TWO_63, 2, exact + TWO_63 - 2 * TWO_64);
  }
}
