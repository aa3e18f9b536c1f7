/** The restart delay in the wrapping 64-bit arithmetic of time.Duration. */
module Backoff {

  const SECOND := 1_000_000_000
  const MAX_DELAY := 300 * SECOND
  const RESET_TIME := 600 * SECOND

  const TWO_63 := 0x8000_0000_0000_0000
  const TWO_64 := 0x1_0000_0000_0000_0000
  const TWO_31 := 0x8000_0000
  const TWO_32 := 0x1_0000_0000

  function Wrap64(x: int): (r: int)
    ensures -TWO_63 <= r < TWO_63
    ensures (x - r) % TWO_64 == 0
    ensures -TWO_63 <= x < TWO_63 ==> r == x
  {
    (x + TWO_63) % TWO_64 - TWO_63
  }

  function Wrap32(x: int): (r: int)
    ensures -TWO_31 <= r < TWO_31
    ensures (x - r) % TWO_32 == 0
    ensures -TWO_31 <= x < TWO_31 ==> r == x
  {
    (x + TWO_31) % TWO_32 - TWO_31
  }

  function Pow2(n: nat): nat {
    if n == 0 then 1 else 2 * Pow2(n - 1)
  }

  /**
   The floating-point power of two converted to an integer: a negative exponent truncates to zero,
   and from 2^63 on the result is up to the platform (outOfRange).
   */
  function PowDuration(n: int, outOfRange: int): int {
    if n < 0 then 0 else if n < 63 then Pow2(n) else outOfRange
  }

  function Delay(n: int, outOfRange: int): int {
    var d := Wrap64(PowDuration(n, outOfRange) * SECOND);
    if d >= MAX_DELAY then MAX_DELAY else d
  }

  /** The time a timer of that duration takes: a negative duration fires at once. */
  function TimerLength(n: int, outOfRange: int): nat {
    var d := Delay(n, outOfRange);
    if d < 0 then 0 else d
  }

  /** The documented delay: 1s, 2s, 4s, ... capped at five minutes. */
  function DocumentedDelay(n: nat): nat {
    if Pow2(n) >= 300 then MAX_DELAY else Pow2(n) * SECOND
  }

  lemma {:induction false} Pow2AtLeast(n: nat, k: nat)
    requires n >= k
    ensures Pow2(n) >= Pow2(k)
  {
    if n > k {
      Pow2AtLeast(n - 1, k);
    }
  }

  lemma Pow2Values()
    ensures Pow2(8) == 256 && Pow2(9) == 512
    ensures Pow2(33) == 8589934592 && Pow2(34) == 17179869184
  {
    assert Pow2(4) == 16;
    assert Pow2(8) == 256;
    assert Pow2(12) == 4096;
    assert Pow2(16) == 65536;
    assert Pow2(20) == 1048576;
    assert Pow2(24) == 16777216;
    assert Pow2(28) == 268435456;
    assert Pow2(32) == 4294967296;
  }

  /** While 2^n seconds fit in 64 bits the delay is the documented one. */
  lemma DelayAsDocumented(n: nat, outOfRange: int)
    requires n <= 33
    ensures Delay(n, outOfRange) == DocumentedDelay(n)
  {
    Pow2AtLeast(33, n);
    Pow2Values();
  }

  /** ... and there it never shrinks as restarts accumulate. */
  lemma DelayMonotone(m: nat, n: nat, outOfRange: int)
    requires m <= n <= 33
    ensures SECOND <= Delay(m, outOfRange) <= Delay(n, outOfRange) <= MAX_DELAY
  {
    DelayAsDocumented(m, outOfRange);
    DelayAsDocumented(n, outOfRange);
    Pow2AtLeast(n, m);
    Pow2AtLeast(m, 0);
  }

  lemma DelayAfterRestart(n: int, outOfRange: int)
    requires 1 <= n <= 33
    ensures Delay(n, outOfRange) == DocumentedDelay(n) >= 2 * SECOND
  {
    DelayAsDocumented(n, outOfRange);
    Pow2AtLeast(n, 1);
  }

  // ---------- beyond 64 bits ----------

  function WrappedNanos(n: nat): int {
    Wrap64(Pow2(n) * SECOND)
  }

  lemma WholeTurns(a: int, k: int)
    ensures (a + k * 0x1_0000_0000_0000_0000) % 0x1_0000_0000_0000_0000 == a % 0x1_0000_0000_0000_0000
  {
  }

  lemma WrapDouble(x: int)
    ensures Wrap64(2 * x) == Wrap64(2 * Wrap64(x))
  {
    var k := (x + 0x8000_0000_0000_0000) / 0x1_0000_0000_0000_0000;
    var w := x - k * 0x1_0000_0000_0000_0000;
    assert Wrap64(x) == w;
    WholeTurns(2 * w + 0x8000_0000_0000_0000, 2 * k);
  }

  lemma WrappedNext(n: nat)
    ensures WrappedNanos(n + 1) == Wrap64(2 * WrappedNanos(n))
  {
    WrapDouble(Pow2(n) * SECOND);
    assert Pow2(n + 1) * SECOND == 2 * (Pow2(n) * SECOND);
  }

  /** The restart counts from 34 on whose wrapped product happens to land at or above the cap. */
  const LUCKY: set<nat> := {37, 41, 42, 45, 47, 50, 51, 53}

  /** The wrapped products; from 55 on the product is a multiple of 2^64. */
  function WrappedTable(n: nat): int {
    match n
    case 34 => -1266874889709551616
    case 35 => -2533749779419103232
    case 36 => -5067499558838206464
    case 37 => 8311744956033138688
    case 38 => -1823254161643274240
    case 39 => -3646508323286548480
    case 40 => -7293016646573096960
    case 41 => 3860710780563357696
    case 42 => 7721421561126715392
    case 43 => -3003900951456120832
    case 44 => -6007801902912241664
    case 45 => 6431140267885068288
    case 46 => -5584463537939415040
    case 47 => 7277816997830721536
    case 48 => -3891110078048108544
    case 49 => -7782220156096217088
    case 50 => 2882303761517117440
    case 51 => 5764607523034234880
    case 52 => -6917529027641081856
    case 53 => 4611686018427387904
    case 54 => -9223372036854775808
    case _ => 0
  }

  lemma TableNext(n: nat)
    requires n >= 34
    ensures WrappedTable(n + 1) == Wrap64(2 * WrappedTable(n))
  {
  }

  lemma {:induction false} WrappedIsTable(n: nat)
    requires n >= 34
    ensures WrappedNanos(n) == WrappedTable(n)
  {
    if n == 34 {
      Pow2Values();
    } else {
      WrappedIsTable(n - 1);
      WrappedNext(n - 1);
      TableNext(n - 1);
    }
  }

  lemma TableLucky(n: nat)
    requires n >= 34
    ensures if n in LUCKY then WrappedTable(n) >= MAX_DELAY else WrappedTable(n) <= 0
  {
  }

  lemma DelayBeyond(n: nat, outOfRange: int)
    requires 34 <= n < 63
    ensures Delay(n, outOfRange) == if n in LUCKY then MAX_DELAY else WrappedNanos(n)
    ensures n !in LUCKY ==> WrappedNanos(n) <= 0
  {
    WrappedIsTable(n);
    TableLucky(n);
  }

  /**
   For every restart count the float conversion covers, exactly which ones get the documented delay.
   34 is the first that does not: its product wraps to a negative number, which passes under the cap
   and restarts at once.
   */
  lemma DelayDocumentedIff(n: nat, outOfRange: int)
    requires n < 63
    ensures Delay(n, outOfRange) == DocumentedDelay(n) <==> n <= 33 || n in LUCKY
    ensures n > 33 && n !in LUCKY ==> Delay(n, outOfRange) <= 0 && TimerLength(n, outOfRange) == 0
  {
    if n <= 33 {
      DelayAsDocumented(n, outOfRange);
    } else {
      Pow2Values();
      Pow2AtLeast(n, 33);
      DelayBeyond(n, outOfRange);
    }
  }

  /** Outside that range: a wrapped-around count does not wait, and from 63 on it is the platform's luck. */
  lemma DelayOutsideRange(n: int, outOfRange: int)
    ensures n < 0 ==> Delay(n, outOfRange) == 0
    ensures n >= 63 ==> (Delay(n, outOfRange) == DocumentedDelay(n) <==> Wrap64(outOfRange * SECOND) >= MAX_DELAY)
  {
    if n >= 63 {
      Pow2Values();
      Pow2AtLeast(n, 33);
    }
  }

  // ---------- accumulated waiting ----------

  /** The waiting of the first k timed-out backoffs of a run whose count starts at 0. */
  function TotalWait(k: nat, outOfRange: int): nat {
    if k == 0 then 0 else TotalWait(k - 1, outOfRange) + TimerLength(k - 1, outOfRange)
  }

  /** 2^k - 1 seconds while below the cap, then five minutes more per restart. */
  lemma {:induction false} TotalWaitClosedForm(k: nat, outOfRange: int)
    requires k <= 34
    ensures TotalWait(k, outOfRange) == SECOND * if k <= 9 then Pow2(k) - 1 else 511 + 300 * (k - 9)
  {
    Pow2Values();
    if k > 0 {
      TotalWaitClosedForm(k - 1, outOfRange);
      DelayAsDocumented(k - 1, outOfRange);
      if k <= 9 {
        Pow2AtLeast(8, k - 1);
      } else {
        Pow2AtLeast(k - 1, 9);
      }
    }
  }

  /** The 35th backoff of such a run adds no waiting at all. */
  lemma TotalWaitStalls(outOfRange: int)
    ensures TotalWait(35, outOfRange) == TotalWait(34, outOfRange) == 8011 * SECOND
  {
    TotalWaitClosedForm(34, outOfRange);
    DelayDocumentedIff(34, outOfRange);
  }
}
