/** The reconnect delay in milliseconds, computed as the code does in 64-bit
    floating point, and the integer clamp it amounts to. */
module Backoff {
  // 2^53: every natural number up to it is a 64-bit float.
  const EXACT: nat := 0x20_0000_0000_0000
  const MAX_EXPONENT: nat := 1023

  function Pow2(n: nat): (p: nat)
    ensures p > 0
  {
    if n == 0 then 1 else 2 * Pow2(n - 1)
  }

  function Scale(q: nat, e: nat): nat
    decreases e
  {
    if e == 0 then q else Scale(2 * q, e - 1)
  }

  /** The float nearest q * 2^e + r, ties to even, where u is 2^e and r is less: halve
      until q fits the significand, then round by what was cut off. */
  function Rounded(q: nat, r: nat, u: nat, e: nat): nat
    decreases q
  {
    if q >= EXACT then Rounded(q / 2, if q % 2 == 0 then r else r + u, 2 * u, e + 1)
    else if 2 * r < u || (2 * r == u && q % 2 == 0) then Scale(q, e)
    else Scale(q + 1, e)
  }

  /** A natural number as the nearest 64-bit float. */
  function AsFloat(n: nat): nat {
    Rounded(n, 0, 1, 0)
  }

  datatype Float = Finite(value: nat) | Infinite

  /** powf(2.0, e) for a whole-number exponent. */
  function PowerOfTwo(e: nat): Float {
    if e > MAX_EXPONENT then Infinite else Finite(Pow2(e))
  }

  function AtMost(x: Float, bound: nat): nat {
    if x.Infinite? || bound < x.value then bound else x.value
  }

  function AtLeast(x: nat, bound: nat): nat {
    if x < bound then bound else x
  }

  const SKIP_COUNT: nat := 6

  function ReconnectFalloff(attempt: nat, minDelay: nat, maxDelay: nat): nat {
    var delay := PowerOfTwo(AsFloat(attempt + SKIP_COUNT));
    AtLeast(AtMost(delay, AsFloat(maxDelay)), AsFloat(minDelay))
  }

  // -------------------------------------------------------- the integer clamp

  function Clamp(x: nat, lo: nat, hi: nat): nat {
    if x < lo then lo else if x > hi then hi else x
  }

  lemma {:induction false} ScaleGrows(q: nat, e: nat)
    ensures Scale(q, e) >= q
    decreases e
  {
    if e > 0 {
      ScaleGrows(2 * q, e - 1);
    }
  }

  lemma {:induction false} LargeStaysLarge(q: nat, r: nat, u: nat, e: nat)
    requires q > MAX_EXPONENT
    ensures Rounded(q, r, u, e) > MAX_EXPONENT
    decreases q
  {
    if q >= EXACT {
      LargeStaysLarge(q / 2, if q % 2 == 0 then r else r + u, 2 * u, e + 1);
    } else {
      ScaleGrows(q, e);
      ScaleGrows(q + 1, e);
    }
  }

  lemma {:induction false} Pow2Monotone(a: nat, b: nat)
    requires a <= b
    ensures Pow2(a) <= Pow2(b)
    decreases b
  {
    if a < b {
      Pow2Monotone(a, b - 1);
    }
  }

  lemma HugePower(e: nat)
    requires e > MAX_EXPONENT
    ensures Pow2(e) >= EXACT
  {
    Pow2Monotone(53, e);
    PowerOfExact();
  }

  lemma PowerOfExact()
    ensures Pow2(53) == 0x20_0000_0000_0000
  {
    assert Pow2(13) == 0x2000;
    assert Pow2(23) == 0x80_0000;
    assert Pow2(33) == 0x2_0000_0000;
    assert Pow2(43) == 0x800_0000_0000;
  }

  /** Main result: for bounds a float holds exactly, the floating-point code is
      the integer clamp of 2^(attempt + 6), also where the power overflows. */
  lemma FalloffIsClamp(attempt: nat, minDelay: nat, maxDelay: nat)
    requires minDelay <= maxDelay <= EXACT
    ensures ReconnectFalloff(attempt, minDelay, maxDelay) == Clamp(Pow2(attempt + SKIP_COUNT), minDelay, maxDelay)
  {
    var e := attempt + SKIP_COUNT;
    if e > MAX_EXPONENT {
      LargeStaysLarge(e, 0, 1, 0);
      HugePower(e);
    }
  }

  /** Later attempts never wait less, whatever the bounds. */
  lemma FalloffMonotone(a: nat, b: nat, minDelay: nat, maxDelay: nat)
    requires a <= b
    ensures ReconnectFalloff(a, minDelay, maxDelay) <= ReconnectFalloff(b, minDelay, maxDelay)
  {
    var x, y := a + SKIP_COUNT, b + SKIP_COUNT;
    if y > MAX_EXPONENT {
      LargeStaysLarge(y, 0, 1, 0);
    } else {
      Pow2Monotone(x, y);
    }
  }

  // -------------------------------------- the delays the manager actually uses

  const MIN_DELAY: nat := 250
  const MAX_DELAY: nat := 10_000

  function Delay(attempt: nat): nat {
    ReconnectFalloff(attempt, MIN_DELAY, MAX_DELAY)
  }

  /** The total of the first n delays. */
  function TotalDelay(n: nat): nat {
    if n == 0 then 0 else TotalDelay(n - 1) + Delay(n - 1)
  }

  lemma DelayIsClamp(attempt: nat)
    ensures Delay(attempt) == Clamp(Pow2(attempt + SKIP_COUNT), MIN_DELAY, MAX_DELAY)
    ensures MIN_DELAY <= Delay(attempt) <= MAX_DELAY
    ensures attempt >= 8 ==> Delay(attempt) == MAX_DELAY
  {
    FalloffIsClamp(attempt, MIN_DELAY, MAX_DELAY);
    if attempt >= 8 {
      Pow2Monotone(14, attempt + SKIP_COUNT);
      assert Pow2(14) == 16384;
    }
  }

  /** Main result: the first eight delays total 16628 ms, each later one 10 s. */
  lemma {:induction false} TotalOfDelays(n: nat)
    requires n >= 8
    ensures TotalDelay(n) == 16_628 + MAX_DELAY * (n - 8)
  {
    if n == 8 {
      FirstTotal();
    } else {
      TotalOfDelays(n - 1);
      DelayIsClamp(n - 1);
    }
  }

  lemma FirstDelays()
    ensures Delay(0) == Delay(1) == 250 && Delay(2) == 256 && Delay(3) == 512
    ensures Delay(4) == 1024 && Delay(5) == 2048 && Delay(6) == 4096 && Delay(7) == 8192
  {
    forall k: nat | k < 8
      ensures Delay(k) == Clamp(Pow2(k + SKIP_COUNT), MIN_DELAY, MAX_DELAY)
    {
      DelayIsClamp(k);
    }
  }

  lemma FirstTotal()
    ensures TotalDelay(8) == 16_628
  {
    FirstDelays();
    AddFour(0);
    AddFour(4);
  }

  lemma AddFour(n: nat)
    ensures TotalDelay(n + 4) == TotalDelay(n) + Delay(n) + Delay(n + 1) + Delay(n + 2) + Delay(n + 3)
  {
    assert TotalDelay(n + 2) == TotalDelay(n) + Delay(n) + Delay(n + 1);
  }

}
