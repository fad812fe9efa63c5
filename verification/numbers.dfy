/** Exact rational stand-ins for the floating-point arithmetic of the
    pipeline: Python's `round` (half to even) and the fixed-point renderings
    `:.0f` and `:.1f` of a quotient `num / den`. */
module Numbers {
  import opened Strings

  function Abs(x: int): nat {
    if x < 0 then -x else x
  }

  lemma DivNonNegative(a: int, b: int)
    requires a >= 0 && b > 0
    ensures a / b >= 0
  {
  }

  lemma MulDistrib(den: int, a: int, b: int)
    ensures den * (a + b) == den * a + den * b
  {
  }

  /** The integer nearest to `num / den`, ties going to the even neighbour. */
  function RoundHalfEven(num: int, den: int): (r: int)
    requires den > 0
    ensures -den <= 2 * (num - den * r) <= den
    ensures 2 * (num - den * r) == den ==> r % 2 == 0
    ensures 2 * (num - den * r) == -den ==> r % 2 == 0
  {
    var q := num / den;
    var rem := num % den;
    assert num - den * q == rem;
    assert num - den * (q + 1) == rem - den by {
      MulDistrib(den, q, 1);
    }
    if 2 * rem < den then q
    else if 2 * rem > den then q + 1
    else if q % 2 == 0 then q
    else q + 1
  }

  lemma MulAtLeastTwice(den: int, k: int)
    requires den > 0 && k >= 2
    ensures den * k >= 2 * den
  {
    assert den * k == den * 2 + den * (k - 2) by {
      MulDistrib(den, 2, k - 2);
    }
    assert den * (k - 2) >= 0;
  }

  /** Half-to-even rounding is the only rounding within half a unit that
      sends ties to an even integer. */
  lemma RoundHalfEvenUnique(num: int, den: int, r: int)
    requires den > 0
    requires -den <= 2 * (num - den * r) <= den
    requires 2 * (num - den * r) == den ==> r % 2 == 0
    requires 2 * (num - den * r) == -den ==> r % 2 == 0
    ensures r == RoundHalfEven(num, den)
  {
    var r0 := RoundHalfEven(num, den);
    assert (num - den * r) - (num - den * r0) == den * (r0 - r) by {
      MulDistrib(den, r, r0 - r);
    }
    CloseRoundings(den, r, r0, num - den * r, num - den * r0);
  }

  /** Two roundings within half a unit of the same quotient, both sending
      ties to an even integer, are the same. */
  lemma CloseRoundings(den: int, r: int, r0: int, e: int, e0: int)
    requires den > 0
    requires -den <= 2 * e <= den && -den <= 2 * e0 <= den
    requires 2 * e == den ==> r % 2 == 0
    requires 2 * e == -den ==> r % 2 == 0
    requires 2 * e0 == den ==> r0 % 2 == 0
    requires 2 * e0 == -den ==> r0 % 2 == 0
    requires e - e0 == den * (r0 - r)
    ensures r == r0
  {
    var k := r0 - r;
    if k >= 2 {
      MulAtLeastTwice(den, k);
    } else if k <= -2 {
      assert e0 - e == den * -k;
      MulAtLeastTwice(den, -k);
    } else if k == 1 {
      NextParity(r);
    } else if k == -1 {
      NextParity(r0);
    }
  }

  lemma NextParity(r: int)
    ensures (r + 1) % 2 != r % 2
  {
  }

  lemma MulMonotone(a: int, b: int, c: int)
    requires a >= 0 && b <= c
    ensures a * b <= a * c
  {
    MulDistrib(a, b, c - b);
    assert a * (c - b) >= 0;
  }

  /** Rounding a quotient that lies between two integers stays between
      them. */
  lemma RoundInRange(num: int, den: int, lo: int, hi: int)
    requires den > 0
    requires den * lo <= num <= den * hi
    ensures lo <= RoundHalfEven(num, den) <= hi
  {
    var r := RoundHalfEven(num, den);
    if r < lo {
      MulMonotone(den, r, lo - 1);
      MulDistrib(den, lo, -1);
    } else if r > hi {
      MulMonotone(den, hi + 1, r);
      MulDistrib(den, hi, 1);
    }
  }

  /** An exact quotient rounds to itself. */
  lemma RoundExact(k: int, den: int)
    requires den > 0
    ensures RoundHalfEven(k * den, den) == k
  {
    RoundHalfEvenUnique(k * den, den, k);
  }

  /** Text of a non-negative count of tenths, e.g. 286 -> "28.6". */
  function TenthsText(t: nat): (r: string)
    ensures |r| >= 3 && r[|r| - 2] == '.'
  {
    NatToString(t / 10) + "." + [DigitChar(t % 10)]
  }

  /** Reading the digits of a tenths text back, ignoring the point. */
  function ParseTenths(s: string): int
    requires |s| >= 2
  {
    ParseDigits(s[..|s| - 2]) * 10 + DigitValue(s[|s| - 1])
  }

  lemma TenthsTextRoundTrip(t: nat)
    ensures ParseTenths(TenthsText(t)) == t
  {
    var s := TenthsText(t);
    assert s[..|s| - 2] == NatToString(t / 10);
    NatToStringRoundTrip(t / 10);
  }

  /** Python's `f"{num / den:.1f}"`. A negative quotient that rounds to zero
      keeps its sign, as in Python ("-0.0"). */
  function FormatTenths(num: int, den: int): (r: string)
    requires den > 0
    ensures num >= 0 ==> r == TenthsText(Abs(RoundHalfEven(10 * num, den)))
    ensures num < 0 ==> r == "-" + TenthsText(Abs(RoundHalfEven(10 * num, den)))
  {
    var t := RoundHalfEven(10 * num, den);
    (if num < 0 then "-" else "") + TenthsText(Abs(t))
  }

  /** Python's `f"{num / den:.0f}"`. */
  function FormatUnits(num: int, den: int): (r: string)
    requires den > 0
    ensures num >= 0 ==> r == NatToString(Abs(RoundHalfEven(num, den)))
    ensures num < 0 ==> r == "-" + NatToString(Abs(RoundHalfEven(num, den)))
  {
    var u := RoundHalfEven(num, den);
    (if num < 0 then "-" else "") + NatToString(Abs(u))
  }

  /** The digits of `:.1f` are the quotient rounded to tenths. */
  lemma FormatTenthsValue(num: int, den: int)
    requires den > 0 && num >= 0
    ensures ParseTenths(FormatTenths(num, den)) == RoundHalfEven(10 * num, den)
    ensures -den <= 2 * (10 * num - den * ParseTenths(FormatTenths(num, den))) <= den
  {
    var t := RoundHalfEven(10 * num, den);
    assert t >= 0;
    TenthsTextRoundTrip(t);
  }
}
