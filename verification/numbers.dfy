/**
 * Number conversions used by `cursor.py`: Python's `int(str)` and `float(str)`
 * on a field of text, `int(x)` on a float (truncation toward zero) and the
 * `&` bit test on an object type code.
 */
module Numbers {
  import opened Wrappers
  import opened Strings

  predicate IsDigit(c: char)
  {
    '0' <= c <= '9'
  }

  predicate AllDigits(d: string)
  {
    forall i :: 0 <= i < |d| ==> IsDigit(d[i])
  }

  /** The value of a string of decimal digits, most significant first. */
  function DigitsValue(d: string): nat
    requires AllDigits(d)
  {
    if |d| == 0 then 0 else DigitsValue(d[..|d| - 1]) * 10 + (d[|d| - 1] as int - '0' as int)
  }

  /** A non-empty run of decimal digits, or nothing. */
  function ParseDigits(d: string): Option<nat>
  {
    if |d| > 0 && AllDigits(d) then Some(DigitsValue(d)) else None
  }

  /**
   * Python's `int(s)`: surrounding whitespace, an optional sign, then one or
   * more ASCII digits. `None` stands for the `ValueError` Python raises.
   */
  function ParseInt(s: string): Option<int>
  {
    var t := Strip(s);
    if |t| > 0 && (t[0] == '+' || t[0] == '-') then
      match ParseDigits(t[1..])
      case None => None
      case Some(n) => var v: int := n; Some(if t[0] == '-' then -v else v)
    else
      match ParseDigits(t)
      case None => None
      case Some(n) => Some(n)
  }

  function DigitChar(d: nat): char
    requires d < 10
  {
    ('0' as int + d) as char
  }

  /** Python's `str(n)` for a natural number. */
  function NatToString(n: nat): (s: string)
    ensures |s| > 0 && AllDigits(s)
  {
    if n < 10 then [DigitChar(n)] else NatToString(n / 10) + [DigitChar(n % 10)]
  }

  /** Python's `str(n)` for an integer. */
  function IntToString(n: int): string
  {
    if n < 0 then "-" + NatToString(-n) else NatToString(n)
  }

  lemma {:induction false} DigitsValueOfNatToString(n: nat)
    ensures DigitsValue(NatToString(n)) == n
  {
    if n >= 10 {
      DigitsValueOfNatToString(n / 10);
      var s := NatToString(n);
      assert s[..|s| - 1] == NatToString(n / 10);
    }
  }

  /** `int(str(n)) == n`: the integer parser inverts the printer. */
  lemma ParseIntOfIntToString(n: int)
    ensures ParseInt(IntToString(n)) == Some(n)
  {
    var s := IntToString(n);
    var d := NatToString(if n < 0 then -n else n);
    DigitsValueOfNatToString(if n < 0 then -n else n);
    assert !IsSpace(d[0]) && !IsSpace(d[|d| - 1]);
    StripStripped(s);
    if n < 0 {
      assert s[1..] == d;
    }
  }

  function Pow10(n: nat): (r: real)
    ensures r >= 1.0
  {
    if n == 0 then 1.0 else 10.0 * Pow10(n - 1)
  }

  /** `10 ** e` for a possibly negative exponent. */
  function Scale10(e: int): real
  {
    if e >= 0 then Pow10(e) else 1.0 / Pow10(-e)
  }

  /** A float mantissa: `digits`, `digits.`, `.digits` or `digits.digits`. */
  function ParseMantissa(m: string): Option<real>
  {
    var pieces := Split(m, '.');
    if |pieces| == 1 then
      match ParseDigits(m)
      case None => None
      case Some(n) => Some(n as real)
    else if |pieces| == 2 && AllDigits(pieces[0]) && AllDigits(pieces[1]) && |pieces[0]| + |pieces[1]| > 0 then
      Some(DigitsValue(pieces[0]) as real + DigitsValue(pieces[1]) as real / Pow10(|pieces[1]|))
    else None
  }

  /** The exponent after `e`/`E`: an optional sign and one or more digits. */
  function ParseExponent(x: string): Option<int>
  {
    if |x| > 0 && (x[0] == '+' || x[0] == '-') then
      match ParseDigits(x[1..])
      case None => None
      case Some(n) => var v: int := n; Some(if x[0] == '-' then -v else v)
    else
      match ParseDigits(x)
      case None => None
      case Some(n) => Some(n)
  }

  function ParseUnsignedFloat(b: string): Option<real>
  {
    match Find(Lower(b), "e")
    case None => ParseMantissa(b)
    case Some(i) =>
      match (ParseMantissa(b[..i]), ParseExponent(b[i + 1..]))
      case (Some(m), Some(e)) => Some(m * Scale10(e))
      case _ => None
  }

  /**
   * Python's `float(s)` on decimal text: surrounding whitespace, an optional
   * sign, a mantissa and an optional exponent. `None` is the `ValueError`.
   */
  function ParseFloat(s: string): Option<real>
  {
    var t := Strip(s);
    if |t| > 0 && (t[0] == '+' || t[0] == '-') then
      match ParseUnsignedFloat(t[1..])
      case None => None
      case Some(v) => Some(if t[0] == '-' then -v else v)
    else ParseUnsignedFloat(t)
  }

  lemma NoExponentInDigits(d: string)
    requires AllDigits(d)
    ensures Find(Lower(d), "e").None?
  {
    var l := Lower(d);
    forall k ensures MatchAt(l, "e", k) <==> (0 <= k < |l| && l[k] == 'e') {
      MatchAtSingle(l, 'e', k);
    }
  }

  lemma NoPointInDigits(d: string)
    requires AllDigits(d)
    ensures Split(d, '.') == [d]
  {
    SplitNoSep(d, '.');
  }

  /** Whatever `int()` accepts, `float()` accepts too, with the same value. */
  lemma ParseFloatOfInt(s: string)
    requires ParseInt(s).Some?
    ensures ParseFloat(s) == Some(ParseInt(s).value as real)
  {
    var t := Strip(s);
    var d := if |t| > 0 && (t[0] == '+' || t[0] == '-') then t[1..] else t;
    assert ParseDigits(d).Some?;
    NoExponentInDigits(d);
    NoPointInDigits(d);
  }

  /** Python's `int(x)` on a float: truncation toward zero. */
  function Trunc(r: real): (n: int)
    ensures 0.0 <= r ==> n as real <= r < n as real + 1.0
    ensures r < 0.0 ==> n as real - 1.0 < r <= n as real
  {
    if r >= 0.0 then r.Floor else -((-r).Floor)
  }

  /** Truncation keeps the order of its arguments. */
  lemma TruncMonotone(a: real, b: real)
    requires a <= b
    ensures Trunc(a) <= Trunc(b)
  {
  }

  /** Truncation never moves a value away from zero. */
  lemma TruncTowardZero(r: real)
    ensures 0.0 <= r ==> 0 <= Trunc(r) && Trunc(r) as real <= r
    ensures r < 0.0 ==> r <= Trunc(r) as real && Trunc(r) <= 0
  {
  }

  function Pow2(k: nat): (r: nat)
    ensures r >= 1
  {
    if k == 0 then 1 else 2 * Pow2(k - 1)
  }

  /**
   * Python's `n & (1 << k) != 0` on an unbounded integer: bit `k` of `n`,
   * read by halving `k` times. Dafny's division by 2 rounds down like
   * Python's `>>`, so negative `n` gives the two's complement bits.
   */
  predicate HasBit(n: int, k: nat)
    decreases k
  {
    if k == 0 then n % 2 == 1 else HasBit(n / 2, k - 1)
  }

  /** The halving reading is the textbook one: bit `k` is the parity of `n` divided by 2 to the `k`. */
  lemma {:induction false} HasBitIsDivision(n: int, k: nat)
    ensures HasBit(n, k) <==> (n / Pow2(k)) % 2 == 1
    decreases k
  {
    if k > 0 {
      HasBitIsDivision(n / 2, k - 1);
      DivDiv(n, 2, Pow2(k - 1));
    }
  }

  /** Dividing twice by positive numbers is dividing once by their product. */
  lemma DivDiv(n: int, a: int, b: int)
    requires a > 0 && b > 0
    ensures n / a / b == n / (a * b)
  {
    var q, r := n / a, n % a;
    var q2, r2 := q / b, q % b;
    assert n == a * (b * q2 + r2) + r;
    MulRearrange(a, b, q2, r2);
    MulBelow(a, r2, b);
    DivUnique(n, a * b, q2, a * r2 + r);
  }

  lemma MulRearrange(a: int, b: int, q: int, r: int)
    ensures a * (b * q + r) == (a * b) * q + a * r
  {
  }

  /** `a * r` stays at least `a` below `a * b` when `r < b`. */
  lemma MulBelow(a: int, r: int, b: int)
    requires a > 0 && r < b
    ensures a * r <= a * b - a
  {
    var c := b - r;
    assert a * b - a * r == a * (c - 1) + a;
    MulNonNegative(a, c - 1);
  }

  lemma MulNonNegative(x: int, y: int)
    requires x >= 0 && y >= 0
    ensures x * y >= 0
  {
  }

  /** The quotient is the only one with a remainder in range. */
  lemma DivUnique(n: int, d: int, q: int, r: int)
    requires d > 0 && n == d * q + r && 0 <= r < d
    ensures n / d == q
  {
    var q0, r0 := n / d, n % d;
    assert d * (q0 - q) == r - r0;
    MultipleInRange(d, q0 - q, r - r0);
  }

  /** The only multiple of `d` strictly between `-d` and `d` is zero. */
  lemma MultipleInRange(d: int, m: int, e: int)
    requires d > 0 && d * m == e && -d < e < d
    ensures m == 0
  {
    if m >= 1 {
      MulBelow(d, 0, m);
      assert false;
    } else if m <= -1 {
      MulBelow(d, m, 0);
      assert false;
    }
  }
}
