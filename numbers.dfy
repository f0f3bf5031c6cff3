/** C# `int` values, their decimal text (`int.ToString()` and
    `int.TryParse`) and C#'s truncating integer division. Formatting and
    parsing use the invariant culture's signs ('-' and '+'). */
module Numbers {
  import opened Wrappers
  import opened Text

  const Int32Min: int := -0x8000_0000
  const Int32Max: int := 0x7FFF_FFFF

  /** A C# `int`. */
  type Int32 = x: int | Int32Min <= x <= Int32Max

  predicate IsDigit(c: char) {
    '0' <= c <= '9'
  }

  predicate AllDigits(s: string) {
    forall i :: 0 <= i < |s| ==> IsDigit(s[i])
  }

  function DigitChar(d: nat): (c: char)
    requires d < 10
    ensures IsDigit(c) && c as int - '0' as int == d
  {
    ('0' as int + d) as char
  }

  /** The decimal text of `n`, without leading zeros. */
  function NatToString(n: nat): (s: string)
    ensures |s| >= 1 && AllDigits(s)
    ensures s[0] == '0' ==> n == 0
  {
    if n < 10 then [DigitChar(n)] else NatToString(n / 10) + [DigitChar(n % 10)]
  }

  /** `i.ToString()`: a '-' in front of negative numbers, digits otherwise. */
  function IntToString(i: int): (s: string)
    ensures |s| >= 1
    ensures i < 0 <==> s[0] == '-'
    ensures forall k :: 0 <= k < |s| ==> s[k] == '-' || IsDigit(s[k])
  {
    if i < 0 then "-" + NatToString(-i) else NatToString(i)
  }

  /** The value of a string of decimal digits. */
  function DigitsValue(s: string): nat
    requires AllDigits(s)
  {
    if s == [] then 0 else DigitsValue(s[..|s| - 1]) * 10 + (s[|s| - 1] as int - '0' as int)
  }

  lemma {:induction false} DigitsOfNat(n: nat)
    ensures DigitsValue(NatToString(n)) == n
  {
    if n >= 10 {
      DigitsOfNat(n / 10);
      var s := NatToString(n);
      assert s[..|s| - 1] == NatToString(n / 10);
    }
  }

  /** The white space `int.TryParse` skips before and after the number. */
  predicate IsNumberWhite(c: char) {
    c == ' ' || '\t' <= c <= '\r'
  }

  /** `int.TryParse(s, out v)` with the default `NumberStyles.Integer`:
      optional white space, an optional sign, at least one decimal digit,
      optional white space, and a value that fits in an `int`. */
  function ParseInt32(s: string): Option<Int32> {
    var t := TrimEndWhere(TrimStartWhere(s, IsNumberWhite), IsNumberWhite);
    var negative := t != [] && t[0] == '-';
    var digits := if t != [] && (t[0] == '-' || t[0] == '+') then t[1..] else t;
    if digits == [] || !AllDigits(digits) then None
    else
      var magnitude: int := DigitsValue(digits);
      var v := if negative then -magnitude else magnitude;
      if Int32Min <= v <= Int32Max then Some(v) else None
  }

  /** Parsing the text `int.ToString()` produces gives the number back. */
  lemma ParseFormatRoundTrip(i: Int32)
    ensures ParseInt32(IntToString(i)) == Some(i)
  {
    if i < 0 {
      ParseNegative(-(i as int));
    } else {
      ParseNonNegative(i);
    }
  }

  lemma ParseNonNegative(n: nat)
    requires n <= Int32Max
    ensures ParseInt32(NatToString(n)) == Some(n)
  {
    DigitsOfNat(n);
    ParseDigits(NatToString(n));
  }

  lemma ParseNegative(n: nat)
    requires 0 < n <= -Int32Min
    ensures ParseInt32("-" + NatToString(n)) == Some(-(n as int))
  {
    DigitsOfNat(n);
    ParseMinusDigits(NatToString(n), n);
  }

  /** A string of digits whose value fits parses to that value. */
  lemma ParseDigits(s: string)
    requires s != [] && AllDigits(s) && DigitsValue(s) <= Int32Max
    ensures ParseInt32(s) == Some(DigitsValue(s))
  {
    NothingToTrim(s);
    assert IsDigit(s[0]);
  }

  /** A '-' and a string of digits of value `n` parse to `-n` when that
      fits. */
  lemma ParseMinusDigits(s: string, n: nat)
    requires s != [] && AllDigits(s) && DigitsValue(s) == n && n <= -Int32Min
    ensures ParseInt32("-" + s) == Some(-(n as int))
  {
    var t := "-" + s;
    assert forall k :: 1 <= k < |t| ==> t[k] == s[k - 1];
    NothingToTrim(t);
    assert TrimEndWhere(TrimStartWhere(t, IsNumberWhite), IsNumberWhite) == t;
    assert t[0] == '-' && t[1..] == s;
  }

  /** A text of signs and digits has no white space to skip. */
  lemma NothingToTrim(s: string)
    requires forall k :: 0 <= k < |s| ==> s[k] == '-' || IsDigit(s[k])
    ensures TrimStartWhere(s, IsNumberWhite) == s
    ensures TrimEndWhere(s, IsNumberWhite) == s
  {
    if s != [] {
      assert !IsNumberWhite(s[0]);
      assert !IsNumberWhite(s[|s| - 1]);
    }
  }

  /** C#'s `/` on integers: the quotient truncated toward zero. */
  function CsDiv(a: int, b: int): (q: int)
    requires b != 0
    ensures a >= 0 && b > 0 ==> q == a / b
    ensures a < 0 && b > 0 ==> q == -((-a) / b)
  {
    var m := CsAbs(a) / CsAbs(b);
    if (a >= 0) == (b > 0) then m else -m
  }

  lemma MulMonotone(a: int, b: int, c: int)
    requires a <= b && c >= 0
    ensures a * c <= b * c
  {
  }

  lemma MulCancel(x: int, y: int, m: int)
    requires m > 0 && x * m < y * m
    ensures x < y
  {
    if y <= x {
      MulMonotone(y, x, m);
    }
  }

  lemma MulSucc(a: int, k: int)
    ensures (a + 1) * k == a * k + k
  {
  }

  lemma MulComm(a: int, b: int)
    ensures a * b == b * a
  {
  }

  /** Scaling by a positive `k` keeps `a` below `m`. */
  lemma ProductBelow(a: int, m: int, k: int)
    requires 0 <= a < m && k > 0
    ensures 0 <= a * k < m * k
  {
    MulMonotone(0, a, k);
    MulMonotone(a + 1, m, k);
    MulSucc(a, k);
  }

  /** A dividend below `m * k` has a quotient below `k`. */
  lemma QuotientLess(n: int, m: int, k: int)
    requires 0 <= n < m * k && m > 0
    ensures 0 <= n / m < k
  {
    assert (n / m) * m <= n;
    MulComm(m, k);
    MulCancel(n / m, k, m);
  }

  /** Division by a positive number keeps the order of non-negative numbers. */
  lemma DivMonotone(x: int, y: int, d: int)
    requires 0 <= x <= y && d > 0
    ensures x / d <= y / d
  {
    var qx, qy := x / d, y / d;
    assert qx * d <= x;
    assert y < (qy + 1) * d;
    MulCancel(qx, qy + 1, d);
  }

  function CsAbs(a: int): nat {
    if a < 0 then -a else a
  }
}
