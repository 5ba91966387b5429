/**
 * The little string machinery the add-on leans on: Python's zero-padded integer
 * formatting (`f"{i:04}"`), `int()` on such text, `str.startswith`, and Python's
 * ordering of `str` values (code point by code point, a proper prefix first),
 * which is what `sorted(..., key=lambda o: o.name)` and `max(names)` use.
 */
module Strings {
  import opened Wrappers

  predicate IsDigit(c: char) { '0' <= c <= '9' }

  predicate AllDigits(s: string) { forall i :: 0 <= i < |s| ==> IsDigit(s[i]) }

  /** The character of decimal digit `d`. */
  function DigitChar(d: nat): (c: char)
    requires d < 10
    ensures IsDigit(c) && c as int - '0' as int == d
  {
    (d + '0' as int) as char
  }

  /** The decimal numeral of `n`, without leading zeros. */
  function Digits(n: nat): (s: string)
    ensures 1 <= |s| && AllDigits(s)
    ensures n < 10 ==> |s| == 1
    ensures 10 <= n ==> 2 <= |s|
    decreases n
  {
    if n < 10 then [DigitChar(n)] else Digits(n / 10) + [DigitChar(n % 10)]
  }

  function Zeros(k: nat): (s: string)
    ensures |s| == k && forall i :: 0 <= i < k ==> s[i] == '0'
  {
    seq(k, _ => '0')
  }

  /**
   * Python's `format(i, "0<width>")`: the sign comes first, then zeros until
   * the text is `width` characters long; longer numerals are kept whole.
   */
  function ZeroPad(i: int, width: nat): (s: string)
    ensures i >= 0 ==> AllDigits(s) && |s| >= width
    ensures i >= 0 ==> |s| == if |Digits(i)| < width then width else |Digits(i)|
    ensures i < 0 ==> |s| > 0 && s[0] == '-'
  {
    if i >= 0 then
      var d := Digits(i);
      (if |d| < width then Zeros(width - |d|) else "") + d
    else
      var d := Digits(-i);
      "-" + (if |d| + 1 < width then Zeros(width - 1 - |d|) else "") + d
  }

  /** The value of a (possibly empty) string of decimal digits, read left to right. */
  function DigitsValue(s: string): nat
    requires AllDigits(s)
  {
    if s == [] then 0 else DigitsValue(s[..|s| - 1]) * 10 + (s[|s| - 1] as int - '0' as int)
  }

  /**
   * Python's `int(s)` on texts made of an optional minus sign and ASCII
   * digits, which it reads as the decimal number they spell; every other
   * text is read as not an integer. Python also accepts a leading `+`,
   * surrounding whitespace, `_` between digits and non-ASCII decimal digits.
   */
  function ParseInt(s: string): Option<int>
  {
    if |s| > 0 && AllDigits(s) then Some(DigitsValue(s) as int)
    else if |s| > 1 && s[0] == '-' && AllDigits(s[1..]) then Some(-(DigitsValue(s[1..]) as int))
    else None
  }

  /** Python's `s.startswith(p)`. */
  predicate StartsWith(s: string, p: string) { |p| <= |s| && s[..|p|] == p }

  /** Python's `a < b` on `str`. */
  predicate Less(a: string, b: string)
  {
    if a == [] then b != []
    else if b == [] then false
    else if a[0] != b[0] then a[0] < b[0]
    else Less(a[1..], b[1..])
  }

  /** Python's `a <= b` on `str`. */
  predicate LessEq(a: string, b: string) { a == b || Less(a, b) }

  lemma {:induction false} DigitsValueOfDigits(n: nat)
    ensures DigitsValue(Digits(n)) == n
    decreases n
  {
    if n >= 10 {
      var d := Digits(n / 10) + [DigitChar(n % 10)];
      assert d[..|d| - 1] == Digits(n / 10);
      DigitsValueOfDigits(n / 10);
    }
  }

  lemma {:induction false} DigitsValueZeros(k: nat, s: string)
    requires AllDigits(s)
    ensures AllDigits(Zeros(k) + s) && DigitsValue(Zeros(k) + s) == DigitsValue(s)
    decreases |s|
  {
    if s == [] {
      ZerosValue(k);
      assert Zeros(k) + s == Zeros(k);
    } else {
      var t := Zeros(k) + s;
      assert t[..|t| - 1] == Zeros(k) + s[..|s| - 1];
      DigitsValueZeros(k, s[..|s| - 1]);
    }
  }

  lemma {:induction false} ZerosValue(k: nat)
    ensures DigitsValue(Zeros(k)) == 0
  {
    if k > 0 {
      assert Zeros(k)[..k - 1] == Zeros(k - 1);
      ZerosValue(k - 1);
    }
  }

  /** `int(f"{i:0w}") == i`: the zero-padded numeral reads back as the number. */
  lemma ParseZeroPad(i: int, width: nat)
    ensures ParseInt(ZeroPad(i, width)) == Some(i)
  {
    if i >= 0 {
      var d := Digits(i);
      var k := if |d| < width then width - |d| else 0;
      assert ZeroPad(i, width) == Zeros(k) + d;
      ParsePadded(i, k);
    } else {
      var d := Digits(-i);
      var k := if |d| + 1 < width then width - 1 - |d| else 0;
      assert ZeroPad(i, width) == "-" + (Zeros(k) + d);
      ParseNegativePadded(-i, k);
    }
  }

  /** Leading zeros do not change the value a numeral reads back as. */
  lemma ParsePadded(n: nat, k: nat)
    ensures ParseInt(Zeros(k) + Digits(n)) == Some(n)
  {
    DigitsValueOfDigits(n);
    DigitsValueZeros(k, Digits(n));
  }

  /** A minus sign before a zero-padded numeral reads back as the negated number. */
  lemma ParseNegativePadded(n: nat, k: nat)
    requires n > 0
    ensures ParseInt("-" + (Zeros(k) + Digits(n))) == Some(-(n as int))
  {
    var s := "-" + (Zeros(k) + Digits(n));
    assert !IsDigit(s[0]);
    assert s[1..] == Zeros(k) + Digits(n);
    DigitsValueOfDigits(n);
    DigitsValueZeros(k, Digits(n));
  }

  lemma {:induction false} LessIrreflexive(a: string)
    ensures !Less(a, a)
  {
    if a != [] { LessIrreflexive(a[1..]); }
  }

  lemma {:induction false} LessAsymmetric(a: string, b: string)
    ensures !(Less(a, b) && Less(b, a))
  {
    if a != [] && b != [] && a[0] == b[0] { LessAsymmetric(a[1..], b[1..]); }
  }

  lemma {:induction false} LessTransitive(a: string, b: string, c: string)
    requires Less(a, b) && Less(b, c)
    ensures Less(a, c)
  {
    if a != [] && a[0] == b[0] && b[0] == c[0] {
      LessTransitive(a[1..], b[1..], c[1..]);
    }
  }

  lemma {:induction false} LessTotal(a: string, b: string)
    ensures a == b || Less(a, b) || Less(b, a)
  {
    if a != [] && b != [] && a[0] == b[0] {
      LessTotal(a[1..], b[1..]);
      if a[1..] == b[1..] {
        assert a == [a[0]] + a[1..] && b == [b[0]] + b[1..];
      }
    }
  }

  /** A common prefix does not change the order of two texts. */
  lemma {:induction false} LessCommonPrefix(p: string, a: string, b: string)
    ensures Less(p + a, p + b) <==> Less(a, b)
  {
    if p != [] {
      assert (p + a)[1..] == p[1..] + a;
      assert (p + b)[1..] == p[1..] + b;
      LessCommonPrefix(p[1..], a, b);
    } else {
      assert p + a == a && p + b == b;
    }
  }

  /** The four characters of `f"{n:04}"` for `0 <= n < 10000`. */
  lemma Pad4Shape(n: nat)
    requires n < 10000
    ensures ZeroPad(n, 4) == [DigitChar(n / 1000), DigitChar(n / 100 % 10), DigitChar(n / 10 % 10), DigitChar(n % 10)]
  {
    DivTens(n);
    var d := Digits(n);
    if n < 10 {
      assert ZeroPad(n, 4) == Zeros(3) + d;
    } else if n < 100 {
      assert d == Digits(n / 10) + [DigitChar(n % 10)];
      assert ZeroPad(n, 4) == Zeros(2) + d;
    } else if n < 1000 {
      assert Digits(n / 10) == Digits(n / 100) + [DigitChar(n / 10 % 10)];
      assert ZeroPad(n, 4) == Zeros(1) + d;
    } else {
      assert Digits(n / 100) == Digits(n / 1000) + [DigitChar(n / 100 % 10)];
      assert Digits(n / 10) == Digits(n / 100) + [DigitChar(n / 10 % 10)];
    }
  }

  /** Dividing by ten twice or three times is dividing by a hundred or a thousand. */
  lemma DivTens(n: nat)
    ensures n / 10 / 10 == n / 100 && n / 100 / 10 == n / 1000
    ensures n < 10000 ==> n / 1000 < 10
    ensures n < 1000 ==> n / 100 < 10
    ensures n < 100 ==> n / 10 < 10
  {
  }

  /** Python's order on two four-character texts is decided by the first differing character. */
  lemma Less4(x: string, y: string)
    requires |x| == 4 && |y| == 4
    ensures Less(x, y) <==>
      (x[0] < y[0]) ||
      (x[0] == y[0] && x[1] < y[1]) ||
      (x[0] == y[0] && x[1] == y[1] && x[2] < y[2]) ||
      (x[0] == y[0] && x[1] == y[1] && x[2] == y[2] && x[3] < y[3])
  {
    var x1, y1 := x[1..], y[1..];
    var x2, y2 := x1[1..], y1[1..];
    var x3, y3 := x2[1..], y2[1..];
    assert x3[1..] == [] && y3[1..] == [];
    assert Less(x3, y3) <==> x[3] < y[3];
    assert Less(x2, y2) <==> x[2] < y[2] || (x[2] == y[2] && Less(x3, y3));
    assert Less(x1, y1) <==> x[1] < y[1] || (x[1] == y[1] && Less(x2, y2));
    assert Less(x, y) <==> x[0] < y[0] || (x[0] == y[0] && Less(x1, y1));
  }

  /** Four decimal digits compare lexicographically exactly as the numbers they spell. */
  lemma DigitsLexOrder(a3: nat, a2: nat, a1: nat, a0: nat, b3: nat, b2: nat, b1: nat, b0: nat)
    requires a3 < 10 && a2 < 10 && a1 < 10 && a0 < 10 && b3 < 10 && b2 < 10 && b1 < 10 && b0 < 10
    ensures 1000 * a3 + 100 * a2 + 10 * a1 + a0 < 1000 * b3 + 100 * b2 + 10 * b1 + b0 <==>
      (a3 < b3) || (a3 == b3 && a2 < b2) || (a3 == b3 && a2 == b2 && a1 < b1) ||
      (a3 == b3 && a2 == b2 && a1 == b1 && a0 < b0)
  {
  }

  /**
   * For numbers below 10000, comparing the zero-padded numerals as text agrees
   * with comparing the numbers.
   */
  lemma Pad4Order(a: nat, b: nat)
    requires a < 10000 && b < 10000
    ensures Less(ZeroPad(a, 4), ZeroPad(b, 4)) <==> a < b
  {
    var a3, a2, a1, a0 := a / 1000, a / 100 % 10, a / 10 % 10, a % 10;
    var b3, b2, b1, b0 := b / 1000, b / 100 % 10, b / 10 % 10, b % 10;
    DecimalSplit(a);
    DecimalSplit(b);
    DigitsLexOrder(a3, a2, a1, a0, b3, b2, b1, b0);
    Pad4Less(a3, a2, a1, a0, b3, b2, b1, b0, ZeroPad(a, 4), ZeroPad(b, 4)) by {
      Pad4Shape(a);
      Pad4Shape(b);
    }
  }

  /** The decimal expansion of a number below 10000. */
  lemma DecimalSplit(a: nat)
    requires a < 10000
    ensures a / 1000 < 10
    ensures a == 1000 * (a / 1000) + 100 * (a / 100 % 10) + 10 * (a / 10 % 10) + a % 10
  {
    var q1 := a / 10;
    var q2 := q1 / 10;
    var q3 := q2 / 10;
    assert a == 10 * q1 + a % 10;
    assert q1 == 10 * q2 + q1 % 10;
    assert q2 == 10 * q3 + q2 % 10;
    assert q2 == a / 100;
    assert q3 == a / 1000;
  }

  lemma Pad4Less(a3: nat, a2: nat, a1: nat, a0: nat, b3: nat, b2: nat, b1: nat, b0: nat, x: string, y: string)
    requires a3 < 10 && a2 < 10 && a1 < 10 && a0 < 10 && b3 < 10 && b2 < 10 && b1 < 10 && b0 < 10
    requires x == [DigitChar(a3), DigitChar(a2), DigitChar(a1), DigitChar(a0)]
    requires y == [DigitChar(b3), DigitChar(b2), DigitChar(b1), DigitChar(b0)]
    ensures Less(x, y) <==>
      (a3 < b3) || (a3 == b3 && a2 < b2) || (a3 == b3 && a2 == b2 && a1 < b1) ||
      (a3 == b3 && a2 == b2 && a1 == b1 && a0 < b0)
  {
    Less4(x, y);
  }
}
