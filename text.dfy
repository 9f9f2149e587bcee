/** The few string operations of Qt that the core relies on: QString's
    ordering (code unit by code unit, a proper prefix first), QString::number
    for a non-negative count, and QString::arg with a field width of two and
    '0' as fill character. */
module Text {

  /** QString's `operator<`. */
  predicate LexLess(a: string, b: string)
  {
    if |a| == 0 then |b| > 0
    else if |b| == 0 then false
    else if a[0] != b[0] then a[0] < b[0]
    else LexLess(a[1..], b[1..])
  }

  lemma {:induction false} LexLessIrreflexive(a: string)
    ensures !LexLess(a, a)
  {
    if |a| > 0 {
      LexLessIrreflexive(a[1..]);
    }
  }

  lemma {:induction false} LexLessTransitive(a: string, b: string, c: string)
    requires LexLess(a, b) && LexLess(b, c)
    ensures LexLess(a, c)
  {
    if |a| > 0 && |b| > 0 && |c| > 0 && a[0] == b[0] && b[0] == c[0] {
      LexLessTransitive(a[1..], b[1..], c[1..]);
    }
  }

  /** Two different strings are always ordered one way or the other. */
  lemma {:induction false} LexLessTotal(a: string, b: string)
    requires a != b
    ensures LexLess(a, b) || LexLess(b, a)
  {
    if |a| > 0 && |b| > 0 && a[0] == b[0] {
      assert a == [a[0]] + a[1..] && b == [b[0]] + b[1..];
      LexLessTotal(a[1..], b[1..]);
    }
  }

  /** A common prefix does not change the order. */
  lemma {:induction false} LexLessCommonPrefix(p: string, a: string, b: string)
    ensures LexLess(p + a, p + b) == LexLess(a, b)
  {
    if |p| > 0 {
      assert (p + a)[1..] == p[1..] + a;
      assert (p + b)[1..] == p[1..] + b;
      LexLessCommonPrefix(p[1..], a, b);
    } else {
      assert p + a == a && p + b == b;
    }
  }

  /** Between two strings of equal length that differ, what follows them
      does not change the order. */
  lemma {:induction false} LexLessEqualLengthHead(a: string, b: string, s: string, t: string)
    requires |a| == |b| && LexLess(a, b)
    ensures LexLess(a + s, b + t)
  {
    assert |a| > 0;
    if a[0] == b[0] {
      assert (a + s)[1..] == a[1..] + s;
      assert (b + t)[1..] == b[1..] + t;
      LexLessEqualLengthHead(a[1..], b[1..], s, t);
    }
  }

  function DigitChar(d: nat): (c: char)
    requires d < 10
    ensures '0' <= c <= '9'
  {
    ['0', '1', '2', '3', '4', '5', '6', '7', '8', '9'][d]
  }

  function DigitValue(c: char): (d: nat)
    requires '0' <= c <= '9'
    ensures d < 10 && DigitChar(d) == c
  {
    if c == '0' then 0 else if c == '1' then 1 else if c == '2' then 2
    else if c == '3' then 3 else if c == '4' then 4 else if c == '5' then 5
    else if c == '6' then 6 else if c == '7' then 7 else if c == '8' then 8
    else 9
  }

  predicate IsDigits(s: string)
  {
    forall i :: 0 <= i < |s| ==> '0' <= s[i] <= '9'
  }

  /** The number a string of decimal digits stands for. */
  function DecimalValue(s: string): nat
    requires IsDigits(s)
  {
    if |s| == 0 then 0 else 10 * DecimalValue(s[..|s| - 1]) + DigitValue(s[|s| - 1])
  }

  /** QString::number(n) for a non-negative n: decimal digits, no leading zero. */
  function DecimalString(n: nat): (s: string)
    ensures |s| >= 1 && IsDigits(s)
    ensures |s| > 1 ==> s[0] != '0'
    ensures n < 10 <==> |s| == 1
  {
    if n < 10 then [DigitChar(n)] else DecimalString(n / 10) + [DigitChar(n % 10)]
  }

  /** Reading back the digits QString::number writes gives the number. */
  lemma {:induction false} DecimalRoundTrip(n: nat)
    ensures DecimalValue(DecimalString(n)) == n
  {
    var s := DecimalString(n);
    if n < 10 {
      assert s[..0] == [];
      DigitRoundTrip(n);
    } else {
      assert s[..|s| - 1] == DecimalString(n / 10);
      DecimalRoundTrip(n / 10);
      DigitRoundTrip(n % 10);
    }
  }

  /** Reading back a written digit gives the digit. */
  lemma DigitRoundTrip(d: nat)
    requires d < 10
    ensures DigitValue(DigitChar(d)) == d
  {
  }

  /** `QString("%1").arg(n, 2, 10, QChar('0'))`: at least two digits, padded
      on the left with '0'. */
  function Pad2(n: nat): (s: string)
    ensures |s| >= 2 && IsDigits(s)
    ensures n < 100 <==> |s| == 2
  {
    if n < 10 then ['0'] + DecimalString(n) else DecimalString(n)
  }

  lemma {:induction false} Pad2RoundTrip(n: nat)
    ensures DecimalValue(Pad2(n)) == n
  {
    DecimalRoundTrip(n);
    var s := Pad2(n);
    if n < 10 {
      assert s[..|s| - 1] == ['0'];
      assert ['0'][..0] == [];
    }
  }

  /** Below one hundred the padded number is its tens digit then its
      units digit. */
  lemma Pad2Digits(n: nat, tens: nat, units: nat)
    requires n < 100 && tens == n / 10 && units == n % 10
    ensures Pad2(n) == [DigitChar(tens), DigitChar(units)]
  {
    if n >= 10 {
      assert DecimalString(tens) == [DigitChar(tens)];
    }
  }

  /** Below one hundred, the two-digit numbering sorts like the numbers. */
  lemma {:induction false} Pad2Ordered(i: nat, j: nat)
    requires i < j < 100
    ensures LexLess(Pad2(i), Pad2(j))
  {
    var it, iu, jt, ju := i / 10, i % 10, j / 10, j % 10;
    Pad2Digits(i, it, iu);
    Pad2Digits(j, jt, ju);
    if it == jt {
      DigitOrder(iu, ju);
      var a, b := [DigitChar(it), DigitChar(iu)], [DigitChar(jt), DigitChar(ju)];
      assert a[1..] == [DigitChar(iu)] && b[1..] == [DigitChar(ju)];
    } else {
      DigitOrder(it, jt);
    }
  }

  lemma DigitOrder(d: nat, e: nat)
    requires d < e < 10
    ensures DigitChar(d) < DigitChar(e)
  {
  }
}
