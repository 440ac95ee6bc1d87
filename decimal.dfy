/** Decimal text of integers: what Go's `%d` verb and a JavaScript template
    literal `${n}` produce for an integer, and the parse that reads it back. */
module Decimal {
  import opened Optional
  import Text

  predicate IsDigit(c: char) { '0' <= c <= '9' }

  predicate AllDigits(s: string) { forall i :: 0 <= i < |s| ==> IsDigit(s[i]) }

  function DigitChar(d: nat): (c: char)
    requires d < 10
    ensures IsDigit(c)
  {
    ('0' as int + d) as char
  }

  function DigitValue(c: char): (d: nat)
    requires IsDigit(c)
    ensures d < 10
  {
    c as int - '0' as int
  }

  /** Most significant digit first, no leading zeros. */
  function NatToString(n: nat): (s: string)
    ensures |s| >= 1 && AllDigits(s)
  {
    if n < 10 then [DigitChar(n)] else NatToString(n / 10) + [DigitChar(n % 10)]
  }

  /** A minus sign before the magnitude for negative numbers. */
  function IntToString(i: int): (s: string)
    ensures |s| >= 1
    ensures i >= 0 ==> AllDigits(s)
    ensures i < 0 ==> s[0] == '-' && AllDigits(s[1..])
  {
    if i < 0 then "-" + NatToString(-i) else NatToString(i)
  }

  function ParseDigits(s: string): nat
    requires |s| >= 1 && AllDigits(s)
  {
    if |s| == 1 then DigitValue(s[0])
    else ParseDigits(s[..|s| - 1]) * 10 + DigitValue(s[|s| - 1])
  }

  /** Reads an optional minus sign followed by at least one digit. */
  function ParseInt(s: string): Option<int>
  {
    if |s| >= 2 && s[0] == '-' && AllDigits(s[1..]) then
      var magnitude: int := ParseDigits(s[1..]);
      Some(-magnitude)
    else if |s| >= 1 && AllDigits(s) then Some(ParseDigits(s))
    else None
  }

  lemma {:induction false} NatRoundTrip(n: nat)
    ensures ParseDigits(NatToString(n)) == n
  {
    if n >= 10 {
      var s := NatToString(n);
      assert s[..|s| - 1] == NatToString(n / 10);
      NatRoundTrip(n / 10);
    }
  }

  /** The text of an integer holds digits and at most a minus sign. */
  lemma IntToStringChars(i: int, c: char)
    requires c in IntToString(i)
    ensures IsDigit(c) || c == '-'
  {
    var s := IntToString(i);
    var k :| 0 <= k < |s| && s[k] == c;
    if i < 0 && k > 0 {
      assert s[1..][k - 1] == c;
    }
  }

  /** Reading back the text of an integer gives the integer. */
  lemma IntRoundTrip(i: int)
    ensures ParseInt(IntToString(i)) == Some(i)
  {
    if i < 0 {
      assert IntToString(i)[1..] == NatToString(-i);
      NatRoundTrip(-i);
    } else {
      NatRoundTrip(i);
    }
  }

  /** Different integers have different texts. */
  lemma IntToStringInjective(i: int, j: int)
    requires IntToString(i) == IntToString(j)
    ensures i == j
  {
    IntRoundTrip(i);
    IntRoundTrip(j);
  }

  /** The text of an integer, followed by a separator that is not a digit
      (the minus sign itself included), can be read off unambiguously: equal
      strings of that shape have equal integers and equal remainders. */
  lemma IntTokenUnique(i: int, r: string, j: int, t: string, sep: char)
    requires !IsDigit(sep)
    requires IntToString(i) + [sep] + r == IntToString(j) + [sep] + t
    ensures i == j && r == t
  {
    var x, y := IntToString(i), IntToString(j);
    assert (x + [sep] + r)[0] == x[0];
    assert (y + [sep] + t)[0] == y[0];
    if i >= 0 && j >= 0 {
      assert sep !in x && sep !in y;
      Text.SplitAtSeparator(x, r, y, t, sep);
    } else if i < 0 && j < 0 {
      var x', y' := x[1..], y[1..];
      assert x == "-" + x' && y == "-" + y';
      assert x + [sep] + r == "-" + (x' + [sep] + r);
      assert y + [sep] + t == "-" + (y' + [sep] + t);
      assert x' + [sep] + r == (x + [sep] + r)[1..];
      assert y' + [sep] + t == (y + [sep] + t)[1..];
      assert sep !in x' && sep !in y';
      Text.SplitAtSeparator(x', r, y', t, sep);
      assert x == y;
    } else {
      assert false;
    }
    IntToStringInjective(i, j);
  }
}
