/** Text forms of values, as Python's str() and the repr of an int tuple write them. */
module Text {

  predicate IsDigit(c: char) {
    '0' <= c <= '9'
  }

  predicate AllDigits(s: string) {
    forall i :: 0 <= i < |s| ==> IsDigit(s[i])
  }

  function DigitValue(c: char): nat
    requires IsDigit(c)
  {
    c as int - '0' as int
  }

  function DigitChar(d: nat): (c: char)
    requires d < 10
    ensures IsDigit(c) && DigitValue(c) == d
  {
    ('0' as int + d) as char
  }

  /** The value of a string of decimal digits, most significant digit first. */
  function DigitsValue(s: string): nat
    requires AllDigits(s)
  {
    if |s| == 0 then 0 else DigitsValue(s[..|s| - 1]) * 10 + DigitValue(s[|s| - 1])
  }

  /** The decimal digits of n: never empty, and without leading zeros. */
  function NatToString(n: nat): (s: string)
    ensures |s| >= 1 && AllDigits(s)
    ensures s[0] == '0' <==> n == 0
    ensures n == 0 ==> s == "0"
    decreases n
  {
    if n < 10 then [DigitChar(n)] else NatToString(n / 10) + [DigitChar(n % 10)]
  }

  lemma {:induction false} NatToStringRoundTrip(n: nat)
    ensures DigitsValue(NatToString(n)) == n
    decreases n
  {
    if n >= 10 {
      var s := NatToString(n / 10);
      NatToStringRoundTrip(n / 10);
      assert NatToString(n) == s + [DigitChar(n % 10)];
      assert (s + [DigitChar(n % 10)])[..|s|] == s;
    }
  }

  /** A decimal integer literal: digits, optionally after one minus sign. */
  predicate IsDecimal(s: string) {
    (|s| >= 1 && AllDigits(s)) || (|s| >= 2 && s[0] == '-' && AllDigits(s[1..]))
  }

  function ParseInt(s: string): int
    requires IsDecimal(s)
  {
    if s[0] == '-' then -(DigitsValue(s[1..]) as int) else DigitsValue(s)
  }

  /** The text Python's str() gives an int: a decimal literal without leading zeros and
      without a negative zero. */
  predicate IsCanonicalDecimal(s: string) {
    IsDecimal(s) && (s[0] == '0' ==> s == "0") && (s[0] == '-' ==> s[1] != '0')
  }

  /** str(i) for a Python int. */
  function IntToString(i: int): (s: string)
    ensures IsCanonicalDecimal(s)
    ensures (s[0] == '-') <==> i < 0
  {
    if i < 0 then "-" + NatToString(-i) else NatToString(i)
  }

  lemma IntToStringRoundTrip(i: int)
    ensures ParseInt(IntToString(i)) == i
  {
    var s := IntToString(i);
    if i < 0 {
      assert s[1..] == NatToString(-i);
      NatToStringRoundTrip(-i);
    } else {
      NatToStringRoundTrip(i);
    }
  }

  /** Digits without a leading zero (other than "0" itself) are the digits of their value. */
  lemma {:induction false} CanonicalDigitsAreNatToString(s: string)
    requires |s| >= 1 && AllDigits(s) && (s[0] == '0' ==> s == "0")
    ensures s == NatToString(DigitsValue(s))
    decreases |s|
  {
    var k := |s| - 1;
    var p := s[..k];
    var d := DigitValue(s[k]);
    if k == 0 {
      assert DigitsValue(s) == DigitsValue(p) * 10 + d;
      assert p == [];
      assert DigitChar(d) == s[0];
    } else {
      assert p[0] == s[0];
      CanonicalDigitsAreNatToString(p);
      var v := DigitsValue(p);
      assert v != 0;
      var n := DigitsValue(s);
      assert n == v * 10 + d;
      assert n / 10 == v && n % 10 == d;
      assert DigitChar(d) == s[k];
      assert s == p + [s[k]];
    }
  }

  /** str() of an int is the only canonical decimal text with that value. */
  lemma IntToStringIsUnique(i: int, s: string)
    requires IsCanonicalDecimal(s) && ParseInt(s) == i
    ensures s == IntToString(i)
  {
    if s[0] == '-' {
      var t := s[1..];
      CanonicalDigitsAreNatToString(t);
      assert DigitsValue(t) != 0;
      assert s == "-" + t;
    } else {
      CanonicalDigitsAreNatToString(s);
    }
  }

  /** The values a filter comment can be given in the tests: a str or an int. */
  datatype PyValue = PyStr(text: string) | PyInt(number: int)

  /** Python's str(): a string is kept verbatim, an int becomes its decimal text. */
  function Str(v: PyValue): (s: string)
    ensures v.PyStr? ==> s == v.text
    ensures v.PyInt? ==> IsCanonicalDecimal(s) && ParseInt(s) == v.number
  {
    match v
    case PyStr(t) => t
    case PyInt(i) => IntToStringRoundTrip(i); IntToString(i)
  }

  lemma StrOfFiveHundred()
    ensures Str(PyInt(500)) == "500"
  {
    assert NatToString(5) == "5";
    assert NatToString(50) == "50";
    assert NatToString(500) == "500";
  }

  /** The comma-separated items of an int tuple, as repr() writes them. */
  function JoinInts(dims: seq<int>): string
  {
    if |dims| == 0 then ""
    else if |dims| == 1 then IntToString(dims[0])
    else IntToString(dims[0]) + ", " + JoinInts(dims[1..])
  }

  /** repr() of a tuple of ints: "()", "(6,)", "(3, 4)". */
  function TupleRepr(dims: seq<int>): (s: string)
    ensures |s| >= 2 && s[0] == '(' && s[|s| - 1] == ')'
    ensures |dims| == 1 ==> s[|s| - 2] == ','
  {
    if |dims| == 1 then "(" + IntToString(dims[0]) + ",)" else "(" + JoinInts(dims) + ")"
  }
}
