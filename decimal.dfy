/** Decimal digit strings: the amount field and record ids are written in decimal. */
module Decimal {

  predicate IsDigit(c: char) {
    '0' <= c <= '9'
  }

  predicate IsDigits(s: string) {
    forall i :: 0 <= i < |s| ==> IsDigit(s[i])
  }

  function DigitValue(c: char): nat
    requires IsDigit(c)
  {
    c as int - '0' as int
  }

  function DigitChar(d: nat): (c: char)
    requires d < 10
    ensures IsDigit(c) && DigitValue(c) == d
  {
    ('0' as int + d) as char
  }

  /** The number a digit string denotes, most significant digit first (the empty string denotes 0). */
  function Value(s: string): nat
    requires IsDigits(s)
  {
    if s == [] then 0 else Value(s[..|s| - 1]) * 10 + DigitValue(s[|s| - 1])
  }

  /** The digits of `s`, in order, with every other character dropped. */
  function DigitsOf(s: string): (r: string)
    ensures IsDigits(r)
    ensures |r| <= |s|
    ensures forall c :: c in r <==> c in s && IsDigit(c)
    ensures r == s <==> IsDigits(s)
    ensures |s| == 1 ==> r == if IsDigit(s[0]) then s else []
  {
    if s == [] then []
    else
      var rest := DigitsOf(s[1..]);
      assert s == [s[0]] + s[1..];
      if IsDigit(s[0]) then [s[0]] + rest else rest
  }

  /** Filtering distributes over concatenation, so the digits keep their order and multiplicity. */
  lemma {:induction false} DigitsOfAppend(a: string, b: string)
    ensures DigitsOf(a + b) == DigitsOf(a) + DigitsOf(b)
  {
    if a == [] {
      assert a + b == b;
    } else {
      assert (a + b)[0] == a[0] && (a + b)[1..] == a[1..] + b;
      DigitsOfAppend(a[1..], b);
    }
  }

  /** A separator after a leading digit is dropped and the digits close up. */
  lemma DropSeparator(d: char, sep: char, t: string)
    requires IsDigit(d) && !IsDigit(sep) && IsDigits(t)
    ensures !IsDigits([d, sep] + t)
    ensures DigitsOf([d, sep] + t) == [d] + t
  {
    var s := [d, sep] + t;
    assert s[1] == sep;
    assert s[1..] == [sep] + t && s[1..][1..] == t;
  }

  /** The canonical decimal spelling of `n` (no leading zeros). */
  function FromNat(n: nat): (s: string)
    ensures IsDigits(s) && |s| > 0
    ensures Value(s) == n
  {
    if n < 10 then [DigitChar(n)]
    else
      var t := FromNat(n / 10);
      var s := t + [DigitChar(n % 10)];
      assert s[..|s| - 1] == t;
      s
  }
}
