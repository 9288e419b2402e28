/**
  The two integer conversions the handler relies on: parsing the raw
  `universeId` string into an integer (Python's `int(...)`, restricted to an
  optional sign followed by ASCII decimal digits) and writing an integer back
  out in canonical decimal form (what the f-string does when it builds the
  upstream URL).
*/
module Decimal {
  import opened Wrappers

  predicate IsDigit(c: char) {
    '0' <= c <= '9'
  }

  predicate AllDigits(s: string) {
    forall i :: 0 <= i < |s| ==> IsDigit(s[i])
  }

  function DigitValue(c: char): (d: nat)
    requires IsDigit(c)
    ensures d < 10
  {
    (c as int) - ('0' as int)
  }

  function DigitChar(d: nat): (c: char)
    requires d < 10
    ensures IsDigit(c) && DigitValue(c) == d
  {
    (('0' as int) + d) as char
  }

  /** The value of a string of decimal digits, most significant digit first ("" is 0). */
  function DigitsValue(s: string): nat
    requires AllDigits(s)
    decreases |s|
  {
    if s == [] then 0 else DigitsValue(s[..|s| - 1]) * 10 + DigitValue(s[|s| - 1])
  }

  /** Appending a digit multiplies the value by ten and adds the digit. */
  lemma DigitsValueAppend(s: string, c: char)
    requires AllDigits(s) && IsDigit(c)
    ensures AllDigits(s + [c]) && DigitsValue(s + [c]) == DigitsValue(s) * 10 + DigitValue(c)
  {
    assert (s + [c])[..|s|] == s;
  }

  /** Canonical decimal digits of a natural number: never empty, no leading zero. */
  function NatToDigits(n: nat): (s: string)
    ensures |s| > 0 && AllDigits(s)
    ensures DigitsValue(s) == n
    ensures s[0] == '0' ==> s == "0"
    decreases n
  {
    if n < 10 then [DigitChar(n)]
    else
      var front := NatToDigits(n / 10);
      var s := front + [DigitChar(n % 10)];
      assert s[..|s| - 1] == front;
      s
  }

  /** Decimal text of an integer, with a leading '-' for negatives (Python's `str(int)`). */
  function IntToString(n: int): (r: string)
    ensures |r| > 0 && (r[0] == '-' <==> n < 0)
    ensures var d := if n < 0 then r[1..] else r;
      |d| > 0 && AllDigits(d) && (d[0] == '0' ==> d == "0") && DigitsValue(d) == if n < 0 then -n else n
    ensures ParseInt(r) == Some(n)
  {
    if n < 0 then
      var digits := NatToDigits(-n);
      assert ("-" + digits)[1..] == digits;
      "-" + digits
    else NatToDigits(n)
  }

  /**
    Python's `int(s)` on a string, restricted to an optional '+' or '-'
    followed by one or more ASCII decimal digits; anything else is rejected
    (`int` raises ValueError), modelled as None.
  */
  function ParseInt(s: string): (r: Option<int>)
    ensures r.Some? ==> |s| > 0
    ensures r.Some? && r.value < 0 ==> s[0] == '-'
  {
    if |s| > 0 && (s[0] == '+' || s[0] == '-') then
      var digits := s[1..];
      if |digits| > 0 && AllDigits(digits) then
        var magnitude: int := DigitsValue(digits);
        Some(if s[0] == '-' then -magnitude else magnitude)
      else None
    else if |s| > 0 && AllDigits(s) then Some(DigitsValue(s))
    else None
  }

  /** An optional sign followed by any digit string, leading zeros included, is accepted. */
  lemma ParseIntAccepts(d: string)
    requires |d| > 0 && AllDigits(d)
    ensures ParseInt(d) == Some(DigitsValue(d))
    ensures ParseInt("+" + d) == Some(DigitsValue(d))
    ensures ParseInt("-" + d) == Some(-(DigitsValue(d) as int))
  {
    assert ("+" + d)[1..] == d;
    assert ("-" + d)[1..] == d;
  }

  /** Decimal text is injective: distinct integers are written differently. */
  lemma {:induction false} IntToStringInjective(a: int, b: int)
    requires IntToString(a) == IntToString(b)
    ensures a == b
  {
    assert Some(a) == ParseInt(IntToString(a)) == ParseInt(IntToString(b)) == Some(b);
  }

  /** A leading zero does not change the value of a digit string. */
  lemma {:induction false} LeadingZeroValue(s: string)
    requires AllDigits(s)
    ensures AllDigits("0" + s) && DigitsValue("0" + s) == DigitsValue(s)
    decreases |s|
  {
    var z := "0" + s;
    if s != [] {
      var front := s[..|s| - 1];
      assert z[..|z| - 1] == "0" + front;
      LeadingZeroValue(front);
    }
  }

  /** "0123" and "123" parse to the same integer, as do "+123" and "123". */
  lemma LeadingZeroParse(s: string)
    requires |s| > 0 && AllDigits(s)
    ensures ParseInt("0" + s) == ParseInt(s)
    ensures ParseInt("+" + s) == ParseInt(s)
  {
    LeadingZeroValue(s);
    assert ("+" + s)[1..] == s;
  }

  /**
    A character that is neither a digit nor a leading sign followed by more
    text makes the whole string unparseable.
  */
  lemma ParseIntRejectsStray(s: string, i: int)
    requires 0 <= i < |s| && !IsDigit(s[i])
    requires !(i == 0 && |s| > 1 && (s[0] == '+' || s[0] == '-'))
    ensures ParseInt(s) == None
  {
    if |s| > 0 && (s[0] == '+' || s[0] == '-') && i > 0 {
      assert s[1..][i - 1] == s[i];
    }
  }
}
