/**
 * Decimal rendering of a natural number, as `${n}` renders a JavaScript
 * number that holds a small non-negative integer, and the inverse reading
 * of a run of decimal digits.
 */
module Decimal {

  predicate IsDigit(c: char) {
    '0' <= c <= '9'
  }

  predicate AllDigits(s: string) {
    forall i :: 0 <= i < |s| ==> IsDigit(s[i])
  }

  function DigitChar(d: nat): (c: char)
    requires d < 10
    ensures IsDigit(c)
  {
    (('0' as int) + d) as char
  }

  function DigitValue(c: char): (d: nat)
    requires IsDigit(c)
    ensures d < 10
  {
    c as int - '0' as int
  }

  /** The value of a run of decimal digits, most significant first. */
  function DigitsValue(s: string): nat
    requires AllDigits(s)
    decreases |s|
  {
    if s == [] then 0 else DigitsValue(s[..|s| - 1]) * 10 + DigitValue(s[|s| - 1])
  }

  /**
   * The shortest decimal numeral of `n`: only digits, no leading zero, and
   * reading it back gives `n`.
   */
  function NatToString(n: nat): (s: string)
    ensures |s| >= 1 && AllDigits(s)
    ensures s[0] == '0' ==> s == "0"
    ensures DigitsValue(s) == n
    decreases n
  {
    if n < 10 then
      [DigitChar(n)]
    else
      var init := NatToString(n / 10);
      var s := init + [DigitChar(n % 10)];
      assert s[..|s| - 1] == init;
      s
  }

  /** Two different numbers never render to the same text. */
  lemma NatToStringInjective(a: nat, b: nat)
    requires NatToString(a) == NatToString(b)
    ensures a == b
  {
  }

  /** A run of digits whose value is 0 holds only zeros. */
  lemma {:induction false} ZeroValueDigits(s: string)
    requires AllDigits(s) && DigitsValue(s) == 0
    ensures forall i :: 0 <= i < |s| ==> s[i] == '0'
    decreases |s|
  {
    if s != [] {
      var init := s[..|s| - 1];
      ZeroValueDigits(init);
      forall i | 0 <= i < |s| ensures s[i] == '0' {
        if i < |s| - 1 { assert s[i] == init[i]; }
      }
    }
  }

  /**
   * A non-empty run of digits without a leading zero is the numeral
   * `NatToString` gives for its value: the rendering has no other form.
   */
  lemma {:induction false} CanonicalNumeral(s: string)
    requires |s| >= 1 && AllDigits(s)
    requires |s| > 1 ==> s[0] != '0'
    ensures s == NatToString(DigitsValue(s))
    decreases |s|
  {
    var v := DigitsValue(s);
    var last := s[|s| - 1];
    if |s| == 1 {
      assert s[..|s| - 1] == [];
      assert DigitsValue(s[..|s| - 1]) == 0;
      assert v == DigitValue(last);
      assert DigitChar(v) == last;
    } else {
      var init := s[..|s| - 1];
      assert init[0] == s[0];
      CanonicalNumeral(init);
      var u := DigitsValue(init);
      if u == 0 {
        ZeroValueDigits(init);
        assert false;
      }
      assert v == u * 10 + DigitValue(last);
      assert v / 10 == u && v % 10 == DigitValue(last);
      assert DigitChar(v % 10) == last;
      assert s == init + [last];
    }
  }

  /** The number of decimal digits at the start of `s`. */
  function LeadingDigits(s: string): (k: nat)
    ensures k <= |s|
    ensures AllDigits(s[..k])
    ensures k < |s| ==> !IsDigit(s[k])
    decreases |s|
  {
    if s == [] || !IsDigit(s[0]) then 0
    else
      var k := 1 + LeadingDigits(s[1..]);
      assert s[..k] == [s[0]] + s[1..][..k - 1];
      k
  }

  /** A run of digits followed by a non-digit is read up to that non-digit. */
  lemma {:induction false} LeadingDigitsOfNumeral(d: string, t: string)
    requires AllDigits(d)
    requires t != [] && !IsDigit(t[0])
    ensures LeadingDigits(d + t) == |d|
    decreases |d|
  {
    var s := d + t;
    if d == [] {
      assert s == t;
    } else {
      assert s[0] == d[0] && IsDigit(s[0]);
      var tail := d[1..];
      assert AllDigits(tail) by {
        forall i | 0 <= i < |tail| ensures IsDigit(tail[i]) {
          assert tail[i] == d[i + 1];
        }
      }
      assert s[1..] == tail + t;
      LeadingDigitsOfNumeral(tail, t);
      assert LeadingDigits(s) == 1 + LeadingDigits(s[1..]);
    }
  }
}
