/**
 * Decimal text of integers, as Swift's string interpolation writes an
 * `Int64` ("-" for negative values, no leading zeros), and the parser that
 * reads such text back.
 */
module Decimal {
  import opened Wrappers

  predicate IsDigit(c: char) {
    '0' <= c <= '9'
  }

  function DigitChar(d: nat): (c: char)
    requires d < 10
    ensures IsDigit(c) && c as int - '0' as int == d
  {
    ('0' as int + d) as char
  }

  function DigitValue(c: char): nat
    requires IsDigit(c)
  {
    c as int - '0' as int
  }

  predicate AllDigits(s: string) {
    forall i :: 0 <= i < |s| ==> IsDigit(s[i])
  }

  /** The digits of `n`, most significant first, without leading zeros. */
  function NatToDigits(n: nat): (s: string)
    ensures 1 <= |s| && AllDigits(s)
    ensures |s| > 1 ==> s[0] != '0'
    decreases n
  {
    if n < 10 then [DigitChar(n)] else NatToDigits(n / 10) + [DigitChar(n % 10)]
  }

  /** The value of a string of digits. */
  function DigitsToNat(s: string): nat
    requires AllDigits(s)
  {
    if s == [] then 0 else DigitsToNat(s[..|s| - 1]) * 10 + DigitValue(s[|s| - 1])
  }

  lemma {:induction false} DigitsRoundTrip(n: nat)
    ensures DigitsToNat(NatToDigits(n)) == n
    decreases n
  {
    if n >= 10 {
      var s := NatToDigits(n);
      assert s[..|s| - 1] == NatToDigits(n / 10);
      DigitsRoundTrip(n / 10);
    }
  }

  /** `"\(n)"` for an `Int64` value `n`. */
  function FromInt(n: int): (s: string)
    ensures forall i :: 0 <= i < |s| ==> s[i] == '-' || IsDigit(s[i])
  {
    if n < 0 then "-" + NatToDigits(-n) else NatToDigits(n)
  }

  /** Digit text as `NatToDigits` writes it: at least one digit, and no leading zero. */
  predicate Canonical(s: string) {
    1 <= |s| && AllDigits(s) && (|s| == 1 || s[0] != '0')
  }

  /**
   * Reads canonical decimal text: an optional minus sign followed by digits
   * without leading zeros; `-0` is not such text.
   */
  function ToInt(s: string): (r: Option<int>)
    ensures r.Some? <==> Canonical(s) || (|s| > 1 && s[0] == '-' && Canonical(s[1..]) && s[1..] != "0")
  {
    if |s| > 0 && s[0] == '-' then
      if Canonical(s[1..]) && s[1..] != "0" then Some(-(DigitsToNat(s[1..]) as int)) else None
    else if Canonical(s) then Some(DigitsToNat(s) as int)
    else None
  }

  /** The decimal text of an integer reads back as that integer. */
  lemma {:induction false} RoundTrip(n: int)
    ensures ToInt(FromInt(n)) == Some(n)
  {
    if n < 0 {
      var s := FromInt(n);
      assert s[1..] == NatToDigits(-n);
      DigitsRoundTrip(-n);
    } else {
      DigitsRoundTrip(n);
    }
  }

  /** A digit string with a non-zero first digit has a value of at least that digit. */
  lemma {:induction false} LeadingDigitBound(s: string)
    requires 1 <= |s| && AllDigits(s)
    ensures DigitsToNat(s) >= DigitValue(s[0])
  {
    if |s| > 1 {
      LeadingDigitBound(s[..|s| - 1]);
    }
  }

  /** Canonical digit text is the rendering of its own value. */
  lemma {:induction false} CanonicalDigits(s: string)
    requires Canonical(s)
    ensures NatToDigits(DigitsToNat(s)) == s
  {
    if |s| > 1 {
      var init := s[..|s| - 1];
      assert Canonical(init);
      LeadingDigitBound(init);
      CanonicalDigits(init);
      var n := DigitsToNat(s);
      assert n / 10 == DigitsToNat(init) && n % 10 == DigitValue(s[|s| - 1]);
      assert s == init + [s[|s| - 1]];
    }
  }

  /** Text that reads as an integer is exactly that integer's decimal text. */
  lemma ToIntCanonical(s: string)
    requires ToInt(s).Some?
    ensures FromInt(ToInt(s).value) == s
  {
    if s[0] == '-' {
      CanonicalDigits(s[1..]);
      assert s == "-" + s[1..];
    } else {
      CanonicalDigits(s);
    }
  }
}
