/** Decimal integer parsing as Go's `strconv.Atoi` does it on a 64-bit
    platform, with the canonical decimal spelling of a natural number as its
    partner. */
module StrConv {
  import opened Wrappers

  const MAX_INT: int := 0x7FFF_FFFF_FFFF_FFFF
  const MIN_INT: int := -0x8000_0000_0000_0000

  predicate IsDigit(c: char) {
    '0' <= c <= '9'
  }

  predicate AllDigits(s: string) {
    forall i | 0 <= i < |s| :: IsDigit(s[i])
  }

  function DigitValue(c: char): (d: nat)
    requires IsDigit(c)
    ensures d < 10
  {
    c as int - '0' as int
  }

  function DigitChar(d: nat): (c: char)
    requires d < 10
    ensures IsDigit(c) && DigitValue(c) == d
  {
    ('0' as int + d) as char
  }

  /** The number a string of decimal digits denotes, most significant digit first. */
  function DigitsValue(s: string): nat
    requires AllDigits(s)
  {
    if s == [] then 0 else 10 * DigitsValue(s[..|s| - 1]) + DigitValue(s[|s| - 1])
  }

  /** A spelling without superfluous leading zeros. */
  predicate Canonical(s: string) {
    |s| > 0 && AllDigits(s) && (s[0] == '0' ==> |s| == 1)
  }

  /** The decimal spelling of a natural number. */
  function FormatNat(n: nat): (s: string)
    ensures Canonical(s)
    ensures s[0] == '0' <==> n == 0
  {
    if n < 10 then [DigitChar(n)] else FormatNat(n / 10) + [DigitChar(n % 10)]
  }

  /** `strconv.Atoi`: an optional '+' or '-', then one or more decimal digits,
      denoting a value that fits in a 64-bit signed integer; anything else is
      a syntax or range error (None). */
  function Atoi(s: string): (r: Option<int>)
    ensures r.Some? ==> MIN_INT <= r.value <= MAX_INT
    ensures r.Some? ==> |s| > 0
    ensures r.Some? ==> AllDigits(s) || (|s| > 1 && (s[0] == '+' || s[0] == '-') && AllDigits(s[1..]))
    ensures r.Some? && AllDigits(s) ==> r.value == DigitsValue(s)
    ensures r.Some? && |s| > 1 && s[0] == '-' && AllDigits(s[1..]) ==> r.value == -(DigitsValue(s[1..]) as int)
    ensures r.Some? && |s| > 1 && s[0] == '+' && AllDigits(s[1..]) ==> r.value == DigitsValue(s[1..])
  {
    var signed := |s| > 0 && (s[0] == '+' || s[0] == '-');
    var digits := if signed then s[1..] else s;
    if |digits| == 0 || !AllDigits(digits) then None
    else
      var magnitude: int := DigitsValue(digits);
      var v := if signed && s[0] == '-' then -magnitude else magnitude;
      if MIN_INT <= v <= MAX_INT then Some(v) else None
  }

  predicate ParsesAsInt(s: string) {
    Atoi(s).Some?
  }

  /** Reading back a number's spelling gives the number. */
  lemma {:induction false} DigitsValueOfFormatNat(n: nat)
    ensures DigitsValue(FormatNat(n)) == n
  {
    var s := FormatNat(n);
    if n >= 10 {
      assert s[..|s| - 1] == FormatNat(n / 10);
      DigitsValueOfFormatNat(n / 10);
    }
  }

  /** A canonical spelling has a nonzero value unless it is "0". */
  lemma {:induction false} CanonicalValuePositive(s: string)
    requires Canonical(s) && s[0] != '0'
    ensures DigitsValue(s) >= 1
  {
    if |s| > 1 {
      var t := s[..|s| - 1];
      assert t[0] == s[0];
      CanonicalValuePositive(t);
    }
  }

  /** Spelling the value of a canonical digit string gives the string back. */
  lemma {:induction false} FormatNatOfDigitsValue(s: string)
    requires Canonical(s)
    ensures FormatNat(DigitsValue(s)) == s
  {
    var last := s[|s| - 1];
    if |s| == 1 {
      assert DigitChar(DigitValue(last)) == last;
      assert s == [last];
    } else {
      var t := s[..|s| - 1];
      assert t[0] == s[0];
      assert s[0] != '0';
      CanonicalValuePositive(t);
      FormatNatOfDigitsValue(t);
      var v := DigitsValue(s);
      assert v / 10 == DigitsValue(t) && v % 10 == DigitValue(last);
      assert DigitChar(DigitValue(last)) == last;
      assert s == t + [last];
    }
  }

  /** A string of digits parses to its value exactly when that value is in range. */
  lemma AtoiOfDigits(s: string)
    requires |s| > 0 && AllDigits(s)
    ensures Atoi(s) == if DigitsValue(s) <= MAX_INT then Some(DigitsValue(s)) else None
  {
  }

  /** Round trip: every non-negative int64 parses back from its decimal spelling. */
  lemma AtoiOfFormatNat(n: nat)
    requires n <= MAX_INT
    ensures Atoi(FormatNat(n)) == Some(n)
  {
    DigitsValueOfFormatNat(n);
    AtoiOfDigits(FormatNat(n));
  }

  /** Round trip for negatives: "-" followed by a spelling parses to its
      negation, down to the most negative int64. */
  lemma AtoiOfNegated(n: nat)
    requires n <= -MIN_INT
    ensures Atoi("-" + FormatNat(n)) == Some(-(n as int))
  {
    var s := "-" + FormatNat(n);
    assert s[1..] == FormatNat(n);
    DigitsValueOfFormatNat(n);
  }

  /** A leading '+' is accepted and changes nothing. */
  lemma AtoiPlusSign(s: string)
    requires |s| > 0 && AllDigits(s)
    ensures Atoi("+" + s) == Atoi(s)
  {
    assert ("+" + s)[1..] == s;
  }
}
