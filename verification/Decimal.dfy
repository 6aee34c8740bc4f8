/** strconv.Atoi and strconv.ParseInt(_, 10, 64) on 64-bit integers, and decimal formatting. */
module Decimal {
  import opened Wrappers

  const MIN_INT64: int := -0x8000_0000_0000_0000
  const MAX_INT64: int := 0x7FFF_FFFF_FFFF_FFFF

  predicate IsDigit(c: char) {
    '0' <= c <= '9'
  }

  predicate AllDigits(s: string) {
    s != "" && forall i :: 0 <= i < |s| ==> IsDigit(s[i])
  }

  function DigitsValue(s: string): nat
    requires forall i :: 0 <= i < |s| ==> IsDigit(s[i])
  {
    if s == "" then 0
    else
      assert IsDigit(s[|s| - 1]);
      DigitsValue(s[..|s| - 1]) * 10 + (s[|s| - 1] as int - '0' as int)
  }

  predicate InRange(n: int) {
    MIN_INT64 <= n <= MAX_INT64
  }

  /** An optional sign and at least one digit, within range. */
  function ParseInt(s: string): (r: Option<int>)
    ensures r.Some? ==> InRange(r.value)
  {
    var signed := s != "" && (s[0] == '-' || s[0] == '+');
    var digits := if signed then s[1..] else s;
    if !AllDigits(digits) then None
    else
      var n: int := if signed && s[0] == '-' then -(DigitsValue(digits) as int) else DigitsValue(digits);
      if InRange(n) then Some(n) else None
  }

  function FormatNat(n: nat): (s: string)
    ensures AllDigits(s) && DigitsValue(s) == n
  {
    var last := ['0' + (n % 10) as char];
    if n < 10 then last
    else
      var s := FormatNat(n / 10) + last;
      assert s[..|s| - 1] == FormatNat(n / 10);
      s
  }

  function FormatInt(n: int): string {
    if n < 0 then "-" + FormatNat(-n) else FormatNat(n)
  }

  /** Formatting and parsing round-trip exactly on the 64-bit integers. */
  lemma ParseFormatted(n: int)
    ensures ParseInt(FormatInt(n)) == if InRange(n) then Some(n) else None
  {
    if n < 0 {
      assert FormatInt(n)[1..] == FormatNat(-n);
    } else {
      assert IsDigit(FormatNat(n)[0]);
    }
  }

  // What a numeral means, by the place of each digit.

  function DigitOf(c: char): nat {
    match c
    case '1' => 1 case '2' => 2 case '3' => 3 case '4' => 4 case '5' => 5
    case '6' => 6 case '7' => 7 case '8' => 8 case '9' => 9 case _ => 0
  }

  function Pow10(k: nat): nat {
    if k == 0 then 1 else 10 * Pow10(k - 1)
  }

  /** The first digit counts most. */
  function PlaceValue(s: string): nat {
    if s == "" then 0 else DigitOf(s[0]) * Pow10(|s| - 1) + PlaceValue(s[1..])
  }

  predicate IsNumeral(s: string) {
    s != "" && forall i :: 0 <= i < |s| ==> s[i] in "0123456789"
  }

  lemma {:induction false} PlaceValueSnoc(s: string, c: char)
    ensures PlaceValue(s + [c]) == PlaceValue(s) * 10 + DigitOf(c)
  {
    if s == "" {
      assert s + [c] == [c];
    } else {
      assert (s + [c])[1..] == s[1..] + [c];
      PlaceValueSnoc(s[1..], c);
      TenTimes(DigitOf(s[0]), Pow10(|s| - 1));
    }
  }

  lemma TenTimes(d: nat, p: nat)
    ensures d * (10 * p) == 10 * (d * p)
  {
  }

  lemma {:induction false} DigitsHavePlaces(s: string)
    requires forall i :: 0 <= i < |s| ==> IsDigit(s[i])
    ensures DigitsValue(s) == PlaceValue(s)
  {
    if s != "" {
      var n := |s| - 1;
      DigitsHavePlaces(s[..n]);
      PlaceValueSnoc(s[..n], s[n]);
      assert s == s[..n] + [s[n]] && IsDigit(s[n]);
    }
  }

  /** s is a numeral for n, perhaps with a sign; leading zeros are allowed. */
  predicate IsDecimal(s: string, n: int) {
    || (IsNumeral(s) && n == PlaceValue(s))
    || (s != "" && s[0] == '+' && IsNumeral(s[1..]) && n == PlaceValue(s[1..]))
    || (s != "" && s[0] == '-' && IsNumeral(s[1..]) && n == -(PlaceValue(s[1..]) as int))
  }

  lemma NumeralIff(s: string)
    ensures IsNumeral(s) <==> AllDigits(s)
    ensures IsNumeral(s) ==> DigitsValue(s) == PlaceValue(s)
  {
    forall i | 0 <= i < |s|
      ensures s[i] in "0123456789" <==> IsDigit(s[i])
    {
      IsDigitIff(s[i]);
    }
    if AllDigits(s) {
      DigitsHavePlaces(s);
    }
  }

  lemma IsDigitIff(c: char)
    ensures c in "0123456789" <==> IsDigit(c)
  {
    var digits := "0123456789";
    if IsDigit(c) {
      assert digits[c as int - '0' as int] == c;
    }
  }

  /** The strings that parse are the numerals of the 64-bit integers, each as its own number. */
  lemma ParseIntIff(s: string, n: int)
    ensures ParseInt(s) == Some(n) <==>
            IsDecimal(s, n) && -9_223_372_036_854_775_808 <= n <= 9_223_372_036_854_775_807
  {
    NumeralIff(s);
    if s != "" {
      NumeralIff(s[1..]);
      if s[0] == '+' || s[0] == '-' {
        assert !IsDigit(s[0]);
      }
    }
  }
}
