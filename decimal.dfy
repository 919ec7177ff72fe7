/**
 * Decimal numerals: JavaScript `String(n)` and Go `strconv.Itoa` on the way out; Go
 * `strconv.Atoi`, JavaScript `Number(s) || 0` and `parseInt(s, 10) || 0` on the way in.
 */
module Decimal {
  import opened Strings

  predicate IsDigit(c: char)
  {
    '0' <= c <= '9'
  }

  predicate AllDigits(s: string)
  {
    forall i :: 0 <= i < |s| ==> IsDigit(s[i])
  }

  function DigitValue(c: char): nat
    requires IsDigit(c)
  {
    c as int - '0' as int
  }

  function DigitChar(d: nat): (c: char)
    requires d < 10
    ensures IsDigit(c) && DigitValue(c) == d
  {
    ('0' as int + d) as char
  }

  /** The number a string of digits denotes (leading zeros allowed). */
  function DigitsValue(s: string): nat
    requires AllDigits(s)
  {
    if s == [] then 0 else DigitsValue(s[..|s| - 1]) * 10 + DigitValue(s[|s| - 1])
  }

  /** The decimal numeral of `n` without leading zeros. */
  function NatToString(n: nat): (s: string)
    ensures |s| >= 1 && AllDigits(s)
    ensures s[0] == '0' ==> n == 0
  {
    if n < 10 then [DigitChar(n)] else NatToString(n / 10) + [DigitChar(n % 10)]
  }

  /** Reading a numeral back gives the number it was written from. */
  lemma {:induction false} NatToStringValue(n: nat)
    ensures DigitsValue(NatToString(n)) == n
  {
    if n >= 10 {
      NatToStringValue(n / 10);
      var s := NatToString(n);
      assert s[..|s| - 1] == NatToString(n / 10);
    }
  }

  /** Distinct numbers have distinct numerals. */
  lemma NatToStringInjective(a: nat, b: nat)
    ensures NatToString(a) == NatToString(b) ==> a == b
  {
    NatToStringValue(a);
    NatToStringValue(b);
  }

  /** Go `strconv.Itoa`, and JavaScript `String(n)` for an integer `n`. */
  function IntToString(i: int): (s: string)
  {
    if i < 0 then "-" + NatToString(-i) else NatToString(i)
  }

  const MaxInt64: int := 0x7FFF_FFFF_FFFF_FFFF
  const MinInt64: int := -0x8000_0000_0000_0000
  const MaxUint64: int := 0xFFFF_FFFF_FFFF_FFFF

  /** What `strconv.Atoi` returns: the value, and whether the error result was nil. */
  datatype Parsed = Parsed(value: int, ok: bool)

  /** The length of the longest all-digit prefix. */
  function LeadingDigits(s: string): (k: nat)
    ensures k <= |s| && AllDigits(s[..k])
    ensures k < |s| ==> !IsDigit(s[k])
  {
    if s == [] || !IsDigit(s[0]) then 0
    else
      var k := LeadingDigits(s[1..]);
      assert s[..k + 1] == [s[0]] + s[1..][..k];
      k + 1
  }

  /** A sign followed by one or more digits: the syntax `strconv.Atoi` accepts. */
  predicate IsSignedNumeral(s: string)
  {
    var body := if |s| > 0 && (s[0] == '+' || s[0] == '-') then s[1..] else s;
    body != [] && AllDigits(body)
  }

  /** The value of a signed numeral. */
  function SignedValue(s: string): int
    requires IsSignedNumeral(s)
  {
    var body := if s[0] == '+' || s[0] == '-' then s[1..] else s;
    if s[0] == '-' then -(DigitsValue(body) as int) else DigitsValue(body)
  }

  /**
   * Go `strconv.Atoi` on a 64-bit platform. An optional sign and then digits; anything else
   * is a syntax error with value 0. A value outside int64 is a range error whose value is
   * clamped to the nearest bound; the scan reports the range error as soon as the digits read
   * so far exceed the uint64 range, before it meets a later non-digit.
   */
  function Atoi(s: string): (r: Parsed)
    ensures MinInt64 <= r.value <= MaxInt64
    ensures r.ok ==> IsSignedNumeral(s)
  {
    var neg := |s| > 0 && s[0] == '-';
    var body := if |s| > 0 && (s[0] == '+' || s[0] == '-') then s[1..] else s;
    var k := LeadingDigits(body);
    if body == [] then Parsed(0, false)
    else if DigitsValue(body[..k]) > MaxUint64 then Parsed(if neg then MinInt64 else MaxInt64, false)
    else if k < |body| then Parsed(0, false)
    else
      assert body[..k] == body;
      var v := if neg then -(DigitsValue(body) as int) else DigitsValue(body);
      if v > MaxInt64 then Parsed(MaxInt64, false)
      else if v < MinInt64 then Parsed(MinInt64, false)
      else Parsed(v, true)
  }

  lemma {:induction false} LeadingDigitsAll(s: string)
    requires AllDigits(s)
    ensures LeadingDigits(s) == |s|
  {
    if s != [] {
      LeadingDigitsAll(s[1..]);
    }
  }

  /** `Atoi` succeeds exactly on a signed numeral whose value fits in int64, and then returns that value. */
  lemma AtoiOk(s: string)
    ensures Atoi(s).ok ==> IsSignedNumeral(s) && Atoi(s).value == SignedValue(s)
    ensures IsSignedNumeral(s) && MinInt64 <= SignedValue(s) <= MaxInt64 ==> Atoi(s) == Parsed(SignedValue(s), true)
    ensures IsSignedNumeral(s) && SignedValue(s) > MaxInt64 ==> Atoi(s) == Parsed(MaxInt64, false)
    ensures IsSignedNumeral(s) && SignedValue(s) < MinInt64 ==> Atoi(s) == Parsed(MinInt64, false)
  {
    var body := if |s| > 0 && (s[0] == '+' || s[0] == '-') then s[1..] else s;
    if body != [] && AllDigits(body) {
      LeadingDigitsAll(body);
      assert body[..|body|] == body;
    }
  }

  /** A string that is not a signed numeral parses as 0 with an error, unless its digits overflow first. */
  lemma AtoiSyntaxError(s: string)
    requires !IsSignedNumeral(s)
    ensures Atoi(s) == Parsed(0, false) || Atoi(s) == Parsed(MaxInt64, false) || Atoi(s) == Parsed(MinInt64, false)
  {
  }

  /** `Atoi(Itoa(i)) == i` on every int64. */
  lemma AtoiItoa(i: int)
    requires MinInt64 <= i <= MaxInt64
    ensures Atoi(IntToString(i)) == Parsed(i, true)
  {
    var s := IntToString(i);
    var n := if i < 0 then -i else i;
    var body := NatToString(n);
    NatToStringValue(n);
    LeadingDigitsAll(body);
    assert body[..|body|] == body;
    if i < 0 {
      assert s[1..] == body;
    } else {
      assert s == body;
    }
  }

  /**
   * `parseInt(s, 10) || 0`: leading white space skipped, an optional sign, then the longest
   * run of digits; no digits gives NaN, which `|| 0` turns into 0.
   */
  function ParseIntOrZero(s: string): (n: int)
  {
    var t := TrimStart(s);
    var neg := |t| > 0 && t[0] == '-';
    var body := if |t| > 0 && (t[0] == '+' || t[0] == '-') then t[1..] else t;
    var k := LeadingDigits(body);
    if k == 0 then 0
    else if neg then -(DigitsValue(body[..k]) as int) else DigitsValue(body[..k])
  }

  /**
   * `Number(s) || 0` for the strings an `<input type="number">` yields: blank gives 0, a signed
   * decimal integer (white space around it allowed) gives its value, everything else is 0.
   */
  function NumberOrZero(s: string): (n: int)
  {
    var t := Trim(s);
    if IsSignedNumeral(t) then SignedValue(t) else 0
  }

  /** Characters drawn from a digit-free text are digit-free. */
  lemma NoDigitsKept(t: string, s: string)
    requires multiset(t) <= multiset(s)
    requires forall i :: 0 <= i < |s| ==> !IsDigit(s[i])
    ensures forall i :: 0 <= i < |t| ==> !IsDigit(t[i])
  {
    forall i | 0 <= i < |t| ensures !IsDigit(t[i]) {
      assert t[i] in multiset(t);
      assert t[i] in s;
    }
  }

  /** Input without a digit, such as "abc", is not a number to either reader and becomes 0. */
  lemma NonNumericInputIsZero(s: string)
    requires forall i :: 0 <= i < |s| ==> !IsDigit(s[i])
    ensures NumberOrZero(s) == 0 && ParseIntOrZero(s) == 0
  {
    var front := TrimStart(s);
    TrimStartChars(s);
    TrimEndChars(front);
    NoDigitsKept(front, s);
    NoDigitsKept(Trim(s), s);
  }

  /** A numeral written by `String(n)` reads back as `n` through both readers. */
  lemma ReadersInvertString(n: nat)
    ensures NumberOrZero(NatToString(n)) == n
    ensures ParseIntOrZero(NatToString(n)) == n
  {
    var s := NatToString(n);
    NatToStringValue(n);
    LeadingDigitsAll(s);
    assert s[..|s|] == s;
    assert !IsJsWhitespace(s[0]) && !IsJsWhitespace(s[|s| - 1]);
    assert TrimStart(s) == s;
    assert TrimEnd(s) == s;
  }
}
