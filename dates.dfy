/**
 * Calendar dates in the `YYYY-MM-DD` form (Go layout `2006-01-02`, `time.DateOnly`,
 * the `full-date` production of section 5.6 of RFC 3339 with the month and day limits of
 * section 5.7), and day numbers, which stand for JavaScript `Date` values at midnight.
 */
module Dates {
  import opened Wrappers
  import opened Decimal
  import opened Strings

  datatype Date = Date(year: nat, month: nat, day: nat)

  predicate IsLeapYear(y: nat)
  {
    y % 4 == 0 && (y % 100 != 0 || y % 400 == 0)
  }

  function DaysInMonth(m: nat, y: nat): nat
  {
    if m == 2 then (if IsLeapYear(y) then 29 else 28)
    else if m == 4 || m == 6 || m == 9 || m == 11 then 30
    else 31
  }

  predicate ValidDate(d: Date)
  {
    1 <= d.month <= 12 && 1 <= d.day <= DaysInMonth(d.month, d.year)
  }

  /** The `w` low-order decimal digits of `n`, zero-padded. */
  function FixedDigits(n: nat, w: nat): (s: string)
    ensures |s| == w && AllDigits(s)
  {
    if w == 0 then [] else FixedDigits(n / 10, w - 1) + [DigitChar(n % 10)]
  }

  function Pow10(w: nat): nat
  {
    if w == 0 then 1 else 10 * Pow10(w - 1)
  }

  lemma {:induction false} FixedDigitsValue(n: nat, w: nat)
    requires n < Pow10(w)
    ensures DigitsValue(FixedDigits(n, w)) == n
  {
    if w > 0 {
      FixedDigitsValue(n / 10, w - 1);
      var s := FixedDigits(n, w);
      assert s[..|s| - 1] == FixedDigits(n / 10, w - 1);
    }
  }

  lemma {:induction false} DigitsValueBound(s: string)
    requires AllDigits(s)
    ensures DigitsValue(s) < Pow10(|s|)
  {
    if s != [] {
      DigitsValueBound(s[..|s| - 1]);
    }
  }

  lemma {:induction false} FixedDigitsOfValue(s: string)
    requires AllDigits(s)
    ensures FixedDigits(DigitsValue(s), |s|) == s
  {
    if s != [] {
      var init := s[..|s| - 1];
      FixedDigitsOfValue(init);
      var n := DigitsValue(s);
      assert n / 10 == DigitsValue(init) && n % 10 == DigitValue(s[|s| - 1]);
      assert s == init + [s[|s| - 1]];
    }
  }

  /** Go's `appendInt(b, year, 4)`: at least four digits, zero-padded. */
  function YearString(y: nat): string
  {
    if y <= 9999 then FixedDigits(y, 4) else NatToString(y)
  }

  /** `t.Format(time.DateOnly)`, and `toISOString().split('T')[0]` for a midnight-UTC date. */
  function FormatDate(d: Date): string
  {
    YearString(d.year) + "-" + FixedDigits(d.month, 2) + "-" + FixedDigits(d.day, 2)
  }

  /**
   * `time.Parse("2006-01-02", s)`: four digits, '-', two digits, '-', two digits and nothing
   * more; the month must be 1..12 and the day must exist in that month of that year.
   */
  function ParseDate(s: string): (r: Option<Date>)
    ensures r.Some? ==> ValidDate(r.value) && r.value.year <= 9999
  {
    if |s| == 10 && AllDigits(s[0..4]) && s[4] == '-' && AllDigits(s[5..7]) && s[7] == '-' && AllDigits(s[8..10]) then
      assert DigitsValue(s[0..4]) <= 9999 by { DigitsValueBound(s[0..4]); }
      var d := Date(DigitsValue(s[0..4]), DigitsValue(s[5..7]), DigitsValue(s[8..10]));
      if ValidDate(d) then Some(d) else None
    else None
  }

  /** Where the fields of a formatted date sit: year, dash, month, dash, day. */
  lemma FormatDateFields(d: Date)
    requires d.year <= 9999
    ensures var s := FormatDate(d);
      |s| == 10 && s[0..4] == FixedDigits(d.year, 4) && s[4] == '-' &&
      s[5..7] == FixedDigits(d.month, 2) && s[7] == '-' && s[8..10] == FixedDigits(d.day, 2)
  {
    var y, m, dd := FixedDigits(d.year, 4), FixedDigits(d.month, 2), FixedDigits(d.day, 2);
    assert FormatDate(d) == y + "-" + m + "-" + dd;
  }

  /** Every valid date of years 0..9999 survives formatting and parsing. */
  lemma ParseFormatDate(d: Date)
    requires ValidDate(d) && d.year <= 9999
    ensures ParseDate(FormatDate(d)) == Some(d)
  {
    FormatDateFields(d);
    assert Pow10(4) == 10000 && Pow10(2) == 100;
    FixedDigitsValue(d.year, 4);
    FixedDigitsValue(d.month, 2);
    FixedDigitsValue(d.day, 2);
  }

  lemma ParseDateShape(s: string)
    requires ParseDate(s).Some?
    ensures |s| == 10 && s[4] == '-' && s[7] == '-'
    ensures AllDigits(s[0..4]) && AllDigits(s[5..7]) && AllDigits(s[8..10])
    ensures ParseDate(s).value == Date(DigitsValue(s[0..4]), DigitsValue(s[5..7]), DigitsValue(s[8..10]))
  {
  }

  /** A string that parses is exactly the formatting of the date it parses to. */
  lemma FormatParseDate(s: string)
    requires ParseDate(s).Some?
    ensures FormatDate(ParseDate(s).value) == s
  {
    ParseDateShape(s);
    var d := ParseDate(s).value;
    var y, m, dd := s[0..4], s[5..7], s[8..10];
    DigitsValueBound(y);
    FixedDigitsOfValue(y);
    FixedDigitsOfValue(m);
    FixedDigitsOfValue(dd);
    assert YearString(d.year) == y;
    assert FormatDate(d) == y + "-" + m + "-" + dd;
    assert s == y + "-" + m + "-" + dd;
  }

  /** The layout rejects a date that does not exist, such as February 29th of a common year. */
  lemma ParseRejectsMissingDay()
    ensures ParseDate("2025-02-29") == None
    ensures ParseDate("2024-02-29") == Some(Date(2024, 2, 29))
    ensures ParseDate("2025-1-05") == None
  {
    assert "2025-02-29"[0..4] == "2025" && "2025-02-29"[5..7] == "02" && "2025-02-29"[8..10] == "29";
    assert "2024-02-29"[0..4] == "2024" && "2024-02-29"[5..7] == "02" && "2024-02-29"[8..10] == "29";
    assert DigitsValue("2024") == 2024 by {
      assert "2024"[..3] == "202" && "202"[..2] == "20" && "20"[..1] == "2";
    }
    assert DigitsValue("02") == 2 by { assert "02"[..1] == "0"; }
    assert DigitsValue("29") == 29 by { assert "29"[..1] == "2"; }
  }

  // ---------------------------------------------------------------------------------------
  // Day numbers: a date as a count of days, so that "n days before" is subtraction.

  /** Days from 0000-01-01 to January 1st of year `y` (proleptic Gregorian calendar). */
  function DaysBeforeYear(y: nat): nat
  {
    if y == 0 then 0 else DaysBeforeYear(y - 1) + 365 + (if IsLeapYear(y - 1) then 1 else 0)
  }

  function DaysBeforeMonth(m: nat, y: nat): nat
  {
    if m <= 1 then 0 else DaysBeforeMonth(m - 1, y) + DaysInMonth(m - 1, y)
  }

  /** Days from 0000-01-01 to `d`. */
  function DayNumber(d: Date): int
  {
    DaysBeforeYear(d.year) + DaysBeforeMonth(d.month, d.year) + d.day - 1
  }

  /** Lexicographic order on (year, month, day). */
  predicate Before(a: Date, b: Date)
  {
    a.year < b.year || (a.year == b.year && (a.month < b.month || (a.month == b.month && a.day < b.day)))
  }

  /** Ordering numbers compares their tens first, then their last digits. */
  lemma TensThenUnits(a: nat, b: nat)
    ensures a < b <==> a / 10 < b / 10 || (a / 10 == b / 10 && a % 10 < b % 10)
  {
    assert a == 10 * (a / 10) + a % 10;
    assert b == 10 * (b / 10) + b % 10;
  }

  lemma TensBelow(a: nat, p: nat)
    requires a < 10 * p
    ensures a / 10 < p
  {
  }

  lemma SingleCharLess(c: char, d: char)
    ensures Less([c], [d]) <==> c < d
  {
    assert [c][1..] == [] && [d][1..] == [];
  }

  /** Two zero-padded numerals of the same width are equal exactly when the numbers are. */
  lemma FixedDigitsEqual(a: nat, b: nat, w: nat)
    requires a < Pow10(w) && b < Pow10(w)
    ensures FixedDigits(a, w) == FixedDigits(b, w) <==> a == b
  {
    FixedDigitsValue(a, w);
    FixedDigitsValue(b, w);
  }

  lemma {:induction false} FixedDigitsLess(a: nat, b: nat, w: nat)
    requires a < Pow10(w) && b < Pow10(w)
    ensures Less(FixedDigits(a, w), FixedDigits(b, w)) <==> a < b
  {
    if w > 0 {
      TensBelow(a, Pow10(w - 1));
      TensBelow(b, Pow10(w - 1));
      var xa, xb := FixedDigits(a / 10, w - 1), FixedDigits(b / 10, w - 1);
      var ca, cb := DigitChar(a % 10), DigitChar(b % 10);
      assert Less(FixedDigits(a, w), FixedDigits(b, w)) <==> Less(xa, xb) || (xa == xb && Less([ca], [cb])) by {
        LessAppendSameLength(xa, xb, [ca], [cb]);
      }
      assert Less(xa, xb) <==> a / 10 < b / 10 by {
        FixedDigitsLess(a / 10, b / 10, w - 1);
      }
      assert xa == xb <==> a / 10 == b / 10 by {
        FixedDigitsEqual(a / 10, b / 10, w - 1);
      }
      assert Less([ca], [cb]) <==> a % 10 < b % 10 by {
        SingleCharLess(ca, cb);
        DigitCharLess(a % 10, b % 10);
      }
      TensThenUnits(a, b);
    }
  }

  lemma DigitCharLess(x: nat, y: nat)
    requires x < 10 && y < 10
    ensures DigitChar(x) < DigitChar(y) <==> x < y
  {
  }

  /** `-MM-DD`, what a formatted date holds after its year. */
  function MonthDayTail(d: Date): string
  {
    "-" + (FixedDigits(d.month, 2) + ("-" + FixedDigits(d.day, 2)))
  }

  lemma FormatDateSplit(d: Date)
    requires d.year <= 9999
    ensures FormatDate(d) == FixedDigits(d.year, 4) + MonthDayTail(d)
  {
  }

  lemma DashLess(u: string, v: string)
    ensures Less("-" + u, "-" + v) <==> Less(u, v)
  {
    LessAppendSameLength("-", "-", u, v);
    LessIrreflexive("-");
  }

  lemma TailLess(a: Date, b: Date)
    requires a.month < 100 && b.month < 100 && a.day < 100 && b.day < 100
    ensures Less(MonthDayTail(a), MonthDayTail(b)) <==> a.month < b.month || (a.month == b.month && a.day < b.day)
  {
    var ma, mb := FixedDigits(a.month, 2), FixedDigits(b.month, 2);
    var da, db := FixedDigits(a.day, 2), FixedDigits(b.day, 2);
    assert Pow10(2) == 100;
    DashLess(ma + ("-" + da), mb + ("-" + db));
    LessAppendSameLength(ma, mb, "-" + da, "-" + db);
    DashLess(da, db);
    FixedDigitsLess(a.month, b.month, 2);
    FixedDigitsEqual(a.month, b.month, 2);
    FixedDigitsLess(a.day, b.day, 2);
  }

  /** Comparing two `YYYY-MM-DD` strings with `<` compares the dates they name. */
  lemma FormattedLessIsBefore(a: Date, b: Date)
    requires a.year <= 9999 && b.year <= 9999 && a.month < 100 && b.month < 100 && a.day < 100 && b.day < 100
    ensures Less(FormatDate(a), FormatDate(b)) <==> Before(a, b)
  {
    assert Pow10(4) == 10000;
    FormatDateSplit(a);
    FormatDateSplit(b);
    LessAppendSameLength(FixedDigits(a.year, 4), FixedDigits(b.year, 4), MonthDayTail(a), MonthDayTail(b));
    FixedDigitsLess(a.year, b.year, 4);
    FixedDigitsEqual(a.year, b.year, 4);
    TailLess(a, b);
  }

  lemma {:induction false} DaysBeforeMonthBound(m: nat, y: nat)
    requires 1 <= m <= 12
    ensures DaysBeforeMonth(m, y) + DaysInMonth(m, y) <= 365 + (if IsLeapYear(y) then 1 else 0)
  {
    DaysBeforeMonthUpTo(m, y);
  }

  lemma {:induction false} DaysBeforeMonthUpTo(m: nat, y: nat)
    requires 1 <= m <= 12
    ensures DaysBeforeMonth(m, y) + DaysInMonth(m, y) + (12 - m) * 30 <= 365 + (if IsLeapYear(y) then 1 else 0)
    decreases 12 - m
  {
    if m < 12 {
      DaysBeforeMonthUpTo(m + 1, y);
      assert DaysBeforeMonth(m + 1, y) == DaysBeforeMonth(m, y) + DaysInMonth(m, y);
    } else {
      assert DaysBeforeMonth(12, y) == 334 + (if IsLeapYear(y) then 1 else 0) by {
        DaysBeforeMonthClosed(12, y);
      }
    }
  }

  /** The cumulative month lengths written out. */
  function MonthStart(m: nat, y: nat): nat
  {
    (if m <= 1 then 0 else if m == 2 then 31 else if m == 3 then 59 else if m == 4 then 90
     else if m == 5 then 120 else if m == 6 then 151 else if m == 7 then 181 else if m == 8 then 212
     else if m == 9 then 243 else if m == 10 then 273 else if m == 11 then 304 else 334)
    + (if m > 2 && IsLeapYear(y) then 1 else 0)
  }

  lemma {:induction false} DaysBeforeMonthClosed(m: nat, y: nat)
    requires m <= 12
    ensures DaysBeforeMonth(m, y) == MonthStart(m, y)
  {
    if m > 1 {
      DaysBeforeMonthClosed(m - 1, y);
    }
  }

  lemma DaysBeforeYearStep(y: nat)
    ensures DaysBeforeYear(y + 1) == DaysBeforeYear(y) + 365 + (if IsLeapYear(y) then 1 else 0)
  {
  }

  lemma {:induction false} DaysBeforeMonthMonotone(m1: nat, m2: nat, y: nat)
    requires 1 <= m1 < m2 <= 12
    ensures DaysBeforeMonth(m1, y) + DaysInMonth(m1, y) <= DaysBeforeMonth(m2, y)
  {
    if m1 + 1 < m2 {
      DaysBeforeMonthMonotone(m1, m2 - 1, y);
    }
  }

  lemma {:induction false} DaysBeforeYearMonotone(y1: nat, y2: nat)
    requires y1 < y2
    ensures DaysBeforeYear(y1 + 1) <= DaysBeforeYear(y2)
  {
    if y1 + 1 < y2 {
      DaysBeforeYearMonotone(y1, y2 - 1);
      DaysBeforeYearStep(y2 - 1);
    }
  }

  /** On valid dates, the day number orders dates as the calendar does. */
  lemma DayNumberOrder(a: Date, b: Date)
    requires ValidDate(a) && ValidDate(b)
    ensures Before(a, b) <==> DayNumber(a) < DayNumber(b)
    ensures a == b <==> DayNumber(a) == DayNumber(b)
  {
    DaysBeforeMonthBound(a.month, a.year);
    DaysBeforeMonthBound(b.month, b.year);
    DaysBeforeYearStep(a.year);
    DaysBeforeYearStep(b.year);
    if a.year < b.year {
      DaysBeforeYearMonotone(a.year, b.year);
    } else if b.year < a.year {
      DaysBeforeYearMonotone(b.year, a.year);
    } else if a.month < b.month {
      DaysBeforeMonthMonotone(a.month, b.month, a.year);
    } else if b.month < a.month {
      DaysBeforeMonthMonotone(b.month, a.month, a.year);
    }
  }

  /** 90 days before 2026-04-18 is 2026-01-18. */
  lemma NinetyDaysBeforeExample()
    ensures DayNumber(Date(2026, 4, 18)) - 90 == DayNumber(Date(2026, 1, 18))
  {
  }
}
