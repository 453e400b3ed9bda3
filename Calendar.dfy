/** Calendar dates as the booking modal uses them through moment: whole-day differences
    (`diff(…, "days")`) and the `YYYY-MM-DD` format, the calendar date in the extended format
    of ISO 8601. Dates are proleptic Gregorian, from year 0 on. */
module Calendar {
  import opened Wrappers

  datatype Date = Date(year: int, month: int, day: int)

  predicate IsLeapYear(y: int) {
    y % 4 == 0 && (y % 100 != 0 || y % 400 == 0)
  }

  function DaysInMonth(y: int, m: int): (n: int)
    requires 1 <= m <= 12
    ensures 28 <= n <= 31
  {
    if m == 2 then (if IsLeapYear(y) then 29 else 28)
    else if m == 4 || m == 6 || m == 9 || m == 11 then 30
    else 31
  }

  function DaysInYear(y: int): int {
    if IsLeapYear(y) then 366 else 365
  }

  /** A real calendar date of year 0 or later. */
  predicate ValidDate(d: Date) {
    && d.year >= 0
    && 1 <= d.month <= 12
    && 1 <= d.day <= DaysInMonth(d.year, d.month)
  }

  /** Days from 0000-01-01 to the first day of year `y`. */
  function DaysBeforeYear(y: nat): nat {
    if y == 0 then 0 else DaysBeforeYear(y - 1) + DaysInYear(y - 1)
  }

  /** Days from the first of the year to the first day of month `m`. */
  function DaysBeforeMonth(y: int, m: int): nat
    requires 1 <= m <= 12
  {
    if m == 1 then 0 else DaysBeforeMonth(y, m - 1) + DaysInMonth(y, m - 1)
  }

  /** Days from 0000-01-01 to `d`; differences of day numbers are whole-day differences. */
  function DayNumber(d: Date): nat
    requires ValidDate(d)
  {
    DaysBeforeYear(d.year) + DaysBeforeMonth(d.year, d.month) + d.day - 1
  }

  /** The calendar day after `d`. */
  function NextDay(d: Date): Date
    requires ValidDate(d)
  {
    if d.day < DaysInMonth(d.year, d.month) then d.(day := d.day + 1)
    else if d.month < 12 then Date(d.year, d.month + 1, 1)
    else Date(d.year + 1, 1, 1)
  }

  lemma DaysBeforeDecember(y: int)
    ensures DaysBeforeMonth(y, 12) + DaysInMonth(y, 12) == DaysInYear(y)
  {
    assert DaysBeforeMonth(y, 2) == 31;
    assert DaysBeforeMonth(y, 3) == 31 + DaysInMonth(y, 2);
    assert DaysBeforeMonth(y, 4) == DaysBeforeMonth(y, 3) + 31;
    assert DaysBeforeMonth(y, 5) == DaysBeforeMonth(y, 4) + 30;
    assert DaysBeforeMonth(y, 6) == DaysBeforeMonth(y, 5) + 31;
    assert DaysBeforeMonth(y, 7) == DaysBeforeMonth(y, 6) + 30;
    assert DaysBeforeMonth(y, 8) == DaysBeforeMonth(y, 7) + 31;
    assert DaysBeforeMonth(y, 9) == DaysBeforeMonth(y, 8) + 31;
    assert DaysBeforeMonth(y, 10) == DaysBeforeMonth(y, 9) + 30;
    assert DaysBeforeMonth(y, 11) == DaysBeforeMonth(y, 10) + 31;
    assert DaysBeforeMonth(y, 12) == DaysBeforeMonth(y, 11) + 30;
  }

  /** The next day is a valid date exactly one day number later. */
  lemma NextDayNumber(d: Date)
    requires ValidDate(d)
    ensures ValidDate(NextDay(d)) && DayNumber(NextDay(d)) == DayNumber(d) + 1
  {
    if d.day == DaysInMonth(d.year, d.month) && d.month == 12 {
      DaysBeforeDecember(d.year);
    }
  }

  /** A month ends no later than its successor begins, and December ends the year. */
  lemma {:induction false} MonthEnd(y: int, m: int)
    requires 1 <= m <= 12
    ensures DaysBeforeMonth(y, m) + DaysInMonth(y, m) <= DaysInYear(y)
    decreases 12 - m
  {
    if m == 12 {
      DaysBeforeDecember(y);
    } else {
      MonthEnd(y, m + 1);
    }
  }

  /** An earlier month of the same year ends before a later one begins. */
  lemma {:induction false} MonthMono(y: int, m1: int, m2: int)
    requires 1 <= m1 < m2 <= 12
    ensures DaysBeforeMonth(y, m1) + DaysInMonth(y, m1) <= DaysBeforeMonth(y, m2)
    decreases m2 - m1
  {
    if m1 + 1 < m2 {
      MonthMono(y, m1, m2 - 1);
    }
  }

  /** An earlier year ends before a later one begins. */
  lemma {:induction false} YearMono(y1: nat, y2: nat)
    requires y1 < y2
    ensures DaysBeforeYear(y1) + DaysInYear(y1) <= DaysBeforeYear(y2)
    decreases y2 - y1
  {
    if y1 + 1 < y2 {
      YearMono(y1, y2 - 1);
    }
  }

  /** Day numbers tell dates apart: two valid dates with the same number are the same date. */
  lemma DayNumberInjective(d1: Date, d2: Date)
    requires ValidDate(d1) && ValidDate(d2)
    ensures DayNumber(d1) == DayNumber(d2) <==> d1 == d2
  {
    if d1.year != d2.year {
      var (a, b) := if d1.year < d2.year then (d1, d2) else (d2, d1);
      MonthEnd(a.year, a.month);
      YearMono(a.year, b.year);
      assert DayNumber(a) < DaysBeforeYear(b.year) <= DayNumber(b);
    } else if d1.month != d2.month {
      var (a, b) := if d1.month < d2.month then (d1, d2) else (d2, d1);
      MonthMono(a.year, a.month, b.month);
      assert DayNumber(a) < DayNumber(b);
    }
  }

  /** The dates from `first` on, one per day, up to the day numbered like `last`: the nights
      of a stay that runs from `first` to `last` inclusive. */
  function StayDates(first: Date, last: Date): (s: seq<Date>)
    requires ValidDate(first) && ValidDate(last) && DayNumber(first) <= DayNumber(last)
    ensures |s| == DayNumber(last) - DayNumber(first) + 1
    ensures s[0] == first && s[|s| - 1] == last
    ensures forall i | 0 <= i < |s| :: ValidDate(s[i]) && DayNumber(s[i]) == DayNumber(first) + i
    ensures forall i | 0 <= i < |s| - 1 :: s[i + 1] == NextDay(s[i])
    decreases DayNumber(last) - DayNumber(first)
  {
    if DayNumber(first) == DayNumber(last) then
      DayNumberInjective(first, last);
      [first]
    else
      NextDayNumber(first);
      [first] + StayDates(NextDay(first), last)
  }

  /** The decimal digit `n` as a character. */
  function DigitChar(n: int): char
    requires 0 <= n < 10
  {
    "0123456789"[n]
  }

  predicate IsDigit(c: char) {
    '0' <= c <= '9'
  }

  function DigitValue(c: char): int
    requires IsDigit(c)
  {
    c as int - '0' as int
  }

  function Pow10(k: nat): (p: nat)
    ensures p >= 1
  {
    if k == 0 then 1 else 10 * Pow10(k - 1)
  }

  /** `n` written in `width` decimal digits, zero-padded on the left (moment's `YYYY`, `MM`, `DD`
      for values below 10^width). */
  function Pad(n: nat, width: nat): (s: string)
    ensures |s| == width
    ensures forall i | 0 <= i < |s| :: IsDigit(s[i])
  {
    if width == 0 then [] else Pad(n / 10, width - 1) + [DigitChar(n % 10)]
  }

  /** The number a string of decimal digits denotes. */
  function ParseDigits(s: string): nat
    requires forall i | 0 <= i < |s| :: IsDigit(s[i])
  {
    if s == [] then 0 else ParseDigits(s[..|s| - 1]) * 10 + DigitValue(s[|s| - 1])
  }

  lemma {:induction false} ParsePad(n: nat, width: nat)
    requires n < Pow10(width)
    ensures ParseDigits(Pad(n, width)) == n
  {
    if width > 0 {
      var s := Pad(n, width);
      assert s[..|s| - 1] == Pad(n / 10, width - 1);
      assert n / 10 < Pow10(width - 1);
      ParsePad(n / 10, width - 1);
      assert DigitValue(DigitChar(n % 10)) == n % 10;
    }
  }

  /** A date whose year fits the four digits of `YYYY`. */
  predicate Formattable(d: Date) {
    ValidDate(d) && d.year <= 9999
  }

  /** moment's `format("YYYY-MM-DD")`. */
  function FormatIsoDate(d: Date): (s: string)
    requires Formattable(d)
    ensures |s| == 10 && s[4] == '-' && s[7] == '-'
    ensures forall i | 0 <= i < 10 && i != 4 && i != 7 :: IsDigit(s[i])
  {
    Pad(d.year, 4) + "-" + Pad(d.month, 2) + "-" + Pad(d.day, 2)
  }

  /** Reads a `YYYY-MM-DD` string back; None for anything else. */
  function ParseIsoDate(s: string): Option<Date> {
    if |s| == 10 && s[4] == '-' && s[7] == '-'
       && (forall i | 0 <= i < 10 && i != 4 && i != 7 :: IsDigit(s[i]))
    then
      var d := Date(ParseDigits(s[0..4]), ParseDigits(s[5..7]), ParseDigits(s[8..10]));
      if ValidDate(d) then Some(d) else None
    else None
  }

  /** The format loses nothing: every formattable date is read back as itself. */
  lemma IsoDateRoundTrip(d: Date)
    requires Formattable(d)
    ensures ParseIsoDate(FormatIsoDate(d)) == Some(d)
  {
    var s := FormatIsoDate(d);
    assert s[0..4] == Pad(d.year, 4);
    assert s[5..7] == Pad(d.month, 2);
    assert s[8..10] == Pad(d.day, 2);
    assert Pow10(4) == 10000 && Pow10(2) == 100;
    ParsePad(d.year, 4);
    ParsePad(d.month, 2);
    ParsePad(d.day, 2);
  }
}
