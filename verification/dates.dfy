/** Calendar dates as the generator uses them: the proleptic Gregorian
    calendar of Python's `datetime`, `date.weekday()` (Monday is 0), the
    Monday-first Chinese weekday labels, and the `%Y-%m-%d` / `%Y_%m_%d`
    renderings. */
module Dates {
  import opened Wrappers
  import opened Text

  datatype Date = Date(year: int, month: int, day: int)

  predicate IsLeapYear(y: int) {
    y % 4 == 0 && (y % 100 != 0 || y % 400 == 0)
  }

  function DaysInMonth(y: int, m: int): (n: nat)
    requires 1 <= m <= 12
    ensures 28 <= n <= 31
    ensures n == 29 <==> m == 2 && IsLeapYear(y)
  {
    if m == 2 then (if IsLeapYear(y) then 29 else 28)
    else if m == 4 || m == 6 || m == 9 || m == 11 then 30
    else 31
  }

  /** The dates `datetime.date` accepts. */
  predicate ValidDate(d: Date) {
    1 <= d.year <= 9999 && 1 <= d.month <= 12 && 1 <= d.day <= DaysInMonth(d.year, d.month)
  }

  /** Days in the years before `y` (CPython's `_days_before_year`). */
  function DaysBeforeYear(y: int): int
    requires y >= 1
  {
    var p := y - 1;
    p * 365 + p / 4 - p / 100 + p / 400
  }

  /** Days in the months of year `y` before month `m`. */
  function DaysBeforeMonth(y: int, m: int): nat
    requires 1 <= m <= 12
  {
    if m == 1 then 0 else DaysBeforeMonth(y, m - 1) + DaysInMonth(y, m - 1)
  }

  /** `date.toordinal()`: 0001-01-01 is day 1. */
  function Ordinal(d: Date): (o: int)
    requires ValidDate(d)
    ensures o >= 1
  {
    DaysBeforeYear(d.year) + DaysBeforeMonth(d.year, d.month) + d.day
  }

  /** `date.weekday()`: Monday is 0 and Sunday is 6. */
  function Weekday(d: Date): (w: int)
    requires ValidDate(d)
    ensures 0 <= w < 7
  {
    (Ordinal(d) + 6) % 7
  }

  /** The labels `_get_weekday` indexes, Monday first. */
  const WeekdayNames: seq<string> := ["周一", "周二", "周三", "周四", "周五", "周六", "周日"]

  /** `_get_weekday`: the label at the date's weekday index. */
  function WeekdayLabel(d: Date): (r: string)
    requires ValidDate(d)
    ensures r in WeekdayNames && |r| == 2 && r[0] == '周'
  {
    WeekdayNames[Weekday(d)]
  }

  /** The calendar day after `d`. */
  function NextDay(d: Date): (r: Date)
    requires ValidDate(d) && d != Date(9999, 12, 31)
    ensures ValidDate(r)
  {
    if d.day < DaysInMonth(d.year, d.month) then Date(d.year, d.month, d.day + 1)
    else if d.month < 12 then Date(d.year, d.month + 1, 1)
    else Date(d.year + 1, 1, 1)
  }

  lemma DaysBeforeDecember(y: int)
    ensures DaysBeforeMonth(y, 12) == if IsLeapYear(y) then 335 else 334
  {
    var b := if IsLeapYear(y) then 1 else 0;
    assert DaysBeforeMonth(y, 2) == 31;
    assert DaysBeforeMonth(y, 3) == 59 + b;
    assert DaysBeforeMonth(y, 4) == 90 + b;
    assert DaysBeforeMonth(y, 5) == 120 + b;
    assert DaysBeforeMonth(y, 6) == 151 + b;
    assert DaysBeforeMonth(y, 7) == 181 + b;
    assert DaysBeforeMonth(y, 8) == 212 + b;
    assert DaysBeforeMonth(y, 9) == 243 + b;
    assert DaysBeforeMonth(y, 10) == 273 + b;
    assert DaysBeforeMonth(y, 11) == 304 + b;
  }

  lemma DaysInYear(y: int)
    requires y >= 1
    ensures DaysBeforeYear(y + 1) == DaysBeforeYear(y) + if IsLeapYear(y) then 366 else 365
  {
    MultipleStep4(y);
    MultipleStep100(y);
    MultipleStep400(y);
  }

  // Going from `y - 1` to `y` passes one more multiple of 4 (100, 400)
  // exactly when `y` is one.

  lemma MultipleStep4(y: int)
    ensures y / 4 - (y - 1) / 4 == if y % 4 == 0 then 1 else 0
  {
  }

  lemma MultipleStep100(y: int)
    ensures y / 100 - (y - 1) / 100 == if y % 100 == 0 then 1 else 0
  {
  }

  lemma MultipleStep400(y: int)
    ensures y / 400 - (y - 1) / 400 == if y % 400 == 0 then 1 else 0
  {
  }

  /** Consecutive days have consecutive ordinals. */
  lemma NextDayOrdinal(d: Date)
    requires ValidDate(d) && d != Date(9999, 12, 31)
    ensures Ordinal(NextDay(d)) == Ordinal(d) + 1
  {
    if d.day == DaysInMonth(d.year, d.month) && d.month == 12 {
      DaysBeforeDecember(d.year);
      DaysInYear(d.year);
    }
  }

  /** The weekday label walks the Monday-first list one step per day,
      wrapping from Sunday to Monday. */
  lemma NextDayWeekday(d: Date)
    requires ValidDate(d) && d != Date(9999, 12, 31)
    ensures Weekday(NextDay(d)) == (Weekday(d) + 1) % 7
    ensures WeekdayLabel(NextDay(d)) == WeekdayNames[(Weekday(d) + 1) % 7]
  {
    var o := Ordinal(d);
    NextDayOrdinal(d);
    WeekdayStep(o, Weekday(d));
    assert Weekday(NextDay(d)) == (o + 7) % 7;
  }

  lemma WeekdayStep(o: int, w: int)
    requires w == (o + 6) % 7
    ensures (o + 7) % 7 == (w + 1) % 7
  {
    var q := (o + 6) / 7;
    assert o + 6 == 7 * q + w;
    if w == 6 {
      assert o + 7 == 7 * (q + 1);
    } else {
      assert o + 7 == 7 * q + (w + 1);
    }
  }

  /** 0001-01-01 was a Monday, labelled 周一; 2026-10-11 is a Sunday, labelled 周日. */
  lemma KnownWeekdays()
    ensures Weekday(Date(1, 1, 1)) == 0 && WeekdayLabel(Date(1, 1, 1)) == "周一"
    ensures Weekday(Date(2026, 10, 11)) == 6 && WeekdayLabel(Date(2026, 10, 11)) == "周日"
  {
    assert DaysBeforeMonth(2026, 10) == 273;
  }

  /** `strftime("%Y<sep>%m<sep>%d")`: four-digit year, two-digit month and
      day, each zero-padded. */
  function FormatDate(d: Date, sep: char): (s: string)
    requires ValidDate(d)
    ensures |s| == 10 && s[4] == sep && s[7] == sep
  {
    PadDecimal(d.year, 4) + [sep] + PadDecimal(d.month, 2) + [sep] + PadDecimal(d.day, 2)
  }

  /** `date_str`, `strftime("%Y-%m-%d")`. */
  function DashDate(d: Date): (s: string)
    requires ValidDate(d)
    ensures |s| == 10 && ParseDate(s, '-') == Some(d)
  {
    DateRoundTrip(d, '-');
    FormatDate(d, '-')
  }

  /** `date_file`, `strftime("%Y_%m_%d")`. */
  function UnderscoreDate(d: Date): (s: string)
    requires ValidDate(d)
    ensures |s| == 10 && ParseDate(s, '_') == Some(d)
  {
    DateRoundTrip(d, '_');
    FormatDate(d, '_')
  }

  /** Reads a `YYYY<sep>MM<sep>DD` string back into a date. */
  function ParseDate(s: string, sep: char): Option<Date> {
    if |s| == 10 && s[4] == sep && s[7] == sep
       && (forall k :: 0 <= k < 10 && k != 4 && k != 7 ==> IsDigit(s[k]))
    then
      var d := Date(DecimalValue(s[..4]), DecimalValue(s[5..7]), DecimalValue(s[8..]));
      if ValidDate(d) then Some(d) else None
    else None
  }

  /** Formatting a date and reading it back gives the same year, month and day. */
  lemma DateRoundTrip(d: Date, sep: char)
    requires ValidDate(d)
    ensures ParseDate(FormatDate(d, sep), sep) == Some(d)
  {
    var s := FormatDate(d, sep);
    assert s[..4] == PadDecimal(d.year, 4);
    assert s[5..7] == PadDecimal(d.month, 2);
    assert s[8..] == PadDecimal(d.day, 2);
    DecimalRoundTrip(d.year, 4);
    DecimalRoundTrip(d.month, 2);
    DecimalRoundTrip(d.day, 2);
  }

  /** Different dates give different date strings. */
  lemma FormatDateInjective(d1: Date, d2: Date, sep: char)
    requires ValidDate(d1) && ValidDate(d2) && FormatDate(d1, sep) == FormatDate(d2, sep)
    ensures d1 == d2
  {
    DateRoundTrip(d1, sep);
    DateRoundTrip(d2, sep);
  }

  /** `date_str` and `date_file` carry the same year, month and day digits and
      differ only in the two separators. */
  lemma DateStringsAgree(d: Date)
    requires ValidDate(d)
    ensures |DashDate(d)| == |UnderscoreDate(d)| == 10
    ensures forall k :: 0 <= k < 10 && k != 4 && k != 7 ==> DashDate(d)[k] == UnderscoreDate(d)[k]
    ensures DashDate(d)[4] == DashDate(d)[7] == '-' && UnderscoreDate(d)[4] == UnderscoreDate(d)[7] == '_'
  {
  }
}
