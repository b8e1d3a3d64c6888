/**
 * Calendar days and instants as the pages compare them through JavaScript's `Date`.
 * A date string parses to midnight of that day; an unparsable string gives an
 * invalid date, and every `<` or `>` involving an invalid date is false.
 * Time zones are not modelled: every instant is read in one fixed zone.
 */
module Dates {
  import opened Wrappers

  datatype Date = Date(year: int, month: int, day: int)

  /** The ranges an ISO `YYYY-MM-DD` string must respect to parse. */
  predicate WellFormed(d: Date) {
    1 <= d.month <= 12 && 1 <= d.day <= 31
  }

  /** Chronological order of calendar days. */
  predicate Before(a: Date, b: Date) {
    a.year < b.year || (a.year == b.year && (a.month < b.month || (a.month == b.month && a.day < b.day)))
  }

  /** Months counted from year 0; `setMonth` arithmetic is arithmetic on this index. */
  function MonthIndex(d: Date): int {
    d.year * 12 + (d.month - 1)
  }

  /** A number that orders well-formed days chronologically (used as a sort key). */
  function DayNumber(d: Date): int {
    MonthIndex(d) * 31 + (d.day - 1)
  }

  lemma BeforeIsDayNumberOrder(a: Date, b: Date)
    requires WellFormed(a) && WellFormed(b)
    ensures Before(a, b) <==> DayNumber(a) < DayNumber(b)
  {
    var ma, mb := MonthIndex(a), MonthIndex(b);
    assert Before(a, b) <==> ma < mb || (ma == mb && a.day < b.day);
    if ma < mb {
      assert (mb - ma) * 31 >= 31;
    } else if mb < ma {
      assert (ma - mb) * 31 >= 31;
    }
  }

  /** A point in time: a day and the milliseconds elapsed since its midnight. */
  datatype Instant = Instant(date: Date, msOfDay: int)

  predicate InstantBefore(a: Instant, b: Instant) {
    Before(a.date, b.date) || (a.date == b.date && a.msOfDay < b.msOfDay)
  }

  function Midnight(d: Date): Instant {
    Instant(d, 0)
  }

  /**
   * `t.setMonth(t.getMonth() - 2)`: two calendar months back, borrowing from the year;
   * the day of the month and the time of day are kept.
   */
  function TwoMonthsBefore(now: Instant): (r: Instant)
    ensures MonthIndex(r.date) == MonthIndex(now.date) - 2
    ensures r.date.day == now.date.day && r.msOfDay == now.msOfDay
    ensures 1 <= now.date.month <= 12 ==> 1 <= r.date.month <= 12
  {
    var d := now.date;
    if d.month > 2 then Instant(Date(d.year, d.month - 2, d.day), now.msOfDay)
    else Instant(Date(d.year - 1, d.month + 10, d.day), now.msOfDay)
  }

  /** The cutoff always lies strictly before "now". */
  lemma TwoMonthsBeforeIsEarlier(now: Instant)
    requires WellFormed(now.date)
    ensures InstantBefore(TwoMonthsBefore(now), now)
  {
  }

  function DigitValue(c: char): int {
    c as int - '0' as int
  }

  predicate IsDigit(c: char) {
    '0' <= c <= '9'
  }

  function DigitChar(n: int): (c: char)
    requires 0 <= n < 10
    ensures IsDigit(c) && DigitValue(c) == n
  {
    ('0' as int + n) as char
  }

  /** `new Date(s)` for the ISO calendar-date form `YYYY-MM-DD`; `None` is an invalid date. */
  function ParseIsoDate(s: string): (r: Option<Date>)
    ensures r.Some? ==> WellFormed(r.value) && 0 <= r.value.year <= 9999
  {
    if |s| == 10 && s[4] == '-' && s[7] == '-'
       && IsDigit(s[0]) && IsDigit(s[1]) && IsDigit(s[2]) && IsDigit(s[3])
       && IsDigit(s[5]) && IsDigit(s[6]) && IsDigit(s[8]) && IsDigit(s[9])
    then
      var y := DigitValue(s[0]) * 1000 + DigitValue(s[1]) * 100 + DigitValue(s[2]) * 10 + DigitValue(s[3]);
      var m := DigitValue(s[5]) * 10 + DigitValue(s[6]);
      var d := DigitValue(s[8]) * 10 + DigitValue(s[9]);
      if 1 <= m <= 12 && 1 <= d <= 31 then Some(Date(y, m, d)) else None
    else None
  }

  /** `toISOString().split('T')[0]`: the `YYYY-MM-DD` form of a day. */
  function FormatIsoDate(d: Date): (s: string)
    requires WellFormed(d) && 0 <= d.year <= 9999
    ensures |s| == 10
  {
    [DigitChar(d.year / 10 / 10 / 10), DigitChar(d.year / 10 / 10 % 10), DigitChar(d.year / 10 % 10), DigitChar(d.year % 10), '-',
     DigitChar(d.month / 10), DigitChar(d.month % 10), '-',
     DigitChar(d.day / 10), DigitChar(d.day % 10)]
  }

  /** A formatted day parses back to itself. */
  lemma ParseFormatRoundTrip(d: Date)
    requires WellFormed(d) && 0 <= d.year <= 9999
    ensures ParseIsoDate(FormatIsoDate(d)) == Some(d)
  {
    var s := FormatIsoDate(d);
    FourDigits(d.year);
    TwoDigits(d.month);
    TwoDigits(d.day);
    assert DigitValue(s[0]) == d.year / 10 / 10 / 10 && DigitValue(s[1]) == d.year / 10 / 10 % 10;
    assert DigitValue(s[2]) == d.year / 10 % 10 && DigitValue(s[3]) == d.year % 10;
    assert DigitValue(s[5]) == d.month / 10 && DigitValue(s[6]) == d.month % 10;
    assert DigitValue(s[8]) == d.day / 10 && DigitValue(s[9]) == d.day % 10;
  }

  lemma FourDigits(n: int)
    requires 0 <= n <= 9999
    ensures n / 10 / 10 / 10 * 1000 + n / 10 / 10 % 10 * 100 + n / 10 % 10 * 10 + n % 10 == n
    ensures 0 <= n / 10 / 10 / 10 < 10
  {
    var q1 := n / 10;
    var q2 := q1 / 10;
    assert n == q1 * 10 + n % 10;
    assert q1 == q2 * 10 + q1 % 10;
    assert q2 == q2 / 10 * 10 + q2 % 10;
  }

  lemma TwoDigits(n: int)
    requires 0 <= n <= 31
    ensures n / 10 * 10 + n % 10 == n && 0 <= n / 10 < 10
  {
  }

  /** `new Date(x) < new Date(y)` for two date strings. */
  predicate FechaBefore(x: string, y: string) {
    var a, b := ParseIsoDate(x), ParseIsoDate(y);
    a.Some? && b.Some? && Before(a.value, b.value)
  }

  /** `new Date(x) < t` for a date string and an instant. */
  predicate FechaBeforeInstant(x: string, t: Instant) {
    var a := ParseIsoDate(x);
    a.Some? && InstantBefore(Midnight(a.value), t)
  }

  /** `getMonth()` and `getFullYear()` of the parsed date both equal those of `now`. */
  predicate InMonthOf(x: string, now: Instant) {
    var a := ParseIsoDate(x);
    a.Some? && a.value.year == now.date.year && a.value.month == now.date.month
  }

  /**
   * The inactivity boundary: a report dated on the cutoff day itself is before the
   * cutoff as soon as "now" is past midnight, and one dated on any later day is not.
   */
  lemma CutoffBoundary(now: Instant, fecha: string)
    requires WellFormed(now.date) && 0 <= TwoMonthsBefore(now).date.year <= 9999
    requires fecha == FormatIsoDate(TwoMonthsBefore(now).date)
    ensures FechaBeforeInstant(fecha, TwoMonthsBefore(now)) <==> 0 < now.msOfDay
  {
    ParseFormatRoundTrip(TwoMonthsBefore(now).date);
  }

  /** A day strictly after the cutoff day is never before the cutoff. */
  lemma AfterCutoffDayIsNotBefore(now: Instant, fecha: string)
    requires 0 <= now.msOfDay
    requires ParseIsoDate(fecha).Some? && Before(TwoMonthsBefore(now).date, ParseIsoDate(fecha).value)
    ensures !FechaBeforeInstant(fecha, TwoMonthsBefore(now))
  {
  }
}
