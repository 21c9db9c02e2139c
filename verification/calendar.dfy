/**
 * Proleptic Gregorian calendar arithmetic used by the settlement and money
 * transaction code: last day of a month (two implementations), month
 * arithmetic with day clipping (`relativedelta(months=k)`), day arithmetic
 * (`timedelta(days=k)`), timestamps and the `%Y%m` month tag.
 */
module Calendar {
  datatype Date = Date(year: int, month: int, day: int)

  /** A timestamp: a date and the second of that day (time zones are not modelled). */
  datatype DateTime = DateTime(date: Date, second: int)

  predicate IsLeapYear(y: int)
  {
    y % 4 == 0 && (y % 100 != 0 || y % 400 == 0)
  }

  function DaysInMonth(y: int, m: int): (n: int)
    requires 1 <= m <= 12
    ensures 28 <= n <= 31
    ensures n == 28 <==> m == 2 && !IsLeapYear(y)
    ensures n == 29 <==> m == 2 && IsLeapYear(y)
  {
    if m == 2 then (if IsLeapYear(y) then 29 else 28)
    else if m == 4 || m == 6 || m == 9 || m == 11 then 30
    else 31
  }

  predicate ValidDate(d: Date)
  {
    1 <= d.month <= 12 && 1 <= d.day <= DaysInMonth(d.year, d.month)
  }

  predicate ValidDateTime(t: DateTime)
  {
    ValidDate(t.date) && 0 <= t.second < 86400
  }

  /** Months counted from year 0, so that consecutive months differ by one. */
  function MonthIndex(d: Date): int
  {
    d.year * 12 + (d.month - 1)
  }

  /** Chronological order of dates. */
  predicate DateBefore(a: Date, b: Date)
  {
    a.year < b.year
    || (a.year == b.year && a.month < b.month)
    || (a.year == b.year && a.month == b.month && a.day < b.day)
  }

  /** Chronological order of timestamps. */
  predicate Before(a: DateTime, b: DateTime)
  {
    DateBefore(a.date, b.date) || (a.date == b.date && a.second < b.second)
  }

  predicate AtOrBefore(a: DateTime, b: DateTime)
  {
    Before(a, b) || a == b
  }

  lemma BeforeTotal(a: DateTime, b: DateTime)
    ensures Before(a, b) || a == b || Before(b, a)
    ensures !(Before(a, b) && Before(b, a))
  {
  }

  lemma BeforeTransitive(a: DateTime, b: DateTime, c: DateTime)
    requires Before(a, b) && Before(b, c)
    ensures Before(a, c)
  {
  }

  /** A later month index means a later date, whatever the days. */
  lemma MonthIndexOrdersDates(a: Date, b: Date)
    requires ValidDate(a) && ValidDate(b)
    requires MonthIndex(a) < MonthIndex(b)
    ensures DateBefore(a, b)
  {
  }

  /**
   * `monthrange` based last day of the month: the same month with the day
   * replaced by the month's length (the time of day is kept by callers).
   */
  function LastDayOfMonth(d: Date): (r: Date)
    requires ValidDate(d)
    ensures ValidDate(r) && MonthIndex(r) == MonthIndex(d)
    ensures !DateBefore(r, d)
    ensures forall e: Date :: ValidDate(e) && MonthIndex(e) == MonthIndex(d) ==> !DateBefore(r, e)
  {
    Date(d.year, d.month, DaysInMonth(d.year, d.month))
  }

  function NextDay(d: Date): (r: Date)
    requires ValidDate(d)
    ensures ValidDate(r) && DateBefore(d, r)
  {
    if d.day < DaysInMonth(d.year, d.month) then Date(d.year, d.month, d.day + 1)
    else if d.month < 12 then Date(d.year, d.month + 1, 1)
    else Date(d.year + 1, 1, 1)
  }

  function PrevDay(d: Date): (r: Date)
    requires ValidDate(d)
    ensures ValidDate(r) && DateBefore(r, d)
  {
    if d.day > 1 then Date(d.year, d.month, d.day - 1)
    else if d.month > 1 then Date(d.year, d.month - 1, DaysInMonth(d.year, d.month - 1))
    else Date(d.year - 1, 12, 31)
  }

  /** `d + timedelta(days=n)`. */
  function AddDays(d: Date, n: nat): (r: Date)
    requires ValidDate(d)
    ensures ValidDate(r)
    ensures n > 0 ==> DateBefore(d, r)
    decreases n
  {
    if n == 0 then d
    else
      var r := AddDays(NextDay(d), n - 1);
      DateBeforeTransitive(d, NextDay(d), r);
      r
  }

  /** `d - timedelta(days=n)`. */
  function SubDays(d: Date, n: nat): (r: Date)
    requires ValidDate(d)
    ensures ValidDate(r)
    ensures n > 0 ==> DateBefore(r, d)
    decreases n
  {
    if n == 0 then d
    else
      var r := SubDays(PrevDay(d), n - 1);
      DateBeforeTransitive(r, PrevDay(d), d);
      r
  }

  lemma DateBeforeTransitive(a: Date, b: Date, c: Date)
    requires (DateBefore(a, b) || a == b) && (DateBefore(b, c) || b == c)
    ensures (DateBefore(a, c) || a == c)
    ensures DateBefore(a, b) || DateBefore(b, c) ==> DateBefore(a, c)
  {
  }

  /**
   * The shared utility's algorithm: move to day 28, step four days forward
   * (always into the next month), then step back as many days as the day of
   * the month reached.
   */
  function LastDayOfMonthByProbe(d: Date): (r: Date)
    requires ValidDate(d)
    ensures ValidDate(r)
  {
    var probe := AddDays(Date(d.year, d.month, 28), 4);
    SubDays(probe, probe.day)
  }

  /** Stepping back `k` days from day `k` of a month lands on the last day of the month before. */
  lemma {:induction false} SubDaysToMonthStart(d: Date, k: nat)
    requires ValidDate(d) && 1 <= k == d.day
    ensures SubDays(d, k) == PrevDay(Date(d.year, d.month, 1))
    decreases k
  {
    if k > 1 {
      SubDaysToMonthStart(PrevDay(d), k - 1);
    }
  }

  /** The probing algorithm agrees with the calendar table. */
  lemma LastDayOfMonthByProbeCorrect(d: Date)
    requires ValidDate(d)
    ensures LastDayOfMonthByProbe(d) == LastDayOfMonth(d)
  {
    var start := Date(d.year, d.month, 28);
    var p1 := NextDay(start);
    var p2 := NextDay(p1);
    var p3 := NextDay(p2);
    var p4 := NextDay(p3);
    assert AddDays(start, 4) == p4 by {
      assert AddDays(p3, 1) == AddDays(p4, 0);
      assert AddDays(p2, 2) == AddDays(p3, 1);
      assert AddDays(p1, 3) == AddDays(p2, 2);
    }
    var next := if d.month < 12 then Date(d.year, d.month + 1, 1) else Date(d.year + 1, 1, 1);
    assert Date(p4.year, p4.month, 1) == next;
    SubDaysToMonthStart(p4, p4.day);
  }

  /** Python `datetime` ordering of the due date derived from the probe: never earlier, same month. */
  lemma LastDayOfMonthByProbeProperties(d: Date)
    requires ValidDate(d)
    ensures LastDayOfMonthByProbe(d).year == d.year && LastDayOfMonthByProbe(d).month == d.month
    ensures LastDayOfMonthByProbe(d).day == DaysInMonth(d.year, d.month)
    ensures !DateBefore(LastDayOfMonthByProbe(d), d)
    ensures LastDayOfMonthByProbe(LastDayOfMonthByProbe(d)) == LastDayOfMonthByProbe(d)
  {
    LastDayOfMonthByProbeCorrect(d);
    LastDayOfMonthByProbeCorrect(LastDayOfMonthByProbe(d));
  }

  /** The date in the month with index `idx` (see MonthIndex) with the given day clipped to that month. */
  function DateInMonth(idx: int, day: int): (r: Date)
    requires 1 <= day
    ensures ValidDate(r) && MonthIndex(r) == idx
    ensures r.day == if day <= DaysInMonth(r.year, r.month) then day else DaysInMonth(r.year, r.month)
  {
    var y := idx / 12;
    var m := idx % 12 + 1;
    Date(y, m, if day <= DaysInMonth(y, m) then day else DaysInMonth(y, m))
  }

  /** `d + relativedelta(months=k)`: move k months and clip the day to the new month's length. */
  function AddMonths(d: Date, k: int): (r: Date)
    requires ValidDate(d)
    ensures ValidDate(r) && MonthIndex(r) == MonthIndex(d) + k
    ensures r.day <= d.day
    ensures d.day <= DaysInMonth(r.year, r.month) ==> r.day == d.day
  {
    DateInMonth(MonthIndex(d) + k, d.day)
  }

  /** The date with a given month index is determined by its day. */
  lemma MonthIndexDetermines(a: Date, b: Date)
    requires ValidDate(a) && ValidDate(b)
    requires MonthIndex(a) == MonthIndex(b)
    ensures a.year == b.year && a.month == b.month
  {
  }

  /** `dt + relativedelta(months=k)` on a timestamp keeps the time of day. */
  function AddMonthsAt(t: DateTime, k: int): (r: DateTime)
    requires ValidDateTime(t)
    ensures ValidDateTime(r) && r.second == t.second
    ensures MonthIndex(r.date) == MonthIndex(t.date) + k
  {
    DateTime(AddMonths(t.date, k), t.second)
  }

  /** `dt + timedelta(days=n)` on a timestamp keeps the time of day. */
  function AddDaysAt(t: DateTime, n: nat): (r: DateTime)
    requires ValidDateTime(t)
    ensures ValidDateTime(r) && r.second == t.second
    ensures n > 0 ==> Before(t, r)
  {
    DateTime(AddDays(t.date, n), t.second)
  }

  /** `int(dt.strftime("%Y%m"))` for four-digit years. */
  function YearMonth(t: DateTime): (r: int)
    requires ValidDateTime(t) && 0 <= t.date.year <= 9999
    ensures r / 100 == t.date.year && r % 100 == t.date.month
  {
    t.date.year * 100 + t.date.month
  }

  /** The month tag orders months chronologically. */
  lemma YearMonthMonotone(a: DateTime, b: DateTime)
    requires ValidDateTime(a) && ValidDateTime(b)
    requires 0 <= a.date.year <= 9999 && 0 <= b.date.year <= 9999
    ensures YearMonth(a) < YearMonth(b) <==> MonthIndex(a.date) < MonthIndex(b.date)
  {
  }
}
