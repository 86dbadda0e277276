/**
 * Proleptic Gregorian calendar dates and the few date operations the
 * application relies on: date-fns' `addWeeks`, `endOfMonth` and `isBefore`,
 * and JavaScript's `Date.prototype.setMonth` / `setDate`, which let an
 * out-of-range day spill over into the following month.
 *
 * A `Date` is a calendar day; an `Instant` is a day together with the
 * milliseconds elapsed since its midnight. Time zones are not modelled: every
 * date is read in one fixed zone.
 */
module Calendar {

  datatype Date = Date(year: int, month: int, day: int)

  /** A moment in time: a day and the milliseconds since its midnight. */
  datatype Instant = Instant(date: Date, millis: int)

  const MillisPerDay: int := 86400000

  predicate IsLeapYear(y: int) {
    y % 4 == 0 && (y % 100 != 0 || y % 400 == 0)
  }

  function DaysInMonth(y: int, m: int): (n: int)
    requires 1 <= m <= 12
    ensures 28 <= n <= 31
    ensures n == 31 <==> m in {1, 3, 5, 7, 8, 10, 12}
    ensures n == 29 <==> m == 2 && IsLeapYear(y)
    ensures n == 28 <==> m == 2 && !IsLeapYear(y)
  {
    if m == 2 then (if IsLeapYear(y) then 29 else 28)
    else if m == 4 || m == 6 || m == 9 || m == 11 then 30
    else 31
  }

  predicate ValidDate(d: Date) {
    1 <= d.month <= 12 && 1 <= d.day <= DaysInMonth(d.year, d.month)
  }

  predicate ValidInstant(t: Instant) {
    ValidDate(t.date) && 0 <= t.millis < MillisPerDay
  }

  predicate SameMonth(a: Date, b: Date) {
    a.year == b.year && a.month == b.month
  }

  /** Chronological order of days: by year, then month, then day. */
  predicate DateLess(a: Date, b: Date) {
    a.year < b.year
    || (a.year == b.year && a.month < b.month)
    || (a.year == b.year && a.month == b.month && a.day < b.day)
  }

  predicate DateLe(a: Date, b: Date) {
    a == b || DateLess(a, b)
  }

  /** date-fns `isBefore`: strictly earlier in time. */
  predicate IsBefore(a: Instant, b: Instant) {
    DateLess(a.date, b.date) || (a.date == b.date && a.millis < b.millis)
  }

  /** The instant a "YYYY-MM-DD" day begins. */
  function StartOfDay(d: Date): (t: Instant)
    requires ValidDate(d)
    ensures ValidInstant(t) && t.date == d
  {
    Instant(d, 0)
  }

  /** The last day of the month `d` lies in. */
  function LastDayOfMonth(d: Date): (r: Date)
    requires ValidDate(d)
    ensures ValidDate(r) && SameMonth(r, d) && DateLe(d, r)
  {
    Date(d.year, d.month, DaysInMonth(d.year, d.month))
  }

  /** date-fns `endOfMonth`: the last millisecond of the month `d` lies in. */
  function EndOfMonth(d: Date): (t: Instant)
    requires ValidDate(d)
    ensures ValidInstant(t) && SameMonth(t.date, d)
  {
    Instant(LastDayOfMonth(d), MillisPerDay - 1)
  }

  /** The day after `d`, rolling over month and year ends. */
  function NextDay(d: Date): (r: Date)
    requires ValidDate(d)
    ensures ValidDate(r) && DateLess(d, r)
  {
    if d.day < DaysInMonth(d.year, d.month) then Date(d.year, d.month, d.day + 1)
    else if d.month < 12 then Date(d.year, d.month + 1, 1)
    else Date(d.year + 1, 1, 1)
  }

  /** date-fns `addDays` for a non-negative count. */
  function AddDays(d: Date, n: nat): (r: Date)
    requires ValidDate(d)
    ensures ValidDate(r)
    decreases n
  {
    if n == 0 then d else AddDays(NextDay(d), n - 1)
  }

  /** date-fns `addWeeks`: seven days per week. */
  function AddWeeks(d: Date, w: nat): (r: Date)
    requires ValidDate(d)
    ensures ValidDate(r)
  {
    AddDays(d, 7 * w)
  }

  /**
   * `setMonth(getMonth() + 1)` on a date: JavaScript keeps the day-of-month
   * number and counts it from the first day of the next month, so a day that
   * the next month does not have overflows into the month after it.
   */
  function AddMonthJs(d: Date): (r: Date)
    requires ValidDate(d)
    ensures ValidDate(r)
  {
    var y := if d.month == 12 then d.year + 1 else d.year;
    var m := if d.month == 12 then 1 else d.month + 1;
    AddDays(Date(y, m, 1), d.day - 1)
  }

  /** No moment of the month comes after `endOfMonth`. */
  lemma EndOfMonthLatest(d: Date, u: Instant)
    requires ValidDate(d) && ValidInstant(u) && SameMonth(u.date, d)
    ensures !IsBefore(EndOfMonth(d), u)
  {
  }

  /** A day starts before `endOfMonth` exactly when it is on or before the month's last day. */
  lemma StartOfDayBeforeEndOfMonth(d: Date, e: Date)
    requires ValidDate(d) && ValidDate(e)
    ensures IsBefore(StartOfDay(e), EndOfMonth(d)) <==> DateLe(e, LastDayOfMonth(d))
  {
  }

  /** `NextDay` is the successor: no valid day lies strictly between `d` and it. */
  lemma NextDayImmediate(d: Date, e: Date)
    requires ValidDate(d) && ValidDate(e) && DateLess(d, e)
    ensures DateLe(NextDay(d), e)
  {
  }

  lemma DateLessTransitive(a: Date, b: Date, c: Date)
    requires DateLess(a, b) && DateLess(b, c)
    ensures DateLess(a, c)
  {
  }

  /** Adding days within the month only moves the day number. */
  lemma {:induction false} AddDaysWithinMonth(d: Date, n: nat)
    requires ValidDate(d) && d.day + n <= DaysInMonth(d.year, d.month)
    ensures AddDays(d, n) == Date(d.year, d.month, d.day + n)
    decreases n
  {
    if n > 0 {
      AddDaysWithinMonth(NextDay(d), n - 1);
    }
  }

  /** Adding days never moves a date backwards. */
  lemma {:induction false} AddDaysNotEarlier(d: Date, n: nat)
    requires ValidDate(d)
    ensures DateLe(d, AddDays(d, n))
    ensures n > 0 ==> DateLess(d, AddDays(d, n))
    decreases n
  {
    if n > 1 {
      AddDaysNotEarlier(NextDay(d), n - 1);
      DateLessTransitive(d, NextDay(d), AddDays(NextDay(d), n - 1));
    }
  }

  /** Adding more days than remain in the month leaves the month. */
  lemma {:induction false} AddDaysPastMonth(d: Date, n: nat)
    requires ValidDate(d) && d.day + n > DaysInMonth(d.year, d.month)
    ensures DateLess(LastDayOfMonth(d), AddDays(d, n))
    decreases n
  {
    if d.day == DaysInMonth(d.year, d.month) {
      AddDaysNotEarlier(NextDay(d), n - 1);
    } else {
      AddDaysPastMonth(NextDay(d), n - 1);
    }
  }

  /** Days added one batch after another add up. */
  lemma {:induction false} AddDaysAdditive(d: Date, n: nat, k: nat)
    requires ValidDate(d)
    ensures AddDays(AddDays(d, n), k) == AddDays(d, n + k)
    decreases n
  {
    if n > 0 {
      AddDaysAdditive(NextDay(d), n - 1, k);
    }
  }

  /** One more week after `w` weeks is `w + 1` weeks. */
  lemma AddWeeksStep(d: Date, w: nat)
    requires ValidDate(d)
    ensures AddWeeks(AddWeeks(d, w), 1) == AddWeeks(d, w + 1)
  {
    AddDaysAdditive(d, 7 * w, 7);
  }

  /**
   * What `setMonth(getMonth() + 1)` produces: the same day in the next month
   * when that month has it, otherwise the overflow into the month after.
   */
  lemma AddMonthJsCases(d: Date)
    requires ValidDate(d)
    ensures var y := if d.month == 12 then d.year + 1 else d.year;
            var m := if d.month == 12 then 1 else d.month + 1;
            var n := DaysInMonth(y, m);
            if d.day <= n then AddMonthJs(d) == Date(y, m, d.day)
            else AddMonthJs(d) == Date(y, m + 1, d.day - n)
  {
    var y := if d.month == 12 then d.year + 1 else d.year;
    var m := if d.month == 12 then 1 else d.month + 1;
    var n := DaysInMonth(y, m);
    if d.day <= n {
      AddDaysWithinMonth(Date(y, m, 1), d.day - 1);
    } else {
      // Only months of 31 days are followed by shorter ones, and the month
      // after a short one always has at least three days to take the overflow.
      assert m != 12 && d.day - n <= 3;
      var last := Date(y, m, n);
      AddDaysWithinMonth(Date(y, m, 1), n - 1);
      AddDaysAdditive(Date(y, m, 1), n - 1, d.day - n);
      assert NextDay(last) == Date(y, m + 1, 1);
      AddDaysWithinMonth(Date(y, m + 1, 1), d.day - n - 1);
    }
  }

  /** January 31st moves to March 3rd in a common year: February is skipped. */
  lemma AddMonthJsSkipsFebruary()
    ensures AddMonthJs(Date(2025, 1, 31)) == Date(2025, 3, 3)
  {
    AddMonthJsCases(Date(2025, 1, 31));
  }

  /** The month-end gate: tomorrow is in another month exactly on a month's last day. */
  lemma TomorrowInOtherMonth(today: Date)
    requires ValidDate(today)
    ensures NextDay(today).month != today.month <==> today == LastDayOfMonth(today)
  {
  }
}
