/** Calendar dates as the reports use them: Python `datetime` values that are
    only ever compared, stepped by `timedelta(days = n)` and truncated with
    `replace(day = 1)`.  The reports key their dicts by `strftime('%Y-%m-%d')`
    strings; for four-digit years the string order of those keys is exactly the
    (year, month, day) order `Before` below, so a key is modelled by its `Date`. */
module Calendar {

  datatype Date = Date(year: int, month: int, day: int)

  /** Gregorian leap years (the proleptic calendar of Python's `datetime`). */
  predicate IsLeap(year: int) {
    (year % 4 == 0 && year % 100 != 0) || year % 400 == 0
  }

  function DaysInMonth(year: int, month: int): (n: int)
    requires 1 <= month <= 12
    ensures 28 <= n <= 31
    ensures month == 2 <==> n < 30
  {
    if month == 2 then (if IsLeap(year) then 29 else 28)
    else if month == 4 || month == 6 || month == 9 || month == 11 then 30
    else 31
  }

  predicate ValidDate(d: Date) {
    1 <= d.month <= 12 && 1 <= d.day <= DaysInMonth(d.year, d.month)
  }

  /** Strict chronological order: the order of the `'%Y-%m-%d'` keys. */
  predicate Before(a: Date, b: Date) {
    a.year < b.year ||
    (a.year == b.year && (a.month < b.month || (a.month == b.month && a.day < b.day)))
  }

  /** The date one day later (`d + timedelta(days = 1)`). */
  function NextDay(d: Date): (r: Date)
    requires ValidDate(d)
    ensures ValidDate(r) && Before(d, r)
  {
    if d.day < DaysInMonth(d.year, d.month) then Date(d.year, d.month, d.day + 1)
    else if d.month < 12 then Date(d.year, d.month + 1, 1)
    else Date(d.year + 1, 1, 1)
  }

  /** `d + timedelta(days = n)`. */
  function AddDays(d: Date, n: nat): (r: Date)
    requires ValidDate(d)
    ensures ValidDate(r)
    decreases n
  {
    if n == 0 then d else AddDays(NextDay(d), n - 1)
  }

  /** `d.replace(day = 1)`. */
  function FirstOfMonth(d: Date): Date {
    Date(d.year, d.month, 1)
  }

  /** The first day of the calendar month after the one holding `d`. */
  function NextMonthStart(d: Date): Date {
    if d.month < 12 then Date(d.year, d.month + 1, 1) else Date(d.year + 1, 1, 1)
  }

  /** Months counted from year 0; strictly grows from a month to the next. */
  function MonthIndex(d: Date): int {
    d.year * 12 + d.month
  }

  /** Adding days that stay inside the month only moves the day of the month. */
  lemma {:induction false} AddDaysWithinMonth(d: Date, n: nat)
    requires ValidDate(d)
    requires d.day + n <= DaysInMonth(d.year, d.month)
    ensures AddDays(d, n) == Date(d.year, d.month, d.day + n)
    decreases n
  {
    if n > 0 {
      AddDaysWithinMonth(NextDay(d), n - 1);
    }
  }

  /** `d + a days + b days == d + (a + b) days`. */
  lemma {:induction false} AddDaysSplit(d: Date, a: nat, b: nat)
    requires ValidDate(d)
    ensures AddDays(d, a + b) == AddDays(AddDays(d, a), b)
    decreases a
  {
    if a > 0 {
      AddDaysSplit(NextDay(d), a - 1, b);
    }
  }

  /** The month-stepping idiom `(d + timedelta(days = 32)).replace(day = 1)`
      lands on the first day of the next month whenever `d` is a first of month:
      32 days overshoot every month (at most 31 days) but reach at most the
      fifth day of the following one. */
  lemma Add32FromFirstOfMonth(d: Date)
    requires ValidDate(d) && d.day == 1
    ensures FirstOfMonth(AddDays(d, 32)) == NextMonthStart(d)
  {
    var len := DaysInMonth(d.year, d.month);
    AddDaysWithinMonth(d, len - 1);
    var last := Date(d.year, d.month, len);
    assert AddDays(d, len - 1) == last;
    var next := NextDay(last);
    assert next == NextMonthStart(d);
    AddDaysSplit(d, len - 1, 33 - len);
    assert AddDays(last, 33 - len) == AddDays(next, 32 - len);
    AddDaysWithinMonth(next, 32 - len);
  }
}
