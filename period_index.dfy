/** The reporting window as a list of period keys: `MONTHLY_COST_DATES` built by
    the month-stepping loop of the monthly drafts, and `DAILY_COST_DATES`, the
    daily draft's window of past days with every first of a month removed.
    The wall-clock values these start from (`datetime.now()`) are parameters. */
module PeriodIndex {
  import opened Calendar

  predicate Increasing(s: seq<Date>) {
    forall i, j :: 0 <= i < j < |s| ==> Before(s[i], s[j])
  }

  /** What the month-stepping loop has built once it reaches `temp`: every first
      of month from `start` up to, not including, `temp`, month after month, all
      before `end`. */
  ghost predicate MonthsSoFar(dates: seq<Date>, start: Date, temp: Date, end: Date) {
    && ValidDate(temp) && temp.day == 1
    && (|dates| == 0 ==> temp == start)
    && (|dates| > 0 ==> dates[0] == start && temp == NextMonthStart(dates[|dates| - 1]))
    && (forall i :: 0 <= i < |dates| ==> ValidDate(dates[i]) && dates[i].day == 1 && Before(dates[i], end))
    && (forall i :: 0 < i < |dates| ==> dates[i] == NextMonthStart(dates[i - 1]))
    && (forall i :: 0 <= i < |dates| ==> Before(dates[i], temp))
    && Increasing(dates)
    && (forall f: Date :: ValidDate(f) && f.day == 1 && !Before(f, start) && Before(f, temp) ==> f in dates)
  }

  /** No first of month lies strictly between a first of month and the next. */
  lemma NoFirstBetween(d: Date, f: Date)
    requires d.day == 1 && f.day == 1 && ValidDate(d) && ValidDate(f)
    requires !Before(f, d) && Before(f, NextMonthStart(d))
    ensures f == d
  {
  }

  /** One turn of the loop keeps `MonthsSoFar`. */
  lemma MonthsSoFarStep(dates: seq<Date>, start: Date, temp: Date, end: Date)
    requires MonthsSoFar(dates, start, temp, end) && Before(temp, end)
    ensures MonthsSoFar(dates + [temp], start, NextMonthStart(temp), end)
  {
    var next := NextMonthStart(temp);
    var ds := dates + [temp];
    forall f: Date | ValidDate(f) && f.day == 1 && !Before(f, start) && Before(f, next)
      ensures f in ds
    {
      if Before(f, temp) {
        assert f in dates;
      } else {
        NoFirstBetween(temp, f);
      }
    }
    forall i | 0 <= i < |ds| ensures Before(ds[i], next) {
      if i < |dates| {
        assert Before(dates[i], temp);
      }
    }
    forall i, j | 0 <= i < j < |ds| ensures Before(ds[i], ds[j]) {
      if j < |dates| {
        assert ds[i] == dates[i] && ds[j] == dates[j];
      } else {
        assert Before(dates[i], temp);
      }
    }
  }

  /** The `while temp_date < end_date` loop: starting from `start` (always a first
      of month, being built with `replace(day = 1)`), append the key and step with
      `(temp_date + timedelta(days = 32)).replace(day = 1)`.  The result is every
      first of month from `start` up to, not including, `end`, in order. */
  method MonthlyCostDates(start: Date, end: Date) returns (dates: seq<Date>)
    requires ValidDate(start) && start.day == 1 && ValidDate(end)
    ensures |dates| > 0 <==> Before(start, end)
    ensures |dates| > 0 ==> dates[0] == start
    ensures forall i :: 0 <= i < |dates| ==> ValidDate(dates[i]) && dates[i].day == 1 && Before(dates[i], end)
    ensures forall i :: 0 < i < |dates| ==> dates[i] == NextMonthStart(dates[i - 1])
    ensures Increasing(dates)
    ensures forall f: Date :: ValidDate(f) && f.day == 1 && !Before(f, start) && Before(f, end) ==> f in dates
  {
    dates := [];
    var temp := start;
    while Before(temp, end)
      invariant MonthsSoFar(dates, start, temp, end)
      decreases MonthIndex(end) + 1 - MonthIndex(temp)
    {
      MonthsSoFarStep(dates, start, temp, end);
      dates := dates + [temp];
      Add32FromFirstOfMonth(temp);
      temp := FirstOfMonth(AddDays(temp, 32));
    }
    forall f: Date | ValidDate(f) && f.day == 1 && !Before(f, start) && Before(f, end)
      ensures f in dates
    {
      assert Before(f, temp);
    }
  }

  /** `DAILY_COST_DATES`: the days of the window, in order, except those whose
      day of the month is `'01'`. */
  function NonFirstDays(window: seq<Date>): (r: seq<Date>)
    ensures forall d :: d in r <==> d in window && d.day != 1
    ensures Increasing(window) ==> Increasing(r)
  {
    if window == [] then []
    else
      var rest := NonFirstDays(window[..|window| - 1]);
      var last := window[|window| - 1];
      assert forall d :: d in window[..|window| - 1] ==> d in window;
      if last.day != 1 then rest + [last] else rest
  }

  /** The `for x in range(DAYSBACK + 1, 1, -1)` loop over the window of past days
      (oldest first), keeping a day only when `strftime('%d') != '01'`. */
  method DailyCostDates(window: seq<Date>) returns (dates: seq<Date>)
    ensures dates == NonFirstDays(window)
  {
    dates := [];
    for i := 0 to |window|
      invariant dates == NonFirstDays(window[..i])
    {
      assert window[..i + 1][..i] == window[..i];
      if window[i].day != 1 {
        dates := dates + [window[i]];
      }
    }
    assert window[..|window|] == window;
  }
}
