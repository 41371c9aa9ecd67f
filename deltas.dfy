/** The percent-change passes: `process_percentchanges_per_month` (monthly drafts)
    and `process_percentchanges_per_day` (daily draft).  Each sets every entry's
    `'percentDelta'` to the fractional change of its cost against the same key in
    the previous period, and leaves the costs alone.  The two drafts disagree on
    when the change is `None`: the monthly pass also gives `None` when this
    period's cost is zero, the daily pass only when the previous cost is zero
    (the `ZeroDivisionError` it catches), so a drop to zero reads -100% there. */
module Deltas {
  import opened Common
  import opened Calendar
  import opened Ordering
  import opened Ledger
  import PeriodIndex

  // ---------------------------------------------------------------------------
  // One cell

  /** The monthly rule: `None` when either cost is zero, else `curr / prev - 1`. */
  function ZeroGuarded(prev: real, curr: real): (p: PercentDelta)
    ensures p != Absent
    ensures p.Null? <==> prev == 0.0 || curr == 0.0
    ensures p.Change? ==> curr == prev * (1.0 + p.value) && p.value != -1.0
  {
    if prev == 0.0 || curr == 0.0 then Null else Change(curr / prev - 1.0)
  }

  /** The daily rule: `curr / prev - 1`, or `None` when the division by zero
      raises. */
  function DivideOrNull(prev: real, curr: real): (p: PercentDelta)
    ensures p != Absent
    ensures p.Null? <==> prev == 0.0
    ensures p.Change? ==> curr == prev * (1.0 + p.value)
  {
    if prev == 0.0 then Null else Change(curr / prev - 1.0)
  }

  /** The two rules agree except when the cost drops to zero, where the daily
      one reports a change of exactly -100%. */
  lemma RulesDifferOnDropToZero(prev: real, curr: real)
    ensures ZeroGuarded(prev, curr) != DivideOrNull(prev, curr) <==> prev != 0.0 && curr == 0.0
    ensures prev != 0.0 && curr == 0.0 ==> DivideOrNull(prev, curr) == Change(-1.0)
  {
  }

  /** `prev_cost`: the key's cost in the previous period, 0.0 when it has none. */
  function PrevCost(prev: Row, k: Key): real {
    if k in prev then prev[k].cost else 0.0
  }

  // ---------------------------------------------------------------------------
  // One period

  /** Two rows with the same keys and costs; `'percentDelta'` may differ. */
  ghost predicate SameRowCosts(a: Row, b: Row) {
    a.Keys == b.Keys && forall k :: k in a ==> a[k].cost == b[k].cost
  }

  /** Two reports with the same periods, keys and costs. */
  ghost predicate SameCosts(a: Report, b: Report) {
    a.Keys == b.Keys && forall d :: d in a ==> SameRowCosts(a[d], b[d])
  }

  /** The first period: every entry's change is `None`. */
  function NullRow(row: Row): (r: Row)
    ensures SameRowCosts(r, row)
    ensures forall k :: k in r ==> r[k].percentDelta == Null
  {
    map k | k in row :: Entry(row[k].cost, Null)
  }

  /** A later monthly period, against the previous one. */
  function MonthlyRow(curr: Row, prev: Row): (r: Row)
    ensures SameRowCosts(r, curr)
  {
    map k | k in curr :: Entry(curr[k].cost, ZeroGuarded(PrevCost(prev, k), curr[k].cost))
  }

  /** A later daily period: `prev[k]` is looked up without a guard, so a key
      missing from the previous day raises `KeyError` (only `ZeroDivisionError`
      is caught). */
  function DailyRow(curr: Row, prev: Row): (r: Outcome<Row>)
    ensures r.Ok? <==> curr.Keys <= prev.Keys
    ensures r.Ok? ==> SameRowCosts(r.value, curr)
  {
    if curr.Keys <= prev.Keys then
      Ok(map k | k in curr :: Entry(curr[k].cost, DivideOrNull(prev[k].cost, curr[k].cost)))
    else KeyError
  }

  /** The rows of a pass depend on keys and costs only. */
  lemma RowsReadCostsOnly(curr: Row, prev: Row, curr': Row, prev': Row)
    requires SameRowCosts(curr, curr') && SameRowCosts(prev, prev')
    ensures NullRow(curr) == NullRow(curr')
    ensures MonthlyRow(curr, prev) == MonthlyRow(curr', prev')
    ensures DailyRow(curr, prev) == DailyRow(curr', prev')
  {
    NullRowReadsCosts(curr, curr');
    MonthlyRowReadsCosts(curr, prev, curr', prev');
    DailyRowReadsCosts(curr, prev, curr', prev');
  }

  lemma NullRowReadsCosts(curr: Row, curr': Row)
    requires SameRowCosts(curr, curr')
    ensures NullRow(curr) == NullRow(curr')
  {
    assert NullRow(curr).Keys == NullRow(curr').Keys;
  }

  lemma MonthlyRowReadsCosts(curr: Row, prev: Row, curr': Row, prev': Row)
    requires SameRowCosts(curr, curr') && SameRowCosts(prev, prev')
    ensures MonthlyRow(curr, prev) == MonthlyRow(curr', prev')
  {
    assert MonthlyRow(curr, prev).Keys == MonthlyRow(curr', prev').Keys;
    forall k | k in curr
      ensures PrevCost(prev, k) == PrevCost(prev', k)
    {
    }
  }

  lemma DailyRowReadsCosts(curr: Row, prev: Row, curr': Row, prev': Row)
    requires SameRowCosts(curr, curr') && SameRowCosts(prev, prev')
    ensures DailyRow(curr, prev) == DailyRow(curr', prev')
  {
    if curr.Keys <= prev.Keys {
      var m := map k | k in curr :: Entry(curr[k].cost, DivideOrNull(prev[k].cost, curr[k].cost));
      var m' := map k | k in curr' :: Entry(curr'[k].cost, DivideOrNull(prev'[k].cost, curr'[k].cost));
      forall k | k in curr ensures m[k] == m'[k] {
        assert prev[k].cost == prev'[k].cost;
      }
      assert m.Keys == m'.Keys;
      assert m == m';
    }
  }

  /** The loop `for acct_id in row: row[acct_id]['percentDelta'] = None`. */
  method MarkFirstPeriod(row: Row) returns (out: Row)
    ensures out == NullRow(row)
  {
    out := map[];
    var todo := row.Keys;
    while todo != {}
      invariant todo <= row.Keys
      invariant out == map k | k in row && k !in todo :: Entry(row[k].cost, Null)
      decreases |todo|
    {
      var k :| k in todo;
      out := out[k := Entry(row[k].cost, Null)];
      todo := todo - {k};
    }
  }

  /** The monthly inner loop over `(acct_id, cost_data)` of a later period. */
  method MonthlyRowDeltas(curr: Row, prev: Row) returns (out: Row)
    ensures out == MonthlyRow(curr, prev)
  {
    out := map[];
    var todo := curr.Keys;
    while todo != {}
      invariant todo <= curr.Keys
      invariant out == map k | k in curr && k !in todo :: Entry(curr[k].cost, ZeroGuarded(PrevCost(prev, k), curr[k].cost))
      decreases |todo|
    {
      var k :| k in todo;
      var currCost := curr[k].cost;
      var prevCost := if k in prev then prev[k].cost else 0.0;
      var delta := if prevCost == 0.0 || currCost == 0.0 then Null else Change(currCost / prevCost - 1.0);
      out := out[k := Entry(currCost, delta)];
      todo := todo - {k};
    }
  }

  /** The daily inner loop of a later day, inside its `try`. */
  method DailyRowDeltas(curr: Row, prev: Row) returns (r: Outcome<Row>)
    ensures r == DailyRow(curr, prev)
  {
    var out: Row := map[];
    var todo := curr.Keys;
    while todo != {}
      invariant todo <= curr.Keys
      invariant forall k :: k in out <==> k in curr && k !in todo
      invariant forall k :: k in out ==> k in prev && out[k] == Entry(curr[k].cost, DivideOrNull(prev[k].cost, curr[k].cost))
      decreases |todo|
    {
      var k :| k in todo;
      if k !in prev {
        assert !(curr.Keys <= prev.Keys);
        return KeyError;
      }
      var prevCost := prev[k].cost;
      var delta := if prevCost == 0.0 then Null else Change(curr[k].cost / prevCost - 1.0);
      out := out[k := Entry(curr[k].cost, delta)];
      todo := todo - {k};
    }
    assert curr.Keys <= prev.Keys;
    assert out == map k | k in curr :: Entry(curr[k].cost, DivideOrNull(prev[k].cost, curr[k].cost));
    return Ok(out);
  }

  // ---------------------------------------------------------------------------
  // The monthly pass

  /** `p` is the latest period of `keys` before `d`. */
  ghost predicate IsPredecessor(keys: set<Date>, d: Date, p: Date) {
    p in keys && Before(p, d) && forall q :: q in keys && Before(q, d) ==> !Before(p, q)
  }

  lemma {:induction false} PredecessorExists(keys: set<Date>, d: Date, q: Date)
    requires q in keys && Before(q, d)
    ensures exists p :: IsPredecessor(keys, d, p)
    decreases |keys|
  {
    var rest := keys - {q};
    if q' :| q' in rest && Before(q', d) {
      PredecessorExists(rest, d, q');
      var p :| IsPredecessor(rest, d, p);
      if Before(p, q) {
        assert IsPredecessor(keys, d, q);
      } else {
        assert IsPredecessor(keys, d, p);
      }
    } else {
      assert IsPredecessor(keys, d, q);
    }
  }

  /** The period before `d` among `keys`, if any. */
  ghost function PrevPeriod(keys: set<Date>, d: Date): (r: Option<Date>)
    ensures r.None? <==> forall q :: q in keys ==> !Before(q, d)
    ensures r.Some? ==> IsPredecessor(keys, d, r.value)
  {
    if q :| q in keys && Before(q, d) then
      PredecessorExists(keys, d, q);
      var p :| IsPredecessor(keys, d, p);
      Some(p)
    else None
  }

  ghost function MonthlyPercentRow(report: Report, d: Date): (r: Row)
    requires d in report
    ensures SameRowCosts(r, report[d])
    ensures forall k :: k in r ==> r[k].percentDelta != Absent
  {
    match PrevPeriod(report.Keys, d)
    case None => NullRow(report[d])
    case Some(p) => MonthlyRow(report[d], report[p])
  }

  /** `process_percentchanges_per_month`, as a value: each period is compared with
      the latest earlier period of the report; the earliest gets `None` throughout.
      Only `'percentDelta'` changes, and every entry has one afterwards. */
  ghost function MonthlyPercentOf(report: Report): (r: Report)
    ensures SameCosts(r, report)
    ensures forall d, k :: d in r && k in r[d] ==> r[d][k].percentDelta != Absent
  {
    map d | d in report :: MonthlyPercentRow(report, d)
  }

  /** A report whose every period holds its monthly row is the pass's result. */
  lemma MonthlyPercentByRows(report: Report, r: Report)
    requires r.Keys == report.Keys
    requires forall d :: d in r ==> r[d] == MonthlyPercentRow(report, d)
    ensures r == MonthlyPercentOf(report)
  {
  }

  /** In a strictly ascending list of all the periods, the entry before each one
      is its predecessor. */
  lemma SortedPredecessor(keys: set<Date>, months: seq<Date>, i: int)
    requires forall x :: x in months <==> x in keys
    requires PeriodIndex.Increasing(months)
    requires 0 <= i < |months|
    ensures PrevPeriod(keys, months[i]) == if i == 0 then None else Some(months[i - 1])
  {
    forall q | q in keys && Before(q, months[i])
      ensures i > 0 && !Before(months[i - 1], q)
    {
      var j :| 0 <= j < |months| && months[j] == q;
      assert j < i;
    }
    if i > 0 {
      assert IsPredecessor(keys, months[i], months[i - 1]);
    }
  }

  /** One iteration of the monthly loop: only the keys and costs of the periods
      read matter, and those the earlier iterations leave as they were. */
  method MonthlyStep(report: Report, r: Report, months: seq<Date>, i: int) returns (row: Row)
    requires forall x :: x in months <==> x in report
    requires PeriodIndex.Increasing(months)
    requires 0 <= i < |months|
    requires r.Keys == report.Keys
    requires SameRowCosts(r[months[i]], report[months[i]])
    requires i > 0 ==> SameRowCosts(r[months[i - 1]], report[months[i - 1]])
    ensures row == MonthlyPercentRow(report, months[i])
  {
    var curr := months[i];
    SortedPredecessor(report.Keys, months, i);
    if i == 0 {
      RowsReadCostsOnly(r[curr], r[curr], report[curr], report[curr]);
      row := MarkFirstPeriod(r[curr]);
    } else {
      var prev := months[i - 1];
      RowsReadCostsOnly(r[curr], r[prev], report[curr], report[prev]);
      row := MonthlyRowDeltas(r[curr], r[prev]);
    }
  }

  /** `sorted(report.keys())`. */
  method SortedPeriods(report: Report) returns (months: seq<Date>)
    ensures forall x :: x in months <==> x in report
    ensures PeriodIndex.Increasing(months)
  {
    BeforeIsStrictTotalOrder();
    months := SortSet(report.Keys, Before);
  }

  /** The state of the monthly loop after the first `i` sorted periods: those
      hold their monthly rows, the others are as they were. */
  ghost predicate MonthlyDone(report: Report, months: seq<Date>, i: int, r: Report) {
    && 0 <= i <= |months|
    && (forall x :: x in months <==> x in report)
    && r.Keys == report.Keys
    && (forall j :: i <= j < |months| ==> r[months[j]] == report[months[j]])
    && (forall j :: 0 <= j < i ==> r[months[j]] == MonthlyPercentRow(report, months[j]))
  }

  /** One turn of the monthly loop: compute period `i`'s row and write it. */
  method MonthlyWrite(report: Report, months: seq<Date>, i: int, r: Report) returns (r': Report)
    requires PeriodIndex.Increasing(months)
    requires MonthlyDone(report, months, i, r) && i < |months|
    ensures MonthlyDone(report, months, i + 1, r')
  {
    var row := MonthlyStep(report, r, months, i);
    assert forall j :: 0 <= j < |months| && j != i ==> months[j] != months[i];
    r' := r[months[i] := row];
  }

  /** `process_percentchanges_per_month`: walk `sorted(report.keys())`; the first
      period gets `None` throughout, every later one is compared with the period
      just before it in that order. */
  method PercentChangesPerMonth(report: Report) returns (r: Report)
    ensures r == MonthlyPercentOf(report)
  {
    var months := SortedPeriods(report);
    r := report;
    for i := 0 to |months|
      invariant MonthlyDone(report, months, i, r)
    {
      r := MonthlyWrite(report, months, i, r);
    }
    forall d | d in r ensures r[d] == MonthlyPercentRow(report, d) {
      var j :| 0 <= j < |months| && months[j] == d;
    }
    MonthlyPercentByRows(report, r);
  }

  /** Running the monthly pass again changes nothing: it reads costs only, and
      keeps them. */
  lemma MonthlyPercentIdempotent(report: Report)
    ensures MonthlyPercentOf(MonthlyPercentOf(report)) == MonthlyPercentOf(report)
  {
    var once := MonthlyPercentOf(report);
    forall d | d in once
      ensures MonthlyPercentRow(once, d) == MonthlyPercentRow(report, d)
    {
      match PrevPeriod(report.Keys, d)
      case None =>
        RowsReadCostsOnly(once[d], once[d], report[d], report[d]);
      case Some(p) =>
        RowsReadCostsOnly(once[d], once[p], report[d], report[p]);
    }
  }

  /** The entry of an account in a period with an earlier period: the change
      against the latest earlier period, where an account missing there counts
      as a cost of 0.0, so its change is `None`. */
  lemma MonthlyPercentAt(report: Report, d: Date, p: Date, k: Key)
    requires d in report && k in report[d] && IsPredecessor(report.Keys, d, p)
    ensures MonthlyPercentOf(report)[d][k] ==
      Entry(report[d][k].cost, ZeroGuarded(PrevCost(report[p], k), report[d][k].cost))
    ensures k !in report[p] ==> MonthlyPercentOf(report)[d][k].percentDelta == Null
  {
    var p' := PrevPeriod(report.Keys, d).value;
    assert !Before(p, p') && !Before(p', p);
  }

  /** The entry of an account in the earliest period: its cost, and `None` as
      its change. */
  lemma MonthlyPercentFirst(report: Report, d: Date, k: Key)
    requires d in report && k in report[d]
    requires forall q :: q in report ==> !Before(q, d)
    ensures MonthlyPercentOf(report)[d][k] == Entry(report[d][k].cost, Null)
  {
    assert PrevPeriod(report.Keys, d).None?;
  }

  // ---------------------------------------------------------------------------
  // The daily pass

  /** `process_percentchanges_per_day` over the first `|dates|` entries of
      `DAILY_COST_DATES`, as a value.  Every `report[day]` lookup is unguarded. */
  function DailyPercentOf(report: Report, dates: seq<Date>): Outcome<Report>
    decreases |dates|
  {
    if dates == [] then Ok(report)
    else
      var n := |dates| - 1;
      match DailyPercentOf(report, dates[..n])
      case KeyError => KeyError
      case Ok(r) => DailyStep(r, dates, n)
  }

  /** Iteration `n` of the daily loop, on the report as the earlier iterations
      left it. */
  function DailyStep(r: Report, dates: seq<Date>, n: nat): Outcome<Report>
    requires n < |dates|
  {
    if dates[n] !in r then KeyError
    else if n == 0 then Ok(r[dates[0] := NullRow(r[dates[0]])])
    else if dates[n - 1] !in r then KeyError
    else match DailyRow(r[dates[n]], r[dates[n - 1]])
      case KeyError => KeyError
      case Ok(row) => Ok(r[dates[n] := row])
  }

  /** A successful daily pass keeps every period, key and cost. */
  lemma {:induction false} DailyPercentKeepsCosts(report: Report, dates: seq<Date>)
    ensures DailyPercentOf(report, dates).Ok? ==> SameCosts(DailyPercentOf(report, dates).value, report)
    decreases |dates|
  {
    if dates != [] {
      var n := |dates| - 1;
      var init := dates[..n];
      DailyPercentKeepsCosts(report, init);
      var res := DailyPercentOf(report, dates);
      if res.Ok? {
        var r := DailyPercentOf(report, init).value;
        assert res.value.Keys == r.Keys;
        assert SameRowCosts(res.value[dates[n]], r[dates[n]]);
      }
    }
  }

  /** The daily pass succeeds exactly when every listed day is in the report and
      no day has a key its previous listed day lacks. */
  lemma {:induction false} DailyPercentSucceeds(report: Report, dates: seq<Date>)
    ensures DailyPercentOf(report, dates).Ok? <==>
      (forall i :: 0 <= i < |dates| ==> dates[i] in report) &&
      (forall i :: 0 < i < |dates| ==> report[dates[i]].Keys <= report[dates[i - 1]].Keys)
    decreases |dates|
  {
    if dates != [] {
      var n := |dates| - 1;
      var init := dates[..n];
      DailyPercentSucceeds(report, init);
      DailyPercentKeepsCosts(report, init);
      assert forall i :: 0 <= i < n ==> init[i] == dates[i];
      var allIn := forall i :: 0 <= i < |dates| ==> dates[i] in report;
      var initIn := forall i :: 0 <= i < n ==> init[i] in report;
      assert allIn <==> initIn && dates[n] in report;
      if allIn {
        var shrink := forall i :: 0 < i < |dates| ==> report[dates[i]].Keys <= report[dates[i - 1]].Keys;
        var initShrink := forall i :: 0 < i < n ==> report[init[i]].Keys <= report[init[i - 1]].Keys;
        assert shrink <==> initShrink && (n > 0 ==> report[dates[n]].Keys <= report[dates[n - 1]].Keys);
      }
      var prefix := DailyPercentOf(report, init);
      if prefix.Ok? {
        var r := prefix.value;
        assert DailyPercentOf(report, dates) == DailyStep(r, dates, n);
        assert dates[n] in r <==> dates[n] in report;
        if n > 0 && dates[n] in report {
          assert r[dates[n]].Keys == report[dates[n]].Keys;
          assert r[dates[n - 1]].Keys == report[dates[n - 1]].Keys;
        }
      }
    }
  }

  /** After a successful daily pass, the first listed day holds `None` changes and
      every later listed day holds, per key, its change against the listed day
      before it. */
  lemma {:induction false} DailyPercentAt(report: Report, dates: seq<Date>, i: int, k: Key)
    requires PeriodIndex.Increasing(dates)
    requires forall j :: 0 <= j < |dates| ==> dates[j] in report
    requires DailyPercentOf(report, dates).Ok?
    requires 0 <= i < |dates|
    ensures var r := DailyPercentOf(report, dates).value;
      k in report[dates[i]] ==>
        dates[i] in r && k in r[dates[i]] &&
        r[dates[i]][k] == Entry(report[dates[i]][k].cost,
                                if i == 0 then Null else DivideOrNull(PrevCost(report[dates[i - 1]], k), report[dates[i]][k].cost))
    decreases |dates|
  {
    var n := |dates| - 1;
    if k in report[dates[i]] {
      if i < n {
        var init := dates[..n];
        assert forall j :: 0 <= j < n ==> init[j] == dates[j];
        var r := DailyPercentOf(report, init).value;
        DailyPercentAt(report, init, i, k);
        assert dates[n] != dates[i];
        assert DailyPercentOf(report, dates) == DailyStep(r, dates, n);
      } else {
        DailyPercentLast(report, dates, k);
      }
    }
  }

  /** The last listed day of a successful daily pass. */
  lemma DailyPercentLast(report: Report, dates: seq<Date>, k: Key)
    requires dates != [] && forall j :: 0 <= j < |dates| ==> dates[j] in report
    requires DailyPercentOf(report, dates).Ok?
    requires k in report[dates[|dates| - 1]]
    ensures var r := DailyPercentOf(report, dates).value;
      var n := |dates| - 1;
      dates[n] in r && k in r[dates[n]] &&
      r[dates[n]][k] == Entry(report[dates[n]][k].cost,
                              if n == 0 then Null else DivideOrNull(PrevCost(report[dates[n - 1]], k), report[dates[n]][k].cost))
  {
    var n := |dates| - 1;
    var init := dates[..n];
    DailyPercentKeepsCosts(report, init);
    var r := DailyPercentOf(report, init).value;
    assert DailyPercentOf(report, dates) == DailyStep(r, dates, n);
    assert SameRowCosts(r[dates[n]], report[dates[n]]);
    if n > 0 {
      assert dates[n - 1] in r;
      assert SameRowCosts(r[dates[n - 1]], report[dates[n - 1]]);
      assert k in r[dates[n - 1]];
    }
  }

  /** Once a prefix of the days fails, the whole pass fails. */
  lemma {:induction false} DailyPercentFailureSticks(report: Report, dates: seq<Date>, m: nat)
    requires m <= |dates| && DailyPercentOf(report, dates[..m]).KeyError?
    ensures DailyPercentOf(report, dates).KeyError?
    decreases |dates| - m
  {
    if m < |dates| {
      assert dates[..m + 1][..m] == dates[..m];
      DailyPercentFailureSticks(report, dates, m + 1);
    } else {
      assert dates[..m] == dates;
    }
  }

  /** `process_percentchanges_per_day`: the `while i < period` loop over
      `DAILY_COST_DATES`. */
  method PercentChangesPerDay(report: Report, dates: seq<Date>) returns (r: Outcome<Report>)
    ensures r == DailyPercentOf(report, dates)
  {
    var cur := report;
    for i := 0 to |dates|
      invariant DailyPercentOf(report, dates[..i]) == Ok(cur)
      invariant forall j :: 0 <= j < i ==> dates[j] in cur
    {
      var next: Outcome<Report>;
      if dates[i] !in cur {
        next := KeyError;
      } else if i == 0 {
        var row := MarkFirstPeriod(cur[dates[0]]);
        next := Ok(cur[dates[0] := row]);
      } else {
        var row := DailyRowDeltas(cur[dates[i]], cur[dates[i - 1]]);
        next := if row.KeyError? then KeyError else Ok(cur[dates[i] := row.value]);
      }
      assert next == DailyStep(cur, dates, i);
      assert dates[..i + 1][..i] == dates[..i];
      assert DailyPercentOf(report, dates[..i + 1]) == next;
      if next.KeyError? {
        DailyPercentFailureSticks(report, dates, i + 1);
        return KeyError;
      }
      cur := next.value;
    }
    assert dates[..|dates|] == dates;
    return Ok(cur);
  }
}
