/** `create_report_html` of the monthly drafts: one row per month in ascending
    order, striped by `row_color`, holding for every key of the display list its
    cost (0.0 when the month lacks it) and its coloured change. */
module Summary {
  import opened Common
  import opened Calendar
  import opened Ledger
  import opened Style
  import Display
  import Deltas
  import PeriodIndex

  /** The summary's columns: the three tracked accounts and the month total.
      `'Others'` is not on the list, so its column is never drawn. */
  const DisplayListMonthly: seq<Key> := ["384352530920", "454229460814", "235163852221", MonthTotal]

  /** One key's pair of cells in a month row: the cost and its change. */
  datatype Pair = Pair(cost: real, delta: DeltaCell)

  /** One month row of the summary. */
  datatype MonthRow = MonthRow(style: RowStyle, month: Date, pairs: seq<Pair>)

  /** `.get(acct_id, {}).get('Cost', 0.0)` and `.get('percentDelta', None)`
      rendered through `evaluate_change`. */
  function PairOf(row: Row, k: Key): (p: Pair)
    ensures k !in row ==> p == Pair(0.0, Blank)
    ensures k in row ==> p.cost == row[k].cost
    ensures p.delta.Colored? <==> k in row && row[k].percentDelta.Change?
    ensures p.delta.Colored? ==> p.delta.value == row[k].percentDelta.value
  {
    if k in row then Pair(row[k].cost, DeltaCellOf(row[k].percentDelta)) else Pair(0.0, Blank)
  }

  /** The cells of one month, in display-list order. */
  function PairsOf(row: Row, display: seq<Key>): seq<Pair> {
    seq(|display|, j requires 0 <= j < |display| => PairOf(row, display[j]))
  }

  /** The cells of one month row, built key by key. */
  method MonthPairs(row: Row, display: seq<Key>) returns (pairs: seq<Pair>)
    ensures |pairs| == |display|
    ensures forall j :: 0 <= j < |display| ==> pairs[j] == PairOf(row, display[j])
  {
    pairs := [];
    for j := 0 to |display|
      invariant |pairs| == j
      invariant forall i :: 0 <= i < j ==> pairs[i] == PairOf(row, display[i])
    {
      var cost := 0.0;
      var pct: Option<real> := None;
      if display[j] in row {
        cost := row[display[j]].cost;
        pct := PercentValue(row[display[j]].percentDelta);
      }
      pairs := pairs + [Pair(cost, EvaluateChange(pct))];
    }
  }

  /** The month rows of `create_report_html`: every month of the report exactly
      once, ascending, the i-th striped by `row_color(i)`. */
  method SummaryRows(report: Report, display: seq<Key>) returns (rows: seq<MonthRow>)
    ensures |rows| == |report.Keys|
    ensures forall m :: m in report <==> exists i :: 0 <= i < |rows| && rows[i].month == m
    ensures forall i, j :: 0 <= i < j < |rows| ==> Before(rows[i].month, rows[j].month)
    ensures forall i :: 0 <= i < |rows| ==>
      rows[i].month in report && rows[i].style == RowColor(i) && rows[i].pairs == PairsOf(report[rows[i].month], display)
  {
    var months := Deltas.SortedPeriods(report);
    rows := MonthRows(report, months, display);
    DistinctCount(months, report.Keys);
    forall m | m in report ensures exists i :: 0 <= i < |rows| && rows[i].month == m {
      var i :| 0 <= i < |months| && months[i] == m;
      assert rows[i].month == m;
    }
  }

  /** The loop `for i, (month, data) in enumerate(...)` over the given months. */
  method MonthRows(report: Report, months: seq<Date>, display: seq<Key>) returns (rows: seq<MonthRow>)
    requires forall i :: 0 <= i < |months| ==> months[i] in report
    ensures |rows| == |months|
    ensures forall i :: 0 <= i < |months| ==>
      rows[i] == MonthRow(RowColor(i), months[i], PairsOf(report[months[i]], display))
  {
    rows := [];
    for i := 0 to |months|
      invariant |rows| == i
      invariant forall k :: 0 <= k < i ==> rows[k] == MonthRow(RowColor(k), months[k], PairsOf(report[months[k]], display))
    {
      var pairs := MonthPairs(report[months[i]], display);
      rows := rows + [MonthRow(RowColor(i), months[i], pairs)];
    }
  }

  /** An increasing list of the elements of a set lists each exactly once. */
  lemma {:induction false} DistinctCount(months: seq<Date>, keys: set<Date>)
    requires forall x :: x in months <==> x in keys
    requires PeriodIndex.Increasing(months)
    ensures |months| == |keys|
    decreases |months|
  {
    if months != [] {
      var last := months[|months| - 1];
      var init := months[..|months| - 1];
      assert last !in init by {
        forall k | 0 <= k < |init| ensures init[k] != last {
          assert Before(months[k], months[|months| - 1]);
        }
      }
      forall x ensures x in init <==> x in keys - {last} {
        if x in init {
          var k :| 0 <= k < |init| && init[k] == x;
          assert x in months;
        }
        if x in keys - {last} {
          assert x in months;
          var k :| 0 <= k < |months| && months[k] == x;
          assert k < |months| - 1;
          assert init[k] == x;
        }
      }
      DistinctCount(init, keys - {last});
    }
  }

  /** End to end: in every month the monthly pipeline produces, the summary's
      `monthTotal` column shows the sum of every account's cost that month. */
  lemma SummaryTotalIsAccountSum(index: seq<Date>, costs: seq<AccountCosts>, m: Date)
    requires forall i :: 0 <= i < |costs| ==> costs[i].account != MonthTotal
    requires m in MonthlyLedgerOf(index, costs)
    ensures var ledger := MonthlyLedgerOf(index, costs);
      var shown := Deltas.MonthlyPercentOf(Display.ProjectOf(ledger, DisplayListMonthly));
      m in shown && PairOf(shown[m], MonthTotal).cost == SumOver(ledger[m], ledger[m].Keys - {MonthTotal})
  {
    var ledger: Report := MonthlyLedgerOf(index, costs);
    MonthlyLedgerTotals(index, costs);
    var projected: Report := Display.ProjectOf(ledger, DisplayListMonthly);
    assert MonthTotal in DisplayListMonthly;
    assert MonthTotal != Others;
    assert projected[m][MonthTotal] == ledger[m][MonthTotal];
    var shown: Report := Deltas.MonthlyPercentOf(projected);
    assert shown[m][MonthTotal].cost == projected[m][MonthTotal].cost;
  }
}
