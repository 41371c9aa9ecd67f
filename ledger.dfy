/** The period ledger: `process_costchanges_per_month` (monthly drafts) and
    `process_costchanges_per_day` (daily draft).  Both turn the per-account Cost
    Explorer results into a dict keyed by period start, whose value maps each
    account that had a result for that period to `{'Cost': amount}`, and add a
    total entry (`'monthTotal'` / `'dayTotal'`) holding the sum of the row.

    A Python dict is a Dafny `map`; its insertion order is not modelled (every
    consumer either sorts the keys or walks a fixed list).  Cost Explorer amounts
    are `real`: the model sums exactly where Python sums floats. */
module Ledger {
  import opened Common
  import opened Calendar
  import PeriodIndex

  type Key = string

  /** Row keys the reports add next to the account ids. */
  const MonthTotal: Key := "monthTotal"
  const DayTotal: Key := "dayTotal"
  const Others: Key := "Others"

  /** The `'percentDelta'` field of an entry: not yet set (the ledger passes
      create `{'Cost': c}` only), Python `None`, or a fractional change. */
  datatype PercentDelta = Absent | Null | Change(value: real)

  datatype Entry = Entry(cost: real, percentDelta: PercentDelta)

  type Row = map<Key, Entry>
  type Report = map<Date, Row>

  /** One element of `ResultsByTime`: the period's `Start` and its
      `UnblendedCost` amount. */
  datatype PeriodCost = PeriodCost(start: Date, amount: real)

  /** One item of `accountCostDict`: an account id and its `ResultsByTime`. */
  datatype AccountCosts = AccountCosts(account: Key, results: seq<PeriodCost>)

  // ---------------------------------------------------------------------------
  // Sums over the keys of a row

  /** The sum of the costs of the keys `ks` of `row`, in no particular order. */
  ghost function SumOver(row: Row, ks: set<Key>): real
    requires ks <= row.Keys
    decreases |ks|
  {
    if ks == {} then 0.0
    else
      var k :| k in ks;
      row[k].cost + SumOver(row, ks - {k})
  }

  /** The sum of every cost in a row. */
  ghost function RowSum(row: Row): real {
    SumOver(row, row.Keys)
  }

  /** Any key may be taken out first: the sum does not depend on the order. */
  lemma {:induction false} SumOverRemove(row: Row, ks: set<Key>, k: Key)
    requires ks <= row.Keys && k in ks
    ensures SumOver(row, ks) == row[k].cost + SumOver(row, ks - {k})
    decreases |ks|
  {
    var j :| j in ks && SumOver(row, ks) == row[j].cost + SumOver(row, ks - {j});
    if j != k {
      SumOverRemove(row, ks - {j}, k);
      SumOverRemove(row, ks - {k}, j);
      assert ks - {j} - {k} == ks - {k} - {j};
    }
  }

  /** The sum over two disjoint key sets is the sum of the two sums. */
  lemma {:induction false} SumOverSplit(row: Row, a: set<Key>, b: set<Key>)
    requires a + b <= row.Keys && a !! b
    ensures SumOver(row, a + b) == SumOver(row, a) + SumOver(row, b)
    decreases |a|
  {
    if a == {} {
      assert a + b == b;
    } else {
      var x :| x in a;
      SumOverRemove(row, a + b, x);
      SumOverRemove(row, a, x);
      assert (a + b) - {x} == (a - {x}) + b;
      SumOverSplit(row, a - {x}, b);
    }
  }

  /** Two rows whose costs agree on `ks` have the same sum over `ks`. */
  lemma {:induction false} SumOverAgree(r1: Row, r2: Row, ks: set<Key>)
    requires ks <= r1.Keys && ks <= r2.Keys
    requires forall k :: k in ks ==> r1[k].cost == r2[k].cost
    ensures SumOver(r1, ks) == SumOver(r2, ks)
    decreases |ks|
  {
    if ks != {} {
      var x :| x in ks;
      SumOverRemove(r1, ks, x);
      SumOverRemove(r2, ks, x);
      SumOverAgree(r1, r2, ks - {x});
    }
  }

  /** The inner `for acct_id in row: total += row[acct_id]['Cost']` loop (and the
      generator `sum(...)` of the fragment draft, which computes the same value). */
  method RowTotal(row: Row) returns (total: real)
    ensures total == RowSum(row)
  {
    total := 0.0;
    var todo := row.Keys;
    while todo != {}
      invariant todo <= row.Keys
      invariant total + SumOver(row, todo) == RowSum(row)
      decreases |todo|
    {
      var k :| k in todo;
      SumOverRemove(row, todo, k);
      total := total + row[k].cost;
      todo := todo - {k};
    }
  }

  // ---------------------------------------------------------------------------
  // Placing the Cost Explorer results

  /** `reportCostDict[date] = {}` for every period of the index. */
  function Seed(index: seq<Date>): Report {
    map d | d in index :: map[]
  }

  /** The seeding loop `for date in <index>: reportCostDict[date] = {}`. */
  method SeedPeriods(index: seq<Date>) returns (report: Report)
    ensures report == Seed(index)
  {
    report := map[];
    for i := 0 to |index|
      invariant report == Seed(index[..i])
    {
      report := report[index[i] := map[]];
    }
    assert index[..|index|] == index;
  }

  /** `reportCostDict[start][acct] = {'Cost': amount}`, creating the period's row
      first when it is missing (the monthly drafts' `if start not in ...`). */
  function Place(report: Report, account: Key, pc: PeriodCost): Report {
    var row := if pc.start in report then report[pc.start] else map[];
    report[pc.start := row[account := Entry(pc.amount, Absent)]]
  }

  /** One account's `ResultsByTime`, in order. */
  function PlaceResults(report: Report, account: Key, results: seq<PeriodCost>): Report
    decreases |results|
  {
    if results == [] then report
    else Place(PlaceResults(report, account, results[..|results| - 1]), account, results[|results| - 1])
  }

  /** Every account of `accountCostDict`, in order. */
  function PlaceAll(report: Report, costs: seq<AccountCosts>): Report
    decreases |costs|
  {
    if costs == [] then report
    else
      var last := costs[|costs| - 1];
      PlaceResults(PlaceAll(report, costs[..|costs| - 1]), last.account, last.results)
  }

  /** What `report[d][a]` holds, if anything. */
  function Cell(report: Report, d: Date, a: Key): Option<Entry> {
    if d in report && a in report[d] then Some(report[d][a]) else None
  }

  /** The amount of the last result of `results` for period `d`. */
  function LastAmount(results: seq<PeriodCost>, d: Date): (r: Option<real>)
    ensures r.Some? <==> exists j :: 0 <= j < |results| && results[j].start == d
    decreases |results|
  {
    if results == [] then None
    else if results[|results| - 1].start == d then Some(results[|results| - 1].amount)
    else
      var r := LastAmount(results[..|results| - 1], d);
      assert forall j :: 0 <= j < |results| - 1 ==> results[..|results| - 1][j] == results[j];
      r
  }

  /** The amount found belongs to a result for `d` that no later result for `d`
      follows. */
  lemma {:induction false} LastAmountIsLast(results: seq<PeriodCost>, d: Date)
    requires LastAmount(results, d).Some?
    ensures exists j :: 0 <= j < |results| && results[j] == PeriodCost(d, LastAmount(results, d).value)
                        && forall j' :: j < j' < |results| ==> results[j'].start != d
    decreases |results|
  {
    var n := |results| - 1;
    if results[n].start == d {
      assert results[n] == PeriodCost(d, LastAmount(results, d).value);
    } else {
      var init := results[..n];
      LastAmountIsLast(init, d);
      var j :| 0 <= j < |init| && init[j] == PeriodCost(d, LastAmount(init, d).value)
               && forall j' :: j < j' < |init| ==> init[j'].start != d;
      assert results[j] == init[j];
      forall j' | j < j' < |results| ensures results[j'].start != d {
        if j' < n {
          assert results[j'] == init[j'];
        }
      }
    }
  }

  /** The amount that ends up in `report[d][a]`: that of the last account item
      named `a` holding a result for `d` (a later write overwrites an earlier one). */
  function Placed(costs: seq<AccountCosts>, a: Key, d: Date): (r: Option<real>)
    ensures r.Some? ==> exists i :: 0 <= i < |costs| && costs[i].account == a
    decreases |costs|
  {
    if costs == [] then None
    else
      var last := costs[|costs| - 1];
      if last.account == a && LastAmount(last.results, d).Some? then LastAmount(last.results, d)
      else
        var r := Placed(costs[..|costs| - 1], a, d);
        assert forall i :: 0 <= i < |costs| - 1 ==> costs[..|costs| - 1][i] == costs[i];
        r
  }

  /** Some account item carries a result for period `d`. */
  ghost predicate HasResult(costs: seq<AccountCosts>, d: Date) {
    exists i, j :: 0 <= i < |costs| && 0 <= j < |costs[i].results| && costs[i].results[j].start == d
  }

  function AsEntry(amount: Option<real>, otherwise: Option<Entry>): Option<Entry> {
    if amount.Some? then Some(Entry(amount.value, Absent)) else otherwise
  }

  lemma {:induction false} PlaceResultsAt(report: Report, account: Key, results: seq<PeriodCost>, d: Date, a: Key)
    ensures d in PlaceResults(report, account, results) <==>
              d in report || exists j :: 0 <= j < |results| && results[j].start == d
    ensures Cell(PlaceResults(report, account, results), d, a) ==
              AsEntry(if a == account then LastAmount(results, d) else None, Cell(report, d, a))
    decreases |results|
  {
    if results != [] {
      var init := results[..|results| - 1];
      PlaceResultsAt(report, account, init, d, a);
      assert forall j :: 0 <= j < |init| ==> init[j] == results[j];
    }
  }

  /** Where the placement puts every account's results: a period is in the
      ledger iff it was seeded or some result names it, and each cell holds the
      last amount written to it. */
  lemma {:induction false} PlaceAllAt(report: Report, costs: seq<AccountCosts>, d: Date, a: Key)
    ensures d in PlaceAll(report, costs) <==> d in report || HasResult(costs, d)
    ensures Cell(PlaceAll(report, costs), d, a) == AsEntry(Placed(costs, a, d), Cell(report, d, a))
    decreases |costs|
  {
    if costs != [] {
      var init := costs[..|costs| - 1];
      var last := costs[|costs| - 1];
      PlaceAllAt(report, init, d, a);
      PlaceResultsAt(PlaceAll(report, init), last.account, last.results, d, a);
      assert forall i :: 0 <= i < |init| ==> init[i] == costs[i];
      if HasResult(costs, d) && !HasResult(init, d) {
        var i, j :| 0 <= i < |costs| && 0 <= j < |costs[i].results| && costs[i].results[j].start == d;
        assert i == |costs| - 1;
      }
    }
  }

  // ---------------------------------------------------------------------------
  // Totals

  /** Every row gets `totalKey` set to `{'Cost': <sum of the row>}`. */
  ghost function WithTotal(report: Report, totalKey: Key): Report {
    map d | d in report :: report[d][totalKey := Entry(RowSum(report[d]), Absent)]
  }

  /** Each row's total entry holds the sum of the row's other entries. */
  ghost predicate TotalsHold(report: Report, totalKey: Key) {
    forall d :: d in report ==>
      totalKey in report[d] && report[d][totalKey].cost == SumOver(report[d], report[d].Keys - {totalKey})
  }

  /** Adding the totals keeps the periods, and the total of a row that did not
      hold `totalKey` is the sum of everything else in it. */
  lemma WithTotalHolds(report: Report, totalKey: Key)
    requires forall d :: d in report ==> totalKey !in report[d]
    ensures WithTotal(report, totalKey).Keys == report.Keys
    ensures TotalsHold(WithTotal(report, totalKey), totalKey)
  {
    var t: Report := WithTotal(report, totalKey);
    forall d: Date | d in t
      ensures totalKey in t[d] && t[d][totalKey].cost == SumOver(t[d], t[d].Keys - {totalKey})
    {
      assert t[d].Keys - {totalKey} == report[d].Keys;
      SumOverAgree(t[d], report[d], report[d].Keys);
    }
  }

  /** The totals loop has handled every period outside `todo`. */
  ghost predicate TotalsDone(report: Report, totalKey: Key, r: Report, todo: set<Date>) {
    todo <= report.Keys && r.Keys == report.Keys &&
    (forall d :: d in report && d !in todo ==> r[d] == WithTotal(report, totalKey)[d]) &&
    (forall d :: d in todo ==> r[d] == report[d])
  }

  lemma TotalsDoneStep(report: Report, totalKey: Key, r: Report, todo: set<Date>, d: Date)
    requires TotalsDone(report, totalKey, r, todo) && d in todo
    ensures d in r && r[d] == report[d]
    ensures TotalsDone(report, totalKey, r[d := r[d][totalKey := Entry(RowSum(r[d]), Absent)]], todo - {d})
  {
  }

  /** The `for date in reportCostDict:` totals loop. */
  method AddTotals(report: Report, totalKey: Key) returns (r: Report)
    ensures r == WithTotal(report, totalKey)
  {
    r := report;
    var todo := report.Keys;
    while todo != {}
      invariant TotalsDone(report, totalKey, r, todo)
      decreases |todo|
    {
      var d :| d in todo;
      TotalsDoneStep(report, totalKey, r, todo, d);
      var total := RowTotal(r[d]);
      r := r[d := r[d][totalKey := Entry(total, Absent)]];
      todo := todo - {d};
    }
    var target := WithTotal(report, totalKey);
    assert r.Keys == target.Keys;
    forall d | d in r ensures r[d] == target[d] {
    }
  }

  // ---------------------------------------------------------------------------
  // The monthly ledger

  /** `process_costchanges_per_month`, as a value. */
  ghost function MonthlyLedgerOf(index: seq<Date>, costs: seq<AccountCosts>): Report {
    WithTotal(PlaceAll(Seed(index), costs), MonthTotal)
  }

  /** `process_costchanges_per_month`: seed every period of `MONTHLY_COST_DATES`,
      place every result (creating periods the index lacks), then total. */
  method MonthlyLedger(index: seq<Date>, costs: seq<AccountCosts>) returns (report: Report)
    ensures report == MonthlyLedgerOf(index, costs)
  {
    report := SeedPeriods(index);
    ghost var seed := report;
    for a := 0 to |costs|
      invariant report == PlaceAll(seed, costs[..a])
    {
      var account := costs[a].account;
      var results := costs[a].results;
      for j := 0 to |results|
        invariant report == PlaceResults(PlaceAll(seed, costs[..a]), account, results[..j])
      {
        var start := results[j].start;
        if start !in report {
          report := report[start := map[]];
        }
        report := report[start := report[start][account := Entry(results[j].amount, Absent)]];
        assert results[..j + 1][..j] == results[..j];
      }
      assert results[..|results|] == results;
      assert costs[..a + 1][..a] == costs[..a];
    }
    assert costs[..|costs|] == costs;
    report := AddTotals(report, MonthTotal);
  }

  /** The ledger's periods are exactly the seeded ones plus every period some
      result names. */
  lemma MonthlyLedgerPeriods(index: seq<Date>, costs: seq<AccountCosts>, d: Date)
    ensures d in MonthlyLedgerOf(index, costs) <==> d in index || HasResult(costs, d)
  {
    PlaceAllAt(Seed(index), costs, d, MonthTotal);
  }

  /** Each account cell holds the last amount Cost Explorer gave for that account
      and period, with no `'percentDelta'` yet; an account without a result for the
      period has no cell. */
  lemma MonthlyLedgerCells(index: seq<Date>, costs: seq<AccountCosts>, d: Date, a: Key)
    requires a != MonthTotal
    ensures Cell(MonthlyLedgerOf(index, costs), d, a) == AsEntry(Placed(costs, a, d), None)
  {
    PlaceAllAt(Seed(index), costs, d, a);
  }

  /** When no account is called `'monthTotal'`, every period's `monthTotal` is the
      sum of all account costs of that period. */
  lemma MonthlyLedgerTotals(index: seq<Date>, costs: seq<AccountCosts>)
    requires forall i :: 0 <= i < |costs| ==> costs[i].account != MonthTotal
    ensures TotalsHold(MonthlyLedgerOf(index, costs), MonthTotal)
  {
    var placed := PlaceAll(Seed(index), costs);
    forall d | d in placed ensures MonthTotal !in placed[d] {
      PlaceAllAt(Seed(index), costs, d, MonthTotal);
    }
    WithTotalHolds(placed, MonthTotal);
  }

  // ---------------------------------------------------------------------------
  // The daily ledger

  /** Every result names a day of the seeded window. */
  ghost predicate AllSeeded(window: seq<Date>, costs: seq<AccountCosts>) {
    forall i, j :: 0 <= i < |costs| && 0 <= j < |costs[i].results| ==> costs[i].results[j].start in window
  }

  /** The periods of `days` that the report holds (the `reportCostDict2` copy). */
  function Restrict(report: Report, days: seq<Date>): Report {
    map d | d in days && d in report :: report[d]
  }

  /** Every listed day is a seeded day. */
  ghost predicate AllListed(days: seq<Date>, window: seq<Date>) {
    forall i :: 0 <= i < |days| ==> days[i] in window
  }

  /** `process_costchanges_per_day`, as a value.  The draft reads the clock twice:
      `DAILY_COST_DATES` comes from the run of days `listed` (read at import), and
      the seeded days are `window` (read at the call).  It raises `KeyError` as
      soon as a result names a day outside the seeded window, since the day is
      looked up without being created, and again when a listed day was never
      seeded; otherwise it totals every seeded day and keeps only the days of
      `DAILY_COST_DATES`. */
  ghost function DailyLedgerOf(listed: seq<Date>, window: seq<Date>, costs: seq<AccountCosts>): Outcome<Report> {
    var days := PeriodIndex.NonFirstDays(listed);
    if AllSeeded(window, costs) && AllListed(days, window) then
      Ok(Restrict(WithTotal(PlaceAll(Seed(window), costs), DayTotal), days))
    else KeyError
  }

  /** The placement loop of the daily draft: `reportCostDict[start].update(...)`
      looks the day up without creating it, so a result for a day outside the
      seeded window raises `KeyError`. */
  method PlaceSeeded(window: seq<Date>, costs: seq<AccountCosts>) returns (r: Outcome<Report>)
    ensures AllSeeded(window, costs) ==> r == Ok(PlaceAll(Seed(window), costs))
    ensures !AllSeeded(window, costs) ==> r == KeyError
  {
    var report := SeedPeriods(window);
    ghost var seed := report;
    for a := 0 to |costs|
      invariant report == PlaceAll(seed, costs[..a])
      invariant report.Keys == seed.Keys
      invariant forall i, j :: 0 <= i < a && 0 <= j < |costs[i].results| ==> costs[i].results[j].start in window
    {
      var account := costs[a].account;
      var results := costs[a].results;
      for j := 0 to |results|
        invariant report == PlaceResults(PlaceAll(seed, costs[..a]), account, results[..j])
        invariant report.Keys == seed.Keys
        invariant forall j' :: 0 <= j' < j ==> results[j'].start in window
      {
        var start := results[j].start;
        if start !in report {
          assert costs[a].results[j].start !in window;
          return KeyError;
        }
        report := report[start := report[start][account := Entry(results[j].amount, Absent)]];
        assert results[..j + 1][..j] == results[..j];
      }
      assert results[..|results|] == results;
      assert costs[..a + 1][..a] == costs[..a];
    }
    assert costs[..|costs|] == costs;
    return Ok(report);
  }

  /** The `for day in DAILY_COST_DATES: reportCostDict2.update({day: reportCostDict[day]})`
      copy: `reportCostDict[day]` raises `KeyError` for a listed day the report
      lacks. */
  method RestrictToDays(report: Report, days: seq<Date>) returns (r: Outcome<Report>)
    ensures r.KeyError? <==> exists i :: 0 <= i < |days| && days[i] !in report
    ensures r.Ok? ==> r.value == Restrict(report, days)
  {
    var kept := map[];
    for i := 0 to |days|
      invariant kept == Restrict(report, days[..i])
      invariant forall j :: 0 <= j < i ==> days[j] in report
    {
      if days[i] !in report {
        return KeyError;
      }
      kept := kept[days[i] := report[days[i]]];
      assert forall d :: d in days[..i + 1] <==> d in days[..i] || d == days[i];
    }
    assert days[..|days|] == days;
    return Ok(kept);
  }

  /** `process_costchanges_per_day`: `listed` is the run of past days (oldest
      first) that `DAILY_COST_DATES` was built from, `window` the run of past
      days seeded at the call.  It fails iff a result lies outside the seeded
      window or a listed day other than a first of month was never seeded. */
  method DailyLedger(listed: seq<Date>, window: seq<Date>, costs: seq<AccountCosts>) returns (r: Outcome<Report>)
    ensures r == DailyLedgerOf(listed, window, costs)
    ensures r.KeyError? <==>
      (exists i, j :: 0 <= i < |costs| && 0 <= j < |costs[i].results| && costs[i].results[j].start !in window) ||
      (exists d :: d in listed && d.day != 1 && d !in window)
  {
    var placed := PlaceSeeded(window, costs);
    var days := PeriodIndex.DailyCostDates(listed);
    if placed.KeyError? {
      return KeyError;
    }
    forall d ensures d in placed.value <==> d in window {
      PlaceAllAt(Seed(window), costs, d, DayTotal);
    }
    var totals := AddTotals(placed.value, DayTotal);
    assert totals.Keys == placed.value.Keys;
    r := RestrictToDays(totals, days);
    if !AllListed(days, window) {
      var i :| 0 <= i < |days| && days[i] !in window;
      assert days[i] in days;
    }
  }

  /** When both clock reads fall on the same date, the only failure left is a
      result outside the seeded window. */
  lemma DailyLedgerSameDate(window: seq<Date>, costs: seq<AccountCosts>)
    ensures DailyLedgerOf(window, window, costs).KeyError? <==> !AllSeeded(window, costs)
  {
    var days := PeriodIndex.NonFirstDays(window);
    forall i | 0 <= i < |days| ensures days[i] in window {
      assert days[i] in days;
    }
  }

  /** The per-account query of the daily draft asks for MONTHLY periods from a
      first of month nine months back, so its results are dated before every
      seeded day; any such result makes the daily ledger raise `KeyError`. */
  lemma DailyLedgerRejectsEarlierPeriod(listed: seq<Date>, window: seq<Date>, costs: seq<AccountCosts>, i: int, j: int)
    requires 0 <= i < |costs| && 0 <= j < |costs[i].results|
    requires forall d :: d in window ==> Before(costs[i].results[j].start, d)
    ensures DailyLedgerOf(listed, window, costs).KeyError?
  {
    assert costs[i].results[j].start !in window;
  }

  /** A DAILY query over the seeded days returns results dated on those days
      only; with both clock reads on the same date the daily ledger then
      succeeds. */
  lemma DailyQueryFits(window: seq<Date>, costs: seq<AccountCosts>)
    requires AllSeeded(window, costs)
    ensures DailyLedgerOf(window, window, costs).Ok?
  {
    DailyLedgerSameDate(window, costs);
  }

  /** A successful daily ledger holds exactly the days of `DAILY_COST_DATES`, each
      with a `dayTotal` equal to the sum of its account costs (when no account is
      called `'dayTotal'`). */
  lemma DailyLedgerShape(listed: seq<Date>, window: seq<Date>, costs: seq<AccountCosts>)
    requires DailyLedgerOf(listed, window, costs).Ok?
    requires forall i :: 0 <= i < |costs| ==> costs[i].account != DayTotal
    ensures forall d :: d in DailyLedgerOf(listed, window, costs).value <==> d in listed && d.day != 1
    ensures TotalsHold(DailyLedgerOf(listed, window, costs).value, DayTotal)
  {
    var placed := PlaceAll(Seed(window), costs);
    var days := PeriodIndex.NonFirstDays(listed);
    forall d | d in placed ensures DayTotal !in placed[d] {
      PlaceAllAt(Seed(window), costs, d, DayTotal);
    }
    forall d ensures d in placed <==> d in window {
      PlaceAllAt(Seed(window), costs, d, DayTotal);
    }
    forall d | d in days ensures d in window {
      var i :| 0 <= i < |days| && days[i] == d;
    }
    WithTotalHolds(placed, DayTotal);
  }

  /** Each account cell of a successful daily ledger holds the last amount given
      for that account and day. */
  lemma DailyLedgerCells(listed: seq<Date>, window: seq<Date>, costs: seq<AccountCosts>, d: Date, a: Key)
    requires DailyLedgerOf(listed, window, costs).Ok?
    requires a != DayTotal && d in listed && d.day != 1
    ensures Cell(DailyLedgerOf(listed, window, costs).value, d, a) == AsEntry(Placed(costs, a, d), None)
  {
    var days := PeriodIndex.NonFirstDays(listed);
    var i :| 0 <= i < |days| && days[i] == d;
    PlaceAllAt(Seed(window), costs, d, a);
  }
}
