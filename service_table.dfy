/** `generate_html_table`: the per-service breakdown.  For every account a header
    spanning the table, then one row per service: its name, then its amount in
    every period, each amount after the first preceded by its change against the
    amount before it.  The monthly drafts walk the sorted period starts and show
    every service; the daily draft walks the periods in the order Cost Explorer
    gave them, rounds amounts to cents, hides services whose every amount is
    zero and stripes only the rows it shows. */
module ServiceTable {
  import opened Common
  import opened Calendar
  import opened Ordering
  import opened Ledger
  import opened Style
  import opened Breakdown
  import Deltas

  /** A cell of a service row. */
  datatype BreakdownCell = Service(name: Key) | Dollars(amount: real) | Delta(change: DeltaCell)

  datatype ServiceRow = ServiceRow(style: RowStyle, cells: seq<BreakdownCell>)

  /** One account's part of the table: the header's `colspan`, the periods of the
      sub-header and the service rows. */
  datatype AccountBlock = AccountBlock(account: Key, colspan: int, periods: seq<Date>, rows: seq<ServiceRow>)

  // ---------------------------------------------------------------------------
  // One row, whatever the draft

  /** The change cell between two consecutive amounts: blank when either is
      zero, else `evaluate_change(curr / prev - 1)`. */
  function ChangeCell(prev: real, curr: real): (c: DeltaCell)
    ensures c.Blank? <==> prev == 0.0 || curr == 0.0
    ensures c.Colored? ==> curr == prev * (1.0 + c.value)
  {
    DeltaCellOf(Deltas.ZeroGuarded(prev, curr))
  }

  /** The cells of a service row over its amounts, one per period. */
  function ServiceCells(name: Key, amounts: seq<real>): seq<BreakdownCell>
    decreases |amounts|
  {
    if amounts == [] then [Service(name)]
    else
      var n := |amounts| - 1;
      ServiceCells(name, amounts[..n])
        + (if n == 0 then [] else [Delta(ChangeCell(amounts[n - 1], amounts[n]))])
        + [Dollars(amounts[n])]
  }

  /** The layout of a row: the service name, then period j's amount at 2j+1
      and, from the second period on, its change at 2j. */
  lemma ServiceCellsLayout(name: Key, amounts: seq<real>)
    ensures |ServiceCells(name, amounts)| == if amounts == [] then 1 else 2 * |amounts|
    ensures ServiceCells(name, amounts)[0] == Service(name)
    ensures forall j :: 0 <= j < |amounts| ==> ServiceCells(name, amounts)[2 * j + 1] == Dollars(amounts[j])
    ensures forall j :: 0 < j < |amounts| ==>
      ServiceCells(name, amounts)[2 * j] == Delta(ChangeCell(amounts[j - 1], amounts[j]))
  {
    ServiceCellsHead(name, amounts);
    forall j | 0 <= j < |amounts| ensures ServiceCells(name, amounts)[2 * j + 1] == Dollars(amounts[j]) {
      ServiceCellsAmount(name, amounts, j);
    }
    forall j | 0 < j < |amounts| ensures ServiceCells(name, amounts)[2 * j] == Delta(ChangeCell(amounts[j - 1], amounts[j])) {
      ServiceCellsChange(name, amounts, j);
    }
  }

  lemma {:induction false} ServiceCellsHead(name: Key, amounts: seq<real>)
    ensures |ServiceCells(name, amounts)| == if amounts == [] then 1 else 2 * |amounts|
    ensures ServiceCells(name, amounts)[0] == Service(name)
    decreases |amounts|
  {
    if amounts != [] {
      ServiceCellsHead(name, amounts[..|amounts| - 1]);
    }
  }

  lemma {:induction false} ServiceCellsAmount(name: Key, amounts: seq<real>, j: nat)
    requires j < |amounts|
    ensures |ServiceCells(name, amounts)| == 2 * |amounts|
    ensures ServiceCells(name, amounts)[2 * j + 1] == Dollars(amounts[j])
    decreases |amounts|
  {
    var n := |amounts| - 1;
    var init := amounts[..n];
    ServiceCellsHead(name, amounts);
    ServiceCellsHead(name, init);
    if j < n {
      ServiceCellsAmount(name, init, j);
      assert ServiceCells(name, amounts)[2 * j + 1] == ServiceCells(name, init)[2 * j + 1];
    }
  }

  lemma {:induction false} ServiceCellsChange(name: Key, amounts: seq<real>, j: nat)
    requires 0 < j < |amounts|
    ensures |ServiceCells(name, amounts)| == 2 * |amounts|
    ensures ServiceCells(name, amounts)[2 * j] == Delta(ChangeCell(amounts[j - 1], amounts[j]))
    decreases |amounts|
  {
    var n := |amounts| - 1;
    var init := amounts[..n];
    ServiceCellsHead(name, amounts);
    ServiceCellsHead(name, init);
    if j < n {
      ServiceCellsChange(name, init, j);
      assert ServiceCells(name, amounts)[2 * j] == ServiceCells(name, init)[2 * j];
    }
  }

  /** One more period appends its change cell (from the second period on) and
      its amount. */
  lemma ServiceCellsAppend(name: Key, amounts: seq<real>, curr: real)
    ensures ServiceCells(name, amounts + [curr]) == ServiceCells(name, amounts)
      + (if amounts == [] then [] else [Delta(ChangeCell(amounts[|amounts| - 1], curr))])
      + [Dollars(curr)]
  {
    assert (amounts + [curr])[..|amounts|] == amounts;
  }

  /** The change cell is the one both drafts' loops draw: blank unless both
      amounts are non-zero. */
  lemma ChangeCellDrawn(prev: real, curr: real)
    ensures ChangeCell(prev, curr) == if prev != 0.0 && curr != 0.0 then Evaluate(curr / prev - 1.0) else Blank
  {
  }

  /** One iteration of either draft's period loop: after the cells drawn for
      `amounts`, a change cell (blank unless both amounts are non-zero) and the
      new amount give the cells of `amounts + [curr]`. */
  lemma PeriodStep(name: Key, amounts: seq<real>, prev: Option<real>, curr: real, cells: seq<BreakdownCell>)
    requires prev == if amounts == [] then None else Some(amounts[|amounts| - 1])
    requires cells == ServiceCells(name, amounts)
      + (if prev.None? then []
         else if prev.value != 0.0 && curr != 0.0 then [Delta(Evaluate(curr / prev.value - 1.0))]
         else [Delta(Blank)])
      + [Dollars(curr)]
    ensures cells == ServiceCells(name, amounts + [curr])
  {
    ServiceCellsAppend(name, amounts, curr);
    if prev.Some? {
      ChangeCellDrawn(prev.value, curr);
    }
  }

  // ---------------------------------------------------------------------------
  // The monthly drafts

  /** `monthly_data.get(m, 0.0)`. */
  function AmountAt(byPeriod: map<Date, real>, m: Date): real {
    if m in byPeriod then byPeriod[m] else 0.0
  }

  /** A service's amount in each of the given months. */
  function MonthlyAmounts(byPeriod: map<Date, real>, months: seq<Date>): (r: seq<real>)
    ensures |r| == |months|
    ensures forall j :: 0 <= j < |months| ==> r[j] == AmountAt(byPeriod, months[j])
  {
    seq(|months|, j requires 0 <= j < |months| => AmountAt(byPeriod, months[j]))
  }

  /** `[rbt['TimePeriod']['Start'] for rbt in cost_data_dict]`. */
  function PeriodStarts<A>(data: seq<TimePeriodGroups<A>>): (r: seq<Date>)
    ensures |r| == |data|
    ensures forall i :: 0 <= i < |data| ==> r[i] == data[i].start
  {
    seq(|data|, i requires 0 <= i < |data| => data[i].start)
  }

  /** `sorted_months`: the period starts of the breakdown, ascending. */
  method SortedMonths<A>(data: seq<TimePeriodGroups<A>>) returns (months: seq<Date>)
    ensures multiset(months) == multiset(PeriodStarts(data))
    ensures Sorted(months, Before)
  {
    BeforeIsStrictTotalOrder();
    months := InsertionSort(PeriodStarts(data), Before);
  }

  /** `columns` as the monthly drafts compute it: one column per month plus one
      change column per month after the first, forgetting the service-name
      column. */
  function HeaderColspanAsWritten(numMonths: int): int {
    numMonths * 1 + (numMonths - 1)
  }

  /** The intended width of the header: two columns per period, the name
      cell plus one amount per period and one change per period after the
      first. */
  function HeaderColspan(numPeriods: int): int {
    numPeriods * 2
  }

  /** As written, the monthly account header is one column narrower than every
      service row beneath it. */
  lemma HeaderColspanAsWrittenShort(name: Key, amounts: seq<real>)
    requires amounts != []
    ensures HeaderColspanAsWritten(|amounts|) == |ServiceCells(name, amounts)| - 1
  {
    ServiceCellsLayout(name, amounts);
  }

  /** Two columns per period span a service row exactly. */
  lemma HeaderColspanSpansRow(name: Key, amounts: seq<real>)
    requires amounts != []
    ensures HeaderColspan(|amounts|) == |ServiceCells(name, amounts)|
  {
    ServiceCellsLayout(name, amounts);
  }

  /** The `for idx, m in enumerate(sorted_months)` loop of one service. */
  method MonthlyServiceRow(svc: ServiceCosts<real>, months: seq<Date>) returns (cells: seq<BreakdownCell>)
    ensures cells == ServiceCells(svc.service, MonthlyAmounts(svc.byPeriod, months))
  {
    cells := [Service(svc.service)];
    var prev: Option<real> := None;
    ghost var amounts: seq<real> := [];
    for idx := 0 to |months|
      invariant amounts == MonthlyAmounts(svc.byPeriod, months[..idx])
      invariant cells == ServiceCells(svc.service, amounts)
      invariant prev == if idx == 0 then None else Some(amounts[idx - 1])
    {
      var curr := if months[idx] in svc.byPeriod then svc.byPeriod[months[idx]] else 0.0;
      if idx > 0 {
        if prev.Some? && prev.value != 0.0 && curr != 0.0 {
          var pct := curr / prev.value - 1.0;
          cells := cells + [Delta(EvaluateChange(Some(pct)))];
        } else {
          cells := cells + [Delta(Blank)];
        }
      }
      cells := cells + [Dollars(curr)];
      PeriodStep(svc.service, amounts, prev, curr, cells);
      MonthlyAmountsAppend(svc.byPeriod, months, idx);
      amounts := amounts + [curr];
      prev := Some(curr);
    }
    assert months[..|months|] == months;
  }

  lemma MonthlyAmountsAppend(byPeriod: map<Date, real>, months: seq<Date>, idx: nat)
    requires idx < |months|
    ensures MonthlyAmounts(byPeriod, months[..idx + 1]) ==
      MonthlyAmounts(byPeriod, months[..idx]) + [AmountAt(byPeriod, months[idx])]
  {
  }

  /** The monthly block of one account: the header spans the row, and the i-th
      service's row is striped by `row_color(i)`. */
  ghost function MonthlyBlockOf(account: Key, services: seq<ServiceCosts<real>>, months: seq<Date>): (b: AccountBlock)
    ensures |b.rows| == |services|
  {
    AccountBlock(account, HeaderColspan(|months|), months,
      seq(|services|, i requires 0 <= i < |services| =>
        ServiceRow(RowColor(i), ServiceCells(services[i].service, MonthlyAmounts(services[i].byPeriod, months)))))
  }

  /** One account of the monthly `generate_html_table`. */
  method MonthlyBlock(account: Key, services: seq<ServiceCosts<real>>, months: seq<Date>) returns (b: AccountBlock)
    ensures b == MonthlyBlockOf(account, services, months)
  {
    var rows: seq<ServiceRow> := [];
    var iRow: nat := 0;
    for k := 0 to |services|
      invariant iRow == k == |rows|
      invariant forall i :: 0 <= i < k ==>
        rows[i] == ServiceRow(RowColor(i), ServiceCells(services[i].service, MonthlyAmounts(services[i].byPeriod, months)))
    {
      var cells := MonthlyServiceRow(services[k], months);
      rows := rows + [ServiceRow(RowColor(iRow), cells)];
      iRow := iRow + 1;
    }
    b := AccountBlock(account, HeaderColspan(|months|), months, rows);
  }

  /** The monthly `generate_html_table` over `display_cost_data_dict.items()`. */
  method MonthlyTable(data: seq<TimePeriodGroups<real>>, accounts: seq<(Key, seq<ServiceCosts<real>>)>)
    returns (blocks: seq<AccountBlock>)
    ensures |blocks| == |accounts|
    ensures forall i :: 0 <= i < |accounts| ==>
      Sorted(blocks[i].periods, Before) && multiset(blocks[i].periods) == multiset(PeriodStarts(data)) &&
      blocks[i] == MonthlyBlockOf(accounts[i].0, accounts[i].1, blocks[i].periods)
  {
    var months := SortedMonths(data);
    blocks := [];
    for i := 0 to |accounts|
      invariant |blocks| == i
      invariant forall k :: 0 <= k < i ==> blocks[k] == MonthlyBlockOf(accounts[k].0, accounts[k].1, months)
    {
      var b := MonthlyBlock(accounts[i].0, accounts[i].1, months);
      blocks := blocks + [b];
    }
  }

  // ---------------------------------------------------------------------------
  // The daily draft

  /** `COLUMNS`: the daily header spans `DAYSBACK * 2` columns. */
  const DaysBack := 30
  const Columns := DaysBack * 2

  /** The daily header spans a service row exactly when the breakdown has
      `DAYSBACK` periods. */
  lemma DailyColumnsSpanRow(name: Key, amounts: seq<real>)
    requires |amounts| == DaysBack
    ensures Columns == |ServiceCells(name, amounts)|
  {
    ServiceCellsLayout(name, amounts);
  }

  /** With any other number of periods the daily header misses the row: the
      breakdown query asks for MONTHLY granularity, so a thirty-day window
      yields one to three periods, and `COLUMNS` is then far wider than a row. */
  lemma DailyColumnsMissRow(name: Key, amounts: seq<real>)
    requires |amounts| != DaysBack
    ensures Columns != |ServiceCells(name, amounts)|
  {
    ServiceCellsHead(name, amounts);
  }

  /** Python's `round(x, 2)` on an exact number: the nearest multiple of 0.01,
      ties to the even one. */
  function RoundCents(x: real): (r: real)
    ensures -0.005 <= r - x <= 0.005
    ensures r == 0.0 <==> -0.005 <= x <= 0.005
  {
    var f := (x * 100.0).Floor;
    var frac := x * 100.0 - f as real;
    var c := if frac < 0.5 then f else if frac > 0.5 then f + 1 else if f % 2 == 0 then f else f + 1;
    assert 0.0 <= frac < 1.0;
    c as real / 100.0
  }

  /** `round(float(display[acct][service][date]), 2)`, or 0 when the lookup or
      the conversion raises; `parse` is `float` on a Cost Explorer amount. */
  function DailyAmount(byPeriod: map<Date, string>, d: Date, parse: string -> Option<real>): real {
    if d in byPeriod && parse(byPeriod[d]).Some? then RoundCents(parse(byPeriod[d]).value) else 0.0
  }

  /** A service's rounded amount in each period. */
  function DailyAmounts(byPeriod: map<Date, string>, periods: seq<Date>, parse: string -> Option<real>): (r: seq<real>)
    ensures |r| == |periods|
    ensures forall j :: 0 <= j < |periods| ==> r[j] == DailyAmount(byPeriod, periods[j], parse)
  {
    seq(|periods|, j requires 0 <= j < |periods| => DailyAmount(byPeriod, periods[j], parse))
  }

  /** The row is skipped: there is at least one cost cell, all cells print the
      same, and the first prints `$ 0.00`. */
  predicate Skipped(amounts: seq<real>) {
    |amounts| > 0 && (forall j :: 0 <= j < |amounts| ==> amounts[j] == amounts[0]) && amounts[0] == 0.0
  }

  /** A service's row is skipped exactly when there is a period and in every
      period its amount is missing, not a number, or less than half a cent
      either way. */
  lemma SkippedIffNoCents(byPeriod: map<Date, string>, periods: seq<Date>, parse: string -> Option<real>)
    ensures Skipped(DailyAmounts(byPeriod, periods, parse)) <==>
      |periods| > 0 &&
      forall j :: 0 <= j < |periods| ==>
        periods[j] !in byPeriod || parse(byPeriod[periods[j]]).None? ||
        -0.005 <= parse(byPeriod[periods[j]]).value <= 0.005
  {
    var amounts := DailyAmounts(byPeriod, periods, parse);
    if Skipped(amounts) {
      forall j | 0 <= j < |periods| ensures amounts[j] == 0.0 {
        assert amounts[j] == amounts[0];
      }
    }
  }

  /** The row background of the daily draft: `Refund` and `Tax` rows are
      linen, every other row takes `row_color` of the rows shown so far. */
  function StyleFor(service: Key, shown: nat): (s: RowStyle)
    ensures s == Linen <==> service == "Refund" || service == "Tax"
  {
    if service == "Refund" || service == "Tax" then Linen else RowColor(shown)
  }

  /** The loop over `cost_data_Dict` for one service: the row's cells and
      whether the row is skipped. */
  method DailyServiceRow(svc: ServiceCosts<string>, periods: seq<Date>, parse: string -> Option<real>)
    returns (cells: seq<BreakdownCell>, skip: bool)
    ensures cells == ServiceCells(svc.service, DailyAmounts(svc.byPeriod, periods, parse))
    ensures skip == Skipped(DailyAmounts(svc.byPeriod, periods, parse))
  {
    cells := [Service(svc.service)];
    var prev: Option<real> := None;
    var costs: seq<real> := [];
    for idx := 0 to |periods|
      invariant costs == DailyAmounts(svc.byPeriod, periods[..idx], parse)
      invariant cells == ServiceCells(svc.service, costs)
      invariant prev == if idx == 0 then None else Some(costs[idx - 1])
    {
      var date := periods[idx];
      if prev.Some? {
        var curr := DailyAmount(svc.byPeriod, date, parse);
        if prev.value != 0.0 && curr != 0.0 {
          var pct := curr / prev.value - 1.0;
          cells := cells + [Delta(Evaluate(pct))];
        } else {
          cells := cells + [Delta(Blank)];
        }
      }
      var cost := DailyAmount(svc.byPeriod, date, parse);
      cells := cells + [Dollars(cost)];
      PeriodStep(svc.service, costs, prev, cost, cells);
      DailyAmountsAppend(svc.byPeriod, periods, idx, parse);
      costs := costs + [cost];
      prev := Some(cost);
    }
    assert periods[..|periods|] == periods;
    var allSame := false;
    if |costs| > 0 {
      allSame := forall j | 0 <= j < |costs| :: costs[j] == costs[0];
    }
    skip := allSame && costs[0] == 0.0;
  }

  lemma DailyAmountsAppend(byPeriod: map<Date, string>, periods: seq<Date>, idx: nat, parse: string -> Option<real>)
    requires idx < |periods|
    ensures DailyAmounts(byPeriod, periods[..idx + 1], parse) ==
      DailyAmounts(byPeriod, periods[..idx], parse) + [DailyAmount(byPeriod, periods[idx], parse)]
  {
  }

  /** The row drawn for a shown service when `i` rows are already shown. */
  function ShownRow(svc: ServiceCosts<string>, i: nat, periods: seq<Date>, parse: string -> Option<real>): ServiceRow {
    ServiceRow(StyleFor(svc.service, i), ServiceCells(svc.service, DailyAmounts(svc.byPeriod, periods, parse)))
  }

  /** The rows the daily loop emits, service by service: a skipped service adds
      nothing and does not advance the stripe counter. */
  ghost function DailyRows(services: seq<ServiceCosts<string>>, periods: seq<Date>, parse: string -> Option<real>)
    : seq<ServiceRow>
    decreases |services|
  {
    if services == [] then []
    else
      var rows := DailyRows(services[..|services| - 1], periods, parse);
      var svc := services[|services| - 1];
      var amounts := DailyAmounts(svc.byPeriod, periods, parse);
      if Skipped(amounts) then rows
      else rows + [ShownRow(svc, |rows|, periods, parse)]
  }

  /** The services whose row is not skipped, in order. */
  function Shown(services: seq<ServiceCosts<string>>, periods: seq<Date>, parse: string -> Option<real>)
    : (r: seq<ServiceCosts<string>>)
    ensures forall s :: s in r <==> s in services && !Skipped(DailyAmounts(s.byPeriod, periods, parse))
    decreases |services|
  {
    if services == [] then []
    else
      var init := services[..|services| - 1];
      var svc := services[|services| - 1];
      assert forall s :: s in services <==> s in init || s == svc;
      Shown(init, periods, parse)
        + (if Skipped(DailyAmounts(svc.byPeriod, periods, parse)) then [] else [svc])
  }

  /** The emitted rows are exactly the shown services in order, the i-th shown
      one striped by `row_color(i)` unless it is `Refund` or `Tax`. */
  lemma {:induction false} DailyRowsAreShown(services: seq<ServiceCosts<string>>, periods: seq<Date>, parse: string -> Option<real>)
    ensures var rows := DailyRows(services, periods, parse);
      var shown := Shown(services, periods, parse);
      |rows| == |shown| &&
      forall i :: 0 <= i < |rows| ==> rows[i] == ShownRow(shown[i], i, periods, parse)
    decreases |services|
  {
    if services != [] {
      var init := services[..|services| - 1];
      var svc := services[|services| - 1];
      DailyRowsAreShown(init, periods, parse);
      var rows0 := DailyRows(init, periods, parse);
      var shown0 := Shown(init, periods, parse);
      var rows := DailyRows(services, periods, parse);
      var shown := Shown(services, periods, parse);
      var amounts := DailyAmounts(svc.byPeriod, periods, parse);
      if Skipped(amounts) {
        assert rows == rows0 && shown == shown0;
      } else {
        assert rows == rows0 + [ShownRow(svc, |rows0|, periods, parse)];
        assert shown == shown0 + [svc];
        ShownRowsAppend(rows0, shown0, svc, periods, parse);
      }
    }
  }

  lemma ShownRowsAppend(rows: seq<ServiceRow>, shown: seq<ServiceCosts<string>>, svc: ServiceCosts<string>,
                        periods: seq<Date>, parse: string -> Option<real>)
    requires |rows| == |shown| && forall i :: 0 <= i < |rows| ==> rows[i] == ShownRow(shown[i], i, periods, parse)
    ensures var rows' := rows + [ShownRow(svc, |rows|, periods, parse)];
      var shown' := shown + [svc];
      |rows'| == |shown'| && forall i :: 0 <= i < |rows'| ==> rows'[i] == ShownRow(shown'[i], i, periods, parse)
  {
  }

  /** The daily block of one account. */
  ghost function DailyBlockOf(account: Key, services: seq<ServiceCosts<string>>, periods: seq<Date>,
                              parse: string -> Option<real>): AccountBlock
  {
    AccountBlock(account, Columns, periods, DailyRows(services, periods, parse))
  }

  /** One account of the daily `generate_html_table`. */
  method DailyBlock(account: Key, services: seq<ServiceCosts<string>>, periods: seq<Date>, parse: string -> Option<real>)
    returns (b: AccountBlock)
    ensures b == DailyBlockOf(account, services, periods, parse)
  {
    var rows: seq<ServiceRow> := [];
    var iRow: nat := 0;
    for k := 0 to |services|
      invariant rows == DailyRows(services[..k], periods, parse)
      invariant iRow == |rows|
    {
      var cells, skip := DailyServiceRow(services[k], periods, parse);
      assert services[..k + 1][..k] == services[..k];
      if !skip {
        var style := if services[k].service == "Refund" || services[k].service == "Tax" then Linen else RowColor(iRow);
        rows := rows + [ServiceRow(style, cells)];
        iRow := iRow + 1;
      }
    }
    assert services[..|services|] == services;
    b := AccountBlock(account, Columns, periods, rows);
  }

  /** The daily `generate_html_table` over the accounts of the restructured
      breakdown, periods in the order of `cost_data_Dict`. */
  method DailyTable(data: seq<TimePeriodGroups<string>>, accounts: seq<(Key, seq<ServiceCosts<string>>)>,
                    parse: string -> Option<real>)
    returns (blocks: seq<AccountBlock>)
    ensures |blocks| == |accounts|
    ensures forall i :: 0 <= i < |accounts| ==>
      blocks[i] == DailyBlockOf(accounts[i].0, accounts[i].1, PeriodStarts(data), parse)
  {
    var periods := PeriodStarts(data);
    blocks := [];
    for i := 0 to |accounts|
      invariant |blocks| == i
      invariant forall k :: 0 <= k < i ==> blocks[k] == DailyBlockOf(accounts[k].0, accounts[k].1, periods, parse)
    {
      var b := DailyBlock(accounts[i].0, accounts[i].1, periods, parse);
      blocks := blocks + [b];
    }
  }
}
