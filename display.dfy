/** `process_costchanges_for_display`: every period keeps the entries whose key
    is on the display list, unchanged, and folds the cost of every other key into
    a fresh `'Others'` entry. */
module Display {
  import opened Calendar
  import opened Ledger

  /** The keys of a row that the display list does not feature. */
  function NotDisplayed(row: Row, display: seq<Key>): set<Key> {
    set k | k in row && k !in display
  }

  /** One period of the projection. */
  ghost function ProjectRow(row: Row, display: seq<Key>): (r: Row)
    ensures forall k :: k in r <==> k == Others || (k in row && k in display)
    ensures forall k :: k in r && k != Others ==> r[k] == row[k]
    ensures r[Others] == Entry(SumOver(row, NotDisplayed(row, display)), Absent)
  {
    (map k | k in row && k in display :: row[k])[Others := Entry(SumOver(row, NotDisplayed(row, display)), Absent)]
  }

  ghost function ProjectOf(report: Report, display: seq<Key>): (r: Report)
    ensures r.Keys == report.Keys
  {
    map d | d in report :: ProjectRow(report[d], display)
  }

  /** The inner loop over one period's `(acct_id, cost_obj)` items. */
  method ProjectPeriod(row: Row, display: seq<Key>) returns (out: Row)
    ensures out == ProjectRow(row, display)
  {
    out := map[];
    var others := 0.0;
    var todo := row.Keys;
    ghost var hidden: set<Key> := {};
    while todo != {}
      invariant todo <= row.Keys
      invariant forall k :: k in out <==> k in row && k !in todo && k in display
      invariant forall k :: k in out ==> out[k] == row[k]
      invariant forall k :: k in hidden <==> k in row && k !in todo && k !in display
      invariant others == SumOver(row, hidden)
      decreases |todo|
    {
      var k :| k in todo;
      if k in display {
        out := out[k := row[k]];
      } else {
        SumOverRemove(row, hidden + {k}, k);
        assert hidden + {k} - {k} == hidden;
        others := others + row[k].cost;
        hidden := hidden + {k};
      }
      todo := todo - {k};
    }
    assert hidden == NotDisplayed(row, display);
    out := out[Others := Entry(others, Absent)];
  }

  /** `process_costchanges_for_display`. */
  method ProjectForDisplay(report: Report, display: seq<Key>) returns (r: Report)
    ensures r == ProjectOf(report, display)
  {
    r := map[];
    var todo := report.Keys;
    while todo != {}
      invariant todo <= report.Keys
      invariant r == map d | d in report && d !in todo :: ProjectRow(report[d], display)
      decreases |todo|
    {
      var d :| d in todo;
      var row := ProjectPeriod(report[d], display);
      r := r[d := row];
      todo := todo - {d};
    }
  }

  /** Nothing is lost: when the row had no `'Others'` key of its own, the
      projected row sums to the same amount as the original. */
  lemma ProjectPreservesSum(row: Row, display: seq<Key>)
    requires Others !in row
    ensures RowSum(ProjectRow(row, display)) == RowSum(row)
  {
    var p := ProjectRow(row, display);
    var shown := set k | k in row && k in display;
    var hidden := NotDisplayed(row, display);
    assert p.Keys - {Others} == shown;
    SumOverRemove(p, p.Keys, Others);
    SumOverAgree(p, row, shown);
    assert shown + hidden == row.Keys;
    SumOverSplit(row, shown, hidden);
  }

  /** In a displayed period whose total key is featured, the featured accounts
      and `'Others'` add up to the displayed total, provided the row's total
      entry sums the rest of the row and the row had no `'Others'` key. */
  lemma DisplayedColumnsAddUp(row: Row, display: seq<Key>, totalKey: Key)
    requires totalKey in row && totalKey in display && Others !in row
    requires row[totalKey].cost == SumOver(row, row.Keys - {totalKey})
    ensures var p := ProjectRow(row, display);
      totalKey in p &&
      p[Others].cost + SumOver(p, p.Keys - {Others, totalKey}) == p[totalKey].cost
  {
    var p := ProjectRow(row, display);
    var shown := set k | k in row && k in display && k != totalKey;
    var hidden := NotDisplayed(row, display);
    assert p.Keys - {Others, totalKey} == shown;
    SumOverAgree(p, row, shown);
    assert shown + hidden == row.Keys - {totalKey};
    SumOverSplit(row, shown, hidden);
  }

  // ---------------------------------------------------------------------------
  // The daily draft's display list

  /** The featured account of the daily draft. */
  const DevAccount: Key := "384352530920"

  /** The daily `displayList` as written: with the middle entries commented out
      and no comma after the first string, Python joins the two adjacent string
      literals into the single key `'384352530920dayTotal'`. */
  const DailyDisplayListAsWritten: seq<Key> := [DevAccount + DayTotal]

  /** The list the comment beside it asks for: the account and `'dayTotal'`. */
  const DailyDisplayList: seq<Key> := [DevAccount, DayTotal]

  /** As written, a daily period whose `dayTotal` sums its accounts loses both the
      featured account and `dayTotal` to `'Others'`, which then holds twice the
      day's spend. */
  lemma AsWrittenDailyDisplayDoublesOthers(row: Row)
    requires DayTotal in row && Others !in row && DevAccount + DayTotal !in row
    requires row[DayTotal].cost == SumOver(row, row.Keys - {DayTotal})
    ensures var p := ProjectRow(row, DailyDisplayListAsWritten);
      p.Keys == {Others} && p[Others].cost == 2.0 * row[DayTotal].cost
  {
    var p := ProjectRow(row, DailyDisplayListAsWritten);
    assert NotDisplayed(row, DailyDisplayListAsWritten) == row.Keys;
    SumOverRemove(row, row.Keys, DayTotal);
  }

  /** With the intended list, the day's `dayTotal` is shown unchanged and the
      featured account plus `'Others'` add up to it. */
  lemma DailyDisplayKeepsTotal(row: Row)
    requires DayTotal in row && Others !in row
    requires row[DayTotal].cost == SumOver(row, row.Keys - {DayTotal})
    ensures var p := ProjectRow(row, DailyDisplayList);
      DayTotal in p && p[DayTotal] == row[DayTotal] &&
      p[Others].cost + (if DevAccount in row then row[DevAccount].cost else 0.0) == row[DayTotal].cost
  {
    var p := ProjectRow(row, DailyDisplayList);
    assert DevAccount != DayTotal;
    DisplayedColumnsAddUp(row, DailyDisplayList, DayTotal);
    if DevAccount in row {
      assert p.Keys - {Others, DayTotal} == {DevAccount};
      SumOverRemove(p, {DevAccount}, DevAccount);
    } else {
      assert p.Keys - {Others, DayTotal} == {};
    }
  }
}
