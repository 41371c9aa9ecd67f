/** The daily draft's passes chained: `process_costchanges_per_day`, then
    `process_costchanges_for_display`, then `process_percentchanges_per_day`
    over `DAILY_COST_DATES`.  Which display list is used decides whether the
    unguarded lookup of the percent pass can fail. */
module Pipeline {
  import opened Common
  import opened Calendar
  import opened Ledger
  import opened Display
  import opened Deltas
  import PeriodIndex

  /** The account cells of a successful daily ledger are exactly the days the
      account has a result for. */
  lemma DailyLedgerHas(listed: seq<Date>, window: seq<Date>, costs: seq<AccountCosts>, d: Date, a: Key)
    requires DailyLedgerOf(listed, window, costs).Ok?
    requires forall i :: 0 <= i < |costs| ==> costs[i].account != DayTotal
    requires d in DailyLedgerOf(listed, window, costs).value && a != DayTotal
    ensures a in DailyLedgerOf(listed, window, costs).value[d] <==> Placed(costs, a, d).Some?
  {
    DailyLedgerShape(listed, window, costs);
    DailyLedgerCells(listed, window, costs, d, a);
  }

  /** As written, every displayed day holds the single key `'Others'`, so the
      daily percent pass never raises, whatever the accounts' costs. */
  lemma AsWrittenDailyPercentNeverFails(listed: seq<Date>, window: seq<Date>, costs: seq<AccountCosts>)
    requires DailyLedgerOf(listed, window, costs).Ok?
    requires forall i :: 0 <= i < |costs| ==> costs[i].account != DayTotal && costs[i].account != DevAccount + DayTotal
    ensures var ledger := DailyLedgerOf(listed, window, costs).value;
      DailyPercentOf(ProjectOf(ledger, DailyDisplayListAsWritten), PeriodIndex.NonFirstDays(listed)).Ok?
  {
    var ledger := DailyLedgerOf(listed, window, costs).value;
    var days := PeriodIndex.NonFirstDays(listed);
    DailyLedgerShape(listed, window, costs);
    forall d | d in ledger ensures DevAccount + DayTotal !in ledger[d] {
      DailyLedgerHas(listed, window, costs, d, DevAccount + DayTotal);
      assert DevAccount + DayTotal != DayTotal;
    }
    forall i | 0 <= i < |days| ensures days[i] in ledger {
      assert days[i] in days;
    }
    OnlyOthersNeverFails(ledger, days);
  }

  /** The as-written display of any report whose rows lack the joined key. */
  lemma OnlyOthersNeverFails(report: Report, days: seq<Date>)
    requires forall i :: 0 <= i < |days| ==> days[i] in report
    requires forall d :: d in report ==> DevAccount + DayTotal !in report[d]
    ensures DailyPercentOf(ProjectOf(report, DailyDisplayListAsWritten), days).Ok?
  {
    var p := ProjectOf(report, DailyDisplayListAsWritten);
    forall d | d in p ensures p[d].Keys == {Others} {
    }
    DailyPercentSucceeds(p, days);
  }

  /** With the intended list, the daily percent pass raises `KeyError` exactly
      when the featured account has a result for a listed day but none for the
      listed day before it. */
  lemma DailyPercentFailsOnNewAccount(listed: seq<Date>, window: seq<Date>, costs: seq<AccountCosts>)
    requires DailyLedgerOf(listed, window, costs).Ok?
    requires forall i :: 0 <= i < |costs| ==> costs[i].account != DayTotal
    ensures var ledger := DailyLedgerOf(listed, window, costs).value;
      var days := PeriodIndex.NonFirstDays(listed);
      DailyPercentOf(ProjectOf(ledger, DailyDisplayList), days).KeyError? <==>
        exists i :: 0 < i < |days| && Placed(costs, DevAccount, days[i]).Some? && Placed(costs, DevAccount, days[i - 1]).None?
  {
    var ledger := DailyLedgerOf(listed, window, costs).value;
    var days := PeriodIndex.NonFirstDays(listed);
    DailyLedgerShape(listed, window, costs);
    assert DevAccount != DayTotal;
    forall i | 0 <= i < |days| ensures days[i] in ledger && (DevAccount in ledger[days[i]] <==> Placed(costs, DevAccount, days[i]).Some?) {
      assert days[i] in days;
      DailyLedgerHas(listed, window, costs, days[i], DevAccount);
    }
    forall d | d in ledger ensures DayTotal in ledger[d] {
    }
    PlacedFailsOnNewKey(ledger, days, costs);
  }

  /** `IntendedFailsOnNewKey` for a report whose featured-account cells are the
      days the account has a result for. */
  lemma PlacedFailsOnNewKey(report: Report, days: seq<Date>, costs: seq<AccountCosts>)
    requires forall i :: 0 <= i < |days| ==>
      days[i] in report && (DevAccount in report[days[i]] <==> Placed(costs, DevAccount, days[i]).Some?)
    requires forall d :: d in report ==> DayTotal in report[d]
    ensures DailyPercentOf(ProjectOf(report, DailyDisplayList), days).KeyError? <==>
      exists i :: 0 < i < |days| && Placed(costs, DevAccount, days[i]).Some? && Placed(costs, DevAccount, days[i - 1]).None?
  {
    IntendedFailsOnNewKey(report, days);
    if i :| 0 < i < |days| && DevAccount in report[days[i]] && DevAccount !in report[days[i - 1]] {
      assert Placed(costs, DevAccount, days[i]).Some? && Placed(costs, DevAccount, days[i - 1]).None?;
    }
    if i :| 0 < i < |days| && Placed(costs, DevAccount, days[i]).Some? && Placed(costs, DevAccount, days[i - 1]).None? {
      assert DevAccount in report[days[i]] && DevAccount !in report[days[i - 1]];
    }
  }

  /** The intended display of a report whose rows all hold `'dayTotal'`: the
      pass fails exactly when the featured account is new on a listed day. */
  lemma IntendedFailsOnNewKey(report: Report, days: seq<Date>)
    requires forall i :: 0 <= i < |days| ==> days[i] in report
    requires forall d :: d in report ==> DayTotal in report[d]
    ensures DailyPercentOf(ProjectOf(report, DailyDisplayList), days).KeyError? <==>
      exists i :: 0 < i < |days| && DevAccount in report[days[i]] && DevAccount !in report[days[i - 1]]
  {
    var p := ProjectOf(report, DailyDisplayList);
    forall i | 0 < i < |days|
      ensures p[days[i]].Keys <= p[days[i - 1]].Keys <==>
        (DevAccount in report[days[i]] ==> DevAccount in report[days[i - 1]])
    {
      IntendedKeys(report[days[i]]);
      IntendedKeys(report[days[i - 1]]);
    }
    DailyPercentSucceeds(p, days);
  }

  /** The keys of a day shown with the intended list. */
  lemma IntendedKeys(row: Row)
    requires DayTotal in row
    ensures ProjectRow(row, DailyDisplayList).Keys ==
      {Others, DayTotal} + (if DevAccount in row then {DevAccount} else {})
  {
    assert DevAccount != DayTotal;
  }
}
