# AWS cost report engine — a Dafny model

The repository is an AWS Lambda written in Python that e-mails cost reports. It
has three drafts:

- the two monthly drafts, `new/new-draft.py` and `new-draft.py`;
- the daily draft, `test/test.py`;
- a fragment, `test/new-draft.py`, that rewrites the monthly ledger's total with
  a generator `sum`.

Every draft runs the same pipeline. It asks Cost Explorer for each tracked
account's cost per period, then works in five steps:

1. It builds a **ledger**: period start → account → `{'Cost': amount}`. Each
   period also gets a synthetic total entry (`monthTotal` or `dayTotal`).
2. It **projects** each period onto a display list. Accounts not on the list
   are folded into an `Others` entry.
3. It adds a **percent change** to every entry, measured against the previous
   period.
4. It renders a **summary table**: one row per month, striped by `row_color`,
   with each change coloured by `evaluate_change`.
5. It renders a **per-service breakdown** built from a second, grouped Cost
   Explorer query. `restructure_cost_data` turns the query into
   account → service → period → amount with services sorted by name, and
   `generate_html_table` renders it.

This project models that pipeline in Dafny.

- Dates are `Calendar.Date` values. Python compares the `'%Y-%m-%d'` keys as
  strings, which for four-digit years is the (year, month, day) order `Before`.
- Dicts are maps. Amounts are exact `real`s.
- A Python `KeyError` is the `KeyError` outcome of `Common.Outcome`.
- The steps that loop become methods. Each is proved equal to a specification
  function, and lemmas state what the source promises about those functions.
- HTML is not modelled. A table is modelled as its cells: the value each shows
  and the colour band it is drawn in.

## Model

| member | source | states |
|---|---|---|
| Calendar.Add32FromFirstOfMonth | new-draft.py:34 | from a first of month, adding 32 days and truncating to day 1 lands exactly on the first of the next month |
| PeriodIndex.MonthlyCostDates | new-draft.py:29-35 | the month list is every first of month from the start up to, not including, the end, each the next month of the one before, strictly ascending, and non-empty iff start < end |
| PeriodIndex.MonthsSoFarStep | new/new-draft.py:31-35 | one turn of the month loop keeps every listed date a first of month before the end, ascending, with no first of month skipped |
| PeriodIndex.NonFirstDays | test/test.py:40-47 | `DAILY_COST_DATES` holds exactly the window's days whose day of month is not 01, and stays ascending when the window is |
| PeriodIndex.DailyCostDates | test/test.py:42-47 | the loop builds exactly `NonFirstDays` of the window |
| Ordering.InsertSorted | new/new-draft.py:185 | inserting into a sorted list under a strict total order keeps it sorted |
| Ordering.InsertionSort | new/new-draft.py:428 | `sorted(...)` returns a permutation of its input in ascending order |
| Ordering.SortSet | new/new-draft.py:185 | `sorted(d.keys())` lists each key exactly once, strictly ascending |
| Ordering.BeforeIsStrictTotalOrder | new/new-draft.py:185 | comparing `'%Y-%m-%d'` keys orders dates strictly and totally |
| Ordering.MinOf | new/new-draft.py:185 | the least element of a non-empty set is in it and below every other element |
| Ordering.SortStrings | new/new-draft.py:410 | sorting service names lists each name exactly once, strictly ascending in string order |
| Ordering.StrLessIsStrictTotalOrder | test/test.py:552 | Python's string `<` is irreflexive, transitive and total on distinct strings |
| Ledger.RowTotal | new/new-draft.py:139-143 | the totals loop adds up every cost of the row, in any order |
| Ledger.SumOverRemove | test/new-draft.py:21-25 | a row's sum is any one key's cost plus the sum of the rest, so the generator `sum` and the loop total agree whatever order the keys are visited in |
| Ledger.SumOverSplit | test/test.py:222-236 | the sum over two disjoint key sets is the sum of the two sums |
| Ledger.SeedPeriods | new/new-draft.py:125-126 | seeding gives an empty row to every period of the index and nothing else |
| Ledger.LastAmount | new/new-draft.py:129-136 | an account's amount for a period exists iff one of its results names that period |
| Ledger.LastAmountIsLast | new/new-draft.py:134-136 | the amount kept is that of the last result naming the period, since later writes overwrite earlier ones |
| Ledger.PlaceAllAt | new-draft.py:119-127 | after placement a period exists iff it was seeded or some result names it, and each cell holds the last amount written to it |
| Ledger.PlaceResultsAt | new/new-draft.py:129-136 | placing one account's results creates exactly the periods they name and writes that account's last amount for each |
| Ledger.Placed | new/new-draft.py:129-136 | an account has a placed amount only if it is one of the queried accounts |
| Ledger.AddTotals | new/new-draft.py:139-143 | the totals loop adds to every period a total entry equal to the sum of the row, and changes nothing else |
| Ledger.WithTotalHolds | test/new-draft.py:21-25 | after totalling, each period's total equals the sum of every other entry of the row |
| Ledger.MonthlyLedger | new/new-draft.py:116-146 | `process_costchanges_per_month` is seeding, then placement (creating periods the index lacks), then totals |
| Ledger.MonthlyLedgerPeriods | test/new-draft.py:5-14 | the monthly ledger's periods are the seeded ones plus every period some result names |
| Ledger.MonthlyLedgerCells | new-draft.py:119-127 | each account cell holds the last amount given for that account and month; an account without a result has no cell |
| Ledger.MonthlyLedgerTotals | new-draft.py:129-133 | with no account named `monthTotal`, each month's `monthTotal` is the sum of all account costs of that month |
| Ledger.PlaceSeeded | test/test.py:180-184 | the daily placement raises `KeyError` iff some result names a day outside the seeded window, and otherwise places every result |
| Ledger.RestrictToDays | test/test.py:202-203 | the copy raises `KeyError` iff a listed day is missing from the report, and otherwise keeps exactly the listed days, unchanged |
| Ledger.DailyLedger | test/test.py:161-205 | `process_costchanges_per_day` fails iff a result lies outside the days seeded at the call, or a day of `DAILY_COST_DATES` (built from the clock read at import) was never seeded; otherwise it is the totals restricted to `DAILY_COST_DATES` |
| Ledger.DailyLedgerSameDate | test/test.py:36-47 | when both clock reads fall on the same date, the daily ledger fails iff a result lies outside the seeded days |
| Ledger.DailyLedgerRejectsEarlierPeriod | test/test.py:180-184 | a result dated before every seeded day, as the MONTHLY query from nine months back returns, makes the daily ledger raise `KeyError` |
| Ledger.DailyQueryFits | test/test.py:171-184 | results dated on the seeded days only, as a DAILY query over the same thirty days returns, make the daily ledger succeed when both clock reads agree |
| Ledger.DailyLedgerShape | test/test.py:188-205 | a successful daily ledger holds exactly the listed non-first days, each with a `dayTotal` equal to the sum of its accounts |
| Ledger.DailyLedgerCells | test/test.py:180-184 | each daily account cell holds the last amount given for that account and day |
| Display.ProjectRow | new/new-draft.py:160-171 | a projected period keeps the listed keys unchanged, adds `Others` holding the sum of every unlisted key, and has no other key |
| Display.ProjectPeriod | test/test.py:222-236 | the loop over one period's accounts computes `ProjectRow` |
| Display.ProjectForDisplay | new-draft.py:141-163 | `process_costchanges_for_display` projects every period and keeps the same periods |
| Display.ProjectOf | new/new-draft.py:152-174 | projection keeps the same periods |
| Display.ProjectPreservesSum | new/new-draft.py:152-174 | projection loses no money: a projected period sums to the same amount as the original |
| Display.DisplayedColumnsAddUp | new/new-draft.py:164-171 | when the total key is listed, the listed accounts plus `Others` add up to the displayed total |
| Display.AsWrittenDailyDisplayDoublesOthers | test/test.py:93-98 | with the daily list as written, a day keeps only `Others`, which holds twice the day's spend |
| Display.DailyDisplayKeepsTotal | test/test.py:93-98 | with the intended daily list, `dayTotal` is shown unchanged and the featured account plus `Others` add up to it |
| Deltas.ZeroGuarded | new/new-draft.py:203-207 | the monthly change is `None` iff either cost is zero, and otherwise satisfies curr = prev·(1 + change) |
| Deltas.DivideOrNull | test/test.py:261-274 | the daily change is `None` iff the previous cost is zero (the caught `ZeroDivisionError`), and otherwise satisfies curr = prev·(1 + change) |
| Deltas.RulesDifferOnDropToZero | test/test.py:264-274 | the two drafts' rules differ exactly when a cost drops to zero, where the daily one reports −100% |
| Deltas.NullRow | new/new-draft.py:190-193 | the first period keeps its keys and costs, and every entry gets `None` |
| Deltas.MonthlyRow | new/new-draft.py:196-207 | a later month keeps its keys and costs; an account missing the month before counts as a cost of 0.0 |
| Deltas.DailyRow | test/test.py:259-274 | a later day succeeds iff all its keys are in the previous listed day (otherwise `KeyError`), and keeps its keys and costs |
| Deltas.RowsReadCostsOnly | new/new-draft.py:196-207 | a period's new row depends only on the keys and costs of the rows read, not on earlier changes |
| Deltas.MarkFirstPeriod | new-draft.py:181-182 | the first-period loop computes `NullRow` |
| Deltas.MonthlyRowDeltas | new-draft.py:186-199 | the inner monthly loop computes `MonthlyRow` |
| Deltas.DailyRowDeltas | test/test.py:259-274 | the inner daily loop returns `KeyError` or the row exactly as `DailyRow` says |
| Deltas.PrevPeriod | new/new-draft.py:185-195 | the previous month is `None` iff no period is earlier, and otherwise is the latest earlier period |
| Deltas.SortedPredecessor | new/new-draft.py:188-195 | in the sorted month list, the entry before each month is its latest earlier period |
| Deltas.MonthlyPercentOf | new/new-draft.py:180-210 | the monthly pass keeps every period, key and cost, and leaves no entry without a change |
| Deltas.MonthlyPercentRow | new/new-draft.py:188-207 | a month's row after the pass keeps its keys and costs and has a change, or `None`, for every entry |
| Deltas.MonthlyPercentByRows | new/new-draft.py:188-207 | a report whose every month holds its row from `MonthlyPercentRow` is the pass's result |
| Deltas.SortedPeriods | new/new-draft.py:185 | `sorted(keys())` lists exactly the report's months, ascending |
| Deltas.MonthlyWrite | new/new-draft.py:188-207 | writing month i's row keeps every earlier month done and every later month untouched |
| Deltas.MonthlyStep | new/new-draft.py:189-207 | one iteration computes the month's row from the costs left by earlier iterations |
| Deltas.PercentChangesPerMonth | new-draft.py:168-199 | `process_percentchanges_per_month` walks the sorted months and computes `MonthlyPercentOf` |
| Deltas.MonthlyPercentIdempotent | new/new-draft.py:180-210 | running the monthly pass twice gives the same report as running it once |
| Deltas.MonthlyPercentFirst | new/new-draft.py:188-193 | in the earliest month every entry keeps its cost and gets `None` as its change |
| Deltas.MonthlyPercentAt | new/new-draft.py:196-207 | a month's entry holds its cost and its change against the latest earlier month (0.0 when the account is missing there, so `None`) |
| Deltas.DailyPercentKeepsCosts | test/test.py:244-280 | a successful daily pass keeps every day, key and cost |
| Deltas.DailyPercentSucceeds | test/test.py:250-278 | the daily pass succeeds iff every listed day is in the report and no day has a key its previous listed day lacks |
| Deltas.DailyPercentAt | test/test.py:253-274 | after the daily pass, the first listed day holds `None` and each later one holds its change against the listed day before it |
| Deltas.DailyPercentLast | test/test.py:258-274 | the last listed day holds its cost and its change against the day before it |
| Deltas.DailyPercentFailureSticks | test/test.py:264-266 | once an iteration raises, the whole pass raises |
| Deltas.PercentChangesPerDay | test/test.py:244-280 | the `while i < period` loop computes `DailyPercentOf` |
| Breakdown.ServicesOf | new/new-draft.py:387-392 | a service is collected for an account iff some group of some period bills it to that account |
| Breakdown.Latest | new/new-draft.py:395-403 | an amount is stored only for a period of the answer and a collected service |
| Breakdown.LatestSome | new/new-draft.py:395-403 | a service of an account has an amount for period start d iff some period of the answer starting d has a group billing that service to that account |
| Breakdown.LatestIsLast | new/new-draft.py:395-403 | the amount kept for period start d is that of the last period of the answer starting d that bills the service to the account; no later period with that start bills it (a later write to `[date]` overwrites an earlier one) |
| Breakdown.CollectAllAt | test/test.py:517-529 | the first pass keeps the configured accounts and gives each, empty, exactly the services billed to it |
| Breakdown.ServicesIn | new/new-draft.py:387-392 | a service is collected from one period iff one of its groups bills it to the account |
| Breakdown.LatestIn | new/new-draft.py:395-403 | a period gives an amount for an account's service iff one of its groups bills that service to that account |
| Breakdown.AddServicesAt | new/new-draft.py:387-392 | one period's groups add an empty entry for each billed service of a configured account and nothing else |
| Breakdown.FillAllAt | test/test.py:532-546 | the second pass writes the last amount given under keys the first pass made, and creates no account or service |
| Breakdown.FillPeriodAt | new/new-draft.py:395-405 | one period's groups write only that period's amount, and only under keys that exist |
| Breakdown.PassesKeys | new/new-draft.py:383-384 | both passes keep exactly the configured accounts |
| Breakdown.PassesAt | new-draft.py:374-397 | after both passes, a configured account holds exactly its billed services, each with its amount for every period it was billed in |
| Breakdown.FilledAmounts | new/new-draft.py:395-405 | a collected service ends with exactly the amounts of the periods it was billed in |
| Breakdown.SeedAccounts | new/new-draft.py:383-384 | every configured account starts with no services |
| Breakdown.CollectServices | new/new-draft.py:387-392 | the collecting loop computes the first pass |
| Breakdown.FillAmounts | new-draft.py:386-397 | the filling loop computes the second pass |
| Breakdown.SortServices | test/test.py:549-552 | an account's services are listed strictly ascending by name, each exactly once, with its own amounts |
| Breakdown.RestructureCostData | new/new-draft.py:374-414 | `restructure_cost_data` has exactly the configured accounts; each lists its billed services sorted by name, with the period amounts |
| Breakdown.SortAccount | new/new-draft.py:408-411 | an account's sorted services are its billed services, ascending by name, each with its amounts |
| Style.BandOf | new/new-draft.py:224-246 | a change is uncoloured iff it is within ±2%, cool iff below −2% and warm iff above +2% |
| Style.BandMonotone | test/test.py:564-587 | a larger change never gets a cooler colour |
| Style.EvaluateChange | new/new-draft.py:224-246 | `None` gives a blank cell, and a number gives a cell showing that number in its band |
| Style.RowColor | new/new-draft.py:248-249 | `row_color` never draws the linen background |
| Style.StripesAlternate | test/test.py:589-594 | consecutive rows never share a background |
| Summary.PairOf | new/new-draft.py:285-289 | a month's cell pair shows 0.0 and a blank when the key is missing, and otherwise the cost, with a colour iff the change is a number |
| Summary.MonthPairs | new-draft.py:276-283 | the loop over the display list builds one pair per listed key, in list order |
| Summary.SummaryRows | new/new-draft.py:278-292 | the summary has one row per month, every month exactly once, ascending, the i-th striped by `row_color(i)` |
| Summary.MonthRows | new-draft.py:269-286 | the row loop draws each given month with its pairs and its stripe |
| Summary.DistinctCount | new/new-draft.py:278 | the sorted month list is as long as the set of months |
| Summary.SummaryTotalIsAccountSum | new/new-draft.py:116-292 | end to end, the summary's `monthTotal` column shows the sum of every account's cost that month |
| ServiceTable.ChangeCell | new/new-draft.py:486-496 | a breakdown change cell is blank iff either amount is zero, and otherwise satisfies curr = prev·(1 + change) |
| ServiceTable.ServiceCellsLayout | new/new-draft.py:480-500 | a service row starts with the name; period j's amount is at 2j+1 and, from the second period on, its change against the period before is at 2j; n ≥ 1 periods give 2n cells |
| ServiceTable.PeriodStep | test/test.py:648-675 | one turn of either draft's period loop appends the change cell (blank unless both amounts are non-zero) and the amount |
| ServiceTable.ServiceCellsAppend | new/new-draft.py:486-496 | one more period adds the change against the last amount, from the second period on, then the new amount |
| ServiceTable.ChangeCellDrawn | new/new-draft.py:488-494 | the cell drawn is `evaluate_change(curr / prev - 1)` when both amounts are non-zero, and blank otherwise |
| ServiceTable.PeriodStarts | test/test.py:648-649 | the daily columns are the period starts in Cost Explorer's order |
| ServiceTable.HeaderColspanAsWrittenShort | new/new-draft.py:432-433 | as written, the monthly account header spans one column fewer than each service row below it |
| ServiceTable.HeaderColspanSpansRow | new/new-draft.py:432-433 | the intended width of the monthly header, two columns per period, spans a service row exactly |
| ServiceTable.SortedMonths | new-draft.py:459 | the breakdown's months are the period starts of the answer, ascending |
| ServiceTable.MonthlyAmounts | new/new-draft.py:487 | a service's monthly amounts are `monthly_data.get(m, 0.0)`, month by month |
| ServiceTable.MonthlyServiceRow | new/new-draft.py:480-500 | the monthly service loop builds the service's row of cells over the sorted months |
| ServiceTable.MonthlyBlock | new/new-draft.py:465-500 | one account's block, with the header drawn at the corrected width `2n` (see Findings), and the i-th service row striped by `row_color(i)` |
| ServiceTable.MonthlyTable | new/new-draft.py:420-505 | the monthly breakdown has one block per account, over the sorted period starts |
| ServiceTable.DailyColumnsSpanRow | test/test.py:34-35 | `COLUMNS` spans a service row only when the breakdown has exactly `DAYSBACK` periods |
| ServiceTable.DailyColumnsMissRow | test/test.py:604-606 | with any other number of periods, such as the one to three a MONTHLY query over a thirty-day window returns, the daily header's `COLUMNS` does not match a service row |
| ServiceTable.RoundCents | test/test.py:655 | `round(x, 2)` is within half a cent of x, and is zero iff x is within half a cent of zero |
| ServiceTable.DailyAmounts | test/test.py:654-671 | a service's daily amounts are `round(float(...), 2)` in each period, or 0 when the lookup or conversion fails |
| ServiceTable.SkippedIffNoCents | test/test.py:678-687 | a daily service row is hidden iff there is a period and every amount is missing, not a number, or under half a cent |
| ServiceTable.StyleFor | test/test.py:636-639 | a daily row is linen iff the service is `Refund` or `Tax` |
| ServiceTable.DailyServiceRow | test/test.py:630-687 | the daily service loop builds the row's cells and says whether the row is hidden |
| ServiceTable.Shown | test/test.py:680-687 | the services shown are exactly those whose row is not hidden |
| ServiceTable.DailyRowsAreShown | test/test.py:630-690 | the daily rows are the shown services in order; the i-th is striped by `row_color(i)` unless it is `Refund` or `Tax` |
| ServiceTable.DailyBlock | test/test.py:600-690 | the daily account block: a `COLUMNS`-wide header, then the rows of the shown services |
| ServiceTable.DailyTable | test/test.py:561-694 | the daily breakdown has one block per account, over the periods in the order Cost Explorer returned them |
| Pipeline.AsWrittenDailyPercentNeverFails | test/test.py:93-98 | with the daily list as written, every listed day shows only `Others`, so the daily percent pass never raises |
| Pipeline.DailyPercentFailsOnNewAccount | test/test.py:244-280 | with the intended list, the daily percent pass raises `KeyError` iff the featured account has a cost on a listed day but none on the listed day before |
| Pipeline.IntendedFailsOnNewKey | test/test.py:259-266 | on any report whose days hold `dayTotal`, the intended display makes the pass fail iff the featured account is new on a listed day |
| Pipeline.OnlyOthersNeverFails | test/test.py:93-98 | whenever no row holds the joined key, the as-written display passes the percent pass |
| Pipeline.IntendedKeys | test/test.py:93-98 | with the intended list, a day shows `Others`, `dayTotal` and the featured account when it has a cost |
| Pipeline.DailyLedgerHas | test/test.py:180-205 | an account has a cell on a daily-ledger day iff it had a result for that day |

## Left out

- Cost Explorer, SES and `lambda_handler` are not modelled. Their results come in as parameters (`AccountCosts`, `TimePeriodGroups`). `ce_get_costinfo_per_account`, `get_cost_data`, `get_linked_accounts`, `send_report_email` and `lambda_handler` are not part of this model.
- The wall clock is a parameter. `datetime.now()` fixes the start and end of `MONTHLY_COST_DATES`, and the daily draft's two reads fix the run of days behind `DAILY_COST_DATES` (at import) and the seeded days (at the call). These are passed in as separate parameters. The model does not compute them from a clock: it does not tie either run to thirty days before a given date.
- HTML markup is not modelled. Header texts, `accountDict` names, the `&Delta; %` sub-headers, the reporting-window line and the `*` on the last days are left out. A cell is modelled as its value and colour band.
- Float formatting and binary floating point are not modelled. Amounts are exact reals, and `{:.2%}` / `{:,.2f}` text is not produced.
- ServiceTable.DailyServiceRow hides a row by comparing rounded amounts with 0, where the source compares the formatted text with `"$ 0.00"`. An amount in (−0.005, 0) rounds to −0.0 and prints `$ -0.00`, so the source keeps a row the model hides.
- Python's `float()` raising `ValueError` on a malformed amount in the monthly drafts and in the daily ledger (test/test.py:183) is not modelled. Amounts arrive already parsed. In the daily breakdown, `float` is the parameter `parse`, and its failure is the caught exception that draws 0.
- Dict insertion order is not modelled. Every consumer modelled here either sorts the keys or walks a fixed list. The daily breakdown walks the periods in the order Cost Explorer gave them, and the model keeps that order.
- In-place mutation and aliasing are not modelled. The monthly display dict shares its entry dicts with the ledger, so the percent pass also writes `percentDelta` into the ledger. The model passes values, because nothing reads the ledger afterwards.
- The daily `create_report_html` (test/test.py:285-410) is not modelled. Only the monthly summary table is.
- The daily breakdown header looks up `accountDict[accounts]` for every restructured account and raises `KeyError` for an account missing there. This is not modelled, because the header text is left out.
- The monthly summary's `Others` column: `'Others'` is not on `displayListMonthly`, so the summary never draws it. The model shows this by leaving it off `DisplayListMonthly`.
- `MONTHLY_COST_DATES2` and the 180-day monthly index of the daily draft are not modelled. They are built but no modelled step reads them.
- `test/python.py` and the `botanical/` PHP site are not part of this model.
- ServiceTable.MonthlyBlock and ServiceTable.MonthlyTable draw the account header at the corrected width `2n`, not the `2n - 1` the source computes (new/new-draft.py:432-433, new-draft.py:421-424). The as-written width is `HeaderColspanAsWritten`, and the Findings row on new/new-draft.py:432-433 compares the two.
- ServiceTable.DailyBlock draws the header at `COLUMNS` = 60, as written. The number of periods comes from `get_cost_data`, which is not part of this model. Its MONTHLY query over a thirty-day window (test/test.py:480-482) gives one to three periods, so the header does not span the row (`DailyColumnsMissRow`). The model does not fix the period count.

## Findings

| source | as written | input that shows it | evidently intended | confidence | as-written member | corrected member |
|---|---|---|---|---|---|---|
| test/test.py:93-98 | No comma follows `'384352530920'`, so with the middle entries commented out Python joins the two strings into the one key `'384352530920dayTotal'` | any day: account 384352530920 costs 5.0 and another account 3.0, so `dayTotal` is 8.0. The display row is only `Others` = 16.0 | a list of the account and `'dayTotal'`, read from the comment at test/test.py:91-92, which also names `'Others'`; listing `'Others'` changes nothing, since the projection adds it anyway. The day shows 5.0, `dayTotal` 8.0 and `Others` 3.0 | not executed | Display.AsWrittenDailyDisplayDoublesOthers | Display.DailyDisplayKeepsTotal |
| test/test.py:117-125 | the per-account query of the daily draft asks for MONTHLY periods from `MONTHLY_START_DATE`, which lines 31-32 set to a first of month nine months back | any run: the first result of every account starts about nine months back, outside the thirty seeded days, so `reportCostDict[start]` at line 182 raises `KeyError` | the commented-out `START_DATE`/`END_DATE` window with DAILY granularity (lines 119-120, 124), whose results are the seeded days | not executed | Ledger.DailyLedgerRejectsEarlierPeriod | Ledger.DailyQueryFits |
| new/new-draft.py:432-433 (also new-draft.py:421-424) | `columns = n*1 + (n-1)` for the account header's `colspan` | 3 months: each service row has 1 name cell, 3 amounts and 2 changes, 6 cells in all, but the header spans 5 | the header spans the whole row: `2n` columns for `n` months | not executed | ServiceTable.HeaderColspanAsWrittenShort | ServiceTable.HeaderColspanSpansRow |
