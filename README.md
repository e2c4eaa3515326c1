# DCA calculator: the simulation engine and the CSV report, in Dafny

This project models two parts of the dollar-cost-averaging calculator.

**`calculateDCA`** (`src/api.ts`) simulates buying a fixed `amount` of an
asset on a schedule (daily, weekly or monthly) over a series of
`(date, price)` samples. Both dates are normalised to the start of their day.
The samples inside the closed window `[start, end]` are kept and sorted by
date in place. Then one loop walks them while a purchase cursor
(`nextInvestmentDate`) moves along the schedule:

- A sample whose day is not before the cursor buys `amount / price` units.
- After a purchase the cursor advances by one day, one week or one calendar
  month. The month step clamps to the last day of a shorter month.
- Every sample appends one entry to the running history.

Afterwards the value of the units is taken at the last price of the
unfiltered input, and the ROI is derived from that value.

**`exportToCSV`** (`src/lib/exportUtils.ts`) builds the text of a CSV report
by appending to a string. The text has a data-URI prefix, an
`INVESTMENT SUMMARY` block with a header line and eight metric rows, an empty
line, and a `TRANSACTION HISTORY` block with a header and one row per
transaction.

Files:

- `calendar.dfy` (module `Calendar`): proleptic Gregorian dates, day numbers
  since 1970-01-01, and the date-fns steps `addDays`, `addWeeks` and
  `addMonths` by one.
- `price_series.dfy` (module `PriceSeries`): price samples and the window
  filter. It also holds the date sort, done as an in-place insertion sort on
  an array and proved equal to a stable-sort function.
- `dca.dfy` (module `Dca`), the simulation:
  - The walk as a specification function (`Run`, `Simulate`).
  - The imperative `CalculateDca` method, proved equal to `Simulate`.
  - The lemmas that state what the walk computes.
- `text.dfy` (module `Text`): `join`, `split` and the repeated
  `+= item + suffix` of a `forEach`, with round-trip lemmas.
- `export_utils.dfy` (module `ExportUtils`): the report's content. Its
  imperative construction (`ExportCsv` and its parts) is proved equal to a
  line-structured description (`Report`), and that description is proved to
  read back into its lines and cells.

Modelling choices:

- Timestamps are integers: milliseconds since the epoch in local time.
- A start or end date is a calendar date plus a time of day.
- The calendar day of a timestamp is `t / 86400000`.
- Prices and amounts are reals.
- `toFixed` is an abstract formatter `fmt(x, digits)`, passed as a parameter.

## Model

| member | source | states |
|---|---|---|
| Calendar.NextDay | src/api.ts:116 | the next calendar date is a valid date whose day number is one more |
| Calendar.AddDays | src/api.ts:116-117 | adding n days gives a valid date exactly n day numbers later; `addWeeks(d, 1)` is `addDays(d, 7)` |
| Calendar.AddOneMonth | src/api.ts:118 | one calendar month later: the next month (January of the next year after December), the same day or the last day of a shorter month, 28 to 31 days later |
| Calendar.DaysInMonth | src/api.ts:118 | months have 28 to 31 days; February has 29 exactly in leap years |
| Calendar.MidnightOf | src/api.ts:74-75 | the start of day n lies in day n and is a whole number of days since the epoch, i.e. the first instant of day n |
| Dca.StartOfDay | src/api.ts:74-75 | startOfDay keeps the calendar day, is a midnight (a whole number of days since the epoch), and is not after the moment and less than a day before it, so it is the latest midnight not after the moment |
| Dca.Advance | src/api.ts:115-119 | one period on: exactly +1 day (daily), +7 days (weekly), or the clamped add-one-month (monthly); always strictly later, by at most 31 days |
| Dca.AdvanceNIncreasing | src/api.ts:115-119 | the cursor after j purchases is at least j - i days past the cursor after i purchases, so it strictly increases |
| PriceSeries.WindowContents | src/api.ts:80 | the kept samples are exactly the input samples that lie in the closed window, each as often as in the input, and no more of them than input samples |
| PriceSeries.WindowKeepsOrder | src/api.ts:80 | the filter keeps the input order: filtering a concatenation is filtering each part in turn |
| PriceSeries.WindowNarrow | src/api.ts:80 | filtering by a window inside another window after filtering by the outer one is filtering by the inner one alone |
| PriceSeries.InsertInPlace | src/api.ts:83 | one insertion step turns the sorted prefix plus the next element into the prefix with that element inserted stably |
| PriceSeries.SortByDateInPlace | src/api.ts:83 | the in-place sort leaves the array equal to the stable date sort of its old contents |
| PriceSeries.SortByDateSortsAndPermutes | src/api.ts:83 | the sort's result is in ascending date order and a permutation of its input |
| PriceSeries.SortByDatePermutes | src/api.ts:83 | the sort's result holds exactly the samples of its input |
| PriceSeries.SortSortedIsIdentity | src/api.ts:83 | sorting samples that are already in date order changes nothing |
| PriceSeries.InsertKeepsSorted | src/api.ts:83 | inserting into a date-ordered sequence keeps it date-ordered |
| PriceSeries.InsertPermutes | src/api.ts:83 | an insertion adds exactly the inserted sample |
| PriceSeries.InsertStable | src/api.ts:83 | among samples with the same timestamp, the inserted sample comes after those already present |
| PriceSeries.SortByDateStable | src/api.ts:83 | the sort is stable: samples that share a timestamp come out in the order they went in |
| Dca.RelevantSamples | src/api.ts:74-83 | the walked samples are sorted by date and are exactly the input samples between the two midnights; each lies between the start day and the end day, and on the end day only at its midnight |
| Dca.RelevantNonZero | src/api.ts:80-83 | filtering and sorting introduce no zero price, so an input free of zero prices meets CalculateDca's precondition |
| Dca.RelevantKeepsTies | src/api.ts:80-83 | samples that share a timestamp inside the window are walked in their input order, so the first of them is tested against the cursor first; with a lagging cursor several of them can buy (see `Dca.CatchUpAfterGap`) |
| Dca.CalculateDca | src/api.ts:66-141 | the method (window filter, in-place sort, purchase loop, final value and ROI) returns exactly the result of the specification `Simulate` |
| Dca.PurchaseRule | src/api.ts:102-112 | sample i buys exactly when its day is not before the start advanced by one period per earlier purchase, and then it is appended once to the purchases |
| Dca.RunCursor | src/api.ts:85-119 | the cursor is always the start advanced by one period per purchase made so far, and it never moves otherwise |
| Dca.RunLengths | src/api.ts:90-129 | one history entry per sample, and at most as many purchases as samples |
| Dca.RunInvested | src/api.ts:112 | the money invested is amount times the number of purchases |
| Dca.RunUnits | src/api.ts:110-111 | the units held are the sum of amount / price over the purchase samples |
| Dca.RunBookkeeping | src/api.ts:85-129 | history length, purchase count bound, cursor position and money invested together |
| Dca.PurchasesAreSamples | src/api.ts:102-112 | every purchase is one of the walked samples, none bought twice |
| Dca.PurchasesFollowSchedule | src/api.ts:85-120 | the k-th purchase (from 0) is on a day no earlier than the start advanced by k periods |
| Dca.OnScheduleBuysEverySample | src/api.ts:102-120 | when sample k is on or after the start advanced by k periods for every k, every sample buys |
| Dca.HistoryPrefix | src/api.ts:123-128 | the history of a prefix of the samples is the same prefix of the history |
| Dca.HistoryEntry | src/api.ts:123-128 | entry i holds sample i's day and price, the money invested after sample i, and the units held after sample i times its price, so a purchase on sample i already shows in entry i |
| Dca.HistoryInDateOrder | src/api.ts:83-128 | for date-ordered samples the history entries are in ascending day order |
| Dca.InvestedNonDecreasing | src/api.ts:112-128 | with a non-negative amount the invested column never decreases and never exceeds the final total |
| Dca.SimulateTotals | src/api.ts:110-136 | totalInvested is amount per purchase; totalBitcoin is the sum of amount / price over the purchases; currentValue is the units times the last price of the unfiltered input |
| Dca.SimulateHistory | src/api.ts:80-128 | the result's history has one entry per kept sample, in ascending day order, and the purchases are distinct kept samples |
| Dca.RoiMeaning | src/api.ts:138 | ROI is 0 when nothing was invested; otherwise value = invested * (1 + roi/100), and ROI is positive exactly on a gain and negative exactly on a loss |
| Dca.CatchUpAfterGap | src/api.ts:102-119 | with a weekly schedule, samples 14 and 15 days after the start both buy: a cursor that lags after a gap buys on consecutive samples |
| Dca.MonthlyClampCarriesOver | src/api.ts:118 | monthly from 2024-01-31 the cursor goes to 2024-02-29 and then 2024-03-29 |
| Dca.SingleSampleOutcome | src/api.ts:66-141 | one sample at 50000 in a one-day window with amount 100 yields 100 invested, 0.002 units, value 100, ROI 0, and one history entry |
| Text.SplitJoin | src/lib/exportUtils.ts:39-45 | splitting a join at the same separator gives back the fields when none holds the separator |
| Text.SplitTerminated | src/lib/exportUtils.ts:35-49 | newline-terminated lines split at the newline into exactly those lines and a final empty piece |
| Text.JoinAvoids | src/lib/exportUtils.ts:39 | a join holds no character other than the separator that none of its fields holds |
| Text.SuffixedAppend | src/lib/exportUtils.ts:36 | appending suffixed items for two lists in turn is appending them for the concatenated list |
| ExportUtils.SummaryData | src/lib/exportUtils.ts:7-16 | exactly eight metric rows of two cells each |
| ExportUtils.AppendRows | src/lib/exportUtils.ts:38-49 | the forEach loop appends every row, comma-joined and newline-terminated, in order |
| ExportUtils.AddSummary | src/lib/exportUtils.ts:34-41 | appends the summary block: the title, the header cells each followed by a comma, the rows, and one empty line, each line newline-terminated |
| ExportUtils.AddTransactions | src/lib/exportUtils.ts:43-49 | appends the transaction block: the title, the comma-joined header and the rows, each line newline-terminated |
| ExportUtils.ExportCsv | src/lib/exportUtils.ts:3-49 | the string built by appending equals the prefix followed by every report line and a newline |
| ExportUtils.SummaryHeaderText | src/lib/exportUtils.ts:36-37 | the summary header line is `Metric,Value,`, with a trailing comma |
| ExportUtils.TransactionHeaderText | src/lib/exportUtils.ts:18-23 | the transaction header line is `Date,Invested (USD),Asset Price,Units Bought` |
| ExportUtils.ReportLinesAt | src/lib/exportUtils.ts:32-49 | where each part of the input lands among the report lines |
| ExportUtils.ReportLayout | src/lib/exportUtils.ts:32-49 | the report has 13 + n lines in a fixed order: title, header, eight metric rows, an empty line, the history title, the transaction header, and one row per transaction in input order |
| ExportUtils.SummaryLines | src/lib/exportUtils.ts:7-16 | the eight metric lines in their fixed order, each label, a comma and the formatted value (ROI with `%`, units with 8 decimals) |
| ExportUtils.ReportOpening | src/lib/exportUtils.ts:32-35 | the report starts with `data:text/csv;charset=utf-8,` directly followed by the line `INVESTMENT SUMMARY` |
| ExportUtils.CellsClean | src/lib/exportUtils.ts:7-30 | with an asset name, dates and formatter output free of commas and newlines, no cell holds one |
| ExportUtils.LinesClean | src/lib/exportUtils.ts:32-49 | under the same condition no report line holds a newline |
| ExportUtils.ReportReadsBack | src/lib/exportUtils.ts:32-49 | the report is the prefix followed by text that splits at newlines into exactly the report lines and an empty rest |
| ExportUtils.RowsReadBack | src/lib/exportUtils.ts:25-49 | each metric line splits at commas into its label and value, and each transaction line into its four cells |

## Left out

- `fetchBitcoinHistory` (src/api.ts:29-64) is left out. It is network I/O, a
  `localStorage` cache with a wall-clock expiry, and logging.
- The default `endDate = new Date()` reads the wall clock. The model takes
  the end date as an explicit argument.
- Time zones and daylight saving time are left out. A timestamp is local
  milliseconds, and its day is its floor division by one day.
- The history's `date` field is a day number, not the `yyyy-MM-dd` text
  `format` produces.
- IEEE floating point is left out. Prices, amounts, units, values and ROI
  are reals, so rounding is not modelled.
- `toFixed` is an abstract formatter parameter. The read-back lemmas assume
  its output holds no comma and no newline.
- `encodeURI` and the DOM download (src/lib/exportUtils.ts:51-57) are left
  out.
- An empty price list makes the code read `prices[-1].price` and fail at
  src/api.ts:131. Three callers return before calling it on an empty list
  (src/hooks/useDcaCalculator.ts:48, src/hooks/useVnStockCalculator.ts:48,
  src/App.tsx:38). src/hooks/useComparisonCalculator.ts:38 calls it without
  a guard, and its catch at lines 48-50 reports the thrown error. The throw
  is not modelled: `CalculateDca` and `Simulate` require a non-empty input.
- Dca.CalculateDca requires every kept sample (the samples inside the
  window) to have a non-zero price, because only those are divided by
  (src/api.ts:110). The code would produce an infinite quotient, which reals
  cannot express. Samples outside the window, including the last input
  sample, may have a zero price; a zero last price makes `currentValue` 0.
  The specification function's `UnitsFor` yields 0 for a zero price.
- Gaps in the data are not skipped. The code buys on every sample whose day
  is not before the cursor, so a lagging cursor buys on consecutive samples
  until it catches up (`Dca.CatchUpAfterGap`). The comment at
  src/api.ts:103-105 considers moving the cursor past the sample's day when
  there are gaps, but the code never does; the model follows the code.
- The monthly cursor keeps a clamped day: from January 31 it goes to
  February 29 and then March 29, not March 31 (`Dca.MonthlyClampCarriesOver`).
- The report holds 13 lines plus one per transaction. The empty line after
  the metric rows is a line of its own.
- `exportToCSV` reads fields `calculateDCA` does not produce: `transactions`,
  `totalUnits`, `averagePrice`, `lumpSumValue` and `inflationAdjustedValue`.
  Its input is the separate datatype `ReportInput` and is not connected to
  `Simulate`.
- The 6th `inflationRate` argument some callers pass is left out. `calculateDCA`
  takes five parameters.
- The fallback data generator, React hooks, components, routes, the HTTP
  proxies and configuration are not part of this model.
