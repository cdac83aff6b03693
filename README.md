# Monotributo billing analysis — verified model of its business rules

The dashboard reads a taxpayer's invoice export, which is one row per voucher.
It turns that export into figures for the simplified tax regime:

- a normalised invoice table in which credit notes (voucher type 13) count negatively;
- a month-by-month billing series with a running accumulated total;
- the period's total, monthly average and compound monthly growth rate;
- the margin to the ceiling of the taxpayer's current category, or the excess over it;
- when the ceiling is exceeded, the category the taxpayer would fall into;
- billing targets derived from the prior period, with attainment, status and gap for each;
- a per-client table and the ten largest clients with their share of the top-ten subtotal.

The project models these rules over exact amounts (Dafny `real`). It has one module per concern:

| module | file | models |
|---|---|---|
| `Wrappers` | wrappers.dfy | `Option` |
| `Invoices` | invoices.dfy | invoice records, credit-note normalisation, the credit-note listing, filters and sums |
| `Grouping` | grouping.dfy | group-by-key totals and counts, and the partition-sum argument shared by months and clients |
| `Kpis` | kpis.dfy | calculos.py and the KPI block of app.py |
| `Monthly` | monthly.dfy | `procesar_csv`: normalise, bucket by month, cumulative sum |
| `Categories` | categories.dfy | ceiling table, margin/excess, re-categorisation scan |
| `Goals` | goals.dfy | targets, attainment, status, colour, gap and its interpretation |
| `Clients` | clients.dfy | per-client aggregation, the top ten and their shares, the per-client invoice listing |

The steps that rewrite the data frame are methods with loops, each proved against a specification predicate or function:

- normalising the table (`Normalize`);
- grouping by month (`GroupByMonth`) and by client (`GroupByClient`), each by insertion into a key-sorted sequence;
- the cumulative sum (`Cumulate`);
- the category scan with its early exit (`Recategorize`);
- sorting and truncating to ten rows (`TopTen`);
- adding the share column (`AddShares`).

The expression-only rules are functions. The properties that relate several operations are lemmas.

## Model

| member | source | states |
|---|---|---|
| Invoices.NormalizeRecord | app.py:37 | a type-13 voucher gets the negated amount, any other voucher is unchanged, and no field other than the amount changes |
| Invoices.Normalize | app.py:37 | the loop produces the row-by-row normalisation: same length, same order, each row normalised |
| Invoices.TotalAmountAppend | app.py:39 | the sum of amounts is additive over concatenation |
| Invoices.CreditNotes | app.py:346 | keeps every row of voucher type 13 as often as the table holds it and no other row, and no more rows than the table has |
| Invoices.Sales | app.py:37 | keeps every row of another voucher type as often as the table holds it and no other row; with the credit notes it accounts for every row |
| Invoices.NormalizedTotalNetsCredits | app.py:37 | the total of the normalised table is the sales total minus the credit-note total |
| Invoices.CreditNoteListingTotal | app.py:346-353 | the credit-note listing of the normalised table sums to minus the original credit-note amounts, so it is ≤ 0 when the export's amounts are non-negative |
| Grouping.KeySnoc | app.py:39 | appending a row adds its amount and one count to the group of its key only, and adds its key to the key set |
| Grouping.AbsentKey | app.py:39 | a key that no row has gets total 0 and count 0 |
| Grouping.SumOverCoveringKeys | app.py:39 | over distinct keys that cover every row's key, the group totals sum to the table total and the group counts sum to the row count |
| Grouping.SumKeySnoc | app.py:39 | over distinct keys, appending a row raises the summed group totals by its amount exactly when its key is listed |
| Grouping.EmptyTableGroups | app.py:39 | the groups of an empty table sum to 0 |
| Kpis.TotalBounds | calculos.py:1-2 | `Kpis.Total`, the sum of the series' totals: with non-negative monthly totals the sum of the series is non-negative and no month exceeds it |
| Kpis.TotalAppend | calculos.py:1-2 | the total of the monthly series is additive over concatenation |
| Kpis.TotalOfSameTotals | calculos.py:1-2 | two series with the same bucket totals have the same total |
| Kpis.MonthlyAverage | calculos.py:4-5 | the mean is undefined exactly for an empty series; otherwise the mean times the bucket count is the total |
| Kpis.GrowthInputsOf | calculos.py:8-14 | there are no inputs exactly when there are fewer than two buckets; otherwise the inputs are the first total, the last total and the bucket count |
| Kpis.GrowthRate | calculos.py:7-15 | the result is `None` (Undefined) exactly for fewer than two buckets, and an explicit division by zero exactly when the first total is 0 |
| Kpis.GrowthRateIgnoresInnerMonths | calculos.py:12-15 | two series of equal length that agree on their first and last totals have the same growth rate |
| Kpis.GrowthRateExponent | calculos.py:15 | the rate is (pow(last/first, 1/n) − 1)·100, with n the bucket count rather than n − 1 |
| Kpis.Summarize | app.py:114-119 | an empty series gives all-zero KPIs; otherwise the total, a mean that times n is the total, the growth rate, and the last cumulative value |
| Monthly.MonthSnoc | app.py:38-39 | appending a record adds its amount to its own month's total only, and its month to the set of months |
| Monthly.BookIntoBucket | app.py:39 | adding a record to the bucket of its existing month keeps the series a correct month grouping of the longer table |
| Monthly.NewMonthAbsent | app.py:39-41 | a month strictly between the buckets before and after the search position is absent from the series |
| Monthly.InsertAscending | app.py:39-41 | inserting a bucket at that search position keeps the months strictly ascending |
| Monthly.BookIntoNewBucket | app.py:39-41 | adding a record of a new month as a new bucket at the search position keeps the series a correct month grouping |
| Monthly.AddToMonth | app.py:38-41 | one grouping step: from a grouping of a prefix to a grouping of the prefix extended by one record |
| Monthly.GroupByMonth | app.py:38-41 | months are strictly ascending, a month is present exactly when some record falls in it, and each total is the sum over the records of exactly that month |
| Monthly.Cumulate | app.py:42 | keeps the months and totals and sets each cumulative value to the sum of the totals up to and including that bucket |
| Monthly.ProcessUpload | app.py:27-47 | a missing upload gives an empty table and series; otherwise the normalised table and its grouped, cumulated monthly series |
| Monthly.RunningTotalsRecurrence | app.py:42 | the first cumulative value is the first total, and each later one is the previous cumulative plus its own total |
| Monthly.LastRunningTotal | app.py:42 | the last cumulative value, read as the accumulated billing at app.py:116, is the total of the series |
| Monthly.RunningTotalsNonDecreasing | app.py:42 | with non-negative monthly totals the cumulative column never decreases |
| Monthly.AscendingDistinct | app.py:39-41 | strictly ascending months are distinct |
| Monthly.TotalIsSumOfGroups | app.py:39 | a series whose buckets carry their group totals sums to the sum of those groups |
| Monthly.MonthlyTotalsConserve | app.py:38-41 | the bucket totals sum to the total of the table's amounts |
| Monthly.EmptySeriesIffEmptyTable | app.py:39 | the series is empty exactly when the table is |
| Monthly.AccumulatedIsTableTotal | app.py:114-119 | the accumulated billing and the total KPI both equal the sum of the normalised amounts |
| Monthly.UploadBillingNetsCredits | app.py:37-42 | the monthly totals of an upload sum to its sales minus its credit notes |
| Categories.Ceiling | app.py:90-94 | every ceiling of the fixed table lies between that of A and that of K |
| Categories.Rank | app.py:90-94 | each category has a position in the table, and the table holds it there |
| Categories.ScaleStrictlyIncreasing | app.py:90-94 | the ceilings rise strictly from A to K, so sorting the table by ceiling leaves it in place |
| Categories.CeilingOrderIsRankOrder | app.py:240 | a lower ceiling (app.py:90-94) means an earlier category and vice versa, so the sort by ceiling is the table order |
| Categories.Evaluate | app.py:127-131 | margin and excess are non-negative, at least one is 0, margin − excess = ceiling − accumulated; excess > 0 exactly above the ceiling and margin > 0 exactly below it |
| Categories.Recategorize | app.py:238-253 | no alert exactly when the accumulated billing is within the current ceiling; otherwise the category found is the first in ascending order whose ceiling covers the accumulated billing, and so the lowest such ceiling and above the current one; "no higher category" exactly when every ceiling is exceeded |
| Goals.TargetTotal | app.py:376 | the target exceeds the prior total by pct percent of it, and is at least the prior total for a positive prior and a non-negative pct |
| Goals.MonthlyTarget | app.py:383 | twelve monthly targets make the target total |
| Goals.AutoTargetRateAsWritten | app.py:393 | the automatic target rate as written is the fraction pow(1 + pct/100, 1/12) − 1, in which the prior total cancels |
| Goals.AutoTargetRateIgnoresPrior | app.py:393 | the automatic rate depends only on the growth percentage, not on the level of the prior period |
| Goals.TargetRate | app.py:389-404 | in manual mode the entered percent; in automatic mode the displayed value, a hundred times the compound fraction |
| Goals.Attainment | app.py:410-411 | attainment times target equals actual times 100 |
| Goals.RateAttainment | app.py:412 | 0 for a zero target; otherwise attainment times target equals actual times 100 |
| Goals.StatusOf | app.py:608-614 | met exactly at ≥ 100, near exactly in [85, 100), not met exactly below 85 |
| Goals.ColorOf | app.py:415-421 | green, orange and red exactly when the status is met, near and not met |
| Goals.StatusMonotone | app.py:608-614 | more attainment never gives a worse status |
| Goals.Gap | app.py:657-659 | positive exactly when the actual is below the target, 0 exactly when equal, and actual + gap = target |
| Goals.Interpret | app.py:673-677 | shortfall exactly for a positive gap, surplus otherwise |
| Goals.GapLabel | app.py:673-677 | for each KPI, its shortfall text exactly when the gap is positive and its surplus text exactly when it is not; so the text is one of the three shortfall texts exactly for a positive gap and one of the three surplus texts otherwise |
| Goals.ShortfallIffNotMet | app.py:657-658 | against a positive target a gap reads as a shortfall exactly when the status (app.py:608-614) of the attainment (app.py:410-411) is not met |
| Goals.Row | app.py:657-659 | a row keeps its actual value, target and attainment, carries the status of the attainment, a gap with actual + gap = target, and a shortfall reading exactly when actual < target |
| Goals.CompareGoals | app.py:409-412 | with the corrected, percent growth-rate target of the finding below in automatic mode: three rows, total, monthly average and growth rate, each with its actual value, target, attainment, status equal to the status of that attainment, gap equal to target − actual (app.py:657-659), a reading that is the interpretation of that gap, and so a shortfall reading exactly when actual < target; for a positive prior the amount rows read shortfall exactly when not met (tables at app.py:617-644 and 656-678) |
| Goals.RateAttainmentAsWritten | app.py:412 | as written, the automatic-mode growth attainment is 0 for a zero fraction and otherwise exactly a hundred times the attainment against the displayed percent target |
| Goals.RateGapAsWritten | app.py:659 | as written, the automatic-mode growth gap is the gap to the displayed percent target minus 99 % of that target, and is positive exactly when the actual rate is below the fraction |
| Goals.AutoRateUnitMismatch | app.py:393-412 | in automatic mode an actual rate at half the displayed target reads 5000 % attained, met, with a surplus (gap at app.py:659), where percent units give 50 %, not met, shortfall |
| Goals.RateOnTargetIsMet | app.py:412 | a rate equal to its non-zero target attains exactly 100 %, is met, and leaves a zero gap that reads as a surplus |
| Clients.NameBeforeIrreflexive | app.py:270 | the name order is irreflexive |
| Clients.NameBeforeTransitive | app.py:270 | the name order is transitive |
| Clients.NameBeforeTotal | app.py:270 | any two different names are ordered one way or the other |
| Clients.RoundHalfEven | app.py:275 | an integer at most one half away, strictly less than one half away unless y lies exactly halfway, and even when it does |
| Clients.Round2 | app.py:275 | a whole number of cents within 0.005 of its argument, strictly closer unless the argument lies exactly on a half cent, and then the even cent |
| Clients.ClientSnoc | app.py:270-271 | appending a record adds its amount and one invoice to its own client only, and its name to the set of names |
| Clients.NamesDistinct | app.py:270 | ascending names are pairwise different |
| Clients.BookIntoClient | app.py:270-272 | adding a record to its existing client row keeps the table a correct client grouping |
| Clients.NewNameAbsent | app.py:270 | a name strictly between the rows before and after the search position is absent |
| Clients.InsertNamesAscending | app.py:270 | inserting a row at that search position keeps the names ascending |
| Clients.BookIntoNewClient | app.py:270-272 | adding a record of a new client as a new row at the search position keeps the table a correct client grouping |
| Clients.AddToClient | app.py:270-272 | one grouping step, from a prefix to the prefix extended by one record |
| Clients.GroupByClient | app.py:270-275 | names are ascending and distinct, a name is present exactly when some record carries it, total and count are those of exactly that client's records, the count is positive, and the average is total / count rounded to cents |
| Clients.ClientSumsAreGroupSums | app.py:270-272 | rows carrying their group totals and counts sum to the sums of those groups |
| Clients.ClientTotalsConserve | app.py:270-272 | per-client totals sum to the table total; per-client counts sum to the number of records |
| Clients.DistinctCardinality | app.py:263 | a sequence of distinct names has as many elements as its set |
| Clients.ClientCountIsDistinctNames | app.py:263 | the client table of app.py:270 has one row per distinct client name, the count of app.py:263 |
| Clients.InvoicesOf | app.py:330 | keeps every row of the chosen client name as often as the table holds it and no other row, and no more rows than the table has |
| Clients.InvoiceListingMatchesGroup | app.py:330-339 | a client's invoice listing sums to that client's group total and has its invoice count |
| Clients.MaxTotalIndex | app.py:284 | the position of a largest total |
| Clients.SelectStep | app.py:284 | taking the largest remaining row keeps the taken rows descending and no smaller than the rest, and keeps all rows accounted for |
| Clients.LeftOutNotLarger | app.py:284 | once the rows are split into taken and left, no left-out client is larger than a taken one |
| Clients.TopTen | app.py:284 | min(10, n) rows in descending order of total, drawn from the client table, and no client left out has a larger total than a row taken |
| Clients.ClientsTotalBounds | app.py:287 | `Clients.ClientsTotal`, the subtotal of the total column: with non-negative client totals the subtotal is non-negative and no client exceeds it |
| Clients.AddShares | app.py:286-288 | keeps the rows and gives each the share total / subtotal · 100; no share when the subtotal is 0 |
| Clients.TopClients | app.py:284-288 | the top ten in descending order, drawn from the table, nothing larger left out, with shares as above |
| Clients.SharesScale | app.py:287-288 | shares relative to s sum to the subtotal relative to s |
| Clients.SharesSumToHundred | app.py:287-288 | for a non-zero subtotal the shares sum to 100 |

## Left out

- Streamlit widgets, metric cards, plotly figures and every f-string format (app.py:55-89, 95-101, 138-236, 291-311, 423-510, 559-603). They are presentation only. The comparison and gap tables are modelled as values, not as text.
- Rows with a missing client name or a missing date are outside the model. `read_csv` turns an empty cell into NaN (or NaT for the date). `groupby` at app.py:39 and app.py:270-271, and `nunique` at app.py:263, then drop those rows. A typed record always carries a name and a date, so `Monthly.MonthlyTotalsConserve`, `Clients.ClientTotalsConserve` and `Clients.ClientCountIsDistinctNames` cover only tables whose rows have both; in the source the group sums of other tables can fall short of the table total and row count.
- Reading the export (`read_csv` with its separators), header stripping, the column selection and date parsing (app.py:29-36) are library calls. The model starts from typed invoice records. The `YYYY-MM` month strings of app.py:40-41 are represented by the `YearMonth` value they print.
- Process-wide `locale.setlocale` and the month-name seasonality chart (app.py:14-24, 511-558) are global state and library formatting.
- `Kpis.GrowthRate`, `Goals.AutoTargetRateAsWritten`: real powers with a fractional exponent are a parameter `pow`, not computed.
- Float semantics are not modelled. Amounts are exact reals, so rounding error, `inf` and `nan` are absent. numpy would return `inf`/`nan` for a first bucket total of 0 (calculos.py:15); the model returns an explicit `DivisionByZero` result instead.
- Kpis.GrowthRate: the "no `Imp. Total` column" guard of calculos.py:8 is folded into the empty check. In typed records every non-empty series has the amount, and the only frame lacking the column is the blank frame of a missing upload, which is also empty.
- Goals.CompareGoals: requires a non-zero prior total, because app.py:393 and app.py:410-411 divide by the prior total and by the target derived from it without a guard.
- Goals.CompareGoals: its growth-rate row uses the corrected target of the finding below. In automatic mode that is the displayed percent, a hundred times the fraction that app.py:393 assigns and app.py:412, 632 and 659 use. The as-written attainment and gap are `RateAttainmentAsWritten` and `RateGapAsWritten`.
- Goals.CompareGoals: its growth-rate row takes the actual rate as a number. A current upload whose series has exactly one month gets `None` from calculos.py:10-11; this is the input where `Kpis.Summarize` returns `Undefined`. The dashboard then fails at app.py:164 when it formats `None` with `:.2f`. That failure is not modelled, and neither is the later failure at app.py:412 when the target rate is non-zero. An empty series never reaches calculos.py, because app.py:118 sets the rate to 0.
- Goals.CompareGoals: requires 0 ≤ pct ≤ 1000, the range the input widget enforces (app.py:364-371).
- Clients.TopTen: pandas' default sort is not stable, so the order among clients with equal totals is not fixed. The contract makes no claim about it.
- Clients.GroupByClient: the `Promedio por Factura` rounding (app.py:275) is half-to-even on exact reals. Binary floating-point rounding is not reproduced.
- The two uploads gate at app.py:108 and the prior period's own KPIs (app.py:121-124) reuse `ProcessUpload` and `Summarize`; they are not modelled separately.
- The client selectbox, unique-name listing and default selection (app.py:318-327) are presentation. Only the filter-and-sum of the chosen client is modelled (`InvoicesOf`).

## Findings

| source | as written | input that shows it | evidently intended | confidence | as-written member | corrected member |
|---|---|---|---|---|---|---|
| app.py:393, 412, 659 | in automatic mode the target growth rate is kept as a fraction (it is multiplied by 100 only for display at app.py:394), while the actual rate (calculos.py:15) and the manual target (app.py:397) are percents; attainment and gap therefore compare a percent with a fraction | prior total 1000, growth target 10 %, automatic mode, actual monthly growth equal to half the displayed target rate: attainment reads 5000 %, "met", with a surplus | the target rate in percent in both modes, so that attainment is 50 %, "not met", with a shortfall | not executed | Goals.AutoTargetRateAsWritten, Goals.RateAttainmentAsWritten, Goals.AutoRateUnitMismatch | Goals.TargetRate, Goals.CompareGoals, Goals.AutoRateUnitMismatch |
