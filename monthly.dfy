/** The ETL step of the dashboard (procesar_csv, app.py:27-47): the normalised table
    and its monthly series, grouped by month of issue, ascending, with a running total. */
module Monthly {
  import opened Wrappers
  import opened Invoices
  import opened Grouping
  import opened Kpis

  /** The grouping key of the monthly series. */
  function MonthKey(r: Invoice): YearMonth
  {
    MonthOf(r.issued)
  }

  /** Chronological order of months. */
  predicate Before(a: YearMonth, b: YearMonth)
  {
    a.year < b.year || (a.year == b.year && a.month < b.month)
  }

  /** The month column of a series. */
  function Months(series: seq<Bucket>): seq<YearMonth>
  {
    seq(|series|, k requires 0 <= k < |series| => series[k].month)
  }

  predicate Ascending(series: seq<Bucket>)
  {
    forall i, j :: 0 <= i < j < |series| ==> Before(series[i].month, series[j].month)
  }

  /** The series has one row per month that occurs in the table, in ascending order,
      and each row's total is the sum of the amounts issued in exactly that month. */
  ghost predicate GroupedByMonth(rows: seq<Invoice>, series: seq<Bucket>)
  {
    && Ascending(series)
    && (forall m :: m in Months(series) <==> m in KeysOf(rows, MonthKey))
    && (forall k :: 0 <= k < |series| ==> series[k].total == KeyTotal(rows, MonthKey, series[k].month))
  }

  /** Each running total is the sum of the monthly totals up to and including its month. */
  predicate RunningTotals(series: seq<Bucket>)
  {
    forall k :: 0 <= k < |series| ==> series[k].cumulative == Total(series[..k + 1])
  }

  ghost predicate IsMonthlySeries(rows: seq<Invoice>, series: seq<Bucket>)
  {
    GroupedByMonth(rows, series) && RunningTotals(series)
  }

  /** Adding a row changes only the group of its month, and adds that month to the keys. */
  lemma MonthSnoc(seen: seq<Invoice>, r: Invoice)
    ensures forall x :: KeyTotal(seen + [r], MonthKey, x)
                        == KeyTotal(seen, MonthKey, x) + (if MonthKey(r) == x then r.amount else 0.0)
    ensures KeysOf(seen + [r], MonthKey) == KeysOf(seen, MonthKey) + {MonthKey(r)}
  {
    forall x: YearMonth
      ensures KeyTotal(seen + [r], MonthKey, x) == KeyTotal(seen, MonthKey, x) + (if MonthKey(r) == x then r.amount else 0.0)
    {
      KeySnoc(seen, MonthKey, r, x);
    }
    KeySnoc(seen, MonthKey, r, MonthKey(r));
  }

  /** Booking a row into the existing bucket j of its month keeps the series grouped. */
  lemma BookIntoBucket(series: seq<Bucket>, seen: seq<Invoice>, r: Invoice, j: nat)
    requires GroupedByMonth(seen, series)
    requires j < |series| && series[j].month == MonthKey(r)
    ensures GroupedByMonth(seen + [r], series[j := series[j].(total := series[j].total + r.amount)])
  {
    var out := series[j := series[j].(total := series[j].total + r.amount)];
    MonthSnoc(seen, r);
    assert Months(out) == Months(series);
    assert Months(series)[j] == MonthKey(r);
    forall k | 0 <= k < |out| ensures out[k].total == KeyTotal(seen + [r], MonthKey, out[k].month) {
      if k != j {
        assert series[k].month != series[j].month by {
          if k < j { assert Before(series[k].month, series[j].month); }
          else { assert Before(series[j].month, series[k].month); }
        }
      }
    }
  }

  /** A month that sorts strictly between the buckets before and after position j
      is not among the months of the series. */
  lemma NewMonthAbsent(series: seq<Bucket>, m: YearMonth, j: nat)
    requires Ascending(series) && j <= |series|
    requires forall k :: 0 <= k < j ==> Before(series[k].month, m)
    requires j < |series| ==> !Before(series[j].month, m) && series[j].month != m
    ensures m !in Months(series)
    ensures j < |series| ==> Before(m, series[j].month)
  {
    forall k | 0 <= k < |series| ensures series[k].month != m {
      if j < k {
        assert Before(series[j].month, series[k].month);
      }
    }
  }

  /** Inserting a new bucket at its place in month order keeps the series ascending. */
  lemma InsertAscending(series: seq<Bucket>, b: Bucket, j: nat)
    requires Ascending(series) && j <= |series|
    requires forall k :: 0 <= k < j ==> Before(series[k].month, b.month)
    requires j < |series| ==> Before(b.month, series[j].month)
    ensures Ascending(series[..j] + [b] + series[j..])
  {
    var out := series[..j] + [b] + series[j..];
    forall i, k | 0 <= i < k < |out| ensures Before(out[i].month, out[k].month) {
      if i == j && j + 1 < k {
        assert Before(series[j].month, series[k - 1].month);
      } else if i < j && j < k {
        assert Before(out[i].month, b.month);
        assert k == j + 1 || Before(series[j].month, out[k].month);
      }
    }
  }

  /** Booking a row whose month has no bucket yet into a new bucket at position j keeps
      the series grouped. */
  lemma BookIntoNewBucket(series: seq<Bucket>, seen: seq<Invoice>, r: Invoice, j: nat)
    requires GroupedByMonth(seen, series) && j <= |series|
    requires forall k :: 0 <= k < j ==> Before(series[k].month, MonthKey(r))
    requires j < |series| ==> !Before(series[j].month, MonthKey(r)) && series[j].month != MonthKey(r)
    ensures GroupedByMonth(seen + [r], series[..j] + [Bucket(MonthKey(r), r.amount, 0.0)] + series[j..])
  {
    var m := MonthKey(r);
    var out := series[..j] + [Bucket(m, r.amount, 0.0)] + series[j..];
    NewMonthAbsent(series, m, j);
    InsertAscending(series, Bucket(m, r.amount, 0.0), j);
    AbsentKey(seen, MonthKey, m);
    MonthSnoc(seen, r);
    assert Months(out) == Months(series)[..j] + [m] + Months(series)[j..];
    assert Months(series) == Months(series)[..j] + Months(series)[j..];
    assert forall x :: x in Months(out) <==> x in Months(series) || x == m;
  }

  /** Books one more row into a grouped series: into the bucket of its month when there
      is one, otherwise into a new bucket at its place in month order. */
  method AddToMonth(series: seq<Bucket>, ghost seen: seq<Invoice>, r: Invoice) returns (out: seq<Bucket>)
    requires GroupedByMonth(seen, series)
    ensures GroupedByMonth(seen + [r], out)
  {
    var m := MonthOf(r.issued);
    var j := 0;
    while j < |series| && Before(series[j].month, m)
      invariant 0 <= j <= |series|
      invariant forall k :: 0 <= k < j ==> Before(series[k].month, m)
    {
      j := j + 1;
    }
    if j < |series| && series[j].month == m {
      BookIntoBucket(series, seen, r, j);
      out := series[j := series[j].(total := series[j].total + r.amount)];
    } else {
      BookIntoNewBucket(series, seen, r, j);
      out := series[..j] + [Bucket(m, r.amount, 0.0)] + series[j..];
    }
  }

  /** groupby on the month column followed by sum (app.py:38-41). */
  method GroupByMonth(rows: seq<Invoice>) returns (series: seq<Bucket>)
    ensures GroupedByMonth(rows, series)
  {
    series := [];
    for i := 0 to |rows|
      invariant GroupedByMonth(rows[..i], series)
    {
      assert rows[..i + 1] == rows[..i] + [rows[i]];
      series := AddToMonth(series, rows[..i], rows[i]);
    }
    assert rows[..|rows|] == rows;
  }

  /** The cumsum column over the grouped series (app.py:42): months and totals are kept,
      the running-total column is filled in month order. */
  method Cumulate(grouped: seq<Bucket>) returns (series: seq<Bucket>)
    ensures Months(series) == Months(grouped)
    ensures forall k :: 0 <= k < |series| ==> series[k].total == grouped[k].total
    ensures RunningTotals(series)
  {
    series := grouped;
    var running := 0.0;
    for k := 0 to |series|
      invariant |series| == |grouped|
      invariant forall t :: 0 <= t < |series| ==> series[t].month == grouped[t].month && series[t].total == grouped[t].total
      invariant running == Total(grouped[..k])
      invariant forall t :: 0 <= t < k ==> series[t].cumulative == Total(grouped[..t + 1])
    {
      assert grouped[..k + 1][..k] == grouped[..k];
      running := running + series[k].total;
      series := series[k := series[k].(cumulative := running)];
    }
    forall t | 0 <= t < |series| ensures series[t].cumulative == Total(series[..t + 1]) {
      TotalOfSameTotals(series[..t + 1], grouped[..t + 1]);
    }
    assert Months(series) == Months(grouped);
  }

  /** procesar_csv on typed rows: no upload gives an empty table and an empty series,
      otherwise the normalised table and its monthly series. */
  method ProcessUpload(upload: Option<seq<Invoice>>) returns (table: seq<Invoice>, series: seq<Bucket>)
    ensures upload.None? ==> table == [] && series == []
    ensures upload.Some? ==> table == Normalized(upload.value)
    ensures upload.Some? ==> IsMonthlySeries(table, series)
  {
    if upload.None? {
      return [], [];
    }
    table := Normalize(upload.value);
    var grouped := GroupByMonth(table);
    series := Cumulate(grouped);
    forall k | 0 <= k < |series| ensures series[k].month == grouped[k].month {
      assert Months(series)[k] == Months(grouped)[k];
    }
  }

  /** The first running total is the first monthly total, and every later one adds its
      month's total to the previous running total. */
  lemma RunningTotalsRecurrence(series: seq<Bucket>)
    requires RunningTotals(series)
    ensures |series| > 0 ==> series[0].cumulative == series[0].total
    ensures forall k :: 0 < k < |series| ==> series[k].cumulative == series[k - 1].cumulative + series[k].total
  {
    if |series| > 0 {
      assert series[..1] == [] + [series[0]];
      assert Total(series[..1]) == Total([]) + series[0].total;
    }
    forall k | 0 < k < |series| ensures series[k].cumulative == series[k - 1].cumulative + series[k].total {
      assert series[..k + 1][..k] == series[..k];
    }
  }

  /** The last running total is the total of the series. */
  lemma LastRunningTotal(series: seq<Bucket>)
    requires RunningTotals(series) && series != []
    ensures series[|series| - 1].cumulative == Total(series)
  {
    assert series[..|series|] == series;
  }

  /** With no negative month, the running total never decreases. */
  lemma RunningTotalsNonDecreasing(series: seq<Bucket>)
    requires RunningTotals(series)
    requires forall k :: 0 <= k < |series| ==> series[k].total >= 0.0
    ensures forall i, j :: 0 <= i <= j < |series| ==> series[i].cumulative <= series[j].cumulative
  {
    RunningTotalsRecurrence(series);
    forall i, j | 0 <= i <= j < |series| ensures series[i].cumulative <= series[j].cumulative {
      var k := i;
      while k < j
        invariant i <= k <= j
        invariant series[i].cumulative <= series[k].cumulative
      {
        k := k + 1;
      }
    }
  }

  lemma AscendingDistinct(series: seq<Bucket>)
    requires Ascending(series)
    ensures Distinct(Months(series))
  {
  }

  /** Summing a grouped series' totals is summing the groups of its months. */
  lemma {:induction false} TotalIsSumOfGroups(rows: seq<Invoice>, series: seq<Bucket>)
    requires forall k :: 0 <= k < |series| ==> series[k].total == KeyTotal(rows, MonthKey, series[k].month)
    ensures Total(series) == SumKeyTotals(rows, MonthKey, Months(series))
    decreases |series|
  {
    if series != [] {
      var init := series[..|series| - 1];
      assert Months(series)[..|series| - 1] == Months(init);
      TotalIsSumOfGroups(rows, init);
    }
  }

  /** No amount is dropped or counted twice: the monthly totals add up to the table's total. */
  lemma MonthlyTotalsConserve(rows: seq<Invoice>, series: seq<Bucket>)
    requires GroupedByMonth(rows, series)
    ensures Total(series) == TotalAmount(rows)
  {
    TotalIsSumOfGroups(rows, series);
    AscendingDistinct(series);
    SumOverCoveringKeys(rows, MonthKey, Months(series));
  }

  /** The series is empty exactly when the table is. */
  lemma {:induction false} EmptySeriesIffEmptyTable(rows: seq<Invoice>, series: seq<Bucket>)
    requires GroupedByMonth(rows, series)
    ensures series == [] <==> rows == []
  {
    assert series != [] ==> Months(series)[0] in Months(series);
    if rows != [] {
      var init, last := rows[..|rows| - 1], rows[|rows| - 1];
      assert MonthKey(last) in KeysOf(rows, MonthKey);
      assert MonthKey(last) in Months(series);
    }
  }

  /** The accumulated billing the category check uses (the last running total, or 0
      without data) is the whole table's total (app.py:114-119). */
  lemma AccumulatedIsTableTotal(rows: seq<Invoice>, series: seq<Bucket>, pow: (real, real) -> real)
    requires IsMonthlySeries(rows, series)
    ensures Summarize(series, pow).accumulated == TotalAmount(rows)
    ensures Summarize(series, pow).total == TotalAmount(rows)
  {
    EmptySeriesIffEmptyTable(rows, series);
    MonthlyTotalsConserve(rows, series);
    if series != [] {
      LastRunningTotal(series);
    }
  }

  /** End to end: the billing of the processed upload nets the credit notes out of the sales. */
  lemma UploadBillingNetsCredits(rows: seq<Invoice>, series: seq<Bucket>)
    requires IsMonthlySeries(Normalized(rows), series)
    ensures Total(series) == TotalAmount(Sales(rows)) - TotalAmount(CreditNotes(rows))
  {
    MonthlyTotalsConserve(Normalized(rows), series);
    NormalizedTotalNetsCredits(rows);
  }
}
