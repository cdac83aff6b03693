/** The three KPI functions of calculos.py over a monthly series, and the guarded
    way app.py:49-53 and app.py:114-124 call them. */
module Kpis {
  import opened Wrappers
  import opened Invoices

  /** One row of the monthly series: the month, its billing and the running total
      up to and including it. */
  datatype Bucket = Bucket(month: YearMonth, total: real, cumulative: real)

  /** Sum of the monthly totals; 0 for an empty series. */
  function Total(series: seq<Bucket>): real
  {
    if series == [] then 0.0 else Total(series[..|series| - 1]) + series[|series| - 1].total
  }

  /** With no negative month, the total is non-negative and no month exceeds it. */
  lemma {:induction false} TotalBounds(series: seq<Bucket>)
    requires forall k :: 0 <= k < |series| ==> series[k].total >= 0.0
    ensures Total(series) >= 0.0
    ensures forall k :: 0 <= k < |series| ==> series[k].total <= Total(series)
    decreases |series|
  {
    if series != [] {
      var init := series[..|series| - 1];
      TotalBounds(init);
      forall k | 0 <= k < |init| ensures init[k].total <= Total(init) {
      }
    }
  }

  lemma {:induction false} TotalAppend(a: seq<Bucket>, b: seq<Bucket>)
    ensures Total(a + b) == Total(a) + Total(b)
    decreases |b|
  {
    if b == [] {
      assert a + b == a;
    } else {
      assert (a + b)[..|a + b| - 1] == a + b[..|b| - 1];
      TotalAppend(a, b[..|b| - 1]);
    }
  }

  /** Total reads only the total column. */
  lemma {:induction false} TotalOfSameTotals(a: seq<Bucket>, b: seq<Bucket>)
    requires |a| == |b|
    requires forall k :: 0 <= k < |a| ==> a[k].total == b[k].total
    ensures Total(a) == Total(b)
    decreases |a|
  {
    if a != [] {
      TotalOfSameTotals(a[..|a| - 1], b[..|b| - 1]);
    }
  }

  /** The mean of the monthly totals; pandas gives NaN (here None) for an empty series. */
  function MonthlyAverage(series: seq<Bucket>): (r: Option<real>)
    ensures r.None? <==> series == []
    ensures r.Some? ==> r.value * (|series| as real) == Total(series)
  {
    if series == [] then None else Some(Total(series) / (|series| as real))
  }

  /** The three numbers the growth rate is formed from. */
  datatype GrowthInputs = GrowthInputs(first: real, last: real, months: nat)

  /** Selection of the inputs of the growth rate: the first and the last monthly total
      and the number of months, once there are at least two months. */
  function GrowthInputsOf(series: seq<Bucket>): (g: Option<GrowthInputs>)
    ensures g.None? <==> |series| < 2
    ensures g.Some? ==> g.value.first == series[0].total
    ensures g.Some? ==> g.value.last == series[|series| - 1].total
    ensures g.Some? ==> g.value.months == |series|
  {
    if |series| < 2 then None
    else Some(GrowthInputs(series[0].total, series[|series| - 1].total, |series|))
  }

  /** Outcome of the growth-rate function: no rate (None in the source), the
      unguarded division by a zero first month, or a rate in percent. */
  datatype Growth = Undefined | DivisionByZero | Rate(percent: real)

  /** The average monthly growth rate, in percent: (last / first) raised to 1/n, minus 1,
      times 100. The power function is a parameter. */
  function GrowthRate(series: seq<Bucket>, pow: (real, real) -> real): (g: Growth)
    ensures g.Undefined? <==> |series| < 2
    ensures g.DivisionByZero? <==> |series| >= 2 && series[0].total == 0.0
  {
    match GrowthInputsOf(series)
    case None => Undefined
    case Some(inputs) =>
      if inputs.first == 0.0 then DivisionByZero
      else Rate((pow(inputs.last / inputs.first, 1.0 / (inputs.months as real)) - 1.0) * 100.0)
  }

  /** The growth rate sees only the first and the last month and the month count. */
  lemma GrowthRateIgnoresInnerMonths(s: seq<Bucket>, t: seq<Bucket>, pow: (real, real) -> real)
    requires |s| == |t|
    requires |s| >= 2 ==> s[0].total == t[0].total && s[|s| - 1].total == t[|t| - 1].total
    ensures GrowthRate(s, pow) == GrowthRate(t, pow)
  {
  }

  /** The exponent is one over the number of months, not over the number of steps between
      the first and the last month. */
  lemma GrowthRateExponent(series: seq<Bucket>, pow: (real, real) -> real)
    requires |series| >= 2 && series[0].total != 0.0
    ensures GrowthRate(series, pow)
            == Rate((pow(series[|series| - 1].total / series[0].total, 1.0 / (|series| as real)) - 1.0) * 100.0)
  {
  }

  /** The KPI figures the dashboard shows for one period. */
  datatype Summary = Summary(total: real, average: real, growth: Growth, accumulated: real)

  /** The KPIs of one period, with the dashboard's zeros for a period without data;
      the accumulated billing is the last running total. */
  function Summarize(series: seq<Bucket>, pow: (real, real) -> real): (s: Summary)
    ensures series == [] ==> s == Summary(0.0, 0.0, Rate(0.0), 0.0)
    ensures series != [] ==> s.total == Total(series)
    ensures series != [] ==> s.average * (|series| as real) == Total(series)
    ensures series != [] ==> s.growth == GrowthRate(series, pow)
    ensures series != [] ==> s.accumulated == series[|series| - 1].cumulative
  {
    if series == [] then Summary(0.0, 0.0, Rate(0.0), 0.0)
    else Summary(Total(series), MonthlyAverage(series).value, GrowthRate(series, pow), series[|series| - 1].cumulative)
  }
}
