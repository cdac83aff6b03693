/** Billing goals (app.py:361-421, 604-681): targets derived from the prior period,
    attainment of each target, its status, and the gap to it with its reading. */
module Goals {

  /** The prior period's total grown by pct percent (app.py:376). */
  function TargetTotal(prior: real, pct: real): (t: real)
    ensures t - prior == prior * pct / 100.0
    ensures prior > 0.0 && pct >= 0.0 ==> t >= prior
  {
    prior * (1.0 + pct / 100.0)
  }

  /** The target monthly average: one twelfth of the target total (app.py:383). */
  function MonthlyTarget(target: real): (m: real)
    ensures 12.0 * m == target
  {
    target / 12.0
  }

  /** The automatic target rate as app.py:393 computes it: the compound monthly rate that
      turns the prior total into the target total in twelve steps, as a FRACTION. */
  function AutoTargetRateAsWritten(prior: real, pct: real, pow: (real, real) -> real): (f: real)
    requires prior != 0.0
    ensures f == pow(1.0 + pct / 100.0, 1.0 / 12.0) - 1.0
  {
    var growth := 1.0 + pct / 100.0;
    CancelFactor(prior, growth);
    assert TargetTotal(prior, pct) / prior == growth;
    pow(TargetTotal(prior, pct) / prior, 1.0 / 12.0) - 1.0
  }

  /** The automatic rate depends only on the growth percentage, not on the prior total. */
  lemma AutoTargetRateIgnoresPrior(p: real, q: real, pct: real, pow: (real, real) -> real)
    requires p != 0.0 && q != 0.0
    ensures AutoTargetRateAsWritten(p, pct, pow) == AutoTargetRateAsWritten(q, pct, pow)
  {
  }

  lemma CancelFactor(p: real, x: real)
    requires p != 0.0
    ensures (p * x) / p == x
  {
    assert (p * x) / p * p == p * x;
  }

  /** How the target growth rate is chosen: computed, or entered by hand in percent. */
  datatype RateMode = Automatic | Manual(percent: real)

  /** The target growth rate in percent in both modes: the automatic rate is the value
      app.py:394 displays, a hundred times the fraction of app.py:393. */
  function TargetRate(prior: real, pct: real, mode: RateMode, pow: (real, real) -> real): (r: real)
    requires mode.Automatic? ==> prior != 0.0
    ensures mode.Manual? ==> r == mode.percent
    ensures mode.Automatic? ==> r == 100.0 * AutoTargetRateAsWritten(prior, pct, pow)
  {
    match mode
    case Automatic => AutoTargetRateAsWritten(prior, pct, pow) * 100.0
    case Manual(p) => p
  }

  /** Attainment of an amount target, in percent (app.py:410-411). */
  function Attainment(actual: real, target: real): (a: real)
    requires target != 0.0
    ensures a * target == actual * 100.0
  {
    actual / target * 100.0
  }

  /** Attainment of the growth-rate target, defined as 0 for a zero target (app.py:412). */
  function RateAttainment(actual: real, target: real): (a: real)
    ensures target == 0.0 ==> a == 0.0
    ensures target != 0.0 ==> a * target == actual * 100.0
  {
    if target != 0.0 then actual / target * 100.0 else 0.0
  }

  /** Goal status (get_estado, app.py:608-614). */
  datatype Status = Met | Near | NotMet

  function StatusOf(attainment: real): (s: Status)
    ensures s == Met <==> attainment >= 100.0
    ensures s == Near <==> 85.0 <= attainment < 100.0
    ensures s == NotMet <==> attainment < 85.0
  {
    if attainment >= 100.0 then Met
    else if attainment >= 85.0 then Near
    else NotMet
  }

  /** Card colour (get_color, app.py:415-421). */
  datatype Color = Green | Orange | Red

  function ColorOf(attainment: real): (c: Color)
    ensures c == Green <==> StatusOf(attainment) == Met
    ensures c == Orange <==> StatusOf(attainment) == Near
    ensures c == Red <==> StatusOf(attainment) == NotMet
  {
    if attainment >= 100.0 then Green
    else if attainment >= 85.0 then Orange
    else Red
  }

  function Level(s: Status): nat
  {
    match s
    case NotMet => 0
    case Near => 1
    case Met => 2
  }

  /** More attainment never gives a worse status. */
  lemma StatusMonotone(a: real, b: real)
    requires a <= b
    ensures Level(StatusOf(a)) <= Level(StatusOf(b))
  {
  }

  /** What is still missing to the target (app.py:657-659). */
  function Gap(target: real, actual: real): (g: real)
    ensures g > 0.0 <==> actual < target
    ensures g == 0.0 <==> actual == target
    ensures actual + g == target
  {
    target - actual
  }

  /** Reading of a gap: a shortfall still to make up, or a surplus over the target. */
  datatype Reading = Shortfall | Surplus

  function Interpret(gap: real): (r: Reading)
    ensures r == Shortfall <==> gap > 0.0
    ensures r == Surplus <==> gap <= 0.0
  {
    if gap > 0.0 then Shortfall else Surplus
  }

  /** The three compared KPIs. */
  datatype Kpi = TotalBilling | AverageBilling | GrowthRateKpi

  /** The three texts of the interpretation column that announce a shortfall. */
  const ShortfallLabels: set<string> :=
    {"Faltante para alcanzar el objetivo", "Faltante mensual promedio", "Crecimiento adicional necesario"}

  /** The three texts of the interpretation column that announce a surplus. */
  const SurplusLabels: set<string> :=
    {"Superávit sobre el objetivo", "Superávit mensual promedio", "Crecimiento por encima del objetivo"}

  /** The interpretation column of the gap table (app.py:673-677). */
  function GapLabel(kpi: Kpi, gap: real): (text: string)
    ensures text in ShortfallLabels <==> gap > 0.0
    ensures text in SurplusLabels <==> gap <= 0.0
    ensures kpi == TotalBilling ==>
              (text == "Faltante para alcanzar el objetivo" <==> gap > 0.0)
              && (text == "Superávit sobre el objetivo" <==> gap <= 0.0)
    ensures kpi == AverageBilling ==>
              (text == "Faltante mensual promedio" <==> gap > 0.0)
              && (text == "Superávit mensual promedio" <==> gap <= 0.0)
    ensures kpi == GrowthRateKpi ==>
              (text == "Crecimiento adicional necesario" <==> gap > 0.0)
              && (text == "Crecimiento por encima del objetivo" <==> gap <= 0.0)
  {
    match (kpi, Interpret(gap))
    case (TotalBilling, Shortfall) => "Faltante para alcanzar el objetivo"
    case (TotalBilling, Surplus) => "Superávit sobre el objetivo"
    case (AverageBilling, Shortfall) => "Faltante mensual promedio"
    case (AverageBilling, Surplus) => "Superávit mensual promedio"
    case (GrowthRateKpi, Shortfall) => "Crecimiento adicional necesario"
    case (GrowthRateKpi, Surplus) => "Crecimiento por encima del objetivo"
  }

  /** Against a positive target, the gap reads as a shortfall exactly when the
      status is not met. */
  lemma ShortfallIffNotMet(target: real, actual: real)
    requires target > 0.0
    ensures Interpret(Gap(target, actual)) == Shortfall <==> StatusOf(Attainment(actual, target)) != Met
  {
    var a := Attainment(actual, target);
    assert a * target == actual * 100.0;
    if actual < target {
      assert a * target < 100.0 * target;
    } else {
      assert a * target >= 100.0 * target;
    }
  }

  /** One row of the comparison and gap tables. */
  datatype GoalRow = GoalRow(actual: real, target: real, attainment: real, status: Status, gap: real, reading: Reading)

  /** A row of the comparison and gap tables, from its actual value, target and attainment. */
  function Row(actual: real, target: real, attainment: real): (row: GoalRow)
    ensures row.actual == actual && row.target == target && row.attainment == attainment
    ensures row.status == StatusOf(attainment)
    ensures row.actual + row.gap == row.target
    ensures row.reading == Shortfall <==> actual < target
  {
    GoalRow(actual, target, attainment, StatusOf(attainment), Gap(target, actual), Interpret(Gap(target, actual)))
  }

  /** The comparison of the period's total, monthly average and growth rate with their
      targets (app.py:409-412, 617-644, 656-678). The growth percentage lies in the
      input widget's range 0..1000 (app.py:364-371). */
  function CompareGoals(total: real, average: real, rate: real, prior: real, pct: real,
                        mode: RateMode, pow: (real, real) -> real): (rows: seq<GoalRow>)
    requires prior != 0.0
    requires 0.0 <= pct <= 1000.0
    ensures |rows| == 3
    ensures rows[0].actual == total && rows[1].actual == average && rows[2].actual == rate
    ensures rows[0].target == TargetTotal(prior, pct)
    ensures 12.0 * rows[1].target == rows[0].target
    ensures rows[2].target == TargetRate(prior, pct, mode, pow)
    ensures rows[0].target != 0.0 && rows[1].target != 0.0
    ensures rows[0].attainment * rows[0].target == total * 100.0
    ensures rows[1].attainment * rows[1].target == average * 100.0
    ensures rows[2].attainment == RateAttainment(rate, rows[2].target)
    ensures forall k :: 0 <= k < 3 ==> rows[k].status == StatusOf(rows[k].attainment)
    ensures forall k :: 0 <= k < 3 ==> rows[k].gap == Gap(rows[k].target, rows[k].actual)
    ensures forall k :: 0 <= k < 3 ==> rows[k].reading == Interpret(rows[k].gap)
    ensures forall k :: 0 <= k < 3 ==> (rows[k].reading == Shortfall <==> rows[k].actual < rows[k].target)
    ensures prior > 0.0 ==> forall k :: 0 <= k < 2 ==> (rows[k].reading == Shortfall <==> rows[k].status != Met)
  {
    var targetTotal := TargetTotal(prior, pct);
    assert targetTotal != 0.0 by {
      assert targetTotal == prior * (1.0 + pct / 100.0);
      assert 1.0 + pct / 100.0 >= 1.0;
    }
    var targetAverage := MonthlyTarget(targetTotal);
    var targetRate := TargetRate(prior, pct, mode, pow);
    var rows := [Row(total, targetTotal, Attainment(total, targetTotal)),
                 Row(average, targetAverage, Attainment(average, targetAverage)),
                 Row(rate, targetRate, RateAttainment(rate, targetRate))];
    if prior > 0.0 then
      ShortfallIffNotMet(targetTotal, total);
      ShortfallIffNotMet(targetAverage, average);
      rows
    else
      rows
  }

  /** The growth-rate attainment and gap as app.py:412 and app.py:659 form them in
      automatic mode, against the fraction of app.py:393. */
  function RateAttainmentAsWritten(actual: real, prior: real, pct: real, pow: (real, real) -> real): (a: real)
    requires prior != 0.0
    ensures AutoTargetRateAsWritten(prior, pct, pow) == 0.0 ==> a == 0.0
    ensures AutoTargetRateAsWritten(prior, pct, pow) != 0.0 ==>
              a == 100.0 * RateAttainment(actual, TargetRate(prior, pct, Automatic, pow))
  {
    var f := AutoTargetRateAsWritten(prior, pct, pow);
    if f != 0.0 then
      HundredfoldAttainment(actual, f);
      RateAttainment(actual, f)
    else
      RateAttainment(actual, f)
  }

  /** Against a target a hundred times smaller, attainment is a hundred times larger. */
  lemma HundredfoldAttainment(actual: real, f: real)
    requires f != 0.0
    ensures actual / f * 100.0 == 100.0 * (actual / (100.0 * f) * 100.0)
  {
    assert actual / (100.0 * f) * 100.0 == actual / f by {
      assert actual / (100.0 * f) * (100.0 * f) == actual;
    }
  }

  /** The as-written gap falls short of the gap to the displayed target by 99 % of that
      target, and is positive exactly when the actual rate is below the fraction. */
  function RateGapAsWritten(actual: real, prior: real, pct: real, pow: (real, real) -> real): (g: real)
    requires prior != 0.0
    ensures g == Gap(TargetRate(prior, pct, Automatic, pow), actual) - 0.99 * TargetRate(prior, pct, Automatic, pow)
    ensures g > 0.0 <==> actual < AutoTargetRateAsWritten(prior, pct, pow)
  {
    Gap(AutoTargetRateAsWritten(prior, pct, pow), actual)
  }

  /** The unit mismatch in automatic mode: an actual growth rate of half the displayed
      target (which is 100 f percent for a fraction f) reads as 5000 % attained, met,
      with a surplus; in percent units it is 50 % attained, not met, with a shortfall. */
  lemma AutoRateUnitMismatch(prior: real, pct: real, pow: (real, real) -> real)
    requires prior != 0.0
    requires AutoTargetRateAsWritten(prior, pct, pow) > 0.0
    ensures var f := AutoTargetRateAsWritten(prior, pct, pow);
            && RateAttainmentAsWritten(50.0 * f, prior, pct, pow) == 5000.0
            && StatusOf(RateAttainmentAsWritten(50.0 * f, prior, pct, pow)) == Met
            && Interpret(RateGapAsWritten(50.0 * f, prior, pct, pow)) == Surplus
            && RateAttainment(50.0 * f, TargetRate(prior, pct, Automatic, pow)) == 50.0
            && StatusOf(RateAttainment(50.0 * f, TargetRate(prior, pct, Automatic, pow))) == NotMet
            && Interpret(Gap(TargetRate(prior, pct, Automatic, pow), 50.0 * f)) == Shortfall
  {
    var f := AutoTargetRateAsWritten(prior, pct, pow);
    var asWritten := RateAttainment(50.0 * f, f);
    assert asWritten * f == 50.0 * f * 100.0;
    assert asWritten == 5000.0;
    var corrected := RateAttainment(50.0 * f, 100.0 * f);
    assert corrected * (100.0 * f) == 50.0 * f * 100.0;
    assert corrected == 50.0;
  }

  /** A rate equal to its non-zero target attains exactly 100 %, is met, and leaves no
      gap, which reads as a surplus. */
  lemma RateOnTargetIsMet(prior: real, pct: real, mode: RateMode, pow: (real, real) -> real)
    requires mode.Automatic? ==> prior != 0.0
    requires TargetRate(prior, pct, mode, pow) != 0.0
    ensures var t := TargetRate(prior, pct, mode, pow);
            && RateAttainment(t, t) == 100.0
            && StatusOf(RateAttainment(t, t)) == Met
            && Gap(t, t) == 0.0
            && Interpret(Gap(t, t)) == Surplus
  {
  }
}
