/** The performance score of the prediction page: a base of 50, six guarded
    adjustments read from the form, rounded to the nearest integer (halves
    upward) and clamped to [0, 100]. Numbers are exact reals. */
module Scoring {
  import opened Wrappers
  import opened FormModel

  /** What the score reads from the form. A numeric field is None when its
      string is "" (the only falsy string), otherwise the number it parses to. */
  datatype ScoreInputs = ScoreInputs(
    capacityUtilization: Option<real>,
    productionEfficiency: Option<real>,
    defectRate: Option<real>,
    customerSatisfaction: Option<real>,
    profitMargin: Option<real>,
    marketDemand: string)

  /** A numeric field as the score sees it; `parse` stands for the host's
      number reader and is only applied to non-empty strings. */
  function Reading(s: string, parse: string -> real): Option<real> {
    if s == "" then None else Some(parse(s))
  }

  function ReadInputs(d: FormData, parse: string -> real): ScoreInputs {
    ScoreInputs(
      Reading(d.capacityUtilization, parse),
      Reading(d.productionEfficiency, parse),
      Reading(d.defectRate, parse),
      Reading(d.customerSatisfaction, parse),
      Reading(d.profitMargin, parse),
      d.marketDemand)
  }

  /** The market-demand table; None for a key the table does not hold. */
  function DemandMultiplier(key: string): Option<int> {
    if key == "very_low" then Some(-10)
    else if key == "low" then Some(-5)
    else if key == "moderate" then Some(0)
    else if key == "high" then Some(5)
    else if key == "very_high" then Some(10)
    else None
  }

  /** What the demand step adds: the table value, but only when the key is
      non-empty and the looked-up value is truthy (present and non-zero). */
  function DemandTerm(key: string): int {
    var m := DemandMultiplier(key);
    if key != "" && m.Some? && m.value != 0 then m.value else 0
  }

  function UtilizationTerm(o: Option<real>): real {
    match o
    case None => 0.0
    case Some(u) => (u - 50.0) * 0.3
  }

  function EfficiencyTerm(o: Option<real>): real {
    match o
    case None => 0.0
    case Some(e) => (e - 50.0) * 0.4
  }

  /** The amount the defect step subtracts. */
  function DefectPenalty(o: Option<real>): real {
    match o
    case None => 0.0
    case Some(r) => r * 2.0
  }

  function SatisfactionTerm(o: Option<real>): real {
    match o
    case None => 0.0
    case Some(c) => (c - 5.0) * 5.0
  }

  function ProfitTerm(o: Option<real>): real {
    match o
    case None => 0.0
    case Some(p) => p * 0.5
  }

  /** The unrounded score: the base plus every adjustment. */
  function RawScore(i: ScoreInputs): real {
    50.0
      + UtilizationTerm(i.capacityUtilization)
      + EfficiencyTerm(i.productionEfficiency)
      - DefectPenalty(i.defectRate)
      + SatisfactionTerm(i.customerSatisfaction)
      + ProfitTerm(i.profitMargin)
      + DemandTerm(i.marketDemand) as real
  }

  /** `Math.round`: the nearest integer, a tie going toward +infinity. */
  function RoundHalfUp(x: real): (n: int)
    ensures n as real - 0.5 <= x < n as real + 0.5
  {
    (x + 0.5).Floor
  }

  /** `Math.max(0, Math.min(100, n))`. */
  function ClampPercent(n: int): (r: int)
    ensures 0 <= r <= 100
    ensures 0 <= n <= 100 ==> r == n
    ensures n < 0 ==> r == 0
    ensures n > 100 ==> r == 100
  {
    if n > 100 then 100 else if n < 0 then 0 else n
  }

  /** The score the page computes for the given readings. */
  function Score(i: ScoreInputs): (s: int)
    ensures 0 <= s <= 100
  {
    ClampPercent(RoundHalfUp(RawScore(i)))
  }

  /** `calculatePerformanceScore`: an accumulator that starts at the base and
      takes the six guarded steps in the order of the source. */
  method CalculatePerformanceScore(data: FormData, parse: string -> real) returns (score: int)
    ensures score == Score(ReadInputs(data, parse))
    ensures 0 <= score <= 100
  {
    ghost var i := ReadInputs(data, parse);
    var acc: real := 50.0;
    if data.capacityUtilization != "" {
      acc := acc + (parse(data.capacityUtilization) - 50.0) * 0.3;
    }
    if data.productionEfficiency != "" {
      acc := acc + (parse(data.productionEfficiency) - 50.0) * 0.4;
    }
    if data.defectRate != "" {
      acc := acc - parse(data.defectRate) * 2.0;
    }
    if data.customerSatisfaction != "" {
      acc := acc + (parse(data.customerSatisfaction) - 5.0) * 5.0;
    }
    if data.profitMargin != "" {
      acc := acc + parse(data.profitMargin) * 0.5;
    }
    var m := DemandMultiplier(data.marketDemand);
    if data.marketDemand != "" && m.Some? && m.value != 0 {
      acc := acc + m.value as real;
    }
    assert acc == RawScore(i);
    var rounded := (acc + 0.5).Floor;
    score := if rounded < 100 then rounded else 100;
    score := if 0 < score then score else 0;
  }

  // ---------------------------------------------------------------------
  // Properties of the score

  /** Whatever the inputs, the score is the nearest integer to the raw score
      when that lies in range, 0 below it and 100 above it. */
  lemma ScoreIsRoundedRawClamped(i: ScoreInputs)
    ensures var s := Score(i) as real; var x := RawScore(i);
      && (x < 0.5 <==> Score(i) == 0)
      && (x >= 99.5 <==> Score(i) == 100)
      && (0.5 <= x < 99.5 ==> s - 0.5 <= x < s + 0.5)
  {
  }

  /** A higher raw score never gives a lower score. */
  lemma {:induction false} ScoreMonotone(i: ScoreInputs, j: ScoreInputs)
    requires RawScore(i) <= RawScore(j)
    ensures Score(i) <= Score(j)
  {
    assert RoundHalfUp(RawScore(i)) <= RoundHalfUp(RawScore(j));
  }

  /** With all six scoring fields empty, the score is the base of 50. */
  lemma NeutralFormScoresFifty(d: FormData, parse: string -> real)
    requires d.capacityUtilization == "" && d.productionEfficiency == ""
    requires d.defectRate == "" && d.customerSatisfaction == ""
    requires d.profitMargin == "" && d.marketDemand == ""
    ensures Score(ReadInputs(d, parse)) == 50
  {
  }

  /** Present means non-empty: a utilisation of "0" is read and costs 15 points. */
  lemma ZeroUtilizationCounts(d: FormData, parse: string -> real)
    requires d.capacityUtilization == "0" && parse("0") == 0.0
    ensures RawScore(ReadInputs(d, parse)) == RawScore(ReadInputs(d.(capacityUtilization := ""), parse)) - 15.0
  {
  }

  /** A demand key outside very_low, low, high and very_high ("moderate",
      the empty string or an unknown key) scores as an empty demand field. */
  lemma DemandNeutralKeys(i: ScoreInputs)
    requires i.marketDemand != "very_low" && i.marketDemand != "low"
    requires i.marketDemand != "high" && i.marketDemand != "very_high"
    ensures Score(i) == Score(i.(marketDemand := ""))
  {
  }

  /** The four effective demand keys shift the raw score by -10, -5, +5 and +10. */
  lemma DemandShifts(i: ScoreInputs)
    ensures RawScore(i.(marketDemand := "very_low")) == RawScore(i.(marketDemand := "")) - 10.0
    ensures RawScore(i.(marketDemand := "low")) == RawScore(i.(marketDemand := "")) - 5.0
    ensures RawScore(i.(marketDemand := "high")) == RawScore(i.(marketDemand := "")) + 5.0
    ensures RawScore(i.(marketDemand := "very_high")) == RawScore(i.(marketDemand := "")) + 10.0
  {
  }

  /** Raising a present defect rate, all else fixed, never raises the score. */
  lemma {:induction false} DefectRateAntitone(i: ScoreInputs, a: real, b: real)
    requires a <= b
    ensures Score(i.(defectRate := Some(b))) <= Score(i.(defectRate := Some(a)))
  {
    ScoreMonotone(i.(defectRate := Some(b)), i.(defectRate := Some(a)));
  }

  /** Raising a present production efficiency, all else fixed, never lowers the score. */
  lemma {:induction false} EfficiencyMonotone(i: ScoreInputs, a: real, b: real)
    requires a <= b
    ensures Score(i.(productionEfficiency := Some(a))) <= Score(i.(productionEfficiency := Some(b)))
  {
    ScoreMonotone(i.(productionEfficiency := Some(a)), i.(productionEfficiency := Some(b)));
  }

  /** The same holds for utilisation, satisfaction and profit margin. */
  lemma {:induction false} OtherFactorsMonotone(i: ScoreInputs, a: real, b: real)
    requires a <= b
    ensures Score(i.(capacityUtilization := Some(a))) <= Score(i.(capacityUtilization := Some(b)))
    ensures Score(i.(customerSatisfaction := Some(a))) <= Score(i.(customerSatisfaction := Some(b)))
    ensures Score(i.(profitMargin := Some(a))) <= Score(i.(profitMargin := Some(b)))
  {
    ScoreMonotone(i.(capacityUtilization := Some(a)), i.(capacityUtilization := Some(b)));
    ScoreMonotone(i.(customerSatisfaction := Some(a)), i.(customerSatisfaction := Some(b)));
    ScoreMonotone(i.(profitMargin := Some(a)), i.(profitMargin := Some(b)));
  }

  /** Saturating inputs: top marks everywhere give 100, not more. */
  lemma BestInputsScoreHundred()
    ensures Score(ScoreInputs(Some(100.0), Some(100.0), None, Some(10.0), Some(100.0), "very_high")) == 100
  {
  }

  /** Saturating inputs: full defects, no efficiency and no utilisation give 0, not less. */
  lemma WorstInputsScoreZero()
    ensures Score(ScoreInputs(Some(0.0), Some(0.0), Some(100.0), None, None, "")) == 0
  {
  }
}
