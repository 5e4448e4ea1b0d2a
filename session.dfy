/** The state of one form session of the prediction page: the form record and
    the last prediction, with the four handlers that change them. */
module Session {
  import opened Wrappers
  import opened FormModel
  import opened Scoring
  import opened Banding
  import opened Utilization

  /** The single error of the submit handler: a required field is empty. */
  datatype ValidationError = MissingRequiredFields

  /** The fields marked required on the form. */
  function RequiredFields(): set<Field> {
    {CompanyName, IndustryType, MonthlyOutput, ProductionCapacity}
  }

  /** The validation and scoring of the submit handler as a value: a failure
      when a required field is empty, otherwise the score and its band. */
  function Evaluate(d: FormData, parse: string -> real): (r: Result<Prediction, ValidationError>)
    ensures r.Failure? <==> exists f :: f in RequiredFields() && d.Get(f) == ""
    ensures r.Success? ==> r.value.score == Score(ReadInputs(d, parse))
    ensures r.Success? ==> forall b :: InBand(b, r.value.score) ==>
      r.value.category == Category(b) && r.value.recommendations == Recommendation(b)
      && r.value.color == Color(b)
  {
    if d.companyName == "" || d.industryType == "" || d.monthlyOutput == "" || d.productionCapacity == "" then
      assert d.Get(CompanyName) == "" || d.Get(IndustryType) == "" || d.Get(MonthlyOutput) == "" || d.Get(ProductionCapacity) == "";
      Failure(MissingRequiredFields)
    else
      Success(Classify(Score(ReadInputs(d, parse))))
  }

  /** A blank form never passes validation. */
  lemma BlankFormFails(parse: string -> real)
    ensures Evaluate(Blank(), parse) == Failure(MissingRequiredFields)
  {
  }

  /** A complete form whose scoring fields are all empty scores 50, which is
      in the "Sedang" (moderate) band. */
  lemma {:induction false} NeutralCompleteForm(d: FormData, parse: string -> real)
    requires d.companyName != "" && d.industryType != ""
    requires d.monthlyOutput != "" && d.productionCapacity != ""
    requires d.capacityUtilization == "" && d.productionEfficiency == ""
    requires d.defectRate == "" && d.customerSatisfaction == ""
    requires d.profitMargin == "" && d.marketDemand == ""
    ensures Evaluate(d, parse).Success?
    ensures Evaluate(d, parse).value.score == 50
    ensures Evaluate(d, parse).value.category == "🟠 Performa Sedang"
  {
    NeutralFormScoresFifty(d, parse);
  }

  /** The utilisation text the effect writes, if any: the rendered
      percentage when the capacity reads as positive. */
  function RecomputedUtilization(d: FormData, parse: string -> real, fixed1: real -> string): (r: Option<string>)
    ensures r.Some? <==> NumberOrZero(d.productionCapacity, parse) > 0.0
  {
    match DerivedUtilization(NumberOrZero(d.monthlyOutput, parse), NumberOrZero(d.productionCapacity, parse))
    case None => None
    case Some(u) => Some(fixed1(u))
  }

  /** The form after the utilisation effect has run. */
  function AfterRecompute(d: FormData, parse: string -> real, fixed1: real -> string): (e: FormData)
    ensures forall f :: f != CapacityUtilization ==> e.Get(f) == d.Get(f)
    ensures NumberOrZero(d.productionCapacity, parse) <= 0.0 ==> e == d
  {
    match RecomputedUtilization(d, parse, fixed1)
    case None => d
    case Some(t) => d.With(CapacityUtilization, t)
  }

  class FormSession {
    var formData: FormData
    var predictionResult: Option<Prediction>
    /** The host's number reader (`Number.parseFloat`) on non-empty strings. */
    const parse: string -> real
    /** The host's one-decimal rendering (`toFixed(1)`). */
    const fixed1: real -> string

    /** The page as first shown: every field empty and no prediction. */
    constructor (parse: string -> real, fixed1: real -> string)
      ensures formData == Blank() && predictionResult == None
      ensures this.parse == parse && this.fixed1 == fixed1
    {
      formData := Blank();
      predictionResult := None;
      this.parse := parse;
      this.fixed1 := fixed1;
    }

    /** `handleInputChange`: field f becomes v and nothing else changes. */
    method SetField(f: Field, v: string)
      modifies this
      ensures formData == old(formData).With(f, v)
      ensures formData.Get(f) == v
      ensures forall g :: g != f ==> formData.Get(g) == old(formData).Get(g)
      ensures predictionResult == old(predictionResult)
    {
      formData := formData.With(f, v);
    }

    /** The utilisation effect, run after monthly output or capacity changes:
        with a positive capacity, the utilisation field is overwritten by the
        rendered percentage and every other field is kept; otherwise the form
        is unchanged, whatever utilisation it already held. */
    method RecomputeUtilization()
      modifies this
      ensures formData == AfterRecompute(old(formData), parse, fixed1)
      ensures var output := NumberOrZero(old(formData).monthlyOutput, parse);
        var capacity := NumberOrZero(old(formData).productionCapacity, parse);
        if capacity > 0.0 then
          formData == old(formData).With(CapacityUtilization, fixed1((output / capacity) * 100.0))
        else
          formData == old(formData)
      ensures predictionResult == old(predictionResult)
    {
      var output := if formData.monthlyOutput == "" then 0.0 else parse(formData.monthlyOutput);
      var capacity := if formData.productionCapacity == "" then 0.0 else parse(formData.productionCapacity);
      if capacity > 0.0 {
        var utilization := (output / capacity) * 100.0;
        formData := formData.(capacityUtilization := fixed1(utilization));
      }
    }

    /** `handleSubmit`: with a required field empty nothing changes, an earlier
        prediction included; otherwise the prediction is replaced by the score
        and its band. The form itself is never changed. */
    method Submit()
      modifies this
      ensures formData == old(formData)
      ensures (exists f :: f in RequiredFields() && formData.Get(f) == "") ==>
        predictionResult == old(predictionResult)
      ensures (forall f :: f in RequiredFields() ==> formData.Get(f) != "") ==>
        predictionResult == Some(Classify(Score(ReadInputs(formData, parse))))
      ensures predictionResult == match Evaluate(old(formData), parse)
        case Failure(_) => old(predictionResult)
        case Success(p) => Some(p)
    {
      if formData.companyName == "" || formData.industryType == ""
        || formData.monthlyOutput == "" || formData.productionCapacity == "" {
        assert formData.Get(CompanyName) == "" || formData.Get(IndustryType) == ""
          || formData.Get(MonthlyOutput) == "" || formData.Get(ProductionCapacity) == "";
        return;
      }
      var score := CalculatePerformanceScore(formData, parse);
      predictionResult := Some(Classify(score));
    }

    /** `resetForm`: every field back to "" and the prediction cleared. */
    method Reset()
      modifies this
      ensures formData == Blank()
      ensures forall f :: formData.Get(f) == ""
      ensures predictionResult == None
    {
      formData := Blank();
      predictionResult := None;
    }
  }

  /** The effect reads only output and capacity, which it never writes. */
  lemma {:induction false} RecomputeReadsOnlyItsInputs(d: FormData, parse: string -> real, fixed1: real -> string, t: string)
    ensures RecomputedUtilization(d.With(CapacityUtilization, t), parse, fixed1) == RecomputedUtilization(d, parse, fixed1)
  {
    assert d.With(CapacityUtilization, t).Get(MonthlyOutput) == d.Get(MonthlyOutput);
    assert d.With(CapacityUtilization, t).Get(ProductionCapacity) == d.Get(ProductionCapacity);
  }

  /** Running the effect a second time changes nothing more. */
  lemma {:induction false} RecomputeIdempotent(d: FormData, parse: string -> real, fixed1: real -> string)
    ensures AfterRecompute(AfterRecompute(d, parse, fixed1), parse, fixed1) == AfterRecompute(d, parse, fixed1)
  {
    match RecomputedUtilization(d, parse, fixed1)
    case None =>
    case Some(t) =>
      RecomputeReadsOnlyItsInputs(d, parse, fixed1, t);
      WithOverwrite(d, CapacityUtilization, t, t);
  }

  /** A short session: after a reset, the four required fields are filled
      (the utilisation effect running after output and capacity) and the form
      is submitted. 1000 against 2000 is a utilisation of 50, which adds
      nothing, so the prediction is the neutral 50. */
  method ResetFillSubmit(s: FormSession)
    requires s.parse("1000") == 1000.0 && s.parse("2000") == 2000.0
    requires s.fixed1(50.0) != "" && s.parse(s.fixed1(50.0)) == 50.0
    modifies s
    ensures s.predictionResult.Some? && s.predictionResult.value.score == 50
    ensures s.predictionResult.value.category == "🟠 Performa Sedang"
  {
    s.Reset();
    s.SetField(CompanyName, "Acme");
    s.SetField(IndustryType, "automotive");
    s.SetField(MonthlyOutput, "1000");
    s.RecomputeUtilization();
    s.SetField(ProductionCapacity, "2000");
    s.RecomputeUtilization();
    assert s.formData.capacityUtilization == s.fixed1(50.0);
    s.Submit();
  }
}
