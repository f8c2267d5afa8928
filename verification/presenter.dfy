/** One run of the prediction step: when the button is pressed the vector
    goes to the classifier, and only a prediction of 1 (high risk) leads to
    the per-factor concern colours. */
module Presenter {
  import opened Choices
  import opened Features
  import opened Concern

  /** What the page ends up showing. */
  datatype Outcome = NotRequested | LowRisk | HighRisk(colours: seq<Colour>)

  /** The colour each factor gets, read straight off the answers of a
      submission inside the widget ranges. */
  function AnswerColour(x: RiskInputs, f: Factor): Colour {
    match f
    case Age => Red
    // BMI keeps the rule itself, since weight and height are not modelled.
    case Bmi => if x.bmi >= 1.0 then Red else if x.bmi >= 0.5 then Orange else Green
    case MenarcheAge => Orange
    case FirstPregnancyAge => Orange
    case Parity => if x.parity == 0 then Green else Orange
    case FamilyHistory => if x.familyHistory == Yes then Red else Green
    case OralContraceptives => if x.oralContraceptiveUse == Yes then Orange else Green
    case HormoneTherapy => if x.hormoneTherapyUse == Yes then Red else Green
    case SmokingStatus => if x.smokingStatus == Never then Green else Red
    case AlcoholIntake => if x.alcoholIntake >= 0.5 then Orange else Green
    case PhysicalActivity => if x.physicalActivityLevel == Low then Green else Orange
    case EducationLevel => if x.educationLevel == NoEducation then Green else Orange
    case UrbanResidence => if x.urbanResidence == Yes then Orange else Green
    case PollutionExposure => if x.exposureToPollution == Yes then Red else Green
    case Breastfeeding => if x.breastfeedingHistory == Yes then Orange else Green
  }

  /** For answers the widgets allow, the rule applied to the encoded vector
      gives the colours read off the answers: age is always red, the two
      reproductive ages always orange, a "Yes" is red or orange according
      to the factor and a "No" green, smoking red unless never. */
  lemma ColoursFromAnswers(x: RiskInputs)
    requires WithinWidgetRanges(x)
    ensures forall f: Factor :: ConcernOf(f, FactorValue(x, f)) == AnswerColour(x, f)
  {
    forall f: Factor ensures ConcernOf(f, FactorValue(x, f)) == AnswerColour(x, f) {
      match f
      case Parity =>
        assert x.parity == 0 || x.parity >= 1;
      case _ =>
    }
  }

  /** The prediction step. `pressed` is the button, `predict` the loaded
      classifier, which is called on the encoded answers. */
  method Assess(x: RiskInputs, pressed: bool, predict: seq<real> -> int) returns (r: Outcome)
    ensures r.NotRequested? <==> !pressed
    ensures r.HighRisk? <==> pressed && predict(EncodeFeatures(x)) == 1
    ensures r.HighRisk? ==> |r.colours| == FeatureCount
    ensures r.HighRisk? ==> forall i | 0 <= i < FeatureCount ::
      r.colours[i] == ConcernOf(FeatureOrder[i], EncodeFeatures(x)[i])
    ensures r.HighRisk? && WithinWidgetRanges(x) ==> forall f: Factor ::
      r.colours[SlotOf(f)] == AnswerColour(x, f)
  {
    if !pressed {
      return NotRequested;
    }
    var v := EncodeFeatures(x);
    var prediction := predict(v);
    if prediction == 1 {
      var colours := ColourFactors(v);
      if WithinWidgetRanges(x) {
        ColoursFromAnswers(x);
      }
      r := HighRisk(colours);
    } else {
      r := LowRisk;
    }
  }

  /** A worked submission: its vector, and the colours a high-risk
      prediction would show for it. */
  lemma ExampleSubmission()
    ensures var x := RiskInputs(50, 31.2, 11, 30, 0, Yes, No, Yes, Yes, Yes, No,
                                Current, 5.0, Low, Secondary);
      && EncodeFeatures(x) == [50.0, 31.2, 11.0, 30.0, 0.0, 1.0, 0.0, 1.0, 2.0, 5.0, 0.0, 2.0, 1.0, 1.0, 0.0]
      && (forall i | 0 <= i < FeatureCount :: ConcernOf(FeatureOrder[i], EncodeFeatures(x)[i])
           == [Red, Red, Orange, Orange, Green, Red, Green, Red, Red, Orange, Green, Orange, Orange, Red, Green][i])
  {
    var x := RiskInputs(50, 31.2, 11, 30, 0, Yes, No, Yes, Yes, Yes, No, Current, 5.0, Low, Secondary);
    var expected := [Red, Red, Orange, Orange, Green, Red, Green, Red, Red, Orange, Green, Orange, Orange, Red, Green];
    ColoursFromAnswers(x);
    forall i | 0 <= i < FeatureCount
      ensures ConcernOf(FeatureOrder[i], EncodeFeatures(x)[i]) == expected[i]
    {
      SlotCases(i);
    }
  }
}
