/** The hand-written concern rule of the result page: every factor of the
    vector gets a colour, red for high, orange for moderate and green for
    low concern, from its chart label and its encoded value. */
module Concern {
  import opened Features

  datatype Colour = Red | Orange | Green

  /** How serious a colour is: green < orange < red. */
  function Severity(c: Colour): nat {
    match c
    case Green => 0
    case Orange => 1
    case Red => 2
  }

  /** `labels`: the chart label of each slot of the vector. */
  const Labels: seq<string> := [
    "Age", "BMI", "Menarche Age", "First Pregnancy Age", "Parity",
    "Family History", "Oral Contraceptives", "Hormone Therapy",
    "Smoking", "Alcohol Intake", "Physical Activity",
    "Education", "Urban Residence", "Pollution Exposure", "Breastfeeding"
  ]

  /** The labels that can turn red. */
  const HighConcernLabels: seq<string> := [
    "Age", "BMI", "Family History", "Hormone Therapy", "Smoking", "Pollution Exposure"
  ]

  /** The colour of one bar, decided from its label and value: red needs a
      high-concern label and a value of at least 1; otherwise a value of at
      least 0.5 is orange and anything below is green. */
  function Classify(name: string, val: real): (c: Colour)
    ensures name in HighConcernLabels && val >= 1.0 ==> c == Red
    ensures name !in HighConcernLabels ==> c != Red
    ensures val < 1.0 ==> c != Red
    ensures val >= 0.5 ==> c != Green
    ensures val < 0.5 ==> c == Green
  {
    if name in HighConcernLabels && val >= 1.0 then Red
    else if val >= 0.5 then Orange
    else Green
  }

  /** A larger value never gets a milder colour, and a high-concern label
      never gets a milder colour than any other label with the same value. */
  lemma ClassifyMonotone(name: string, other: string, a: real, b: real)
    requires a <= b
    ensures Severity(Classify(name, a)) <= Severity(Classify(name, b))
    ensures name in HighConcernLabels ==> Severity(Classify(other, a)) <= Severity(Classify(name, a))
  {
  }

  /** The chart label of each factor. */
  function FactorLabel(f: Factor): string {
    match f
    case Age => "Age"
    case Bmi => "BMI"
    case MenarcheAge => "Menarche Age"
    case FirstPregnancyAge => "First Pregnancy Age"
    case Parity => "Parity"
    case FamilyHistory => "Family History"
    case OralContraceptives => "Oral Contraceptives"
    case HormoneTherapy => "Hormone Therapy"
    case SmokingStatus => "Smoking"
    case AlcoholIntake => "Alcohol Intake"
    case PhysicalActivity => "Physical Activity"
    case EducationLevel => "Education"
    case UrbanResidence => "Urban Residence"
    case PollutionExposure => "Pollution Exposure"
    case Breastfeeding => "Breastfeeding"
  }

  /** The six factors the rule treats as high concern. */
  predicate IsHighConcern(f: Factor) {
    f == Age || f == Bmi || f == FamilyHistory || f == HormoneTherapy
    || f == SmokingStatus || f == PollutionExposure
  }

  /** The labels are written separately from the vector, yet bar i names the
      factor in slot i. */
  lemma LabelsAlign()
    ensures |Labels| == |FeatureOrder|
    ensures forall i | 0 <= i < |Labels| :: Labels[i] == FactorLabel(FeatureOrder[i])
  {
    forall i | 0 <= i < |Labels| ensures Labels[i] == FactorLabel(FeatureOrder[i]) {
      SlotCases(i);
    }
  }

  /** No two factors share a label. */
  lemma FactorLabelsDistinct()
    ensures forall f: Factor, g: Factor :: FactorLabel(f) == FactorLabel(g) ==> f == g
  {
  }

  /** Every high-concern label is a chart label, so none is misspelt. */
  lemma HighConcernLabelsAreLabels()
    ensures forall l | l in HighConcernLabels :: l in Labels
  {
    assert Labels[0] == HighConcernLabels[0] && Labels[1] == HighConcernLabels[1];
    assert Labels[5] == HighConcernLabels[2] && Labels[7] == HighConcernLabels[3];
    assert Labels[8] == HighConcernLabels[4] && Labels[13] == HighConcernLabels[5];
  }

  /** The high-concern labels name exactly the high-concern factors. */
  lemma HighConcernLabelOf(f: Factor)
    ensures FactorLabel(f) in HighConcernLabels <==> IsHighConcern(f)
  {
    if IsHighConcern(f) {
      assert FactorLabel(f) in HighConcernLabels;
    } else {
      assert FactorLabel(f) !in HighConcernLabels;
    }
  }

  /** The rule seen per factor rather than per label. */
  function ConcernOf(f: Factor, val: real): (c: Colour)
    ensures c == Classify(FactorLabel(f), val)
  {
    HighConcernLabelOf(f);
    if IsHighConcern(f) && val >= 1.0 then Red
    else if val >= 0.5 then Orange
    else Green
  }

  /** The colour loop: one colour per value, the value in slot i judged
      under label i. */
  method ColourFactors(values: seq<real>) returns (colours: seq<Colour>)
    requires |values| <= |Labels|
    ensures |colours| == |values|
    ensures forall i | 0 <= i < |values| :: colours[i] == Classify(Labels[i], values[i])
    ensures forall i | 0 <= i < |values| :: colours[i] == ConcernOf(FeatureOrder[i], values[i])
  {
    colours := [];
    var i := 0;
    while i < |values|
      invariant 0 <= i <= |values|
      invariant |colours| == i
      invariant forall j | 0 <= j < i :: colours[j] == Classify(Labels[j], values[j])
    {
      colours := colours + [Classify(Labels[i], values[i])];
      i := i + 1;
    }
    LabelsAlign();
  }
}
