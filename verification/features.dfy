/** The form's answers and the fixed-order numeric vector built from them
    (`input_data`), which is what the classifier is given. */
module Features {
  import opened Maybe
  import opened Choices
  import opened Encoding

  /** The fifteen risk factors, one per slot of the vector. */
  datatype Factor =
    | Age | Bmi | MenarcheAge | FirstPregnancyAge | Parity
    | FamilyHistory | OralContraceptives | HormoneTherapy | SmokingStatus
    | AlcoholIntake | PhysicalActivity | EducationLevel | UrbanResidence
    | PollutionExposure | Breastfeeding

  /** The order the classifier was trained on: slot i holds factor
      `FeatureOrder[i]`. */
  const FeatureOrder: seq<Factor> := [
    Age, Bmi, MenarcheAge, FirstPregnancyAge, Parity,
    FamilyHistory, OralContraceptives, HormoneTherapy, SmokingStatus,
    AlcoholIntake, PhysicalActivity, EducationLevel, UrbanResidence,
    PollutionExposure, Breastfeeding
  ]

  const FeatureCount: nat := 15

  /** The slots of the six "No"/"Yes" answers. */
  const YesNoSlots: set<int> := {5, 6, 7, 12, 13, 14}

  /** One submission of the form. BMI is taken as already computed from
      weight and height; the whole-number sliders give `int`s and the
      alcohol slider a `real`. */
  datatype RiskInputs = RiskInputs(
    age: int,
    bmi: real,
    menarcheAge: int,
    firstPregnancyAge: int,
    parity: int,
    familyHistory: YesNo,
    oralContraceptiveUse: YesNo,
    hormoneTherapyUse: YesNo,
    urbanResidence: YesNo,
    exposureToPollution: YesNo,
    breastfeedingHistory: YesNo,
    smokingStatus: Smoking,
    alcoholIntake: real,
    physicalActivityLevel: Activity,
    educationLevel: Education
  )

  /** The ranges the form's sliders allow. */
  predicate WithinWidgetRanges(x: RiskInputs) {
    && 18 <= x.age <= 90
    && 8 <= x.menarcheAge <= 18
    && 12 <= x.firstPregnancyAge <= 50
    && 0 <= x.parity <= 10
    && 0.0 <= x.alcoholIntake <= 10.0
  }

  /** The value the vector should carry for factor `f`: the answer itself
      for a numeric factor, its table code for a categorical one. */
  function FactorValue(x: RiskInputs, f: Factor): real {
    match f
    case Age => x.age as real
    case Bmi => x.bmi
    case MenarcheAge => x.menarcheAge as real
    case FirstPregnancyAge => x.firstPregnancyAge as real
    case Parity => x.parity as real
    case FamilyHistory => YesNoCode(x.familyHistory) as real
    case OralContraceptives => YesNoCode(x.oralContraceptiveUse) as real
    case HormoneTherapy => YesNoCode(x.hormoneTherapyUse) as real
    case SmokingStatus => SmokingCode(x.smokingStatus) as real
    case AlcoholIntake => x.alcoholIntake
    case PhysicalActivity => ActivityCode(x.physicalActivityLevel) as real
    case EducationLevel => EducationCode(x.educationLevel) as real
    case UrbanResidence => YesNoCode(x.urbanResidence) as real
    case PollutionExposure => YesNoCode(x.exposureToPollution) as real
    case Breastfeeding => YesNoCode(x.breastfeedingHistory) as real
  }

  /** `input_data`: the answers laid out as the classifier expects, every
      slot holding the value of the factor the training order puts there. */
  function EncodeFeatures(x: RiskInputs): (v: seq<real>)
    ensures |v| == |FeatureOrder| == FeatureCount
    ensures forall i | 0 <= i < |v| :: v[i] == FactorValue(x, FeatureOrder[i])
  {
    [
      x.age as real, x.bmi, x.menarcheAge as real, x.firstPregnancyAge as real, x.parity as real,
      YesNoCode(x.familyHistory) as real,
      YesNoCode(x.oralContraceptiveUse) as real,
      YesNoCode(x.hormoneTherapyUse) as real,
      SmokingCode(x.smokingStatus) as real,
      x.alcoholIntake,
      ActivityCode(x.physicalActivityLevel) as real,
      EducationCode(x.educationLevel) as real,
      YesNoCode(x.urbanResidence) as real,
      YesNoCode(x.exposureToPollution) as real,
      YesNoCode(x.breastfeedingHistory) as real
    ]
  }

  /** A slot index is one of the fifteen, for proofs that go slot by slot. */
  lemma SlotCases(i: int)
    requires 0 <= i < FeatureCount
    ensures i == 0 || i == 1 || i == 2 || i == 3 || i == 4 || i == 5 || i == 6 || i == 7
         || i == 8 || i == 9 || i == 10 || i == 11 || i == 12 || i == 13 || i == 14
  {
  }

  /** Each factor has exactly one slot. */
  function SlotOf(f: Factor): (i: nat)
    ensures i < |FeatureOrder| && FeatureOrder[i] == f
    ensures forall j | 0 <= j < |FeatureOrder| && FeatureOrder[j] == f :: j == i
  {
    match f
    case Age => 0
    case Bmi => 1
    case MenarcheAge => 2
    case FirstPregnancyAge => 3
    case Parity => 4
    case FamilyHistory => 5
    case OralContraceptives => 6
    case HormoneTherapy => 7
    case SmokingStatus => 8
    case AlcoholIntake => 9
    case PhysicalActivity => 10
    case EducationLevel => 11
    case UrbanResidence => 12
    case PollutionExposure => 13
    case Breastfeeding => 14
  }

  /** The numeric answers go into their slots unchanged. */
  lemma PassThroughSlots(x: RiskInputs)
    ensures EncodeFeatures(x)[0] == x.age as real
    ensures EncodeFeatures(x)[1] == x.bmi
    ensures EncodeFeatures(x)[2] == x.menarcheAge as real
    ensures EncodeFeatures(x)[3] == x.firstPregnancyAge as real
    ensures EncodeFeatures(x)[4] == x.parity as real
    ensures EncodeFeatures(x)[9] == x.alcoholIntake
  {
  }

  /** The six "No"/"Yes" factors sit exactly in `YesNoSlots`, and those
      slots only ever hold 0 or 1: 1 for "Yes", 0 for "No". */
  lemma YesNoSlotsAreBinary(x: RiskInputs)
    ensures forall i | 0 <= i < FeatureCount ::
      i in YesNoSlots <==> FeatureOrder[i] in {FamilyHistory, OralContraceptives, HormoneTherapy,
                                               UrbanResidence, PollutionExposure, Breastfeeding}
    ensures forall i | i in YesNoSlots :: EncodeFeatures(x)[i] == 0.0 || EncodeFeatures(x)[i] == 1.0
    ensures EncodeFeatures(x)[5] == 1.0 <==> x.familyHistory == Yes
    ensures EncodeFeatures(x)[6] == 1.0 <==> x.oralContraceptiveUse == Yes
    ensures EncodeFeatures(x)[7] == 1.0 <==> x.hormoneTherapyUse == Yes
    ensures EncodeFeatures(x)[12] == 1.0 <==> x.urbanResidence == Yes
    ensures EncodeFeatures(x)[13] == 1.0 <==> x.exposureToPollution == Yes
    ensures EncodeFeatures(x)[14] == 1.0 <==> x.breastfeedingHistory == Yes
  {
  }

  datatype Interval = Interval(lo: real, hi: real)

  /** The range a slot's value can take when the answers come from the
      form's widgets; BMI has none, since it is computed. */
  function SlotRange(f: Factor): Option<Interval> {
    match f
    case Age => Some(Interval(18.0, 90.0))
    case Bmi => None
    case MenarcheAge => Some(Interval(8.0, 18.0))
    case FirstPregnancyAge => Some(Interval(12.0, 50.0))
    case Parity => Some(Interval(0.0, 10.0))
    case SmokingStatus => Some(Interval(0.0, 2.0))
    case AlcoholIntake => Some(Interval(0.0, 10.0))
    case PhysicalActivity => Some(Interval(0.0, 2.0))
    case EducationLevel => Some(Interval(0.0, 3.0))
    case _ => Some(Interval(0.0, 1.0))
  }

  /** Answers inside the widget ranges give a vector whose every slot but
      BMI's is non-negative and inside its range. */
  lemma EncodedWithinRanges(x: RiskInputs)
    requires WithinWidgetRanges(x)
    ensures forall i | 0 <= i < FeatureCount && FeatureOrder[i] != Bmi ::
      var r := SlotRange(FeatureOrder[i]);
      r.Some? && 0.0 <= r.value.lo <= EncodeFeatures(x)[i] <= r.value.hi
  {
    var v := EncodeFeatures(x);
    forall i | 0 <= i < FeatureCount && FeatureOrder[i] != Bmi
      ensures SlotRange(FeatureOrder[i]).Some?
      ensures 0.0 <= SlotRange(FeatureOrder[i]).value.lo <= v[i] <= SlotRange(FeatureOrder[i]).value.hi
    {
      assert v[i] == FactorValue(x, FeatureOrder[i]);
    }
  }

  /** A slot holding a whole number. */
  predicate IsWhole(r: real) {
    r.Floor as real == r
  }

  function WholeAt(v: seq<real>, i: nat): (r: Option<int>)
    requires i < |v|
    ensures r.Some? ==> r.value as real == v[i]
  {
    if IsWhole(v[i]) then Some(v[i].Floor) else None
  }

  function YesNoAt(v: seq<real>, i: nat): Option<YesNo>
    requires i < |v|
  {
    if IsWhole(v[i]) then YesNoOfCode(v[i].Floor) else None
  }

  function SmokingAt(v: seq<real>, i: nat): Option<Smoking>
    requires i < |v|
  {
    if IsWhole(v[i]) then SmokingOfCode(v[i].Floor) else None
  }

  function ActivityAt(v: seq<real>, i: nat): Option<Activity>
    requires i < |v|
  {
    if IsWhole(v[i]) then ActivityOfCode(v[i].Floor) else None
  }

  function EducationAt(v: seq<real>, i: nat): Option<Education>
    requires i < |v|
  {
    if IsWhole(v[i]) then EducationOfCode(v[i].Floor) else None
  }

  /** Reading a vector back as answers; `None` when it is not the image of
      any answers (wrong length, a fraction in a whole-number slot, a code
      outside a table). */
  function DecodeFeatures(v: seq<real>): (r: Option<RiskInputs>)
    ensures r.Some? ==> |v| == FeatureCount
    ensures r.Some? ==> r.value.bmi == v[1] && r.value.alcoholIntake == v[9]
  {
    if |v| != FeatureCount then None
    else
      var age := WholeAt(v, 0);
      var menarche := WholeAt(v, 2);
      var firstPregnancy := WholeAt(v, 3);
      var parity := WholeAt(v, 4);
      var family := YesNoAt(v, 5);
      var contraceptives := YesNoAt(v, 6);
      var hormones := YesNoAt(v, 7);
      var smoking := SmokingAt(v, 8);
      var activity := ActivityAt(v, 10);
      var education := EducationAt(v, 11);
      var urban := YesNoAt(v, 12);
      var pollution := YesNoAt(v, 13);
      var breastfeeding := YesNoAt(v, 14);
      if && age.Some? && menarche.Some? && firstPregnancy.Some? && parity.Some?
         && family.Some? && contraceptives.Some? && hormones.Some? && smoking.Some?
         && activity.Some? && education.Some? && urban.Some? && pollution.Some?
         && breastfeeding.Some?
      then
        Some(RiskInputs(
          age.value, v[1], menarche.value, firstPregnancy.value, parity.value,
          family.value, contraceptives.value, hormones.value,
          urban.value, pollution.value, breastfeeding.value,
          smoking.value, v[9], activity.value, education.value))
      else None
  }

  /** The vector loses nothing: the answers can be read back from it. */
  lemma DecodeEncode(x: RiskInputs)
    ensures DecodeFeatures(EncodeFeatures(x)) == Some(x)
  {
    CodesRoundTrip();
    var v := EncodeFeatures(x);
    assert v[0].Floor == x.age;
    assert v[2].Floor == x.menarcheAge;
    assert v[3].Floor == x.firstPregnancyAge;
    assert v[4].Floor == x.parity;
  }

  /** Every vector that reads back as answers is the encoding of those
      answers, so the encoding is a bijection onto the readable vectors. */
  lemma EncodeDecode(v: seq<real>)
    requires DecodeFeatures(v).Some?
    ensures EncodeFeatures(DecodeFeatures(v).value) == v
  {
    CodesRoundTrip();
    var x := DecodeFeatures(v).value;
    var w := EncodeFeatures(x);
    assert |w| == |v|;
    forall i | 0 <= i < |v| ensures w[i] == v[i] {
      assert IsWhole(v[i]) || i == 1 || i == 9;
    }
  }

  /** Two submissions give the same vector only when they are the same. */
  lemma EncodeInjective(x: RiskInputs, y: RiskInputs)
    requires EncodeFeatures(x) == EncodeFeatures(y)
    ensures x == y
  {
    DecodeEncode(x);
    DecodeEncode(y);
  }
}
