/** The two lookup tables of the application: `binary_map` for the "No"/"Yes"
    selectors and `multi_map` for the three ordinal selectors, and the
    numeric codes they give each answer. */
module Encoding {
  import opened Maybe
  import opened Choices

  /** `binary_map`. */
  const BinaryMap: map<string, int> := map["Yes" := 1, "No" := 0]

  /** The three vocabularies written one after another in `multi_map`. */
  const SmokingCodes: map<string, int> := map["Never" := 0, "Former" := 1, "Current" := 2]
  const ActivityCodes: map<string, int> := map["Low" := 0, "Moderate" := 1, "High" := 2]
  const EducationCodes: map<string, int> :=
    map["None" := 0, "Primary" := 1, "Secondary" := 2, "Tertiary" := 3]

  /** `multi_map` is one dictionary literal holding all three vocabularies;
      as in a dictionary literal, a key written twice keeps its last value,
      which is what map union does. */
  const MultiMap: map<string, int> := SmokingCodes + ActivityCodes + EducationCodes

  /** A table codes an option list by position: every option is a key, and
      its code is its index in the list. */
  ghost predicate CodesByPosition(table: map<string, int>, options: seq<string>) {
    forall i | 0 <= i < |options| :: options[i] in table && table[options[i]] == i
  }

  /** The single dictionary loses nothing: the three vocabularies share no
      key, so each one's codes survive the merge, and the merged table has
      exactly their ten keys. */
  lemma MultiMapKeepsEachVocabulary()
    ensures SmokingCodes.Keys !! ActivityCodes.Keys
    ensures SmokingCodes.Keys !! EducationCodes.Keys
    ensures ActivityCodes.Keys !! EducationCodes.Keys
    ensures MultiMap.Keys == SmokingCodes.Keys + ActivityCodes.Keys + EducationCodes.Keys
    ensures |MultiMap| == 10
    ensures forall k | k in SmokingCodes :: MultiMap[k] == SmokingCodes[k]
    ensures forall k | k in ActivityCodes :: MultiMap[k] == ActivityCodes[k]
    ensures forall k | k in EducationCodes :: MultiMap[k] == EducationCodes[k]
  {
    assert SmokingCodes.Keys == {"Never", "Former", "Current"};
    assert ActivityCodes.Keys == {"Low", "Moderate", "High"};
    assert EducationCodes.Keys == {"None", "Primary", "Secondary", "Tertiary"};
    assert MultiMap.Keys ==
      {"Never", "Former", "Current", "Low", "Moderate", "High", "None", "Primary", "Secondary", "Tertiary"};
  }

  /** `binary_map` codes "No" and "Yes" by their position in the list
      ["No", "Yes"] the selectors offer, and has no other key. */
  lemma BinaryMapCodesByPosition()
    ensures CodesByPosition(BinaryMap, YesNoOptions) && |BinaryMap| == |YesNoOptions|
  {
    assert BinaryMap.Keys == {"Yes", "No"};
  }

  /** `multi_map` codes each ordinal selector's options by their position
      in the list the selector offers, so the codes rise strictly along
      that list: the encodings are injective and order-preserving. */
  lemma TablesCodeByPosition()
    ensures CodesByPosition(MultiMap, SmokingOptions)
    ensures CodesByPosition(MultiMap, ActivityOptions)
    ensures CodesByPosition(MultiMap, EducationOptions)
  {
    VocabulariesCodeByPosition();
    MultiMapKeepsEachVocabulary();
    SubTableCodesByPosition(SmokingCodes, SmokingOptions);
    SubTableCodesByPosition(ActivityCodes, ActivityOptions);
    SubTableCodesByPosition(EducationCodes, EducationOptions);
  }

  /** Each of the three vocabularies, on its own, codes its selector's
      options by position. */
  lemma VocabulariesCodeByPosition()
    ensures CodesByPosition(SmokingCodes, SmokingOptions)
    ensures CodesByPosition(ActivityCodes, ActivityOptions)
    ensures CodesByPosition(EducationCodes, EducationOptions)
  {
  }

  /** A vocabulary that codes by position still does so inside `multi_map`. */
  lemma SubTableCodesByPosition(sub: map<string, int>, options: seq<string>)
    requires CodesByPosition(sub, options)
    requires forall k | k in sub :: k in MultiMap && MultiMap[k] == sub[k]
    ensures CodesByPosition(MultiMap, options)
  {
  }

  /** The code `binary_map` gives a "No"/"Yes" answer. */
  function YesNoCode(c: YesNo): (n: int)
    ensures 0 <= n < |YesNoOptions|
  {
    match c
    case No => 0
    case Yes => 1
  }

  /** The code `multi_map` gives a smoking answer. */
  function SmokingCode(c: Smoking): (n: int)
    ensures 0 <= n < |SmokingOptions|
  {
    match c
    case Never => 0
    case Former => 1
    case Current => 2
  }

  /** The code `multi_map` gives a physical-activity answer. */
  function ActivityCode(c: Activity): (n: int)
    ensures 0 <= n < |ActivityOptions|
  {
    match c
    case Low => 0
    case Moderate => 1
    case High => 2
  }

  /** The code `multi_map` gives an education answer. */
  function EducationCode(c: Education): (n: int)
    ensures 0 <= n < |EducationOptions|
  {
    match c
    case NoEducation => 0
    case Primary => 1
    case Secondary => 2
    case Tertiary => 3
  }

  /** Looking an answer's label up in the application's tables never
      misses, and yields that answer's code. */
  lemma CodesAgreeWithTables()
    ensures forall c: YesNo :: YesNoLabel(c) in BinaryMap && BinaryMap[YesNoLabel(c)] == YesNoCode(c)
    ensures forall c: Smoking :: SmokingLabel(c) in MultiMap && MultiMap[SmokingLabel(c)] == SmokingCode(c)
    ensures forall c: Activity :: ActivityLabel(c) in MultiMap && MultiMap[ActivityLabel(c)] == ActivityCode(c)
    ensures forall c: Education ::
      EducationLabel(c) in MultiMap && MultiMap[EducationLabel(c)] == EducationCode(c)
  {
    YesNoCodesAgree();
    SmokingCodesAgree();
    ActivityCodesAgree();
    EducationCodesAgree();
  }

  /** The agreement, one table at a time. */
  lemma YesNoCodesAgree()
    ensures forall c: YesNo :: YesNoLabel(c) in BinaryMap && BinaryMap[YesNoLabel(c)] == YesNoCode(c)
  {
    BinaryMapCodesByPosition();
    CodesArePositions();
  }

  lemma SmokingCodesAgree()
    ensures forall c: Smoking :: SmokingLabel(c) in MultiMap && MultiMap[SmokingLabel(c)] == SmokingCode(c)
  {
    TablesCodeByPosition();
    CodesArePositions();
  }

  lemma ActivityCodesAgree()
    ensures forall c: Activity :: ActivityLabel(c) in MultiMap && MultiMap[ActivityLabel(c)] == ActivityCode(c)
  {
    TablesCodeByPosition();
    CodesArePositions();
  }

  lemma EducationCodesAgree()
    ensures forall c: Education ::
      EducationLabel(c) in MultiMap && MultiMap[EducationLabel(c)] == EducationCode(c)
  {
    TablesCodeByPosition();
    CodesArePositions();
  }

  /** A code is the position of the answer's label in the list its
      selector offers. */
  lemma CodesArePositions()
    ensures forall c: YesNo :: YesNoOptions[YesNoCode(c)] == YesNoLabel(c)
    ensures forall c: Smoking :: SmokingOptions[SmokingCode(c)] == SmokingLabel(c)
    ensures forall c: Activity :: ActivityOptions[ActivityCode(c)] == ActivityLabel(c)
    ensures forall c: Education :: EducationOptions[EducationCode(c)] == EducationLabel(c)
  {
  }

  /** Reading a code back as an answer: the inverse of the tables. */
  function YesNoOfCode(n: int): (r: Option<YesNo>)
    ensures r.Some? <==> 0 <= n < |YesNoOptions|
  {
    if n == 0 then Some(No)
    else if n == 1 then Some(Yes)
    else None
  }

  function SmokingOfCode(n: int): (r: Option<Smoking>)
    ensures r.Some? <==> 0 <= n < |SmokingOptions|
  {
    if n == 0 then Some(Never)
    else if n == 1 then Some(Former)
    else if n == 2 then Some(Current)
    else None
  }

  function ActivityOfCode(n: int): (r: Option<Activity>)
    ensures r.Some? <==> 0 <= n < |ActivityOptions|
  {
    if n == 0 then Some(Low)
    else if n == 1 then Some(Moderate)
    else if n == 2 then Some(High)
    else None
  }

  function EducationOfCode(n: int): (r: Option<Education>)
    ensures r.Some? <==> 0 <= n < |EducationOptions|
  {
    if n == 0 then Some(NoEducation)
    else if n == 1 then Some(Primary)
    else if n == 2 then Some(Secondary)
    else if n == 3 then Some(Tertiary)
    else None
  }

  /** Decoding undoes encoding, and encoding undoes decoding. */
  lemma CodesRoundTrip()
    ensures forall c: YesNo :: YesNoOfCode(YesNoCode(c)) == Some(c)
    ensures forall c: Smoking :: SmokingOfCode(SmokingCode(c)) == Some(c)
    ensures forall c: Activity :: ActivityOfCode(ActivityCode(c)) == Some(c)
    ensures forall c: Education :: EducationOfCode(EducationCode(c)) == Some(c)
    ensures forall n | YesNoOfCode(n).Some? :: YesNoCode(YesNoOfCode(n).value) == n
    ensures forall n | SmokingOfCode(n).Some? :: SmokingCode(SmokingOfCode(n).value) == n
    ensures forall n | ActivityOfCode(n).Some? :: ActivityCode(ActivityOfCode(n).value) == n
    ensures forall n | EducationOfCode(n).Some? :: EducationCode(EducationOfCode(n).value) == n
  {
    forall c: YesNo ensures YesNoOfCode(YesNoCode(c)) == Some(c) {}
    forall c: Smoking ensures SmokingOfCode(SmokingCode(c)) == Some(c) {}
    forall c: Activity ensures ActivityOfCode(ActivityCode(c)) == Some(c) {}
    forall c: Education ensures EducationOfCode(EducationCode(c)) == Some(c) {}
  }

  /** The ordinal encodings are injective and follow the order in which
      the selectors list the answers. */
  lemma OrdinalCodesInjectiveAndOrdered()
    ensures forall a: Smoking, b: Smoking :: SmokingCode(a) == SmokingCode(b) ==> a == b
    ensures forall a: Activity, b: Activity :: ActivityCode(a) == ActivityCode(b) ==> a == b
    ensures forall a: Education, b: Education :: EducationCode(a) == EducationCode(b) ==> a == b
    ensures SmokingCode(Never) < SmokingCode(Former) < SmokingCode(Current)
    ensures ActivityCode(Low) < ActivityCode(Moderate) < ActivityCode(High)
    ensures EducationCode(NoEducation) < EducationCode(Primary) < EducationCode(Secondary) < EducationCode(Tertiary)
  {
  }
}
