/** The categorical answers of the risk form. Every single-choice selector
    offers a fixed list of option strings, in a fixed order; the datatypes
    below are those answers, and `...Label` gives the option string the
    selector hands back to the application. */
module Choices {
  import opened Maybe

  /** The six "No"/"Yes" selectors (family history, oral contraceptives,
      hormone therapy, urban residence, pollution, breastfeeding). */
  datatype YesNo = No | Yes

  datatype Smoking = Never | Former | Current

  datatype Activity = Low | Moderate | High

  /** The option "None" is called NoEducation here, so that it cannot be
      confused with `Option.None`. */
  datatype Education = NoEducation | Primary | Secondary | Tertiary

  /** The option lists of the selectors, in the order they are offered. */
  const YesNoOptions: seq<string> := ["No", "Yes"]
  const SmokingOptions: seq<string> := ["Never", "Former", "Current"]
  const ActivityOptions: seq<string> := ["Low", "Moderate", "High"]
  const EducationOptions: seq<string> := ["None", "Primary", "Secondary", "Tertiary"]

  /** No option string appears twice in a list, so an answer is
      determined by the string the selector returns. */
  ghost predicate Distinct(options: seq<string>) {
    forall i, j | 0 <= i < j < |options| :: options[i] != options[j]
  }

  function YesNoLabel(c: YesNo): (s: string)
  {
    match c
    case No => "No"
    case Yes => "Yes"
  }

  function SmokingLabel(c: Smoking): (s: string)
  {
    match c
    case Never => "Never"
    case Former => "Former"
    case Current => "Current"
  }

  function ActivityLabel(c: Activity): (s: string)
  {
    match c
    case Low => "Low"
    case Moderate => "Moderate"
    case High => "High"
  }

  function EducationLabel(c: Education): (s: string)
  {
    match c
    case NoEducation => "None"
    case Primary => "Primary"
    case Secondary => "Secondary"
    case Tertiary => "Tertiary"
  }

  /** Reading a selector's string back as an answer: defined exactly on the
      selector's options, and the inverse of the label. */
  function ParseYesNo(s: string): (r: Option<YesNo>)
    ensures r.Some? <==> s in YesNoOptions
  {
    if s == "No" then Some(No)
    else if s == "Yes" then Some(Yes)
    else None
  }

  function ParseSmoking(s: string): (r: Option<Smoking>)
    ensures r.Some? <==> s in SmokingOptions
  {
    if s == "Never" then Some(Never)
    else if s == "Former" then Some(Former)
    else if s == "Current" then Some(Current)
    else None
  }

  function ParseActivity(s: string): (r: Option<Activity>)
    ensures r.Some? <==> s in ActivityOptions
  {
    if s == "Low" then Some(Low)
    else if s == "Moderate" then Some(Moderate)
    else if s == "High" then Some(High)
    else None
  }

  function ParseEducation(s: string): (r: Option<Education>)
    ensures r.Some? <==> s in EducationOptions
  {
    if s == "None" then Some(NoEducation)
    else if s == "Primary" then Some(Primary)
    else if s == "Secondary" then Some(Secondary)
    else if s == "Tertiary" then Some(Tertiary)
    else None
  }

  /** Every option a selector offers is the label of exactly one answer,
      and parsing an answer's label gives the answer back. */
  lemma OptionsAreLabels()
    ensures forall c: YesNo :: YesNoLabel(c) in YesNoOptions && ParseYesNo(YesNoLabel(c)) == Some(c)
    ensures forall c: Smoking :: SmokingLabel(c) in SmokingOptions && ParseSmoking(SmokingLabel(c)) == Some(c)
    ensures forall c: Activity :: ActivityLabel(c) in ActivityOptions && ParseActivity(ActivityLabel(c)) == Some(c)
    ensures forall c: Education ::
      EducationLabel(c) in EducationOptions && ParseEducation(EducationLabel(c)) == Some(c)
    ensures Distinct(YesNoOptions) && Distinct(SmokingOptions)
    ensures Distinct(ActivityOptions) && Distinct(EducationOptions)
    ensures forall s | s in YesNoOptions :: YesNoLabel(ParseYesNo(s).value) == s
    ensures forall s | s in SmokingOptions :: SmokingLabel(ParseSmoking(s).value) == s
    ensures forall s | s in ActivityOptions :: ActivityLabel(ParseActivity(s).value) == s
    ensures forall s | s in EducationOptions :: EducationLabel(ParseEducation(s).value) == s
  {
  }
}
