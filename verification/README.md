# Breast-cancer risk form: feature encoding and concern colours

The application is a single Streamlit page. It collects lifestyle and
reproductive answers, turns them into a fixed-order vector of fifteen
numbers (`input_data`), hands the vector to a pre-trained classifier and, when
the classifier answers 1 (high risk), colours every factor of the vector red,
orange or green by a hand-written concern rule.

This project models the two pieces of deterministic logic in that script:

- **the feature encoder**: the `binary_map` and `multi_map` tables
  (`encoding.dfy`), the answers of the form (`choices.dfy`, `features.dfy`)
  and the fifteen-slot vector built from them (`features.dfy`);
- **the concern classifier**: the `labels` list and the colour loop
  (`concern.dfy`), gated on the button press and the prediction being 1
  (`presenter.dfy`).

Categorical answers are datatypes. Each answer keeps the option string its
selector returns, because the source's tables are dictionaries keyed by those
strings. The vector is a `seq<real>`: numpy stores the int/float mix as
float64, and every value here is a small whole number, the given BMI, or the user's
alcohol value, so exact reals lose nothing. The classifier is a total function parameter
`seq<real> -> int`, and the button press is a `bool`.

`multi_map` is one dictionary literal. It is modelled as the union of its three
vocabularies, written in order. Dafny's map union keeps the right-hand value
for a repeated key, as a Python dictionary literal does.
`Encoding.MultiMapKeepsEachVocabulary` proves that no key is repeated, so the
merge loses nothing. The codes are also defined by `match`.
`Encoding.CodesAgreeWithTables` proves that these codes equal the dictionary
lookups, and that every lookup hits.

Each operation is paired with a partner, and a lemma connects the two:

- the encoder with a decoder: the round trip holds in both directions;
- the codes with the selectors' option lists: a code is its answer's position
  in the list;
- the label-based colour rule with a factor-based one;
- the colours with a reference read directly off the answers.

## Model

| member | source | states |
|---|---|---|
| Choices.ParseYesNo | streamlit_app.py:31-36 | a "No"/"Yes" selector's string reads back as an answer exactly when it is one of the selector's two options |
| Choices.ParseSmoking | streamlit_app.py:38 | a smoking string reads back exactly when it is one of "Never", "Former", "Current" |
| Choices.ParseActivity | streamlit_app.py:40 | an activity string reads back exactly when it is one of "Low", "Moderate", "High" |
| Choices.ParseEducation | streamlit_app.py:41 | an education string reads back exactly when it is one of "None", "Primary", "Secondary", "Tertiary" |
| Choices.OptionsAreLabels | streamlit_app.py:31-41 | every selector's options are distinct; each option is the label of exactly one answer; label and parse are mutually inverse |
| Encoding.MultiMapKeepsEachVocabulary | streamlit_app.py:44-48 | the three vocabularies merged into `multi_map` share no key; the merged table has exactly their ten keys, each with its vocabulary's code |
| Encoding.BinaryMapCodesByPosition | streamlit_app.py:31-43 | `binary_map` has exactly the two keys "No" and "Yes" and codes each by its position in the selector list ["No", "Yes"] |
| Encoding.TablesCodeByPosition | streamlit_app.py:38-48 | `multi_map` codes each ordinal selector's options by their positions in the selector's list |
| Encoding.YesNoCode | streamlit_app.py:43 | a "No"/"Yes" answer's code is 0 or 1 |
| Encoding.SmokingCode | streamlit_app.py:45 | a smoking code lies in 0..2 |
| Encoding.ActivityCode | streamlit_app.py:46 | an activity code lies in 0..2 |
| Encoding.EducationCode | streamlit_app.py:47 | an education code lies in 0..3 |
| Encoding.CodesAgreeWithTables | streamlit_app.py:43-48 | every answer's label is a key of its table (no lookup fails), and the table gives that answer's code: Yes→1, No→0, Never/Former/Current→0/1/2, Low/Moderate/High→0/1/2, None/Primary/Secondary/Tertiary→0/1/2/3 |
| Encoding.CodesArePositions | streamlit_app.py:31-48 | an answer's code indexes its own label in the option list of its selector |
| Encoding.YesNoOfCode | streamlit_app.py:43 | a number reads back as a "No"/"Yes" answer exactly when it is a code of `binary_map` |
| Encoding.SmokingOfCode | streamlit_app.py:45 | a number reads back as a smoking answer exactly when it is 0, 1 or 2 |
| Encoding.ActivityOfCode | streamlit_app.py:46 | a number reads back as an activity answer exactly when it is 0, 1 or 2 |
| Encoding.EducationOfCode | streamlit_app.py:47 | a number reads back as an education answer exactly when it is 0..3 |
| Encoding.CodesRoundTrip | streamlit_app.py:43-48 | decoding a code gives back its answer, and encoding a decoded answer gives back the code |
| Encoding.OrdinalCodesInjectiveAndOrdered | streamlit_app.py:38-48 | distinct smoking, activity or education answers get distinct codes, and the codes rise in the order the selectors list the answers |
| Features.EncodeFeatures | streamlit_app.py:50-62 | the vector has exactly 15 slots, and slot i holds the value of the i-th factor of the training order (the answer itself, or its table code) |
| Features.SlotOf | streamlit_app.py:50-62 | each of the fifteen factors occupies exactly one slot of the vector |
| Features.PassThroughSlots | streamlit_app.py:50-56 | age, BMI, menarche age, first-pregnancy age, parity (slots 0-4) and alcohol intake (slot 9) are copied into the vector unchanged |
| Features.YesNoSlotsAreBinary | streamlit_app.py:43-61 | slots 5, 6, 7, 12, 13, 14 are exactly the six yes/no factors; they hold only 0 or 1, and hold 1 exactly when the answer is "Yes" |
| Features.EncodedWithinRanges | streamlit_app.py:19-62 | when the answers respect the sliders (age 18-90, menarche 8-18, first pregnancy 12-50, parity 0-10, alcohol 0-10), every slot except BMI is non-negative and lies within its input's range |
| Features.DecodeFeatures | streamlit_app.py:50-62 | a vector reads back as answers only if it has 15 slots; BMI and alcohol are read back unchanged |
| Features.DecodeEncode | streamlit_app.py:50-62 | the answers can always be read back from their vector: the encoding loses nothing |
| Features.EncodeDecode | streamlit_app.py:50-62 | every vector that reads back as answers is the encoding of those answers |
| Features.EncodeInjective | streamlit_app.py:50-62 | two submissions with the same vector are the same submission |
| Concern.Classify | streamlit_app.py:98-105 | a value below 0.5 is green whatever the label; a value of 0.5 or more is never green; red only for a high-concern label with a value of at least 1, and always then |
| Concern.ClassifyMonotone | streamlit_app.py:99-105 | raising a value never makes its colour milder, and a high-concern label never gets a milder colour than another label with the same value |
| Concern.LabelsAlign | streamlit_app.py:91-96 | label i is the name of the factor in vector slot i, for all 15 slots |
| Concern.FactorLabelsDistinct | streamlit_app.py:91-96 | no two factors share a chart label |
| Concern.HighConcernLabelsAreLabels | streamlit_app.py:99-100 | every label of the high-concern list is one of the chart labels, so none of them is a dead entry |
| Concern.HighConcernLabelOf | streamlit_app.py:99-100 | a factor's label is in the high-concern list exactly when the factor is one of the six high-concern factors |
| Concern.ConcernOf | streamlit_app.py:98-105 | classifying by factor gives the same colour as the source's classification by label |
| Concern.ColourFactors | streamlit_app.py:97-105 | the loop yields exactly one colour per value; colour i is the rule applied to label i and value i, and equals the factor-based colour of slot i |
| Presenter.ColoursFromAnswers | streamlit_app.py:99-105 | for answers the widgets allow, the colours follow from the answers alone. Age is red. Menarche and first-pregnancy ages are orange. Parity is green only at 0. Family history, hormone therapy and pollution are red on "Yes", green on "No". The other yes/no factors are orange on "Yes", green on "No". Smoking is green only for "Never". Activity and education are green only at their lowest level. Alcohol is orange from 0.5 upward |
| Presenter.Assess | streamlit_app.py:64-116 | nothing happens unless the button is pressed; the classifier sees the encoded vector; colours are produced exactly when it predicts 1, one per factor, each equal to the concern rule on that slot (and to the colour read off the answers when these respect the widgets) |
| Presenter.ExampleSubmission | streamlit_app.py:50-62 | a worked submission encodes to [50, 31.2, 11, 30, 0, 1, 0, 1, 2, 5.0, 0, 2, 1, 1, 0] and would be coloured red, red, orange, orange, green, red, green, red, red, orange, green, orange, orange, red, green |

## Left out

- Loading the pickled classifier and calling `model.predict` (streamlit_app.py:8, 65): an opaque foreign artifact. The classifier is an arbitrary `seq<real> -> int` parameter of `Presenter.Assess`.
- The BMI computation `round(weight / ((height / 100) ** 2), 1)` (streamlit_app.py:24): IEEE floating point and round-half-even on binary floats. BMI is a given real input, and the weight and height sliders are not modelled.
- Floating point in the vector: numpy stores it as float64. It is modelled with exact reals, which agree for the whole numbers and small codes here. A user's alcohol value is taken as the real it denotes.
- Logo loading and display (streamlit_app.py:10-11): file I/O and UI.
- Widgets, headings, the success/error banners, the recommendation text blocks and the dataset expander (streamlit_app.py:13-41, 67, 83-89, 116-143): presentation only. The widgets' ranges appear as the precondition `Features.WithinWidgetRanges`, and their option lists as constants.
- Both bar charts and their rendering (streamlit_app.py:76-82, 107-114): plotting. The first label list (streamlit_app.py:69-74) is identical to the second (streamlit_app.py:91-96), which `Concern.Labels` models.
- Streamlit's top-to-bottom re-execution on every interaction: framework behaviour. One run of the prediction step is `Presenter.Assess`.
- The alcohol slider's default 0.01 step (no step is given at streamlit_app.py:39): any real in 0..10 is allowed. The other sliders' whole-number steps are kept through `int` fields.
