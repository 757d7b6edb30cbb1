/** The form state of the component and the request it is mapped to when the
    user presses Predict (src/components/form.tsx:20-32, 38-41 and 45-57). */
module Payload {
  import opened Js
  import opened Text
  import opened Dates

  /** The eleven inputs, named by the `id` each `<Input>` carries; that `id` is
      the key `handleInputChange` writes. */
  datatype FieldId =
    | NctId | StudyTitle | Conditions | Interventions | Enrollment | Phases
    | StudyType | StudyDesign | StartDate | PrimaryCompletionDate | Locations

  /** The `formState` record: every field holds the input's text as typed. */
  datatype FormState = FormState(
    nctId: string,
    studyTitle: string,
    conditions: string,
    interventions: string,
    enrollment: string,
    phases: string,
    studyType: string,
    studyDesign: string,
    startDate: string,
    primaryCompletionDate: string,
    locations: string)

  function Get(s: FormState, f: FieldId): string {
    match f
    case NctId => s.nctId
    case StudyTitle => s.studyTitle
    case Conditions => s.conditions
    case Interventions => s.interventions
    case Enrollment => s.enrollment
    case Phases => s.phases
    case StudyType => s.studyType
    case StudyDesign => s.studyDesign
    case StartDate => s.startDate
    case PrimaryCompletionDate => s.primaryCompletionDate
    case Locations => s.locations
  }

  /** The state every field starts in. */
  function EmptyForm(): (s: FormState)
    ensures forall f :: Get(s, f) == ""
  {
    FormState("", "", "", "", "", "", "", "", "", "", "")
  }

  /** `{ ...prevState, [id]: value }`: field `f` becomes `v`, the other ten keep
      their values. Any text is accepted. */
  function With(s: FormState, f: FieldId, v: string): (r: FormState)
    ensures Get(r, f) == v
    ensures forall g :: g != f ==> Get(r, g) == Get(s, g)
  {
    match f
    case NctId => s.(nctId := v)
    case StudyTitle => s.(studyTitle := v)
    case Conditions => s.(conditions := v)
    case Interventions => s.(interventions := v)
    case Enrollment => s.(enrollment := v)
    case Phases => s.(phases := v)
    case StudyType => s.(studyType := v)
    case StudyDesign => s.(studyDesign := v)
    case StartDate => s.(startDate := v)
    case PrimaryCompletionDate => s.(primaryCompletionDate := v)
    case Locations => s.(locations := v)
  }

  /** Writing a field twice keeps the last write; writing back the value a
      field already holds changes nothing. */
  lemma WithLastWriteWins(s: FormState, f: FieldId, v: string, w: string)
    ensures With(With(s, f, v), f, w) == With(s, f, w)
    ensures With(s, f, Get(s, f)) == s
  {
  }

  /** The foreign calls the mapping makes: `new Date(text)` read through
      `getFullYear`/`getMonth`/`getDate`, and `Number(text)`. */
  datatype Host = Host(parseDate: string -> DateValue, toNumber: string -> JsNumber)

  /** The JSON body posted to the prediction endpoint, with its wire keys. */
  datatype PredictionRequest = PredictionRequest(
    nct_id: string,
    Study_Title: string,
    Conditions: string,
    Interventions: string,
    Phases: string,
    Enrollment: JsNumber,
    Study_Type: string,
    Study_Design: string,
    Start_Date: string,
    Primary_Completion_Date: string,
    Locations: string)

  /** The `formattedData` object built at the start of `handleSubmit`. */
  function BuildRequest(s: FormState, host: Host): PredictionRequest {
    PredictionRequest(
      s.nctId,
      s.studyTitle,
      s.conditions,
      s.interventions,
      Upper(s.phases),
      host.toNumber(s.enrollment),
      Upper(s.studyType),
      s.studyDesign,
      FormatDate(host.parseDate(s.startDate)),
      FormatDate(host.parseDate(s.primaryCompletionDate)),
      s.locations)
  }

  /** One entry of the request, whichever type it has. */
  datatype Entry = TextEntry(text: string) | NumberEntry(number: JsNumber)

  /** The request entry that form field `f` is mapped to. */
  function EntryFor(q: PredictionRequest, f: FieldId): Entry {
    match f
    case NctId => TextEntry(q.nct_id)
    case StudyTitle => TextEntry(q.Study_Title)
    case Conditions => TextEntry(q.Conditions)
    case Interventions => TextEntry(q.Interventions)
    case Enrollment => NumberEntry(q.Enrollment)
    case Phases => TextEntry(q.Phases)
    case StudyType => TextEntry(q.Study_Type)
    case StudyDesign => TextEntry(q.Study_Design)
    case StartDate => TextEntry(q.Start_Date)
    case PrimaryCompletionDate => TextEntry(q.Primary_Completion_Date)
    case Locations => TextEntry(q.Locations)
  }

  /** What the mapping does to each field: six are copied verbatim; Phases and
      Study_Type are the typed text up to case, with no lower-case letter left,
      and stable under another upper-casing; Enrollment is `Number` of the text;
      both dates are `formatDate` of what `new Date` makes of the text. */
  lemma RequestMapping(s: FormState, host: Host)
    ensures var q := BuildRequest(s, host);
      q.nct_id == s.nctId && q.Study_Title == s.studyTitle && q.Conditions == s.conditions
      && q.Interventions == s.interventions && q.Study_Design == s.studyDesign
      && q.Locations == s.locations
      && SameUpToCase(q.Phases, s.phases) && NoLower(q.Phases) && Upper(q.Phases) == q.Phases
      && SameUpToCase(q.Study_Type, s.studyType) && NoLower(q.Study_Type) && Upper(q.Study_Type) == q.Study_Type
      && q.Enrollment == host.toNumber(s.enrollment)
      && q.Start_Date == FormatDate(host.parseDate(s.startDate))
      && q.Primary_Completion_Date == FormatDate(host.parseDate(s.primaryCompletionDate))
  {
    var q := BuildRequest(s, host);
    UpperCharacterized(s.phases, q.Phases);
    UpperCharacterized(s.studyType, q.Study_Type);
    UpperIdempotent(s.phases);
    UpperIdempotent(s.studyType);
  }

  /** Each request entry depends on its own form field alone, so an edit of
      field `f` changes no entry but the one `f` is mapped to. */
  lemma EditChangesOneEntry(s: FormState, f: FieldId, v: string, host: Host)
    ensures forall g :: g != f ==>
      EntryFor(BuildRequest(With(s, f, v), host), g) == EntryFor(BuildRequest(s, host), g)
  {
  }

  /** The phase as typed, "phase 1", is sent upper-cased as "PHASE 1". */
  lemma PhaseSentUpperCased(s: FormState, host: Host)
    requires s.phases == "phase 1"
    ensures BuildRequest(s, host).Phases == "PHASE 1"
  {
    UpperPhase1();
  }

  lemma UpperPhase1()
    ensures Upper("phase 1") == "PHASE 1"
  {
    var t := "phase 1";
    var u := Upper(t);
    UpperAt(t, 0); UpperAt(t, 1); UpperAt(t, 2); UpperAt(t, 3);
    UpperAt(t, 4); UpperAt(t, 5); UpperAt(t, 6);
    assert u[0] == 'P' && u[1] == 'H' && u[2] == 'A' && u[3] == 'S';
    assert u[4] == 'E' && u[5] == ' ' && u[6] == '1';
    assert u == "PHASE 1";
  }

  /** The dates actually sent lose nothing: each reads back as the date
      `new Date` made of the typed text. */
  lemma SentDatesRoundTrip(s: FormState, host: Host)
    requires WellFormed(host.parseDate(s.startDate))
    requires WellFormed(host.parseDate(s.primaryCompletionDate))
    ensures ParseFormatted(BuildRequest(s, host).Start_Date) == host.parseDate(s.startDate)
    ensures ParseFormatted(BuildRequest(s, host).Primary_Completion_Date) == host.parseDate(s.primaryCompletionDate)
  {
    FormatDateRoundTrip(host.parseDate(s.startDate));
    FormatDateRoundTrip(host.parseDate(s.primaryCompletionDate));
  }

  /** Submitting the untouched form: `new Date("")` is an invalid date, so both
      dates go out as "NaN-NaN-NaN", and every text entry is empty. */
  lemma EmptyFormRequest(host: Host)
    requires host.parseDate("") == InvalidDate
    ensures var q := BuildRequest(EmptyForm(), host);
      q.Start_Date == "NaN-NaN-NaN" && q.Primary_Completion_Date == "NaN-NaN-NaN"
      && q.nct_id == "" && q.Study_Title == "" && q.Conditions == "" && q.Interventions == ""
      && q.Phases == "" && q.Study_Type == "" && q.Study_Design == "" && q.Locations == ""
  {
  }
}
