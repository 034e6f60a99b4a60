/**
 * The training page: `validateForm` of the session form, the checkbox and
 * text updates of `handleInputChange`, the session `handleCreateSession`
 * hands to the store, the five upcoming sessions of the side panel, and the
 * colour of a session type. Clock readings and `Date` parsing are
 * parameters: `now` is the current time in milliseconds, `timeOf` the time
 * `new Date(session.date)` yields (None for an invalid date), `isoDate` what
 * `new Date(d).toISOString()` gives for a date input.
 */
module TrainingPage {
  import opened Text
  import opened Records
  import opened Seqs
  import opened Forms

  const TitleRequired := "Title is required"
  const DateRequired := "Date is required"
  const TimeRequired := "Time is required"
  const TypeRequired := "Training type is required"
  const DurationRequired := "Duration is required"
  const LocationRequired := "Location is required"
  const AthletesRequired := "At least one athlete must be selected"

  /** The `name` attributes of the form's inputs; the selected athletes are keyed `assignedAthletes` in the errors. */
  datatype Input = Title | Date | Time | Type | Duration | Location | AssignmentType | AssignedAthletes | Notes

  type Errors = map<Input, string>

  /** The form state: the text inputs, and the ids of the athletes ticked for an individual session. */
  datatype SessionForm = SessionForm(text: map<Input, string>, selected: seq<Value>)

  /** The text inputs the form state always holds. */
  predicate IsSessionForm(f: SessionForm) {
    && Title in f.text && Date in f.text && Time in f.text && Type in f.text && Duration in f.text
    && Location in f.text && AssignmentType in f.text && Notes in f.text
  }

  /** An individual session needs a selection: `assignmentType === 'individual' && assignedAthletes.length === 0`. */
  predicate NoneSelected(f: SessionForm)
    requires IsSessionForm(f)
  {
    f.text[AssignmentType] == "individual" && |f.selected| == 0
  }

  /** The error object `validateForm` builds from the outcome of each check, in source order. */
  function ErrorsFor(titleBlank: bool, dateEmpty: bool, timeEmpty: bool, typeEmpty: bool,
                     durationEmpty: bool, locationBlank: bool, noneSelected: bool): Errors
  {
    var e0: Errors := map[];
    var e1 := if titleBlank then e0[Title := TitleRequired] else e0;
    var e2 := if dateEmpty then e1[Date := DateRequired] else e1;
    var e3 := if timeEmpty then e2[Time := TimeRequired] else e2;
    var e4 := if typeEmpty then e3[Type := TypeRequired] else e3;
    var e5 := if durationEmpty then e4[Duration := DurationRequired] else e4;
    var e6 := if locationBlank then e5[Location := LocationRequired] else e5;
    if noneSelected then e6[AssignedAthletes := AthletesRequired] else e6
  }

  /** The error object for a form. */
  function SessionErrors(f: SessionForm): Errors
    requires IsSessionForm(f)
  {
    ErrorsFor(IsBlank(f.text[Title]), Empty(f.text[Date]), Empty(f.text[Time]), Empty(f.text[Type]),
      Empty(f.text[Duration]), IsBlank(f.text[Location]), NoneSelected(f))
  }

  /** Which inputs `ErrorsFor` flags. */
  lemma ErrorsForRules(titleBlank: bool, dateEmpty: bool, timeEmpty: bool, typeEmpty: bool,
                       durationEmpty: bool, locationBlank: bool, noneSelected: bool)
    ensures var e := ErrorsFor(titleBlank, dateEmpty, timeEmpty, typeEmpty, durationEmpty, locationBlank, noneSelected);
      && (Title in e <==> titleBlank) && (Date in e <==> dateEmpty) && (Time in e <==> timeEmpty)
      && (Type in e <==> typeEmpty) && (Duration in e <==> durationEmpty) && (Location in e <==> locationBlank)
      && (AssignedAthletes in e <==> noneSelected) && AssignmentType !in e && Notes !in e
  {
  }

  /**
   * The rules: title and location must be non-blank after trimming; date,
   * time, type and duration non-empty; an individual session needs at least
   * one athlete; the assignment type and the notes are never flagged.
   */
  lemma SessionErrorRules(f: SessionForm)
    requires IsSessionForm(f)
    ensures Title in SessionErrors(f) <==> Trim(f.text[Title]) == ""
    ensures Date in SessionErrors(f) <==> f.text[Date] == ""
    ensures Time in SessionErrors(f) <==> f.text[Time] == ""
    ensures Type in SessionErrors(f) <==> f.text[Type] == ""
    ensures Duration in SessionErrors(f) <==> f.text[Duration] == ""
    ensures Location in SessionErrors(f) <==> Trim(f.text[Location]) == ""
    ensures AssignedAthletes in SessionErrors(f) <==> f.text[AssignmentType] == "individual" && |f.selected| == 0
    ensures AssignmentType !in SessionErrors(f) && Notes !in SessionErrors(f)
  {
    ErrorsForRules(IsBlank(f.text[Title]), Empty(f.text[Date]), Empty(f.text[Time]), Empty(f.text[Type]),
      Empty(f.text[Duration]), IsBlank(f.text[Location]), NoneSelected(f));
    TrimEmptyIffBlank(f.text[Title]);
    TrimEmptyIffBlank(f.text[Location]);
  }

  /** A team session never needs a selection, whatever is ticked. */
  lemma TeamNeedsNoAthletes(f: SessionForm)
    requires IsSessionForm(f) && f.text[AssignmentType] == "team"
    ensures AssignedAthletes !in SessionErrors(f)
  {
    SessionErrorRules(f);
  }

  /** `validateForm`: runs the checks, records a message per failing input, and reports whether none failed. */
  method ValidateSessionForm(f: SessionForm) returns (errors: Errors, valid: bool)
    requires IsSessionForm(f)
    ensures errors == SessionErrors(f)
    ensures valid <==> NoErrors(errors)
  {
    var titleBlank, dateEmpty, timeEmpty := IsBlank(f.text[Title]), Empty(f.text[Date]), Empty(f.text[Time]);
    var typeEmpty, durationEmpty, locationBlank := Empty(f.text[Type]), Empty(f.text[Duration]), IsBlank(f.text[Location]);
    var noneSelected := f.text[AssignmentType] == "individual" && |f.selected| == 0;
    errors := RecordErrors(titleBlank, dateEmpty, timeEmpty, typeEmpty, durationEmpty, locationBlank, noneSelected);
    valid := |errors| == 0;
  }

  /** Fills `errors` input by input from the outcome of each check. */
  method RecordErrors(titleBlank: bool, dateEmpty: bool, timeEmpty: bool, typeEmpty: bool,
                      durationEmpty: bool, locationBlank: bool, noneSelected: bool) returns (errors: Errors)
    ensures errors == ErrorsFor(titleBlank, dateEmpty, timeEmpty, typeEmpty, durationEmpty, locationBlank, noneSelected)
  {
    errors := map[];
    if titleBlank {
      errors := errors[Title := TitleRequired];
    }
    if dateEmpty {
      errors := errors[Date := DateRequired];
    }
    if timeEmpty {
      errors := errors[Time := TimeRequired];
    }
    if typeEmpty {
      errors := errors[Type := TypeRequired];
    }
    if durationEmpty {
      errors := errors[Duration := DurationRequired];
    }
    if locationBlank {
      errors := errors[Location := LocationRequired];
    }
    if noneSelected {
      errors := errors[AssignedAthletes := AthletesRequired];
    }
  }

  // ------------------------------------------------------------ input changes

  /** `id => id !== parseInt(value)`: the ids an unticked box keeps. */
  function KeptBy(value: string): Value -> bool {
    (id: Value) => !StrictEq(Some(id), Some(ParseIntValue(value)))
  }

  /**
   * A checkbox change: ticking appends `parseInt(value)`, unticking drops
   * every id strictly equal to it. The box has no `name`, so no error
   * message is cleared, and the text inputs are untouched.
   */
  function BoxToggled(f: SessionForm, errors: Errors, value: string, checked: bool): (r: (SessionForm, Errors))
    ensures r.0.text == f.text && r.1 == errors
    ensures checked ==> r.0.selected == f.selected + [ParseIntValue(value)]
    ensures !checked ==> forall id :: id in r.0.selected <==> id in f.selected && !StrictEq(Some(id), Some(ParseIntValue(value)))
    ensures !checked ==> IsSubsequence(r.0.selected, f.selected)
  {
    if checked then (f.(selected := f.selected + [ParseIntValue(value)]), errors)
    else
      FilterIsSubsequence(f.selected, KeptBy(value));
      (f.(selected := Filter(f.selected, KeptBy(value))), errors)
  }

  /** Any other input: `Forms.InputChanged` on the text inputs; the selection is untouched. */
  function TextChanged(f: SessionForm, errors: Errors, name: Input, value: string): (r: (SessionForm, Errors))
    ensures r.0.selected == f.selected
    ensures r.0.text.Keys == f.text.Keys + {name}
    ensures r.0.text[name] == value && forall k :: k in f.text && k != name ==> r.0.text[k] == f.text[k]
    ensures r.1 == ErrorCleared(errors, name)
  {
    var (text, cleared) := InputChanged(f.text, errors, name, value);
    (f.(text := text), cleared)
  }

  /** Ticking a box for an athlete not yet selected and then unticking it restores the selection. */
  lemma TickThenUntick(f: SessionForm, errors: Errors, value: string)
    requires ParseIntValue(value).Num?
    requires forall id :: id in f.selected ==> id != ParseIntValue(value)
    ensures var (g, e) := BoxToggled(f, errors, value, true); BoxToggled(g, e, value, false) == (f, errors)
  {
    var v := ParseIntValue(value);
    var kept := KeptBy(value);
    assert !kept(v);
    FilterConcat(f.selected, [v], kept);
    assert Filter([v], kept) == [];
    FilterAll(f.selected, kept);
    assert Filter(f.selected + [v], kept) == f.selected;
  }

  /** Unticking twice is unticking once. */
  lemma UntickIsIdempotent(f: SessionForm, errors: Errors, value: string)
    ensures var (g, e) := BoxToggled(f, errors, value, false); BoxToggled(g, e, value, false) == (g, e)
  {
    var g := Filter(f.selected, KeptBy(value));
    FilterAll(g, KeptBy(value));
  }

  // ----------------------------------------------------------------- payload

  /** The session object `handleCreateSession` passes to the store, field by field. */
  datatype SessionData = SessionData(
    title: string, date: string, time: string, sessionType: string, duration: Value,
    location: string, assignmentType: string, assignedAthletes: seq<Value>, notes: string)

  /**
   * `{ ...formData, duration: parseInt(duration), date: new Date(date).toISOString(),
   * assignedAthletes: assignmentType === 'team' ? [] : assignedAthletes }`.
   */
  function SessionPayload(f: SessionForm, isoDate: string -> string): (d: SessionData)
    requires IsSessionForm(f)
    ensures f.text[AssignmentType] == "team" ==> d.assignedAthletes == []
    ensures f.text[AssignmentType] != "team" ==> d.assignedAthletes == f.selected
    ensures d.duration.Num? <==> ParseInt(f.text[Duration]).Some?
    ensures d.duration.Num? ==> ParseInt(f.text[Duration]) == Some(d.duration.n)
    ensures d.date == isoDate(f.text[Date])
    ensures d.title == f.text[Title] && d.time == f.text[Time] && d.sessionType == f.text[Type]
    ensures d.location == f.text[Location] && d.assignmentType == f.text[AssignmentType] && d.notes == f.text[Notes]
  {
    SessionData(f.text[Title], isoDate(f.text[Date]), f.text[Time], f.text[Type], ParseIntValue(f.text[Duration]),
      f.text[Location], f.text[AssignmentType], if f.text[AssignmentType] == "team" then [] else f.selected,
      f.text[Notes])
  }

  /** The payload as the object the store receives; it carries no `Id`, as the store's `create` requires. */
  function ToRecord(d: SessionData): (r: Record)
    ensures "Id" !in r
    ensures Get(r, "assignedAthletes") == Some(List(d.assignedAthletes))
    ensures Get(r, "duration") == Some(d.duration)
  {
    map[
      "title" := Text(d.title), "date" := Text(d.date), "time" := Text(d.time), "type" := Text(d.sessionType),
      "duration" := d.duration, "location" := Text(d.location), "assignmentType" := Text(d.assignmentType),
      "assignedAthletes" := List(d.assignedAthletes), "notes" := Text(d.notes)]
  }

  /** A session that passed validation and is individual carries at least one athlete. */
  lemma ValidIndividualSessionHasAthletes(f: SessionForm, isoDate: string -> string)
    requires IsSessionForm(f) && NoErrors(SessionErrors(f)) && f.text[AssignmentType] == "individual"
    ensures |SessionPayload(f, isoDate).assignedAthletes| > 0
  {
    SessionErrorRules(f);
    assert AssignedAthletes !in SessionErrors(f);
  }

  // ---------------------------------------------------------------- upcoming

  /** `new Date(session.date) >= new Date()`; an invalid date compares false. */
  function UpcomingBy(timeOf: Record -> Option<int>, now: int): Record -> bool {
    (s: Record) => timeOf(s).Some? && timeOf(s).value >= now
  }

  /** The sort key `new Date(session.date)`; only upcoming sessions, whose dates are valid, are sorted. */
  function TimeKey(timeOf: Record -> Option<int>): Record -> int {
    (s: Record) => if timeOf(s).Some? then timeOf(s).value else 0
  }

  /** Upcoming sessions, earliest first. */
  function UpcomingSorted(sessions: seq<Record>, timeOf: Record -> Option<int>, now: int): seq<Record> {
    SortBy(Filter(sessions, UpcomingBy(timeOf, now)), TimeKey(timeOf))
  }

  /** `upcomingSessions`: filter to sessions at or after now, sort by date ascending, keep the first five. */
  function UpcomingSessions(sessions: seq<Record>, timeOf: Record -> Option<int>, now: int): (r: seq<Record>)
    ensures |r| <= 5
    ensures |r| == if Count(sessions, UpcomingBy(timeOf, now)) <= 5 then Count(sessions, UpcomingBy(timeOf, now)) else 5
    ensures forall s :: s in r ==> s in sessions && timeOf(s).Some? && timeOf(s).value >= now
    ensures forall i, j :: 0 <= i < j < |r| ==> timeOf(r[i]).value <= timeOf(r[j]).value
  {
    var sorted := UpcomingSorted(sessions, timeOf, now);
    var r := if |sorted| <= 5 then sorted else sorted[..5];
    forall s | s in r
      ensures s in sessions && timeOf(s).Some? && timeOf(s).value >= now
    {
      assert s in multiset(sorted);
    }
    r
  }

  /** The panel shows the earliest upcoming sessions: every upcoming session left out is no earlier than each one shown. */
  lemma UpcomingAreEarliest(sessions: seq<Record>, timeOf: Record -> Option<int>, now: int)
    ensures var r := UpcomingSessions(sessions, timeOf, now);
      forall s, i :: s in sessions && UpcomingBy(timeOf, now)(s) && s !in r && 0 <= i < |r| ==>
        timeOf(r[i]).value <= timeOf(s).value
  {
    var sorted := UpcomingSorted(sessions, timeOf, now);
    var r := UpcomingSessions(sessions, timeOf, now);
    forall s, i | s in sessions && UpcomingBy(timeOf, now)(s) && s !in r && 0 <= i < |r|
      ensures timeOf(r[i]).value <= timeOf(s).value
    {
      assert s in Filter(sessions, UpcomingBy(timeOf, now));
      assert s in multiset(sorted);
      var k :| 0 <= k < |sorted| && sorted[k] == s;
      assert r == sorted[..|r|];
      assert k >= |r|;
      assert r[i] == sorted[i];
    }
  }

  /** With at most five upcoming sessions, all of them are shown. */
  lemma FewUpcomingAllShown(sessions: seq<Record>, timeOf: Record -> Option<int>, now: int)
    requires Count(sessions, UpcomingBy(timeOf, now)) <= 5
    ensures multiset(UpcomingSessions(sessions, timeOf, now)) == multiset(Filter(sessions, UpcomingBy(timeOf, now)))
  {
  }

  // ------------------------------------------------------------------ colour

  /** `colors[type] || "secondary"` over the four session types. */
  function SessionTypeColor(sessionType: string): (c: string)
    ensures sessionType == "Technical" ==> c == "primary"
    ensures sessionType == "Physical" ==> c == "success"
    ensures sessionType == "Tactical" ==> c == "warning"
    ensures c == "secondary" <==> sessionType != "Technical" && sessionType != "Physical" && sessionType != "Tactical"
  {
    match sessionType
    case "Technical" => "primary"
    case "Physical" => "success"
    case "Tactical" => "warning"
    case "Recovery" => "secondary"
    case _ => "secondary"
  }
}
