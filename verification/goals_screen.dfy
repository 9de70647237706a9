/** The goal list screen: the status badge of each goal, the title search, and
    the add/edit form with its validation. Instants are milliseconds on the
    scale of `Calendar`; `now` is the current instant. */
module GoalsScreen {
  import opened Base
  import opened Text
  import opened JsNumber
  import opened Calendar
  import opened GoalRecord

  // ---------------------------------------------------------------------
  // Status badge (`getStatusStyle`)
  // ---------------------------------------------------------------------

  const RedColor: string := "#FF0000"
  const BlueColor: string := "#3A7BD5"
  const GreenColor: string := "#35CB00"

  /** The text and colour of a goal's badge. */
  datatype Shown = Shown(text: string, color: string)

  const ShownCompleted: Shown := Shown("Completed", GreenColor)
  const ShownFailed: Shown := Shown("Failed", RedColor)
  const ShownPending: Shown := Shown("Pending", "purple")
  const ShownInProgress: Shown := Shown("In Progress", BlueColor)

  /** `toDateString()` of both dates agree; two unparseable dates both print
      "Invalid Date" and so also count as the same day. */
  predicate SameDay(g: Goal) {
    g.startDate == g.endDate
  }

  /** `currentTime > endTime`, with the end taken at end_date@end_time. */
  predicate EndPassed(g: Goal, now: int) {
    EndInstant(g).Some? && now > EndInstant(g).value
  }

  /** `getStatusStyle`. */
  function ResolveStatus(g: Goal, now: int): (r: Shown)
    ensures r == ShownCompleted || r == ShownFailed || r == ShownPending || r == ShownInProgress
    // a goal that starts and ends on one day
    ensures SameDay(g) ==> r != ShownInProgress
    ensures SameDay(g) ==> (r == ShownCompleted <==> Is(ListedProgress(g), 100.0))
    ensures SameDay(g) && !Is(ListedProgress(g), 100.0) ==> (r == ShownFailed <==> EndPassed(g, now))
    // a goal spanning several days
    ensures !SameDay(g) && ListedProgress(g).NaN? ==> r == ShownPending
    ensures !SameDay(g) && Above(ListedProgress(g), 0.0) && Below(ListedProgress(g), 100.0) ==> r == ShownInProgress
    ensures !SameDay(g) && Is(ListedProgress(g), 100.0) ==> r == ShownCompleted
    ensures !SameDay(g) && (Is(ListedProgress(g), 0.0) || Below(ListedProgress(g), 0.0) || Above(ListedProgress(g), 100.0))
      ==> (r == ShownFailed || r == ShownPending) && (r == ShownFailed <==> Expired(g, now))
  {
    var progress := ListedProgress(g);
    if SameDay(g) then
      if Is(progress, 100.0) then ShownCompleted
      else if EndPassed(g, now) then ShownFailed
      else ShownPending
    else
      var isExpired := Expired(g, now);
      if progress.NaN? then ShownPending
      else if Is(progress, 0.0) then (if isExpired then ShownFailed else ShownPending)
      else if Above(progress, 0.0) && Below(progress, 100.0) then ShownInProgress
      else if Is(progress, 100.0) then ShownCompleted
      else if isExpired then ShownFailed
      else ShownPending
  }

  /** A goal that shows "Failed" keeps showing it as time goes on, and one
      that shows "Completed" shows it at every instant. */
  lemma StatusMonotoneInTime(g: Goal, now: int, later: int)
    requires now <= later
    ensures ResolveStatus(g, now) == ShownFailed ==> ResolveStatus(g, later) == ShownFailed
    ensures ResolveStatus(g, now) == ShownCompleted ==> ResolveStatus(g, later) == ShownCompleted
  {
  }

  // ---------------------------------------------------------------------
  // Search (the effect on `searchText` and `goals`)
  // ---------------------------------------------------------------------

  /** `goal.title.toLowerCase().includes(text.toLowerCase())`. */
  predicate TitleMatches(g: Goal, text: string) {
    Contains(ToLower(g.title), ToLower(text))
  }

  /** The goals listed for a search text: everything when the text is blank,
      otherwise the goals whose title contains the (untrimmed) text, ignoring
      case, in their original order. No `data` lists nothing. */
  function SearchGoals(data: Option<seq<Goal>>, text: string): (r: seq<Goal>)
    ensures IsBlank(text) ==> r == data.GetOr([])
    ensures !IsBlank(text) ==> IsSubsequence(r, data.GetOr([]))
    ensures !IsBlank(text) ==> forall i :: 0 <= i < |r| ==> TitleMatches(r[i], text)
    ensures !IsBlank(text) ==> forall g :: g in data.GetOr([]) && TitleMatches(g, text) ==> g in r
  {
    TrimEmptyIffBlank(text);
    if Trim(text) == "" then data.GetOr([])
    else Filter(data.GetOr([]), g => TitleMatches(g, text))
  }

  /** A title that contains the search text verbatim is always found,
      whatever the case of the letters. */
  lemma {:induction false} SearchFindsVerbatim(data: seq<Goal>, text: string, g: Goal)
    requires g in data && Contains(g.title, text)
    ensures g in SearchGoals(Some(data), text)
  {
    ContainsIffOccurs(g.title, text);
    var i :| OccursAt(g.title, text, i);
    var lt := ToLower(g.title);
    assert lt[i..i + |text|] == ToLower(text);
    assert OccursAt(lt, ToLower(text), i);
    ContainsIffOccurs(lt, ToLower(text));
  }

  // ---------------------------------------------------------------------
  // Add / edit form
  // ---------------------------------------------------------------------

  const FillAllMessage: string := "Please fill out all fields."
  const DateOrderMessage: string := "End date cannot be earlier than the start date."
  const TimeGapMessage: string := "End time must be at least 30 minutes greater than start time."

  /** 30 minutes in milliseconds. */
  const MinGapMs: int := 30 * 60 * 1000

  /** The values of the form when a handler runs; instants are None for an
      Invalid Date. */
  datatype FormFields = FormFields(
    title: string, description: string,
    startDate: Option<int>, endDate: Option<int>,
    startTime: Option<int>, endTime: Option<int>)

  /** `a < b` on two Date objects (false when either is invalid). */
  predicate Before(a: Option<int>, b: Option<int>) {
    a.Some? && b.Some? && a.value < b.value
  }

  /** `a <= b` on two Date objects (false when either is invalid). */
  predicate NotAfter(a: Option<int>, b: Option<int>) {
    a.Some? && b.Some? && a.value <= b.value
  }

  /** `(end - start) / 60000 < 30` (false when either is invalid). */
  predicate GapTooShort(start: Option<int>, end: Option<int>) {
    start.Some? && end.Some? && end.value - start.value < MinGapMs
  }

  predicate HasBlank(f: FormFields) {
    IsBlank(f.title) || IsBlank(f.description)
  }

  /** The message `addGoalHandler` shows, or None when it goes on to dispatch:
      blank fields first, then an end date before the start date, then an end
      time less than 30 minutes after the start time. */
  function CreateError(f: FormFields): (r: Option<string>)
    ensures r == Some(FillAllMessage) <==> HasBlank(f)
    ensures r == Some(DateOrderMessage) <==> !HasBlank(f) && Before(f.endDate, f.startDate)
    ensures r == Some(TimeGapMessage) <==>
      !HasBlank(f) && !Before(f.endDate, f.startDate) && GapTooShort(f.startTime, f.endTime)
    ensures r.None? <==>
      !HasBlank(f) && !Before(f.endDate, f.startDate) && !GapTooShort(f.startTime, f.endTime)
  {
    TrimEmptyIffBlank(f.title);
    TrimEmptyIffBlank(f.description);
    if Trim(f.title) == "" || Trim(f.description) == "" then Some(FillAllMessage)
    else if Before(f.endDate, f.startDate) then Some(DateOrderMessage)
    else if GapTooShort(f.startTime, f.endTime) then Some(TimeGapMessage)
    else None
  }

  /** The message `updateGoalHandler` shows: as for creation, except that an
      end date equal to the start date is also refused. */
  function UpdateError(f: FormFields): (r: Option<string>)
    ensures r == Some(FillAllMessage) <==> HasBlank(f)
    ensures r == Some(DateOrderMessage) <==> !HasBlank(f) && NotAfter(f.endDate, f.startDate)
    ensures r == Some(TimeGapMessage) <==>
      !HasBlank(f) && !NotAfter(f.endDate, f.startDate) && GapTooShort(f.startTime, f.endTime)
    ensures r.None? <==>
      !HasBlank(f) && !NotAfter(f.endDate, f.startDate) && !GapTooShort(f.startTime, f.endTime)
  {
    TrimEmptyIffBlank(f.title);
    TrimEmptyIffBlank(f.description);
    if Trim(f.title) == "" || Trim(f.description) == "" then Some(FillAllMessage)
    else if NotAfter(f.endDate, f.startDate) then Some(DateOrderMessage)
    else if GapTooShort(f.startTime, f.endTime) then Some(TimeGapMessage)
    else None
  }

  /** Update validation is stricter than creation: whatever update accepts,
      creation accepts, and a form whose dates are the same instant passes
      creation (given a long enough time gap) but never passes update. */
  lemma UpdateStricterThanCreate(f: FormFields)
    ensures UpdateError(f).None? ==> CreateError(f).None?
    ensures !HasBlank(f) && f.startDate.Some? && f.startDate == f.endDate ==>
      UpdateError(f) == Some(DateOrderMessage)
      && (CreateError(f).None? <==> !GapTooShort(f.startTime, f.endTime))
  {
  }

  /** `parseTime(timeStr)`: today's date with the clock set to the stored
      time (hours past 23 roll over into the next day, as `setHours` does). */
  function ParseTime(today: CalDate, c: Clock): (r: int)
    ensures r - DayStart(today) == ClockMs(c)
    ensures ValidClock(c) ==> DayStart(today) <= r < DayStart(today) + MsPerDay
  {
    DayStart(today) + ClockMs(c)
  }

  /** `new Date(date_string)`: midnight of the day, or an Invalid Date. */
  function DateValue(d: Option<CalDate>): Option<int> {
    match d
    case None => None
    case Some(v) => Some(DayStart(v))
  }

  datatype PickerField = StartDateField | EndDateField | StartTimeField | EndTimeField

  /** Which handler built a request body: the two name the title and the
      description differently. */
  datatype BodyKeys = CreateKeys | UpdateKeys

  /** The names of the body's fields, in the order the handler writes them. */
  function FieldNames(k: BodyKeys): seq<string> {
    match k
    case CreateKeys => ["title", "description", "start_date", "end_date", "start_time", "end_time"]
    case UpdateKeys => ["goal_title", "goal_description", "start_date", "end_date", "start_time", "end_time"]
  }

  /** The create body carries the title under `title`, the update body under
      `goal_title` (and likewise for the description); the update body has no
      `title` field at all. Both share the four date and time names. */
  lemma BodiesNameTitleDifferently()
    ensures FieldNames(CreateKeys)[0] == "title" && FieldNames(CreateKeys)[1] == "description"
    ensures FieldNames(UpdateKeys)[0] == "goal_title" && FieldNames(UpdateKeys)[1] == "goal_description"
    ensures "title" !in FieldNames(UpdateKeys) && "description" !in FieldNames(UpdateKeys)
    ensures FieldNames(CreateKeys)[2..] == FieldNames(UpdateKeys)[2..]
  {
    assert "title"[0] != "goal_title"[0];
    assert "description"[0] != "goal_description"[0];
  }

  /** The body of a create/update request: the field names of its handler and
      the values under them. The dates and times are the form's instants
      (their rendering as "YYYY-MM-DD" and "HH:MM:SS" is not modelled). */
  datatype GoalData = GoalData(
    keys: BodyKeys,
    title: string, description: string,
    startDate: int, endDate: int,
    startTime: Option<int>, endTime: Option<int>)

  /** What pressing the form's button does: shows a message, throws while
      building the request (`toISOString` of an Invalid Date), or dispatches. */
  datatype Submission = Refused(message: string) | Thrown | Dispatched(goalId: Option<nat>, data: GoalData)

  /** The outcome of a submission, given the message the validation chose. */
  function Outcome(f: FormFields, err: Option<string>, keys: BodyKeys, goalId: Option<nat>): (r: Submission)
    ensures r.Refused? <==> err.Some?
    ensures r.Thrown? <==> err.None? && (f.startDate.None? || f.endDate.None?)
    ensures r.Dispatched? ==>
      && r.goalId == goalId && r.data.keys == keys && r.data.title == f.title
      && r.data.description == f.description
      && Some(r.data.startDate) == f.startDate && Some(r.data.endDate) == f.endDate
      && r.data.startTime == f.startTime && r.data.endTime == f.endTime
  {
    if err.Some? then Refused(err.value)
    else if f.startDate.None? || f.endDate.None? then Thrown
    else Dispatched(goalId, GoalData(keys, f.title, f.description, f.startDate.value, f.endDate.value, f.startTime, f.endTime))
  }

  /** The modal form and the list filter of the goal list screen. The six
      inputs (title, description, the two dates and the two times) are kept
      together in `inputs`. */
  class GoalForm {
    var inputs: FormFields
    var modalVisible: bool
    var updateMode: bool
    var currentGoalId: Option<nat>
    var picker: Option<PickerField>
    var errorMessage: Option<string>
    var searchText: string
    var filtered: seq<Goal>

    /** The initial state: empty inputs, every date and time set to `now`. */
    constructor(now: int)
      ensures inputs == FormFields("", "", Some(now), Some(now), Some(now), Some(now))
      ensures !modalVisible && !updateMode && currentGoalId.None? && picker.None?
      ensures errorMessage.None? && searchText == "" && filtered == []
    {
      inputs := FormFields("", "", Some(now), Some(now), Some(now), Some(now));
      modalVisible, updateMode := false, false;
      currentGoalId, picker, errorMessage := None, None, None;
      searchText, filtered := "", [];
    }

    /** The add button: clears the inputs, resets dates and times to `now`
        and opens the form in add mode. */
    method OpenAdd(now: int)
      modifies this
      ensures inputs == FormFields("", "", Some(now), Some(now), Some(now), Some(now))
      ensures modalVisible && !updateMode
      ensures currentGoalId == old(currentGoalId) && picker == old(picker)
      ensures errorMessage == old(errorMessage)
      ensures searchText == old(searchText) && filtered == old(filtered)
    {
      inputs := FormFields("", "", Some(now), Some(now), Some(now), Some(now));
      updateMode := false;
      modalVisible := true;
    }

    /** `openModal(goal)`: fills the form from a stored goal and switches to
        update mode; times are placed on `today`. */
    method OpenForEdit(g: Goal, today: CalDate)
      modifies this
      ensures modalVisible && updateMode && currentGoalId == Some(g.id)
      ensures inputs == FormFields(g.title, g.description, DateValue(g.startDate), DateValue(g.endDate),
        Some(ParseTime(today, g.startTime)), Some(ParseTime(today, g.endTime)))
      ensures picker == old(picker) && errorMessage == old(errorMessage)
      ensures searchText == old(searchText) && filtered == old(filtered)
    {
      modalVisible := true;
      updateMode := true;
      currentGoalId := Some(g.id);
      inputs := FormFields(g.title, g.description, DateValue(g.startDate), DateValue(g.endDate),
        Some(ParseTime(today, g.startTime)), Some(ParseTime(today, g.endTime)));
    }

    /** `closeModal`: hides the form and clears the two text inputs only. */
    method CloseModal()
      modifies this
      ensures !modalVisible && inputs == old(inputs).(title := "", description := "")
      ensures updateMode == old(updateMode) && currentGoalId == old(currentGoalId)
      ensures picker == old(picker) && errorMessage == old(errorMessage)
      ensures searchText == old(searchText) && filtered == old(filtered)
    {
      modalVisible := false;
      inputs := inputs.(title := "", description := "");
    }

    /** A press on one of the four date/time buttons opens its picker. */
    method ShowPicker(field: PickerField)
      modifies this
      ensures picker == Some(field)
      ensures inputs == old(inputs)
      ensures modalVisible == old(modalVisible) && updateMode == old(updateMode)
      ensures currentGoalId == old(currentGoalId) && errorMessage == old(errorMessage)
      ensures searchText == old(searchText) && filtered == old(filtered)
    {
      picker := Some(field);
    }

    /** `onPickerChange`: the picker always closes; a confirmed choice is
        stored in the field the picker was opened for, a dismissal changes
        nothing else. */
    method PickerChange(confirmed: bool, selected: int)
      modifies this
      ensures picker.None?
      ensures inputs.title == old(inputs.title) && inputs.description == old(inputs.description)
      ensures inputs.startDate == (if confirmed && old(picker) == Some(StartDateField) then Some(selected) else old(inputs.startDate))
      ensures inputs.endDate == (if confirmed && old(picker) == Some(EndDateField) then Some(selected) else old(inputs.endDate))
      ensures inputs.startTime == (if confirmed && old(picker) == Some(StartTimeField) then Some(selected) else old(inputs.startTime))
      ensures inputs.endTime == (if confirmed && old(picker) == Some(EndTimeField) then Some(selected) else old(inputs.endTime))
      ensures modalVisible == old(modalVisible) && updateMode == old(updateMode)
      ensures currentGoalId == old(currentGoalId) && errorMessage == old(errorMessage)
      ensures searchText == old(searchText) && filtered == old(filtered)
    {
      if confirmed {
        var field := picker;
        picker := None;
        if field == Some(StartDateField) { inputs := inputs.(startDate := Some(selected)); }
        if field == Some(EndDateField) { inputs := inputs.(endDate := Some(selected)); }
        if field == Some(StartTimeField) { inputs := inputs.(startTime := Some(selected)); }
        if field == Some(EndTimeField) { inputs := inputs.(endTime := Some(selected)); }
      } else {
        picker := None;
      }
    }

    /** `addGoalHandler`: the first failing check sets the message and nothing
        is dispatched; otherwise a create request with no goal id is sent and
        the form stays as it is until the server answers. */
    method AddGoal() returns (out: Submission)
      modifies this
      ensures out == Outcome(old(inputs), CreateError(old(inputs)), CreateKeys, None)
      ensures errorMessage == CreateError(old(inputs))
      ensures inputs == old(inputs) && modalVisible == old(modalVisible)
      ensures updateMode == old(updateMode) && currentGoalId == old(currentGoalId)
      ensures picker == old(picker) && searchText == old(searchText) && filtered == old(filtered)
    {
      errorMessage := None;
      var err := CreateError(inputs);
      if err.Some? {
        errorMessage := err;
        return Refused(err.value);
      }
      if inputs.startDate.None? || inputs.endDate.None? {
        return Thrown;
      }
      out := Dispatched(None, GoalData(CreateKeys, inputs.title, inputs.description, inputs.startDate.value,
                                       inputs.endDate.value, inputs.startTime, inputs.endTime));
    }

    /** The `.then` of a successful create: closes the form and clears the message. */
    method CreateSucceeded()
      modifies this
      ensures !modalVisible && inputs == old(inputs).(title := "", description := "") && errorMessage.None?
      ensures updateMode == old(updateMode) && currentGoalId == old(currentGoalId)
      ensures picker == old(picker) && searchText == old(searchText) && filtered == old(filtered)
    {
      CloseModal();
      errorMessage := None;
    }

    /** `updateGoalHandler`: validates like creation but with `<=` on the
        dates; once valid it dispatches the update for the goal being edited
        and closes the form at once, without waiting for the server. */
    method UpdateGoal() returns (out: Submission)
      modifies this
      ensures out == Outcome(old(inputs), UpdateError(old(inputs)), UpdateKeys, old(currentGoalId))
      ensures out.Dispatched? ==>
        !modalVisible && inputs == old(inputs).(title := "", description := "") && errorMessage.None?
      ensures !out.Dispatched? ==> inputs == old(inputs) && modalVisible == old(modalVisible)
      ensures !out.Dispatched? ==> errorMessage == UpdateError(old(inputs))
      ensures updateMode == old(updateMode) && currentGoalId == old(currentGoalId)
      ensures picker == old(picker) && searchText == old(searchText) && filtered == old(filtered)
    {
      errorMessage := None;
      var err := UpdateError(inputs);
      if err.Some? {
        errorMessage := err;
        return Refused(err.value);
      }
      if inputs.startDate.None? || inputs.endDate.None? {
        return Thrown;
      }
      out := Dispatched(currentGoalId, GoalData(UpdateKeys, inputs.title, inputs.description, inputs.startDate.value,
                                                inputs.endDate.value, inputs.startTime, inputs.endTime));
      CloseModal();
      errorMessage := None;
    }

    /** The form's button: it runs `updateGoalHandler` in update mode and
        `addGoalHandler` otherwise, and is disabled while the goal slice is
        loading, when a press does nothing. */
    method Press(loading: bool) returns (out: Option<Submission>)
      modifies this
      ensures loading ==> out.None? && inputs == old(inputs) && modalVisible == old(modalVisible)
      ensures loading ==> errorMessage == old(errorMessage)
      ensures !loading && old(updateMode) ==>
        out == Some(Outcome(old(inputs), UpdateError(old(inputs)), UpdateKeys, old(currentGoalId)))
      ensures !loading && !old(updateMode) ==>
        out == Some(Outcome(old(inputs), CreateError(old(inputs)), CreateKeys, None))
      ensures !loading && !old(updateMode) ==>
        errorMessage == CreateError(old(inputs)) && inputs == old(inputs) && modalVisible == old(modalVisible)
      ensures !loading && old(updateMode) && out.value.Dispatched? ==>
        !modalVisible && inputs == old(inputs).(title := "", description := "") && errorMessage.None?
      ensures !loading && old(updateMode) && !out.value.Dispatched? ==>
        errorMessage == UpdateError(old(inputs)) && inputs == old(inputs) && modalVisible == old(modalVisible)
      ensures updateMode == old(updateMode) && currentGoalId == old(currentGoalId)
      ensures picker == old(picker) && searchText == old(searchText) && filtered == old(filtered)
    {
      if loading {
        return None;
      }
      var submission;
      if updateMode {
        submission := UpdateGoal();
      } else {
        submission := AddGoal();
      }
      out := Some(submission);
    }

    /** The effect on `[searchText, goals]`: recomputes the listed goals. */
    method Search(text: string, data: Option<seq<Goal>>)
      modifies this
      ensures searchText == text && filtered == SearchGoals(data, text)
      ensures inputs == old(inputs) && modalVisible == old(modalVisible)
      ensures updateMode == old(updateMode) && currentGoalId == old(currentGoalId)
      ensures picker == old(picker) && errorMessage == old(errorMessage)
    {
      searchText := text;
      filtered := SearchGoals(data, text);
    }
  }
}
