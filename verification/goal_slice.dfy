/** The goal slice of the store: the last fetched goal list and the loading
    and error flags of the four goal requests. */
module GoalSlice {
  import opened Base
  import opened Payload
  import opened GoalRecord

  /** The slice's state. `goals` is the body of the last `getAllGoals`
      response; initially it is `[]`, which has no `data`. */
  datatype GoalState = GoalState(goals: GoalsPayload, loading: bool, error: Json)

  const Initial: GoalState := GoalState(GoalsPayload(None), false, Null)

  /** The four request thunks. */
  datatype GoalThunk = GetAllGoals | SetGoal | UpdateGoal | DeleteGoal

  /** The actions the slice reacts to. A fulfilled action carries the
      response body; only the fetch reads it, as a goal list. */
  datatype GoalAction =
    | ClearError
    | Pending(thunk: GoalThunk)
    | Fulfilled(thunk: GoalThunk, body: GoalsPayload)
    | Rejected(thunk: GoalThunk, payload: Json)

  /** A successful fetch of the goal list. */
  predicate Fetched(a: GoalAction) {
    a.Fulfilled? && a.thunk == GetAllGoals
  }

  /** The reducer, with the update success case assigning its two fields
      (see `StepAsWritten` for the case as written). */
  function Step(s: GoalState, a: GoalAction): GoalState {
    match a
    case ClearError => s.(error := Null)
    case Pending(_) => s.(loading := true, error := Null)
    case Fulfilled(t, body) =>
      if t == GetAllGoals then s.(loading := false, goals := body, error := Null)
      else s.(loading := false, error := Null)
    case Rejected(_, p) => s.(loading := false, error := p)
  }

  /** The outcome of running the reducer: it throws, leaving the store as it
      was, or it produces the next state. */
  datatype Reduction = Threw | Reduced(state: GoalState)

  /** The reducer as written: the update success case assigns `loading` on
      the draft and then evaluates the stray identifier `mmon`, which throws
      a ReferenceError; the draft is discarded. */
  function StepAsWritten(s: GoalState, a: GoalAction): (r: Reduction)
    ensures r.Threw? <==> a.Fulfilled? && a.thunk == UpdateGoal
    ensures r.Reduced? ==> r.state == Step(s, a)
  {
    if a.Fulfilled? && a.thunk == UpdateGoal then Threw else Reduced(Step(s, a))
  }

  /** The state a dispatch leaves behind: a throwing reducer changes nothing. */
  function AfterAsWritten(s: GoalState, a: GoalAction): GoalState {
    match StepAsWritten(s, a)
    case Threw => s
    case Reduced(n) => n
  }

  /** As written, a successful goal update leaves the slice loading, and the
      goal screen's loader never goes away until another request settles. */
  lemma UpdateStuckAsWritten(s: GoalState, body: GoalsPayload)
    ensures AfterAsWritten(AfterAsWritten(s, Pending(UpdateGoal)), Fulfilled(UpdateGoal, body)).loading
  {
  }

  /** With the stray identifier removed, a successful update settles the
      slice and clears the error. */
  lemma UpdateSettles(s: GoalState, body: GoalsPayload)
    ensures !Step(s, Fulfilled(UpdateGoal, body)).loading && Step(s, Fulfilled(UpdateGoal, body)).error == Null
    ensures Step(s, Fulfilled(UpdateGoal, body)).goals == s.goals
  {
  }

  /** Every pending case starts loading and clears the error, keeping the
      goal list on screen. */
  lemma PendingClearsError(s: GoalState, t: GoalThunk)
    ensures Step(s, Pending(t)) == GoalState(s.goals, true, Null)
  {
  }

  /** Every rejection stops loading and stores its payload as the error,
      keeping the goal list. */
  lemma RejectedKeepsGoals(s: GoalState, t: GoalThunk, p: Json)
    ensures Step(s, Rejected(t, p)) == GoalState(s.goals, false, p)
  {
  }

  /** Only a fetch changes the goal list, and it replaces it wholesale;
      creating, updating or deleting a goal leaves the list as it was, so the
      screens see the change only after fetching again. */
  lemma OnlyFetchChangesGoals(s: GoalState, a: GoalAction)
    ensures Fetched(a) ==> Step(s, a).goals == a.body
    ensures !Fetched(a) ==> Step(s, a).goals == s.goals
    ensures a.Fulfilled? ==> !Step(s, a).loading && Step(s, a).error == Null
  {
  }

  /** `clearError` resets the error and nothing else. */
  lemma ClearErrorOnly(s: GoalState)
    ensures Step(s, ClearError) == s.(error := Null)
  {
  }

  /** The state after a sequence of actions, dispatched in order. */
  function Run(s: GoalState, acts: seq<GoalAction>): GoalState
    decreases |acts|
  {
    if acts == [] then s else Step(Run(s, acts[..|acts| - 1]), acts[|acts| - 1])
  }

  /** The goal list held after a run is the payload of its last fetch. */
  lemma {:induction false} GoalsFromLastFetch(s: GoalState, acts: seq<GoalAction>, i: int)
    requires 0 <= i < |acts| && Fetched(acts[i])
    requires forall j :: i < j < |acts| ==> !Fetched(acts[j])
    ensures Run(s, acts).goals == acts[i].body
    decreases |acts|
  {
    var n := |acts| - 1;
    if i < n {
      var prefix := acts[..n];
      assert forall j :: i < j < |prefix| ==> prefix[j] == acts[j];
      GoalsFromLastFetch(s, prefix, i);
    }
  }

  /** Without a fetch, a run keeps the goal list it started with; from the
      initial state that list has no `data`. */
  lemma {:induction false} GoalsWithoutFetch(s: GoalState, acts: seq<GoalAction>)
    requires forall j :: 0 <= j < |acts| ==> !Fetched(acts[j])
    ensures Run(s, acts).goals == s.goals
    ensures s == Initial ==> Run(s, acts).goals.data.None?
    decreases |acts|
  {
    if acts != [] {
      GoalsWithoutFetch(s, acts[..|acts| - 1]);
    }
  }

  /** The state after a sequence of actions dispatched to the reducer as
      written. */
  function RunAsWritten(s: GoalState, acts: seq<GoalAction>): GoalState
    decreases |acts|
  {
    if acts == [] then s else AfterAsWritten(RunAsWritten(s, acts[..|acts| - 1]), acts[|acts| - 1])
  }

  /** The throwing update case only loses the two flags it would have set:
      after any run the reducer as written holds the same goal list as the
      corrected one. */
  lemma {:induction false} AsWrittenKeepsGoals(s: GoalState, acts: seq<GoalAction>)
    ensures RunAsWritten(s, acts).goals == Run(s, acts).goals
    decreases |acts|
  {
    if acts != [] {
      AsWrittenKeepsGoals(s, acts[..|acts| - 1]);
    }
  }

  /** The goal list of the store as written is also the payload of the last
      fetch. */
  lemma GoalsFromLastFetchAsWritten(s: GoalState, acts: seq<GoalAction>, i: int)
    requires 0 <= i < |acts| && Fetched(acts[i])
    requires forall j :: i < j < |acts| ==> !Fetched(acts[j])
    ensures RunAsWritten(s, acts).goals == acts[i].body
  {
    AsWrittenKeepsGoals(s, acts);
    GoalsFromLastFetch(s, acts, i);
  }

  /** The store holding the slice; each dispatch runs the reducer as written. */
  class GoalStore {
    var goals: GoalsPayload
    var loading: bool
    var error: Json

    function State(): GoalState
      reads this
    {
      GoalState(goals, loading, error)
    }

    constructor()
      ensures State() == Initial
    {
      goals, loading, error := GoalsPayload(None), false, Null;
    }

    /** `dispatch(action)`: the matching case assigns its fields; the
        update success case throws after its first assignment, and the draft
        holding it is discarded. */
    method Dispatch(a: GoalAction)
      modifies this
      ensures State() == AfterAsWritten(old(State()), a)
    {
      match a
      case ClearError =>
        error := Null;
      case Pending(_) =>
        loading := true;
        error := Null;
      case Fulfilled(t, body) =>
        if t == UpdateGoal {
          // `mmon` throws a ReferenceError: the store keeps its state.
          return;
        }
        loading := false;
        if t == GetAllGoals {
          goals := body;
        }
        error := Null;
      case Rejected(_, p) =>
        loading := false;
        error := p;
    }
  }
}
