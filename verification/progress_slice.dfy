/** The progress slice of the store: the last progress record the server
    returned and the loading and error flags of its two requests. */
module ProgressSlice {
  import opened Payload

  /** The slice's state; `progress` is the last response body as received. */
  datatype ProgressState = ProgressState(progress: Json, loading: bool, error: Json)

  /** The initial state holds an empty array. */
  const Initial: ProgressState := ProgressState(Arr([]), false, Null)

  /** Saving a goal's progress, and reading it back. */
  datatype ProgressThunk = UpdateProgress | GetProgress

  datatype ProgressAction =
    | ClearError
    | Pending(thunk: ProgressThunk)
    | Fulfilled(thunk: ProgressThunk, payload: Json)
    | Rejected(thunk: ProgressThunk, payload: Json)

  /** The reducer. */
  function Step(s: ProgressState, a: ProgressAction): ProgressState {
    match a
    case ClearError => s.(error := Null)
    case Pending(_) => s.(loading := true, error := Null)
    case Fulfilled(_, p) => ProgressState(p, false, Null)
    case Rejected(_, p) => s.(loading := false, error := p)
  }

  /** Both pending cases start loading and clear the error. */
  lemma PendingClearsError(s: ProgressState, t: ProgressThunk)
    ensures Step(s, Pending(t)) == ProgressState(s.progress, true, Null)
  {
  }

  /** Saving and reading succeed alike: the body replaces the progress. */
  lemma FulfilledAlike(s: ProgressState, p: Json)
    ensures Step(s, Fulfilled(UpdateProgress, p)) == Step(s, Fulfilled(GetProgress, p))
    ensures Step(s, Fulfilled(UpdateProgress, p)) == ProgressState(p, false, Null)
  {
  }

  /** A rejection stores its payload as the error and keeps the progress. */
  lemma RejectedKeepsProgress(s: ProgressState, t: ProgressThunk, p: Json)
    ensures Step(s, Rejected(t, p)) == ProgressState(s.progress, false, p)
  {
  }

  /** `clearError` resets the error and nothing else. */
  lemma ClearErrorOnly(s: ProgressState)
    ensures Step(s, ClearError) == s.(error := Null)
  {
  }

  /** A request that is answered, either way, leaves the slice not loading;
      a pending one in between leaves it loading. */
  lemma SettledIffAnswered(s: ProgressState, a: ProgressAction)
    ensures Step(s, a).loading <==> a.Pending? || (a.ClearError? && s.loading)
  {
  }

  /** The store holding the slice. */
  class ProgressStore {
    var progress: Json
    var loading: bool
    var error: Json

    function State(): ProgressState
      reads this
    {
      ProgressState(progress, loading, error)
    }

    constructor()
      ensures State() == Initial
    {
      progress, loading, error := Arr([]), false, Null;
    }

    /** `dispatch(action)`: the matching case assigns its fields. */
    method Dispatch(a: ProgressAction)
      modifies this
      ensures State() == Step(old(State()), a)
    {
      match a
      case ClearError =>
        error := Null;
      case Pending(_) =>
        loading := true;
        error := Null;
      case Fulfilled(_, p) =>
        loading := false;
        progress := p;
        error := Null;
      case Rejected(_, p) =>
        loading := false;
        error := p;
    }
  }
}
