/** The user slice of the store: the profile the server last returned and
    the loading and error flags of the three profile requests. */
module UserSlice {
  import opened Payload

  /** The slice's state; `user` is the last response body as received. */
  datatype UserState = UserState(user: Json, loading: bool, error: Json)

  const Initial: UserState := UserState(Null, false, Null)

  /** The three request thunks: fetch, first save and later updates. */
  datatype UserThunk = GetUser | SetUser | UpdateUser

  datatype UserAction =
    | ClearError
    | Pending(thunk: UserThunk)
    | Fulfilled(thunk: UserThunk, payload: Json)
    | Rejected(thunk: UserThunk, payload: Json)

  /** The reducer. */
  function Step(s: UserState, a: UserAction): UserState {
    match a
    case ClearError => s.(error := Null)
    case Pending(_) => s.(loading := true, error := Null)
    case Fulfilled(_, p) => UserState(p, false, Null)
    case Rejected(_, p) => s.(loading := false, error := p)
  }

  /** Every pending case starts loading and clears the error, keeping the user. */
  lemma PendingClearsError(s: UserState, t: UserThunk)
    ensures Step(s, Pending(t)) == UserState(s.user, true, Null)
  {
  }

  /** The three requests succeed alike: the response body becomes the user,
      whichever request it answers, and the flags settle. */
  lemma FulfilledAlike(s: UserState, t: UserThunk, t': UserThunk, p: Json)
    ensures Step(s, Fulfilled(t, p)) == Step(s, Fulfilled(t', p))
    ensures Step(s, Fulfilled(t, p)) == UserState(p, false, Null)
  {
  }

  /** A rejection stores its payload as the error and keeps the user. */
  lemma RejectedKeepsUser(s: UserState, t: UserThunk, p: Json)
    ensures Step(s, Rejected(t, p)) == UserState(s.user, false, p)
  {
  }

  /** `clearError` resets the error and nothing else. */
  lemma ClearErrorOnly(s: UserState)
    ensures Step(s, ClearError) == s.(error := Null)
  {
  }

  /** The state after a sequence of actions, dispatched in order. */
  function Run(s: UserState, acts: seq<UserAction>): UserState
    decreases |acts|
  {
    if acts == [] then s else Step(Run(s, acts[..|acts| - 1]), acts[|acts| - 1])
  }

  /** The user held after a run is the body of its last successful request,
      and `Null` from the initial state when no request succeeded. */
  lemma {:induction false} UserFromLastSuccess(acts: seq<UserAction>, i: int)
    requires 0 <= i < |acts| && acts[i].Fulfilled?
    requires forall j :: i < j < |acts| ==> !acts[j].Fulfilled?
    ensures Run(Initial, acts).user == acts[i].payload
    decreases |acts|
  {
    var n := |acts| - 1;
    if i < n {
      var prefix := acts[..n];
      assert forall j :: i < j < |prefix| ==> prefix[j] == acts[j];
      UserFromLastSuccess(prefix, i);
    }
  }

  lemma {:induction false} UserWithoutSuccess(acts: seq<UserAction>)
    requires forall j :: 0 <= j < |acts| ==> !acts[j].Fulfilled?
    ensures Run(Initial, acts).user == Null
    decreases |acts|
  {
    if acts != [] {
      UserWithoutSuccess(acts[..|acts| - 1]);
    }
  }

  /** The store holding the slice. */
  class UserStore {
    var user: Json
    var loading: bool
    var error: Json

    function State(): UserState
      reads this
    {
      UserState(user, loading, error)
    }

    constructor()
      ensures State() == Initial
    {
      user, loading, error := Null, false, Null;
    }

    /** `dispatch(action)`: the matching case assigns its fields. */
    method Dispatch(a: UserAction)
      modifies this
      ensures State() == Step(old(State()), a)
    {
      match a
      case ClearError =>
        error := Null;
      case Pending(_) =>
        loading := true;
        error := Null;
      case Fulfilled(_, p) =>
        loading := false;
        user := p;
        error := Null;
      case Rejected(_, p) =>
        loading := false;
        error := p;
    }
  }
}
