/** The authentication slice of the store: who is signed in, and the
    loading, error and success flags the login, register and password
    screens watch. */
module AuthSlice {
  import opened Payload

  /** The slice's state. `user` and `error` hold whatever the actions carried. */
  datatype AuthState = AuthState(user: Json, isLoggedIn: bool, loading: bool, error: Json, success: bool)

  /** Nobody signed in, nothing in flight, no error, no success. */
  const Initial: AuthState := AuthState(Null, false, false, Null, false)

  /** The four request thunks of the slice. */
  datatype AuthThunk = Register | Login | PasswordReset | Logout

  /** The actions the slice reacts to. A fulfilled action carries the `user`
      field of its payload (only register and login read it). */
  datatype AuthAction =
    | ClearError
    | ClearSuccess
    | Pending(thunk: AuthThunk)
    | Fulfilled(thunk: AuthThunk, user: Json)
    | Rejected(thunk: AuthThunk, payload: Json)

  /** The actions after which nobody is signed in. */
  predicate EndsSession(a: AuthAction) {
    (a.Fulfilled? && a.thunk == Logout)
    || (a.Rejected? && (a.thunk == Login || a.thunk == Logout))
  }

  /** The action that signs somebody in. */
  predicate StartsSession(a: AuthAction) {
    a.Fulfilled? && a.thunk == Login
  }

  /** The reducer, with the password-reset success case assigning its two
      fields (see `StepAsWritten` for the case as written). */
  function Step(s: AuthState, a: AuthAction): AuthState {
    match a
    case ClearError => s.(error := Null)
    case ClearSuccess => s.(success := false)
    case Pending(_) => s.(loading := true)
    case Fulfilled(t, u) =>
      (match t
       case Register => s.(loading := false, success := true, user := u)
       case Login => s.(loading := false, success := true, user := u, isLoggedIn := true)
       case PasswordReset => s.(loading := false, success := true)
       case Logout => s.(loading := false, success := true, user := Null, isLoggedIn := false))
    case Rejected(t, p) =>
      if t == Login || t == Logout then s.(loading := false, error := p, isLoggedIn := false)
      else s.(loading := false, error := p)
  }

  /** The outcome of running a reducer: it either throws, leaving the store
      as it was, or produces the next state. */
  datatype Reduction = Threw | Reduced(state: AuthState)

  /** The reducer as written: the password-reset success case begins with
      the stray identifier `sto`, which is evaluated as a statement and
      throws a ReferenceError before any field is assigned. */
  function StepAsWritten(s: AuthState, a: AuthAction): (r: Reduction)
    ensures r.Threw? <==> a.Fulfilled? && a.thunk == PasswordReset
    ensures r.Reduced? ==> r.state == Step(s, a)
  {
    if a.Fulfilled? && a.thunk == PasswordReset then Threw else Reduced(Step(s, a))
  }

  /** The state a dispatch leaves behind: a throwing reducer changes nothing. */
  function AfterAsWritten(s: AuthState, a: AuthAction): AuthState {
    match StepAsWritten(s, a)
    case Threw => s
    case Reduced(n) => n
  }

  /** As written, a password-reset request that succeeds leaves the slice
      loading forever and never reports success. */
  lemma PasswordResetStuckAsWritten(u: Json)
    ensures var s := AfterAsWritten(Initial, Pending(PasswordReset));
      var t := AfterAsWritten(s, Fulfilled(PasswordReset, u));
      t.loading && !t.success
  {
  }

  /** With the stray identifier removed, a successful password reset ends
      the loading and reports success, whatever state it starts from. */
  lemma PasswordResetSettles(s: AuthState, u: Json)
    ensures Step(s, Fulfilled(PasswordReset, u)).loading == false
    ensures Step(s, Fulfilled(PasswordReset, u)).success
    ensures Step(s, Fulfilled(PasswordReset, u)).isLoggedIn == s.isLoggedIn
  {
  }

  /** Every pending case sets `loading` and nothing else: an earlier error
      or success stays visible while the request runs. */
  lemma PendingOnlyLoads(s: AuthState, t: AuthThunk)
    ensures Step(s, Pending(t)).loading
    ensures Step(s, Pending(t)).error == s.error && Step(s, Pending(t)).success == s.success
    ensures Step(s, Pending(t)).user == s.user && Step(s, Pending(t)).isLoggedIn == s.isLoggedIn
  {
  }

  /** Every rejected case stops loading and stores the payload as the error;
      login and logout failures also sign out, but none clears the user or
      the success flag. */
  lemma RejectedCases(s: AuthState, t: AuthThunk, p: Json)
    ensures var n := Step(s, Rejected(t, p));
      && !n.loading && n.error == p && n.user == s.user && n.success == s.success
      && (n.isLoggedIn <==> s.isLoggedIn && t != Login && t != Logout)
  {
  }

  /** Registering stores the new user and success but does not sign in. */
  lemma RegisterDoesNotSignIn(s: AuthState, u: Json)
    ensures var n := Step(s, Fulfilled(Register, u));
      n.user == u && n.success && !n.loading && n.isLoggedIn == s.isLoggedIn
  {
  }

  /** Logging out, successfully or not, leaves nobody signed in; only the
      successful logout forgets the user and reports success. */
  lemma LogoutCases(s: AuthState, u: Json, p: Json)
    ensures !Step(s, Fulfilled(Logout, u)).isLoggedIn && !Step(s, Rejected(Logout, p)).isLoggedIn
    ensures Step(s, Fulfilled(Logout, u)).user == Null && Step(s, Fulfilled(Logout, u)).success
    ensures Step(s, Rejected(Logout, p)).user == s.user
  {
  }

  /** `clearError` and `clearSuccess` each reset exactly one field. */
  lemma ClearersTouchOneField(s: AuthState)
    ensures Step(s, ClearError) == s.(error := Null)
    ensures Step(s, ClearSuccess) == s.(success := false)
  {
  }

  /** The only action that signs somebody in is a successful login, and the
      only ones that change the error are a rejection or `clearError`. */
  lemma OnlyLoginSignsIn(s: AuthState, a: AuthAction)
    ensures !s.isLoggedIn && Step(s, a).isLoggedIn ==> StartsSession(a)
    ensures s.isLoggedIn && !Step(s, a).isLoggedIn ==> EndsSession(a)
    ensures Step(s, a).error != s.error ==> a.Rejected? || a == ClearError
  {
  }

  /** The state after a sequence of actions, dispatched in order. */
  function Run(s: AuthState, acts: seq<AuthAction>): AuthState
    decreases |acts|
  {
    if acts == [] then s else Step(Run(s, acts[..|acts| - 1]), acts[|acts| - 1])
  }

  /** The action at `i` signs somebody in and no later action signs out. */
  predicate LoginStands(acts: seq<AuthAction>, i: int) {
    0 <= i < |acts| && StartsSession(acts[i])
    && forall j :: i < j < |acts| ==> !EndsSession(acts[j])
  }

  /** From the initial state, somebody is signed in exactly when some
      successful login has not been followed by a logout or by a failed
      login or logout. */
  lemma {:induction false} SignedInIffLoginStands(acts: seq<AuthAction>)
    ensures Run(Initial, acts).isLoggedIn <==> exists i :: LoginStands(acts, i)
    decreases |acts|
  {
    if acts != [] {
      var n := |acts| - 1;
      var prefix := acts[..n];
      var a := acts[n];
      SignedInIffLoginStands(prefix);
      if StartsSession(a) {
        assert LoginStands(acts, n);
      } else if EndsSession(a) {
        assert !Run(Initial, acts).isLoggedIn;
        forall i | 0 <= i < |acts| ensures !LoginStands(acts, i) {
          if i < n {
            assert EndsSession(acts[n]);
          }
        }
      } else {
        assert Run(Initial, acts).isLoggedIn == Run(Initial, prefix).isLoggedIn;
        forall i | 0 <= i < n ensures LoginStands(acts, i) <==> LoginStands(prefix, i) {
          assert forall j :: i < j < n ==> prefix[j] == acts[j];
        }
        assert !LoginStands(acts, n);
        if exists i :: LoginStands(acts, i) {
          var i :| LoginStands(acts, i);
          assert LoginStands(prefix, i);
        }
        if exists i :: LoginStands(prefix, i) {
          var i :| LoginStands(prefix, i);
          assert LoginStands(acts, i);
        }
      }
    }
  }

  /** The state after a sequence of actions dispatched to the reducer as
      written. */
  function RunAsWritten(s: AuthState, acts: seq<AuthAction>): AuthState
    decreases |acts|
  {
    if acts == [] then s else AfterAsWritten(RunAsWritten(s, acts[..|acts| - 1]), acts[|acts| - 1])
  }

  /** The throwing password-reset case only loses the two flags it would
      have set: after any run the reducer as written and the corrected one
      agree on who is signed in, on the user and on the error. */
  lemma {:induction false} AsWrittenKeepsSession(s: AuthState, acts: seq<AuthAction>)
    ensures RunAsWritten(s, acts).isLoggedIn == Run(s, acts).isLoggedIn
    ensures RunAsWritten(s, acts).user == Run(s, acts).user
    ensures RunAsWritten(s, acts).error == Run(s, acts).error
    decreases |acts|
  {
    if acts != [] {
      AsWrittenKeepsSession(s, acts[..|acts| - 1]);
    }
  }

  /** The sign-in characterisation holds for the store as written. */
  lemma SignedInIffLoginStandsAsWritten(acts: seq<AuthAction>)
    ensures RunAsWritten(Initial, acts).isLoggedIn <==> exists i :: LoginStands(acts, i)
  {
    AsWrittenKeepsSession(Initial, acts);
    SignedInIffLoginStands(acts);
  }

  /** The store holding the slice: each dispatch runs the reducer, as
      written, on the current fields. */
  class AuthStore {
    var user: Json
    var isLoggedIn: bool
    var loading: bool
    var error: Json
    var success: bool

    function State(): AuthState
      reads this
    {
      AuthState(user, isLoggedIn, loading, error, success)
    }

    constructor()
      ensures State() == Initial
    {
      user, isLoggedIn, loading, error, success := Null, false, false, Null, false;
    }

    /** `dispatch(action)`: the matching case assigns its fields; the
        password-reset success case throws before assigning anything. */
    method Dispatch(a: AuthAction)
      modifies this
      ensures State() == AfterAsWritten(old(State()), a)
    {
      match a
      case ClearError =>
        error := Null;
      case ClearSuccess =>
        success := false;
      case Pending(_) =>
        loading := true;
      case Fulfilled(t, u) =>
        if t == PasswordReset {
          // `sto` throws a ReferenceError: the store keeps its state.
          return;
        }
        loading := false;
        success := true;
        if t == Register || t == Login {
          user := u;
        }
        if t == Login {
          isLoggedIn := true;
        }
        if t == Logout {
          user := Null;
          isLoggedIn := false;
        }
      case Rejected(t, p) =>
        loading := false;
        error := p;
        if t == Login || t == Logout {
          isLoggedIn := false;
        }
    }
  }
}
