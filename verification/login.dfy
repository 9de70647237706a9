/** The login screen: the two required fields, the request it sends, and how
    server errors are routed to the email and password messages. */
module Login {
  import opened Base
  import opened Text
  import opened Payload
  import AuthSlice

  const IdentifierRequired: string := "Email or username is required."
  const PasswordRequired: string := "Password is required."

  /** The screen the effect moves to once the slice reports success. */
  const HomeRoute: string := "HHomeScreen"

  /** The body of the login request: the identifier untrimmed, under `login`. */
  datatype LoginPayload = LoginPayload(login: string, password: string)

  /** The two messages under the inputs. They hold whatever value was set;
      a message is shown when it is truthy. */
  datatype FieldMessages = FieldMessages(emailError: Json, passwordError: Json)

  /** The catch block of `handleLogin`, given the value the request was
      rejected with. None: `err.errors` is read from a nullish value and the
      catch block itself throws. With an `errors` object, its `login` and
      `password` entries, when present, set the first message of each field;
      otherwise a `message` goes to the email field. */
  function CatchRouting(err: Json, cur: FieldMessages): (r: Option<FieldMessages>)
    ensures r.None? <==> Nullish(err)
    ensures r.Some? && Truthy(Prop(err, "errors")) ==>
      var es := Prop(err, "errors");
      && r.value.emailError == (if Truthy(Prop(es, "login")) then First(Prop(es, "login")) else cur.emailError)
      && r.value.passwordError == (if Truthy(Prop(es, "password")) then First(Prop(es, "password")) else cur.passwordError)
    ensures r.Some? && !Truthy(Prop(err, "errors")) ==>
      && r.value.passwordError == cur.passwordError
      && r.value.emailError == Or(Prop(err, "message"), cur.emailError)
  {
    if Nullish(err) then None
    else
      var es := Prop(err, "errors");
      if Truthy(es) then
        var login := Prop(es, "login");
        var password := Prop(es, "password");
        var e := if Truthy(login) then First(login) else cur.emailError;
        var p := if Truthy(password) then First(password) else cur.passwordError;
        Some(FieldMessages(e, p))
      else if Truthy(Prop(err, "message")) then Some(cur.(emailError := Prop(err, "message")))
      else Some(cur)
  }

  /** A rejection carrying only a string (what the login request rejects
      with when the server answers) changes neither message: a string has
      neither `errors` nor `message`. */
  lemma StringRejectionIgnored(msg: string, cur: FieldMessages)
    ensures CatchRouting(Str(msg), cur) == Some(cur)
  {
  }

  /** A login that fails without a server response still shows a message:
      `unwrap` throws the serialized exception of the thunk's catch block,
      whose `message` lands in the email field. */
  lemma TransportFailureShownOnLogin(transport: string, thrownMessage: string, cur: FieldMessages)
    requires thrownMessage != ""
    ensures CatchRouting(AuthUnwrapValue(NoResponse(transport), thrownMessage), cur)
      == Some(cur.(emailError := Str(thrownMessage)))
  {
  }

  /** The effect's routing of a truthy slice error. None: the error has no
      `includes` method and the effect throws. A string mentioning "email" or
      "username" goes to the email message; otherwise one mentioning
      "password" goes to the password message; otherwise it is dropped. */
  function RouteError(error: Json, cur: FieldMessages): (r: Option<FieldMessages>)
    requires Truthy(error)
    ensures r.None? <==> error.Bool? || error.Number? || error.Obj?
    ensures error.Str? ==>
      var s := error.s;
      r == Some(
        if Contains(s, "email") || Contains(s, "username") then cur.(emailError := error)
        else if Contains(s, "password") then cur.(passwordError := error)
        else cur)
  {
    match Includes(error, "email")
    case None => None
    case Some(hasEmail) =>
      var hasUser := Includes(error, "username").value;
      var hasPassword := Includes(error, "password").value;
      if hasEmail || hasUser then Some(cur.(emailError := error))
      else if hasPassword then Some(cur.(passwordError := error))
      else Some(cur)
  }

  /** A routed error lands in at most one of the two messages, and only
      there; the other keeps its value. */
  lemma RoutedToOneField(error: Json, cur: FieldMessages)
    requires Truthy(error) && RouteError(error, cur).Some?
    ensures var r := RouteError(error, cur).value;
      && (r.emailError == cur.emailError || r.passwordError == cur.passwordError)
      && (r.emailError != cur.emailError ==> r.emailError == error)
      && (r.passwordError != cur.passwordError ==> r.passwordError == error)
  {
  }

  class LoginScreen {
    var identifier: string
    var password: string
    var emailError: Json
    var passwordError: Json

    function Messages(): FieldMessages
      reads this
    {
      FieldMessages(emailError, passwordError)
    }

    /** Empty inputs and empty messages. */
    constructor()
      ensures identifier == "" && password == ""
      ensures Messages() == FieldMessages(Str(""), Str(""))
    {
      identifier, password := "", "";
      emailError, passwordError := Str(""), Str("");
    }

    /** Typing an identifier clears its message only. */
    method EditIdentifier(v: string)
      modifies this
      ensures identifier == v && emailError == Str("")
      ensures password == old(password) && passwordError == old(passwordError)
    {
      identifier := v;
      emailError := Str("");
    }

    /** Typing a password clears its message only. */
    method EditPassword(v: string)
      modifies this
      ensures password == v && passwordError == Str("")
      ensures identifier == old(identifier) && emailError == old(emailError)
    {
      password := v;
      passwordError := Str("");
    }

    /** `handleLogin`: both inputs are checked for emptiness, untrimmed, and
        each empty one gets its message; only when both are non-empty is the
        request sent, its pending action reaching the auth slice. A message
        of a non-empty input is left as it was. */
    method HandleLogin(store: AuthSlice.AuthStore) returns (sent: Option<LoginPayload>)
      modifies this, store
      ensures sent.Some? <==> old(identifier) != "" && old(password) != ""
      ensures sent.Some? ==> sent.value == LoginPayload(identifier, password)
      ensures emailError == (if old(identifier) == "" then Str(IdentifierRequired) else old(emailError))
      ensures passwordError == (if old(password) == "" then Str(PasswordRequired) else old(passwordError))
      ensures identifier == old(identifier) && password == old(password)
      ensures store.State() == (if sent.Some? then AuthSlice.Step(old(store.State()), AuthSlice.Pending(AuthSlice.Login))
                                else old(store.State()))
    {
      var hasError := false;
      if identifier == "" {
        emailError := Str(IdentifierRequired);
        hasError := true;
      }
      if password == "" {
        passwordError := Str(PasswordRequired);
        hasError := true;
      }
      if hasError {
        return None;
      }
      sent := Some(LoginPayload(identifier, password));
      store.Dispatch(AuthSlice.Pending(AuthSlice.Login));
    }

    /** The login button, disabled while the auth slice is loading: a press
        then does nothing; otherwise it runs `handleLogin`. */
    method PressLogin(store: AuthSlice.AuthStore) returns (sent: Option<LoginPayload>)
      modifies this, store
      ensures old(store.loading) ==> sent.None? && store.State() == old(store.State()) && Messages() == old(Messages())
      ensures !old(store.loading) ==> (sent.Some? <==> old(identifier) != "" && old(password) != "")
      ensures sent.Some? ==> sent.value == LoginPayload(identifier, password)
      ensures !old(store.loading) ==>
        emailError == (if old(identifier) == "" then Str(IdentifierRequired) else old(emailError))
      ensures !old(store.loading) ==>
        passwordError == (if old(password) == "" then Str(PasswordRequired) else old(passwordError))
      ensures store.State() == (if sent.Some? then AuthSlice.Step(old(store.State()), AuthSlice.Pending(AuthSlice.Login))
                                else old(store.State()))
      ensures identifier == old(identifier) && password == old(password)
    {
      if store.loading {
        return None;
      }
      sent := HandleLogin(store);
    }

    /** The catch block after the request was rejected with `err`; `threw`
        when reading `err.errors` throws. */
    method LoginFailed(err: Json) returns (threw: bool)
      modifies this
      ensures threw <==> CatchRouting(err, old(Messages())).None?
      ensures !threw ==> Messages() == CatchRouting(err, old(Messages())).value
      ensures threw ==> Messages() == old(Messages())
      ensures identifier == old(identifier) && password == old(password)
    {
      match CatchRouting(err, Messages())
      case None =>
        threw := true;
      case Some(m) =>
        threw := false;
        emailError := m.emailError;
        passwordError := m.passwordError;
    }

    /** The effect on the slice's `error` and `success`: a truthy error is
        routed to a message and then cleared in the slice; success moves to
        the home screen (and is not cleared). When the error has no
        `includes` the effect throws before doing either. */
    method AuthChanged(store: AuthSlice.AuthStore) returns (navigate: Option<string>, threw: bool)
      modifies this, store
      ensures threw <==> Truthy(old(store.error)) && RouteError(old(store.error), old(Messages())).None?
      ensures threw ==> Messages() == old(Messages()) && store.State() == old(store.State()) && navigate.None?
      ensures !threw && Truthy(old(store.error)) ==>
        && Messages() == RouteError(old(store.error), old(Messages())).value
        && store.State() == AuthSlice.Step(old(store.State()), AuthSlice.ClearError)
      ensures !Truthy(old(store.error)) ==> Messages() == old(Messages()) && store.State() == old(store.State())
      ensures !threw ==> navigate == (if old(store.success) then Some(HomeRoute) else None)
      ensures identifier == old(identifier) && password == old(password)
    {
      var error := store.error;
      var success := store.success;
      navigate, threw := None, false;
      if Truthy(error) {
        match RouteError(error, Messages())
        case None =>
          threw := true;
          return;
        case Some(m) =>
          emailError := m.emailError;
          passwordError := m.passwordError;
          store.Dispatch(AuthSlice.ClearError);
      }
      if success {
        navigate := Some(HomeRoute);
      }
    }
  }
}
