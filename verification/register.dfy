/** The registration screen: per-field validation, the email pattern, the
    request it sends, and how it reacts to the auth slice's flags. */
module Register {
  import opened Base
  import opened Text
  import opened Payload
  import AuthSlice

  const FirstNameRequired: string := "First Name is required."
  const LastNameRequired: string := "Last Name is required."
  const UsernameRequired: string := "Username is required."
  const EmailInvalid: string := "Please enter a valid email address."
  const PasswordInvalid: string := "Password is required and must be at least 6 characters long."

  /** The screen the effect moves to after a successful registration. */
  const LoginRoute: string := "Login User"

  /** The character class `[^\s@]`. */
  predicate Plain(c: char) {
    !IsSpace(c) && c != '@'
  }

  predicate AllPlain(s: string) {
    forall k :: 0 <= k < |s| ==> Plain(s[k])
  }

  /** One way for `s` to match /^[^\s@]+@[^\s@]+\.[^\s@]+$/: the '@' at `a`,
      the '.' at `d`, and three non-empty runs of plain characters around
      them. */
  predicate EmailSplit(s: string, a: int, d: int) {
    0 < a && a + 1 < d && d + 1 < |s| && s[a] == '@' && s[d] == '.'
    && AllPlain(s[..a]) && AllPlain(s[a + 1..d]) && AllPlain(s[d + 1..])
  }

  /** `emailRegex.test(s)`. */
  predicate EmailPattern(s: string) {
    exists a, d :: 0 < a < |s| && 0 < d < |s| && EmailSplit(s, a, d)
  }

  /** The number of '@' characters in `s`. */
  function AtCount(s: string): nat {
    if s == [] then 0 else (if s[0] == '@' then 1 else 0) + AtCount(s[1..])
  }

  lemma {:induction false} NoAt(s: string)
    ensures AtCount(s) == 0 <==> forall k :: 0 <= k < |s| ==> s[k] != '@'
  {
    if s != [] {
      NoAt(s[1..]);
      assert forall k :: 1 <= k < |s| ==> s[k] == s[1..][k - 1];
    }
  }

  /** Given an '@' at `a`, there is exactly one '@' iff no other position
      holds one. */
  lemma {:induction false} SingleAt(s: string, a: int)
    requires 0 <= a < |s| && s[a] == '@'
    ensures AtCount(s) == 1 <==> forall k :: 0 <= k < |s| && k != a ==> s[k] != '@'
  {
    assert forall k :: 1 <= k < |s| ==> s[k] == s[1..][k - 1];
    if a == 0 {
      NoAt(s[1..]);
    } else {
      SingleAt(s[1..], a - 1);
      NoAt(s[1..]);
    }
  }

  /** The domain part has a '.' that is neither its first nor its last character. */
  predicate DotInside(t: string) {
    exists d :: 0 < d < |t| - 1 && t[d] == '.'
  }

  /** The shape of an address the pattern accepts, stated without the pattern. */
  predicate WellFormedEmail(s: string) {
    (forall k :: 0 <= k < |s| ==> !IsSpace(s[k]))
    && AtCount(s) == 1
    && exists a :: 0 < a < |s| && s[a] == '@' && DotInside(s[a + 1..])
  }

  /** Every string the pattern accepts is well formed. */
  lemma EmailPatternSound(s: string)
    requires EmailPattern(s)
    ensures WellFormedEmail(s)
  {
    var a, d :| 0 < a < |s| && 0 < d < |s| && EmailSplit(s, a, d);
    assert a + 1 < d && d + 1 < |s|;
    forall k | 0 <= k < |s| && k != a ensures Plain(s[k]) {
      if k < a {
        assert s[k] == s[..a][k];
      } else if k < d {
        assert s[k] == s[a + 1..d][k - a - 1];
      } else if k > d {
        assert s[k] == s[d + 1..][k - d - 1];
      }
    }
    SingleAt(s, a);
    var t := s[a + 1..];
    assert t[d - a - 1] == '.';
    assert DotInside(t);
  }

  /** Every well-formed string is accepted by the pattern. */
  lemma EmailPatternComplete(s: string)
    requires WellFormedEmail(s)
    ensures EmailPattern(s)
  {
    var a :| 0 < a < |s| && s[a] == '@' && DotInside(s[a + 1..]);
    var t := s[a + 1..];
    var e :| 0 < e < |t| - 1 && t[e] == '.';
    var d := a + 1 + e;
    SingleAt(s, a);
    assert s[d] == '.';
    assert AllPlain(s[..a]);
    assert AllPlain(s[a + 1..d]);
    assert AllPlain(s[d + 1..]);
    assert EmailSplit(s, a, d);
  }

  /** The pattern accepts exactly the strings with no white space, exactly
      one '@' that is not the first character, and a '.' in the part after
      the '@' that is neither that part's first nor its last character. */
  lemma EmailPatternIff(s: string)
    ensures EmailPattern(s) <==> WellFormedEmail(s)
  {
    if EmailPattern(s) {
      EmailPatternSound(s);
    }
    if WellFormedEmail(s) {
      EmailPatternComplete(s);
    }
  }

  /** The email check of `validateInputs` (blank, or not matching the
      pattern) fails exactly on the addresses that are not well formed: the
      blank test adds nothing. */
  lemma EmailCheckIff(s: string)
    ensures (Trim(s) == "" || !EmailPattern(s)) <==> !WellFormedEmail(s)
  {
    TrimEmptyIffBlank(s);
    EmailPatternIff(s);
    if EmailPattern(s) {
      var a, d :| 0 < a < |s| && 0 < d < |s| && EmailSplit(s, a, d);
      assert s[0] == s[..a][0];
    }
  }

  /** The field errors object: `{}` plus one key per failing field, or the
      `{global: error}` object the effect installs. Either replaces the
      previous one wholesale. */
  datatype RegisterErrors =
    | FieldErrors(firstName: Option<string>, lastName: Option<string>, username: Option<string>,
                  email: Option<string>, password: Option<string>)
    | GlobalError(global: Json)

  /** `Object.keys(errors).length === 0`. */
  predicate NoErrors(e: RegisterErrors) {
    e.FieldErrors? && e.firstName.None? && e.lastName.None? && e.username.None?
    && e.email.None? && e.password.None?
  }

  /** `!value.trim()`: the check on the three name fields. */
  predicate Missing(value: string) {
    Trim(value) == ""
  }

  /** `!email.trim() || !emailRegex.test(email)`. */
  predicate EmailRejected(email: string) {
    Trim(email) == "" || !EmailPattern(email)
  }

  /** `!password.trim() || password.length < 6`. */
  predicate PasswordRejected(password: string) {
    Trim(password) == "" || |password| < 6
  }

  /** `validateInputs`: a name field fails when it is blank after trimming;
      the email fails when it is not a well-formed address; the password
      fails when it is blank or shorter than six characters, its length
      counted before trimming. */
  function Validate(firstName: string, lastName: string, username: string, email: string, password: string): (e: RegisterErrors)
    ensures e.FieldErrors?
    ensures e.firstName == (if IsBlank(firstName) then Some(FirstNameRequired) else None)
    ensures e.lastName == (if IsBlank(lastName) then Some(LastNameRequired) else None)
    ensures e.username == (if IsBlank(username) then Some(UsernameRequired) else None)
    ensures e.email == (if WellFormedEmail(email) then None else Some(EmailInvalid))
    ensures e.password == (if IsBlank(password) || |password| < 6 then Some(PasswordInvalid) else None)
  {
    TrimEmptyIffBlank(firstName);
    TrimEmptyIffBlank(lastName);
    TrimEmptyIffBlank(username);
    TrimEmptyIffBlank(password);
    EmailCheckIff(email);
    FieldErrors(
      if Missing(firstName) then Some(FirstNameRequired) else None,
      if Missing(lastName) then Some(LastNameRequired) else None,
      if Missing(username) then Some(UsernameRequired) else None,
      if EmailRejected(email) then Some(EmailInvalid) else None,
      if PasswordRejected(password) then Some(PasswordInvalid) else None)
  }

  /** The body of the register request: the raw inputs under the server's names. */
  datatype RegisterPayload = RegisterPayload(first_name: string, last_name: string, username: string,
                                             email: string, password: string)

  /** The five inputs a user types into. */
  datatype RegisterField = FirstNameInput | LastNameInput | UsernameInput | EmailInput | PasswordInput

  class RegisterScreen {
    var firstName: string
    var lastName: string
    var username: string
    var email: string
    var password: string
    var errors: RegisterErrors

    /** Empty inputs and no errors. */
    constructor()
      ensures firstName == "" && lastName == "" && username == "" && email == "" && password == ""
      ensures NoErrors(errors)
    {
      firstName, lastName, username, email, password := "", "", "", "", "";
      errors := FieldErrors(None, None, None, None, None);
    }

    /** Typing into an input replaces that input only; errors stay on screen. */
    method Edit(f: RegisterField, v: string)
      modifies this
      ensures firstName == (if f == FirstNameInput then v else old(firstName))
      ensures lastName == (if f == LastNameInput then v else old(lastName))
      ensures username == (if f == UsernameInput then v else old(username))
      ensures email == (if f == EmailInput then v else old(email))
      ensures password == (if f == PasswordInput then v else old(password))
      ensures errors == old(errors)
    {
      match f
      case FirstNameInput => firstName := v;
      case LastNameInput => lastName := v;
      case UsernameInput => username := v;
      case EmailInput => email := v;
      case PasswordInput => password := v;
    }

    /** `validateInputs`: installs the errors object `Validate` builds in place
        of the old one, and reports whether it is empty. */
    method ValidateInputs() returns (ok: bool)
      modifies this
      ensures errors == Validate(firstName, lastName, username, email, password)
      ensures ok <==> NoErrors(errors)
      ensures firstName == old(firstName) && lastName == old(lastName) && username == old(username)
      ensures email == old(email) && password == old(password)
    {
      errors := Validate(firstName, lastName, username, email, password);
      ok := NoErrors(errors);
    }

    /** `handleRegister`: validates, and only when every field passes sends
        the register request, whose pending action reaches the auth slice. */
    method HandleRegister(store: AuthSlice.AuthStore) returns (sent: Option<RegisterPayload>)
      modifies this, store
      ensures errors == Validate(firstName, lastName, username, email, password)
      ensures sent.Some? <==> NoErrors(errors)
      ensures sent.Some? ==> sent.value == RegisterPayload(firstName, lastName, username, email, password)
      ensures store.State() == (if sent.Some? then AuthSlice.Step(old(store.State()), AuthSlice.Pending(AuthSlice.Register))
                                else old(store.State()))
      ensures firstName == old(firstName) && lastName == old(lastName) && username == old(username)
      ensures email == old(email) && password == old(password)
    {
      var ok := ValidateInputs();
      if !ok {
        return None;
      }
      sent := Some(RegisterPayload(firstName, lastName, username, email, password));
      store.Dispatch(AuthSlice.Pending(AuthSlice.Register));
    }

    /** The register button, disabled while the auth slice is loading: a
        press then does nothing; otherwise it runs `handleRegister`. */
    method PressRegister(store: AuthSlice.AuthStore) returns (sent: Option<RegisterPayload>)
      modifies this, store
      ensures old(store.loading) ==> sent.None? && store.State() == old(store.State()) && errors == old(errors)
      ensures !old(store.loading) ==>
        errors == Validate(firstName, lastName, username, email, password) && (sent.Some? <==> NoErrors(errors))
      ensures sent.Some? ==> sent.value == RegisterPayload(firstName, lastName, username, email, password)
      ensures store.State() == (if sent.Some? then AuthSlice.Step(old(store.State()), AuthSlice.Pending(AuthSlice.Register))
                                else old(store.State()))
      ensures firstName == old(firstName) && lastName == old(lastName) && username == old(username)
      ensures email == old(email) && password == old(password)
    {
      if store.loading {
        return None;
      }
      sent := HandleRegister(store);
    }

    /** The effect on the slice's `error` and `success`: a truthy error
        replaces every field error by `{global: error}` and is cleared in the
        slice; success moves to the login screen and is cleared in the slice.
        Afterwards the slice holds neither. */
    method AuthChanged(store: AuthSlice.AuthStore) returns (navigate: Option<string>)
      modifies this, store
      ensures errors == (if Truthy(old(store.error)) then GlobalError(old(store.error)) else old(errors))
      ensures navigate == (if old(store.success) then Some(LoginRoute) else None)
      ensures var s1 := if Truthy(old(store.error)) then AuthSlice.Step(old(store.State()), AuthSlice.ClearError)
                        else old(store.State());
        store.State() == (if old(store.success) then AuthSlice.Step(s1, AuthSlice.ClearSuccess) else s1)
      ensures !Truthy(store.error) && !store.success
      ensures firstName == old(firstName) && lastName == old(lastName) && username == old(username)
      ensures email == old(email) && password == old(password)
    {
      var error := store.error;
      var success := store.success;
      navigate := None;
      if Truthy(error) {
        errors := GlobalError(error);
        store.Dispatch(AuthSlice.ClearError);
      }
      if success {
        navigate := Some(LoginRoute);
        store.Dispatch(AuthSlice.ClearSuccess);
      }
    }
  }
}
