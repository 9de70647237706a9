/** Values the server sends back and the thunks pass on as action payloads:
    JSON-like data plus JavaScript's `undefined`, with the truthiness tests
    and property reads the screens apply to them. */
module Payload {
  import opened Base
  import opened Text

  /** A JavaScript value as it arrives in a payload. A number is carried as
      the text `String(n)` prints for it, which is all the screens use. */
  datatype Json =
    | Undefined
    | Null
    | Bool(b: bool)
    | Number(text: string)
    | Str(s: string)
    | Arr(items: seq<Json>)
    | Obj(fields: map<string, Json>)

  /** `null` or `undefined`: reading a property of it with `.` throws. */
  predicate Nullish(j: Json) {
    j.Undefined? || j.Null?
  }

  /** `if (j)`: false for undefined, null, false, 0, NaN and "". */
  predicate Truthy(j: Json) {
    match j
    case Undefined => false
    case Null => false
    case Bool(b) => b
    case Number(t) => t != "0" && t != "NaN"
    case Str(s) => s != ""
    case Arr(_) => true
    case Obj(_) => true
  }

  /** `j?.key`: the property, or undefined when it is missing or when `j`
      is nullish. Only objects have the named properties the screens read. */
  function Prop(j: Json, key: string): (r: Json)
    ensures Nullish(j) ==> r == Undefined
    ensures j.Obj? && key in j.fields ==> r == j.fields[key]
  {
    match j
    case Obj(m) => if key in m then m[key] else Undefined
    case _ => Undefined
  }

  /** `a || b`. */
  function Or(a: Json, b: Json): (r: Json)
    ensures Truthy(a) ==> r == a
    ensures !Truthy(a) ==> r == b
  {
    if Truthy(a) then a else b
  }

  /** `j[0]`: the first element of an array, the first character of a
      string, undefined otherwise (and for an empty array or string). */
  function First(j: Json): Json
    requires !Nullish(j)
  {
    match j
    case Arr(items) => if items == [] then Undefined else items[0]
    case Str(s) => if s == [] then Undefined else Str([s[0]])
    case Obj(m) => if "0" in m then m["0"] else Undefined
    case _ => Undefined
  }

  /** `j.includes(t)`: on a string, substring search; on an array, whether
      some element is the string `t`; None where `includes` is not a
      function (numbers, booleans, plain objects), which throws. */
  function Includes(j: Json, t: string): (r: Option<bool>)
    requires !Nullish(j)
    ensures j.Str? ==> r == Some(Contains(j.s, t))
    ensures j.Arr? ==> r == Some(Str(t) in j.items)
    ensures r.None? <==> j.Bool? || j.Number? || j.Obj?
  {
    match j
    case Str(s) => Some(Contains(s, t))
    case Arr(items) => Some(Str(t) in items)
    case _ => None
  }

  /** How a request failed: with a server response (whose `data.message`
      is kept) or without one (a transport error with its own message). */
  datatype Failure = ServerResponse(message: Json) | NoResponse(errorMessage: string)

  /** The value the goal, user and progress thunks reject with:
      `error.response.data.message` when there is a response, otherwise
      `error.message`. */
  function RejectionValue(f: Failure): (r: Json)
    ensures f.ServerResponse? ==> r == f.message
    ensures f.NoResponse? ==> r == Str(f.errorMessage) && Truthy(r) == (f.errorMessage != "")
  {
    match f
    case ServerResponse(m) => m
    case NoResponse(msg) => Str(msg)
  }

  /** The value the auth thunks reject with: they read
      `error.response.data.message` unguarded, so without a response the
      catch block itself throws and the rejected action carries no payload. */
  function AuthRejectionValue(f: Failure): (r: Json)
    ensures f.ServerResponse? ==> r == f.message
    ensures f.NoResponse? ==> r == Undefined && !Truthy(r)
  {
    match f
    case ServerResponse(m) => m
    case NoResponse(_) => Undefined
  }

  /** What `dispatch(authThunk(...)).unwrap()` throws when the request
      failed: the value the thunk rejected with when it had one; otherwise
      the serialized exception its catch block raised, an object with that
      exception's `name` and `message` (`thrownMessage`, the JavaScript
      engine's text for reading `data` of undefined). */
  function AuthUnwrapValue(f: Failure, thrownMessage: string): (r: Json)
    ensures f.ServerResponse? ==> r == AuthRejectionValue(f)
    ensures f.NoResponse? ==> r.Obj? && Prop(r, "message") == Str(thrownMessage) && Prop(r, "errors") == Undefined
  {
    match f
    case ServerResponse(m) => m
    case NoResponse(_) => Obj(map["name" := Str("TypeError"), "message" := Str(thrownMessage)])
  }

  /** Without a response the goal thunks still put a non-empty transport
      message in their slice, where the auth thunks' rejected actions carry
      no payload, so the auth slice's error stays falsy. */
  lemma TransportFailureReported(msg: string)
    requires msg != ""
    ensures Truthy(RejectionValue(NoResponse(msg)))
    ensures !Truthy(AuthRejectionValue(NoResponse(msg)))
  {
  }
}
