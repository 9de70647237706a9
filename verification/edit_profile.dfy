/** The edit-profile form: fields filled from the stored user, per-field
    edits, the photo, and the multipart body it sends. */
module EditProfile {
  import opened Base
  import opened Payload
  import UserSlice

  /** The picture shown when the user has none. */
  const Placeholder: string := "https://via.placeholder.com/100"

  /** The eight text fields of the form. Each holds the value it was given:
      the stored value, or the text typed. */
  datatype ProfileFields = ProfileFields(
    firstName: Json, lastName: Json, username: Json, gender: Json,
    email: Json, bio: Json, motivationalQuote: Json, phone: Json)

  /** `${x}`: the text a template literal makes of a value. */
  function TemplateText(j: Json): string
    decreases j
  {
    match j
    case Undefined => "undefined"
    case Null => "null"
    case Bool(b) => if b then "true" else "false"
    case Number(t) => t
    case Str(s) => s
    case Obj(_) => "[object Object]"
    case Arr(items) => Join(seq(|items|, i requires 0 <= i < |items| =>
                         if Nullish(items[i]) then "" else TemplateText(items[i])))
  }

  /** `parts.join(",")`. */
  function Join(parts: seq<string>): string {
    if parts == [] then "" else if |parts| == 1 then parts[0] else parts[0] + "," + Join(parts[1..])
  }

  /** `user?.data`. */
  function Data(user: Json): Json {
    Prop(user, "data")
  }

  /** `user?.data?.user_detail`. */
  function Detail(user: Json): Json {
    Prop(Data(user), "user_detail")
  }

  /** The initial fields: each stored value when it is truthy, "" otherwise;
      bio, quote and phone come from the nested `user_detail`. */
  function InitialFields(user: Json): (f: ProfileFields)
    ensures f.firstName == Or(Prop(Data(user), "first_name"), Str(""))
    ensures f.bio == Or(Prop(Detail(user), "short_detail"), Str(""))
    ensures f.motivationalQuote == Or(Prop(Detail(user), "long_detail"), Str(""))
    ensures f.phone == Or(Prop(Detail(user), "mobile_number"), Str(""))
    ensures Nullish(user) ==> f == ProfileFields(Str(""), Str(""), Str(""), Str(""), Str(""), Str(""), Str(""), Str(""))
  {
    var d := Data(user);
    var u := Detail(user);
    ProfileFields(
      Or(Prop(d, "first_name"), Str("")), Or(Prop(d, "last_name"), Str("")),
      Or(Prop(d, "username"), Str("")), Or(Prop(d, "gender"), Str("")),
      Or(Prop(d, "email"), Str("")), Or(Prop(u, "short_detail"), Str("")),
      Or(Prop(u, "long_detail"), Str("")), Or(Prop(u, "mobile_number"), Str("")))
  }

  /** The initial picture: the image server's address followed by the stored
      image path when there is one, the placeholder otherwise. */
  function InitialPicture(user: Json, imageUrl: string): (r: string)
    ensures !Truthy(Prop(Detail(user), "profile_image_url")) ==> r == Placeholder
    ensures Truthy(Prop(Detail(user), "profile_image_url")) ==> |r| >= |imageUrl| && r[..|imageUrl|] == imageUrl
    ensures imageUrl != "" ==> r != ""
  {
    var path := Prop(Detail(user), "profile_image_url");
    if Truthy(path) then imageUrl + TemplateText(path) else Placeholder
  }

  /** The keys `handleInputChange` knows. */
  predicate KnownKey(key: string) {
    key in {"firstName", "lastName", "username", "gender", "email", "bio", "motivationalQuote", "phone"}
  }

  /** The field a key names, if it names one. */
  function FieldOf(f: ProfileFields, key: string): (r: Option<Json>)
    ensures r.Some? <==> KnownKey(key)
  {
    if key == "firstName" then Some(f.firstName)
    else if key == "lastName" then Some(f.lastName)
    else if key == "username" then Some(f.username)
    else if key == "gender" then Some(f.gender)
    else if key == "email" then Some(f.email)
    else if key == "bio" then Some(f.bio)
    else if key == "motivationalQuote" then Some(f.motivationalQuote)
    else if key == "phone" then Some(f.phone)
    else None
  }

  /** The fields after `handleInputChange(key, value)`. */
  function WithInput(f: ProfileFields, key: string, value: string): ProfileFields {
    match key
    case "firstName" => f.(firstName := Str(value))
    case "lastName" => f.(lastName := Str(value))
    case "username" => f.(username := Str(value))
    case "gender" => f.(gender := Str(value))
    case "email" => f.(email := Str(value))
    case "bio" => f.(bio := Str(value))
    case "motivationalQuote" => f.(motivationalQuote := Str(value))
    case "phone" => f.(phone := Str(value))
    case _ => f
  }

  /** An edit sets exactly the field its key names; every other field keeps
      its value, and an unknown key changes nothing. */
  lemma InputChangesNamedFieldOnly(f: ProfileFields, key: string, value: string, other: string)
    ensures KnownKey(key) ==> FieldOf(WithInput(f, key, value), key) == Some(Str(value))
    ensures other != key ==> FieldOf(WithInput(f, key, value), other) == FieldOf(f, other)
    ensures !KnownKey(key) ==> WithInput(f, key, value) == f
  {
  }

  /** One value of the multipart body: a text field, or the picture as a file. */
  datatype FormValue = Text(value: Json) | File(uri: string, mime: string, name: string)

  /** The multipart body: the eight fields under the server's names, in this
      order, then the picture when it is non-empty. */
  function FormData(f: ProfileFields, picture: string): (r: seq<(string, FormValue)>)
    ensures |r| == (if picture != "" then 9 else 8)
    ensures r[..8] == [("first_name", Text(f.firstName)), ("last_name", Text(f.lastName)),
                       ("username", Text(f.username)), ("gender", Text(f.gender)),
                       ("email", Text(f.email)), ("short_detail", Text(f.bio)),
                       ("long_detail", Text(f.motivationalQuote)), ("mobile_number", Text(f.phone))]
    ensures picture != "" ==> r[8] == ("profile_pic", File(picture, "image/jpeg", "profilePic.jpg"))
  {
    var text := [("first_name", Text(f.firstName)), ("last_name", Text(f.lastName)),
                 ("username", Text(f.username)), ("gender", Text(f.gender)),
                 ("email", Text(f.email)), ("short_detail", Text(f.bio)),
                 ("long_detail", Text(f.motivationalQuote)), ("mobile_number", Text(f.phone))];
    if picture != "" then text + [("profile_pic", File(picture, "image/jpeg", "profilePic.jpg"))] else text
  }

  /** Every field name of the body is different, so the server reads each
      input once. */
  lemma FormNamesDistinct(f: ProfileFields, picture: string)
    ensures var r := FormData(f, picture);
      forall i, j :: 0 <= i < j < |r| ==> r[i].0 != r[j].0
  {
  }

  /** The stored value behind a server field name: the three detail fields
      live under `user_detail`, the others directly under `data`. */
  function ServerValue(user: Json, name: string): Json {
    if name == "short_detail" || name == "long_detail" || name == "mobile_number"
    then Prop(Detail(user), name)
    else Prop(Data(user), name)
  }

  /** Saving the form as it opened sends every stored value back under the
      name it was read from ("" where nothing truthy was stored). */
  lemma UnchangedFormEchoesStored(user: Json, picture: string)
    ensures var r := FormData(InitialFields(user), picture);
      forall i :: 0 <= i < 8 ==> r[i].1 == Text(Or(ServerValue(user, r[i].0), Str("")))
  {
  }

  class ProfileForm {
    var firstName: Json
    var lastName: Json
    var username: Json
    var gender: Json
    var email: Json
    var bio: Json
    var motivationalQuote: Json
    var phone: Json
    var profilePic: string

    function Fields(): ProfileFields
      reads this
    {
      ProfileFields(firstName, lastName, username, gender, email, bio, motivationalQuote, phone)
    }

    /** The form as it opens for the stored `user`. */
    constructor(user: Json, imageUrl: string)
      ensures Fields() == InitialFields(user)
      ensures profilePic == InitialPicture(user, imageUrl)
    {
      var f := InitialFields(user);
      firstName, lastName, username, gender := f.firstName, f.lastName, f.username, f.gender;
      email, bio, motivationalQuote, phone := f.email, f.bio, f.motivationalQuote, f.phone;
      profilePic := InitialPicture(user, imageUrl);
    }

    /** `handleInputChange(key, value)`: the switch over the eight keys. */
    method InputChange(key: string, value: string)
      modifies this
      ensures Fields() == WithInput(old(Fields()), key, value)
      ensures profilePic == old(profilePic)
    {
      match key
      case "firstName" => firstName := Str(value);
      case "lastName" => lastName := Str(value);
      case "username" => username := Str(value);
      case "gender" => gender := Str(value);
      case "email" => email := Str(value);
      case "bio" => bio := Str(value);
      case "motivationalQuote" => motivationalQuote := Str(value);
      case "phone" => phone := Str(value);
      case _ =>
    }

    /** Removing the photo restores the placeholder. */
    method RemovePicture()
      modifies this
      ensures profilePic == Placeholder
      ensures Fields() == old(Fields())
    {
      profilePic := Placeholder;
    }

    /** The picker's result: the chosen image replaces the picture unless
        the picker was cancelled. */
    method PictureChosen(canceled: bool, uri: string)
      modifies this
      ensures profilePic == (if canceled then old(profilePic) else uri)
      ensures Fields() == old(Fields())
    {
      if !canceled {
        profilePic := uri;
      }
    }

    /** The save button: pressing it while the user slice is loading does
        nothing; otherwise the body is built and the update request sent, its
        pending action reaching the user slice. */
    method Save(store: UserSlice.UserStore) returns (form: Option<seq<(string, FormValue)>>)
      modifies store
      ensures old(store.loading) ==> form.None? && store.State() == old(store.State())
      ensures !old(store.loading) ==>
        && form == Some(FormData(Fields(), profilePic))
        && store.State() == UserSlice.Step(old(store.State()), UserSlice.Pending(UserSlice.UpdateUser))
    {
      if store.loading {
        return None;
      }
      form := Some(FormData(Fields(), profilePic));
      store.Dispatch(UserSlice.Pending(UserSlice.UpdateUser));
    }
  }
}
