/**
 * The profile page (src/pages/ProfilePage.jsx): the form state built from the
 * signed-in user, its dotted-path field update, and the submit handler.
 *
 * `profileData` is a JavaScript object; it is modelled as a map from key to a
 * value that is either text or a record of text fields.
 */
module ProfilePage {
  import opened Wrappers
  import opened AuthService
  import opened AuthContext

  datatype Value = Text(text: string) | Record(fields: map<string, string>)

  type ProfileData = map<string, Value>

  /** A field of a string map, or the empty string when the key is absent. */
  function FieldOr(m: map<string, string>, key: string): string
  {
    if key in m then m[key] else ""
  }

  /** The initial `profileData` (ProfilePage.jsx:18-28). */
  function InitialProfileData(user: Option<Session>): (d: ProfileData)
    ensures d.Keys == {"name", "email", "profile"}
    ensures d["name"] == Text(if user.Some? then user.value.name else "")
    ensures d["email"] == Text(if user.Some? then user.value.email else "")
    ensures d["profile"].Record? && d["profile"].fields.Keys == {"company", "phone", "address", "city", "country"}
    ensures "avatar" !in d["profile"].fields
    ensures forall k :: k in d["profile"].fields ==>
              d["profile"].fields[k] == if user.Some? then FieldOr(user.value.profile, k) else ""
  {
    var p := if user.Some? then user.value.profile else map[];
    map["name" := Text(if user.Some? then user.value.name else ""),
        "email" := Text(if user.Some? then user.value.email else ""),
        "profile" := Record(map["company" := FieldOr(p, "company"), "phone" := FieldOr(p, "phone"),
                                "address" := FieldOr(p, "address"), "city" := FieldOr(p, "city"),
                                "country" := FieldOr(p, "country")])]
  }

  /** The position of the first `c` in `s`. */
  function IndexOf(s: string, c: char): (r: Option<nat>)
    ensures r.Some? ==> r.value < |s| && s[r.value] == c && forall j :: 0 <= j < r.value ==> s[j] != c
    ensures r.None? ==> forall j :: 0 <= j < |s| ==> s[j] != c
  {
    if s == [] then None
    else if s[0] == c then Some(0)
    else match IndexOf(s[1..], c)
      case None => None
      case Some(k) => Some(k + 1)
  }

  /** The first element of `s.split('.')`. */
  function FirstSegment(s: string): (r: string)
    ensures r <= s && '.' !in r
    ensures r == s || s[|r|] == '.'
  {
    match IndexOf(s, '.')
    case None => s
    case Some(i) => s[..i]
  }

  /** `prev[parent]` spread into a new object: its keys when it is a record, none when it is absent.
      (Spreading a text value would give its characters under index keys; no caller does that.) */
  function FieldsOf(prev: ProfileData, parent: string): map<string, string>
  {
    if parent in prev && prev[parent].Record? then prev[parent].fields else map[]
  }

  /** The updater of `handleInputChange` (lines 59-75). A field containing '.' is split there; `parent` is
      the part before the first '.', `child` the part after it up to any second '.'. */
  function UpdatedProfileData(prev: ProfileData, field: string, value: string): (r: ProfileData)
    ensures IndexOf(field, '.').None? ==>
              r.Keys == prev.Keys + {field} && r[field] == Text(value) &&
              forall k :: k in prev && k != field ==> r[k] == prev[k]
    ensures IndexOf(field, '.').Some? ==>
              var i := IndexOf(field, '.').value;
              var parent := field[..i];
              var child := FirstSegment(field[i + 1..]);
              && r.Keys == prev.Keys + {parent}
              && r[parent].Record?
              && r[parent].fields.Keys == FieldsOf(prev, parent).Keys + {child}
              && r[parent].fields[child] == value
              && (forall k :: k in FieldsOf(prev, parent) && k != child ==> r[parent].fields[k] == FieldsOf(prev, parent)[k])
              && (forall k :: k in prev && k != parent ==> r[k] == prev[k])
  {
    match IndexOf(field, '.')
    case None => prev[field := Text(value)]
    case Some(i) =>
      var parent := field[..i];
      var child := FirstSegment(field[i + 1..]);
      prev[parent := Record(FieldsOf(prev, parent)[child := value])]
  }

  /** What `updateProfile` reads of `profileData`: its `name` (non-text counts as falsy) and its
      `profile` record (anything else spreads as no keys). */
  function ToUpdate(d: ProfileData): ProfileUpdate
  {
    ProfileUpdate(if "name" in d && d["name"].Text? then d["name"].text else "",
                  if "profile" in d && d["profile"].Record? then d["profile"].fields else map[])
  }

  /** The form never sends an `avatar` key, so a submitted form keeps the stored avatar; editing one of
      the other profile fields keeps it that way. */
  lemma EditKeepsAvatar(user: Option<Session>, child: string, value: string, u: User)
    requires child != "avatar" && '.' !in child
    requires "avatar" in u.profile
    ensures var d := UpdatedProfileData(InitialProfileData(user), "profile." + child, value);
            && "avatar" !in ToUpdate(d).profile
            && MergedUser(u, ToUpdate(d)).profile["avatar"] == u.profile["avatar"]
            && child in ToUpdate(d).profile && ToUpdate(d).profile[child] == value
  {
    var field := "profile." + child;
    assert field[..7] == "profile";
    assert IndexOf(field, '.') == Some(7) by {
      assert field[7] == '.';
      forall j | 0 <= j < 7 ensures field[j] != '.' {
        assert field[j] == "profile"[j];
      }
    }
    assert field[8..] == child;
    assert IndexOf(child, '.').None?;
  }

  /** The profile form component: its `loading` flag and `profileData`, over the context. */
  class ProfileForm {
    const auth: AuthProvider
    var loading: bool
    var profileData: ProfileData

    constructor (auth: AuthProvider)
      ensures this.auth == auth && !loading && profileData == InitialProfileData(auth.user)
    {
      this.auth := auth;
      loading := false;
      profileData := InitialProfileData(auth.user);
    }

    /** `handleInputChange` (lines 59-75). */
    method HandleInputChange(field: string, value: string)
      modifies this`profileData
      ensures profileData == UpdatedProfileData(old(profileData), field, value)
    {
      profileData := UpdatedProfileData(profileData, field, value);
    }

    /** `handleSubmit` (lines 30-57): the whole form goes to `updateProfile`, and `loading` is false afterwards. */
    method HandleSubmit(now: int) returns (result: ActionResult)
      modifies this`loading, auth`user, auth.service
      ensures var step := UpdateProfileStep(old(auth.service.State()), ToUpdate(profileData), now);
              auth.service.State() == step.store && Reflects(step.result, result, old(auth.user), auth.user)
      ensures !loading
    {
      loading := true;
      result := auth.UpdateProfile(ToUpdate(profileData), now);
      loading := false;
    }
  }
}
