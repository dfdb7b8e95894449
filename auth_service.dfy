/**
 * The local authentication store (src/utils/authService.js): a user list kept
 * under "payflow_users" and one session record kept under "payflow_auth".
 *
 * The clock (`Date.now()`) and the ISO creation date are parameters. `btoa` of a
 * password is the constructor `Base64`, injective by construction; `btoa` throws
 * on a character outside Latin-1, and that is modelled. A token is either the
 * encoding of a payload (again a constructor) or a string that does not decode.
 */
module AuthService {
  import opened Wrappers

  /** Seven days in milliseconds (authService.js:19). */
  const TokenLifetime: int := 7 * 24 * 60 * 60 * 1000

  const UserExists := "User already exists with this email"
  const InvalidCredentials := "Invalid email or password"
  const NotAuthenticated := "Not authenticated"
  const UserNotFound := "User not found"
  /** The message of the exception `btoa` throws on a character outside Latin-1 (browser wording). */
  const BtoaError := "The string to be encoded contains characters outside of the Latin1 range."

  // ---------------------------------------------------------------------------
  // Tokens (authService.js:15-35)
  // ---------------------------------------------------------------------------

  /** The decoded token object; `exp` is `None` when the object has no `exp` key. */
  datatype Payload = Payload(userId: string, exp: Option<int>)

  /** A token string: the base64 encoding of a serialised payload, or a string that does not decode to one. */
  datatype Token = Encoded(payload: Payload) | Undecodable(raw: string)

  /** `generateToken` (lines 16-22). */
  function GenerateToken(userId: string, now: int): (t: Token)
    ensures t.Encoded? && t.payload.userId == userId && t.payload.exp == Some(now + TokenLifetime)
  {
    Encoded(Payload(userId, Some(now + TokenLifetime)))
  }

  /** `verifyToken` (lines 25-35): the payload unless the token does not decode or `payload.exp < now`.
      A missing `exp` never compares below `now`. */
  function VerifyToken(token: Token, now: int): (r: Option<Payload>)
    ensures r.Some? <==> token.Encoded? && (token.payload.exp.None? || now <= token.payload.exp.value)
    ensures r.Some? ==> r.value == token.payload
  {
    match token
    case Undecodable(_) => None
    case Encoded(p) => if p.exp.Some? && p.exp.value < now then None else Some(p)
  }

  /** A token issued at `issued` verifies exactly up to and including `issued + 604800000`. */
  lemma TokenExpiry(userId: string, issued: int, now: int)
    ensures VerifyToken(GenerateToken(userId, issued), now).Some? <==> now <= issued + 604800000
    ensures now <= issued + TokenLifetime ==>
              VerifyToken(GenerateToken(userId, issued), now) == Some(Payload(userId, Some(issued + TokenLifetime)))
  {
  }

  // ---------------------------------------------------------------------------
  // Stored records
  // ---------------------------------------------------------------------------

  /** `btoa(password)`. */
  datatype EncodedPassword = Base64(plain: string)

  predicate IsLatin1(s: string)
  {
    forall i :: 0 <= i < |s| ==> s[i] as int < 256
  }

  /** The number a string of decimal digits denotes, read from the left. */
  function DigitsValue(s: string): int
  {
    if s == [] then 0 else DigitsValue(s[..|s| - 1]) * 10 + (s[|s| - 1] as int - '0' as int)
  }

  /** The decimal numeral of the clock value, as `toString` writes it (line 59): digits only, denoting `n`,
      and without a leading zero unless `n` is zero. */
  function DecimalString(n: nat): (s: string)
    ensures |s| >= 1
    ensures forall i :: 0 <= i < |s| ==> '0' <= s[i] <= '9'
    ensures DigitsValue(s) == n
    ensures s[0] == '0' <==> n == 0
    ensures s[0] == '0' ==> |s| == 1
  {
    if n < 10 then [(n + '0' as int) as char]
    else DecimalString(n / 10) + [(n % 10 + '0' as int) as char]
  }

  /** Different clock values give different ids. */
  lemma DecimalStringInjective(m: nat, n: nat)
    requires DecimalString(m) == DecimalString(n)
    ensures m == n
  {
  }

  datatype User = User(id: string, name: string, email: string, password: EncodedPassword,
                       createdAt: string, profile: map<string, string>)

  /** The profile of a new user (lines 64-71). */
  const EmptyProfile: map<string, string> :=
    map["company" := "", "phone" := "", "address" := "", "city" := "", "country" := "", "avatar" := ""]

  /** The session record: the user without the password, and the token. */
  datatype Session = Session(id: string, name: string, email: string, profile: map<string, string>, token: Token)

  /** The "payflow_auth" value: a parsed record, or a string that `JSON.parse` rejects (or that parses to `null`). */
  datatype StoredSession = Parsed(session: Session) | Malformed

  /** The two storage keys. `None` is a key that is absent. */
  datatype Store = Store(users: Option<seq<User>>, session: Option<StoredSession>)

  /** An operation's result and the storage it leaves. */
  datatype Step<T> = Step(store: Store, result: T)

  /** What the `async` operations resolve to (`Success`/`Failure`) or reject with (`Thrown`). */
  datatype Response = Success(user: Session) | Failure(error: string) | Thrown(message: string)

  /** The argument of `updateProfile`: an empty `name` is falsy; a missing `profile` spreads as no keys. */
  datatype ProfileUpdate = ProfileUpdate(name: string, profile: map<string, string>)

  /** `getUsers` (lines 38-41): a missing key reads as the empty list. */
  function UsersOf(st: Store): seq<User>
  {
    st.users.GetOr([])
  }

  /** Some user has exactly this email: the duplicate check of `register` (line 53). */
  predicate HasEmail(users: seq<User>, email: string)
  {
    exists i :: 0 <= i < |users| && users[i].email == email
  }

  predicate Matches(u: User, email: string, password: string)
  {
    u.email == email && u.password == Base64(password)
  }

  datatype Lookup = Found(index: nat) | NotFound | Throws

  /** The credential search of `login` (line 95), from position `from` on: the first user with this email and this encoded password.
      `btoa` is evaluated only for a user whose email matches, and throws there on a non-Latin-1 password. */
  function FindCredentials(users: seq<User>, email: string, password: string, from: nat): (r: Lookup)
    ensures r.Found? ==> from <= r.index < |users| && Matches(users[r.index], email, password)
    decreases |users| - from
  {
    if from >= |users| then NotFound
    else if users[from].email == email then
      if !IsLatin1(password) then Throws
      else if users[from].password == Base64(password) then Found(from)
      else FindCredentials(users, email, password, from + 1)
    else FindCredentials(users, email, password, from + 1)
  }

  /** The search throws exactly when the password is not Latin-1 and some user has the email; otherwise it
      finds the first user matching both. */
  lemma {:induction false} FindCredentialsSpec(users: seq<User>, email: string, password: string, from: nat)
    requires from <= |users|
    ensures FindCredentials(users, email, password, from) == Throws <==>
              !IsLatin1(password) && exists i :: from <= i < |users| && users[i].email == email
    ensures FindCredentials(users, email, password, from).Found? <==>
              IsLatin1(password) && exists i :: from <= i < |users| && Matches(users[i], email, password)
    ensures FindCredentials(users, email, password, from).Found? ==>
              var k := FindCredentials(users, email, password, from).index;
              from <= k < |users| && Matches(users[k], email, password) &&
              forall j :: from <= j < k ==> !Matches(users[j], email, password)
    decreases |users| - from
  {
    if from < |users| {
      FindCredentialsSpec(users, email, password, from + 1);
    }
  }

  /** The position of the first user with this id, as searched by `updateProfile` (line 144). */
  function FindId(users: seq<User>, id: string): (r: Option<nat>)
    ensures r.Some? ==> r.value < |users| && users[r.value].id == id &&
                        forall j :: 0 <= j < r.value ==> users[j].id != id
    ensures r.None? ==> forall j :: 0 <= j < |users| ==> users[j].id != id
  {
    if users == [] then None
    else if users[0].id == id then Some(0)
    else match FindId(users[1..], id)
      case None => None
      case Some(k) => Some(k + 1)
  }

  function SessionOf(u: User, token: Token): Session
  {
    Session(u.id, u.name, u.email, u.profile, token)
  }

  // ---------------------------------------------------------------------------
  // Operations as functions of the storage
  // ---------------------------------------------------------------------------

  /** `register` (lines 49-90). The clock is read twice: `now` for the id (line 59) and `tokenNow` for the
      token's expiry, inside `generateToken` (lines 78 and 19). */
  function RegisterStep(st: Store, name: string, email: string, password: string, now: nat, createdAt: string, tokenNow: nat): Step<Response>
  {
    var users := UsersOf(st);
    var st1 := st.(users := Some(users));
    if HasEmail(users, email) then Step(st1, Failure(UserExists))
    else if !IsLatin1(password) then Step(st1, Thrown(BtoaError))
    else
      var u := User(DecimalString(now), name, email, Base64(password), createdAt, EmptyProfile);
      var s := SessionOf(u, GenerateToken(u.id, tokenNow));
      Step(Store(Some(users + [u]), Some(Parsed(s))), Success(s))
  }

  /** `login` (lines 93-114). */
  function LoginStep(st: Store, email: string, password: string, now: nat): Step<Response>
  {
    var users := UsersOf(st);
    var st1 := st.(users := Some(users));
    match FindCredentials(users, email, password, 0)
    case Throws => Step(st1, Thrown(BtoaError))
    case NotFound => Step(st1, Failure(InvalidCredentials))
    case Found(i) =>
      var s := SessionOf(users[i], GenerateToken(users[i].id, now));
      Step(st1.(session := Some(Parsed(s))), Success(s))
  }

  /** `logout` (lines 175-177). */
  function LogoutStep(st: Store): Store
  {
    st.(session := None)
  }

  /** `getCurrentUser` (lines 117-134). */
  function CurrentUserStep(st: Store, now: int): Step<Option<Session>>
  {
    match st.session
    case None => Step(st, None)
    case Some(Malformed) => Step(st, None)
    case Some(Parsed(s)) =>
      if VerifyToken(s.token, now).None? then Step(LogoutStep(st), None) else Step(st, Some(s))
  }

  /** `isAuthenticated` (lines 180-182). */
  function IsAuthenticatedStep(st: Store, now: int): Step<bool>
  {
    var c := CurrentUserStep(st, now);
    Step(c.store, c.result.Some?)
  }

  /** The user after the update of lines 151-158: the name if the new one is non-empty, the profile merged key by key. */
  function MergedUser(u: User, data: ProfileUpdate): User
  {
    u.(name := if data.name != "" then data.name else u.name, profile := u.profile + data.profile)
  }

  /** `updateProfile` (lines 137-172). */
  function UpdateProfileStep(st: Store, data: ProfileUpdate, now: int): Step<Response>
  {
    var c := CurrentUserStep(st, now);
    if c.result.None? then Step(c.store, Failure(NotAuthenticated))
    else
      var current := c.result.value;
      var users := UsersOf(c.store);
      var st1 := c.store.(users := Some(users));
      match FindId(users, current.id)
      case None => Step(st1, Failure(UserNotFound))
      case Some(i) =>
        var u := MergedUser(users[i], data);
        var s := current.(name := u.name, profile := u.profile);
        Step(Store(Some(users[i := u]), Some(Parsed(s))), Success(s))
  }

  // ---------------------------------------------------------------------------
  // Properties
  // ---------------------------------------------------------------------------

  /** A registration with an email already present (exact match) fails and writes neither key. */
  lemma RegisterDuplicate(st: Store, name: string, email: string, password: string, now: nat, createdAt: string, tokenNow: nat)
    requires HasEmail(UsersOf(st), email)
    ensures RegisterStep(st, name, email, password, now, createdAt, tokenNow) == Step(st, Failure(UserExists))
  {
  }

  /** A registration succeeds exactly for a new email and a Latin-1 password. It then appends one user
      with the empty profile and the encoded password, and stores and returns the session without a password. */
  lemma RegisterSuccess(st: Store, name: string, email: string, password: string, now: nat, createdAt: string, tokenNow: nat)
    ensures RegisterStep(st, name, email, password, now, createdAt, tokenNow).result.Success? <==>
              !HasEmail(UsersOf(st), email) && IsLatin1(password)
    ensures !HasEmail(UsersOf(st), email) && IsLatin1(password) ==>
              var step := RegisterStep(st, name, email, password, now, createdAt, tokenNow);
              var id := DecimalString(now);
              var s := Session(id, name, email, EmptyProfile, GenerateToken(id, tokenNow));
              && step.store.users == Some(UsersOf(st) + [User(id, name, email, Base64(password), createdAt, EmptyProfile)])
              && step.store.session == Some(Parsed(s))
              && step.result == Success(s)
  {
  }

  /** A password outside Latin-1 makes `register` throw before anything but the user list's initialisation is written. */
  lemma RegisterNonLatin1(st: Store, name: string, email: string, password: string, now: nat, createdAt: string, tokenNow: nat)
    requires !HasEmail(UsersOf(st), email) && !IsLatin1(password)
    ensures RegisterStep(st, name, email, password, now, createdAt, tokenNow) ==
            Step(Store(Some(UsersOf(st)), st.session), Thrown(BtoaError))
  {
  }

  /** Registering the same email twice: the second attempt fails with the duplicate error. */
  lemma RegisterTwice(st: Store, name: string, email: string, password: string, now: nat, createdAt: string, tokenNow: nat,
                      name2: string, password2: string, now2: nat, createdAt2: string, tokenNow2: nat)
    requires RegisterStep(st, name, email, password, now, createdAt, tokenNow).result.Success?
    ensures RegisterStep(RegisterStep(st, name, email, password, now, createdAt, tokenNow).store,
                         name2, email, password2, now2, createdAt2, tokenNow2).result == Failure(UserExists)
  {
    var st1 := RegisterStep(st, name, email, password, now, createdAt, tokenNow).store;
    var users := UsersOf(st1);
    assert users[|users| - 1].email == email;
  }

  /** `login` succeeds exactly when some user matches both email and encoded password; on failure the
      session is left as it was and the error is the invalid-credentials message; the user list never changes. */
  lemma LoginSucceedsIff(st: Store, email: string, password: string, now: nat)
    ensures LoginStep(st, email, password, now).result.Success? <==>
              IsLatin1(password) && exists i :: 0 <= i < |UsersOf(st)| && Matches(UsersOf(st)[i], email, password)
    ensures !LoginStep(st, email, password, now).result.Success? ==>
              LoginStep(st, email, password, now).store.session == st.session
    ensures LoginStep(st, email, password, now).result.Failure? ==>
              LoginStep(st, email, password, now).result.error == InvalidCredentials
    ensures UsersOf(LoginStep(st, email, password, now).store) == UsersOf(st)
  {
    FindCredentialsSpec(UsersOf(st), email, password, 0);
  }

  /** With a Latin-1 password, `login` signs in as the first user matching both email and encoded password:
      it stores and returns that user's session with a fresh token. */
  lemma LoginFirstMatch(st: Store, email: string, password: string, now: nat, k: nat)
    requires IsLatin1(password)
    requires k < |UsersOf(st)| && Matches(UsersOf(st)[k], email, password)
    requires forall j :: 0 <= j < k ==> !Matches(UsersOf(st)[j], email, password)
    ensures var u := UsersOf(st)[k];
            var s := Session(u.id, u.name, u.email, u.profile, GenerateToken(u.id, now));
            LoginStep(st, email, password, now) == Step(Store(Some(UsersOf(st)), Some(Parsed(s))), Success(s))
  {
    FindCredentialsSpec(UsersOf(st), email, password, 0);
  }

  /** After a successful registration, logging in with the same credentials succeeds as the new user. */
  lemma RegisterThenLogin(st: Store, name: string, email: string, password: string, now: nat, createdAt: string, tokenNow: nat, later: nat)
    requires RegisterStep(st, name, email, password, now, createdAt, tokenNow).result.Success?
    ensures var id := DecimalString(now);
            LoginStep(RegisterStep(st, name, email, password, now, createdAt, tokenNow).store, email, password, later).result ==
              Success(Session(id, name, email, EmptyProfile, GenerateToken(id, later)))
  {
    var users := UsersOf(st);
    var st1 := RegisterStep(st, name, email, password, now, createdAt, tokenNow).store;
    var users1 := UsersOf(st1);
    assert users1 == users + [User(DecimalString(now), name, email, Base64(password), createdAt, EmptyProfile)];
    FindCredentialsSpec(users1, email, password, 0);
    assert Matches(users1[|users|], email, password);
    assert FindCredentials(users1, email, password, 0).index == |users|;
  }

  /** `getCurrentUser` with no session record, or with an unparsable one, returns null and writes nothing. */
  lemma CurrentUserNoRecord(st: Store, now: int)
    requires st.session.None? || st.session == Some(Malformed)
    ensures CurrentUserStep(st, now) == Step(st, None)
  {
  }

  /** With an undecodable or expired token, `getCurrentUser` removes the session and returns null; otherwise
      it returns the stored session and writes nothing. */
  lemma CurrentUserChecksToken(st: Store, s: Session, now: int)
    requires st.session == Some(Parsed(s))
    ensures VerifyToken(s.token, now).None? ==> CurrentUserStep(st, now) == Step(Store(st.users, None), None)
    ensures VerifyToken(s.token, now).Some? ==> CurrentUserStep(st, now) == Step(st, Some(s))
  {
  }

  /** The session a login stores is current for seven days and cleared at the first access after that. */
  lemma LoginSessionLifetime(st: Store, email: string, password: string, issued: nat, now: int)
    requires LoginStep(st, email, password, issued).result.Success?
    ensures var step := LoginStep(st, email, password, issued);
            && (now <= issued + TokenLifetime ==> CurrentUserStep(step.store, now) == Step(step.store, Some(step.result.user)))
            && (now > issued + TokenLifetime ==> CurrentUserStep(step.store, now) == Step(LogoutStep(step.store), None))
  {
  }

  /** Without a valid session `updateProfile` fails with "Not authenticated" and leaves the user list alone. */
  lemma UpdateProfileUnauthenticated(st: Store, data: ProfileUpdate, now: int)
    requires CurrentUserStep(st, now).result.None?
    ensures UpdateProfileStep(st, data, now).result == Failure(NotAuthenticated)
    ensures UpdateProfileStep(st, data, now).store.users == st.users
  {
  }

  /** A valid session whose id is not in the list gives "User not found" and writes no user and no session. */
  lemma UpdateProfileUnknownUser(st: Store, data: ProfileUpdate, now: int)
    requires CurrentUserStep(st, now).result.Some?
    requires forall j :: 0 <= j < |UsersOf(st)| ==> UsersOf(st)[j].id != CurrentUserStep(st, now).result.value.id
    ensures UpdateProfileStep(st, data, now) == Step(Store(Some(UsersOf(st)), st.session), Failure(UserNotFound))
  {
  }

  /** The merge of `updateProfile`: with a valid session for the user at index `i` (the first with that id),
      only that user's name (when the new one is non-empty) and profile keys change; profile keys the update does
      not mention are kept; every other user is unchanged; the new session keeps its id, email and token. */
  lemma UpdateProfileMerge(st: Store, data: ProfileUpdate, now: int, i: nat)
    requires CurrentUserStep(st, now).result.Some?
    requires i < |UsersOf(st)| && UsersOf(st)[i].id == CurrentUserStep(st, now).result.value.id
    requires forall j :: 0 <= j < i ==> UsersOf(st)[j].id != UsersOf(st)[i].id
    ensures var step := UpdateProfileStep(st, data, now);
            var old_ := UsersOf(st)[i];
            var current := CurrentUserStep(st, now).result.value;
            && step.result.Success?
            && step.store.users.Some? && |step.store.users.value| == |UsersOf(st)|
            && (forall j :: 0 <= j < |UsersOf(st)| && j != i ==> step.store.users.value[j] == UsersOf(st)[j])
            && var u := step.store.users.value[i];
            && u.id == old_.id && u.email == old_.email && u.password == old_.password && u.createdAt == old_.createdAt
            && u.name == (if data.name != "" then data.name else old_.name)
            && (forall k :: k in data.profile ==> k in u.profile && u.profile[k] == data.profile[k])
            && (forall k :: k in old_.profile && k !in data.profile ==> k in u.profile && u.profile[k] == old_.profile[k])
            && u.profile.Keys == old_.profile.Keys + data.profile.Keys
            && step.result.user == Session(current.id, u.name, current.email, u.profile, current.token)
            && step.store.session == Some(Parsed(step.result.user))
  {
  }

  /** `logout` is idempotent: after one or more calls there is no session record. */
  lemma LogoutIdempotent(st: Store)
    ensures LogoutStep(st).session.None?
    ensures LogoutStep(LogoutStep(st)) == LogoutStep(st)
  {
  }

  /** `isAuthenticated()` holds exactly when `getCurrentUser()` is not null, with the same side effect. */
  lemma IsAuthenticatedIffCurrentUser(st: Store, now: int)
    ensures IsAuthenticatedStep(st, now).result <==> CurrentUserStep(st, now).result.Some?
    ensures IsAuthenticatedStep(st, now).store == CurrentUserStep(st, now).store
  {
  }

  // ---------------------------------------------------------------------------
  // The service object and its storage
  // ---------------------------------------------------------------------------

  /** The `AuthService` class, with the two local-storage keys as fields. */
  class AuthService {
    /** localStorage "payflow_users", parsed. */
    var users: Option<seq<User>>
    /** localStorage "payflow_auth", parsed. */
    var session: Option<StoredSession>

    function State(): Store
      reads this
    {
      Store(users, session)
    }

    /** The service over whatever the browser's storage already holds. */
    constructor (storedUsers: Option<seq<User>>, storedSession: Option<StoredSession>)
      ensures State() == Store(storedUsers, storedSession)
    {
      users, session := storedUsers, storedSession;
    }

    /** `initializeUsers` and `getUsers` (lines 9-13, 38-41). */
    method GetUsers() returns (list: seq<User>)
      modifies this`users
      ensures list == UsersOf(old(State())) && users == Some(list)
    {
      if users.None? {
        users := Some([]);
      }
      list := users.value;
    }

    /** `saveUsers` (lines 44-46). */
    method SaveUsers(list: seq<User>)
      modifies this`users
      ensures users == Some(list)
    {
      users := Some(list);
    }

    method Register(name: string, email: string, password: string, now: nat, createdAt: string, tokenNow: nat) returns (r: Response)
      modifies this
      ensures Step(State(), r) == RegisterStep(old(State()), name, email, password, now, createdAt, tokenNow)
    {
      var list := GetUsers();
      if HasEmail(list, email) {
        return Failure(UserExists);
      }
      if !IsLatin1(password) {
        return Thrown(BtoaError);
      }
      var newUser := User(DecimalString(now), name, email, Base64(password), createdAt, EmptyProfile);
      list := list + [newUser];
      SaveUsers(list);
      var token := GenerateToken(newUser.id, tokenNow);
      var userSession := Session(newUser.id, newUser.name, newUser.email, newUser.profile, token);
      session := Some(Parsed(userSession));
      r := Success(userSession);
    }

    method Login(email: string, password: string, now: nat) returns (r: Response)
      modifies this
      ensures Step(State(), r) == LoginStep(old(State()), email, password, now)
    {
      var list := GetUsers();
      var found := FindCredentials(list, email, password, 0);
      if found.Throws? {
        return Thrown(BtoaError);
      }
      if found.NotFound? {
        return Failure(InvalidCredentials);
      }
      var user := list[found.index];
      var token := GenerateToken(user.id, now);
      var userSession := Session(user.id, user.name, user.email, user.profile, token);
      session := Some(Parsed(userSession));
      r := Success(userSession);
    }

    method GetCurrentUser(now: int) returns (current: Option<Session>)
      modifies this`session
      ensures Step(State(), current) == CurrentUserStep(old(State()), now)
    {
      if session.None? {
        return None;
      }
      match session.value {
        case Malformed =>
          return None;
        case Parsed(s) =>
          var tokenPayload := VerifyToken(s.token, now);
          if tokenPayload.None? {
            Logout();
            return None;
          }
          return Some(s);
      }
    }

    method UpdateProfile(profileData: ProfileUpdate, now: int) returns (r: Response)
      modifies this
      ensures Step(State(), r) == UpdateProfileStep(old(State()), profileData, now)
    {
      var currentUser := GetCurrentUser(now);
      if currentUser.None? {
        return Failure(NotAuthenticated);
      }
      var list := GetUsers();
      var userIndex := FindId(list, currentUser.value.id);
      if userIndex.None? {
        return Failure(UserNotFound);
      }
      var i := userIndex.value;
      var updated := MergedUser(list[i], profileData);
      list := list[i := updated];
      SaveUsers(list);
      var updatedSession := currentUser.value.(name := updated.name, profile := updated.profile);
      session := Some(Parsed(updatedSession));
      r := Success(updatedSession);
    }

    method Logout()
      modifies this`session
      ensures session.None?
    {
      session := None;
    }

    method IsAuthenticated(now: int) returns (b: bool)
      modifies this`session
      ensures Step(State(), b) == IsAuthenticatedStep(old(State()), now)
    {
      var current := GetCurrentUser(now);
      b := current.Some?;
    }
  }
}
