/**
 * The sign-in and sign-up page (src/pages/AuthPage.jsx): the registration form's
 * checks and the `loading` flag around the calls into the context. Toasts and
 * navigation are not modelled.
 */
module AuthPage {
  import opened Wrappers
  import opened AuthService
  import opened AuthContext

  const PasswordsMismatch := "Passwords do not match"
  const PasswordTooShort := "Password must be at least 6 characters long"

  /** `s.length` in JavaScript: UTF-16 code units, two for a character above U+FFFF. */
  function Utf16Length(s: string): (n: nat)
    ensures |s| <= n <= 2 * |s|
    ensures (forall i :: 0 <= i < |s| ==> s[i] as int < 0x1_0000) ==> n == |s|
    ensures |s| == 1 ==> n == CodeUnits(s[0])
  {
    if s == [] then 0 else CodeUnits(s[0]) + Utf16Length(s[1..])
  }

  /** The UTF-16 code units of one character: two for a surrogate pair, one otherwise. */
  function CodeUnits(c: char): nat
  {
    if c as int >= 0x1_0000 then 2 else 1
  }

  /** The length adds up over concatenation; with the one-character case it fixes every length. */
  lemma {:induction false} Utf16Concat(a: string, b: string)
    ensures Utf16Length(a + b) == Utf16Length(a) + Utf16Length(b)
  {
    if a == [] {
      assert a + b == b;
    } else {
      assert (a + b)[1..] == a[1..] + b;
      Utf16Concat(a[1..], b);
    }
  }

  /** One character above U+FFFF and three below count five code units. */
  lemma Utf16Example()
    ensures Utf16Length("\U{1F600}abc") == 5
  {
  }

  /** The two early returns of `handleRegister` (AuthPage.jsx:71-87), the mismatch checked first. */
  function RegistrationError(password: string, confirmPassword: string): (e: Option<string>)
    ensures e.None? <==> password == confirmPassword && Utf16Length(password) >= 6
    ensures password != confirmPassword ==> e == Some(PasswordsMismatch)
    ensures password == confirmPassword && Utf16Length(password) < 6 ==> e == Some(PasswordTooShort)
  {
    if password != confirmPassword then Some(PasswordsMismatch)
    else if Utf16Length(password) < 6 then Some(PasswordTooShort)
    else None
  }

  /** A short password that also differs from its confirmation reports the mismatch. */
  lemma MismatchReportedFirst(password: string, confirmPassword: string)
    requires password != confirmPassword && Utf16Length(password) < 6
    ensures RegistrationError(password, confirmPassword) == Some(PasswordsMismatch)
  {
  }

  datatype LoginData = LoginData(email: string, password: string)
  datatype RegisterData = RegisterData(name: string, email: string, password: string, confirmPassword: string)

  /** A call into the context, with the page's `loading` flag at the moment of the call. */
  datatype Call =
    | LoginCall(email: string, password: string, loadingDuringCall: bool)
    | RegisterCall(name: string, email: string, password: string, loadingDuringCall: bool)

  /** What `handleRegister` ends with: an early return with its message, or the context's answer. */
  datatype RegisterOutcome = Rejected(message: string) | Submitted(result: ActionResult)

  class AuthPage {
    const auth: AuthProvider
    var loginData: LoginData
    var registerData: RegisterData
    var loading: bool
    /** Every call the page makes into the context, in order. */
    ghost var calls: seq<Call>

    /** The initial state (lines 17-29). */
    constructor (auth: AuthProvider)
      ensures this.auth == auth
      ensures loginData == LoginData("", "") && registerData == RegisterData("", "", "", "")
      ensures !loading && calls == []
    {
      this.auth := auth;
      loginData := LoginData("", "");
      registerData := RegisterData("", "", "", "");
      loading := false;
      calls := [];
    }

    /** `handleLogin` (lines 38-66): one call to `login` with `loading` set, and `loading` false afterwards. */
    method HandleLogin(now: nat) returns (result: ActionResult)
      modifies this`loading, this`calls, auth`user, auth.service
      ensures calls == old(calls) + [LoginCall(loginData.email, loginData.password, true)]
      ensures var step := LoginStep(old(auth.service.State()), loginData.email, loginData.password, now);
              auth.service.State() == step.store && Reflects(step.result, result, old(auth.user), auth.user)
      ensures !loading
    {
      loading := true;
      calls := calls + [LoginCall(loginData.email, loginData.password, loading)];
      result := auth.Login(loginData.email, loginData.password, now);
      loading := false;
    }

    /** `handleRegister` (lines 68-115): the checks first, then one call to `register` without the
        confirmation, with `loading` set, and `loading` false afterwards. */
    method HandleRegister(now: nat, createdAt: string, tokenNow: nat) returns (outcome: RegisterOutcome)
      modifies this`loading, this`calls, auth`user, auth.service
      ensures var d := registerData;
              var e := RegistrationError(d.password, d.confirmPassword);
              && (e.Some? ==> outcome == Rejected(e.value) && calls == old(calls) && loading == old(loading)
                              && auth.user == old(auth.user) && auth.service.State() == old(auth.service.State()))
              && (e.None? ==> outcome.Submitted? && !loading
                              && calls == old(calls) + [RegisterCall(d.name, d.email, d.password, true)]
                              && var step := RegisterStep(old(auth.service.State()), d.name, d.email, d.password, now, createdAt, tokenNow);
                                 auth.service.State() == step.store && Reflects(step.result, outcome.result, old(auth.user), auth.user))
    {
      if registerData.password != registerData.confirmPassword {
        return Rejected(PasswordsMismatch);
      }
      if Utf16Length(registerData.password) < 6 {
        return Rejected(PasswordTooShort);
      }
      loading := true;
      calls := calls + [RegisterCall(registerData.name, registerData.email, registerData.password, loading)];
      var result := auth.Register(registerData.name, registerData.email, registerData.password, now, createdAt, tokenNow);
      loading := false;
      outcome := Submitted(result);
    }
  }
}
