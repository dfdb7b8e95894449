/**
 * The React authentication context (src/contexts/AuthContext.jsx): the `user`
 * and `loading` state of `AuthProvider`, and its wrappers around the service.
 */
module AuthContext {
  import opened Wrappers
  import opened AuthService

  /** What the wrappers return: `{ success: true }` or `{ success: false, error }`. */
  datatype ActionResult = Succeeded | Failed(error: string)

  /** The wrappers' handling of a service response (AuthContext.jsx:27-37): a success stores
      `response.user` and returns no user; a failure returns its error; an exception its message;
      in both failure cases `user` is unchanged. */
  ghost predicate Reflects(response: Response, r: ActionResult, before: Option<Session>, after: Option<Session>)
  {
    && (response.Success? ==> r == Succeeded && after == Some(response.user))
    && (response.Failure? ==> r == Failed(response.error) && after == before)
    && (response.Thrown? ==> r == Failed(response.message) && after == before)
  }

  /** `AuthProvider`: the component state and the service it wraps. */
  class AuthProvider {
    const service: AuthService
    var user: Option<Session>
    var loading: bool

    /** `useState(null)` and `useState(true)` (lines 15-16). */
    constructor (service: AuthService)
      ensures this.service == service && user.None? && loading
    {
      this.service := service;
      user := None;
      loading := true;
    }

    /** The mount effect (lines 18-25): adopt the current session, if any, and stop loading. */
    method Mount(now: int)
      modifies this, service
      ensures var step := CurrentUserStep(old(service.State()), now);
              && service.State() == step.store
              && user == (if step.result.Some? then step.result else old(user))
              && !loading
    {
      var currentUser := service.GetCurrentUser(now);
      if currentUser.Some? {
        user := currentUser;
      }
      loading := false;
    }

    /** `login` (lines 27-38). */
    method Login(email: string, password: string, now: nat) returns (r: ActionResult)
      modifies this`user, service
      ensures var step := LoginStep(old(service.State()), email, password, now);
              service.State() == step.store && Reflects(step.result, r, old(user), user)
    {
      var response := service.Login(email, password, now);
      r := Settle(response);
    }

    /** `register` (lines 40-51). */
    method Register(name: string, email: string, password: string, now: nat, createdAt: string, tokenNow: nat) returns (r: ActionResult)
      modifies this`user, service
      ensures var step := RegisterStep(old(service.State()), name, email, password, now, createdAt, tokenNow);
              service.State() == step.store && Reflects(step.result, r, old(user), user)
    {
      var response := service.Register(name, email, password, now, createdAt, tokenNow);
      r := Settle(response);
    }

    /** `logout` (lines 53-56): the stored session is removed and `user` becomes null. */
    method Logout()
      modifies this`user, service`session
      ensures service.State() == LogoutStep(old(service.State()))
      ensures user.None?
    {
      service.Logout();
      user := None;
    }

    /** `updateProfile` (lines 58-69). */
    method UpdateProfile(profileData: ProfileUpdate, now: int) returns (r: ActionResult)
      modifies this`user, service
      ensures var step := UpdateProfileStep(old(service.State()), profileData, now);
              service.State() == step.store && Reflects(step.result, r, old(user), user)
    {
      var response := service.UpdateProfile(profileData, now);
      r := Settle(response);
    }

    /** The common tail of the three wrappers: `setUser(response.user)` on success, and the try/catch. */
    method Settle(response: Response) returns (r: ActionResult)
      modifies this`user
      ensures Reflects(response, r, old(user), user)
    {
      match response {
        case Success(u) =>
          user := Some(u);
          r := Succeeded;
        case Failure(e) =>
          r := Failed(e);
        case Thrown(m) =>
          r := Failed(m);
      }
    }
  }
}
