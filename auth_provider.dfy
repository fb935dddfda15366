/**
 * The frontend session context (`AuthProvider`): the current user and the
 * loading flag, and the login, register, logout and session-check actions
 * that update them. The two copies of the provider in the repository have
 * the same behaviour and share this model.
 *
 * Each action's call to the auth service is abstracted as its outcome: the
 * data the request resolved with, or the rejection with the `message` of the
 * error response's body, if there was one.
 */
module AuthProvider {
  import opened Wrappers
  import opened Store

  datatype Outcome<T> = Resolved(value: T) | Rejected(message: Option<string>)

  /** What `login` and `register` return to the form that called them. */
  datatype ActionResult = ActionResult(success: bool, error: Option<string>)

  const LoginFailed: string := "Login failed"
  const RegistrationFailed: string := "Registration failed"

  /** `error.response?.data?.message || fallback`: the server's message unless it is missing or empty. */
  function ErrorText(message: Option<string>, fallback: string): (text: string)
    ensures Truthy(message) ==> text == message.value
    ensures !Truthy(message) ==> text == fallback
    ensures fallback != "" ==> text != ""
  {
    if message.Some? && message.value != "" then message.value else fallback
  }

  /** The result of a login or register whose request settled with `outcome`. */
  function ActionOutcome<T>(outcome: Outcome<T>, fallback: string): (r: ActionResult)
    ensures r.success <==> outcome.Resolved?
    ensures r.success <==> r.error.None?
    ensures !r.success && Truthy(outcome.message) ==> r.error == outcome.message
    ensures !r.success && !Truthy(outcome.message) ==> r.error == Some(fallback)
    ensures fallback != "" && !r.success ==> r.error.value != ""
  {
    if outcome.Resolved? then ActionResult(true, None)
    else ActionResult(false, Some(ErrorText(outcome.message, fallback)))
  }

  class AuthState {
    var user: Option<PublicUser>
    var loading: bool

    /** `useState(null)` and `useState(true)`: no user, still loading. */
    constructor ()
      ensures user.None? && loading
    {
      user := None;
      loading := true;
    }

    /** `isAuthenticated: !!user`. */
    predicate IsAuthenticated()
      reads this
    {
      user.Some?
    }

    /** `checkAuth`: the user `/auth/me` returns, or none; loading ends either way. */
    method CheckAuth(outcome: Outcome<Option<PublicUser>>)
      modifies this
      ensures !loading
      ensures user == (if outcome.Resolved? then outcome.value else None)
      ensures outcome.Rejected? ==> !IsAuthenticated()
    {
      if outcome.Resolved? {
        user := outcome.value;
      } else {
        user := None;
      }
      loading := false;
    }

    /** `login`: on success the user from the response; on failure the state is left alone. */
    method Login(outcome: Outcome<Option<PublicUser>>) returns (result: ActionResult)
      modifies this
      ensures result == ActionOutcome(outcome, LoginFailed)
      ensures user == (if outcome.Resolved? then outcome.value else old(user))
      ensures loading == old(loading)
    {
      if outcome.Resolved? {
        user := outcome.value;
        return ActionResult(true, None);
      }
      return ActionResult(false, Some(ErrorText(outcome.message, LoginFailed)));
    }

    /** `register`: as `login`, with its own fallback message. */
    method Register(outcome: Outcome<Option<PublicUser>>) returns (result: ActionResult)
      modifies this
      ensures result == ActionOutcome(outcome, RegistrationFailed)
      ensures user == (if outcome.Resolved? then outcome.value else old(user))
      ensures loading == old(loading)
    {
      if outcome.Resolved? {
        user := outcome.value;
        return ActionResult(true, None);
      }
      return ActionResult(false, Some(ErrorText(outcome.message, RegistrationFailed)));
    }

    /** `logout`: the local user is cleared whether or not the server call succeeded. */
    method Logout(outcome: Outcome<()>)
      modifies this
      ensures user.None? && !IsAuthenticated()
      ensures loading == old(loading)
    {
      // The `try` path after a settled request and the `catch` path after a
      // rejected one both clear the local user.
      if outcome.Resolved? {
        user := None;
      } else {
        user := None;
      }
    }
  }
}
