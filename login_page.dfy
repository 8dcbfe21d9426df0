/** The login form's submit handler. It reads `error`, `user.is_active` and `role` from
    the result of the session store's `login`, which supplies only `success` and either
    `role` or `message`. */
module LoginPage {
  import opened Wrappers
  import opened Text
  import opened Accounts
  import opened AuthContext

  const FillAllFields := "Please fill in all fields"
  const DefaultFailure := "Invalid email or password"
  const BlockedToast := "Your account is blocked"
  const SuccessToast := "Login successful!"
  const GenericError := "Something went wrong. Please try again."

  /** `res.user` as the handler reads it; a missing `is_active` reads as false. */
  datatype UserView = UserView(isActive: bool)

  /** The fields of `res` the handler reads. */
  datatype Response = Response(success: bool, error: Option<string>, user: Option<UserView>, role: Option<string>)

  /** `login`'s result seen through those fields: it never has `error` or `user`. */
  function AsResponse(r: LoginResult): Response {
    match r
    case LoggedIn(role) => Response(true, None, None, Some(role))
    case Refused(_) => Response(false, None, None, None)
  }

  /** The toast the handler shows and where it navigates. */
  datatype Feedback = Feedback(toast: string, navigateTo: Option<string>)

  /** The handler's `try` block after `login` resolved, with its `catch`: reading
      `res.user.is_active` when `res.user` is undefined throws, which shows the generic error. */
  function Respond(res: Response): (f: Feedback)
    ensures f.navigateTo.Some? <==> res.success && res.user.Some? && res.user.value.isActive
    ensures f.navigateTo.Some? ==>
      f.toast == SuccessToast
      && f.navigateTo.value == (if res.role == Some(AdminRole) then "/admin" else "/")
    ensures !res.success ==>
      f.toast == (if res.error.Some? && res.error.value != "" then res.error.value else DefaultFailure)
    ensures res.success && res.user.None? ==> f.toast == GenericError
    ensures res.success && res.user.Some? && !res.user.value.isActive ==> f.toast == BlockedToast
  {
    if !res.success then
      Feedback(if res.error.Some? && res.error.value != "" then res.error.value else DefaultFailure, None)
    else match res.user
      case None => Feedback(GenericError, None)
      case Some(u) =>
        if !u.isActive then Feedback(BlockedToast, None)
        else Feedback(SuccessToast, Some(if res.role == Some(AdminRole) then "/admin" else "/"))
  }

  /** Against the real `login`, the handler itself never navigates: a refusal always shows
      the default message (never `message`), and a success always ends in the generic
      error instead of the success toast. The role redirect on success comes from
      `LoginRedirect`, which wraps the page (`Storefront.LoginThroughRedirect`). */
  lemma LoginNeverNavigates(r: LoginResult)
    ensures Respond(AsResponse(r)) ==
      if r.LoggedIn? then Feedback(GenericError, None) else Feedback(DefaultFailure, None)
  {
  }

  /** The handler as evidently intended: read `message` on a refusal and, on a success,
      show the success toast and go to the role's landing page (`login` already refuses
      blocked accounts). */
  function RespondIntended(r: LoginResult): (f: Feedback)
    ensures f.navigateTo.Some? <==> r.LoggedIn?
    ensures r.LoggedIn? ==> f.navigateTo == Some(LandingPage(r.role)) && f.toast == SuccessToast
    ensures r.Refused? && r.message != "" ==> f.toast == r.message
  {
    match r
    case LoggedIn(role) => Feedback(SuccessToast, Some(LandingPage(role)))
    case Refused(message) => Feedback(if message != "" then message else DefaultFailure, None)
  }

  /** The intended handler shows every refusal message `login` produces, the blocked one included. */
  lemma IntendedShowsLoginMessages()
    ensures RespondIntended(Refused(BlockedMessage)).toast == BlockedMessage
    ensures RespondIntended(Refused(InvalidMessage)).toast == InvalidMessage
    ensures RespondIntended(Refused(LoginFailedMessage)).toast == LoginFailedMessage
  {
  }

  class LoginForm {
    var email: string
    var password: string
    var loading: bool

    constructor ()
      ensures email == "" && password == "" && !loading
    {
      email, password, loading := "", "", false;
    }

    /** `handleLogin`. Blank fields stop before `login` is called (`result` is `None`).
        Otherwise `loading` is raised, `login` runs, the response is handled and the
        `finally` lowers `loading` again. */
    method HandleLogin(auth: Session, reachable: bool) returns (f: Feedback, result: Option<LoginResult>)
      modifies this`loading, auth
      ensures result.None? <==> IsBlank(email) || IsBlank(password)
      ensures result.None? ==> f == Feedback(FillAllFields, None) && unchanged(auth) && loading == old(loading)
      ensures result.Some? ==> f == Respond(AsResponse(result.value)) && !loading
      ensures f.navigateTo.None?
      ensures auth.users == old(auth.users)
      ensures result.Some? ==> result.value == LoginOutcome(old(auth.users), email, password, reachable)
      ensures result.Some? && result.value.LoggedIn? ==>
        auth.authUser == Some(Credentials(old(auth.users), email, password)[0])
      ensures result.Some? && result.value.Refused? ==> auth.authUser == old(auth.authUser)
    {
      if IsBlank(email) || IsBlank(password) {
        return Feedback(FillAllFields, None), None;
      }
      loading := true;
      var r := auth.Login(email, password, reachable);
      f := Respond(AsResponse(r));
      result := Some(r);
      LoginNeverNavigates(r);
      loading := false;
    }
  }
}
