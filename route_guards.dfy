/** The three route guards: `PrivateRoute`, `ProtectAdminRoute` and `LoginRedirect`. */
module RouteGuards {
  import opened Wrappers
  import opened Accounts

  /** What a guard renders: a `<Navigate>` (with or without `replace`) or its children. */
  datatype Outcome = Redirect(to: string, replace: bool) | Children

  /** `PrivateRoute`: no user goes to the login page; a user whose role is not among
      `allowedRoles` (when given) goes home; everyone else sees the children. */
  function PrivateRoute(authUser: Option<User>, allowedRoles: Option<seq<string>>): (r: Outcome)
    ensures authUser.None? ==> r == Redirect("/login", false)
    ensures authUser.Some? && allowedRoles.Some? && authUser.value.role !in allowedRoles.value ==>
      r == Redirect("/", false)
    ensures r == Children <==>
      authUser.Some? && (allowedRoles.None? || authUser.value.role in allowedRoles.value)
  {
    if authUser.None? then Redirect("/login", false)
    else if allowedRoles.Some? && authUser.value.role !in allowedRoles.value then Redirect("/", false)
    else Children
  }

  /** `ProtectAdminRoute`: only an admin sees the children; anyone else, logged in or not,
      is replaced by the login page. */
  function ProtectAdminRoute(authUser: Option<User>): (r: Outcome)
    ensures r == Children <==> authUser.Some? && IsAdmin(authUser.value)
    ensures r != Children ==> r == Redirect("/login", true)
  {
    if authUser.None? || authUser.value.role != AdminRole then Redirect("/login", true)
    else Children
  }

  /** The admin guard looks at nothing but whether a user is present and that user's role. */
  lemma ProtectAdminRouteReadsOnlyRole(a: Option<User>, b: Option<User>)
    requires a.Some? <==> b.Some?
    requires a.Some? ==> a.value.role == b.value.role
    ensures ProtectAdminRoute(a) == ProtectAdminRoute(b)
  {
  }

  /** The two guards admit the same users to an admin page.
      They differ only in where a logged-in non-admin is sent. */
  lemma AdminGuardsAgree(authUser: Option<User>)
    ensures (PrivateRoute(authUser, Some([AdminRole])) == Children) == (ProtectAdminRoute(authUser) == Children)
    ensures authUser.Some? && !IsAdmin(authUser.value) ==>
      PrivateRoute(authUser, Some([AdminRole])) == Redirect("/", false)
      && ProtectAdminRoute(authUser) == Redirect("/login", true)
  {
  }

  /** `LoginRedirect`'s effect: the navigation it issues; the login page is rendered in every case. */
  function LoginRedirect(authUser: Option<User>): (navigateTo: Option<string>)
    ensures navigateTo.None? <==> authUser.None?
    ensures authUser.Some? && IsAdmin(authUser.value) ==> navigateTo == Some("/admin")
    ensures authUser.Some? && !IsAdmin(authUser.value) ==> navigateTo == Some("/")
  {
    if authUser.Some? then Some(LandingPage(authUser.value.role)) else None
  }
}
