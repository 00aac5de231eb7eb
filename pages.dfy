/** `HomePage` (app/page.tsx): the root always redirects, by whether a user was resolved. */
module HomePage {
  import opened Wrappers
  import opened JsText
  import opened Types
  import Middleware

  function HomeRedirect(user: Option<User>): (target: JsString)
    ensures user.Some? ==> target == Middleware.DashboardPath
    ensures user.None? ==> target == Middleware.LoginPath
  {
    if user.Some? then Middleware.DashboardPath else Middleware.LoginPath
  }

  /** The target depends on whether there is a user, and not on which user or on the role. */
  lemma HomeIgnoresRole(u1: User, u2: User)
    ensures HomeRedirect(Some(u1)) == HomeRedirect(Some(u2)) != HomeRedirect(None)
  {}
}

/** `DashboardPage` (app/dashboard/page.tsx): redirect, or one of the two dashboards. */
module DashboardPage {
  import opened Wrappers
  import opened JsText
  import opened Types
  import Middleware

  datatype PageOutcome = RedirectToLogin | RenderDeveloperDashboard | RenderUserDashboard

  function Dashboard(user: Option<User>): (r: PageOutcome)
    ensures r == RedirectToLogin <==> user.None?
    ensures r == RenderDeveloperDashboard <==> user.Some? && IsDeveloper(user.value)
    ensures r == RenderUserDashboard <==> user.Some? && !IsDeveloper(user.value)
  {
    if user.None? then RedirectToLogin
    else if IsDeveloper(user.value) then RenderDeveloperDashboard
    else RenderUserDashboard
  }

  /** A user whose `isDeveloper` key is absent gets the user dashboard, as one whose key is false does. */
  lemma AbsentRoleIsUser(id: JsString, email: JsString, name: JsString)
    ensures Dashboard(Some(User(id, email, name, None))) == RenderUserDashboard
    ensures Dashboard(Some(User(id, email, name, Some(false)))) == RenderUserDashboard
  {}

  /**
   * When the page resolves the same user as the guard did, a request the
   * guard let through to `/dashboard` does not hit the page's own redirect.
   * The two lookups are separate calls, so a session deleted or an account
   * lookup failing in between can still make the page redirect.
   */
  lemma GuardedDashboardRenders(user: Option<User>)
    requires Middleware.Decide(Middleware.DashboardPath, user) == Middleware.Next
    ensures Dashboard(user) != RedirectToLogin
  {}
}
