/**
 * The client's route guards and the 404 page's home link: total decisions
 * over the `auth` slice's isAuthChecked, accessToken and user role.
 */
module RouteGuards {
  import opened Base
  import opened JsValues
  import opened AuthSlice

  const LoginPath := "/login"
  const AdminLoginPath := "/admin/login"
  const AdminDashboardPath := "/admin/dashboard"
  const HomePagePath := "/home"
  const RootPath := "/"

  /** What a guard renders: nothing yet, a `Navigate` with `replace`, or the guarded page. */
  datatype Outcome = RenderNothing | Redirect(to: string) | RenderChildren

  /** `UserProtectedRoute` */
  function UserProtectedRoute(auth: AuthView): (o: Outcome)
    ensures o == RenderNothing <==> !auth.isAuthChecked
    ensures o == RenderChildren <==> auth.isAuthChecked && Truthy(auth.accessToken)
    // any role gets through, so the only redirect is to the login page
    ensures o.Redirect? <==> auth.isAuthChecked && !Truthy(auth.accessToken)
    ensures o.Redirect? ==> o.to == LoginPath
  {
    if !auth.isAuthChecked then RenderNothing
    else if !Truthy(auth.accessToken) then Redirect(LoginPath)
    else RenderChildren
  }

  /** `AdminProtectedRoute` */
  function AdminProtectedRoute(auth: AuthView): (o: Outcome)
    ensures o == RenderNothing <==> !auth.isAuthChecked
    ensures o == RenderChildren <==> auth.isAuthChecked && Truthy(auth.accessToken) && IsAdmin(auth.user)
    ensures auth.isAuthChecked && !Truthy(auth.accessToken) ==> o == Redirect(AdminLoginPath)
    // signed in but not an admin: back to the root, not to a login page
    ensures auth.isAuthChecked && Truthy(auth.accessToken) && !IsAdmin(auth.user) ==> o == Redirect(RootPath)
  {
    if !auth.isAuthChecked then RenderNothing
    else if !Truthy(auth.accessToken) then Redirect(AdminLoginPath)
    else if !IsAdmin(auth.user) then Redirect(RootPath)
    else RenderChildren
  }

  /** `PublicRoute`: the login and register pages, for signed-out visitors only. */
  function PublicRoute(auth: AuthView): (o: Outcome)
    ensures o == RenderNothing <==> !auth.isAuthChecked
    ensures o == RenderChildren <==> auth.isAuthChecked && !Truthy(auth.accessToken)
    ensures auth.isAuthChecked && Truthy(auth.accessToken) ==>
            o == Redirect(if IsAdmin(auth.user) then AdminDashboardPath else HomePagePath)
  {
    if !auth.isAuthChecked then RenderNothing
    else if Truthy(auth.accessToken) then
      if IsAdmin(auth.user) then Redirect(AdminDashboardPath) else Redirect(HomePagePath)
    else RenderChildren
  }

  /** `getHomePath` of the 404 page; it does not wait for the session check. */
  function HomePath(auth: AuthView): (p: string)
    ensures p == LoginPath || p == AdminDashboardPath || p == HomePagePath
    ensures p == LoginPath <==> !Truthy(auth.accessToken)
    ensures p == AdminDashboardPath <==> Truthy(auth.accessToken) && IsAdmin(auth.user)
  {
    if !Truthy(auth.accessToken) then LoginPath
    else if IsAdmin(auth.user) then AdminDashboardPath
    else HomePagePath
  }

  /** Once the check is done, every visitor is admitted by exactly one of the public guard and the user guard. */
  lemma PublicAndProtectedPartition(auth: AuthView)
    requires auth.isAuthChecked
    ensures (PublicRoute(auth) == RenderChildren) != (UserProtectedRoute(auth) == RenderChildren)
  {
  }

  /** Every page the admin guard admits, the user guard admits too. */
  lemma AdminGuardImpliesUserGuard(auth: AuthView)
    ensures AdminProtectedRoute(auth) == RenderChildren ==> UserProtectedRoute(auth) == RenderChildren
  {
  }

  /** The public guard sends a signed-in visitor where the 404 page's home link points. */
  lemma PublicRouteAgreesWithHomePath(auth: AuthView)
    requires auth.isAuthChecked && Truthy(auth.accessToken)
    ensures PublicRoute(auth) == Redirect(HomePath(auth))
  {
  }

  /** A failed start-up refresh sends every protected page to its login page and opens the public ones. */
  lemma FailedRefreshSignsOut(s: AuthView)
    ensures UserProtectedRoute(Reduce(s, RefreshRejected)) == Redirect(LoginPath)
    ensures AdminProtectedRoute(Reduce(s, RefreshRejected)) == Redirect(AdminLoginPath)
    ensures PublicRoute(Reduce(s, RefreshRejected)) == RenderChildren
  {
  }

  /** Before any settling action the guards render nothing: the initial state waits. */
  lemma InitialStateWaits()
    ensures UserProtectedRoute(Initial) == RenderNothing
    ensures AdminProtectedRoute(Initial) == RenderNothing
    ensures PublicRoute(Initial) == RenderNothing
  {
  }
}
