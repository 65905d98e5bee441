/**
 * The route guard (frontend/src/components/ProtectedRoute.tsx): what a
 * protected page renders given the session's two flags.
 */
module ProtectedRoute {

  datatype Rendered = RedirectToLogin | RedirectToDashboard | Children

  /** `ProtectedRoute`: sign-in is checked first, then the admin requirement (`adminOnly` defaults to false). */
  function Guard(isAuthenticated: bool, isAdmin: bool, adminOnly: bool): (r: Rendered)
    ensures r == RedirectToLogin <==> !isAuthenticated
    ensures r == RedirectToDashboard <==> isAuthenticated && adminOnly && !isAdmin
    ensures r == Children <==> isAuthenticated && (!adminOnly || isAdmin)
  {
    if !isAuthenticated then RedirectToLogin
    else if adminOnly && !isAdmin then RedirectToDashboard
    else Children
  }

  /** Anything an admin-only route shows, the same route without the restriction shows too. */
  lemma AdminOnlyIsStricter(isAuthenticated: bool, isAdmin: bool)
    ensures Guard(isAuthenticated, isAdmin, true) == Children ==> Guard(isAuthenticated, isAdmin, false) == Children
    ensures isAdmin ==> Guard(isAuthenticated, isAdmin, true) == Guard(isAuthenticated, isAdmin, false)
  {
  }

  /** A stored ADMIN role without a token does not open an admin page: the login check comes first. */
  lemma AdminRoleWithoutTokenRedirectsToLogin(adminOnly: bool)
    ensures Guard(false, true, adminOnly) == RedirectToLogin
  {
  }
}
