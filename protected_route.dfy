/**
 * The route guard around the signed-in pages: a spinner while the user is
 * being restored, then the login page for visitors, the home page for
 * non-admins on admin pages, and the page itself otherwise.
 */
module ProtectedRoute {
  import AuthContext

  datatype Outcome = Spinner | RedirectTo(path: string) | Children

  const LoginPath: string := "/login"
  const HomePath: string := "/"

  /** The chain of early returns, in order. `requireAdmin` is false when the prop is omitted. */
  function Decide(loading: bool, authenticated: bool, admin: bool, requireAdmin: bool): (r: Outcome)
    ensures loading ==> r == Spinner
    ensures !loading && !authenticated ==> r == RedirectTo(LoginPath)
    ensures !loading && authenticated && requireAdmin && !admin ==> r == RedirectTo(HomePath)
    ensures r == Children <==> !loading && authenticated && (!requireAdmin || admin)
  {
    if loading then Spinner
    else if !authenticated then RedirectTo(LoginPath)
    else if requireAdmin && !admin then RedirectTo(HomePath)
    else Children
  }

  /** The guard as the context drives it. */
  function Guard(auth: AuthContext.Auth, requireAdmin: bool): (r: Outcome)
    reads auth
    ensures r == Children ==> !auth.loading && auth.user.Some?
    ensures r == Children && requireAdmin ==> auth.user.value.role == AuthContext.AdminRole
  {
    Decide(auth.loading, auth.IsAuthenticated(), auth.IsAdmin(), requireAdmin)
  }

  /**
   * Once loading is over, a page without `requireAdmin` lets every signed-in
   * user through, whatever the role, and an admin page lets through exactly
   * the admins; asking for admin never lets more users through.
   */
  lemma AdminPagesAreNarrower(loading: bool, authenticated: bool, admin: bool)
    ensures Decide(loading, authenticated, admin, true) == Children ==> Decide(loading, authenticated, admin, false) == Children
    ensures !loading && authenticated ==> Decide(loading, authenticated, admin, false) == Children
    ensures !loading ==> (Decide(loading, authenticated, admin, true) == Children <==> authenticated && admin)
  {
  }
}
