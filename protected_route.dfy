/** The route gate: children render for an authenticated session, anything
    else is redirected to the login route. */
module ProtectedRoute {
  import opened Wrappers
  import opened AuthStore

  datatype Outlet = Children | RedirectTo(path: string)

  function Guard(s: AuthState): (r: Outlet)
    ensures r == Children <==> s.isAuthenticated
    ensures r != Children ==> r == RedirectTo("/login")
  {
    if s.isAuthenticated then Children else RedirectTo("/login")
  }

  /** Only the flag is read: the token, roles and expiry make no difference. */
  lemma GuardReadsOnlyTheFlag(s: AuthState, t: AuthState)
    requires s.isAuthenticated == t.isAuthenticated
    ensures Guard(s) == Guard(t)
  {
  }

  /** A login without a token (or with an expired one) grants access. */
  lemma TokenlessLoginGrantsAccess(u: User, exp: Option<int>)
    ensures Guard(SignedIn(u, None, None, exp)) == Children
  {
  }

  /** After logout, and before any login, the gate redirects. */
  lemma SignedOutRedirects()
    ensures Guard(SignedOut) == RedirectTo("/login")
  {
  }
}
