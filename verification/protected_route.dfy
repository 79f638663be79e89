/** The route gate in front of the signed-in pages. */
module ProtectedRoute {
  import opened Common
  import opened Records
  import AuthStore

  /** What the gate renders: the loading spinner, a redirect (with `replace`
      and the location the visitor came from), or the protected children. */
  datatype View = Spinner | Redirect(to: string, replace: bool, from: string) | Children

  const DefaultRedirect: string := "/login"

  /** The `redirectTo` prop; the default applies only when it is not passed. */
  function RedirectTarget(redirectTo: Option<string>): (r: string)
    ensures redirectTo == None ==> r == DefaultRedirect
    ensures redirectTo.Some? ==> r == redirectTo.value
  {
    if redirectTo.Some? then redirectTo.value else DefaultRedirect
  }

  /** The gate's decision for the current session, props and location. */
  function Gate(s: AuthStore.State, redirectTo: Option<string>, location: string): (v: View)
    ensures v.Spinner? <==> !s.isInitialized || s.loading
    ensures v.Redirect? <==> s.isInitialized && !s.loading && s.user == None
    ensures v.Redirect? ==> v == Redirect(RedirectTarget(redirectTo), true, location)
    ensures v.Children? <==> AuthStore.IsAuthenticated(s) && !s.loading
  {
    if !s.isInitialized || s.loading then Spinner
    else if s.user.None? then Redirect(RedirectTarget(redirectTo), true, location)
    else Children
  }

  /** While the session is undetermined, or busy, the spinner shows whoever
      the user is. */
  lemma SpinnerIgnoresUser(s: AuthStore.State, u: Option<User>, redirectTo: Option<string>, location: string)
    requires !s.isInitialized || s.loading
    ensures Gate(s.(user := u), redirectTo, location) == Spinner
  {
  }

  /** The session's life seen through the gate: spinner at start-up and while
      a logout is in flight, children once a user is reported, and a redirect
      to the login page after a successful logout. */
  lemma GateAlongSession(u: User, location: string)
    ensures Gate(AuthStore.Initial(), None, location) == Spinner
    ensures var signedIn := AuthStore.OnAuthStateChanged(AuthStore.Initial(), Some(u));
      && Gate(signedIn, None, location) == Children
      && Gate(AuthStore.LogoutPending(signedIn), None, location) == Spinner
      && Gate(AuthStore.Logout(signedIn, AuthStore.SignedOut).0, None, location)
         == Redirect("/login", true, location)
  {
  }

  /** A failed logout keeps the user on the protected page. */
  lemma FailedLogoutKeepsChildren(s: AuthStore.State, msg: string, location: string)
    requires AuthStore.IsAuthenticated(s)
    ensures Gate(AuthStore.Logout(s, AuthStore.SignOutFailed(msg)).0, None, location) == Children
  {
  }
}
