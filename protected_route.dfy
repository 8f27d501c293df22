/** `ProtectedRoute`: a pure three-way decision on the session's `isLoading` and `user`. */
module ProtectedRoute {
  import opened Common
  import opened AuthContext

  /** What the guard renders: the spinner, a redirect, or the guarded children as given. */
  datatype Rendered = Spinner | Navigate(to: string, replace: bool) | Children

  function Guard(isLoading: bool, user: Option<User>): (r: Rendered)
    ensures isLoading ==> r == Spinner
    ensures !isLoading && user == None ==> r == Navigate(LoginPath, true)
    ensures !isLoading && user != None ==> r == Children
  {
    if isLoading then Spinner
    else if user.None? then Navigate(LoginPath, true)
    else Children
  }

  /** The guard as a function of the session. */
  function GuardSession(s: Session): Rendered
  {
    Guard(SessionLoading(s), SessionUser(s))
  }

  /** Starting without a stored token, the guard sends the visitor to the login page. */
  lemma AnonymousStartRedirects()
    ensures GuardSession(Init(None)) == Navigate(LoginPath, true)
  {
  }

  /** Starting with a stored token, the guard shows the spinner from the first render while
      the identity is resolved, then the guarded content once the user arrives. If the
      fetch fails the spinner stays up while the retry waits; the retry runs without a
      token and the guard then sends the visitor to the login page. */
  lemma ResolvingThenAuthenticated(t: string, u: User)
    requires t != ""
    ensures GuardSession(Init(Some(t))) == Spinner
    ensures GuardSession(UserFetched(Init(Some(t)), u)) == Children
    ensures GuardSession(UserFetchFailed(Init(Some(t)))) == Spinner
    ensures GuardSession(RetryFired(UserFetchFailed(Init(Some(t))))) == Navigate(LoginPath, true)
  {
  }

  /** After a login from a session with nothing cached under ["user"] and no fetch in flight, the user
      query is fetching and the dashboard shows the spinner, not the login redirect. */
  lemma LoginShowsSpinnerUntilUserArrives(s: Session, t: string)
    requires t != "" && s.query.Idle? && UserQueryKey !in s.cache
    ensures LoginSucceeded(s, t).location == Some(DashboardPath)
    ensures GuardSession(LoginSucceeded(s, t)) == Spinner
  {
  }

  /** A returning visitor whose stored token has expired ends up with the query's `null`
      cached. Logging in from there goes to /dashboard and starts the user fetch, but a
      cached `null` counts as data: nothing is loading and there is no user, so the
      guard sends the visitor back to the login page while the fetch is still running. */
  lemma LoginAfterExpiredTokenRedirects(expired: string, t: string)
    requires expired != "" && t != ""
    ensures var s := LoginSucceeded(LoginStarted(RetryFired(UserFetchFailed(Init(Some(expired))))), t);
            && s.location == Some(DashboardPath)
            && s.query == Attempt(false)
            && GuardSession(s) == Navigate(LoginPath, true)
  {
  }

  /** Right after logout, unless a login or register request is still pending, every
      protected screen redirects to the login page. */
  lemma LogoutRedirects(s: Session)
    requires !s.loginPending && !s.registerPending
    ensures GuardSession(LoggedOut(s)) == Navigate(LoginPath, true)
  {
  }

  /** The guard shows protected content only to a session that has a user. */
  lemma ChildrenOnlyWithUser(s: Session)
    requires GuardSession(s) == Children
    ensures SessionUser(s).Some? && !SessionLoading(s)
  {
  }
}
