/** The route guard (components/AuthGuard.tsx): what a protected page renders
    and whether it sends the browser to the login page. */
module AuthGuard {
  import opened Wrappers
  import opened Browser
  import opened Types
  import opened AuthContext

  datatype Render = Spinner | Children | Nothing

  /** One render of the guard: what it shows, and the route its effect pushes. */
  datatype GuardDecision = GuardDecision(render: Render, redirect: Option<string>)

  const LoginPath: string := "/login"

  /** The guard, as written: the spinner while loading, the children once
      authenticated, otherwise nothing; the effect redirects only when loading
      is over, the session is signed out and storage holds no truthy token. */
  function Guard(isLoading: bool, isAuthenticated: bool, storedToken: Option<string>): (d: GuardDecision)
    ensures d.render == Spinner <==> isLoading
    ensures d.render == Children <==> !isLoading && isAuthenticated
    ensures d.redirect.Some? ==> d.redirect.value == LoginPath && d.render == Nothing
    ensures d.redirect.Some? <==> !isLoading && !isAuthenticated && !Truthy(storedToken)
  {
    var redirect := if !isLoading && !isAuthenticated && !Truthy(storedToken) then Some(LoginPath) else None;
    if isLoading then GuardDecision(Spinner, redirect)
    else if isAuthenticated then GuardDecision(Children, redirect)
    else GuardDecision(Nothing, redirect)
  }

  /** The guard of a page rendered over a given session and storage. */
  function GuardFor(s: AuthState, storage: Storage): (d: GuardDecision)
    ensures d.redirect.Some? <==>
              !s.isLoading && !s.isAuthenticated && (TokenKey !in storage || storage[TokenKey] == "")
  {
    Guard(s.isLoading, s.isAuthenticated, GetItem(storage, TokenKey))
  }

  /** Before the mount-time check has run the guard shows the spinner and
      never redirects, whatever storage holds. */
  lemma LoadingNeverRedirects(storage: Storage)
    ensures GuardFor(InitialAuthState, storage) == GuardDecision(Spinner, None)
  {
  }

  /** A valid persisted token restores a session whose content is shown
      without a redirect. */
  lemma RestoredSessionShowsContent(storage: Storage)
    requires IsValidToken(GetItem(storage, TokenKey))
    ensures GuardFor(ResolvedState(GetItem(storage, TokenKey)), storage) == GuardDecision(Children, None)
  {
  }

  /** After a logout (in particular one forced by an "unauthorized" event) the
      next render of a protected page redirects to the login page. */
  lemma LogoutRedirectsToLogin(storage: Storage)
    ensures GuardFor(ResolvedState(None), storage - {TokenKey}) == GuardDecision(Nothing, Some(LoginPath))
  {
  }

  /** As written, a stored "undefined" restores a signed-out session whose
      storage still holds a truthy token: the page renders nothing and never
      redirects. */
  lemma StoredUndefinedBlanksPage()
    ensures var storage := map[TokenKey := "undefined"];
            GuardFor(ResolvedState(GetItem(storage, TokenKey)), storage) == GuardDecision(Nothing, None)
  {
  }

  /** The guard the comments describe: once loading is over a signed-out
      session is always sent to the login page. */
  function IntendedGuard(isLoading: bool, isAuthenticated: bool): (d: GuardDecision)
    ensures d.render == Spinner <==> isLoading
    ensures d.render == Children <==> !isLoading && isAuthenticated
    ensures d.redirect.Some? <==> !isLoading && !isAuthenticated
    ensures d.redirect.Some? ==> d.redirect.value == LoginPath
  {
    if isLoading then GuardDecision(Spinner, None)
    else if isAuthenticated then GuardDecision(Children, None)
    else GuardDecision(Nothing, Some(LoginPath))
  }

  /** The intended guard never leaves a page blank without a redirect, and it
      agrees with the guard as written whenever storage holds no truthy token. */
  lemma IntendedGuardNeverStrands(isLoading: bool, isAuthenticated: bool, storedToken: Option<string>)
    ensures IntendedGuard(isLoading, isAuthenticated).render == Nothing ==>
              IntendedGuard(isLoading, isAuthenticated).redirect == Some(LoginPath)
    ensures !Truthy(storedToken) ==>
              IntendedGuard(isLoading, isAuthenticated) == Guard(isLoading, isAuthenticated, storedToken)
  {
  }
}
