/** What the login and registration forms share: the success body of the
    auth endpoints, the arguments handed to the session store, the route
    pushed on success, and the spinner that replaces the form. */
module FormViews {
  import opened Wrappers
  import opened Types
  import opened AuthContext

  /** `response.data` of a successful login or registration; `access_token`
      may be missing. */
  datatype AuthResponse = AuthResponse(accessToken: Option<string>)

  /** The arguments of one `login(token, user)` or `register(token, user)` call. */
  datatype AuthCall = AuthCall(token: Option<string>, user: User)

  const TasksPath: string := "/tasks"

  /** `isLoading || isAuthenticated`: the form is replaced by a spinner. */
  function FormHidden(s: AuthState): (hidden: bool)
    ensures Settled(s) ==> (hidden <==> s.token.Some?)
  {
    s.isLoading || s.isAuthenticated
  }

  /** The form is hidden during the session check and for a restored valid
      session, and shown after a logout. */
  lemma FormVisibility(token: Option<string>)
    ensures FormHidden(InitialAuthState)
    ensures FormHidden(ResolvedState(token)) <==> IsValidToken(token)
    ensures !FormHidden(ResolvedState(None))
  {
  }
}
