/** The session store (context/AuthContext.tsx): the published `AuthState`, the
    token persisted in browser storage, and the transitions login, register,
    logout, the mount-time check and the reaction to an "unauthorized" event. */
module AuthContext {
  import opened Wrappers
  import opened Browser
  import opened Types

  /** The state before the mount-time check has run. */
  const InitialAuthState: AuthState := AuthState(None, None, false, true)

  /** The profile published for any restored or fresh session: the server is
      not asked for the real one. */
  const PlaceholderUser: User := User(0, "Usuario", "email@test.com")

  /** A token is accepted when it is a non-empty string other than the literal
      "undefined" (the text a missing value turns into once stored). */
  predicate IsValidToken(token: Option<string>) {
    Truthy(token) && token.value != "undefined"
  }

  /** `(token && token !== 'undefined') ? token : null`. */
  function ValidToken(token: Option<string>): (v: Option<string>)
    ensures v.Some? <==> IsValidToken(token)
    ensures v.Some? ==> v == token
  {
    if IsValidToken(token) then token else None
  }

  /** What every state holds once loading is over: the flag mirrors the token,
      the token is a valid one, and the user is the placeholder exactly when
      authenticated. */
  predicate Settled(s: AuthState) {
    && !s.isLoading
    && ValidToken(s.token) == s.token
    && (s.isAuthenticated <==> s.token.Some?)
    && s.user == (if s.isAuthenticated then Some(PlaceholderUser) else None)
  }

  /** The record `resolveAuthState(token)` publishes. */
  function ResolvedState(token: Option<string>): (s: AuthState)
    ensures Settled(s)
    ensures s.token == ValidToken(token)
  {
    var valid := ValidToken(token);
    AuthState(
      if valid.Some? then Some(PlaceholderUser) else None,
      valid,
      valid.Some?,
      false)
  }

  /** A settled state is fully determined by its token. */
  lemma SettledDeterminedByToken(s: AuthState, t: AuthState)
    requires Settled(s) && Settled(t) && s.token == t.token
    ensures s == t
  {
  }

  /** Resolution authenticates exactly the valid tokens, and null, "" and
      "undefined" all resolve to the signed-out state. */
  lemma ResolvedStateAuthenticates(token: Option<string>)
    ensures ResolvedState(token).isAuthenticated <==> IsValidToken(token)
    ensures ResolvedState(token).user.Some? <==> IsValidToken(token)
    ensures !IsValidToken(token) ==> ResolvedState(token) == ResolvedState(None)
    ensures ResolvedState(Some("")) == ResolvedState(Some("undefined")) == ResolvedState(None)
  {
  }

  /** Storage after `handleAuth(token)`: a valid token is written under the
      token key, anything else removes that key; no other key is touched. */
  function PersistToken(storage: Storage, token: Option<string>): (r: Storage)
    ensures TokenKey in r <==> IsValidToken(token)
    ensures TokenKey in r ==> Some(r[TokenKey]) == token
    ensures forall k :: k != TokenKey ==> (k in r <==> k in storage)
    ensures forall k :: k != TokenKey && k in r ==> r[k] == storage[k]
  {
    if IsValidToken(token) then storage[TokenKey := token.value] else storage - {TokenKey}
  }

  /** Whatever `handleAuth` leaves under the token key is a valid token: the
      literal "undefined" in particular is never written. */
  lemma PersistedTokenIsValid(storage: Storage, token: Option<string>)
    ensures TokenKey in PersistToken(storage, token) ==>
              PersistToken(storage, token)[TokenKey] !in {"", "undefined"}
  {
  }

  /** The session store behind the authentication context. */
  class SessionStore {
    var state: AuthState
    var storage: Storage
    /** The arguments passed to `setAuthHeader`, oldest first; that function's
        body is not part of this model. */
    ghost var authHeaderLog: seq<Option<string>>

    ghost predicate Valid()
      reads this
    {
      && (state.isLoading ==> state == InitialAuthState && authHeaderLog == [])
      && (!state.isLoading ==>
            Settled(state) && |authHeaderLog| > 0 && authHeaderLog[|authHeaderLog| - 1] == state.token)
      && (forall i :: 0 <= i < |authHeaderLog| ==> ValidToken(authHeaderLog[i]) == authHeaderLog[i])
    }

    /** The provider's first render: loading, signed out, over whatever the
        browser has persisted. */
    constructor (persisted: Storage)
      ensures Valid()
      ensures state == InitialAuthState && storage == persisted && authHeaderLog == []
    {
      state := InitialAuthState;
      storage := persisted;
      authHeaderLog := [];
    }

    /** `resolveAuthState`: publish the state derived from the validated token
        and hand that same validated token to `setAuthHeader`. */
    method ResolveAuthState(token: Option<string>)
      requires Valid()
      modifies this
      ensures Valid()
      ensures state == ResolvedState(token)
      ensures storage == old(storage)
      ensures authHeaderLog == old(authHeaderLog) + [ValidToken(token)]
    {
      var validToken := ValidToken(token);
      state := ResolvedState(token);
      authHeaderLog := authHeaderLog + [validToken];
    }

    /** `handleAuth`: persist and publish a valid token, or clear storage and
        publish the signed-out state for anything else. */
    method HandleAuth(token: Option<string>)
      requires Valid()
      modifies this
      ensures Valid()
      ensures state == ResolvedState(token)
      ensures storage == PersistToken(old(storage), token)
      ensures authHeaderLog == old(authHeaderLog) + [ValidToken(token)]
    {
      if Truthy(token) && token.value != "undefined" {
        storage := storage[TokenKey := token.value];
        ResolveAuthState(token);
      } else {
        storage := storage - {TokenKey};
        ResolveAuthState(None);
      }
    }

    /** `login(token, user)`: the user argument is ignored. */
    method Login(token: Option<string>, user: User)
      requires Valid()
      modifies this
      ensures Valid()
      ensures state == ResolvedState(token)
      ensures storage == PersistToken(old(storage), token)
      ensures authHeaderLog == old(authHeaderLog) + [ValidToken(token)]
    {
      HandleAuth(token);
    }

    /** `register(token, user)`: the same transition as `login`. */
    method Register(token: Option<string>, user: User)
      requires Valid()
      modifies this
      ensures Valid()
      ensures state == ResolvedState(token)
      ensures storage == PersistToken(old(storage), token)
      ensures authHeaderLog == old(authHeaderLog) + [ValidToken(token)]
    {
      HandleAuth(token);
    }

    /** `logout`: drop the persisted token and publish the signed-out state. */
    method Logout()
      requires Valid()
      modifies this
      ensures Valid()
      ensures state == ResolvedState(None)
      ensures !state.isAuthenticated && !state.isLoading
      ensures storage == old(storage) - {TokenKey}
      ensures authHeaderLog == old(authHeaderLog) + [None]
    {
      storage := storage - {TokenKey};
      ResolveAuthState(None);
    }

    /** `checkAuthStatus` on mount: resolve whatever is persisted through the
        same validity check. */
    method CheckAuthStatus()
      requires Valid()
      modifies this
      ensures Valid()
      ensures state == ResolvedState(GetItem(old(storage), TokenKey))
      ensures storage == old(storage)
      ensures authHeaderLog == old(authHeaderLog) + [ValidToken(GetItem(old(storage), TokenKey))]
    {
      var storedToken := GetItem(storage, TokenKey);
      if Truthy(storedToken) {
        ResolveAuthState(storedToken);
      } else {
        ResolveAuthState(None);
      }
    }

    /** The `auth:unauthorized` listener: exactly a logout. */
    method OnUnauthorized()
      requires Valid()
      modifies this
      ensures Valid()
      ensures state == ResolvedState(None)
      ensures storage == old(storage) - {TokenKey}
      ensures authHeaderLog == old(authHeaderLog) + [None]
    {
      Logout();
    }
  }

  /** Logging out twice leaves the same state and storage as logging out once. */
  method LogoutTwiceIsLogoutOnce(store: SessionStore)
    requires store.Valid()
    modifies store
    ensures store.Valid()
    ensures store.state == ResolvedState(None)
    ensures store.storage == old(store.storage) - {TokenKey}
  {
    store.Logout();
    ghost var once := (store.state, store.storage);
    assert once.1 - {TokenKey} == once.1;
    store.Logout();
    assert (store.state, store.storage) == once;
  }

  /** Two stores in the same state reach the same state and storage whether
      one logs in and the other registers, whatever users they are given. */
  method LoginMatchesRegister(a: SessionStore, b: SessionStore, token: Option<string>, u: User, v: User)
    requires a != b && a.Valid() && b.Valid()
    requires a.state == b.state && a.storage == b.storage
    modifies a, b
    ensures a.Valid() && b.Valid()
    ensures a.state == b.state && a.storage == b.storage
  {
    a.Login(token, u);
    b.Register(token, v);
  }

  /** A stored "undefined" restores to the signed-out state on mount. */
  method MountWithStoredUndefined() returns (store: SessionStore)
    ensures store.Valid()
    ensures !store.state.isAuthenticated && !store.state.isLoading && store.state.token == None
  {
    store := new SessionStore(map[TokenKey := "undefined"]);
    store.CheckAuthStatus();
  }
}
