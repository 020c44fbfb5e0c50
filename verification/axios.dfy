/** The configured HTTP client (lib/axios.ts): its base URL and the request
    interceptor that attaches the stored token as a bearer credential. */
module Axios {
  import opened Wrappers
  import opened Browser
  import Types
  import AuthContext

  const DefaultApiUrl: string := "http://127.0.0.1:8000/api"
  const AuthorizationHeader: string := "Authorization"
  const BearerPrefix: string := "Bearer "

  /** `process.env.NEXT_PUBLIC_API_URL || default`; the environment value is an input. */
  function ApiUrl(env: Option<string>): (url: string)
    ensures Truthy(env) ==> url == env.value
    ensures !Truthy(env) ==> url == DefaultApiUrl
    ensures url != ""
  {
    if Truthy(env) then env.value else DefaultApiUrl
  }

  /** The Authorization value the interceptor attaches, if any: the check is
      truthiness only. */
  function AuthorizationFor(storage: Storage): (h: Option<string>)
    ensures h.Some? <==> Truthy(GetItem(storage, TokenKey))
    ensures h.Some? ==> h.value == BearerPrefix + storage[TokenKey]
  {
    var token := GetItem(storage, TokenKey);
    if Truthy(token) then Some(BearerPrefix + token.value) else None
  }

  /** The bearer token can be read back from the header it produced. */
  lemma BearerTokenRecoverable(storage: Storage)
    requires AuthorizationFor(storage).Some?
    ensures AuthorizationFor(storage).value[..|BearerPrefix|] == BearerPrefix
    ensures Some(AuthorizationFor(storage).value[|BearerPrefix|..]) == GetItem(storage, TokenKey)
  {
  }

  /** The request configuration the interceptor receives and returns. */
  class RequestConfig {
    var url: string
    var headers: map<string, string>
    var body: Option<map<string, string>>

    constructor (url: string, headers: map<string, string>, body: Option<map<string, string>>)
      ensures this.url == url && this.headers == headers && this.body == body
    {
      this.url := url;
      this.headers := headers;
      this.body := body;
    }
  }

  /** The request interceptor: set `Authorization: Bearer <token>` when the
      stored token is truthy, leave the headers alone otherwise, and hand back
      the same configuration object. */
  method InterceptRequest(config: RequestConfig, storage: Storage) returns (out: RequestConfig)
    modifies config`headers
    ensures out == config
    ensures AuthorizationFor(storage).Some? ==>
              config.headers == old(config.headers)[AuthorizationHeader := AuthorizationFor(storage).value]
    ensures AuthorizationFor(storage).None? ==> config.headers == old(config.headers)
  {
    var token := GetItem(storage, TokenKey);
    if Truthy(token) {
      config.headers := config.headers[AuthorizationHeader := BearerPrefix + token.value];
    }
    out := config;
  }

  /** The interceptor is looser than the session store: a stored "undefined"
      is sent as "Bearer undefined" although the store treats it as no token. */
  lemma StoredUndefinedIsStillSent()
    ensures var storage := map[TokenKey := "undefined"];
            AuthorizationFor(storage) == Some("Bearer undefined")
            && AuthContext.ValidToken(GetItem(storage, TokenKey)) == None
  {
    assert BearerPrefix + "undefined" == "Bearer undefined";
  }

  /** Storage written by login or register yields a header exactly for a
      valid token, and then it carries that token; after a logout no header
      is attached. */
  lemma HeaderFollowsSessionStorage(storage: Storage, token: Option<string>)
    ensures AuthorizationFor(AuthContext.PersistToken(storage, token)) ==
              if AuthContext.IsValidToken(token) then Some(BearerPrefix + token.value) else None
    ensures AuthorizationFor(storage - {TokenKey}) == None
  {
  }

  /** After a login with a valid token, the next request carries that token. */
  method LoginThenRequest(store: AuthContext.SessionStore, config: RequestConfig, token: string)
    requires store.Valid() && AuthContext.IsValidToken(Some(token))
    modifies store, config`headers
    ensures store.state.isAuthenticated
    ensures config.headers == old(config.headers)[AuthorizationHeader := BearerPrefix + token]
  {
    store.Login(Some(token), Types.User(0, "Usuario", ""));
    HeaderFollowsSessionStorage(old(store.storage), Some(token));
    var sent := InterceptRequest(config, store.storage);
  }
}
