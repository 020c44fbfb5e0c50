/** The browser facilities the client reads: `localStorage` as a finite map from
    keys to strings, and JavaScript truthiness of a possibly missing string. */
module Browser {
  import opened Wrappers

  type Storage = map<string, string>

  /** The single key under which the session token is persisted. */
  const TokenKey: string := "jwt_token"

  /** `localStorage.getItem(key)`: the stored string, or null when absent. */
  function GetItem(storage: Storage, key: string): (r: Option<string>)
    ensures r.Some? <==> key in storage
    ensures r.Some? ==> r.value == storage[key]
  {
    if key in storage then Some(storage[key]) else None
  }

  /** A `string | null | undefined` is truthy exactly when it is a non-empty string. */
  predicate Truthy(s: Option<string>) {
    s.Some? && s.value != ""
  }
}
