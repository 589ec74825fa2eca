/** The browser state the session code touches: `localStorage` as a string map
    and `window.location.href`. */
module Storage {
  import opened Common

  const TokenKey: string := "token"
  const UserKey: string := "userData"
  const LoginPath: string := "/login"

  /** `localStorage.getItem(key)`: `None` is null. */
  function GetItem(m: map<string, string>, key: string): (r: Option<string>)
    ensures r.Some? <==> key in m
    ensures r.Some? ==> r.value == m[key]
  {
    if key in m then Some(m[key]) else None
  }

  /** JS truthiness of a nullable string: neither null nor "". */
  predicate Truthy(s: Option<string>) {
    s.Some? && s.value != ""
  }

  /** Storage after removing exactly "token" and "userData". */
  function Cleared(m: map<string, string>): (r: map<string, string>)
    ensures TokenKey !in r && UserKey !in r
    ensures forall k :: k != TokenKey && k != UserKey ==> (k in r <==> k in m)
    ensures forall k :: k in r ==> r[k] == m[k]
  {
    m - {TokenKey, UserKey}
  }

  /** Clearing twice is clearing once. */
  lemma ClearedIdempotent(m: map<string, string>)
    ensures Cleared(Cleared(m)) == Cleared(m)
  {
  }

  class Browser {
    var storage: map<string, string>
    var location: string

    constructor(storage: map<string, string>, location: string)
      ensures this.storage == storage && this.location == location
    {
      this.storage := storage;
      this.location := location;
    }
  }
}
