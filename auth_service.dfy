/** `authService`: login and register store the session on success, logout
    removes it, and `getCurrentUser` reads the cached user back. */
module AuthService {
  import opened Common
  import opened Types
  import opened Storage
  import opened UserCodec
  import ApiClient

  const LoginUrl: string := "/api/auth/login"
  const RegisterUrl: string := "/api/auth/register"

  /** Storage after a login or register response arrives: on `success`, the
      token under "token" and the serialised user under "userData". */
  function StoreSession(m: map<string, string>, data: AuthResponse): (r: map<string, string>)
    ensures data.success ==> r == m[TokenKey := data.token][UserKey := Stringify(data.user)]
    ensures !data.success ==> r == m
  {
    if data.success then m[TokenKey := data.token][UserKey := Stringify(data.user)] else m
  }

  /** `login(payload)`: `response` is how the awaited POST ends. A rejected
      call went through the error interceptor (a 401 tears the session down)
      and propagates; a resolved one stores the session when `success` holds.
      The body is returned as received. */
  method Login(b: Browser, response: ApiClient.Call<AuthResponse>) returns (r: ApiClient.Call<AuthResponse>)
    modifies b
    ensures r == response
    ensures response.Resolved? ==>
      b.storage == StoreSession(old(b.storage), response.value) && b.location == old(b.location)
    ensures response.Rejected? ==>
      (b.storage, b.location) == ApiClient.AfterReject(old(b.storage), old(b.location), response.error)
  {
    r := response;
    match response
    case Resolved(data) =>
      if data.success {
        b.storage := b.storage[TokenKey := data.token];
        b.storage := b.storage[UserKey := Stringify(data.user)];
      }
    case Rejected(e) =>
      var _ := ApiClient.Reject(b, LoginUrl, e);
  }

  /** `register(payload)`: the same storage effect and result as `login`. */
  method Register(b: Browser, response: ApiClient.Call<AuthResponse>) returns (r: ApiClient.Call<AuthResponse>)
    modifies b
    ensures r == response
    ensures response.Resolved? ==>
      b.storage == StoreSession(old(b.storage), response.value) && b.location == old(b.location)
    ensures response.Rejected? ==>
      (b.storage, b.location) == ApiClient.AfterReject(old(b.storage), old(b.location), response.error)
  {
    r := response;
    match response
    case Resolved(data) =>
      if data.success {
        b.storage := b.storage[TokenKey := data.token];
        b.storage := b.storage[UserKey := Stringify(data.user)];
      }
    case Rejected(e) =>
      var _ := ApiClient.Reject(b, RegisterUrl, e);
  }

  /** `logout()`: removes exactly the two session keys. */
  method Logout(b: Browser)
    modifies b
    ensures b.storage == Cleared(old(b.storage))
    ensures b.location == old(b.location)
  {
    b.storage := b.storage - {TokenKey, UserKey};
  }

  /** `getCurrentUser()`: null when "userData" is absent or empty; otherwise
      the parsed user, or `Err` where `JSON.parse` would throw. */
  function GetCurrentUser(m: map<string, string>): (r: Result<Option<User>>)
    ensures r == Ok(None) <==> !Truthy(GetItem(m, UserKey))
    ensures r.Ok? && r.value.Some? ==> UserKey in m && Parse(m[UserKey]) == Some(r.value.value)
    ensures r.Err? ==> UserKey in m && Parse(m[UserKey]).None?
  {
    var stored := GetItem(m, UserKey);
    if !Truthy(stored) then Ok(None)
    else match Parse(stored.value)
      case None => Err("SyntaxError")
      case Some(u) => Ok(Some(u))
  }

  /** After a successful login or register, `getCurrentUser` returns that response's user. */
  lemma CurrentUserAfterLogin(m: map<string, string>, data: AuthResponse)
    requires data.success
    ensures GetCurrentUser(StoreSession(m, data)) == Ok(Some(data.user))
  {
    ParseStringify(data.user);
  }

  /** After logout nobody is cached. */
  lemma CurrentUserAfterLogout(m: map<string, string>)
    ensures GetCurrentUser(Cleared(m)) == Ok(None)
  {
  }

  /** A login or register the server refuses with 401 ends logged out, on the
      login page; any other refusal leaves storage and location as they were. */
  lemma RejectedAuthCall(m: map<string, string>, location: string, e: ApiClient.HttpError)
    ensures var r := ApiClient.AfterReject(m, location, e);
      && (e.status == Some(ApiClient.Unauthorized) ==> GetCurrentUser(r.0) == Ok(None) && TokenKey !in r.0 && r.1 == LoginPath)
      && (e.status != Some(ApiClient.Unauthorized) ==> GetCurrentUser(r.0) == GetCurrentUser(m) && r.1 == location)
  {
  }

  /** Login with `{token: t, user}`, then a request: it carries
      `Authorization: Bearer t`; a first 401 on it empties both session keys
      and lands on the login page. */
  lemma LoginRequestUnauthorized(m: map<string, string>, data: AuthResponse,
                                 headers: map<string, string>, location: string, url: string)
    requires data.success && data.token != ""
    ensures var after := StoreSession(m, data);
      && ApiClient.WithAuth(headers, after)[ApiClient.AuthorizationHeader] == "Bearer " + data.token
      && var t := ApiClient.ErrorStep(ApiClient.ClientState(after, location, false),
                                      ApiClient.HttpError(Some(ApiClient.Unauthorized), url));
         TokenKey !in t.storage && UserKey !in t.storage && t.location == LoginPath
         && GetCurrentUser(t.storage) == Ok(None)
  {
    var after := StoreSession(m, data);
    assert GetItem(after, TokenKey) == Some(data.token);
  }
}
