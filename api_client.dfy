/** The shared HTTP client's two interceptors: the request interceptor adds the
    bearer header from storage; the response interceptor passes successes
    through and, on the first 401 of a request, tears the session down and
    sends the browser to the login page. */
module ApiClient {
  import opened Common
  import opened Storage

  const AuthorizationHeader: string := "Authorization"
  const Unauthorized: int := 401

  /** The parts of an axios request config the interceptors read or write. */
  class RequestConfig {
    var url: string
    var headers: map<string, string>
    var retry: bool

    constructor(url: string, headers: map<string, string>)
      ensures this.url == url && this.headers == headers && !this.retry
    {
      this.url := url;
      this.headers := headers;
      this.retry := false;
    }
  }

  /** The request headers once the interceptor has run against `storage`. */
  function WithAuth(headers: map<string, string>, storage: map<string, string>): (r: map<string, string>)
    ensures Truthy(GetItem(storage, TokenKey)) ==>
      r == headers[AuthorizationHeader := "Bearer " + storage[TokenKey]]
    ensures !Truthy(GetItem(storage, TokenKey)) ==> r == headers
  {
    var token := GetItem(storage, TokenKey);
    if Truthy(token) then headers[AuthorizationHeader := "Bearer " + token.value] else headers
  }

  /** Request interceptor. */
  method OnRequest(b: Browser, config: RequestConfig)
    modifies config
    ensures config.headers == WithAuth(old(config.headers), b.storage)
    ensures config.url == old(config.url) && config.retry == old(config.retry)
  {
    var token := GetItem(b.storage, TokenKey);
    if Truthy(token) {
      config.headers := config.headers[AuthorizationHeader := "Bearer " + token.value];
    }
  }

  /** A response as far as the client is concerned. */
  datatype HttpResponse = HttpResponse(status: int, body: string)

  /** Response interceptor, success path: the response comes back as it was,
      and nothing in the browser changes (the method modifies nothing). */
  method OnResponse(b: Browser, response: HttpResponse) returns (r: HttpResponse)
    ensures r == response
  {
    r := response;
  }

  /** A rejected request: `error.response?.status` (None when there is no response). */
  datatype HttpError = HttpError(status: Option<int>, url: string)

  /** What the error interceptor reads and writes: storage, location and the
      request's `_retry` flag. */
  datatype ClientState = ClientState(storage: map<string, string>, location: string, retry: bool)

  /** The error interceptor fires its teardown exactly on a 401 whose request
      has not been flagged yet; the URL plays no part. */
  predicate TearsDown(s: ClientState, e: HttpError) {
    e.status == Some(Unauthorized) && !s.retry
  }

  function ErrorStep(s: ClientState, e: HttpError): (t: ClientState)
    ensures TearsDown(s, e) ==> t == ClientState(Cleared(s.storage), LoginPath, true)
    ensures !TearsDown(s, e) ==> t == s
  {
    if TearsDown(s, e) then ClientState(Cleared(s.storage), LoginPath, true) else s
  }

  /** Response interceptor, error path: the error is always rejected to the caller. */
  method OnError(b: Browser, config: RequestConfig, error: HttpError) returns (rejected: HttpError)
    modifies b, config
    ensures rejected == error
    ensures ClientState(b.storage, b.location, config.retry)
      == ErrorStep(old(ClientState(b.storage, b.location, config.retry)), error)
    ensures config.url == old(config.url) && config.headers == old(config.headers)
  {
    if error.status == Some(Unauthorized) && !config.retry {
      config.retry := true;
      b.storage := b.storage - {TokenKey, UserKey};
      b.location := LoginPath;
    }
    rejected := error;
  }

  /** How an awaited call through the client ends: resolved with the body, or
      rejected with the error the interceptor passed on. */
  datatype Call<T> = Resolved(value: T) | Rejected(error: HttpError)

  /** Storage and location after a fresh request (nothing retries, so its
      `_retry` flag is unset) is rejected with `e`. */
  function AfterReject(storage: map<string, string>, location: string, e: HttpError): (r: (map<string, string>, string))
    ensures e.status == Some(Unauthorized) ==> r == (Cleared(storage), LoginPath)
    ensures e.status != Some(Unauthorized) ==> r == (storage, location)
  {
    var t := ErrorStep(ClientState(storage, location, false), e);
    (t.storage, t.location)
  }

  /** A request to `url` that fails with `e`: its config meets the error
      interceptor, which rejects to the caller. */
  method Reject(b: Browser, url: string, e: HttpError) returns (rejected: HttpError)
    modifies b
    ensures rejected == e
    ensures (b.storage, b.location) == AfterReject(old(b.storage), old(b.location), e)
  {
    var config := new RequestConfig(url, map[]);
    rejected := OnError(b, config, e);
  }

  /** The number of teardowns when the errors `es` reach the interceptor for one request, in order. */
  function Teardowns(s: ClientState, es: seq<HttpError>): nat
    decreases |es|
  {
    if es == [] then 0
    else (if TearsDown(s, es[0]) then 1 else 0) + Teardowns(ErrorStep(s, es[0]), es[1..])
  }

  /** However many errors one request sees, its teardown runs at most once,
      and not at all once the retry flag is set. */
  lemma {:induction false} AtMostOneTeardown(s: ClientState, es: seq<HttpError>)
    ensures Teardowns(s, es) <= (if s.retry then 0 else 1)
    decreases |es|
  {
    if es != [] {
      var t := ErrorStep(s, es[0]);
      AtMostOneTeardown(t, es[1..]);
      if TearsDown(s, es[0]) {
        assert t.retry;
      }
    }
  }

  /** After a first 401 the session keys are gone and the browser is on the
      login page, even when the request was the login call itself. */
  lemma AuthRouteNotExempt(s: ClientState, status: Option<int>)
    requires !s.retry && status == Some(Unauthorized)
    ensures var t := ErrorStep(s, HttpError(status, "/api/auth/login"));
      TokenKey !in t.storage && UserKey !in t.storage && t.location == LoginPath
  {
  }

  /** An error other than 401, or one without a response, changes nothing. */
  lemma OtherErrorsChangeNothing(s: ClientState, e: HttpError)
    requires e.status != Some(Unauthorized)
    ensures ErrorStep(s, e) == s
  {
  }
}
