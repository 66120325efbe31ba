/**
 * The client's HTTP layer (`client/src/lib/api.js`): the `ApiClient` class with
 * its configuration defaults, interceptor lists and `request` retry loop, the
 * `ApiError` class and its status getters, the option objects `get`, `post`,
 * `put`, `patch` and `delete` build, and the legacy `apiRequest` dispatcher.
 * `fetch` is a parameter: the outcome of each attempt, given the URL, the
 * final configuration and the attempt number. Waiting is not modelled; the
 * delays the loop waits are returned instead. `localStorage` is the client's
 * `storage` field.
 */
module Api {
  import opened Wrappers
  import opened Js

  const DefaultBaseUrl: string := "http://localhost:3000"
  const DefaultTimeout: int := 30000
  const DefaultRetryAttempts: int := 3
  const DefaultRetryDelay: int := 1000

  /** Statuses `request` rethrows at once (api.js:143). */
  const NonRetryable: set<int> := {400, 401, 403, 404, 422}

  // ---------------------------------------------------------------------------
  // ApiError

  datatype ApiError = ApiError(message: string, status: int, data: JsValue)

  /** `new ApiError(message, status = 500, data = null)` (api.js:216-222). */
  function NewApiError(message: string, status: Option<int>, data: Option<JsValue>): (e: ApiError)
    ensures e.message == message && e.status == status.GetOr(500) && e.data == data.GetOr(Null)
  {
    ApiError(message, status.GetOr(500), data.GetOr(Null))
  }

  /** The getters of api.js:224-246. */
  predicate IsNetworkError(e: ApiError) { e.status == 0 || Contains(e.message, "NetworkError") }
  predicate IsServerError(e: ApiError) { e.status >= 500 }
  predicate IsClientError(e: ApiError) { e.status >= 400 && e.status < 500 }
  predicate IsUnauthorized(e: ApiError) { e.status == 401 }
  predicate IsForbidden(e: ApiError) { e.status == 403 }
  predicate IsNotFound(e: ApiError) { e.status == 404 }

  /** No error is both a client and a server error; the three named statuses are client errors. */
  lemma StatusClassesDisjoint(e: ApiError)
    ensures !(IsServerError(e) && IsClientError(e))
    ensures IsUnauthorized(e) || IsForbidden(e) || IsNotFound(e) ==> IsClientError(e) && !IsServerError(e)
    ensures e.status in NonRetryable ==> IsClientError(e)
  {
  }

  /** An error built without a status is a server error. */
  lemma DefaultStatusIsServerError(message: string)
    ensures IsServerError(NewApiError(message, None, None)) && !IsClientError(NewApiError(message, None, None))
  {
  }

  // ---------------------------------------------------------------------------
  // Request configuration and interceptors

  /** A request body: none, `JSON.stringify(value)`, a `FormData` object, or a value passed through unchanged. */
  datatype Body = NoBody | JsonText(value: JsValue) | FormBody(form: JsValue) | RawBody(raw: JsValue)

  datatype RequestConfig = RequestConfig(verb: string, headers: map<string, string>, timeout: int, body: Body)

  /** The `options` of `request`: the keys it may set; `None` and `NoBody` are absent keys. */
  datatype Options = Options(verb: Option<string>, headers: Option<map<string, string>>, body: Body)

  /** `{method: 'GET', headers: {'Content-Type': 'application/json'}, timeout, ...options}` (api.js:90-97). */
  function BaseConfig(timeout: int, options: Options): (c: RequestConfig)
    ensures c.verb == options.verb.GetOr("GET")
    ensures c.headers == options.headers.GetOr(map["Content-Type" := "application/json"])
    ensures c.timeout == timeout && c.body == options.body
  {
    RequestConfig(options.verb.GetOr("GET"), options.headers.GetOr(map["Content-Type" := "application/json"]),
                  timeout, options.body)
  }

  /** A request interceptor: the auth interceptor, or one that may return a falsy value (`None`). */
  datatype RequestInterceptor = AuthHeader | Custom(f: RequestConfig -> Option<RequestConfig>)

  /** The auth interceptor (api.js:25-34): a stored, non-empty token becomes a Bearer header. */
  function WithAuth(c: RequestConfig, token: Option<string>): (r: RequestConfig)
    ensures token.Some? && token.value != "" ==> r == c.(headers := c.headers["Authorization" := "Bearer " + token.value])
    ensures !(token.Some? && token.value != "") ==> r == c
  {
    if token.Some? && token.value != "" then c.(headers := c.headers["Authorization" := "Bearer " + token.value]) else c
  }

  /** `interceptor(acc) || acc`. */
  function Step(i: RequestInterceptor, c: RequestConfig, token: Option<string>): RequestConfig {
    match i
    case AuthHeader => WithAuth(c, token)
    case Custom(f) => f(c).GetOr(c)
  }

  /** `applyRequestInterceptors` (api.js:64-68): a left fold in registration order. */
  function ApplyRequestInterceptors(hooks: seq<RequestInterceptor>, c: RequestConfig, token: Option<string>): RequestConfig
    decreases |hooks|
  {
    if hooks == [] then c else ApplyRequestInterceptors(hooks[1..], Step(hooks[0], c, token), token)
  }

  /** A newly registered interceptor runs last, on what the earlier ones produced. */
  lemma {:induction false} InterceptorRunsLast(hooks: seq<RequestInterceptor>, i: RequestInterceptor, c: RequestConfig, token: Option<string>)
    ensures ApplyRequestInterceptors(hooks + [i], c, token) == Step(i, ApplyRequestInterceptors(hooks, c, token), token)
    decreases |hooks|
  {
    if hooks == [] {
      assert [] + [i] == [i];
    } else {
      assert (hooks + [i])[1..] == hooks[1..] + [i];
      InterceptorRunsLast(hooks[1..], i, Step(hooks[0], c, token), token);
    }
  }

  /** An interceptor that returns a falsy value leaves the configuration as it was. */
  lemma FalsyInterceptorKeepsConfig(f: RequestConfig -> Option<RequestConfig>, c: RequestConfig, token: Option<string>)
    requires f(c).None?
    ensures ApplyRequestInterceptors([Custom(f)], c, token) == c
  {
  }

  /** `applyResponseInterceptors` (api.js:70-74). */
  function ApplyResponseInterceptors(fs: seq<JsValue -> JsValue>, v: JsValue): JsValue
    decreases |fs|
  {
    if fs == [] then v else ApplyResponseInterceptors(fs[1..], Or(fs[0](v), v))
  }

  // ---------------------------------------------------------------------------
  // One attempt

  /** What a `fetch` of one attempt gives: a response (with its body, `None` if it is not JSON), or a rejection. */
  datatype FetchOutcome =
    | Responded(ok: bool, status: int, json: Option<JsValue>)
    | NetworkFailure(message: string)

  /** An error `request` may catch: an `ApiError`, or any other error with its message. */
  datatype Failure = Api(error: ApiError) | OtherError(message: string)

  datatype Attempt = Success(data: JsValue) | Failed(failure: Failure)

  /** `errorData.message || \`HTTP ${status}\`` once `errorData.message` has been read as `m` (api.js:119-120). */
  function HttpErrorMessage(status: int, m: JsValue): (msg: string)
    ensures Truthy(m) ==> msg == ToStr(m)
    ensures !Truthy(m) ==> msg == "HTTP " + IntToString(status)
  {
    ToStr(Or(m, Str("HTTP " + IntToString(status))))
  }

  /** The TypeError `errorData.message` throws when the error body is the JSON `null` (or `undefined`). */
  const NullBodyMessage := "Cannot read properties of null (reading 'message')"

  /** The SyntaxError `response.json()` rejects with when a successful response has no JSON body. */
  const NoJsonMessage := "Unexpected end of JSON input"

  const InvalidFormatMessage := "Invalid response format"

  /** The body of `try` in the loop (api.js:105-136), for one attempt. */
  function AttemptResult(o: FetchOutcome, rs: seq<JsValue -> JsValue>): (a: Attempt)
    ensures o.NetworkFailure? ==> a == Failed(OtherError(o.message))
  {
    match o
    case NetworkFailure(m) => Failed(OtherError(m))
    case Responded(ok, status, json) =>
      if !ok then
        var errorData := json.GetOr(Obj(map[]));
        match Member(errorData, "message")
        case None => Failed(OtherError(NullBodyMessage))
        case Some(m) => Failed(Api(NewApiError(HttpErrorMessage(status, m), Some(status), Some(errorData))))
      else if json.None? then Failed(OtherError(NoJsonMessage))
      else
        var final := ApplyResponseInterceptors(rs, json.value);
        if !Truthy(final) || !(final.Obj? || final.Arr?) then Failed(Api(NewApiError(InvalidFormatMessage, Some(500), None)))
        else Success(final)
  }

  /**
   * What an attempt gives for each kind of response: an error status throws
   * an `ApiError` with the body's `message` (or `HTTP <status>`), except for a
   * `null` body, whose `message` cannot be read; a successful response without
   * a JSON body rejects; otherwise the response interceptors' result is the
   * data if it is an object or an array, and an "Invalid response format"
   * error with status 500 if not.
   */
  lemma AttemptCases(o: FetchOutcome, rs: seq<JsValue -> JsValue>)
    ensures var a := AttemptResult(o, rs);
      o.Responded? && !o.ok && (o.json == Some(Null) || o.json == Some(Undefined)) ==> a == Failed(OtherError(NullBodyMessage))
    ensures var a := AttemptResult(o, rs);
      o.Responded? && !o.ok && o.json != Some(Null) && o.json != Some(Undefined) ==>
      var errorData := o.json.GetOr(Obj(map[]));
      a == Failed(Api(ApiError(HttpErrorMessage(o.status, Get(errorData, "message")), o.status, errorData)))
    ensures var a := AttemptResult(o, rs);
      o.Responded? && o.ok && o.json.None? ==> a == Failed(OtherError(NoJsonMessage))
    ensures var a := AttemptResult(o, rs);
      o.Responded? && o.ok && o.json.Some? ==>
      var final := ApplyResponseInterceptors(rs, o.json.value);
      (a.Success? <==> Truthy(final) && (final.Obj? || final.Arr?))
      && (a.Success? ==> a.data == final)
      && (!a.Success? ==> a == Failed(Api(ApiError(InvalidFormatMessage, 500, Null))))
  {
  }

  /** A `null` error body throws a TypeError, not an `ApiError`: the attempt is retried and a 401 keeps the session. */
  lemma NullErrorBodyIsRetried(status: int, rs: seq<JsValue -> JsValue>, es: seq<ErrorInterceptor>, st: map<string, string>)
    ensures var a := AttemptResult(Responded(false, status, Some(Null)), rs);
      a.Failed? && Retryable(a.failure) && AfterErrorInterceptors(es, a.failure, st) == st
  {
  }

  /** The loop goes on after this failure (api.js:143-145). */
  predicate Retryable(f: Failure) {
    !(f.Api? && f.error.status in NonRetryable)
  }

  /** `error.isUnauthorized`: only an `ApiError` has the getter. */
  predicate Unauthorized(f: Failure) {
    f.Api? && IsUnauthorized(f.error)
  }

  /** An error interceptor: the global one that ends the session on a 401, or one with no effect on the model. */
  datatype ErrorInterceptor = ClearSessionOn401 | Observer

  /** The storage after the error interceptors have seen `f` (api.js:76-81, 253-264). */
  function AfterErrorInterceptors(es: seq<ErrorInterceptor>, f: Failure, st: map<string, string>): (r: map<string, string>)
    ensures !Unauthorized(f) || ClearSessionOn401 !in es ==> r == st
    ensures Unauthorized(f) && ClearSessionOn401 in es ==> r == st - {"token", "user"}
  {
    if Unauthorized(f) && ClearSessionOn401 in es then st - {"token", "user"} else st
  }

  /** `Math.pow(2, k)`. */
  function Pow2(k: nat): (r: nat)
    ensures r >= 1
  {
    if k == 0 then 1 else 2 * Pow2(k - 1)
  }

  /** `2^(a+b) == 2^a * 2^b`: the wait after attempt `a + b` is `2^b` times the one after attempt `a`. */
  lemma {:induction false} Pow2Adds(a: nat, b: nat)
    ensures Pow2(a + b) == Pow2(a) * Pow2(b)
    decreases b
  {
    if b > 0 {
      Pow2Adds(a, b - 1);
      assert Pow2(a + b) == 2 * Pow2(a + b - 1);
    }
  }

  /** The waits after the first `n` failed attempts: `retryDelay * 2^k` after attempt k (api.js:153). */
  function Delays(retryDelay: int, n: nat): (ds: seq<int>)
    ensures |ds| == n && forall k :: 0 <= k < n ==> ds[k] == retryDelay * Pow2(k)
  {
    seq(n, k requires 0 <= k < n => retryDelay * Pow2(k))
  }

  /** One more failed attempt adds its wait at the end. */
  lemma DelaysGrow(retryDelay: int, n: nat)
    ensures Delays(retryDelay, n + 1) == Delays(retryDelay, n) + [retryDelay * Pow2(n)]
  {
    assert Delays(retryDelay, n + 1)[..n] == Delays(retryDelay, n);
  }

  /** Each wait is twice the one before. */
  lemma BackoffDoubles(retryDelay: int, n: nat, k: nat)
    requires k + 1 < n
    ensures Delays(retryDelay, n)[k + 1] == 2 * Delays(retryDelay, n)[k]
  {
  }

  /** `${this.baseURL}/api${endpoint}` (api.js:102). */
  function RequestUrl(baseURL: string, endpoint: string): string {
    baseURL + "/api" + endpoint
  }

  datatype RequestResult = Resolved(data: JsValue) | Rejected(failure: Failure) | NoAttempt

  /** Attempt `k` of a request to `url` sent with `cfg`. */
  function AttemptAt(fetch: (string, RequestConfig, nat) -> FetchOutcome, url: string, cfg: RequestConfig,
                     rs: seq<JsValue -> JsValue>, k: nat): Attempt {
    AttemptResult(fetch(url, cfg, k), rs)
  }

  /** The attempt ends the loop: it succeeded, or failed with a status that is not retried. */
  predicate Stops(a: Attempt) {
    a.Success? || !Retryable(a.failure)
  }

  /** How a request settles with the result of its last attempt. */
  function Settled(a: Attempt): (r: RequestResult)
    ensures a.Success? ==> r == Resolved(a.data)
    ensures a.Failed? ==> r == Rejected(a.failure)
  {
    match a
    case Success(d) => Resolved(d)
    case Failed(f) => Rejected(f)
  }

  /**
   * The loop of `request` (api.js:104-155) from attempt `k` on: the number of
   * attempts made and the result. It stops at the first attempt that succeeds
   * or fails with a status that is not retried, or at attempt `ra`.
   */
  function RunFrom(fetch: (string, RequestConfig, nat) -> FetchOutcome, url: string, cfg: RequestConfig,
                   rs: seq<JsValue -> JsValue>, ra: int, k: nat): (p: (nat, RequestResult))
    requires k <= ra
    ensures k + 1 <= p.0 <= ra + 1 && !p.1.NoAttempt?
    decreases ra - k
  {
    var a := AttemptAt(fetch, url, cfg, rs, k);
    if Stops(a) || k == ra then (k + 1, Settled(a)) else RunFrom(fetch, url, cfg, rs, ra, k + 1)
  }

  /** The whole loop: with a negative `retryAttempts` no attempt is made and the result is `undefined`. */
  function Run(fetch: (string, RequestConfig, nat) -> FetchOutcome, url: string, cfg: RequestConfig,
               rs: seq<JsValue -> JsValue>, ra: int): (p: (nat, RequestResult))
    ensures ra < 0 <==> p.1.NoAttempt?
    ensures ra < 0 <==> p.0 == 0
    ensures ra >= 0 ==> p.0 <= ra + 1
  {
    if ra < 0 then (0, NoAttempt) else RunFrom(fetch, url, cfg, rs, ra, 0)
  }

  /**
   * The loop from attempt `k` on ends with an attempt that stops it (unless it
   * is attempt `ra`), and its result is that attempt's.
   */
  lemma {:induction false} RunFromLast(fetch: (string, RequestConfig, nat) -> FetchOutcome, url: string,
                                       cfg: RequestConfig, rs: seq<JsValue -> JsValue>, ra: int, k: nat)
    requires k <= ra
    ensures var p := RunFrom(fetch, url, cfg, rs, ra, k);
      (p.0 - 1 < ra ==> Stops(AttemptAt(fetch, url, cfg, rs, p.0 - 1)))
      && p.1 == Settled(AttemptAt(fetch, url, cfg, rs, p.0 - 1))
    decreases ra - k
  {
    if !(Stops(AttemptAt(fetch, url, cfg, rs, k)) || k == ra) {
      assert RunFrom(fetch, url, cfg, rs, ra, k) == RunFrom(fetch, url, cfg, rs, ra, k + 1);
      RunFromLast(fetch, url, cfg, rs, ra, k + 1);
    }
  }

  /** Every attempt the loop makes from `k` on before its last one failed with a retryable error. */
  lemma {:induction false} RunFromEarlier(fetch: (string, RequestConfig, nat) -> FetchOutcome, url: string,
                                          cfg: RequestConfig, rs: seq<JsValue -> JsValue>, ra: int, k: nat, i: nat)
    requires k <= i <= ra && i < RunFrom(fetch, url, cfg, rs, ra, k).0 - 1
    ensures AttemptAt(fetch, url, cfg, rs, i).Failed? && Retryable(AttemptAt(fetch, url, cfg, rs, i).failure)
    decreases ra - k
  {
    if i > k {
      RunFromEarlier(fetch, url, cfg, rs, ra, k + 1, i);
    }
  }

  /**
   * Conversely, `n` attempts whose first `n - 1` failed with retryable errors
   * and whose last stops the loop (or is attempt `ra`) are what the loop makes
   * from any attempt `j` before the last: the description above determines
   * the loop's outcome.
   */
  lemma {:induction false} RunFromSettles(fetch: (string, RequestConfig, nat) -> FetchOutcome, url: string,
                                          cfg: RequestConfig, rs: seq<JsValue -> JsValue>, ra: int,
                                          n: nat, r: RequestResult, j: nat)
    requires 1 <= n <= ra + 1 && j <= n - 1
    requires forall k: nat :: k < n - 1 ==>
      AttemptAt(fetch, url, cfg, rs, k).Failed? && Retryable(AttemptAt(fetch, url, cfg, rs, k).failure)
    requires n - 1 < ra ==> Stops(AttemptAt(fetch, url, cfg, rs, n - 1))
    requires r == Settled(AttemptAt(fetch, url, cfg, rs, n - 1))
    ensures RunFrom(fetch, url, cfg, rs, ra, j) == (n, r)
    decreases n - 1 - j
  {
    if j < n - 1 {
      assert !Stops(AttemptAt(fetch, url, cfg, rs, j));
      RunFromSettles(fetch, url, cfg, rs, ra, n, r, j + 1);
    }
  }

  /** `getAuthToken` on a given storage (api.js:38-40). */
  function TokenIn(st: map<string, string>): (t: Option<string>)
    ensures t.Some? <==> "token" in st
    ensures t.Some? ==> t.value == st["token"]
  {
    if "token" in st then Some(st["token"]) else None
  }

  /** The storage once `apiRequest` has handed a truthy `token` to `setAuthToken` (api.js:360-362). */
  function StoreToken(st: map<string, string>, token: JsValue): (r: map<string, string>)
    ensures Truthy(token) ==> r == st["token" := ToStr(token)]
    ensures !Truthy(token) ==> r == st
  {
    if Truthy(token) then st["token" := ToStr(token)] else st
  }

  /** The configuration a request is sent with: the defaults and options, then the request interceptors. */
  function ConfigFor(hooks: seq<RequestInterceptor>, timeout: int, st: map<string, string>, options: Options): RequestConfig {
    ApplyRequestInterceptors(hooks, BaseConfig(timeout, options), TokenIn(st))
  }

  /** `config.x || default`: a 0 or a missing value falls back. */
  function NumberOr(v: Option<int>, d: int): (r: int)
    ensures v.None? || v.value == 0 ==> r == d
    ensures v.Some? && v.value != 0 ==> r == v.value
  {
    if v.Some? && v.value != 0 then v.value else d
  }

  /** The `config` argument of the constructor. */
  datatype ClientOptions = ClientOptions(baseURL: Option<string>, timeout: Option<int>,
                                         retryAttempts: Option<int>, retryDelay: Option<int>)

  /** `import.meta.env.VITE_API_URL || 'http://localhost:3000'`, then `config.baseURL || ...` (api.js:5, 14). */
  function BaseUrlOf(options: ClientOptions, envUrl: string): string {
    if options.baseURL.Some? && options.baseURL.value != "" then options.baseURL.value
    else if envUrl != "" then envUrl else DefaultBaseUrl
  }

  /** A configured 0 is falsy: it gives the default, so a client cannot be configured not to retry. */
  lemma ZeroRetriesFallsBack(options: ClientOptions)
    requires options.retryAttempts == Some(0)
    ensures NumberOr(options.retryAttempts, DefaultRetryAttempts) == 3
  {
  }

  class ApiClient {
    var baseURL: string
    var timeout: int
    var retryAttempts: int
    var retryDelay: int
    var requestInterceptors: seq<RequestInterceptor>
    var responseInterceptors: seq<JsValue -> JsValue>
    var errorInterceptors: seq<ErrorInterceptor>
    /** `localStorage`. */
    var storage: map<string, string>

    /** The constructor (api.js:13-35): defaults for falsy options, and the auth interceptor first. */
    constructor (options: ClientOptions, envUrl: string, st: map<string, string>)
      ensures baseURL == BaseUrlOf(options, envUrl)
      ensures timeout == NumberOr(options.timeout, DefaultTimeout)
      ensures retryAttempts == NumberOr(options.retryAttempts, DefaultRetryAttempts)
      ensures retryDelay == NumberOr(options.retryDelay, DefaultRetryDelay)
      ensures requestInterceptors == [AuthHeader] && responseInterceptors == [] && errorInterceptors == []
      ensures storage == st
    {
      baseURL := BaseUrlOf(options, envUrl);
      timeout := NumberOr(options.timeout, DefaultTimeout);
      retryAttempts := NumberOr(options.retryAttempts, DefaultRetryAttempts);
      retryDelay := NumberOr(options.retryDelay, DefaultRetryDelay);
      requestInterceptors := [AuthHeader];
      responseInterceptors := [];
      errorInterceptors := [];
      storage := st;
    }

    /** `getAuthToken` (api.js:38-40). */
    function AuthToken(): Option<string>
      reads this
    {
      TokenIn(storage)
    }

    /** `setAuthToken` (api.js:42-48). */
    method SetAuthToken(token: JsValue)
      modifies this
      ensures Truthy(token) ==> storage == old(storage)["token" := ToStr(token)]
      ensures !Truthy(token) ==> storage == old(storage) - {"token"}
      ensures requestInterceptors == old(requestInterceptors) && responseInterceptors == old(responseInterceptors)
      ensures errorInterceptors == old(errorInterceptors)
      ensures baseURL == old(baseURL) && timeout == old(timeout)
      ensures retryAttempts == old(retryAttempts) && retryDelay == old(retryDelay)
    {
      if Truthy(token) {
        storage := storage["token" := ToStr(token)];
      } else {
        storage := storage - {"token"};
      }
    }

    /** `addRequestInterceptor` (api.js:51-53): appended, so it runs after those before it. */
    method AddRequestInterceptor(i: RequestInterceptor)
      modifies this
      ensures requestInterceptors == old(requestInterceptors) + [i]
      ensures responseInterceptors == old(responseInterceptors) && errorInterceptors == old(errorInterceptors)
      ensures storage == old(storage) && baseURL == old(baseURL) && timeout == old(timeout)
      ensures retryAttempts == old(retryAttempts) && retryDelay == old(retryDelay)
    {
      requestInterceptors := requestInterceptors + [i];
    }

    /** `addResponseInterceptor` (api.js:55-57). */
    method AddResponseInterceptor(f: JsValue -> JsValue)
      modifies this
      ensures responseInterceptors == old(responseInterceptors) + [f]
      ensures requestInterceptors == old(requestInterceptors) && errorInterceptors == old(errorInterceptors)
      ensures storage == old(storage) && baseURL == old(baseURL) && timeout == old(timeout)
      ensures retryAttempts == old(retryAttempts) && retryDelay == old(retryDelay)
    {
      responseInterceptors := responseInterceptors + [f];
    }

    /** `addErrorInterceptor` (api.js:59-61). */
    method AddErrorInterceptor(e: ErrorInterceptor)
      modifies this
      ensures errorInterceptors == old(errorInterceptors) + [e]
      ensures requestInterceptors == old(requestInterceptors) && responseInterceptors == old(responseInterceptors)
      ensures storage == old(storage) && baseURL == old(baseURL) && timeout == old(timeout)
      ensures retryAttempts == old(retryAttempts) && retryDelay == old(retryDelay)
    {
      errorInterceptors := errorInterceptors + [e];
    }

    /** The configuration every attempt of a request is sent with. */
    function FinalConfig(options: Options): RequestConfig
      reads this
    {
      ConfigFor(requestInterceptors, timeout, storage, options)
    }

    /** What `apiRequest` with this `token` settles to for `call`, the client being as it is now. */
    function Outcome(call: Call, token: JsValue, fetch: (string, RequestConfig, nat) -> FetchOutcome): RequestResult
      reads this
    {
      Run(fetch, RequestUrl(baseURL, call.endpoint),
          ConfigFor(requestInterceptors, timeout, StoreToken(storage, token), call.options),
          responseInterceptors, retryAttempts).1
    }

    /**
     * `request` (api.js:89-156). Attempt k is made only when attempts 0..k-1
     * all failed with a retryable error; the loop stops at the first success,
     * the first non-retryable error or attempt `retryAttempts`, whose result
     * it returns. `delays` are the waits between attempts. A negative
     * `retryAttempts` makes no attempt at all and resolves to `undefined`.
     */
    method Request(endpoint: string, options: Options, fetch: (string, RequestConfig, nat) -> FetchOutcome)
      returns (r: RequestResult, attempts: nat, delays: seq<int>)
      modifies this
      ensures retryAttempts < 0 ==> r == NoAttempt && attempts == 0 && delays == [] && storage == old(storage)
      ensures retryAttempts >= 0 ==> 1 <= attempts <= retryAttempts + 1
      ensures retryAttempts >= 0 ==>
        var url, cfg, rs := RequestUrl(baseURL, endpoint), old(FinalConfig(options)), responseInterceptors;
        (forall k: nat :: k < attempts - 1 ==>
           (AttemptAt(fetch, url, cfg, rs, k).Failed? && Retryable(AttemptAt(fetch, url, cfg, rs, k).failure)))
        && (attempts - 1 < retryAttempts ==> Stops(AttemptAt(fetch, url, cfg, rs, attempts - 1)))
        && r == Settled(AttemptAt(fetch, url, cfg, rs, attempts - 1))
        && delays == Delays(retryDelay, attempts - 1)
        && storage == (if r.Rejected? then AfterErrorInterceptors(errorInterceptors, r.failure, old(storage)) else old(storage))
      ensures baseURL == old(baseURL) && timeout == old(timeout) && retryAttempts == old(retryAttempts)
      ensures retryDelay == old(retryDelay) && requestInterceptors == old(requestInterceptors)
      ensures responseInterceptors == old(responseInterceptors) && errorInterceptors == old(errorInterceptors)
    {
      var finalConfig := FinalConfig(options);
      var url := RequestUrl(baseURL, endpoint);
      r, attempts, delays := NoAttempt, 0, [];
      var attempt: nat := 0;
      while attempt <= retryAttempts
        invariant attempts == attempt
        invariant attempt == 0 || attempt <= retryAttempts
        invariant forall k: nat :: k < attempt ==>
          (AttemptAt(fetch, url, finalConfig, responseInterceptors, k).Failed?
           && Retryable(AttemptAt(fetch, url, finalConfig, responseInterceptors, k).failure))
        invariant delays == Delays(retryDelay, attempt)
        invariant storage == old(storage)
        invariant baseURL == old(baseURL) && timeout == old(timeout) && retryAttempts == old(retryAttempts)
        invariant retryDelay == old(retryDelay) && requestInterceptors == old(requestInterceptors)
        invariant responseInterceptors == old(responseInterceptors) && errorInterceptors == old(errorInterceptors)
        decreases retryAttempts - attempt
      {
        var result := AttemptAt(fetch, url, finalConfig, responseInterceptors, attempt);
        attempts := attempts + 1;
        if result.Success? {
          r := Resolved(result.data);
          return;
        }
        storage := AfterErrorInterceptors(errorInterceptors, result.failure, storage);
        if !Retryable(result.failure) || attempt == retryAttempts {
          r := Rejected(result.failure);
          return;
        }
        assert !Unauthorized(result.failure);
        DelaysGrow(retryDelay, attempt);
        delays := delays + [retryDelay * Pow2(attempt)];
        attempt := attempt + 1;
      }
    }
  }

  // ---------------------------------------------------------------------------
  // The method helpers and apiRequest

  /** A call of `request`: the endpoint and the options. */
  datatype Call = Call(endpoint: string, options: Options)

  /** The data a `post` or `put` is given: a `FormData` object, or any other value. */
  datatype PostData = Form(form: JsValue) | Data(value: JsValue)

  predicate UnreservedChar(c: char) {
    IsAsciiAlnum(c) || c == '*' || c == '-' || c == '.' || c == '_'
  }

  function HexDigit(n: int): char
    requires 0 <= n < 16
  {
    if n < 10 then ('0' as int + n) as char else ('A' as int + n - 10) as char
  }

  function PercentByte(b: int): string
    requires 0 <= b < 256
  {
    ['%', HexDigit(b / 16), HexDigit(b % 16)]
  }

  /** The UTF-8 bytes of a code point. */
  function Utf8(c: char): (bs: seq<int>)
    ensures 1 <= |bs| <= 4 && forall k :: 0 <= k < |bs| ==> 0 <= bs[k] < 256
  {
    var n := c as int;
    if n < 0x80 then [n]
    else if n < 0x800 then [0xC0 + n / 64, 0x80 + n % 64]
    else if n < 0x10000 then [0xE0 + n / 4096, 0x80 + (n / 64) % 64, 0x80 + n % 64]
    else [0xF0 + (n / 262144) % 8, 0x80 + (n / 4096) % 64, 0x80 + (n / 64) % 64, 0x80 + n % 64]
  }

  /** One character in `application/x-www-form-urlencoded`, as `URLSearchParams` writes it. */
  function FormEncodeChar(c: char): string {
    if UnreservedChar(c) then [c]
    else if c == ' ' then "+"
    else
      var bs := Utf8(c);
      PercentBytes(bs)
  }

  function PercentBytes(bs: seq<int>): string
    requires forall k :: 0 <= k < |bs| ==> 0 <= bs[k] < 256
    decreases |bs|
  {
    if bs == [] then "" else PercentByte(bs[0]) + PercentBytes(bs[1..])
  }

  function FormEncode(s: string): string
    decreases |s|
  {
    if s == [] then "" else FormEncodeChar(s[0]) + FormEncode(s[1..])
  }

  /** No encoded text contains the separators `&`, `=` or `?`. */
  lemma {:induction false} FormEncodeHasNoSeparator(s: string)
    ensures '&' !in FormEncode(s) && '=' !in FormEncode(s) && '?' !in FormEncode(s)
    decreases |s|
  {
    if s != [] {
      FormEncodeHasNoSeparator(s[1..]);
      var c := s[0];
      if !UnreservedChar(c) && c != ' ' {
        PercentBytesShape(Utf8(c));
      }
    }
  }

  lemma {:induction false} PercentBytesShape(bs: seq<int>)
    requires forall k :: 0 <= k < |bs| ==> 0 <= bs[k] < 256
    ensures '&' !in PercentBytes(bs) && '=' !in PercentBytes(bs) && '?' !in PercentBytes(bs)
    decreases |bs|
  {
    if bs != [] {
      PercentBytesShape(bs[1..]);
    }
  }

  /** `new URLSearchParams(params).toString()`, for the object's properties in order. */
  function QueryString(params: seq<(string, JsValue)>): (q: string)
    ensures params == [] <==> q == []
    decreases |params|
  {
    if params == [] then ""
    else
      var pair := FormEncode(params[0].0) + "=" + FormEncode(ToStr(params[0].1));
      if |params| == 1 then pair else pair + "&" + QueryString(params[1..])
  }

  /** `get` (api.js:159-163): the query joins the endpoint with `?` only when it is not empty. */
  function GetCall(endpoint: string, params: seq<(string, JsValue)>): (c: Call)
    ensures params == [] ==> c.endpoint == endpoint
    ensures params != [] ==> c.endpoint == endpoint + "?" + QueryString(params)
    ensures c.options == Options(None, None, NoBody)
  {
    var qs := QueryString(params);
    Call(if qs != "" then endpoint + "?" + qs else endpoint, Options(None, None, NoBody))
  }

  /**
   * `post` and `put` (api.js:165-198): `FormData` goes as it is with no headers
   * (the browser sets the boundary); anything else as JSON text.
   */
  function SendCall(verb: string, endpoint: string, data: PostData): (c: Call)
    ensures c.endpoint == endpoint && c.options.verb == Some(verb)
    ensures data.Form? ==> c.options.headers == Some(map[]) && c.options.body == FormBody(data.form)
    ensures data.Data? ==> c.options.headers == Some(map["Content-Type" := "application/json"]) && c.options.body == JsonText(data.value)
  {
    match data
    case Form(f) => Call(endpoint, Options(Some(verb), Some(map[]), FormBody(f)))
    case Data(v) => Call(endpoint, Options(Some(verb), Some(map["Content-Type" := "application/json"]), JsonText(v)))
  }

  /** `patch` (api.js:200-206): always JSON. */
  function PatchCall(endpoint: string, data: JsValue): (c: Call)
    ensures c.options == Options(Some("PATCH"), Some(map["Content-Type" := "application/json"]), JsonText(data))
  {
    Call(endpoint, Options(Some("PATCH"), Some(map["Content-Type" := "application/json"]), JsonText(data)))
  }

  /** `delete` (api.js:208-212). */
  function DeleteCall(endpoint: string): (c: Call)
    ensures c.options == Options(Some("DELETE"), None, NoBody)
  {
    Call(endpoint, Options(Some("DELETE"), None, NoBody))
  }

  /** `data = {}`: the default a missing body gets. */
  function DataOrEmpty(body: JsValue): JsValue {
    if body.Undefined? then Obj(map[]) else body
  }

  /**
   * The call `apiRequest` makes for `method` (api.js:367-380), matched case-
   * insensitively. A body is sent as JSON data; any other method goes to
   * `request` with that method and the body, and with no other option.
   */
  function Dispatch(path: string, verb: string, body: JsValue): (c: Call)
    ensures Lower(verb) == "get" ==> c == GetCall(path, [])
    ensures Lower(verb) == "post" ==> c == SendCall("POST", path, Data(DataOrEmpty(body)))
    ensures Lower(verb) == "put" ==> c == SendCall("PUT", path, Data(DataOrEmpty(body)))
    ensures Lower(verb) == "patch" ==> c == PatchCall(path, DataOrEmpty(body))
    ensures Lower(verb) == "delete" ==> c == DeleteCall(path)
    ensures Lower(verb) !in {"get", "post", "put", "patch", "delete"} ==>
      c == Call(path, Options(Some(verb), None, if body.Undefined? then NoBody else RawBody(body)))
    ensures c.endpoint == path
  {
    var m := Lower(verb);
    if m == "get" then GetCall(path, [])
    else if m == "post" then SendCall("POST", path, Data(DataOrEmpty(body)))
    else if m == "put" then SendCall("PUT", path, Data(DataOrEmpty(body)))
    else if m == "patch" then PatchCall(path, DataOrEmpty(body))
    else if m == "delete" then DeleteCall(path)
    else Call(path, Options(Some(verb), None, if body.Undefined? then NoBody else RawBody(body)))
  }

  /** The error `apiRequest` rethrows (api.js:381-386): the message or a default, and the status if any. */
  datatype LegacyError = LegacyError(message: string, status: Option<int>)

  function Legacy(f: Failure): (e: LegacyError)
    ensures f.Api? ==> e.status == Some(f.error.status)
    ensures f.OtherError? ==> e.status.None?
    ensures e.message != ""
  {
    match f
    case Api(err) => LegacyError(if err.message != "" then err.message else "Request failed", Some(err.status))
    case OtherError(m) => LegacyError(if m != "" then m else "Request failed", None)
  }

  datatype LegacyResult = Ok(data: JsValue) | Threw(error: LegacyError) | Nothing

  /** The paths the client's calls go to: `/api` is prefixed to every endpoint. */
  lemma UrlsArePrefixed(baseURL: string, endpoint: string)
    ensures StartsWith(RequestUrl(baseURL, endpoint), baseURL + "/api")
  {
    assert RequestUrl(baseURL, endpoint)[..|baseURL + "/api"|] == baseURL + "/api";
  }

  /**
   * `apiRequest` (api.js:359-387): a truthy token is stored first (and so
   * sent by the auth interceptor), then the call `Dispatch` picks is made.
   */
  method ApiRequest(client: ApiClient, path: string, verb: Option<string>, body: JsValue, token: JsValue,
                    fetch: (string, RequestConfig, nat) -> FetchOutcome)
    returns (call: Call, inner: RequestResult, r: LegacyResult)
    modifies client
    ensures call == Dispatch(path, verb.GetOr("GET"), body)
    ensures inner.Resolved? ==> r == Ok(inner.data)
    ensures inner.Rejected? ==> r == Threw(Legacy(inner.failure))
    ensures inner.NoAttempt? ==> r == Nothing
    ensures inner == old(client.Outcome(call, token, fetch))
    ensures inner.NoAttempt? <==> old(client.retryAttempts) < 0
    ensures client.storage == (if inner.Rejected?
                               then AfterErrorInterceptors(old(client.errorInterceptors), inner.failure, StoreToken(old(client.storage), token))
                               else StoreToken(old(client.storage), token))
    ensures client.baseURL == old(client.baseURL) && client.timeout == old(client.timeout)
    ensures client.retryAttempts == old(client.retryAttempts) && client.retryDelay == old(client.retryDelay)
    ensures client.requestInterceptors == old(client.requestInterceptors)
    ensures client.responseInterceptors == old(client.responseInterceptors)
    ensures client.errorInterceptors == old(client.errorInterceptors)
  {
    if Truthy(token) {
      client.SetAuthToken(token);
    }
    call := Dispatch(path, verb.GetOr("GET"), body);
    assert client.storage == StoreToken(old(client.storage), token);
    ghost var cfg := client.FinalConfig(call.options);
    var attempts, delays;
    inner, attempts, delays := client.Request(call.endpoint, call.options, fetch);
    if client.retryAttempts >= 0 {
      RunFromSettles(fetch, RequestUrl(client.baseURL, call.endpoint), cfg, client.responseInterceptors,
                     client.retryAttempts, attempts, inner, 0);
    }
    match inner
    case Resolved(d) => r := Ok(d);
    case Rejected(f) => r := Threw(Legacy(f));
    case NoAttempt => r := Nothing;
  }

  /** With only the auth interceptor, a stored token is the request's Bearer header. */
  lemma StoredTokenIsSent(c: RequestConfig, token: string)
    requires token != ""
    ensures ApplyRequestInterceptors([AuthHeader], c, Some(token)).headers["Authorization"] == "Bearer " + token
  {
  }
}
