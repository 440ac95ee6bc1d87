/** The frontend's HTTP client: its base URL, the path of every backend
    endpoint it calls, and the two interceptors, one adding the stored bearer
    token to each request, one logging out on a 401 answer. The browser's
    local storage and location are the fields of a `Browser` object. */
module Api {
  import opened Optional
  import opened Decimal
  import opened Entities
  import Text

  const DefaultBaseURL: string := "http://localhost:8080/api/v1"

  /** The configured base URL (the build environment's value) unless it is
      absent or empty. */
  function BaseURL(configured: Option<string>): (url: string)
    ensures url != ""
    ensures configured.Some? && configured.value != "" ==> url == configured.value
    ensures configured.None? || configured.value == "" ==> url == DefaultBaseURL
  {
    if configured.Some? && configured.value != "" then configured.value else DefaultBaseURL
  }

  /** Every request starts with these headers. */
  const DefaultHeaders: map<string, string> := map["Content-Type" := "application/json"]

  /** The calls of the client: a whole list, one item by id, or the extra
      view of an item (its stats, results or history). */
  datatype Endpoint = List(resource: Resource) | Item(resource: Resource, id: int) | Extra(resource: Resource, id: int)

  function ResourceName(r: Resource): string
  {
    match r
    case Drivers => "drivers"
    case Teams => "teams"
    case Races => "races"
    case Circuits => "circuits"
  }

  /** The extra view each resource offers. */
  function ExtraName(r: Resource): string
  {
    match r
    case Drivers => "stats"
    case Teams => "stats"
    case Races => "results"
    case Circuits => "history"
  }

  function ResourceNamed(name: string): Option<Resource>
  {
    if name == "drivers" then Some(Drivers)
    else if name == "teams" then Some(Teams)
    else if name == "races" then Some(Races)
    else if name == "circuits" then Some(Circuits)
    else None
  }

  /** The path segments after the leading '/'. */
  function Segments(e: Endpoint): seq<string>
  {
    match e
    case List(r) => [ResourceName(r)]
    case Item(r, id) => [ResourceName(r), IntToString(id)]
    case Extra(r, id) => [ResourceName(r), IntToString(id), ExtraName(r)]
  }

  /** The path requested, relative to the base URL. */
  function Path(e: Endpoint): (path: string)
    ensures |path| >= 1 && path[0] == '/'
  {
    Text.Join([""] + Segments(e), '/')
  }

  /** Reads a path back into the endpoint it names, if any. */
  function ParsePath(path: string): Option<Endpoint>
  {
    var parts := Text.Split(path, '/');
    if |parts| < 2 || |parts| > 4 || parts[0] != "" then None
    else
      var resource := ResourceNamed(parts[1]);
      if resource.None? then None
      else if |parts| == 2 then Some(List(resource.value))
      else
        var id := ParseInt(parts[2]);
        if id.None? then None
        else if |parts| == 3 then Some(Item(resource.value, id.value))
        else if parts[3] == ExtraName(resource.value) then Some(Extra(resource.value, id.value))
        else None
  }

  lemma NoSlash(e: Endpoint)
    ensures forall i :: 0 <= i < |[""] + Segments(e)| ==> '/' !in ([""] + Segments(e))[i]
  {
    if e.Item? || e.Extra? {
      if '/' in IntToString(e.id) {
        IntToStringChars(e.id, '/');
      }
    }
  }

  lemma NamedRoundTrip(r: Resource)
    ensures ResourceNamed(ResourceName(r)) == Some(r)
    ensures ExtraName(r) != ""
  {
  }

  /** Every path names exactly the endpoint it was built for: the builders
      of the client never call one endpoint by another's path. */
  lemma PathRoundTrip(e: Endpoint)
    ensures ParsePath(Path(e)) == Some(e)
  {
    var parts := [""] + Segments(e);
    NoSlash(e);
    Text.SplitJoin(parts, '/');
    assert Text.Split(Path(e), '/') == parts;
    NamedRoundTrip(e.resource);
    assert parts[1] == ResourceName(e.resource);
    if e.Item? || e.Extra? {
      IntRoundTrip(e.id);
      assert parts[2] == IntToString(e.id);
    }
  }

  lemma PathInjective(e1: Endpoint, e2: Endpoint)
    ensures Path(e1) == Path(e2) <==> e1 == e2
  {
    if Path(e1) == Path(e2) {
      PathRoundTrip(e1);
      PathRoundTrip(e2);
    }
  }

  /** `localStorage.getItem('token')`. */
  function Token(storage: map<string, string>): Option<string>
  {
    if "token" in storage then Some(storage["token"]) else None
  }

  /** The request interceptor's effect on the headers: a present, non-empty
      token becomes the Authorization header; otherwise nothing changes. */
  function WithBearer(headers: map<string, string>, token: Option<string>): (out: map<string, string>)
  {
    if token.Some? && token.value != "" then headers["Authorization" := "Bearer " + token.value] else headers
  }

  /** Exactly a non-empty token sets Authorization, to that token; every
      other header is left as it was. */
  lemma WithBearerCorrect(headers: map<string, string>, token: Option<string>)
    ensures token.Some? && token.value != "" ==>
      "Authorization" in WithBearer(headers, token) && WithBearer(headers, token)["Authorization"] == "Bearer " + token.value
    ensures !(token.Some? && token.value != "") ==> WithBearer(headers, token) == headers
    ensures forall k :: k != "Authorization" ==>
      (k in WithBearer(headers, token) <==> k in headers)
      && (k in headers ==> WithBearer(headers, token)[k] == headers[k])
  {
  }

  /** The window: its local storage and its location. */
  class Browser {
    var storage: map<string, string>
    var href: string

    constructor(storage: map<string, string>, href: string)
      ensures this.storage == storage && this.href == href
    {
      this.storage := storage;
      this.href := href;
    }
  }

  /** A request about to be sent; the interceptor edits its headers. */
  class RequestConfig {
    var headers: map<string, string>

    constructor(headers: map<string, string>)
      ensures this.headers == headers
    {
      this.headers := headers;
    }
  }

  /** The request interceptor: reads the stored token and passes on the
      same config, its headers given the bearer token. */
  method InterceptRequest(browser: Browser, config: RequestConfig) returns (sent: RequestConfig)
    modifies config
    ensures sent == config
    ensures config.headers == WithBearer(old(config.headers), Token(browser.storage))
  {
    var token := Token(browser.storage);
    if token.Some? && token.value != "" {
      config.headers := config.headers["Authorization" := "Bearer " + token.value];
    }
    sent := config;
  }

  /** A failed request: the status of the answer, `None` when no answer came. */
  datatype HttpError = HttpError(status: Option<int>, message: string)

  datatype Outcome<T> = Success(response: T) | Failure(error: HttpError)

  const Unauthorized: int := 401
  const LoginPage: string := "/login"

  predicate IsUnauthorized<T>(outcome: Outcome<T>)
  {
    outcome.Failure? && outcome.error.status == Some(Unauthorized)
  }

  /** The response interceptor: a success is passed on unchanged, a failure
      is rejected with the same error; a 401 answer first drops the stored
      token and sends the browser to the login page. */
  method InterceptResponse<T>(browser: Browser, outcome: Outcome<T>) returns (result: Outcome<T>)
    modifies browser
    ensures result == outcome
    ensures IsUnauthorized(outcome) ==> browser.storage == old(browser.storage) - {"token"} && browser.href == LoginPage
    ensures !IsUnauthorized(outcome) ==> browser.storage == old(browser.storage) && browser.href == old(browser.href)
  {
    if outcome.Failure? && outcome.error.status == Some(Unauthorized) {
      browser.storage := browser.storage - {"token"};
      browser.href := LoginPage;
    }
    result := outcome;
  }

  /** After a 401 logout no token is stored, so the next request goes out
      without a bearer token; other stored entries survive. */
  lemma LogoutDropsBearer(storage: map<string, string>, headers: map<string, string>)
    ensures Token(storage - {"token"}) == None
    ensures WithBearer(headers, Token(storage - {"token"})) == headers
    ensures forall k :: k in storage && k != "token" ==> k in storage - {"token"} && (storage - {"token"})[k] == storage[k]
  {
  }

  /** A session with a stored token, a 401 and the request after it. */
  method LogoutScenario(token: string, first: RequestConfig, second: RequestConfig)
    requires token != "" && first != second
    requires first.headers == DefaultHeaders && second.headers == DefaultHeaders
    modifies first, second
  {
    var browser := new Browser(map["token" := token], "/dashboard");
    var sent := InterceptRequest(browser, first);
    assert sent.headers["Authorization"] == "Bearer " + token;
    var failure: Outcome<string> := Failure(HttpError(Some(Unauthorized), "Request failed with status code 401"));
    var result := InterceptResponse(browser, failure);
    assert result == failure && browser.href == LoginPage;
    LogoutDropsBearer(map["token" := token], DefaultHeaders);
    sent := InterceptRequest(browser, second);
    assert sent.headers == DefaultHeaders;
    assert "Authorization" !in sent.headers;
  }
}
