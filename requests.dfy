/** Request construction: the endpoints and the `URLRequest` extensions of
    Sources/scrap-client-api/API.swift. `URLRequest` is a value type and every
    helper copies it and updates one part, so each is a record update. A nil
    `allHTTPHeaderFields` is the empty map. */
module Requests {
  import opened Wrappers
  import opened Utf8
  import opened Models
  import Base64

  datatype Request = Request(url: string, httpMethod: string, headers: map<string, string>, httpBody: Option<seq<byte>>)

  const BaseURL: string := "http://localhost:8080"

  datatype PostEndpoint = LoginEndpoint | RegisterEndpoint
  datatype GetEndpoint = TestEndpoint

  /** `URLRequest(url:)`: method GET, no headers, no body. */
  function NewRequest(url: string): Request {
    Request(url, "GET", map[], None)
  }

  /** `after` is `before` with header `name` set to `value`; the URL, the
      method, the body and every other header are as they were. */
  ghost predicate SetsOnlyHeader(before: Request, after: Request, name: string, value: string) {
    && after.url == before.url
    && after.httpMethod == before.httpMethod
    && after.httpBody == before.httpBody
    && name in after.headers && after.headers[name] == value
    && (forall k :: k != name ==> (k in after.headers <==> k in before.headers))
    && (forall k :: k != name && k in before.headers ==> after.headers[k] == before.headers[k])
  }

  /** The shared step of the three header helpers: copy the header map (nil
      read as empty), set one key, store the map back. */
  function SettingHeader(request: Request, name: string, value: string): Request {
    request.(headers := request.headers[name := value])
  }

  /** `withDefaultHeaders`. */
  function WithDefaultHeaders(request: Request): (r: Request)
    ensures SetsOnlyHeader(request, r, "Content-Type", "application/json")
  {
    SettingHeader(request, "Content-Type", "application/json")
  }

  /** `tokenAuthorized(token:)`; the Swift helper returns an optional that is
      never nil, so this is total. */
  function TokenAuthorized(request: Request, token: Token): (r: Request)
    ensures SetsOnlyHeader(request, r, "Authorization", "Bearer " + token.value)
  {
    SettingHeader(request, "Authorization", "Bearer " + token.value)
  }

  /** `basicAuthorized(forUser:)`. */
  function BasicAuthorized(request: Request, user: UserLoginCandidate): (r: Request)
    ensures SetsOnlyHeader(request, r, "Authorization", "Basic " + BasicAuthorizationFormatted(user))
  {
    SettingHeader(request, "Authorization", "Basic " + BasicAuthorizationFormatted(user))
  }

  /** `with(data:)`: replaces the body and nothing else. */
  function WithData(request: Request, data: Option<seq<byte>>): (r: Request)
    ensures r.httpBody == data
    ensures r.url == request.url && r.httpMethod == request.httpMethod && r.headers == request.headers
  {
    request.(httpBody := data)
  }

  function PostPath(endpoint: PostEndpoint): string {
    match endpoint
    case LoginEndpoint => "/login"
    case RegisterEndpoint => "/register"
  }

  /** `URLRequest.post`: a JSON POST to /login or /register. */
  function Post(endpoint: PostEndpoint): (r: Request)
    ensures r.httpMethod == "POST"
    ensures r.url == BaseURL + (if endpoint == LoginEndpoint then "/login" else "/register")
    ensures r.headers == map["Content-Type" := "application/json"]
    ensures r.httpBody.None?
  {
    var request := WithDefaultHeaders(NewRequest(BaseURL + PostPath(endpoint)));
    request.(httpMethod := "POST")
  }

  /** `URLRequest.get`: a GET to /me without a Content-Type header. */
  function Get(endpoint: GetEndpoint): (r: Request)
    ensures r.httpMethod == "GET"
    ensures r.url == BaseURL + "/me"
    ensures r.headers == map[] && "Content-Type" !in r.headers
    ensures r.httpBody.None?
  {
    var request := NewRequest(BaseURL + "/me");
    request.(httpMethod := "GET")
  }

  /** The request `test()` sends: GET /me whose only header is the bearer
      credential. */
  lemma MeRequest(token: Token)
    ensures TokenAuthorized(Get(TestEndpoint), token)
         == Request("http://localhost:8080/me", "GET", map["Authorization" := "Bearer " + token.value], None)
  {
  }

  /** The request `login` sends: a JSON POST to /login whose Authorization
      header lets the server recover exactly "email:password". */
  lemma LoginRequest(user: UserLoginCandidate)
    ensures var r := BasicAuthorized(Post(LoginEndpoint), user);
            && r.url == "http://localhost:8080/login" && r.httpMethod == "POST" && r.httpBody.None?
            && r.headers.Keys == {"Content-Type", "Authorization"}
            && r.headers["Content-Type"] == "application/json"
            && |r.headers["Authorization"]| >= 6 && r.headers["Authorization"][..6] == "Basic "
            && Base64.Decode(r.headers["Authorization"][6..]).Some?
            && Utf8.Decode(Base64.Decode(r.headers["Authorization"][6..]).value) == Some(user.email + ":" + user.password)
  {
    var r := BasicAuthorized(Post(LoginEndpoint), user);
    var h := "Basic " + BasicAuthorizationFormatted(user);
    assert h[..6] == "Basic " && h[6..] == BasicAuthorizationFormatted(user);
  }

  /** The request `register` sends: a JSON POST to /register carrying the
      encoded candidate and no Authorization header. */
  lemma RegisterRequest(body: Option<seq<byte>>)
    ensures WithData(Post(RegisterEndpoint), body)
         == Request("http://localhost:8080/register", "POST", map["Content-Type" := "application/json"], body)
  {
  }
}
