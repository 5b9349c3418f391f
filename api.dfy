/** The `API` struct of Sources/scrap-client-api/API.swift: the per-endpoint
    classifiers and the orchestration of login, register, test and
    clearToken around the `hasToken` flag. Publishers are collapsed into
    methods returning a `Result`; only the latest value of `hasToken` is kept.
    The network is an input `Exchange` per request, and `sent` records the
    requests handed to the network, in order. */
module AuthApi {
  import opened Wrappers
  import opened Utf8
  import opened Models
  import opened Client
  import opened Requests
  import opened TokenStore

  const LoginErrorMessage: string := "Dang!"
  const GenericErrorTitle: string := "Some generic error title"

  /** The error transform of `login`: every non-2xx status is the same
      server error. */
  function LoginErrorTransform(data: seq<byte>, statusCode: int): (r: ApiError)
    ensures r == Server("Dang!")
  {
    Server(LoginErrorMessage)
  }

  /** The error transform of `register`: a 400 or 409 whose body decodes as
      `{reason}` reports that reason; anything else reports the generic title. */
  function ClassifyRegisterError(decodeServerError: seq<byte> -> Option<ServerError>,
                                 data: seq<byte>, statusCode: int): (r: ApiError)
    ensures r.Server?
    ensures (statusCode == 400 || statusCode == 409) && decodeServerError(data).Some?
            ==> r == Server(decodeServerError(data).value.reason)
    ensures !((statusCode == 400 || statusCode == 409) && decodeServerError(data).Some?)
            ==> r == Server(GenericErrorTitle)
  {
    if statusCode in [400, 409] && decodeServerError(data).Some? then
      Server(decodeServerError(data).value.reason)
    else
      Server(GenericErrorTitle)
  }

  /** ClassifyRegisterError as an `ErrorTransform`. */
  function RegisterErrorTransform(decodeServerError: seq<byte> -> Option<ServerError>): (t: ErrorTransform)
    ensures forall data, statusCode :: t(data, statusCode) == ClassifyRegisterError(decodeServerError, data, statusCode)
  {
    (data, statusCode) => ClassifyRegisterError(decodeServerError, data, statusCode)
  }

  /** The default error transform of `Client.run`, which `test()` uses. */
  function DefaultErrorTransform(data: seq<byte>, statusCode: int): (r: ApiError)
    ensures r == Silent
  {
    Silent
  }

  /** The response transform of `test()`: the body as UTF-8 text, or
      `silent`. */
  function TestResponseTransform(data: seq<byte>): (r: Result<string, ThrownError>)
    ensures r.Success? <==> Utf8.Decode(data).Some?
    ensures r.Success? ==> Utf8.Encode(r.value) == data
    ensures r.Failure? ==> r.error == Api(Silent)
  {
    match Utf8.Decode(data)
    case None => Failure(Api(Silent))
    case Some(value) =>
      Utf8.EncodeDecode(data);
      Success(value)
  }

  /** A non-2xx login response is `server("Dang!")`, whatever its body. */
  lemma LoginRejected(exchange: Exchange, decodeToken: seq<byte> -> Option<Token>)
    requires exchange.Delivered? && exchange.response.HTTPURLResponse?
    requires !IsSuccessStatus(exchange.response.statusCode)
    ensures Run(exchange, LoginErrorTransform, JsonTransform(decodeToken)) == Failure(Server("Dang!"))
  {
  }

  /** A 409 register response with body `{reason: m}` fails with
      `server(m)`; a 400 whose body is not a `{reason}` fails with the generic
      title. */
  lemma RegisterRejected(data: seq<byte>, decodeToken: seq<byte> -> Option<Token>,
                         decodeServerError: seq<byte> -> Option<ServerError>, m: string)
    ensures decodeServerError(data) == Some(ServerError(m))
            ==> Run(Delivered(data, HTTPURLResponse(409)), RegisterErrorTransform(decodeServerError), JsonTransform(decodeToken))
                == Failure(Server(m))
    ensures decodeServerError(data).None?
            ==> Run(Delivered(data, HTTPURLResponse(400)), RegisterErrorTransform(decodeServerError), JsonTransform(decodeToken))
                == Failure(Server("Some generic error title"))
  {
  }

  /** A non-2xx answer to `test()` is `silent`; a 2xx answer is its body as
      text, or `silent` when the body is not UTF-8. */
  lemma TestResponse(exchange: Exchange)
    requires exchange.Delivered? && exchange.response.HTTPURLResponse?
    ensures var r := Run(exchange, DefaultErrorTransform, TestResponseTransform);
            && (!IsSuccessStatus(exchange.response.statusCode) ==> r == Failure(Silent))
            && (IsSuccessStatus(exchange.response.statusCode) && Utf8.Decode(exchange.data).Some?
                ==> r == Success(Utf8.Decode(exchange.data).value))
            && (Utf8.Decode(exchange.data).None? ==> r == Failure(Silent))
  {
  }

  /** The JSON decoding JSONDecoder performs, given as partial functions. */
  datatype Json = Json(token: seq<byte> -> Option<Token>, serverError: seq<byte> -> Option<ServerError>)

  class API {
    /** The Keychain-backed store every `TokenHandler()` reaches. */
    const store: TokenHandler
    const json: Json
    /** The latest value of the `hasToken` subject. */
    var hasToken: bool
    /** Requests handed to the network, oldest first. */
    ghost var sent: seq<Request>

    /** `hasToken` starts as whether a token loads. */
    constructor(store: TokenHandler, json: Json, readStatus: int)
      ensures this.store == store && this.json == json && sent == []
      ensures hasToken == LoadOutcome(store.keychain, readStatus).Success?
    {
      this.store := store;
      this.json := json;
      var current := store.TokenValue(readStatus);
      hasToken := current.Some?;
      sent := [];
    }

    /** `saveTokenOrThrow`: a failed save is `couldNotStoreToken` and leaves
        the flag alone (although the delete has already emptied the slot);
        a successful one recomputes the flag from a fresh load. */
    method SaveTokenOrThrow(token: Token, addStatus: int, readStatus: int) returns (r: Result<Token, ApiError>)
      modifies this, store
      ensures store.keychain == AfterSave(old(store.keychain), token, addStatus)
      ensures addStatus == NoErr ==> r == Success(token) && hasToken == LoadOutcome(store.keychain, readStatus).Success?
      ensures addStatus == NoErr ==> (hasToken <==> readStatus == NoErr)
      ensures addStatus != NoErr ==> r == Failure(CouldNotStoreToken) && hasToken == old(hasToken)
      ensures sent == old(sent)
    {
      var saved := store.SaveToken(token, addStatus);
      if saved.Failure? {
        return Failure(CouldNotStoreToken);
      }
      var current := store.TokenValue(readStatus);
      hasToken := current.Some?;
      LoadAfterSave(old(store.keychain), token, addStatus, readStatus);
      r := Success(token);
    }

    /** `login`: a Basic-authorized POST /login; a token in a 2xx body is
        saved. */
    method Login(user: UserLoginCandidate, exchange: Exchange, addStatus: int, readStatus: int)
      returns (r: Result<Token, ApiError>)
      modifies this, store
      ensures sent == old(sent) + [BasicAuthorized(Post(LoginEndpoint), user)]
      ensures var response := Run(exchange, LoginErrorTransform, JsonTransform(json.token));
              && (response.Failure? ==> r == Failure(response.error)
                                        && store.keychain == old(store.keychain) && hasToken == old(hasToken))
              && (response.Success? ==> store.keychain == AfterSave(old(store.keychain), response.value, addStatus))
              && (response.Success? && addStatus == NoErr
                  ==> r == Success(response.value) && (hasToken <==> readStatus == NoErr))
              && (response.Success? && addStatus != NoErr
                  ==> r == Failure(CouldNotStoreToken) && hasToken == old(hasToken))
      ensures r.Success? ==> LoadOutcome(store.keychain, NoErr) == Success(r.value)
    {
      var request := BasicAuthorized(Post(LoginEndpoint), user);
      sent := sent + [request];
      var response := Run(exchange, LoginErrorTransform, JsonTransform(json.token));
      if response.Failure? {
        return Failure(SilentErrorUnlessSpecified(Api(response.error)));
      }
      var saved := SaveTokenOrThrow(response.value, addStatus, readStatus);
      r := if saved.Success? then saved else Failure(SilentErrorUnlessSpecified(Api(saved.error)));
      LoadAfterSave(old(store.keychain), response.value, addStatus, NoErr);
    }

    /** `test()`: without a loadable token, `missingToken` and no request;
        otherwise GET /me with the bearer token, whose body is the result. */
    method Test(exchange: Exchange, readStatus: int) returns (r: Result<string, ApiError>)
      modifies this`sent
      ensures LoadOutcome(store.keychain, readStatus).Failure? ==> r == Failure(MissingToken) && sent == old(sent)
      ensures LoadOutcome(store.keychain, readStatus).Success?
              ==> && sent == old(sent) + [TokenAuthorized(Get(TestEndpoint), LoadOutcome(store.keychain, readStatus).value)]
                  && r == Run(exchange, DefaultErrorTransform, TestResponseTransform)
    {
      var token := store.TokenValue(readStatus);
      if token.None? {
        return Failure(MissingToken);
      }
      var request := TokenAuthorized(Get(TestEndpoint), token.value);
      sent := sent + [request];
      r := Run(exchange, DefaultErrorTransform, TestResponseTransform);
    }

    /** `register`: a POST /register with the encoded candidate; a token in a
        2xx body is saved, and only then is `test()` run, whose result is the
        result. */
    method Register(body: Option<seq<byte>>, exchange: Exchange, addStatus: int, readStatus: int, meExchange: Exchange)
      returns (r: Result<string, ApiError>)
      modifies this, store
      ensures var request := WithData(Post(RegisterEndpoint), body);
              var response := Run(exchange, RegisterErrorTransform(json.serverError), JsonTransform(json.token));
              && (response.Failure? ==> r == Failure(response.error) && sent == old(sent) + [request]
                                        && store.keychain == old(store.keychain) && hasToken == old(hasToken))
              && (response.Success? ==> store.keychain == AfterSave(old(store.keychain), response.value, addStatus))
              && (response.Success? && addStatus != NoErr
                  ==> r == Failure(CouldNotStoreToken) && sent == old(sent) + [request] && hasToken == old(hasToken))
              && (response.Success? && addStatus == NoErr ==> (hasToken <==> readStatus == NoErr))
              && (response.Success? && addStatus == NoErr && readStatus == NoErr
                  ==> sent == old(sent) + [request, TokenAuthorized(Get(TestEndpoint), response.value)]
                      && r == Run(meExchange, DefaultErrorTransform, TestResponseTransform))
              && (response.Success? && addStatus == NoErr && readStatus != NoErr
                  ==> sent == old(sent) + [request] && r == Failure(MissingToken))
    {
      var request := WithData(Post(RegisterEndpoint), body);
      sent := sent + [request];
      var response := Run(exchange, RegisterErrorTransform(json.serverError), JsonTransform(json.token));
      if response.Failure? {
        return Failure(SilentErrorUnlessSpecified(Api(response.error)));
      }
      var saved := SaveTokenOrThrow(response.value, addStatus, readStatus);
      if saved.Failure? {
        return Failure(SilentErrorUnlessSpecified(Api(saved.error)));
      }
      LoadAfterSave(old(store.keychain), response.value, addStatus, readStatus);
      r := Test(meExchange, readStatus);
    }

    /** `clearToken`: delete the slot, then recompute the flag from a fresh
        load, which can no longer succeed. */
    method ClearToken(readStatus: int)
      modifies this, store
      ensures store.keychain == AfterClear(old(store.keychain))
      ensures hasToken == LoadOutcome(store.keychain, readStatus).Success?
      ensures !hasToken
      ensures sent == old(sent)
    {
      store.ClearToken();
      var current := store.TokenValue(readStatus);
      hasToken := current.Some?;
    }
  }
}
