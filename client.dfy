/** The transport's classification of one exchange (`Client.run`,
    `standardURLErrorHandler` and `silentErrorUnlessSpecified` in
    Sources/scrap-client-api/API.swift). URLSession and Combine are not
    modelled: the exchange URLSession performs is an input, and the publisher
    chain becomes a composition of functions over `Result`. */
module Client {
  import opened Wrappers
  import opened Utf8
  import opened Models

  /** Foundation's URLError codes that the handler singles out. */
  const NSURLErrorNotConnectedToInternet: int := -1009
  const NSURLErrorCannotConnectToHost: int := -1004

  /** The `URLResponse` of a completed data task. */
  datatype URLResponse = HTTPURLResponse(statusCode: int) | OtherURLResponse

  /** What a data task delivers: the body with its response, or a URLError. */
  datatype Exchange = Delivered(data: seq<byte>, response: URLResponse) | Failed(errorCode: int)

  /** `ErrorTransform`: classifies a non-2xx response from its body and status. */
  type ErrorTransform = (seq<byte>, int) -> ApiError

  /** `ResponseTransform<T>`: turns a 2xx body into a value, or throws. */
  type ResponseTransform<T> = seq<byte> -> Result<T, ThrownError>

  /** `standardURLErrorHandler`: transport failures map onto three errors. */
  function StandardURLErrorHandler(errorCode: int): (r: ApiError)
    ensures r == NoNetwork <==> errorCode == NSURLErrorNotConnectedToInternet
    ensures r == ServerUnreachable <==> errorCode == NSURLErrorCannotConnectToHost
    ensures r == UnspecifiedURLError
        <==> errorCode != NSURLErrorNotConnectedToInternet && errorCode != NSURLErrorCannotConnectToHost
  {
    if errorCode == NSURLErrorNotConnectedToInternet then NoNetwork
    else if errorCode == NSURLErrorCannotConnectToHost then ServerUnreachable
    else UnspecifiedURLError
  }

  /** `silentErrorUnlessSpecified`: API errors pass through, anything else
      becomes `silent`. */
  function SilentErrorUnlessSpecified(e: ThrownError): (r: ApiError)
    ensures e.Api? ==> r == e.error
    ensures e.Foreign? ==> r == Silent
  {
    match e
    case Api(error) => error
    case Foreign(_) => Silent
  }

  /** Applying the sink a second time changes nothing. */
  lemma SilentErrorUnlessSpecifiedIdempotent(e: ThrownError)
    ensures SilentErrorUnlessSpecified(Api(SilentErrorUnlessSpecified(e))) == SilentErrorUnlessSpecified(e)
  {
  }

  predicate IsSuccessStatus(statusCode: int) {
    200 <= statusCode <= 299
  }

  /** The body of `tryMap` in `Client.run`: a response that is not HTTP throws
      `silent`, a status outside 200...299 throws what the error transform
      says, and a 2xx body goes through the response transform. */
  function ClassifyResponse<T>(data: seq<byte>, response: URLResponse,
                               errorTransform: ErrorTransform,
                               responseTransform: ResponseTransform<T>): (r: Result<T, ThrownError>)
    ensures response.OtherURLResponse? ==> r == Failure(Api(Silent))
    ensures response.HTTPURLResponse? && !IsSuccessStatus(response.statusCode)
            ==> r == Failure(Api(errorTransform(data, response.statusCode)))
    ensures r.Success? <==> (response.HTTPURLResponse? && IsSuccessStatus(response.statusCode)
                             && responseTransform(data).Success?)
    ensures response.HTTPURLResponse? && IsSuccessStatus(response.statusCode) ==> r == responseTransform(data)
  {
    match response
    case OtherURLResponse => Failure(Api(Silent))
    case HTTPURLResponse(statusCode) =>
      if !IsSuccessStatus(statusCode) then Failure(Api(errorTransform(data, statusCode)))
      else responseTransform(data)
  }

  /** `Client.run`: `mapError(standardURLErrorHandler)`, then `tryMap` with
      ClassifyResponse, then `mapError(silentErrorUnlessSpecified)`. */
  function Run<T>(exchange: Exchange, errorTransform: ErrorTransform,
                  responseTransform: ResponseTransform<T>): (r: Result<T, ApiError>)
    ensures exchange.Failed? ==> r == Failure(StandardURLErrorHandler(exchange.errorCode))
    ensures exchange.Delivered? && exchange.response.OtherURLResponse? ==> r == Failure(Silent)
    ensures exchange.Delivered? && exchange.response.HTTPURLResponse?
            && !IsSuccessStatus(exchange.response.statusCode)
            ==> r == Failure(errorTransform(exchange.data, exchange.response.statusCode))
    ensures r.Success?
        <==> (exchange.Delivered? && exchange.response.HTTPURLResponse?
              && IsSuccessStatus(exchange.response.statusCode) && responseTransform(exchange.data).Success?)
    ensures r.Success? ==> r.value == responseTransform(exchange.data).value
    ensures exchange.Delivered? && exchange.response.HTTPURLResponse?
            && IsSuccessStatus(exchange.response.statusCode) && responseTransform(exchange.data).Failure?
            ==> r == Failure(SilentErrorUnlessSpecified(responseTransform(exchange.data).error))
  {
    var delivered: Result<(seq<byte>, URLResponse), ApiError> :=
      match exchange
      case Failed(errorCode) => Failure(StandardURLErrorHandler(errorCode))
      case Delivered(data, response) => Success((data, response));
    var mapped: Result<T, ThrownError> :=
      match delivered
      case Failure(e) => Failure(Api(e))
      case Success((data, response)) => ClassifyResponse(data, response, errorTransform, responseTransform);
    match mapped
    case Success(value) => Success(value)
    case Failure(e) => Failure(SilentErrorUnlessSpecified(e))
  }

  /** The default response transform, `decoder.decode(T.self, from: data)`;
      JSON decoding itself is the given partial function `decode`, and its
      failure is a `DecodingError`, not an `API.Error`. */
  function DecodeJson<T>(decode: seq<byte> -> Option<T>, data: seq<byte>): (r: Result<T, ThrownError>)
    ensures r.Success? <==> decode(data).Some?
    ensures r.Success? ==> r.value == decode(data).value
    ensures r.Failure? ==> r.error.Foreign?
  {
    match decode(data)
    case Some(value) => Success(value)
    case None => Failure(Foreign("DecodingError"))
  }

  /** DecodeJson as a `ResponseTransform`. */
  function JsonTransform<T>(decode: seq<byte> -> Option<T>): (t: ResponseTransform<T>)
    ensures forall data :: t(data) == DecodeJson(decode, data)
  {
    data => DecodeJson(decode, data)
  }

  /** With the default response transform, a 2xx exchange yields the decoded
      value, and a 2xx body that does not decode yields `silent`. */
  lemma RunDecodingJson<T>(exchange: Exchange, errorTransform: ErrorTransform, decode: seq<byte> -> Option<T>)
    requires exchange.Delivered? && exchange.response.HTTPURLResponse?
    requires IsSuccessStatus(exchange.response.statusCode)
    ensures var r := Run(exchange, errorTransform, JsonTransform(decode));
            (decode(exchange.data).Some? ==> r == Success(decode(exchange.data).value))
            && (decode(exchange.data).None? ==> r == Failure(Silent))
  {
  }

  /** Run never yields `missingToken`, `couldNotStoreToken` or a server message
      of its own: every error it reports comes from the URL error handler, is
      `silent`, or was produced by one of the two transforms. */
  lemma RunErrorOrigins<T>(exchange: Exchange, errorTransform: ErrorTransform,
                           responseTransform: ResponseTransform<T>)
    requires Run(exchange, errorTransform, responseTransform).Failure?
    ensures var e := Run(exchange, errorTransform, responseTransform).error;
            || (exchange.Failed? && e in {NoNetwork, ServerUnreachable, UnspecifiedURLError})
            || e == Silent
            || (exchange.Delivered? && exchange.response.HTTPURLResponse?
                && e == errorTransform(exchange.data, exchange.response.statusCode))
            || (exchange.Delivered? && responseTransform(exchange.data) == Failure(Api(e)))
  {
  }
}
