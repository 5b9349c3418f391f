/** The values the API layer passes around: its closed error taxonomy, the
    bearer token and the login candidate (Sources/scrap-client-api/API.swift). */
module Models {
  import Wrappers
  import Utf8
  import Base64

  /** `API.Error`. */
  datatype ApiError =
    | CouldNotStoreToken
    | MissingToken
    | NoNetwork
    | Parse
    | Server(message: string)
    | ServerUnreachable
    | Silent
    | UnspecifiedURLError

  /** Any value a Swift closure may throw: an `API.Error`, or an error of some
      other domain (a `DecodingError` from JSONDecoder, say). */
  datatype ThrownError = Api(error: ApiError) | Foreign(domain: string)

  /** `Token`: an opaque bearer credential, compared by value. */
  datatype Token = Token(value: string)

  /** `ServerError`: the `{reason}` body the server sends with 400 and 409. */
  datatype ServerError = ServerError(reason: string)

  /** `UserLoginCandidate`. */
  datatype UserLoginCandidate = UserLoginCandidate(email: string, password: string)

  /** `basicAuthorizationFormatted`: the user-pass "email:password" of
      section 2 of RFC 7617, UTF-8 encoded, then base 64 encoded. */
  function BasicAuthorizationFormatted(user: UserLoginCandidate): (r: string)
    ensures Base64.Decode(r).Some?
    ensures Utf8.Decode(Base64.Decode(r).value) == Wrappers.Some(user.email + ":" + user.password)
  {
    var userPass := user.email + ":" + user.password;
    Base64.DecodeEncode(Utf8.Encode(userPass));
    Utf8.DecodeEncode(userPass);
    Base64.Encode(Utf8.Encode(userPass))
  }
}
