# scrap-client-api in Dafny

A model of the client side of the scrap authentication API (Swift package
`scrap-client-api`): how a request is built, how one HTTP exchange becomes a
value or an `API.Error`, how the bearer token is kept in a single Keychain
slot, and how `login`, `register`, `test` and `clearToken` keep the
`hasToken` flag in step with that slot.

Layout, one module per concern:

- `wrappers.dfy` (`Wrappers`): `Option` and `Result`.
- `utf8.dfy` (`Utf8`): UTF-8 after RFC 3629 section 3, an encoder and a strict decoder, with
  both round trips proved. The token is stored as UTF-8 and `test()` reads its body as UTF-8.
- `base64.dfy` (`Base64`): the base 64 encoding of RFC 4648 section 4 and a decoder that
  accepts exactly the canonical encodings (section 3.5: pad bits are zero), so that the
  two are mutual inverses. It is used for the Basic credential of RFC 7617 section 2.
- `models.dfy` (`Models`): `API.Error`, `Token`, `ServerError`, `UserLoginCandidate`.
- `client.dfy` (`Client`): `Client.run`, `standardURLErrorHandler`, `silentErrorUnlessSpecified`.
- `requests.dfy` (`Requests`): `URLRequest.post/get` and the header and body helpers.
- `tokenstore.dfy` (`TokenStore`): `TokenHandler` as a class over the Keychain.
- `api.dfy` (`AuthApi`): the endpoint classifiers and the `API` class with `hasToken`.

Modelling choices:

- The Keychain is a map from account to octets. `TokenHandler` only ever touches
  the account `"AuthorizationToken"`. The answers of the OS are parameters:
  `addStatus` is the status of `SecItemAdd`, and `readStatus` is the status of
  `SecItemCopyMatching` when the item exists. A missing item always reads as
  `errSecItemNotFound`.
- The network is an `Exchange` input per request: either a body with a response,
  or a `URLError` code. The `API` class keeps a ghost log `sent` of the requests
  it hands to the network, so "no request is made" can be stated.
- JSON decoding is a pair of given partial functions (`Json`). A decoding
  failure is a non-`API.Error` error (`Foreign`), which the transport turns into
  `silent`. The register body arrives already encoded, as an optional.
- The Combine chains become compositions over `Result`. `Client.Run` is written
  stage by stage: `mapError(standardURLErrorHandler)`, then `tryMap`, then
  `mapError(silentErrorUnlessSpecified)`.

One behaviour of the code is worth knowing. After a failed save,
`saveTokenOrThrow` throws before it recomputes `hasToken`. The delete inside
`saveToken` has already emptied the slot by then, so a flag that was `true`
stays `true` while nothing is loadable. `hasToken` therefore equals
"a token loads" after every successful save and after every clear, but not
after a failed save. `API.SaveTokenOrThrow`, `API.Login` and `API.Register`
state this outright (`hasToken == old(hasToken)` on that path).

## Model

| member | source | states |
|---|---|---|
| `Wrappers.Result.ToOption` | Sources/scrap-client-api/TokenHandler.swift:77-83 | the optional is present exactly on success, carrying the success value |
| `Utf8.DecodeEncode` | Sources/scrap-client-api/TokenHandler.swift:23-66 | decoding the UTF-8 encoding of any string gives that string back (the octets saved are the octets that load) |
| `Utf8.EncodeDecode` | Sources/scrap-client-api/TokenHandler.swift:55-65 | whatever octets decode are exactly the encoding of the decoded string (the decoder accepts only well-formed UTF-8) |
| `Utf8.DecodeIffEncode` | Sources/scrap-client-api/TokenHandler.swift:24-60 | octets decode to a string if and only if they are that string's encoding |
| `Base64.EncodeShape` | Sources/scrap-client-api/API.swift:295-297 | the encoding has 4 characters per started 3-octet group, all from the RFC 4648 alphabet or `=` |
| `Base64.DecodeEncode` | Sources/scrap-client-api/API.swift:295-297 | base 64 decoding recovers the encoded octets |
| `Base64.EncodeDecode` | Sources/scrap-client-api/API.swift:295-297 | every string the decoder accepts is exactly the encoding of the octets it decodes to (no non-zero pad bits, no stray padding) |
| `Base64.DecodeIffEncode` | Sources/scrap-client-api/API.swift:295-297 | a string decodes to some octets if and only if it is their encoding |
| `Models.BasicAuthorizationFormatted` | Sources/scrap-client-api/API.swift:295-297 | the credential is valid base 64 whose UTF-8 payload is exactly `email + ":" + password` |
| `Client.StandardURLErrorHandler` | Sources/scrap-client-api/API.swift:274-282 | not-connected gives `noNetwork`, cannot-connect-to-host gives `serverUnreachable`, and every other code (and only those) gives `unspecifiedURLError` |
| `Client.SilentErrorUnlessSpecified` | Sources/scrap-client-api/API.swift:266-272 | identity on `API.Error`; every other error becomes `silent` |
| `Client.SilentErrorUnlessSpecifiedIdempotent` | Sources/scrap-client-api/API.swift:266-272 | applying the sink twice equals applying it once |
| `Client.ClassifyResponse` | Sources/scrap-client-api/API.swift:244-259 | a non-HTTP response is `silent`; a non-2xx status is exactly the error transform's error; success exactly for 2xx when the response transform succeeds, with its value |
| `Client.DecodeJson` | Sources/scrap-client-api/API.swift:238 | succeeds exactly when the body decodes, with the decoded value; a decoding failure is a non-`API.Error` error |
| `Client.JsonTransform` | Sources/scrap-client-api/API.swift:238 | the default response transform: on every body it behaves as `DecodeJson` |
| `Client.Run` | Sources/scrap-client-api/API.swift:235-263 | transport failure goes through the URL error handler; a non-HTTP response gives `silent`; a non-2xx status gives exactly the error transform's answer; success happens exactly for 2xx with a transformed body, and carries that value; a throwing transform's error goes through the sink |
| `Client.RunDecodingJson` | Sources/scrap-client-api/API.swift:238-260 | with the default JSON transform, a 2xx decodable body gives the decoded value and an undecodable one gives `silent` |
| `Client.RunErrorOrigins` | Sources/scrap-client-api/API.swift:241-260 | a corollary of `Client.Run`'s contract, stated as one summary: every error `run` reports comes from the URL handler, is `silent`, or comes from one of the two transforms |
| `Requests.WithDefaultHeaders` | Sources/scrap-client-api/API.swift:210-218 | sets `Content-Type: application/json` and leaves URL, method, body and every other header unchanged |
| `Requests.TokenAuthorized` | Sources/scrap-client-api/API.swift:190-198 | sets `Authorization: Bearer <token.value>` and leaves everything else unchanged |
| `Requests.BasicAuthorized` | Sources/scrap-client-api/API.swift:200-208 | sets `Authorization: Basic <base64(email:password)>` and leaves everything else unchanged |
| `Requests.WithData` | Sources/scrap-client-api/API.swift:220-225 | replaces the body and nothing else |
| `Requests.Post` | Sources/scrap-client-api/API.swift:145-161 | POST to `http://localhost:8080/login` or `/register`, with only the JSON `Content-Type` header and no body |
| `Requests.Get` | Sources/scrap-client-api/API.swift:163-177 | GET to `http://localhost:8080/me`, with no headers (so no `Content-Type`) and no body |
| `Requests.MeRequest` | Tests/scrap-client-apiTests/APITests.swift:5-11 | the `test()` request is GET `/me` whose one header is `Authorization: "Bearer " + token.value` |
| `Requests.LoginRequest` | Sources/scrap-client-api/API.swift:30-33 | the login request is a JSON POST to `/login` with exactly two headers, and its Basic header decodes back to `email:password` |
| `Requests.RegisterRequest` | Sources/scrap-client-api/API.swift:47-49 | the register request is a JSON POST to `/register` carrying the encoded candidate and no Authorization header |
| `TokenStore.LoadOutcome` | Sources/scrap-client-api/TokenHandler.swift:45-66 | load succeeds if and only if the read is granted, the slot is filled and holds valid UTF-8; the token loaded encodes back to the stored octets; every failure is `silent` |
| `TokenStore.AfterSave` | Sources/scrap-client-api/TokenHandler.swift:30-41 | after save the slot holds exactly the token's UTF-8 octets when the add succeeds and nothing otherwise; other accounts are untouched |
| `TokenStore.AfterClear` | Sources/scrap-client-api/TokenHandler.swift:68-75 | after clear the slot is empty; other accounts are untouched |
| `TokenStore.LoadAfterSave` | Sources/scrap-client-api/TokenHandler.swift:23-66 | load after save gives the saved token exactly when add and read both succeed, and `silent` otherwise |
| `TokenStore.SaveReplaces` | Sources/scrap-client-api/TokenHandler.swift:30-41 | after saving A then B, load gives B or `silent`, never A |
| `TokenStore.LoadAfterClear` | Sources/scrap-client-api/TokenHandler.swift:45-75 | load after clear fails with `silent` |
| `TokenStore.ClearIdempotent` | Sources/scrap-client-api/TokenHandler.swift:68-75 | clearing twice is the same as clearing once |
| `TokenStore.TokenHandler.constructor` | Sources/scrap-client-api/TokenHandler.swift:20 | a handler over the given Keychain |
| `TokenStore.TokenHandler.SaveToken` | Sources/scrap-client-api/TokenHandler.swift:23-42 | new Keychain is `AfterSave`; the result is `success(token)` if and only if the add reports `noErr`, `failure(silent)` otherwise, never `parse` |
| `TokenStore.TokenHandler.LoadToken` | Sources/scrap-client-api/TokenHandler.swift:45-66 | the result is `LoadOutcome`: success exactly for a filled, readable, valid UTF-8 slot, with the stored octets being the token's encoding; otherwise `silent` |
| `TokenStore.TokenHandler.ClearToken` | Sources/scrap-client-api/TokenHandler.swift:68-75 | new Keychain is `AfterClear`; reports nothing |
| `TokenStore.TokenHandler.TokenValue` | Sources/scrap-client-api/TokenHandler.swift:77-83 | `Some(t)` exactly when load gives `success(t)`, `None` otherwise |
| `TokenStore.CanSaveAndLoadToken` | Tests/scrap-client-apiTests/TokenTests.swift:21-38 | a fresh save succeeds and the following load returns the same token, whatever the Keychain held |
| `TokenStore.CanDeleteToken` | Tests/scrap-client-apiTests/TokenTests.swift:40-56 | save, clear, load always fails |
| `AuthApi.LoginErrorTransform` | Sources/scrap-client-api/API.swift:35-37 | every rejected login is `server("Dang!")`, whatever the body and status |
| `AuthApi.RegisterErrorTransform` | Sources/scrap-client-api/API.swift:52-61 | the register error transform answers `ClassifyRegisterError` on every body and status |
| `AuthApi.DefaultErrorTransform` | Sources/scrap-client-api/API.swift:237 | the default error transform is `silent` on every body and status |
| `AuthApi.ClassifyRegisterError` | Sources/scrap-client-api/API.swift:52-61 | always a server error; `server(reason)` when the status is 400 or 409 and the body decodes as `{reason}`, the generic title otherwise |
| `AuthApi.TestResponseTransform` | Sources/scrap-client-api/API.swift:86-92 | succeeds exactly on valid UTF-8, with text that encodes back to the body; otherwise throws `silent` |
| `AuthApi.LoginRejected` | Sources/scrap-client-api/API.swift:35-39 | any non-2xx login response fails with `server("Dang!")` |
| `AuthApi.RegisterRejected` | Sources/scrap-client-api/API.swift:52-63 | a 409 with `{reason: m}` fails with `server(m)`; a 400 without a decodable body fails with the generic title |
| `AuthApi.TestResponse` | Sources/scrap-client-api/API.swift:86-96 | a non-2xx `/me` answer is `silent` (the default transform); a 2xx answer is its body as text, or `silent` when that is not UTF-8 |
| `AuthApi.API.constructor` | Sources/scrap-client-api/API.swift:27 | `hasToken` starts as whether a token loads |
| `AuthApi.API.SaveTokenOrThrow` | Sources/scrap-client-api/API.swift:105-114 | the Keychain is `AfterSave`; on success it returns the same token and sets `hasToken` to whether a load succeeds (not a constant); on failure it returns `couldNotStoreToken` and leaves `hasToken` alone |
| `AuthApi.API.Login` | Sources/scrap-client-api/API.swift:30-43 | sends exactly the Basic-authorized POST `/login`; transport errors pass through with the store untouched; a received token is saved as above; a successful login's token is what a load then returns |
| `AuthApi.API.Test` | Sources/scrap-client-api/API.swift:72-97 | with no loadable token, `missingToken` and no request; otherwise exactly one GET `/me` with the loaded bearer token, whose result is `run` with the default error transform and the text transform |
| `AuthApi.API.Register` | Sources/scrap-client-api/API.swift:45-70 | sends the POST `/register`; failures before or during save skip `test()` and send nothing more; after a successful save the result is exactly `test()`'s, with its GET `/me` sent after the register request |
| `AuthApi.API.ClearToken` | Sources/scrap-client-api/API.swift:99-103 | the slot is cleared, `hasToken` is recomputed from a load and is therefore `false` |

## Left out

- URLSession, the Combine publishers, `.receive(on: DispatchQueue.main)` and the subscribers of `CurrentValueSubject`: asynchronous delivery is not modelled. Each call returns its one result, and only the latest value of `hasToken` is kept.
- The Security framework: the query dictionaries, and `SecItemDelete` ever failing. Delete always removes the slot. Because it runs first, the add never meets a duplicate, so add's status is the given parameter.
- `TokenStore.TokenHandler.SaveToken`: has no `parse` branch. A Dafny string, like a Swift `String`, consists of Unicode scalar values, and each of them has a UTF-8 encoding. The contract states instead that `parse` is never returned.
- `AuthApi.API.Register`: one `readStatus` stands for every Keychain read in the call: the recompute after saving and the load inside `test()`.
- Foundation's own UTF-8 decoder: `Utf8.Decode` is the strict decoder of RFC 3629 section 3. Whatever `String(data:encoding: .utf8)` does beyond it (for example dropping a leading byte order mark EF BB BF) is outside the model, so the body text of `test()` is the strict decoding.
- JSONEncoder and JSONDecoder: `Json` supplies decoding as partial functions. The register body is given already encoded, so the `try?` that may drop it is outside the model.
- `API.init(login:register:)`, `API.mock` and the `mock` branch of `test()`: they carry no logic.
- The force-unwrapped `URL(string:)`: both URL strings are constants, which the model keeps as strings.
- Races between concurrent `login`/`register` calls: each method runs to completion before another starts.
- The `Response<T>` wrapper of `Client.run`: only its value is kept, the one part the callers use.
