# ACME client core: connector and authorization

This project models the client side of the ACME protocol (RFC 8555) as the
PHP certificate toolbox implements it. It covers two classes.

- `LEConnector` discovers the directory, keeps the anti-replay nonce
  (section 7.2 of RFC 8555), dispatches GET/POST/HEAD requests and
  normalizes their responses. It also builds the two flavours of flattened
  JWS request body: JWK-signed and KID-signed (section 6.2 of RFC 8555).
- `LEAuthorization` loads an authorization with a POST-as-GET, refreshes
  its four fields all-or-nothing, and picks a challenge by type.

Modules:

- `Results`, `Strings`, `Json`: the small value vocabulary.
  - `Json.Value` is the decoded JSON a PHP associative array holds.
  - `Strings` carries PHP's `empty`, string conversion and
    case-insensitive header names.
- `Http`: PSR-7 requests and responses. The HTTP client is a `Transport`
  class that answers from a script of replies and records every request it
  is sent. An exhausted script behaves as an unreachable server.
- `Jws`: the signing procedure. JSON encoding, base64url, key loading and
  RSA are parameters, gathered in a `Codec` value. Their laws appear only as
  lemma hypotheses, and only about the values a signed request carries:
  - `Decodes`: base64url decoding undoes the encoding, and every flattened
    JWS object survives a JSON round trip;
  - `JsonRoundTrips`: the same, for the protected header actually sealed;
  - `Verifies`: a signature verifies with the matching public key.
- `Connection`: the `Connector` class. Each of its methods is proved
  against a function on values. `RequestSpec`, `MaintainSpec`,
  `NewNonceSpec`, `DirectorySpec` and `BootSpec` map a `Channel` (the nonce,
  the remaining replies, the requests sent, the debug log) to the result and
  the new channel.
- `ConnectorFacts`: the protocol's promises, proved about those functions.
- `Authorizations`: the `Authorization` class, its refresh function
  `RefreshSpec`, and its lemmas.

PHP constructors that can throw become static methods that return a
`Result`: `Connector.Connect` and `Authorization.Open`. The plain Dafny
constructors only assign fields.

Behaviour of the code that the model keeps as written:

- A POST-as-GET (section 6.3 of RFC 8555) must carry the empty payload. The
  code produces it only for a null or empty-string payload. An empty PHP array is
  `json_encode`d to `[]` and signed as that text.
- A response not declared exactly as `application/json` keeps its body as
  the Guzzle Stream object (`Connection.Body.RawBody` holds its text).
  Reading a member of it, as `getLEDirectory` and the authorization refresh
  do, raises a PHP Error before any field is assigned
  (`Connection.BodyArray`, error kind `NotAnArray`).
- `getChallenge` compares types with PHP's loose `==`. The model compares
  the `type` member with the requested string as JSON strings.

## Model

| member | source | states |
|---|---|---|
| Connection.Connector.constructor | src/LEConnector.php:79-84 | stores base URL, keys and client; no nonce, no account URL, not deactivated |
| Connection.Connector.Connect | src/LEConnector.php:79-88 | construction = directory fetch then nonce fetch (`BootSpec`); either failure (including a directory body that is no array) aborts with its error, success yields a fresh connector holding the directory URLs and the nonce |
| Connection.Connector.GetLEDirectory | src/LEConnector.php:93-101 | GET /directory; when the body decoded as JSON the five endpoint fields are its members as strings; a failed request or a body left as a Stream is an error and leaves them unchanged |
| Connection.BodyArray | src/LEConnector.php:96 | a body can be indexed exactly when it was decoded as JSON; indexing the Stream of an undeclared body is the NotAnArray Error |
| Connection.Connector.GetNewNonce | src/LEConnector.php:106-113 | HEAD newNonce; fails unless the response status is 204, with the "No new nonce - fetched … got …" message |
| Connection.Connector.Request | src/LEConnector.php:125-160 | deactivation guard, URL resolution, Accept/Content-Type headers, transport error messages, nonce maintenance, then normalization, as `RequestSpec` |
| Connection.Connector.FormatResponse | src/LEConnector.php:162-193 | the response is normalized: JSON decoded only for Content-Type exactly application/json, an empty decode is "Bad JSON received", the header text and status are kept |
| Connection.RenderHeader | src/LEConnector.php:166-172 | the header text is the status line followed by one "name: value" line per header value, in order |
| Connection.RenderValues | src/LEConnector.php:169-171 | one "name: value" line per value of one header |
| Connection.Connector.MaintainNonce | src/LEConnector.php:195-203 | a Replay-Nonce header's first value becomes the nonce; otherwise a POST fetches a new nonce and GET/HEAD change nothing |
| Connection.Connector.Get | src/LEConnector.php:213-216 | a GET request without data |
| Connection.Connector.Post | src/LEConnector.php:226-229 | a POST request with the given data |
| Connection.Connector.Head | src/LEConnector.php:239-242 | a HEAD request without data |
| Connection.Connector.KeyPath | src/LEConnector.php:256-258 | the key file is the argument, or the account's private key when the argument is '' |
| Connection.Connector.SignRequestJWK | src/LEConnector.php:256-262 | fails with "LEConnector::signRequestJWK failed to get private key" exactly when the key does not load |
| Connection.Connector.SignRequestKid | src/LEConnector.php:305-335 | never fails: the envelope seals a header holding exactly alg = RS256, kid, the stored nonce and url, in that order, with the key at the defaulted path, and an empty signature when the key does not load; `SignedKidOpens` states what it opens to |
| ConnectorFacts.OutgoingRequestShape | src/LEConnector.php:131-138 | the request carries the method, the resolved URL and the data; Accept always; Content-Type exactly when the data is non-empty in PHP's sense |
| ConnectorFacts.ResolveURLIdempotent | src/LEConnector.php:131 | against an absolute base, a resolved URL is absolute and resolves to itself |
| ConnectorFacts.DeactivatedRequestFails | src/LEConnector.php:127-129 | a deactivated account gets the deactivation error and nothing is sent or changed |
| ConnectorFacts.TransportFailureReported | src/LEConnector.php:140-154 | a transport failure gives one error naming the method and the URL as given, after one request, with the nonce unchanged |
| ConnectorFacts.FailureMessageShape | src/LEConnector.php:143-153 | the message is "<method> <url> failed", with " (<detail>)" appended exactly when the error body decodes to a non-empty value holding a detail |
| ConnectorFacts.NormalizeShape | src/LEConnector.php:174-188 | the body is decoded exactly when Content-Type is application/json; normalization fails with "Bad JSON received" exactly when that decode is empty; otherwise request line, raw body, status and header text are kept |
| ConnectorFacts.ReplayNonceAdopted | src/LEConnector.php:197-199 | a Replay-Nonce answer sets the nonce to its first value with no extra request, and the next KID header carries that nonce |
| ConnectorFacts.PostWithoutNonceRefetches | src/LEConnector.php:200-201 | a POST answered without Replay-Nonce sends exactly one HEAD to newNonce and succeeds exactly when that HEAD answers 204 and both responses normalize |
| ConnectorFacts.GetAndHeadKeepNonce | src/LEConnector.php:195-203 | GET and HEAD answered without Replay-Nonce keep the nonce and send nothing more |
| ConnectorFacts.LogGrows | src/LEConnector.php:195-203 | a request only ever appends to the debug log |
| ConnectorFacts.RequestBounds | src/LEConnector.php:125-160 | a request sends nothing exactly when deactivated, otherwise its own request first and, only for POST, at most the nonce HEAD; each send consumes one reply |
| ConnectorFacts.NonceFetchNeeds204 | src/LEConnector.php:106-113 | the nonce fetch passes exactly when its HEAD yields a response with status 204 |
| ConnectorFacts.NonceStoredDespiteFailure | src/LEConnector.php:108-111 | a non-204 nonce answer fails the fetch but its Replay-Nonce has already been stored |
| ConnectorFacts.DirectoryNeedsJsonBody | src/LEConnector.php:95-100 | the directory loads exactly when its GET succeeds with a body decoded as JSON; a Stream body gives the NotAnArray Error |
| ConnectorFacts.DirectoryLoads | src/LEConnector.php:95-100 | a directory answer without Replay-Nonce, declared as JSON and decoding to a non-empty value, yields the decoded directory after exactly one request |
| ConnectorFacts.NonceLoads | src/LEConnector.php:106-113 | a 204 nonce answer that carries Replay-Nonce and is not declared as JSON passes the fetch and stores that nonce after exactly one request (a 204 declared as JSON with an empty body fails "Bad JSON received" instead) |
| ConnectorFacts.BootOrder | src/LEConnector.php:86-87 | construction sends GET <base>/directory first; a directory that fails ends construction with its error and nothing more is sent; a directory that loads is followed by exactly one HEAD to its newNonce, whether or not the nonce fetch then passes |
| ConnectorFacts.BootLoads | src/LEConnector.php:79-113 | a directory answer declared as JSON, decoding to a non-empty value and carrying no Replay-Nonce, then a 204 nonce answer that carries Replay-Nonce and is not declared as JSON, give the decoded directory and the stored nonce, consuming exactly two replies |
| ConnectorFacts.BootScenario | src/LEConnector.php:79-101 | a directory naming new-nonce and new-acct plus a 204 HEAD with Replay-Nonce AAA yields newAccount https://ca/acme/new-acct and nonce AAA in the next KID header |
| ConnectorFacts.SignedKidOpens | src/LEConnector.php:305-335 | a KID body opens to {alg RS256, kid, nonce, url}, the payload with "\/" unescaped, and the signature over "protected.payload" |
| ConnectorFacts.SignedKidVerifies | src/LEConnector.php:320-326 | with a loadable key the KID signature verifies with that key's public part |
| ConnectorFacts.SignedJwkOpens | src/LEConnector.php:254-292 | a JWK body opens to {alg RS256, jwk {kty RSA, n, e}, nonce, url} and its signature verifies with the key's public part |
| Http.FlattenMembers | src/LEConnector.php:168-171 | the header pairs are exactly the (name, value) of some header and one of its values |
| Http.LinesAppend | src/LEConnector.php:168-171 | the lines of two pair lists are the lines of each, concatenated |
| Jws.KidProtected | src/LEConnector.php:313-318 | the KID header has keys alg, kid, nonce, url in that order, with RS256, the kid, the nonce and the url |
| Jws.Jwk | src/LEConnector.php:268-272 | the JWK has keys kty, n, e with RSA and the base64url of the modulus and exponent |
| Jws.JwkProtected | src/LEConnector.php:266-275 | the JWK header has keys alg, jwk, nonce, url with RS256, the key's JWK, the nonce and the url |
| Jws.EnvelopeJson | src/LEConnector.php:285-289 | the body has keys protected, payload, signature holding the three segments |
| Jws.Seal | src/LEConnector.php:277-283 | the signature segment signs exactly the protected and payload segments joined by "." |
| Jws.SealOpens | src/LEConnector.php:277-291 | decoding the sealed body gives back the header, the unescaped payload text and the signature over "protected.payload" |
| Jws.SealVerifies | src/LEConnector.php:282-283 | a signature made with a loaded key verifies over the opened signing input |
| Jws.UnescapeSlashes | src/LEConnector.php:278 | unescaping shortens the payload text by one per "\/" pair found left to right |
| Jws.UnescapeUnchangedIff | src/LEConnector.php:278 | the payload text is unchanged exactly when it holds no "\/" pair |
| Authorizations.Authorization.constructor | src/LEAuthorization.php:34-38 | stores connector and URL; the four fields are null and nothing is logged |
| Authorizations.Authorization.Open | src/LEAuthorization.php:34-57 | construction is one refresh (`RefreshSpec`) from null fields with the "__construct cannot find authorization" note; a failed request, or a 200 answer whose body is a Stream, aborts it |
| Authorizations.Authorization.UpdateData | src/LEAuthorization.php:63-82 | one refresh with the "updateData cannot find authorization" note; a 200 answer whose body is a Stream is an error and leaves every field as it was |
| Authorizations.Authorization.Refresh | src/LEAuthorization.php:65-81 | signs a KID request with null payload, the account URL and the authorization URL, POSTs it, and updates fields and log as `RefreshSpec` |
| Authorizations.Authorization.GetChallenge | src/LEAuthorization.php:93-105 | returns a challenge of the type exactly when one exists, and it is the first such; otherwise "No challenge found for type '…' and identifier '…'." |
| Authorizations.RefreshAllOrNothing | src/LEAuthorization.php:71-81 | the four fields are all taken from a 200 answer decoded as JSON and otherwise all kept; the refresh fails exactly when the request fails or a 200 body is a Stream; the note is logged exactly when a delivered answer was not 200 |
| Authorizations.RefreshRequests | src/LEAuthorization.php:65-71 | a refresh POSTs the signed text to the authorization URL first, followed by at most the nonce HEAD |
| Authorizations.AuthorizationPostIsPostAsGet | src/LEAuthorization.php:65-69 | the refresh body opens to an empty payload, kid = account URL, url = authorization URL, and the current nonce |

## Left out

- The PSR-3 logger: debug lines are kept as a list of strings (`logged`, `errors`). Log levels and context are not modelled.
- Guzzle's exception hierarchy is reduced to three replies: delivered, rejected with an optional body, and unreachable. Exception chaining (`previous`) is not modelled.
- JSON, base64url, file reading, OpenSSL key loading and RSA signing are uninterpreted functions in `Jws.Codec`. Their byte-level behaviour is not modelled; JSON numbers are integers only, so floats are left out.
- A JSON body that decodes to a scalar (a string, a number or `true`) is read as having no members. PHP reads a string offset or null there, depending on the type and PHP version.
- Connection.DirectoryOf: each directory member is stored as its PHP string conversion: a missing or null member as `""`, a boolean, number or array as the text PHP gives it. The source stores the member value itself (src/LEConnector.php:96-100). The core only concatenates these fields into URLs (src/LEConnector.php:108, 111, 131), where PHP applies the same conversion, so no request differs.
- The `TestResponseGenerator` dump and the commented-out debug line in `formatResponse` are inert in the source and left out.
- `LEFunctions`, `LEOrder`, `LEAccount` and `Sleep.php` are not part of this model. The connector's `accountURL` and `accountDeactivated` are set by them, and here are only read.
- Authorizations.Authorization.GetChallenge: PHP's loose `==` between a challenge's type and the requested type is modelled as equality of JSON strings, so numeric-string coercions are not captured.
