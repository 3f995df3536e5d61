/** Optional values, results and the client's error values. */
module Results {

  datatype Option<+T> = None | Some(value: T)

  /** The situations in which the client raises an exception or a PHP Error. */
  datatype ErrorKind =
    | AccountDeactivated     // a request after the account was marked deactivated
    | TransportFailure       // the HTTP client threw
    | BadJson                // a body declared as JSON decoded to a falsy value
    | NoNewNonce             // the nonce HEAD did not answer 204
    | PrivateKeyUnavailable  // the JWK signer could not load the private key
    | ChallengeNotFound      // no challenge of the requested type
    | NotAnArray             // a body left as a Stream object was indexed as an array

  /** An exception: its kind and its message text. */
  datatype Error = Error(kind: ErrorKind, message: string)

  datatype Result<+T> = Ok(value: T) | Err(error: Error)

  /** The result of an operation that returns nothing when it succeeds. */
  datatype Outcome = Pass | Fail(error: Error)
}
