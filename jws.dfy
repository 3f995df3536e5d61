/**
 * JSON Web Signature envelopes as the ACME client builds them (section 6.2 of
 * RFC 8555): the payload segment, the two protected-header shapes, and the
 * flattened JSON serialization { protected, payload, signature }.
 *
 * JSON encoding and decoding, base64url, key loading and RSA-SHA256 are not
 * interpreted: they are the fields of a `Codec`.
 */
module Jws {
  import opened Results
  import opened Json

  /** A loaded private key; only the operations of `Codec` look inside it. */
  datatype PrivateKey = PrivateKey(handle: string)

  /** The public part `openssl_pkey_get_details` reports: modulus and exponent as binary strings. */
  datatype RsaPublic = RsaPublic(n: string, e: string)

  /** The external helpers the connector calls. */
  datatype Codec = Codec(
    jsonEncode: Value -> string,              // json_encode
    jsonDecode: string -> Value,              // json_decode($s, true); null when the text does not parse
    base64url: string -> string,              // base64UrlSafeEncode
    loadKey: string -> Option<PrivateKey>,    // openssl_pkey_get_private(file_get_contents($path))
    rsaDetails: PrivateKey -> RsaPublic,      // openssl_pkey_get_details($key)["rsa"]
    rsaSign: (string, PrivateKey) -> string)  // openssl_sign(..., OPENSSL_ALGO_SHA256)

  /** A PHP array: a JSON list or a JSON object. */
  type PhpArray = v: Value | v.Arr? || v.Obj? witness Arr([])

  /** What a caller passes as payload: null, a PHP array (which `is_array` accepts), or a string. */
  datatype Payload = Absent | Structured(value: PhpArray) | Raw(text: string)

  /** `str_replace('\/', '/', $s)`: every backslash-slash pair becomes a slash, scanning left to right. */
  function UnescapeSlashes(s: string): (r: string)
    ensures |r| == |s| - EscapeCount(s)
  {
    if |s| < 2 then s
    else if s[0] == '\\' && s[1] == '/' then
      assert !EscapeAt(s[1..], 0) && s[1..][1..] == s[2..];
      "/" + UnescapeSlashes(s[2..])
    else [s[0]] + UnescapeSlashes(s[1..])
  }

  /** Backslash-slash pairs start at position i. */
  predicate EscapeAt(s: string, i: int)
  {
    0 <= i < |s| - 1 && s[i] == '\\' && s[i + 1] == '/'
  }

  /** How many backslash-slash pairs `s` contains (two can never overlap). */
  function EscapeCount(s: string): nat
  {
    if |s| < 2 then 0 else (if EscapeAt(s, 0) then 1 else 0) + EscapeCount(s[1..])
  }

  lemma {:induction false} EscapeCountZero(s: string)
    ensures EscapeCount(s) == 0 <==> forall i :: !EscapeAt(s, i)
  {
    if |s| >= 2 {
      EscapeCountZero(s[1..]);
      if EscapeCount(s) == 0 {
        forall i ensures !EscapeAt(s, i) {
          if 1 <= i { assert !EscapeAt(s[1..], i - 1); }
        }
      } else if !EscapeAt(s, 0) {
        var j :| EscapeAt(s[1..], j);
        assert EscapeAt(s, j + 1);
      }
    }
  }

  lemma {:induction false} UnescapeWithoutPairs(s: string)
    requires forall i :: !EscapeAt(s, i)
    ensures UnescapeSlashes(s) == s
  {
    if |s| >= 2 {
      assert !EscapeAt(s, 0);
      forall i ensures !EscapeAt(s[1..], i) {
        assert !EscapeAt(s, i + 1);
      }
      UnescapeWithoutPairs(s[1..]);
    }
  }

  /** The replacement changes the text exactly when the text holds a backslash-slash pair. */
  lemma UnescapeUnchangedIff(s: string)
    ensures UnescapeSlashes(s) == s <==> forall i :: !EscapeAt(s, i)
  {
    EscapeCountZero(s);
    if forall i :: !EscapeAt(s, i) {
      UnescapeWithoutPairs(s);
    }
  }

  /** The text the payload segment encodes: json_encode of an array, a string as it is, "" for null. */
  function PayloadText(c: Codec, p: Payload): string
  {
    match p
    case Absent => ""
    case Structured(v) => c.jsonEncode(v)
    case Raw(t) => t
  }

  function PayloadSegment(c: Codec, p: Payload): string
  {
    c.base64url(UnescapeSlashes(PayloadText(c, p)))
  }

  /** The Key ID protected header { alg, kid, nonce, url }. */
  function KidProtected(kid: Option<string>, nonce: Option<string>, url: string): (h: Value)
    ensures Keys(h) == ["alg", "kid", "nonce", "url"]
    ensures Member(h, "alg") == Str("RS256") && Member(h, "kid") == Nullable(kid)
    ensures Member(h, "nonce") == Nullable(nonce) && Member(h, "url") == Str(url)
  {
    var ms := [("alg", Str("RS256")), ("kid", Nullable(kid)), ("nonce", Nullable(nonce)), ("url", Str(url))];
    LookupFinds(ms, 0); LookupFinds(ms, 1); LookupFinds(ms, 2); LookupFinds(ms, 3);
    Obj(ms)
  }

  /** The JSON Web Key of an RSA key: { kty: "RSA", n, e } with n and e base64url-encoded. */
  function Jwk(c: Codec, key: PrivateKey): (j: Value)
    ensures Keys(j) == ["kty", "n", "e"] && Member(j, "kty") == Str("RSA")
    ensures Member(j, "n") == Str(c.base64url(c.rsaDetails(key).n))
    ensures Member(j, "e") == Str(c.base64url(c.rsaDetails(key).e))
  {
    var details := c.rsaDetails(key);
    var ms := [("kty", Str("RSA")), ("n", Str(c.base64url(details.n))), ("e", Str(c.base64url(details.e)))];
    LookupFinds(ms, 0); LookupFinds(ms, 1); LookupFinds(ms, 2);
    Obj(ms)
  }

  /** The JSON Web Key protected header { alg, jwk, nonce, url }. */
  function JwkProtected(c: Codec, key: PrivateKey, nonce: Option<string>, url: string): (h: Value)
    ensures Keys(h) == ["alg", "jwk", "nonce", "url"]
    ensures Member(h, "alg") == Str("RS256") && Member(h, "jwk") == Jwk(c, key)
    ensures Member(h, "nonce") == Nullable(nonce) && Member(h, "url") == Str(url)
  {
    var ms := [("alg", Str("RS256")), ("jwk", Jwk(c, key)), ("nonce", Nullable(nonce)), ("url", Str(url))];
    LookupFinds(ms, 0); LookupFinds(ms, 1); LookupFinds(ms, 2); LookupFinds(ms, 3);
    Obj(ms)
  }

  /** The three base64url segments of a flattened JWS. */
  datatype Envelope = Envelope(protected: string, payload: string, signature: string)

  /** What `openssl_sign` leaves in `$signed`: the signature, or nothing when the key did not load. */
  function SignatureOf(c: Codec, input: string, key: Option<PrivateKey>): string
  {
    if key.Some? then c.rsaSign(input, key.value) else ""
  }

  /** The shared signing procedure: encode header and payload, sign "protected.payload", encode the signature. */
  function Seal(c: Codec, header: Value, p: Payload, key: Option<PrivateKey>): (e: Envelope)
    ensures e.protected == c.base64url(c.jsonEncode(header)) && e.payload == PayloadSegment(c, p)
    ensures e.signature == c.base64url(SignatureOf(c, e.protected + "." + e.payload, key))
  {
    var protected64 := c.base64url(c.jsonEncode(header));
    var payload64 := PayloadSegment(c, p);
    Envelope(protected64, payload64, c.base64url(SignatureOf(c, protected64 + "." + payload64, key)))
  }

  function EnvelopeJson(e: Envelope): (j: Value)
    ensures Keys(j) == ["protected", "payload", "signature"]
    ensures Member(j, "protected") == Str(e.protected) && Member(j, "payload") == Str(e.payload)
    ensures Member(j, "signature") == Str(e.signature)
  {
    var ms := [("protected", Str(e.protected)), ("payload", Str(e.payload)), ("signature", Str(e.signature))];
    LookupFinds(ms, 0); LookupFinds(ms, 1); LookupFinds(ms, 2);
    Obj(ms)
  }

  /** What a server recovers from a flattened JWS text: the header, the payload, the signed input and the signature. */
  datatype Opened = Opened(header: Value, payload: string, signingInput: string, signature: string)

  function Open(c: Codec, base64urlDecode: string -> string, text: string): Option<Opened>
  {
    var j := c.jsonDecode(text);
    var p := Member(j, "protected");
    var pl := Member(j, "payload");
    var s := Member(j, "signature");
    if p.Str? && pl.Str? && s.Str? then
      Some(Opened(c.jsonDecode(base64urlDecode(p.s)), base64urlDecode(pl.s), p.s + "." + pl.s, base64urlDecode(s.s)))
    else None
  }

  /** base64url decoding undoes the encoding of every string. */
  ghost predicate Base64Decodes(c: Codec, base64urlDecode: string -> string)
  {
    forall s :: base64urlDecode(c.base64url(s)) == s
  }

  /** `json_decode(json_encode($v), true)` gives back `v`. */
  predicate JsonRoundTrips(c: Codec, v: Value)
  {
    c.jsonDecode(c.jsonEncode(v)) == v
  }

  /**
   * The decoders undo the encoders on what a signed request carries: every
   * string through base64url, and every flattened JWS object (three members
   * with distinct keys and string values) through JSON.
   */
  ghost predicate Decodes(c: Codec, base64urlDecode: string -> string)
  {
    && Base64Decodes(c, base64urlDecode)
    && (forall e: Envelope :: JsonRoundTrips(c, EnvelopeJson(e)))
  }

  /** RSA verification accepts every signature made with the matching private key. */
  ghost predicate Verifies(c: Codec, rsaVerify: (string, string, RsaPublic) -> bool)
  {
    forall m, k :: rsaVerify(m, c.rsaSign(m, k), c.rsaDetails(k))
  }

  /** Opening a sealed envelope gives back the header, the payload text, and the signature over "protected.payload". */
  lemma SealOpens(c: Codec, base64urlDecode: string -> string, header: Value, p: Payload, key: Option<PrivateKey>)
    requires Decodes(c, base64urlDecode) && JsonRoundTrips(c, header)
    ensures var e := Seal(c, header, p, key);
      Open(c, base64urlDecode, c.jsonEncode(EnvelopeJson(e)))
        == Some(Opened(header, UnescapeSlashes(PayloadText(c, p)), e.protected + "." + e.payload,
                       SignatureOf(c, e.protected + "." + e.payload, key)))
  {
  }

  /** With the key loaded, the opened signature verifies over the opened signing input with the key's public part. */
  lemma SealVerifies(c: Codec, base64urlDecode: string -> string, rsaVerify: (string, string, RsaPublic) -> bool,
                     header: Value, p: Payload, key: PrivateKey)
    requires Decodes(c, base64urlDecode) && JsonRoundTrips(c, header) && Verifies(c, rsaVerify)
    ensures var o := Open(c, base64urlDecode, c.jsonEncode(EnvelopeJson(Seal(c, header, p, Some(key)))));
      o.Some? && rsaVerify(o.value.signingInput, o.value.signature, c.rsaDetails(key))
  {
    SealOpens(c, base64urlDecode, header, p, Some(key));
  }
}
