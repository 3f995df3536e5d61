/** What the connector promises, stated about the functions its methods are proved against. */
module ConnectorFacts {
  import opened Results
  import opened Strings
  import opened Json
  import opened Http
  import opened Jws
  import opened Connection

  /** The replies left after `k` sends. */
  function Drop(script: seq<Reply>, k: nat): seq<Reply>
  {
    if k >= |script| then [] else script[k..]
  }

  /** The request handed to the transport: Accept always, Content-Type exactly when there is non-empty data. */
  lemma OutgoingRequestShape(baseURL: string, m: Method, url: string, data: Option<string>)
    ensures var r := OutgoingRequest(baseURL, m, url, data);
      && r.verb == m && r.body == data && r.url == ResolveURL(baseURL, url)
      && ("Accept", "application/json") in r.headers
      && (("Content-Type", "application/json") in r.headers <==> data.Some? && !IsEmptyString(data.value))
  {
  }

  /** An absolute URL passes unchanged, a relative one is appended to the base; so, against an absolute base, resolving twice is resolving once. */
  lemma ResolveURLIdempotent(baseURL: string, url: string)
    requires StartsWithHttp(baseURL)
    ensures StartsWithHttp(ResolveURL(baseURL, url))
    ensures ResolveURL(baseURL, ResolveURL(baseURL, url)) == ResolveURL(baseURL, url)
  {
    if !StartsWithHttp(url) {
      assert (baseURL + url)[..4] == baseURL[..4];
    }
  }

  /** After deactivation a request fails before anything is sent, and nothing changes. */
  lemma DeactivatedRequestFails(cfg: Config, w: Channel, m: Method, url: string, data: Option<string>)
    requires cfg.deactivated
    ensures RequestSpec(cfg, w, m, url, data) == (Err(Error(AccountDeactivated, DeactivatedMessage)), w)
  {
  }

  /** A transport failure is one error naming the method and the URL as given; the nonce is untouched. */
  lemma TransportFailureReported(cfg: Config, w: Channel, m: Method, url: string, data: Option<string>)
    requires !cfg.deactivated && !Next(w.script).Delivered?
    ensures var (r, w') := RequestSpec(cfg, w, m, url, data);
      && r == Err(Error(TransportFailure, FailureMessage(cfg.decode, m, url, Next(w.script))))
      && w' == AfterSend(cfg, w, m, url, data) && w'.nonce == w.nonce
  {
  }

  /** "<method> <url> failed", with " (<detail>)" exactly when the error body is JSON holding a detail. */
  lemma FailureMessageShape(decode: string -> Value, m: Method, url: string, reply: Reply)
    ensures var message := FailureMessage(decode, m, url, reply);
      var plain := m.Name() + " " + url + " failed";
      var hasDetail := reply.Rejected? && reply.errorBody.Some?
        && !Falsy(decode(reply.errorBody.value)) && IsSet(decode(reply.errorBody.value), "detail");
      && plain <= message
      && (message != plain <==> hasDetail)
      && (hasDetail ==> message == plain + " (" + AsString(Member(decode(reply.errorBody.value), "detail")) + ")")
  {
  }

  /**
   * Normalization decodes the body exactly when Content-Type is application/json,
   * fails exactly when that decode is empty, and otherwise keeps the request
   * line, the raw body, the status and the header text.
   */
  lemma NormalizeShape(decode: string -> Value, m: Method, requestURL: string, response: Response)
    ensures var r := Normalize(decode, m, requestURL, response);
      && (r.Err? <==> DeclaresJson(response) && Falsy(decode(response.body)))
      && (r.Err? ==> r.error == Error(BadJson, "Bad JSON received " + response.body))
      && (r.Ok? ==>
            && r.value.request == m.Name() + " " + requestURL
            && r.value.raw == response.body && r.value.status == response.status
            && r.value.header == HeaderText(response)
            && (r.value.body.JsonBody? <==> DeclaresJson(response))
            && (r.value.body.JsonBody? ==> r.value.body.value == decode(response.body))
            && (r.value.body.RawBody? ==> r.value.body.text == response.body))
  {
  }

  /**
   * A Replay-Nonce header replaces the stored nonce with its first value, with
   * no further request; the next KID header then carries that nonce.
   */
  lemma ReplayNonceAdopted(cfg: Config, w: Channel, m: Method, url: string, data: Option<string>,
                           kid: Option<string>, nextURL: string)
    requires !cfg.deactivated && Next(w.script).Delivered?
    requires HasHeader(Next(w.script).response.headers, "Replay-Nonce")
    ensures var (r, w') := RequestSpec(cfg, w, m, url, data);
      var response := Next(w.script).response;
      && w'.nonce == FirstValue(response.headers, "Replay-Nonce")
      && w'.sent == w.sent + [OutgoingRequest(cfg.baseURL, m, url, data)]
      && w'.script == Rest(w.script)
      && r == Normalize(cfg.decode, m, ResolveURL(cfg.baseURL, url), response)
      && Member(KidProtected(kid, w'.nonce, nextURL), "nonce") == Nullable(FirstValue(response.headers, "Replay-Nonce"))
  {
  }

  /**
   * A POST answered without Replay-Nonce issues exactly one HEAD to newNonce.
   * The POST succeeds only when that HEAD is delivered, formats, and answers 204.
   */
  lemma PostWithoutNonceRefetches(cfg: Config, w: Channel, url: string, data: Option<string>)
    requires !cfg.deactivated && Next(w.script).Delivered?
    requires !HasHeader(Next(w.script).response.headers, "Replay-Nonce")
    ensures var (r, w') := RequestSpec(cfg, w, POST, url, data);
      var post := Next(w.script).response;
      var head := Next(Rest(w.script));
      && w'.sent == w.sent + [OutgoingRequest(cfg.baseURL, POST, url, data), OutgoingRequest(cfg.baseURL, HEAD, cfg.newNonce, None)]
      && w'.script == Rest(Rest(w.script))
      && w'.nonce == (if head.Delivered? && HasHeader(head.response.headers, "Replay-Nonce")
                      then FirstValue(head.response.headers, "Replay-Nonce") else w.nonce)
      && (r.Ok? <==>
            && head.Delivered? && head.response.status == 204
            && Normalize(cfg.decode, HEAD, ResolveURL(cfg.baseURL, cfg.newNonce), head.response).Ok?
            && Normalize(cfg.decode, POST, ResolveURL(cfg.baseURL, url), post).Ok?)
      && (r.Ok? ==> r == Normalize(cfg.decode, POST, ResolveURL(cfg.baseURL, url), post))
  {
  }

  /** GET and HEAD answered without Replay-Nonce leave the nonce as it was and send nothing more. */
  lemma GetAndHeadKeepNonce(cfg: Config, w: Channel, m: Method, url: string, data: Option<string>)
    requires !cfg.deactivated && !m.POST? && Next(w.script).Delivered?
    requires !HasHeader(Next(w.script).response.headers, "Replay-Nonce")
    ensures var (r, w') := RequestSpec(cfg, w, m, url, data);
      && w' == AfterSend(cfg, w, m, url, data) && w'.nonce == w.nonce
      && r == Normalize(cfg.decode, m, ResolveURL(cfg.baseURL, url), Next(w.script).response)
  {
  }

  /** A request only ever appends to the debug log. */
  lemma {:induction false} LogGrows(cfg: Config, w: Channel, m: Method, url: string, data: Option<string>)
    decreases if m.POST? then 1 else 0
    ensures w.logged <= RequestSpec(cfg, w, m, url, data).1.logged
  {
    if !cfg.deactivated && Next(w.script).Delivered? && m.POST?
       && !HasHeader(Next(w.script).response.headers, "Replay-Nonce")
    {
      LogGrows(cfg, AfterSend(cfg, w, m, url, data), HEAD, cfg.newNonce, None);
    }
  }

  /**
   * A request sends nothing when deactivated and otherwise its own request plus,
   * for a POST only, at most one nonce HEAD; each send consumes one reply, and
   * the request and log records only grow.
   */
  lemma RequestBounds(cfg: Config, w: Channel, m: Method, url: string, data: Option<string>)
    ensures var w' := RequestSpec(cfg, w, m, url, data).1;
      var k := |w'.sent| - |w.sent|;
      && w.sent <= w'.sent && w.logged <= w'.logged
      && 0 <= k <= (if m.POST? then 2 else 1)
      && (k == 0 <==> cfg.deactivated)
      && (k >= 1 ==> w'.sent[|w.sent|] == OutgoingRequest(cfg.baseURL, m, url, data))
      && (k == 2 ==> w'.sent[|w.sent| + 1] == OutgoingRequest(cfg.baseURL, HEAD, cfg.newNonce, None))
      && w'.script == Drop(w.script, k)
  {
    LogGrows(cfg, w, m, url, data);
    var reply := Next(w.script);
    if cfg.deactivated {
      DeactivatedRequestFails(cfg, w, m, url, data);
    } else if !reply.Delivered? {
      TransportFailureReported(cfg, w, m, url, data);
    } else if HasHeader(reply.response.headers, "Replay-Nonce") {
      ReplayNonceAdopted(cfg, w, m, url, data, None, "");
    } else if !m.POST? {
      GetAndHeadKeepNonce(cfg, w, m, url, data);
    } else {
      PostWithoutNonceRefetches(cfg, w, url, data);
      var w' := RequestSpec(cfg, w, m, url, data).1;
      assert w'.sent[|w.sent|] == OutgoingRequest(cfg.baseURL, m, url, data);
      assert Rest(Rest(w.script)) == Drop(w.script, 2);
    }
  }


  /** The nonce fetch succeeds exactly when its HEAD yields a normalized response with status 204. */
  lemma NonceFetchNeeds204(cfg: Config, w: Channel)
    ensures var (o, w') := NewNonceSpec(cfg, w);
      var (r, wh) := RequestSpec(cfg, w, HEAD, cfg.newNonce, None);
      && w' == wh
      && (o == Pass <==> r.Ok? && r.value.status == 204)
  {
  }

  /** A non-204 nonce HEAD fails the fetch, yet the Replay-Nonce it carried has already been stored. */
  lemma NonceStoredDespiteFailure(cfg: Config, w: Channel)
    requires !cfg.deactivated && Next(w.script).Delivered?
    requires HasHeader(Next(w.script).response.headers, "Replay-Nonce")
    requires Next(w.script).response.status != 204
    ensures var (o, w') := NewNonceSpec(cfg, w);
      var response := Next(w.script).response;
      && o.Fail? && w'.nonce == FirstValue(response.headers, "Replay-Nonce")
      && (Normalize(cfg.decode, HEAD, ResolveURL(cfg.baseURL, cfg.newNonce), response).Ok? ==> o.error.kind == NoNewNonce)
  {
  }

  /**
   * Construction sends GET <base>/directory first. A directory that fails ends it
   * with that error and nothing more is sent; a directory that loads is followed by
   * exactly one HEAD to its newNonce URL, whether or not the nonce fetch then passes.
   */
  lemma BootOrder(baseURL: string, decode: string -> Value, w: Channel)
    ensures var (d, w') := BootSpec(baseURL, decode, w);
      && |w'.sent| >= |w.sent| + 1
      && w'.sent[|w.sent|] == Request(GET, ResolveURL(baseURL, "/directory"), [("Accept", "application/json")], None)
      && var (d0, _) := DirectorySpec(Config(baseURL, "", false, decode), w);
      && (d0.Err? ==> |w'.sent| == |w.sent| + 1 && d == d0)
      && (d0.Ok? ==>
            && |w'.sent| == |w.sent| + 2
            && w'.sent[|w.sent| + 1] == Request(HEAD, ResolveURL(baseURL, d0.value.newNonce), [("Accept", "application/json")], None)
            && (d.Ok? ==> d == d0))
  {
    var cfg := Config(baseURL, "", false, decode);
    RequestBounds(cfg, w, GET, "/directory", None);
    var (d, w1) := DirectorySpec(cfg, w);
    if d.Ok? {
      RequestBounds(Config(baseURL, d.value.newNonce, false, decode), w1, HEAD, d.value.newNonce, None);
    }
  }

  /**
   * A KID-signed request opens to { alg: RS256, kid, nonce: the stored nonce, url },
   * the payload text with "\/" unescaped, and the signature of "protected.payload"
   * (empty when the key did not load).
   */
  lemma SignedKidOpens(c: Connector, base64urlDecode: string -> string, payload: Payload, kid: Option<string>,
                       url: string, privateKeyFile: string)
    requires Decodes(c.codec, base64urlDecode) && JsonRoundTrips(c.codec, KidProtected(kid, c.nonce, url))
    ensures var o := Open(c.codec, base64urlDecode, c.SignRequestKid(payload, kid, url, privateKeyFile));
      && o.Some?
      && Keys(o.value.header) == ["alg", "kid", "nonce", "url"]
      && Member(o.value.header, "alg") == Str("RS256") && Member(o.value.header, "kid") == Nullable(kid)
      && Member(o.value.header, "nonce") == Nullable(c.nonce) && Member(o.value.header, "url") == Str(url)
      && o.value.payload == UnescapeSlashes(PayloadText(c.codec, payload))
      && o.value.signature == SignatureOf(c.codec, o.value.signingInput, c.codec.loadKey(c.KeyPath(privateKeyFile)))
  {
    SealOpens(c.codec, base64urlDecode, KidProtected(kid, c.nonce, url), payload, c.codec.loadKey(c.KeyPath(privateKeyFile)));
  }

  /** With a loadable key, the KID signature verifies against that key's public part. */
  lemma SignedKidVerifies(c: Connector, base64urlDecode: string -> string, rsaVerify: (string, string, RsaPublic) -> bool,
                          payload: Payload, kid: Option<string>, url: string, privateKeyFile: string)
    requires Decodes(c.codec, base64urlDecode) && JsonRoundTrips(c.codec, KidProtected(kid, c.nonce, url))
    requires Verifies(c.codec, rsaVerify)
    requires c.codec.loadKey(c.KeyPath(privateKeyFile)).Some?
    ensures var o := Open(c.codec, base64urlDecode, c.SignRequestKid(payload, kid, url, privateKeyFile));
      && o.Some?
      && rsaVerify(o.value.signingInput, o.value.signature, c.codec.rsaDetails(c.codec.loadKey(c.KeyPath(privateKeyFile)).value))
  {
    var key := c.codec.loadKey(c.KeyPath(privateKeyFile)).value;
    SealVerifies(c.codec, base64urlDecode, rsaVerify, KidProtected(kid, c.nonce, url), payload, key);
  }

  /**
   * With a loadable key, a JWK-signed request opens to { alg: RS256, jwk: the key's
   * public JWK, nonce, url } and a signature that verifies with that public key.
   */
  lemma SignedJwkOpens(c: Connector, base64urlDecode: string -> string, rsaVerify: (string, string, RsaPublic) -> bool,
                       payload: Payload, url: string, privateKeyFile: string)
    requires Decodes(c.codec, base64urlDecode) && Verifies(c.codec, rsaVerify)
    requires c.codec.loadKey(c.KeyPath(privateKeyFile)).Some?
    requires JsonRoundTrips(c.codec, JwkProtected(c.codec, c.codec.loadKey(c.KeyPath(privateKeyFile)).value, c.nonce, url))
    ensures var r := c.SignRequestJWK(payload, url, privateKeyFile);
      var key := c.codec.loadKey(c.KeyPath(privateKeyFile)).value;
      && r.Ok?
      && var o := Open(c.codec, base64urlDecode, r.value);
      && o.Some?
      && Keys(o.value.header) == ["alg", "jwk", "nonce", "url"]
      && Member(o.value.header, "alg") == Str("RS256") && Member(o.value.header, "jwk") == Jwk(c.codec, key)
      && Member(o.value.header, "nonce") == Nullable(c.nonce) && Member(o.value.header, "url") == Str(url)
      && o.value.payload == UnescapeSlashes(PayloadText(c.codec, payload))
      && rsaVerify(o.value.signingInput, o.value.signature, c.codec.rsaDetails(key))
  {
    var key := c.codec.loadKey(c.KeyPath(privateKeyFile)).value;
    var header := JwkProtected(c.codec, key, c.nonce, url);
    SealOpens(c.codec, base64urlDecode, header, payload, Some(key));
    SealVerifies(c.codec, base64urlDecode, rsaVerify, header, payload, key);
  }

  /**
   * The directory loads exactly when its GET succeeds with a body declared as
   * JSON; a body left as a Stream fails with the Error of indexing it, and no
   * endpoint is kept.
   */
  lemma DirectoryNeedsJsonBody(cfg: Config, w: Channel)
    ensures var (d, w') := DirectorySpec(cfg, w);
      var (r, wr) := RequestSpec(cfg, w, GET, "/directory", None);
      && w' == wr
      && (d.Ok? <==> r.Ok? && r.value.body.JsonBody?)
      && (d.Ok? ==> d.value == DirectoryOf(r.value.body.value))
      && (r.Ok? && r.value.body.RawBody? ==> d == Err(Error(NotAnArray, StreamIndexMessage)))
  {
  }

  /** A directory answer declared as JSON, decoding to a non-empty value and carrying no nonce, is kept as decoded. */
  lemma DirectoryLoads(cfg: Config, w: Channel, response: Response)
    requires !cfg.deactivated && Next(w.script) == Delivered(response)
    requires !HasHeader(response.headers, "Replay-Nonce") && DeclaresJson(response)
    requires !Falsy(cfg.decode(response.body))
    ensures DirectorySpec(cfg, w) == (Ok(DirectoryOf(cfg.decode(response.body))), AfterSend(cfg, w, GET, "/directory", None))
  {
    GetAndHeadKeepNonce(cfg, w, GET, "/directory", None);
  }

  /** A 204 nonce answer with a Replay-Nonce and no JSON body passes the fetch and stores that nonce. */
  lemma NonceLoads(cfg: Config, w: Channel, response: Response)
    requires !cfg.deactivated && Next(w.script) == Delivered(response)
    requires HasHeader(response.headers, "Replay-Nonce") && !DeclaresJson(response) && response.status == 204
    ensures var (o, w') := NewNonceSpec(cfg, w);
      o == Pass && w'.nonce == FirstValue(response.headers, "Replay-Nonce")
      && w'.script == Rest(w.script) && |w'.sent| == |w.sent| + 1
  {
    ReplayNonceAdopted(cfg, w, HEAD, cfg.newNonce, None, None, "");
  }

  /**
   * Construction from a JSON directory carrying no nonce, then a 204 nonce
   * answer carrying one: the decoded directory is kept, the nonce is stored,
   * and exactly those two replies are consumed.
   */
  lemma BootLoads(baseURL: string, decode: string -> Value, w: Channel, directory: Response, nonceAnswer: Response)
    requires Next(w.script) == Delivered(directory) && Next(Rest(w.script)) == Delivered(nonceAnswer)
    requires !HasHeader(directory.headers, "Replay-Nonce") && DeclaresJson(directory) && !Falsy(decode(directory.body))
    requires HasHeader(nonceAnswer.headers, "Replay-Nonce") && !DeclaresJson(nonceAnswer) && nonceAnswer.status == 204
    ensures var (d, w') := BootSpec(baseURL, decode, w);
      && d == Ok(DirectoryOf(decode(directory.body)))
      && w'.nonce == FirstValue(nonceAnswer.headers, "Replay-Nonce")
      && w'.script == Rest(Rest(w.script)) && |w'.sent| == |w.sent| + 2
  {
    var cfg := Config(baseURL, "", false, decode);
    DirectoryLoads(cfg, w, directory);
    var (d, w1) := DirectorySpec(cfg, w);
    NonceLoads(Config(baseURL, d.value.newNonce, false, decode), w1, nonceAnswer);
  }

  /**
   * A worked construction: a directory naming the nonce and account endpoints,
   * then a 204 nonce HEAD carrying Replay-Nonce AAA. The connector keeps the
   * account endpoint, both requests are consumed, and the next KID header
   * carries the nonce AAA.
   */
  lemma BootScenario(decode: string -> Value, directoryText: string, kid: Option<string>, nextURL: string)
    requires decode(directoryText)
      == Obj([("newNonce", Str("https://ca/acme/new-nonce")), ("newAccount", Str("https://ca/acme/new-acct"))])
    ensures var script := [Delivered(Response(200, "OK", [Header("Content-Type", ["application/json"])], directoryText)),
                           Delivered(Response(204, "No Content", [Header("Replay-Nonce", ["AAA"])], ""))];
      var (d, w) := BootSpec("https://ca/acme", decode, Channel(None, script, [], []));
      && d.Ok?
      && d.value.newAccount == "https://ca/acme/new-acct" && d.value.newNonce == "https://ca/acme/new-nonce"
      && w.nonce == Some("AAA") && w.script == [] && |w.sent| == 2
      && Member(KidProtected(kid, w.nonce, nextURL), "nonce") == Str("AAA")
  {
    var directory := Response(200, "OK", [Header("Content-Type", ["application/json"])], directoryText);
    var nonceAnswer := Response(204, "No Content", [Header("Replay-Nonce", ["AAA"])], "");
    var script := [Delivered(directory), Delivered(nonceAnswer)];
    var ms := [("newNonce", Str("https://ca/acme/new-nonce")), ("newAccount", Str("https://ca/acme/new-acct"))];
    assert !SameName("Content-Type", "Replay-Nonce") && !SameName("Replay-Nonce", "Content-Type") by {
      assert Lower("Content-Type"[0]) != Lower("Replay-Nonce"[0]);
    }
    assert SameName("Content-Type", "Content-Type") && SameName("Replay-Nonce", "Replay-Nonce");
    SingleHeader("Content-Type", ["application/json"], "Replay-Nonce");
    SingleHeader("Content-Type", ["application/json"], "Content-Type");
    SingleHeader("Replay-Nonce", ["AAA"], "Replay-Nonce");
    SingleHeader("Replay-Nonce", ["AAA"], "Content-Type");
    assert Rest(script) == [Delivered(nonceAnswer)] && Rest(Rest(script)) == [];
    BootLoads("https://ca/acme", decode, Channel(None, script, [], []), directory, nonceAnswer);
    LookupFinds(ms, 0);
    LookupFinds(ms, 1);
  }
}
