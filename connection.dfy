/**
 * The connector of the ACME client: directory discovery, nonce maintenance
 * (section 7.2 of RFC 8555), request dispatch with response normalization, and
 * the two JWS signers (section 6.2 of RFC 8555).
 *
 * Each method of `Connector` is proved against a function on values: a
 * `Channel` holds what a request changes (the stored nonce, what the transport
 * has still to answer and what it was sent, the debug log), and `RequestSpec`,
 * `MaintainSpec`, `NewNonceSpec`, `DirectorySpec` and `BootSpec` say what the
 * methods do to it. The lemmas at the end state the protocol's promises about
 * those functions.
 */
module Connection {
  import opened Results
  import opened Strings
  import opened Json
  import opened Http
  import opened Jws

  /** Where the account keys live: the connector reads only `private_key`. */
  datatype AccountKeys = AccountKeys(privateKey: string)

  /** The endpoint URLs the connector keeps from the directory. */
  datatype Directory = Directory(keyChange: string, newAccount: string, newNonce: string, newOrder: string, revokeCert: string)

  /** What a request reads of the connector, besides the nonce. */
  datatype Config = Config(baseURL: string, newNonce: string, deactivated: bool, decode: string -> Value)

  /** What a request changes: the stored nonce, the replies still to come, the requests sent, the debug log. */
  datatype Channel = Channel(nonce: Option<string>, script: seq<Reply>, sent: seq<Request>, logged: seq<string>)

  /** A response body: decoded JSON, or the Stream object (given by its text) when the body was not declared as JSON. */
  datatype Body = JsonBody(value: Value) | RawBody(text: string)

  /** The normalized response { request, header, body, raw, status }. */
  datatype Formatted = Formatted(request: string, header: string, body: Body, raw: string, status: int)

  const DeactivatedMessage: string := "The account was deactivated. No further requests can be made."
  const KeyFailureMessage: string := "LEConnector::signRequestJWK failed to get private key"

  const StreamIndexMessage: string := "Cannot use object of type GuzzleHttp\\Psr7\\Stream as array"

  /**
   * `$response['body']` indexed as an array. A decoded body can be indexed.
   * A body not declared as JSON is still the Stream object, and PHP raises an
   * Error at the first index, before anything is assigned.
   */
  function BodyArray(b: Body): (r: Result<Value>)
    ensures r.Ok? <==> b.JsonBody?
    ensures r.Ok? ==> r.value == b.value
    ensures r.Err? ==> r.error == Error(NotAnArray, StreamIndexMessage)
  {
    if b.JsonBody? then Ok(b.value) else Err(Error(NotAnArray, StreamIndexMessage))
  }

  /** An absolute URL passes through; anything else is appended to the base URL. */
  function ResolveURL(baseURL: string, url: string): string
  {
    if StartsWithHttp(url) then url else baseURL + url
  }

  function RequestHeaders(data: Option<string>): seq<(string, string)>
  {
    [("Accept", "application/json")]
      + (if data.Some? && !IsEmptyString(data.value) then [("Content-Type", "application/json")] else [])
  }

  /** The request `request` hands to the HTTP client. */
  function OutgoingRequest(baseURL: string, m: Method, url: string, data: Option<string>): Request
  {
    Request(m, ResolveURL(baseURL, url), RequestHeaders(data), data)
  }

  /** " (<detail>)" when the error body decodes to a non-empty value with a `detail`; nothing otherwise. */
  function DetailSuffix(errorJson: Value): string
  {
    if !Falsy(errorJson) && IsSet(errorJson, "detail") then " (" + AsString(Member(errorJson, "detail")) + ")" else ""
  }

  /** The message of a transport failure; it names the URL as the caller gave it. */
  function FailureMessage(decode: string -> Value, m: Method, url: string, reply: Reply): string
  {
    m.Name() + " " + url + " failed"
      + (if reply.Rejected? && reply.errorBody.Some? then DetailSuffix(decode(reply.errorBody.value)) else "")
  }

  predicate DeclaresJson(r: Response)
  {
    HeaderLine(r.headers, "Content-Type") == "application/json"
  }

  /** What `formatResponse` makes of a response. */
  function Normalize(decode: string -> Value, m: Method, requestURL: string, r: Response): Result<Formatted>
  {
    var body := if DeclaresJson(r) then JsonBody(decode(r.body)) else RawBody(r.body);
    if body.JsonBody? && Falsy(body.value) then Err(Error(BadJson, "Bad JSON received " + r.body))
    else Ok(Formatted(m.Name() + " " + requestURL, HeaderText(r), body, r.body, r.status))
  }

  /** The channel once the request is handed to the transport: one reply consumed, the request recorded. */
  function AfterSend(cfg: Config, w: Channel, m: Method, url: string, data: Option<string>): Channel
  {
    w.(script := Rest(w.script), sent := w.sent + [OutgoingRequest(cfg.baseURL, m, url, data)])
  }

  /** `request`: guard, send, maintain the nonce, normalize. */
  function RequestSpec(cfg: Config, w: Channel, m: Method, url: string, data: Option<string>): (Result<Formatted>, Channel)
    decreases if m.POST? then 1 else 0, 2
  {
    if cfg.deactivated then (Err(Error(AccountDeactivated, DeactivatedMessage)), w)
    else
      var reply := Next(w.script);
      var w1 := AfterSend(cfg, w, m, url, data);
      if !reply.Delivered? then (Err(Error(TransportFailure, FailureMessage(cfg.decode, m, url, reply))), w1)
      else
        var (o, w2) := MaintainSpec(cfg, w1, m, reply.response);
        if o.Fail? then (Err(o.error), w2)
        else (Normalize(cfg.decode, m, ResolveURL(cfg.baseURL, url), reply.response), w2)
  }

  /** `maintainNonce`: adopt a Replay-Nonce, or fetch a fresh nonce after a POST that brought none. */
  function MaintainSpec(cfg: Config, w: Channel, m: Method, r: Response): (Outcome, Channel)
    decreases if m.POST? then 1 else 0, 1
  {
    if HasHeader(r.headers, "Replay-Nonce") then
      var n := FirstValue(r.headers, "Replay-Nonce");
      (Pass, w.(nonce := n, logged := w.logged + ["got new nonce " + AsString(Nullable(n))]))
    else if m.POST? then NewNonceSpec(cfg, w)
    else (Pass, w)
  }

  /** `getNewNonce`: HEAD the newNonce URL and insist on 204. */
  function NewNonceSpec(cfg: Config, w: Channel): (Outcome, Channel)
    decreases 1, 0
  {
    var (r, w1) := RequestSpec(cfg, w, HEAD, cfg.newNonce, None);
    if r.Err? then (Fail(r.error), w1)
    else if r.value.status != 204 then
      (Fail(Error(NoNewNonce, "No new nonce - fetched " + cfg.newNonce + " got " + r.value.header)), w1)
    else (Pass, w1)
  }

  /** The endpoint URLs of a decoded directory, each converted to a string. */
  function DirectoryOf(j: Value): Directory
  {
    Directory(AsString(Member(j, "keyChange")), AsString(Member(j, "newAccount")), AsString(Member(j, "newNonce")),
              AsString(Member(j, "newOrder")), AsString(Member(j, "revokeCert")))
  }

  /** `getLEDirectory`: GET /directory and keep its endpoint URLs; a body that is no array is an error. */
  function DirectorySpec(cfg: Config, w: Channel): (Result<Directory>, Channel)
  {
    var (r, w1) := RequestSpec(cfg, w, GET, "/directory", None);
    if r.Err? then (Err(r.error), w1)
    else
      var a := BodyArray(r.value.body);
      (if a.Err? then Err(a.error) else Ok(DirectoryOf(a.value)), w1)
  }

  /** Construction: the directory first, then a nonce from the directory's newNonce URL. */
  function BootSpec(baseURL: string, decode: string -> Value, w: Channel): (Result<Directory>, Channel)
  {
    var (d, w1) := DirectorySpec(Config(baseURL, "", false, decode), w);
    if d.Err? then (d, w1)
    else
      var (o, w2) := NewNonceSpec(Config(baseURL, d.value.newNonce, false, decode), w1);
      (if o.Fail? then Err(o.error) else d, w2)
  }

  /** The inner loop of `formatResponse`: one "name: value" line per value of one header. */
  method RenderValues(name: string, values: seq<string>) returns (text: string)
    ensures text == Lines(Tagged(name, values))
  {
    text := "";
    var j := 0;
    while j < |values|
      invariant 0 <= j <= |values|
      invariant text == Lines(Tagged(name, values[..j]))
    {
      TaggedSnoc(name, values, j);
      LinesAppend(Tagged(name, values[..j]), [(name, values[j])]);
      text := text + Line((name, values[j]));
      j := j + 1;
    }
    assert values[..j] == values;
  }

  /** The outer loop of `formatResponse`: the status line, then the lines of each header in order. */
  method RenderHeader(response: Response) returns (header: string)
    ensures header == HeaderText(response)
  {
    header := StatusLine(response);
    var all := response.headers;
    var i := 0;
    while i < |all|
      invariant 0 <= i <= |all|
      invariant header == StatusLine(response) + Lines(Flatten(all[..i]))
    {
      var lines := RenderValues(all[i].name, all[i].values);
      LinesOfPrefix(all, i);
      header := header + lines;
      i := i + 1;
    }
    assert all[..i] == all;
  }

  class Connector {
    const baseURL: string
    const accountKeys: AccountKeys
    const codec: Codec
    const transport: Transport

    var nonce: Option<string>
    var keyChange: string
    var newAccount: string
    var newNonce: string
    var newOrder: string
    var revokeCert: string
    var accountURL: Option<string>
    var accountDeactivated: bool
    var logged: seq<string>

    function Cfg(): Config
      reads this`newNonce, this`accountDeactivated
    {
      Config(baseURL, newNonce, accountDeactivated, codec.jsonDecode)
    }

    function Wire(): Channel
      reads this`nonce, this`logged, transport
    {
      Channel(nonce, transport.script, transport.sent, logged)
    }

    function Endpoints(): Directory
      reads this`keyChange, this`newAccount, this`newNonce, this`newOrder, this`revokeCert
    {
      Directory(keyChange, newAccount, newNonce, newOrder, revokeCert)
    }

    /** Field assignment only; `Connect` performs the requests of construction. */
    constructor (baseURL: string, accountKeys: AccountKeys, codec: Codec, transport: Transport)
      ensures this.baseURL == baseURL && this.accountKeys == accountKeys && this.codec == codec
      ensures this.transport == transport
      ensures nonce == None && accountURL == None && !accountDeactivated && logged == []
      ensures Endpoints() == Directory("", "", "", "", "")
    {
      this.baseURL := baseURL;
      this.accountKeys := accountKeys;
      this.codec := codec;
      this.transport := transport;
      nonce := None;
      keyChange, newAccount, newNonce, newOrder, revokeCert := "", "", "", "", "";
      accountURL := None;
      accountDeactivated := false;
      logged := [];
    }

    /** The connector's construction: fetch the directory, then a first nonce; either failure aborts it. */
    static method Connect(baseURL: string, accountKeys: AccountKeys, codec: Codec, transport: Transport)
      returns (r: Result<Connector>)
      modifies transport
      ensures var (d, w) := BootSpec(baseURL, codec.jsonDecode, Channel(None, old(transport.script), old(transport.sent), []));
        && transport.script == w.script && transport.sent == w.sent
        && (r.Ok? <==> d.Ok?)
        && (r.Err? ==> r.error == d.error)
        && (r.Ok? ==>
              && fresh(r.value) && r.value.transport == transport
              && r.value.baseURL == baseURL && r.value.accountKeys == accountKeys && r.value.codec == codec
              && r.value.Endpoints() == d.value && r.value.nonce == w.nonce && r.value.logged == w.logged
              && r.value.accountURL == None && !r.value.accountDeactivated)
    {
      var c := new Connector(baseURL, accountKeys, codec, transport);
      var o := c.GetLEDirectory();
      if o.Fail? {
        return Err(o.error);
      }
      o := c.GetNewNonce();
      if o.Fail? {
        return Err(o.error);
      }
      r := Ok(c);
    }

    method GetLEDirectory() returns (o: Outcome)
      modifies this`nonce, this`logged, this`keyChange, this`newAccount, this`newNonce, this`newOrder, this`revokeCert
      modifies transport
      ensures var (d, w) := DirectorySpec(old(Cfg()), old(Wire()));
        && Wire() == w
        && o == (if d.Err? then Fail(d.error) else Pass)
        && Endpoints() == (if d.Ok? then d.value else old(Endpoints()))
    {
      var req := Get("/directory");
      if req.Err? {
        return Fail(req.error);
      }
      var body := BodyArray(req.value.body);
      if body.Err? {
        return Fail(body.error);
      }
      keyChange := AsString(Member(body.value, "keyChange"));
      newAccount := AsString(Member(body.value, "newAccount"));
      newNonce := AsString(Member(body.value, "newNonce"));
      newOrder := AsString(Member(body.value, "newOrder"));
      revokeCert := AsString(Member(body.value, "revokeCert"));
      o := Pass;
    }

    method GetNewNonce() returns (o: Outcome)
      modifies this`nonce, this`logged, transport
      decreases 1, 0
      ensures (o, Wire()) == NewNonceSpec(old(Cfg()), old(Wire()))
    {
      var result := Head(newNonce);
      if result.Err? {
        return Fail(result.error);
      }
      if result.value.status != 204 {
        return Fail(Error(NoNewNonce, "No new nonce - fetched " + newNonce + " got " + result.value.header));
      }
      o := Pass;
    }

    method Request(m: Method, url: string, data: Option<string>) returns (r: Result<Formatted>)
      modifies this`nonce, this`logged, transport
      decreases if m.POST? then 1 else 0, 2
      ensures (r, Wire()) == RequestSpec(old(Cfg()), old(Wire()), m, url, data)
    {
      if accountDeactivated {
        return Err(Error(AccountDeactivated, DeactivatedMessage));
      }
      var requestURL := ResolveURL(baseURL, url);
      var reply := transport.Send(OutgoingRequest(baseURL, m, url, data));
      if !reply.Delivered? {
        return Err(Error(TransportFailure, FailureMessage(codec.jsonDecode, m, url, reply)));
      }
      var o := MaintainNonce(m, reply.response);
      if o.Fail? {
        return Err(o.error);
      }
      r := FormatResponse(m, requestURL, reply.response);
    }

    /** Decodes the body only when it is declared as JSON; the header text comes from `RenderHeader`. */
    method FormatResponse(m: Method, requestURL: string, response: Response) returns (r: Result<Formatted>)
      ensures r == Normalize(codec.jsonDecode, m, requestURL, response)
    {
      var body := response.body;
      var header := RenderHeader(response);
      var decoded := RawBody(body);
      if DeclaresJson(response) {
        var d := codec.jsonDecode(body);
        if Falsy(d) {
          return Err(Error(BadJson, "Bad JSON received " + body));
        }
        decoded := JsonBody(d);
      }
      r := Ok(Formatted(m.Name() + " " + requestURL, header, decoded, body, response.status));
    }

    method MaintainNonce(m: Method, response: Response) returns (o: Outcome)
      modifies this`nonce, this`logged, transport
      decreases if m.POST? then 1 else 0, 1
      ensures (o, Wire()) == MaintainSpec(old(Cfg()), old(Wire()), m, response)
    {
      if HasHeader(response.headers, "Replay-Nonce") {
        nonce := FirstValue(response.headers, "Replay-Nonce");
        logged := logged + ["got new nonce " + AsString(Nullable(nonce))];
        o := Pass;
      } else if m.POST? {
        o := GetNewNonce();
      } else {
        o := Pass;
      }
    }

    method Get(url: string) returns (r: Result<Formatted>)
      modifies this`nonce, this`logged, transport
      ensures (r, Wire()) == RequestSpec(old(Cfg()), old(Wire()), GET, url, None)
    {
      r := Request(GET, url, None);
    }

    method Post(url: string, data: Option<string>) returns (r: Result<Formatted>)
      modifies this`nonce, this`logged, transport
      ensures (r, Wire()) == RequestSpec(old(Cfg()), old(Wire()), POST, url, data)
    {
      r := Request(POST, url, data);
    }

    method Head(url: string) returns (r: Result<Formatted>)
      modifies this`nonce, this`logged, transport
      decreases 0, 3
      ensures (r, Wire()) == RequestSpec(old(Cfg()), old(Wire()), HEAD, url, None)
    {
      r := Request(HEAD, url, None);
    }

    /** The key file to sign with: the argument, or the account's private key when the argument is ''. */
    function KeyPath(privateKeyFile: string): (path: string)
      ensures privateKeyFile != "" ==> path == privateKeyFile
      ensures privateKeyFile == "" ==> path == accountKeys.privateKey
    {
      if privateKeyFile == "" then accountKeys.privateKey else privateKeyFile
    }

    /** JWK mode: fails when the key does not load; otherwise the JSON text of the sealed envelope. */
    function SignRequestJWK(payload: Payload, url: string, privateKeyFile: string): (r: Result<string>)
      reads this`nonce
      ensures r.Err? <==> codec.loadKey(KeyPath(privateKeyFile)).None?
      ensures r.Err? ==> r.error == Error(PrivateKeyUnavailable, KeyFailureMessage)
    {
      var key := codec.loadKey(KeyPath(privateKeyFile));
      if key.None? then Err(Error(PrivateKeyUnavailable, KeyFailureMessage))
      else Ok(codec.jsonEncode(EnvelopeJson(Seal(codec, JwkProtected(codec, key.value, nonce, url), payload, key))))
    }

    /**
     * KID mode: never fails; the sealed header is { alg: RS256, kid, nonce: the
     * stored nonce, url }, and an unloadable key leaves the signature empty.
     */
    function SignRequestKid(payload: Payload, kid: Option<string>, url: string, privateKeyFile: string): (r: string)
      reads this`nonce
      ensures exists h ::
        && Keys(h) == ["alg", "kid", "nonce", "url"]
        && Member(h, "alg") == Str("RS256") && Member(h, "kid") == Nullable(kid)
        && Member(h, "nonce") == Nullable(nonce) && Member(h, "url") == Str(url)
        && r == codec.jsonEncode(EnvelopeJson(Seal(codec, h, payload, codec.loadKey(KeyPath(privateKeyFile)))))
    {
      var key := codec.loadKey(KeyPath(privateKeyFile));
      var h := KidProtected(kid, nonce, url);
      codec.jsonEncode(EnvelopeJson(Seal(codec, h, payload, key)))
    }
  }
}
