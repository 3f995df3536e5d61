/**
 * An ACME authorization as the client holds it: the four fields of the last
 * successful POST-as-GET of the authorization URL, refreshed all-or-nothing,
 * and the search for a challenge of a given type.
 */
module Authorizations {
  import opened Results
  import opened Strings
  import opened Json
  import opened Http
  import opened Jws
  import opened Connection
  import opened ConnectorFacts

  /** The four fields an authorization copies from the server's answer. */
  datatype Snapshot = Snapshot(identifier: Value, status: Value, expires: Value, challenges: Value)

  /** The fields of an authorization that was never loaded: PHP leaves them null. */
  const Unset: Snapshot := Snapshot(Null, Null, Null, Null)

  /** The four members of a decoded authorization. */
  function FromBody(j: Value): Snapshot
  {
    Snapshot(Member(j, "identifier"), Member(j, "status"), Member(j, "expires"), Member(j, "challenges"))
  }

  function ConstructNote(url: string): string
  {
    "LEAuthorization::__construct cannot find authorization " + url
  }

  function UpdateNote(url: string): string
  {
    "LEAuthorization::updateData cannot find authorization " + url
  }

  /**
   * One refresh: POST the signed KID request to the authorization URL. A failed
   * request is an error and changes no field; an answer with status 200 replaces
   * all four fields, unless its body is no array, which is an error that changes
   * none; any other status replaces none and logs the note.
   */
  function RefreshSpec(cfg: Config, w: Channel, url: string, signed: string, prior: Snapshot,
                       errors: seq<string>, note: string): (Outcome, Snapshot, seq<string>, Channel)
  {
    var (r, w1) := RequestSpec(cfg, w, POST, url, Some(signed));
    if r.Err? then (Fail(r.error), prior, errors, w1)
    else if r.value.status == 200 then
      var a := BodyArray(r.value.body);
      if a.Err? then (Fail(a.error), prior, errors, w1) else (Pass, FromBody(a.value), errors, w1)
    else (Pass, prior, errors + [note], w1)
  }

  /** A challenge matches when its "type" member equals the requested type. */
  predicate OfType(challenge: Value, kind: string)
  {
    Member(challenge, "type") == Str(kind)
  }

  function NotFoundMessage(kind: string, identifier: Value): string
  {
    "No challenge found for type '" + kind + "' and identifier '" + AsString(Member(identifier, "value")) + "'."
  }

  class Authorization {
    const connector: Connector
    const authorizationURL: string

    var identifier: Value
    var status: Value
    var expires: Value
    var challenges: Value
    /** The messages given to the error log, in order. */
    var errors: seq<string>

    function Fields(): Snapshot
      reads this`identifier, this`status, this`expires, this`challenges
    {
      Snapshot(identifier, status, expires, challenges)
    }

    /** Field assignment only; `Open` performs the request of construction. */
    constructor (connector: Connector, authorizationURL: string)
      ensures this.connector == connector && this.authorizationURL == authorizationURL
      ensures Fields() == Unset && errors == []
    {
      this.connector := connector;
      this.authorizationURL := authorizationURL;
      identifier, status, expires, challenges := Null, Null, Null, Null;
      errors := [];
    }

    /** The authorization's construction: one refresh; a failed request aborts it. */
    static method Open(connector: Connector, authorizationURL: string) returns (r: Result<Authorization>)
      modifies connector`nonce, connector`logged, connector.transport
      ensures var (o, s, e, w) := RefreshSpec(old(connector.Cfg()), old(connector.Wire()), authorizationURL,
                                               old(connector.SignRequestKid(Absent, connector.accountURL, authorizationURL, "")),
                                               Unset, [], ConstructNote(authorizationURL));
        && connector.Wire() == w
        && (r.Ok? <==> o.Pass?)
        && (r.Err? ==> r.error == o.error)
        && (r.Ok? ==>
              && fresh(r.value) && r.value.connector == connector && r.value.authorizationURL == authorizationURL
              && r.value.Fields() == s && r.value.errors == e)
    {
      var a := new Authorization(connector, authorizationURL);
      var o := a.Refresh(ConstructNote(authorizationURL));
      if o.Fail? {
        return Err(o.error);
      }
      r := Ok(a);
    }

    /** `updateData`: one refresh of an existing authorization. */
    method UpdateData() returns (o: Outcome)
      modifies this`identifier, this`status, this`expires, this`challenges, this`errors
      modifies connector`nonce, connector`logged, connector.transport
      ensures (o, Fields(), errors, connector.Wire())
        == RefreshSpec(old(connector.Cfg()), old(connector.Wire()), authorizationURL,
                       old(connector.SignRequestKid(Absent, connector.accountURL, authorizationURL, "")),
                       old(Fields()), old(errors), UpdateNote(authorizationURL))
    {
      o := Refresh(UpdateNote(authorizationURL));
    }

    method Refresh(note: string) returns (o: Outcome)
      modifies this`identifier, this`status, this`expires, this`challenges, this`errors
      modifies connector`nonce, connector`logged, connector.transport
      ensures (o, Fields(), errors, connector.Wire())
        == RefreshSpec(old(connector.Cfg()), old(connector.Wire()), authorizationURL,
                       old(connector.SignRequestKid(Absent, connector.accountURL, authorizationURL, "")),
                       old(Fields()), old(errors), note)
    {
      var sign := connector.SignRequestKid(Absent, connector.accountURL, authorizationURL, "");
      var post := connector.Post(authorizationURL, Some(sign));
      if post.Err? {
        return Fail(post.error);
      }
      if post.value.status == 200 {
        var body := BodyArray(post.value.body);
        if body.Err? {
          return Fail(body.error);
        }
        identifier := Member(body.value, "identifier");
        status := Member(body.value, "status");
        expires := Member(body.value, "expires");
        challenges := Member(body.value, "challenges");
      } else {
        errors := errors + [note];
      }
      o := Pass;
    }

    /** The first challenge of the requested type, in the order the server listed them. */
    method GetChallenge(kind: string) returns (r: Result<Value>)
      ensures var cs := Elements(challenges);
        && (r.Ok? <==> exists i :: 0 <= i < |cs| && OfType(cs[i], kind))
        && (r.Ok? ==> exists i :: 0 <= i < |cs| && cs[i] == r.value && OfType(cs[i], kind)
                                 && forall j :: 0 <= j < i ==> !OfType(cs[j], kind))
        && (r.Err? ==> r.error == Error(ChallengeNotFound, NotFoundMessage(kind, identifier)))
    {
      var cs := Elements(challenges);
      var i := 0;
      while i < |cs|
        invariant 0 <= i <= |cs|
        invariant forall j :: 0 <= j < i ==> !OfType(cs[j], kind)
      {
        if OfType(cs[i], kind) {
          return Ok(cs[i]);
        }
        i := i + 1;
      }
      r := Err(Error(ChallengeNotFound, NotFoundMessage(kind, identifier)));
    }
  }

  /**
   * A refresh is all-or-nothing. The fields are all taken from a 200 answer
   * whose body decoded to an array, and otherwise all kept. The refresh fails
   * when the request fails or a 200 answer's body is no array, and the note is
   * logged exactly when a delivered answer was not 200.
   */
  lemma RefreshAllOrNothing(cfg: Config, w: Channel, url: string, signed: string, prior: Snapshot,
                            errors: seq<string>, note: string)
    ensures var (o, s, e, _) := RefreshSpec(cfg, w, url, signed, prior, errors, note);
      var (r, _) := RequestSpec(cfg, w, POST, url, Some(signed));
      var stored := r.Ok? && r.value.status == 200 && r.value.body.JsonBody?;
      && (o.Fail? <==> r.Err? || (r.Ok? && r.value.status == 200 && r.value.body.RawBody?))
      && (o.Fail? ==> o.error == (if r.Err? then r.error else Error(NotAnArray, StreamIndexMessage)))
      && (stored ==> s == FromBody(r.value.body.value) && e == errors)
      && (!stored ==> s == prior)
      && (e == errors + [note] <==> r.Ok? && r.value.status != 200)
      && (e != errors ==> e == errors + [note])
  {
  }

  /**
   * A refresh, unless the account is deactivated, first sends a POST of the
   * signed text to the authorization URL, then at most the nonce HEAD.
   */
  lemma RefreshRequests(cfg: Config, w: Channel, url: string, signed: string, prior: Snapshot,
                        errors: seq<string>, note: string)
    requires !cfg.deactivated
    ensures var (_, _, _, w') := RefreshSpec(cfg, w, url, signed, prior, errors, note);
      && |w.sent| + 1 <= |w'.sent| <= |w.sent| + 2
      && w'.sent[|w.sent|] == OutgoingRequest(cfg.baseURL, POST, url, Some(signed))
      && (|w'.sent| == |w.sent| + 2 ==> w'.sent[|w.sent| + 1] == OutgoingRequest(cfg.baseURL, HEAD, cfg.newNonce, None))
  {
    RequestBounds(cfg, w, POST, url, Some(signed));
  }

  /**
   * The authorization request is a POST-as-GET: its payload opens to the empty
   * text, its kid is the account URL and its url is the authorization URL.
   */
  lemma AuthorizationPostIsPostAsGet(c: Connector, base64urlDecode: string -> string, url: string)
    requires Decodes(c.codec, base64urlDecode) && JsonRoundTrips(c.codec, KidProtected(c.accountURL, c.nonce, url))
    ensures var o := Open(c.codec, base64urlDecode, c.SignRequestKid(Absent, c.accountURL, url, ""));
      && o.Some? && o.value.payload == ""
      && Member(o.value.header, "kid") == Nullable(c.accountURL)
      && Member(o.value.header, "url") == Str(url)
      && Member(o.value.header, "nonce") == Nullable(c.nonce)
  {
    SignedKidOpens(c, base64urlDecode, Absent, c.accountURL, url, "");
  }
}
