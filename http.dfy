/**
 * The HTTP side of the client: requests and responses as the PSR-7 objects
 * carry them, a transport that answers from a script, header lookup, and the
 * flat "status line + headers" text the connector builds for diagnostics.
 */
module Http {
  import opened Results
  import opened Strings

  datatype Method = GET | POST | HEAD
  {
    function Name(): string
    {
      match this
      case GET => "GET"
      case POST => "POST"
      case HEAD => "HEAD"
    }
  }

  /** A request as handed to the HTTP client: method, absolute URL, headers in order, optional body. */
  datatype Request = Request(verb: Method, url: string, headers: seq<(string, string)>, body: Option<string>)

  /** One response header with all of its values. */
  datatype Header = Header(name: string, values: seq<string>)

  datatype Response = Response(status: int, reason: string, headers: seq<Header>, body: string)

  /**
   * What one `send` yields: a response, a BadResponseException (with the error
   * response's body when it has one), or any other client exception.
   */
  datatype Reply = Delivered(response: Response) | Rejected(errorBody: Option<string>) | Unreachable

  /** The reply the next `send` receives; an exhausted script behaves as an unreachable server. */
  function Next(script: seq<Reply>): Reply
  {
    if script == [] then Unreachable else script[0]
  }

  function Rest(script: seq<Reply>): seq<Reply>
  {
    if script == [] then [] else script[1..]
  }

  /** The HTTP client, as a scripted oracle that records every request it is sent. */
  class Transport {
    var script: seq<Reply>
    var sent: seq<Request>

    constructor (script: seq<Reply>)
      ensures this.script == script && sent == []
    {
      this.script := script;
      sent := [];
    }

    method Send(request: Request) returns (reply: Reply)
      modifies this
      ensures reply == Next(old(script))
      ensures script == Rest(old(script))
      ensures sent == old(sent) + [request]
    {
      reply := Next(script);
      script := Rest(script);
      sent := sent + [request];
    }
  }

  /** `hasHeader($name)`: some header carries this name, ignoring case. */
  predicate HasHeader(hs: seq<Header>, name: string)
  {
    exists i :: 0 <= i < |hs| && SameName(hs[i].name, name)
  }

  /** `getHeader($name)`: the values of every header of this name, in order. */
  function HeaderValues(hs: seq<Header>, name: string): seq<string>
  {
    if hs == [] then []
    else (if SameName(hs[0].name, name) then hs[0].values else []) + HeaderValues(hs[1..], name)
  }

  /** `getHeaderLine($name)`: the values joined by ", ". */
  function HeaderLine(hs: seq<Header>, name: string): string
  {
    Join(HeaderValues(hs, name), ", ")
  }

  /** `getHeader($name)[0]`: the first value, or null when there is none. */
  function FirstValue(hs: seq<Header>, name: string): Option<string>
  {
    var vs := HeaderValues(hs, name);
    if vs == [] then None else Some(vs[0])
  }

  /** A response with a single header answers a lookup exactly when the names match. */
  lemma SingleHeader(name: string, values: seq<string>, query: string)
    ensures HasHeader([Header(name, values)], query) <==> SameName(name, query)
    ensures HeaderValues([Header(name, values)], query) == (if SameName(name, query) then values else [])
  {
    var hs := [Header(name, values)];
    assert hs[1..] == [];
    if SameName(name, query) {
      assert SameName(hs[0].name, query);
    }
  }

  /** One header name paired with each of its values. */
  function Tagged(name: string, values: seq<string>): seq<(string, string)>
  {
    seq(|values|, k requires 0 <= k < |values| => (name, values[k]))
  }

  /** Every (name, value) pair of the headers, in header order and value order. */
  function Flatten(hs: seq<Header>): seq<(string, string)>
  {
    if hs == [] then [] else Tagged(hs[0].name, hs[0].values) + Flatten(hs[1..])
  }

  function Line(p: (string, string)): string
  {
    p.0 + ": " + p.1 + "\n"
  }

  /** One "name: value" line per pair, in order. */
  function Lines(ps: seq<(string, string)>): string
  {
    if ps == [] then "" else Line(ps[0]) + Lines(ps[1..])
  }

  function StatusLine(r: Response): string
  {
    Decimal(r.status) + " " + r.reason + "\n"
  }

  /** The diagnostic header text: the status line, then one line per header value. */
  function HeaderText(r: Response): string
  {
    StatusLine(r) + Lines(Flatten(r.headers))
  }

  lemma {:induction false} LinesAppend(a: seq<(string, string)>, b: seq<(string, string)>)
    ensures Lines(a + b) == Lines(a) + Lines(b)
  {
    if a == [] {
      assert a + b == b;
    } else {
      assert (a + b)[1..] == a[1..] + b;
      LinesAppend(a[1..], b);
    }
  }

  lemma TaggedSnoc(name: string, values: seq<string>, j: nat)
    requires j < |values|
    ensures Tagged(name, values[..j + 1]) == Tagged(name, values[..j]) + [(name, values[j])]
  {
  }

  lemma {:induction false} FlattenSnoc(hs: seq<Header>, h: Header)
    ensures Flatten(hs + [h]) == Flatten(hs) + Tagged(h.name, h.values)
  {
    if hs == [] {
      assert [h][1..] == [];
    } else {
      assert (hs + [h])[1..] == hs[1..] + [h];
      FlattenSnoc(hs[1..], h);
    }
  }

  /** The lines of one more header are its own lines appended. */
  lemma LinesOfPrefix(hs: seq<Header>, i: nat)
    requires i < |hs|
    ensures Lines(Flatten(hs[..i + 1])) == Lines(Flatten(hs[..i])) + Lines(Tagged(hs[i].name, hs[i].values))
  {
    assert hs[..i + 1] == hs[..i] + [hs[i]];
    FlattenSnoc(hs[..i], hs[i]);
    LinesAppend(Flatten(hs[..i]), Tagged(hs[i].name, hs[i].values));
  }

  /** The pairs of the headers are exactly the (name, value) of some header and one of its values. */
  lemma {:induction false} FlattenMembers(hs: seq<Header>, p: (string, string))
    ensures p in Flatten(hs) <==> exists i, k :: 0 <= i < |hs| && 0 <= k < |hs[i].values| && p == (hs[i].name, hs[i].values[k])
  {
    if hs != [] {
      FlattenMembers(hs[1..], p);
      if p in Flatten(hs) && p !in Tagged(hs[0].name, hs[0].values) {
        var i, k :| 0 <= i < |hs[1..]| && 0 <= k < |hs[1..][i].values| && p == (hs[1..][i].name, hs[1..][i].values[k]);
        assert p == (hs[i + 1].name, hs[i + 1].values[k]);
      }
      if exists i, k :: 0 <= i < |hs| && 0 <= k < |hs[i].values| && p == (hs[i].name, hs[i].values[k]) {
        var i, k :| 0 <= i < |hs| && 0 <= k < |hs[i].values| && p == (hs[i].name, hs[i].values[k]);
        if i == 0 {
          assert Tagged(hs[0].name, hs[0].values)[k] == p;
        } else {
          assert hs[1..][i - 1] == hs[i];
        }
      }
    }
  }
}
