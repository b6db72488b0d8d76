/**
 * The forwarding call: rewriting the inbound request for the backend
 * (`create_proxied_request`), sanitising the backend's response (`create_proxied_response`)
 * and the decision `call` makes between relaying a response, tunnelling an upgraded
 * connection and failing with a `ProxyError`.
 *
 * The backend HTTP client and the URI parser are not modelled: the client is a function
 * from the outbound request to the backend's reply or a client error (with the flag that
 * says the connection could not be established), and the parser a function from text to a
 * URI or the parser's error message. The client address is its display text.
 */
module Proxy {
  import opened Wrappers
  import opened Text
  import opened Headers
  import opened ForwardUri

  /** `ProxyError`, each variant with the display text of the error it wraps. */
  datatype ProxyError =
    | InvalidUri(reason: string)
    | HyperError(reason: string)
    | HyperClientError(isConnect: bool, reason: string)
    | ForwardHeaderError
    | UpgradeError(reason: string)

  /** The `Display` text of a `ProxyError`. */
  function Describe(e: ProxyError): string
  {
    match e
    case InvalidUri(m) => "InvalidUri: " + m
    case HyperError(m) => "HyperError: " + m
    case HyperClientError(_, m) => "HyperClientError: " + m
    case ForwardHeaderError => "ForwardHeaderError"
    case UpgradeError(m) => "UpgradeError: " + m
  }

  /** What the description reveals of an error: the variant and the wrapped text, not
      whether a client error was a connect failure. */
  function Reported(e: ProxyError): ProxyError
  {
    if e.HyperClientError? then HyperClientError(false, e.reason) else e
  }

  /** Two errors with the same description are the same error, up to the connect flag. */
  lemma DescribeIdentifies(e1: ProxyError, e2: ProxyError)
    requires Describe(e1) == Describe(e2)
    ensures Reported(e1) == Reported(e2)
  {
    var d := Describe(e1);
    if e1.ForwardHeaderError? || e2.ForwardHeaderError? {
      assert d[0] == 'F';
    } else {
      var p1 := Prefix(e1);
      var p2 := Prefix(e2);
      assert d == p1 + e1.reason == p2 + e2.reason;
      PrefixesDistinct(e1, e2);
      assert d[..|p1|] == p1 && d[..|p2|] == p2;
      assert p1 == p2;
      assert e1.reason == d[|p1|..] == e2.reason;
    }
  }

  /** The text the description puts before the wrapped text. */
  function Prefix(e: ProxyError): string
    requires !e.ForwardHeaderError?
  {
    match e
    case InvalidUri(_) => "InvalidUri: "
    case HyperError(_) => "HyperError: "
    case HyperClientError(_, _) => "HyperClientError: "
    case UpgradeError(_) => "UpgradeError: "
  }

  lemma PrefixesDistinct(e1: ProxyError, e2: ProxyError)
    requires !e1.ForwardHeaderError? && !e2.ForwardHeaderError?
    requires Describe(e1) == Describe(e2)
    ensures Prefix(e1) == Prefix(e2) && Reported(e1).HyperClientError? == Reported(e2).HyperClientError?
    ensures e1.InvalidUri? == e2.InvalidUri? && e1.HyperError? == e2.HyperError?
    ensures e1.UpgradeError? == e2.UpgradeError?
  {
    var d := Describe(e1);
    assert d == Prefix(e1) + e1.reason;
    assert d == Prefix(e2) + e2.reason;
    assert d[0] == Prefix(e1)[0] == Prefix(e2)[0];
    assert d[5] == Prefix(e1)[5] == Prefix(e2)[5];
  }

  // ---------------------------------------------------------------------------------------
  // The rendering of the upgrade mismatch

  /** The `{:?}` rendering of an `Option<String>`. */
  function DebugOption(o: Option<string>): string
  {
    match o
    case None => "None"
    case Some(s) => "Some(" + DebugStr(s) + ")"
  }

  /** The reason of the `UpgradeError` for a backend that switched to another protocol. */
  function MismatchReason(response: Option<string>, request: Option<string>): string
  {
    "backend tried to switch to protocol " + DebugOption(response) + " when "
    + DebugOption(request) + " was requested"
  }

  const MISSING_EXTENSION := "request does not have an upgrade extension"

  // ---------------------------------------------------------------------------------------
  // Requests, responses and the backend

  /** An inbound request as the proxy rewrites it: its URI, its header map, and whether its
      connection offers an upgrade handle (`OnUpgrade` in the request's extensions). Method,
      version and body pass through untouched and are not modelled. */
  class Request {
    var uri: Uri
    const headers: HeaderMap
    var upgrade: bool

    constructor (uri: Uri, fields: Fields, upgrade: bool)
      ensures this.uri == uri && this.upgrade == upgrade
      ensures fresh(headers) && headers.fields == fields
    {
      this.uri := uri;
      this.headers := new HeaderMap(fields);
      this.upgrade := upgrade;
    }
  }

  /** A backend response as the proxy hands it on: status and header map (the body is the
      backend's stream, passed through untouched). */
  class Response {
    const status: int
    const headers: HeaderMap

    constructor (status: int, fields: Fields)
      ensures this.status == status && fresh(headers) && headers.fields == fields
    {
      this.status := status;
      this.headers := new HeaderMap(fields);
    }
  }

  const SWITCHING_PROTOCOLS := 101

  /** The request the backend client is given. */
  datatype Outbound = Outbound(uri: Uri, headers: Fields)

  /** What the backend client yields: a response (with what awaiting its upgraded connection
      would fail with, if it fails) or a client error. */
  datatype Reply =
    | Replied(status: int, headers: Fields, upgradeFailure: Option<string>)
    | ClientFailed(isConnect: bool, reason: string)

  /** `Client::request`, an oracle. */
  type Client = Outbound -> Reply

  /** `str::parse::<hyper::Uri>`, an oracle. */
  type UriParser = string -> Result<Uri, string>

  /** The backend's 101 responses carry text where `get_upgrade_type` unwraps it. */
  predicate ReplyReadable(r: Reply)
  {
    r.Replied? && r.status == SWITCHING_PROTOCOLS ==> UpgradeReadable(r.headers)
  }

  // ---------------------------------------------------------------------------------------
  // create_proxied_request

  /** The inbound headers without `host` and the hop-by-hop names, after the (here no-op)
      pass over the names `Connection` lists. */
  function Sanitized(h: Fields): Fields
  {
    ConnectionStripped(HopStripped(h - {"host"}))
  }

  /** The sanitised headers with `te: trailers` when the inbound `TE` asked for trailers,
      and `upgrade: <type>` and `connection: UPGRADE` when an upgrade type is given. */
  function Reinserted(h: Fields, trailers: bool, upgradeType: Option<string>): Fields
  {
    var withTe := if trailers then Sanitized(h)["te" := ["trailers"]] else Sanitized(h);
    if upgradeType.Some? then withTe["upgrade" := [upgradeType.value]]["connection" := ["UPGRADE"]]
    else withTe
  }

  /** The header map `create_proxied_request` sends: the re-inserted headers, with
      `x-forwarded-for` set to the client when absent. Fails with `ForwardHeaderError` when
      it is absent and the client text is not a valid header value. */
  function ProxiedHeaders(h: Fields, trailers: bool, upgradeType: Option<string>, client: string)
    : Result<Fields, ProxyError>
  {
    var m := Reinserted(h, trailers, upgradeType);
    if "x-forwarded-for" in m then Success(m)
    else if ValidValue(client) then Success(m["x-forwarded-for" := [client]])
    else Failure(ForwardHeaderError)
  }

  /** Sanitising drops exactly `host` and the nine hop-by-hop names and keeps every other
      header's values. */
  lemma SanitizedShape(h: Fields)
    ensures forall n :: n in Sanitized(h) <==> n in h && n != "host" && n !in HOP_HEADERS
    ensures forall n :: n in Sanitized(h) ==> Sanitized(h)[n] == h[n]
  {
    ConnectionStrippedAfterHop(h - {"host"});
  }

  /** After re-insertion, of `host` and the hop-by-hop names only `te` (exactly `trailers`,
      iff asked for) and `upgrade`/`connection` (exactly the type and `UPGRADE`, iff a type
      is given) are present; every other header is as it came in. */
  lemma ReinsertedShape(h: Fields, trailers: bool, upgradeType: Option<string>)
    ensures var m := Reinserted(h, trailers, upgradeType);
      && "host" !in m
      && (forall n :: n in HOP_HEADERS && n != "te" && n != "upgrade" && n != "connection" ==> n !in m)
      && ("te" in m <==> trailers) && (trailers ==> m["te"] == ["trailers"])
      && ("upgrade" in m <==> upgradeType.Some?) && ("connection" in m <==> upgradeType.Some?)
      && (upgradeType.Some? ==> m["upgrade"] == [upgradeType.value] && m["connection"] == ["UPGRADE"])
    ensures var m := Reinserted(h, trailers, upgradeType);
      forall n :: n != "host" && n !in HOP_HEADERS ==> (n in m <==> n in h) && (n in m ==> m[n] == h[n])
  {
    SanitizedShape(h);
  }

  /** Whether `name` is one of the headers `create_proxied_request` itself writes or drops. */
  predicate Rewritten(name: string)
  {
    name == "host" || name == "x-forwarded-for" || name in HOP_HEADERS
  }

  /** The rewrite fails exactly when `x-forwarded-for` is absent and the client text is not
      a valid header value. */
  lemma ProxiedHeadersFails(h: Fields, trailers: bool, upgradeType: Option<string>, client: string)
    ensures ProxiedHeaders(h, trailers, upgradeType, client).Failure? <==>
      "x-forwarded-for" !in h && !ValidValue(client)
  {
    ReinsertedShape(h, trailers, upgradeType);
  }

  /** The outbound headers: `host` gone; of the hop-by-hop names only `te` (exactly
      `trailers`, iff the inbound `TE` listed it) and `upgrade`/`connection` (exactly the
      type and `UPGRADE`, iff a type was given) remain. */
  lemma ProxiedHeadersReinserts(h: Fields, trailers: bool, upgradeType: Option<string>, client: string)
    ensures var r := ProxiedHeaders(h, trailers, upgradeType, client);
      r.Success? ==>
        var out := r.value;
        && "host" !in out
        && (forall n :: n in HOP_HEADERS && n != "te" && n != "upgrade" && n != "connection" ==> n !in out)
        && ("te" in out <==> trailers) && (trailers ==> out["te"] == ["trailers"])
        && ("upgrade" in out <==> upgradeType.Some?) && ("connection" in out <==> upgradeType.Some?)
        && (upgradeType.Some? ==> out["upgrade"] == [upgradeType.value] && out["connection"] == ["UPGRADE"])
  {
    ReinsertedShape(h, trailers, upgradeType);
  }

  /** `x-forwarded-for` is kept as it was when present, and is the client text when
      absent. */
  lemma ProxiedHeadersForwardedFor(h: Fields, trailers: bool, upgradeType: Option<string>, client: string)
    ensures var r := ProxiedHeaders(h, trailers, upgradeType, client);
      r.Success? ==>
        && ("x-forwarded-for" in h ==> r.value["x-forwarded-for"] == h["x-forwarded-for"])
        && ("x-forwarded-for" !in h ==> r.value["x-forwarded-for"] == [client])
  {
    ReinsertedShape(h, trailers, upgradeType);
  }

  /** Every header the rewrite does not itself write or drop goes out as it came in. */
  lemma ProxiedHeadersKeepsOthers(h: Fields, trailers: bool, upgradeType: Option<string>, client: string)
    ensures var r := ProxiedHeaders(h, trailers, upgradeType, client);
      r.Success? ==>
        && (forall n :: !Rewritten(n) ==> (n in r.value <==> n in h))
        && (forall n :: !Rewritten(n) && n in r.value ==> r.value[n] == h[n])
  {
    ReinsertedShape(h, trailers, upgradeType);
  }

  /** A header value that is one token, such as `UPGRADE` or `trailers`, lists exactly the
      tokens it equals ignoring ASCII case. */
  lemma SingleTokenListed(v: string, token: string)
    requires forall i :: 0 <= i < |v| ==> 'A' <= v[i] <= 'Z' || 'a' <= v[i] <= 'z'
    requires EqIgnoreCase(v, token)
    ensures HasToken(v, token)
  {
    forall i | 0 <= i < |v| ensures !IsSpace(v[i]) && v[i] != ',' {
    }
    SingleTokenValue(v, token);
  }

  /** Headers carrying exactly the re-inserted `upgrade` and `connection` values read back
      as the upgrade type they were written for. */
  lemma UpgradeReadBack(out: Fields, upgradeType: Option<string>)
    requires upgradeType.Some? ==> Visible(upgradeType.value)
    requires ("upgrade" in out <==> upgradeType.Some?) && ("connection" in out <==> upgradeType.Some?)
    requires upgradeType.Some? ==> out["upgrade"] == [upgradeType.value] && out["connection"] == ["UPGRADE"]
    ensures UpgradeReadable(out) && UpgradeType(out) == upgradeType
  {
    if upgradeType.Some? {
      var v := out["connection"][0];
      SingleTokenListed(v, "upgrade");
      assert RequestsUpgrade(out);
    }
  }

  /** Headers carrying exactly the re-inserted `te` value read back as the trailers request
      it was written for. */
  lemma TeReadBack(out: Fields, trailers: bool)
    requires ("te" in out <==> trailers) && (trailers ==> out["te"] == ["trailers"])
    ensures TeReadable(out) && TeHasTrailers(out) == trailers
  {
    if trailers {
      var v := out["te"][0];
      SingleTokenListed(v, "trailers");
    }
  }

  /** The backend sees the upgrade type and the trailers request of the inbound request:
      reading the outbound headers gives back what was re-inserted. */
  lemma ProxiedHeadersRoundTrip(h: Fields, trailers: bool, upgradeType: Option<string>, client: string)
    requires upgradeType.Some? ==> Visible(upgradeType.value)
    requires ProxiedHeaders(h, trailers, upgradeType, client).Success?
    ensures var out := ProxiedHeaders(h, trailers, upgradeType, client).value;
      UpgradeReadable(out) && TeReadable(out)
      && UpgradeType(out) == upgradeType && TeHasTrailers(out) == trailers
  {
    ProxiedHeadersReinserts(h, trailers, upgradeType, client);
    var out := ProxiedHeaders(h, trailers, upgradeType, client).value;
    UpgradeReadBack(out, upgradeType);
    TeReadBack(out, trailers);
  }

  /** `create_proxied_request`: reads `TE`, builds and parses the forward URI (failing with
      `InvalidUri` before anything is changed), then rewrites the request's URI and headers
      in place. */
  method CreateProxiedRequest(client: string, forwardUrl: string, request: Request,
                              upgradeType: Option<string>, parse: UriParser)
    returns (r: Result<Request, ProxyError>)
    requires TeReadable(request.headers.fields)
    requires upgradeType.Some? ==> ValidValue(upgradeType.value)
    modifies request, request.headers
    ensures r.Success? ==> r.value == request
    ensures request.upgrade == old(request.upgrade)
    ensures var target := parse(ForwardUrl(forwardUrl, old(request.uri).path, old(request.uri).query));
      var out := ProxiedHeaders(old(request.headers.fields), TeHasTrailers(old(request.headers.fields)),
                                upgradeType, client);
      if target.Failure? then
        r == Failure(InvalidUri(target.error))
        && request.uri == old(request.uri) && request.headers.fields == old(request.headers.fields)
      else if out.Failure? then r == Failure(out.error)
      else r.Success? && request.uri == target.value && request.headers.fields == out.value
  {
    var trailers := TeHasTrailers(request.headers.fields);
    var text := BuildForwardUri(forwardUrl, request.uri);
    var uri := parse(text);
    if uri.Failure? {
      return Failure(InvalidUri(uri.error));
    }

    request.headers.Remove("host");
    request.uri := uri.value;

    RemoveHopHeaders(request.headers);
    ConnectionStrippedAfterHop(old(request.headers.fields) - {"host"});
    RemoveConnectionHeaders(request.headers);

    if trailers {
      request.headers.Insert("te", "trailers");
    }
    if upgradeType.Some? {
      request.headers.Insert("upgrade", upgradeType.value);
      request.headers.Insert("connection", "UPGRADE");
    }

    if "x-forwarded-for" !in request.headers.fields {
      if !ValidValue(client) {
        return Failure(ForwardHeaderError);
      }
      request.headers.Insert("x-forwarded-for", client);
    }
    // An `x-forwarded-for` already present is left as it is: the source builds the chained
    // value `<existing>, <client>` in a local string and never stores it.

    r := Success(request);
  }

  // ---------------------------------------------------------------------------------------
  // create_proxied_response

  /** `create_proxied_response`: strips the hop-by-hop headers, then those `Connection`
      lists (by then none, since `connection` itself is gone). */
  method CreateProxiedResponse(response: Response)
    modifies response.headers
    ensures response.headers.fields == HopStripped(old(response.headers.fields))
  {
    RemoveHopHeaders(response.headers);
    ConnectionStrippedAfterHop(old(response.headers.fields));
    RemoveConnectionHeaders(response.headers);
  }

  // ---------------------------------------------------------------------------------------
  // call

  /** What `call` hands back on success: the response's status and headers, and whether a
      tunnel between the two upgraded connections was spawned. */
  datatype Relay = Relay(status: int, headers: Fields, tunnel: bool)

  /** The decision `call` takes once the backend has been asked: a client error is passed
      on; a 101 response is handed back untouched (and the tunnel spawned) when its upgrade
      type equals the request's and the request has an upgrade handle, and is otherwise an
      `UpgradeError`; any other response is handed back with its hop-by-hop headers
      stripped. */
  function Decide(requestType: Option<string>, handle: bool, reply: Reply): Result<Relay, ProxyError>
    requires ReplyReadable(reply)
  {
    match reply
    case ClientFailed(connect, m) => Failure(HyperClientError(connect, m))
    case Replied(status, headers, upgradeFailure) =>
      if status == SWITCHING_PROTOCOLS then
        var responseType := UpgradeType(headers);
        if requestType == responseType then
          if handle then
            if upgradeFailure.Some? then Failure(HyperError(upgradeFailure.value))
            else Success(Relay(status, headers, true))
          else Failure(UpgradeError(MISSING_EXTENSION))
        else Failure(UpgradeError(MismatchReason(responseType, requestType)))
      else
        Success(Relay(status, ConnectionStripped(HopStripped(headers)), false))
  }

  /** The branches of `call` after the backend answered: a tunnel exactly for a matching
      101 with a handle whose upgraded connection arrives, with the response returned
      untouched; a `HyperError` when that connection fails; the two kinds of
      `UpgradeError`; and hop-stripping for every other status. */
  lemma DecideCases(requestType: Option<string>, handle: bool, reply: Reply)
    requires ReplyReadable(reply)
    ensures var d := Decide(requestType, handle, reply);
      && (reply.ClientFailed? ==> d == Failure(HyperClientError(reply.isConnect, reply.reason)))
      && (d.Success? && d.value.tunnel <==>
            reply.Replied? && reply.status == SWITCHING_PROTOCOLS && handle
            && UpgradeType(reply.headers) == requestType && reply.upgradeFailure.None?)
      && (d.Success? && d.value.tunnel ==> d.value.status == reply.status && d.value.headers == reply.headers)
      && (reply.Replied? && reply.status == SWITCHING_PROTOCOLS && UpgradeType(reply.headers) == requestType
          && handle && reply.upgradeFailure.Some? ==>
            d == Failure(HyperError(reply.upgradeFailure.value)))
      && (reply.Replied? && reply.status == SWITCHING_PROTOCOLS && UpgradeType(reply.headers) != requestType ==>
            d == Failure(UpgradeError(MismatchReason(UpgradeType(reply.headers), requestType))))
      && (reply.Replied? && reply.status == SWITCHING_PROTOCOLS && UpgradeType(reply.headers) == requestType && !handle ==>
            d == Failure(UpgradeError("request does not have an upgrade extension")))
      && (reply.Replied? && reply.status != SWITCHING_PROTOCOLS ==>
            d.Success? && !d.value.tunnel && d.value.status == reply.status
            && d.value.headers == HopStripped(reply.headers))
  {
    if reply.Replied? && reply.status != SWITCHING_PROTOCOLS {
      ConnectionStrippedAfterHop(reply.headers);
    }
  }

  /** The rendering of an optional protocol identifies it: two different upgrade types
      never render alike, so the mismatch reason tells them apart. */
  lemma DebugOptionInjective(o1: Option<string>, o2: Option<string>)
    requires DebugOption(o1) == DebugOption(o2)
    ensures o1 == o2
  {
    var d := DebugOption(o1);
    if o1.None? || o2.None? {
      assert d[1] == 'o';
    } else {
      var e1 := Escape(o1.value);
      var e2 := Escape(o2.value);
      assert d == "Some(\"" + e1 + "\")" == "Some(\"" + e2 + "\")";
      assert e1 == d[6..|d| - 2] == e2;
      EscapeRoundTrip(o1.value);
      EscapeRoundTrip(o2.value);
    }
  }

  /** The backend's reply to the one request `call` sends it is readable where `call`
      unwraps it: a 101 reply carries text in `Connection` and `Upgrade`. */
  predicate AnswersReadably(client: string, forwardUrl: string, uri: Uri, h: Fields,
                            backend: Client, parse: UriParser)
    requires UpgradeReadable(h) && TeReadable(h)
  {
    var target := parse(ForwardUrl(forwardUrl, uri.path, uri.query));
    var out := ProxiedHeaders(h, TeHasTrailers(h), UpgradeType(h), client);
    target.Success? && out.Success? ==> ReplyReadable(backend(Outbound(target.value, out.value)))
  }

  /** `call` as a whole on values: the request's upgrade type, the rewritten request (or the
      error rewriting it gives), the backend's reply to it, and the decision. */
  function ProxyCall(client: string, forwardUrl: string, uri: Uri, h: Fields, handle: bool,
                     backend: Client, parse: UriParser): Result<Relay, ProxyError>
    requires UpgradeReadable(h) && TeReadable(h)
    requires AnswersReadably(client, forwardUrl, uri, h, backend, parse)
  {
    var requestType := UpgradeType(h);
    var target := parse(ForwardUrl(forwardUrl, uri.path, uri.query));
    if target.Failure? then Failure(InvalidUri(target.error))
    else
      VisibleIsValidValue(if requestType.Some? then requestType.value else "");
      var out := ProxiedHeaders(h, TeHasTrailers(h), requestType, client);
      if out.Failure? then Failure(out.error)
      else Decide(requestType, handle, backend(Outbound(target.value, out.value)))
  }

  /** Whatever the backend does, the request it receives carries the inbound request's
      upgrade type and trailers request, and the call fails with `InvalidUri` exactly when
      the composed URI does not parse. */
  lemma ProxyCallForwards(client: string, forwardUrl: string, uri: Uri, h: Fields, handle: bool,
                          backend: Client, parse: UriParser)
    requires UpgradeReadable(h) && TeReadable(h)
    requires AnswersReadably(client, forwardUrl, uri, h, backend, parse)
    ensures var target := parse(ForwardUrl(forwardUrl, uri.path, uri.query));
      var out := ProxiedHeaders(h, TeHasTrailers(h), UpgradeType(h), client);
      && (target.Failure? ==> ProxyCall(client, forwardUrl, uri, h, handle, backend, parse)
                              == Failure(InvalidUri(target.error)))
      && (target.Success? && out.Success? ==>
            UpgradeReadable(out.value) && TeReadable(out.value)
            && UpgradeType(out.value) == UpgradeType(h) && TeHasTrailers(out.value) == TeHasTrailers(h)
            && ProxyCall(client, forwardUrl, uri, h, handle, backend, parse)
               == Decide(UpgradeType(h), handle, backend(Outbound(target.value, out.value))))
  {
    var target := parse(ForwardUrl(forwardUrl, uri.path, uri.query));
    var out := ProxiedHeaders(h, TeHasTrailers(h), UpgradeType(h), client);
    if target.Success? && out.Success? {
      ProxiedHeadersRoundTrip(h, TeHasTrailers(h), UpgradeType(h), client);
    }
  }

  /** A tunnel is spawned only for a 101 response to a request that had an upgrade handle. */
  lemma ProxyCallTunnel(client: string, forwardUrl: string, uri: Uri, h: Fields, handle: bool,
                        backend: Client, parse: UriParser)
    requires UpgradeReadable(h) && TeReadable(h)
    requires AnswersReadably(client, forwardUrl, uri, h, backend, parse)
    ensures var r := ProxyCall(client, forwardUrl, uri, h, handle, backend, parse);
      r.Success? && r.value.tunnel ==> r.value.status == SWITCHING_PROTOCOLS && handle
  {
    var target := parse(ForwardUrl(forwardUrl, uri.path, uri.query));
    var out := ProxiedHeaders(h, TeHasTrailers(h), UpgradeType(h), client);
    if target.Success? && out.Success? {
      DecideCases(UpgradeType(h), handle, backend(Outbound(target.value, out.value)));
    }
  }

  /** `call`: takes the request's upgrade type and upgrade handle, rewrites the request,
      asks the backend, and decides. The spawned tunnel is reported as a flag. */
  method Call(client: string, forwardUrl: string, request: Request, backend: Client, parse: UriParser)
    returns (r: Result<Response, ProxyError>, tunnel: bool)
    requires UpgradeReadable(request.headers.fields) && TeReadable(request.headers.fields)
    requires AnswersReadably(client, forwardUrl, request.uri, request.headers.fields, backend, parse)
    modifies request, request.headers
    ensures !request.upgrade
    ensures var expected := ProxyCall(client, forwardUrl, old(request.uri), old(request.headers.fields),
                                      old(request.upgrade), backend, parse);
      && (r.Failure? <==> expected.Failure?)
      && (r.Failure? ==> r.error == expected.error && !tunnel)
      && (r.Success? ==> fresh(r.value) && fresh(r.value.headers)
                         && Relay(r.value.status, r.value.headers.fields, tunnel) == expected.value)
  {
    var requestType := UpgradeType(request.headers.fields);
    var handle := request.upgrade;
    request.upgrade := false;
    tunnel := false;

    if requestType.Some? {
      VisibleIsValidValue(requestType.value);
    }
    var proxied := CreateProxiedRequest(client, forwardUrl, request, requestType, parse);
    if proxied.Failure? {
      return Failure(proxied.error), false;
    }

    var reply := backend(Outbound(request.uri, request.headers.fields));
    assert ReplyReadable(reply);
    if reply.ClientFailed? {
      return Failure(HyperClientError(reply.isConnect, reply.reason)), false;
    }
    var response := new Response(reply.status, reply.headers);

    if response.status == SWITCHING_PROTOCOLS {
      var responseType := UpgradeType(response.headers.fields);
      if requestType == responseType {
        if handle {
          if reply.upgradeFailure.Some? {
            return Failure(HyperError(reply.upgradeFailure.value)), false;
          }
          tunnel := true;
          r := Success(response);
        } else {
          r := Failure(UpgradeError(MISSING_EXTENSION));
        }
      } else {
        r := Failure(UpgradeError(MismatchReason(responseType, requestType)));
      }
    } else {
      CreateProxiedResponse(response);
      ConnectionStrippedAfterHop(reply.headers);
      r := Success(response);
    }
  }
}
