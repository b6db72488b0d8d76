/**
 * The `tower::Service` adapter around the proxy: a service holds the target URL and the
 * backend client, forwards every request as coming from `127.0.0.1`, and turns every
 * outcome of the proxy call into an HTTP response, so that the service itself never fails.
 */
module Service {
  import opened Wrappers
  import opened Text
  import opened Headers
  import opened ForwardUri
  import opened Proxy

  /** The client address every request is forwarded for. */
  const LOCALHOST := "127.0.0.1"

  const BAD_GATEWAY := 502
  const INTERNAL_SERVER_ERROR := 500
  const BAD_GATEWAY_TEXT := "Bad gateway. Is your dev server running?"

  /** `InsecureReverseProxyService`: the target URL and the backend client. `idleTimeout` is
      the pool idle timeout in seconds of a client the service built itself, and `None` for
      a client it was given. */
  datatype ReverseProxyService = ReverseProxyService(target: string, client: Client, idleTimeout: Option<nat>)

  /** `new`: a service over the given client. */
  function New(target: string, client: Client): (svc: ReverseProxyService)
    ensures svc.target == target && svc.client == client && svc.idleTimeout.None?
  {
    ReverseProxyService(target, client, None)
  }

  /** `new_http`: a service over a fresh plain-HTTP client whose pooled connections are
      closed after 30 idle seconds; `http` stands for that client. */
  function NewHttp(target: string, http: Client): (svc: ReverseProxyService)
    ensures svc.target == target && svc.client == http && svc.idleTimeout == Some(30)
  {
    ReverseProxyService(target, http, Some(30))
  }

  /** `Poll<Result<(), Infallible>>`: the only readiness the adapter can report. */
  datatype Poll = Ready | Pending

  /** `poll_ready`: the adapter is never busy. */
  function PollReady(svc: ReverseProxyService): (p: Poll)
    ensures p == Ready
  {
    Ready
  }

  /** `Either<Incoming, String>`: the backend's body stream, or a text the adapter wrote. */
  datatype Body = Backend | Plain(text: string)

  /** The response the adapter's future yields (it has no error case). */
  datatype ServiceResponse = ServiceResponse(status: int, headers: Fields, body: Body)

  /** Whether the proxy failed because the backend could not be reached. */
  predicate ConnectFailure(r: Result<Relay, ProxyError>)
  {
    r.Failure? && r.error.HyperClientError? && r.error.isConnect
  }

  /** The adapter's `match` on the proxy's result: a success passes through with its status
      and headers and the backend body; a connect failure is a 502 with a fixed hint; every
      other error a 500 whose body is the error's display text. The error responses carry
      no headers. */
  function Respond(r: Result<Relay, ProxyError>): (resp: ServiceResponse)
    ensures r.Success? ==> resp.status == r.value.status && resp.headers == r.value.headers
                           && resp.body == Backend
    ensures r.Failure? ==> resp.headers == map[] && resp.body.Plain?
    ensures r.Failure? ==> (resp.status == BAD_GATEWAY <==> ConnectFailure(r))
    ensures r.Failure? ==> (resp.status == INTERNAL_SERVER_ERROR <==> !ConnectFailure(r))
    ensures ConnectFailure(r) ==> resp.body == Plain(BAD_GATEWAY_TEXT)
    ensures r.Failure? && !ConnectFailure(r) ==> resp.body == Plain(Describe(r.error))
  {
    match r
    case Success(relay) => ServiceResponse(relay.status, relay.headers, Backend)
    case Failure(e) =>
      if e.HyperClientError? && e.isConnect then ServiceResponse(BAD_GATEWAY, map[], Plain(BAD_GATEWAY_TEXT))
      else ServiceResponse(INTERNAL_SERVER_ERROR, map[], Plain(Describe(e)))
  }

  /** A 500 response identifies the error behind it (up to the connect flag of a client
      error): two failures that answer alike are the same failure. */
  lemma RespondIdentifiesError(e1: ProxyError, e2: ProxyError)
    requires !ConnectFailure(Failure(e1)) && !ConnectFailure(Failure(e2))
    requires Respond(Failure(e1)) == Respond(Failure(e2))
    ensures Reported(e1) == Reported(e2)
  {
    assert Plain(Describe(e1)) == Plain(Describe(e2));
    DescribeIdentifies(e1, e2);
  }

  /** What the adapter answers to a request with URI `uri`, headers `h` and (when `handle`)
      an upgrade handle. */
  function Serve(svc: ReverseProxyService, uri: Uri, h: Fields, handle: bool, parse: UriParser)
    : ServiceResponse
    requires UpgradeReadable(h) && TeReadable(h)
    requires AnswersReadably(LOCALHOST, svc.target, uri, h, svc.client, parse)
  {
    Respond(ProxyCall(LOCALHOST, svc.target, uri, h, handle, svc.client, parse))
  }

  /** The address `127.0.0.1` is a valid header value, so the service never fails with
      `ForwardHeaderError`. */
  lemma ServeNeverForwardHeaderError(svc: ReverseProxyService, uri: Uri, h: Fields, handle: bool,
                                     parse: UriParser)
    requires UpgradeReadable(h) && TeReadable(h)
    requires AnswersReadably(LOCALHOST, svc.target, uri, h, svc.client, parse)
    ensures ProxyCall(LOCALHOST, svc.target, uri, h, handle, svc.client, parse) != Failure(ForwardHeaderError)
  {
    assert ValidValue(LOCALHOST);
    ProxiedHeadersFails(h, TeHasTrailers(h), UpgradeType(h), LOCALHOST);
  }

  /** A composed URI that does not parse is answered with a 500 naming the parser's error. */
  lemma ServeInvalidUri(svc: ReverseProxyService, uri: Uri, h: Fields, handle: bool, parse: UriParser)
    requires UpgradeReadable(h) && TeReadable(h)
    requires AnswersReadably(LOCALHOST, svc.target, uri, h, svc.client, parse)
    requires parse(ForwardUrl(svc.target, uri.path, uri.query)).Failure?
    ensures Serve(svc, uri, h, handle, parse)
      == ServiceResponse(INTERNAL_SERVER_ERROR, map[],
                         Plain("InvalidUri: " + parse(ForwardUrl(svc.target, uri.path, uri.query)).error))
  {
    ProxyCallForwards(LOCALHOST, svc.target, uri, h, handle, svc.client, parse);
  }

  /** The request the service sends to the backend: the target composed with the request's
      path and query, and the rewritten headers, forwarded for `127.0.0.1`. */
  function Forwarded(svc: ReverseProxyService, uri: Uri, h: Fields, parse: UriParser): Option<Outbound>
    requires UpgradeReadable(h) && TeReadable(h)
  {
    var target := parse(ForwardUrl(svc.target, uri.path, uri.query));
    var out := ProxiedHeaders(h, TeHasTrailers(h), UpgradeType(h), LOCALHOST);
    if target.Success? && out.Success? then Some(Outbound(target.value, out.value)) else None
  }

  /** Whenever the composed URI parses, the backend is asked: its `x-forwarded-for` is the
      inbound one or `127.0.0.1`, and a backend that cannot be reached makes the service
      answer 502 with the hint. */
  lemma ServeAsksBackend(svc: ReverseProxyService, uri: Uri, h: Fields, handle: bool, parse: UriParser)
    requires UpgradeReadable(h) && TeReadable(h)
    requires AnswersReadably(LOCALHOST, svc.target, uri, h, svc.client, parse)
    requires parse(ForwardUrl(svc.target, uri.path, uri.query)).Success?
    ensures Forwarded(svc, uri, h, parse).Some?
    ensures var o := Forwarded(svc, uri, h, parse).value;
      && o.uri == parse(ForwardUrl(svc.target, uri.path, uri.query)).value
      && o.headers["x-forwarded-for"] == (if "x-forwarded-for" in h then h["x-forwarded-for"] else [LOCALHOST])
      && (svc.client(o).ClientFailed? && svc.client(o).isConnect ==>
            Serve(svc, uri, h, handle, parse) == ServiceResponse(BAD_GATEWAY, map[], Plain(BAD_GATEWAY_TEXT)))
  {
    assert ValidValue(LOCALHOST);
    ProxiedHeadersFails(h, TeHasTrailers(h), UpgradeType(h), LOCALHOST);
    ProxiedHeadersForwardedFor(h, TeHasTrailers(h), UpgradeType(h), LOCALHOST);
    ProxyCallForwards(LOCALHOST, svc.target, uri, h, handle, svc.client, parse);
  }

  /** `Service::call`: runs the proxy call for `127.0.0.1` towards the service's target and
      answers with `Respond`; `tunnel` reports a spawned tunnel. */
  method Handle(svc: ReverseProxyService, request: Request, parse: UriParser)
    returns (resp: ServiceResponse, tunnel: bool)
    requires UpgradeReadable(request.headers.fields) && TeReadable(request.headers.fields)
    requires AnswersReadably(LOCALHOST, svc.target, request.uri, request.headers.fields, svc.client, parse)
    modifies request, request.headers
    ensures resp == Serve(svc, old(request.uri), old(request.headers.fields), old(request.upgrade), parse)
    ensures tunnel ==> resp.status == SWITCHING_PROTOCOLS && resp.body == Backend
  {
    var r, t := Call(LOCALHOST, svc.target, request, svc.client, parse);
    tunnel := t;
    if r.Success? {
      resp := Respond(Success(Relay(r.value.status, r.value.headers.fields, t)));
      ProxyCallTunnel(LOCALHOST, svc.target, old(request.uri), old(request.headers.fields),
                      old(request.upgrade), svc.client, parse);
    } else {
      resp := Respond(Failure(r.error));
    }
  }
}
