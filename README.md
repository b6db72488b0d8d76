# insecure-reverse-proxy, modelled in Dafny

This project models the forwarding engine of the `insecure-reverse-proxy` crate. That engine
is a development reverse proxy, which forwards every inbound HTTP request to one configured
backend target. It has four parts, and the model has one Dafny module for each:

- **The header sanitiser and upgrade detection** (`Headers`, in `headers.dfy`).
  - A header map is a class over a map from lower-case header name to that name's values.
  - `remove_hop_headers` removes the nine hop-by-hop names.
  - `remove_connection_headers` removes every header that a `Connection` element names.
  - `get_upgrade_type` reads `Connection: upgrade` together with `Upgrade`.
  - The `TE: trailers` test is modelled here too.
- **The forward URI builder** (`ForwardUri`, in `forward_uri.dfy`).
  - `forward_uri` composes the configured target with the request's path and query.
  - It is modelled as a method that builds the string step by step, proved equal to the pure `ForwardUrl`.
- **Request and response translation** (`Proxy`, in `proxy.dfy`).
  - `create_proxied_request` rewrites the request's URI and headers in place.
  - `create_proxied_response` strips the backend response's headers.
  - `call` chooses between relaying a response, spawning an upgrade tunnel and failing with a `ProxyError`.
  - `ProxyError` and its display text are modelled here too.
- **The `tower::Service` adapter of `lib.rs`** (`Service`, in `service.dfy`).
  - It covers the constructors, `poll_ready`, and the mapping of every outcome to a response: 502 for an unreachable backend, 500 with the error text for every other error.

The Rust standard-library string operations the code relies on are modelled in `Text` (`text.dfy`):

- `split` on a character, which always yields at least one piece;
- `trim`, which strips Unicode white space;
- `eq_ignore_ascii_case`;
- the `{:?}` rendering of a string.

`Option` and `Result` are in `Wrappers` (`wrappers.dfy`).

Some things outside the crate are parameters of the model:

- The backend HTTP client is the function `Client` from the outbound request to a reply. The reply is a status, headers and the outcome of awaiting the upgraded connection, or a client error with its connect flag.
- Parsing text as a `hyper::Uri` is the function `UriParser`.
- The client address is its display text. The adapter always uses `127.0.0.1`.

A `to_str().unwrap()` on a header value panics if the value is not visible ASCII. Each such call becomes a precondition that the value read there is visible ASCII (`Readable`, `UpgradeReadable`, `TeReadable`). For the backend's reply, the precondition `AnswersReadably` asks this only of the reply to the one request `call` actually sends, and only when that reply is a 101. Likewise, `value.parse().unwrap()` on the upgrade type becomes the precondition `ValidValue`.

### Behaviour as written

The model keeps the code's behaviour in these places, where a reader might expect otherwise:

- **`x-forwarded-for` that is already present is left unchanged.** The occupied branch builds `<existing>, <client>` in a local string and never stores it (`crates/insecure-reverse-proxy/src/hyper_reverse_proxy.rs:314-324`). `CreateProxiedRequest` and `ProxiedHeadersForwardedFor` state that the old value is kept.
- **The `upgrade` and `trailers` tokens are compared ignoring ASCII case.** The code compares a `&str` with a `HeaderName`, and the `http` crate does that with `eq_ignore_ascii_case`. Those lines are `hyper_reverse_proxy.rs:138` and `:272`.
- **The configured query is only the second `?`-segment of the target.** Anything after a further `?` is dropped.
- **A request pair's value is the text between its first and second `=`.** Anything after the second `=` is dropped (`RequestPairDropsAfterSecondEquals`).
- **A configured query with no request query gets the empty pair `&=` appended** (`ForwardUrlAppendsEmptyPair`).
- **At most one trailing `&` is removed.** That can only happen when no request pair was kept, and then it comes off the configured query (`ForwardUrlMerged`).
- **The `Connection` step finds nothing to remove.** `remove_hop_headers` has already removed `connection` in both `create_proxied_request` and `create_proxied_response` (`ConnectionStrippedAfterHop`).

## Model

| member | source | states |
|---|---|---|
| Headers.HopStripped | crates/insecure-reverse-proxy/src/hyper_reverse_proxy.rs:26-38 | a name survives exactly when it was present and is not one of the nine hop-by-hop names; every surviving header keeps its values |
| Headers.RemoveHopHeaders | crates/insecure-reverse-proxy/src/hyper_reverse_proxy.rs:121-127 | the loop over the nine names leaves the map equal to `HopStripped` of the old map (the loop invariant removes the names seen so far) |
| Headers.HopStrippedIdempotent | crates/insecure-reverse-proxy/src/hyper_reverse_proxy.rs:121-127 | removing the hop-by-hop headers a second time changes nothing |
| Headers.HeaderMap.Remove | crates/insecure-reverse-proxy/src/hyper_reverse_proxy.rs:125 | `remove` with a header name drops that name and nothing else |
| Headers.HeaderMap.RemoveNamed | crates/insecure-reverse-proxy/src/hyper_reverse_proxy.rs:163 | `remove` with text drops the lower-cased name when the text is a token, and is a no-op otherwise |
| Headers.HeaderMap.Insert | crates/insecure-reverse-proxy/src/hyper_reverse_proxy.rs:291-304 | `insert` leaves the name with exactly the one new value and keeps every other header |
| Headers.TokenName | crates/insecure-reverse-proxy/src/hyper_reverse_proxy.rs:162-163 | an element names a header exactly when its trimmed text is non-empty and made of token characters; the name is then that text lower-cased: a lower-case token equal to it ignoring ASCII case |
| Headers.NamedStep | crates/insecure-reverse-proxy/src/hyper_reverse_proxy.rs:161-165 | each further element adds the name it denotes, if any, to the names removed so far |
| Headers.RemoveListed | crates/insecure-reverse-proxy/src/hyper_reverse_proxy.rs:162-164 | one element removes the header its non-empty trimmed text names, and otherwise nothing |
| Headers.ConnectionStrippedRemovesListed | crates/insecure-reverse-proxy/src/hyper_reverse_proxy.rs:155-167 | with no `Connection`, nothing is removed; with one, a header survives exactly when its first value does not list it; survivors keep their values |
| Headers.RemoveConnectionHeaders | crates/insecure-reverse-proxy/src/hyper_reverse_proxy.rs:155-167 | the loop over the comma-separated elements leaves the map equal to `ConnectionStripped` of the old map |
| Headers.ConnectionStrippedAfterHop | crates/insecure-reverse-proxy/src/hyper_reverse_proxy.rs:172-173 | after the hop-by-hop removal, `Connection` is gone, so the connection-listed removal is a no-op |
| Headers.SanitizeIdempotent | crates/insecure-reverse-proxy/src/hyper_reverse_proxy.rs:169-176 | the full sanitiser leaves none of the nine names, and running it again changes nothing |
| Headers.UpgradeType | crates/insecure-reverse-proxy/src/hyper_reverse_proxy.rs:129-153 | an upgrade type exists exactly when `Connection` lists `upgrade` and `Upgrade` has a value; the type is that first value, as visible text |
| Headers.SingleTokenValue | crates/insecure-reverse-proxy/src/hyper_reverse_proxy.rs:131-140 | a value without commas or white space lists a token exactly when it equals the token ignoring ASCII case |
| Headers.HasTokenJoin | crates/insecure-reverse-proxy/src/hyper_reverse_proxy.rs:133-139 | the comma-list test (`split(',')`, then `any` trimmed element equal to the name ignoring ASCII case) holds for a list exactly when it holds for one of its two comma-separated halves, so an element counts wherever it stands |
| Headers.TeHasTrailersCases | crates/insecure-reverse-proxy/src/hyper_reverse_proxy.rs:264-274 | without `TE` no trailers are asked for; a one-element `TE` asks exactly when the element is `trailers` ignoring ASCII case; in a longer list `trailers` counts in either half |
| Text.Split | crates/insecure-reverse-proxy/src/hyper_reverse_proxy.rs:181 | `split` yields at least one piece |
| Text.SplitJoin | crates/insecure-reverse-proxy/src/hyper_reverse_proxy.rs:181 | gluing the pieces back with the separator gives the original string |
| Text.SplitPiecesLackSeparator | crates/insecure-reverse-proxy/src/hyper_reverse_proxy.rs:137 | no piece contains the separator |
| Text.SplitConcat | crates/insecure-reverse-proxy/src/hyper_reverse_proxy.rs:137 | splitting at a separator splits the two sides apart: the pieces of the left side, then those of the right |
| Text.SplitFirstPiece | crates/insecure-reverse-proxy/src/hyper_reverse_proxy.rs:221-222 | the first piece is the text before the first separator, followed by the separator or the end |
| Text.TrimStartShape | crates/insecure-reverse-proxy/src/hyper_reverse_proxy.rs:162 | `trim_start` drops exactly the leading run of white space |
| Text.TrimEndShape | crates/insecure-reverse-proxy/src/hyper_reverse_proxy.rs:162 | `trim_end` drops exactly the trailing run of white space |
| Text.EscapeRoundTrip | crates/insecure-reverse-proxy/src/hyper_reverse_proxy.rs:399-402 | the escaping inside the `{:?}` rendering loses nothing: unescaping gives the original text back |
| ForwardUri.StripSlash | crates/insecure-reverse-proxy/src/hyper_reverse_proxy.rs:188-193 | exactly one trailing `/` is removed when there is one, and nothing otherwise |
| ForwardUri.TargetSegments | crates/insecure-reverse-proxy/src/hyper_reverse_proxy.rs:181-184 | the base is the target up to its first `?`; the configured query runs to the next `?` or the end; without `?` the base is the whole target and there is no query |
| ForwardUri.ConfiguredKeyShape | crates/insecure-reverse-proxy/src/hyper_reverse_proxy.rs:225-231 | each configured key is its item's text up to the first `=`: a prefix of the item without `=`, followed by `=` or the end |
| ForwardUri.ForwardUrlStartsWithBase | crates/insecure-reverse-proxy/src/hyper_reverse_proxy.rs:181-206 | the URI starts with the base (one trailing `/` stripped) followed by the request path, and anything after them starts with `?` |
| ForwardUri.ForwardUrlWithoutQueries | crates/insecure-reverse-proxy/src/hyper_reverse_proxy.rs:208 | with both queries empty, no `?` is appended |
| ForwardUri.ForwardUrlRequestQueryOnly | crates/insecure-reverse-proxy/src/hyper_reverse_proxy.rs:208-216 | with only a request query, the URI ends in `?` and the request query verbatim |
| ForwardUri.RequestPairShape | crates/insecure-reverse-proxy/src/hyper_reverse_proxy.rs:220-223 | a request item's key is its text before the first `=` (the whole item without one); its value is the text after that `=` up to the next `=` or the end, and empty without `=` |
| ForwardUri.KeptMembers | crates/insecure-reverse-proxy/src/hyper_reverse_proxy.rs:233-240 | a request pair is appended exactly when it is one of the request pairs and its key is not a configured key (configured keys win) |
| ForwardUri.KeptOrder | crates/insecure-reverse-proxy/src/hyper_reverse_proxy.rs:233-240 | the appended pairs are drawn from the request pairs, no more of them than there are; with no configured key among them, all are appended in request order |
| ForwardUri.KeptAppend | crates/insecure-reverse-proxy/src/hyper_reverse_proxy.rs:233-240 | the pairs kept from two runs of request pairs are those kept from the first followed by those kept from the second, so kept pairs stay in request order |
| ForwardUri.KeptStep | crates/insecure-reverse-proxy/src/hyper_reverse_proxy.rs:233-240 | each further request pair appends `&key=value` unless its key is configured |
| ForwardUri.PushPair | crates/insecure-reverse-proxy/src/hyper_reverse_proxy.rs:234-239 | one turn of the merging loop appends that pair's piece and nothing else |
| ForwardUri.RequestPairValueLacksAmp | crates/insecure-reverse-proxy/src/hyper_reverse_proxy.rs:220-222 | a pair read from a `&`-free item has a `&`-free value |
| ForwardUri.KeptValuesLackAmp | crates/insecure-reverse-proxy/src/hyper_reverse_proxy.rs:220-240 | no appended value contains `&` |
| ForwardUri.RenderEnd | crates/insecure-reverse-proxy/src/hyper_reverse_proxy.rs:235-238 | the appended pairs never end in `&` when the last value has none |
| ForwardUri.TrimAmpAfterConfigured | crates/insecure-reverse-proxy/src/hyper_reverse_proxy.rs:242-247 | the trailing-`&` trim reaches the configured query only when no pair was appended |
| ForwardUri.ForwardUrlMerged | crates/insecure-reverse-proxy/src/hyper_reverse_proxy.rs:217-247 | with a configured query, the query is the configured query followed by the kept request pairs as `&key=value` in request order; with no pair kept, one trailing `&` is trimmed from the configured query |
| ForwardUri.ForwardUrlAppendsEmptyPair | crates/insecure-reverse-proxy/src/hyper_reverse_proxy.rs:220-240 | a configured query with no request query gains `&=`, unless an empty key is configured |
| ForwardUri.RequestPairDropsAfterSecondEquals | crates/insecure-reverse-proxy/src/hyper_reverse_proxy.rs:221-222 | a request pair's value is the text between the first and second `=` |
| ForwardUri.AppendRequestPairs | crates/insecure-reverse-proxy/src/hyper_reverse_proxy.rs:233-240 | the merging loop appends exactly the rendered kept pairs |
| ForwardUri.PushQuery | crates/insecure-reverse-proxy/src/hyper_reverse_proxy.rs:208-248 | the query part is `?` and the request query verbatim without a configured query, and otherwise `?`, the configured query and the kept pairs with one trailing `&` trimmed |
| ForwardUri.BuildForwardUri | crates/insecure-reverse-proxy/src/hyper_reverse_proxy.rs:178-254 | the string built with pushes and the trailing-`&` trim equals `ForwardUrl` of the target and the request's path and query |
| Proxy.DescribeIdentifies | crates/insecure-reverse-proxy/src/hyper_reverse_proxy.rs:43-55 | two errors with the same display text are the same variant with the same wrapped text (only a client error's connect flag is not shown) |
| Proxy.PrefixesDistinct | crates/insecure-reverse-proxy/src/hyper_reverse_proxy.rs:45-53 | the display prefixes of the four wrapping variants are told apart by the text |
| Proxy.DebugOptionInjective | crates/insecure-reverse-proxy/src/hyper_reverse_proxy.rs:399-402 | the `{:?}` rendering of an optional protocol identifies it, so the mismatch reason names both types unambiguously |
| Proxy.SanitizedShape | crates/insecure-reverse-proxy/src/hyper_reverse_proxy.rs:281-286 | `host` and the nine hop-by-hop names are dropped, and every other header keeps its values |
| Proxy.ReinsertedShape | crates/insecure-reverse-proxy/src/hyper_reverse_proxy.rs:288-305 | after re-insertion, `te` is exactly `trailers` iff asked for, and `upgrade`/`connection` are exactly the type and `UPGRADE` iff a type is given; the other hop-by-hop names and `host` are absent; every other header is as it came in |
| Proxy.ProxiedHeadersFails | crates/insecure-reverse-proxy/src/hyper_reverse_proxy.rs:308-312 | the header rewrite fails exactly when `x-forwarded-for` is absent and the client text is not a valid header value |
| Proxy.ProxiedHeadersReinserts | crates/insecure-reverse-proxy/src/hyper_reverse_proxy.rs:280-305 | the outbound headers lack `host` and the hop-by-hop names except the re-inserted `te` and `upgrade`/`connection`, which are present exactly when asked for, with exactly those values |
| Proxy.ProxiedHeadersForwardedFor | crates/insecure-reverse-proxy/src/hyper_reverse_proxy.rs:308-325 | `x-forwarded-for` is kept unchanged when present and set to the client text when absent |
| Proxy.ProxiedHeadersKeepsOthers | crates/insecure-reverse-proxy/src/hyper_reverse_proxy.rs:280-325 | every header the rewrite does not itself write or drop goes out with the same values |
| Proxy.SingleTokenListed | crates/insecure-reverse-proxy/src/hyper_reverse_proxy.rs:138 | a value made only of letters, such as `UPGRADE` or `trailers`, lists any token it equals ignoring ASCII case |
| Proxy.UpgradeReadBack | crates/insecure-reverse-proxy/src/hyper_reverse_proxy.rs:296-305 | re-inserted `upgrade`/`connection` headers read back as the same upgrade type |
| Proxy.TeReadBack | crates/insecure-reverse-proxy/src/hyper_reverse_proxy.rs:288-294 | a re-inserted `te: trailers` reads back as a trailers request, and its absence as none |
| Proxy.ProxiedHeadersRoundTrip | crates/insecure-reverse-proxy/src/hyper_reverse_proxy.rs:264-305 | the backend sees the inbound request's upgrade type and trailers request |
| Proxy.CreateProxiedRequest | crates/insecure-reverse-proxy/src/hyper_reverse_proxy.rs:256-330 | the request's URI and headers are rewritten in place; see the header and error cases below |
| Proxy.CreateProxiedResponse | crates/insecure-reverse-proxy/src/hyper_reverse_proxy.rs:169-176 | the response headers end up without the hop-by-hop names, all others unchanged |
| Proxy.DecideCases | crates/insecure-reverse-proxy/src/hyper_reverse_proxy.rs:363-410 | the outcome of `call` once the backend has answered; see the cases below |
| Proxy.ProxyCallForwards | crates/insecure-reverse-proxy/src/hyper_reverse_proxy.rs:350-361 | an unparsable composed URI gives `InvalidUri`; otherwise the backend sees the inbound upgrade type and trailers request, and the decision is taken on its reply |
| Proxy.ProxyCallTunnel | crates/insecure-reverse-proxy/src/hyper_reverse_proxy.rs:363-393 | a tunnel is spawned only for a 101 response to a request that had an upgrade handle |
| Proxy.Call | crates/insecure-reverse-proxy/src/hyper_reverse_proxy.rs:332-411 | takes away the request's upgrade handle, and its result, headers and tunnel flag are exactly those of `ProxyCall` on the old request |
| Service.New | crates/insecure-reverse-proxy/src/lib.rs:33-41 | the target and client are stored unchanged |
| Service.NewHttp | crates/insecure-reverse-proxy/src/lib.rs:45-58 | the target is stored unchanged, with a plain-HTTP client whose pool idle timeout is 30 seconds |
| Service.PollReady | crates/insecure-reverse-proxy/src/lib.rs:84-86 | the adapter is always ready |
| Service.Respond | crates/insecure-reverse-proxy/src/lib.rs:97-113 | the adapter's mapping of the proxy result to a response; see the cases below |
| Service.RespondIdentifiesError | crates/insecure-reverse-proxy/src/lib.rs:108-111 | two non-connect failures that give the same 500 response are the same error |
| Service.ServeNeverForwardHeaderError | crates/insecure-reverse-proxy/src/lib.rs:94 | forwarding for `127.0.0.1` never fails with `ForwardHeaderError` |
| Service.ServeInvalidUri | crates/insecure-reverse-proxy/src/lib.rs:93-111 | an unparsable composed URI is answered with 500 and `InvalidUri: <reason>` |
| Service.ServeAsksBackend | crates/insecure-reverse-proxy/src/lib.rs:89-106 | the backend is asked for the service's target composed with the request URI; it sees the inbound `x-forwarded-for` or `127.0.0.1`; a connect failure is answered 502 with the fixed hint |
| Service.Handle | crates/insecure-reverse-proxy/src/lib.rs:88-117 | its response is `Respond` of the proxy call, for `127.0.0.1` towards the stored target; with a tunnel, the response is the backend's 101 |

A few rows say "see the cases below". Their cases are these:

**Proxy.CreateProxiedRequest**

- If the composed URI does not parse, the result is `InvalidUri` and nothing is changed.
- Otherwise, the outbound headers are `ProxiedHeaders` of the old ones:
  - `host` and the hop-by-hop names are gone;
  - `te` is exactly `trailers` when the inbound `TE` listed it, and absent otherwise;
  - `upgrade: <type>` and `connection: UPGRADE` are present exactly when a type was given;
  - `x-forwarded-for` is kept when present, and otherwise set to the client text;
  - every other header is unchanged.
- If the client text is not a valid header value and `x-forwarded-for` is absent, the result is `ForwardHeaderError`.

**Proxy.DecideCases**

- A client error is passed on.
- A tunnel is spawned exactly for a 101 response whose upgrade type equals the request's, when the request has a handle and the upgrade succeeded. That response is returned with its status and headers untouched.
- When the request has a handle and the types match but awaiting the backend's upgraded connection fails, the result is `HyperError` with that failure.
- A 101 response with a different type gives the `UpgradeError` that names both types.
- A 101 response with the same type but no handle gives `UpgradeError("request does not have an upgrade extension")`.
- Any other status returns the response with its hop-by-hop headers stripped.

**Service.Respond**

- A success passes its status and headers through, with the backend body.
- A connect failure becomes 502 with the body `Bad gateway. Is your dev server running?`.
- Every other error becomes 500 whose body is the error's display text.
- Error responses carry no headers.

## Left out

- The tunnel: the detached task that copies bytes between the two upgraded connections, and the awaiting of the request's `OnUpgrade`. These are concurrency and I/O. `call` reports a spawned tunnel as the flag `tunnel`.
- The outcome of awaiting the backend's `OnUpgrade` is part of the client's reply (`upgradeFailure`), and a failure there gives `HyperError`. The `expect` on a 101 response that lacks the extension is not modelled: the hyper client always attaches the extension.
- Network dispatch by `Client::request` and the construction of the client and its connection pool are left out. The client is the `Client` function parameter. `NewHttp` records only the pool's 30-second idle timeout.
- The internals of `hyper::Uri` parsing are left out; parsing is the `UriParser` function parameter. Of a parsed URI, the model keeps only the path and query the builder reads.
- `IpAddr` formatting is left out. The client address is its text.
- Logging (`tracing`), the `LazyLock` statics (they are constants here) and the `Clone` impls are left out.
- `HyperReverseProxy::new` and `HyperReverseProxy::call` are left out. They only store the client and delegate to `call`.
- `webdev_service.rs` and the examples are not part of this model. They are process orchestration and server setup.
- The request method, version and body, and the response body, pass through untouched and are not modelled.
- Header values are strings of characters, not bytes. A `HeaderValue` holding bytes 0x80-0xFF is not modelled. Neither is the `from_utf8(...).unwrap()` panic in the `x-forwarded-for` occupied branch, which such bytes could cause.
- `Headers.HeaderMap`: the relative order of values under different names is not kept, because the map has no order across names.
- `Text.EscapeChar` escapes only tab, CR, LF, NUL, backslash and double quote. The rest of `char::escape_debug` (other control and non-printable characters as `\u{..}`) is not modelled. Upgrade types are visible ASCII, so the rest never applies to them.
- Panics of `to_str().unwrap()` on non-visible header values, and of `parse().unwrap()` on the upgrade type, are preconditions rather than modelled behaviour.
