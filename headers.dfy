/**
 * The header sanitiser and the upgrade detection of the proxy: the hop-by-hop names, the
 * removal of those names and of the names a `Connection` header lists, and the reading of
 * the `Connection`/`Upgrade` and `TE` headers.
 *
 * A header map is the `http` crate's `HeaderMap`: every name is a lower-case header name,
 * and a name may carry several values, kept in the order they were added. `get` gives the
 * first value, `remove` drops every value of a name, `insert` replaces them all with one.
 */
module Headers {
  import opened Wrappers
  import opened Text

  /** The contents of a header map: lower-case name to its values. */
  type Fields = map<string, seq<string>>

  /** The nine hop-by-hop header names: the list of section 13.5.1 of RFC 2616 (with
      `trailer`) plus `upgrade`, in the order the proxy removes them. */
  const HOP_HEADERS: seq<string> := [
    "connection", "te", "trailer", "keep-alive", "proxy-connection",
    "proxy-authenticate", "proxy-authorization", "transfer-encoding", "upgrade"
  ]

  /** `HeaderMap::get`: the first value of a name, if it has one. */
  function First(h: Fields, name: string): (v: Option<string>)
    ensures v.Some? <==> name in h && |h[name]| > 0
    ensures v.Some? ==> v.value == h[name][0]
  {
    if name in h && |h[name]| > 0 then Some(h[name][0]) else None
  }

  /** The first value of `name`, if present, survives `to_str().unwrap()`. */
  predicate Readable(h: Fields, name: string)
  {
    First(h, name).Some? ==> Visible(First(h, name).value)
  }

  /** The header name a `&str` key denotes: `HeaderMap::remove` and friends parse the text
      as a header name, lower-casing it; text that is not a token names no header. */
  function NameOf(s: string): Option<string>
  {
    if |s| > 0 && forall i :: 0 <= i < |s| ==> IsTchar(s[i]) then Some(Lower(s)) else None
  }

  /** A header map that the proxy edits in place. */
  class HeaderMap {
    var fields: Fields

    constructor (fields: Fields)
      ensures this.fields == fields
    {
      this.fields := fields;
    }

    /** `remove` with a `HeaderName` key: drops every value of that name. */
    method Remove(name: string)
      modifies this
      ensures fields == old(fields) - {name}
    {
      fields := fields - {name};
    }

    /** `remove` with a `&str` key: drops the header the text names, if it names one. */
    method RemoveNamed(key: string)
      modifies this
      ensures NameOf(key).Some? ==> fields == old(fields) - {NameOf(key).value}
      ensures NameOf(key).None? ==> fields == old(fields)
    {
      var name := NameOf(key);
      if name.Some? {
        fields := fields - {name.value};
      }
    }

    /** `insert`: the name now carries exactly this one value. */
    method Insert(name: string, value: string)
      modifies this
      ensures fields == old(fields)[name := [value]]
    {
      fields := fields[name := [value]];
    }
  }

  // ---------------------------------------------------------------------------------------
  // Hop-by-hop headers

  /** What `remove_hop_headers` leaves: none of the nine hop-by-hop names, every other
      header exactly as it was. */
  function HopStripped(h: Fields): (r: Fields)
    ensures forall n :: n in r <==> n in h && n !in HOP_HEADERS
    ensures forall n :: n in r ==> r[n] == h[n]
  {
    h - (set n | n in HOP_HEADERS)
  }

  /** `remove_hop_headers`: removes the hop-by-hop names one after another. */
  method RemoveHopHeaders(headers: HeaderMap)
    modifies headers
    ensures headers.fields == HopStripped(old(headers.fields))
  {
    for i := 0 to |HOP_HEADERS|
      invariant headers.fields == old(headers.fields) - (set n | n in HOP_HEADERS[..i])
    {
      assert HOP_HEADERS[..i + 1] == HOP_HEADERS[..i] + [HOP_HEADERS[i]];
      headers.Remove(HOP_HEADERS[i]);
    }
    assert HOP_HEADERS[..|HOP_HEADERS|] == HOP_HEADERS;
  }

  /** Removing the hop-by-hop headers a second time changes nothing. */
  lemma HopStrippedIdempotent(h: Fields)
    ensures HopStripped(HopStripped(h)) == HopStripped(h)
  {
  }

  // ---------------------------------------------------------------------------------------
  // Headers named by `Connection`

  /** The header a `Connection` list element names: the element trimmed, if that is not
      empty and parses as a header name. */
  function TokenName(piece: string): (n: Option<string>)
    ensures n.Some? <==> |Trim(piece)| > 0 && forall i :: 0 <= i < |Trim(piece)| ==> IsTchar(Trim(piece)[i])
    ensures n.Some? ==> EqIgnoreCase(n.value, Trim(piece))
    ensures n.Some? ==> forall i :: 0 <= i < |n.value| ==> IsTchar(n.value[i]) && !('A' <= n.value[i] <= 'Z')
  {
    var t := Trim(piece);
    if |t| > 0 then NameOf(t) else None
  }

  /** The header each list element denotes, element by element. */
  function TokenNames(pieces: seq<string>): (names: seq<Option<string>>)
    ensures |names| == |pieces|
    ensures forall i :: 0 <= i < |pieces| ==> names[i] == TokenName(pieces[i])
  {
    seq(|pieces|, i requires 0 <= i < |pieces| => TokenName(pieces[i]))
  }

  /** The names among `names`. */
  function Named(names: seq<Option<string>>): set<string>
  {
    set o | o in names && o.Some? :: o.value
  }

  /** One more element adds the name it denotes, if any. */
  lemma NamedStep(names: seq<Option<string>>, i: nat)
    requires i < |names|
    ensures Named(names[..i + 1])
      == Named(names[..i]) + (match names[i] case Some(n) => {n} case None => {})
  {
    assert names[..i + 1] == names[..i] + [names[i]];
  }

  /** The `Connection` value lists the header `n` as one of its comma-separated elements. */
  ghost predicate Lists(connection: string, n: string)
  {
    var pieces := Split(connection, ',');
    exists j :: 0 <= j < |pieces| && TokenName(pieces[j]) == Some(n)
  }

  /** What `remove_connection_headers` leaves: without a `Connection` header, the map as it
      was; with one, the map without every header its first value lists. */
  function ConnectionStripped(h: Fields): Fields
    requires Readable(h, "connection")
  {
    match First(h, "connection")
    case Some(v) => h - Named(TokenNames(Split(v, ',')))
    case None => h
  }

  /** `remove_connection_headers` removes exactly the headers that `Connection` lists (by
      their non-empty trimmed elements), and nothing when there is no `Connection`. */
  lemma ConnectionStrippedRemovesListed(h: Fields)
    requires Readable(h, "connection")
    ensures First(h, "connection").None? ==> ConnectionStripped(h) == h
    ensures First(h, "connection").Some? ==>
      forall n :: n in ConnectionStripped(h) <==> n in h && !Lists(First(h, "connection").value, n)
    ensures forall n :: n in ConnectionStripped(h) ==> ConnectionStripped(h)[n] == h[n]
  {
    if First(h, "connection").Some? {
      var pieces := Split(First(h, "connection").value, ',');
      var names := TokenNames(pieces);
      forall n
        ensures n in Named(names) <==> exists j :: 0 <= j < |pieces| && TokenName(pieces[j]) == Some(n)
      {
        if n in Named(names) {
          var j :| 0 <= j < |names| && names[j] == Some(n);
          assert TokenName(pieces[j]) == Some(n);
        }
        if j :| 0 <= j < |pieces| && TokenName(pieces[j]) == Some(n) {
          assert names[j] == Some(n);
        }
      }
    }
  }

  /** One turn of the element loop: removes the header a non-empty trimmed element names. */
  method RemoveListed(headers: HeaderMap, piece: string)
    modifies headers
    ensures TokenName(piece).Some? ==> headers.fields == old(headers.fields) - {TokenName(piece).value}
    ensures TokenName(piece).None? ==> headers.fields == old(headers.fields)
  {
    var name := Trim(piece);
    if |name| > 0 {
      headers.RemoveNamed(name);
    }
  }

  /** `remove_connection_headers`: removes, one element at a time, every header the
      `Connection` value lists. */
  method RemoveConnectionHeaders(headers: HeaderMap)
    requires Readable(headers.fields, "connection")
    modifies headers
    ensures headers.fields == ConnectionStripped(old(headers.fields))
  {
    if First(headers.fields, "connection").Some? {
      var value := First(headers.fields, "connection").value;
      var pieces := Split(value, ',');
      ghost var names := TokenNames(pieces);
      assert names[..0] == [];
      for i := 0 to |pieces|
        invariant headers.fields == old(headers.fields) - Named(names[..i])
      {
        NamedStep(names, i);
        RemoveListed(headers, pieces[i]);
      }
      assert names[..|pieces|] == names;
    }
  }

  /** Once the hop-by-hop headers are gone, `Connection` is gone too, so removing the
      headers it lists does nothing: in the proxy's two flows that step is a no-op. */
  lemma ConnectionStrippedAfterHop(h: Fields)
    ensures Readable(HopStripped(h), "connection")
    ensures ConnectionStripped(HopStripped(h)) == HopStripped(h)
  {
  }

  /** The full sanitiser (hop-by-hop names, then the names `Connection` lists) removes all
      nine hop-by-hop names, and applying it again changes nothing. */
  lemma SanitizeIdempotent(h: Fields)
    ensures Readable(HopStripped(h), "connection")
    ensures var s := ConnectionStripped(HopStripped(h));
      (forall n :: n in HOP_HEADERS ==> n !in s)
      && Readable(HopStripped(s), "connection")
      && ConnectionStripped(HopStripped(s)) == s
  {
    ConnectionStrippedAfterHop(h);
    HopStrippedIdempotent(h);
    ConnectionStrippedAfterHop(HopStripped(h));
  }

  // ---------------------------------------------------------------------------------------
  // Reading `Connection: upgrade` and `TE: trailers`

  /** Some comma-separated element of `value`, trimmed, equals `token` ignoring ASCII case
      (`split(',').any(|e| e.trim() == *NAME)` with a `HeaderName` on the right). */
  predicate HasToken(value: string, token: string)
  {
    AnyToken(Split(value, ','), token)
  }

  /** Some element among `pieces`, trimmed, equals `token` ignoring ASCII case. */
  predicate AnyToken(pieces: seq<string>, token: string)
  {
    exists i | 0 <= i < |pieces| :: EqIgnoreCase(Trim(pieces[i]), token)
  }

  /** Concatenated lists list what either part lists. */
  lemma AnyTokenConcat(pa: seq<string>, pb: seq<string>, token: string)
    ensures AnyToken(pa + pb, token) <==> AnyToken(pa, token) || AnyToken(pb, token)
  {
    var pieces := pa + pb;
    if AnyToken(pieces, token) {
      var i :| 0 <= i < |pieces| && EqIgnoreCase(Trim(pieces[i]), token);
      if i >= |pa| {
        assert pieces[i] == pb[i - |pa|];
      }
    }
    if AnyToken(pa, token) {
      var i :| 0 <= i < |pa| && EqIgnoreCase(Trim(pa[i]), token);
      assert pieces[i] == pa[i];
    }
    if AnyToken(pb, token) {
      var i :| 0 <= i < |pb| && EqIgnoreCase(Trim(pb[i]), token);
      assert pieces[|pa| + i] == pb[i];
    }
  }

  /** A comma-separated list lists a token exactly when one of its two halves does: the
      position of an element in the list does not matter. */
  lemma HasTokenJoin(a: string, b: string, token: string)
    ensures HasToken(a + [','] + b, token) <==> HasToken(a, token) || HasToken(b, token)
  {
    SplitConcat(a, b, ',');
    AnyTokenConcat(Split(a, ','), Split(b, ','), token);
  }

  /** `Connection` carries an `upgrade` element. */
  predicate RequestsUpgrade(h: Fields)
  {
    First(h, "connection").Some? && HasToken(First(h, "connection").value, "upgrade")
  }

  /** The values `get_upgrade_type` unwraps are text. */
  predicate UpgradeReadable(h: Fields)
  {
    Readable(h, "connection") && (RequestsUpgrade(h) ==> Readable(h, "upgrade"))
  }

  /** `get_upgrade_type`: the protocol of `Upgrade` when `Connection` asks for an upgrade. */
  function UpgradeType(h: Fields): (t: Option<string>)
    requires UpgradeReadable(h)
    ensures t.Some? <==> RequestsUpgrade(h) && "upgrade" in h && |h["upgrade"]| > 0
    ensures t.Some? ==> t.value == h["upgrade"][0] && Visible(t.value)
  {
    if RequestsUpgrade(h) then First(h, "upgrade") else None
  }

  /** The `TE` value `create_proxied_request` unwraps is text. */
  predicate TeReadable(h: Fields)
  {
    Readable(h, "te")
  }

  /** `TE` lists `trailers` among its elements. */
  predicate TeHasTrailers(h: Fields)
    requires TeReadable(h)
  {
    First(h, "te").Some? && HasToken(First(h, "te").value, "trailers")
  }

  /** A request without `TE` never asks for trailers; a one-element `TE` asks exactly when
      that element is `trailers` ignoring case; and in a longer list, `trailers` counts
      wherever it stands. */
  lemma TeHasTrailersCases(h: Fields, a: string, b: string)
    requires TeReadable(h)
    ensures First(h, "te").None? ==> !TeHasTrailers(h)
    ensures First(h, "te").Some? && ',' !in First(h, "te").value
            && (forall i :: 0 <= i < |First(h, "te").value| ==> !IsSpace(First(h, "te").value[i])) ==>
              (TeHasTrailers(h) <==> EqIgnoreCase(First(h, "te").value, "trailers"))
    ensures First(h, "te") == Some(a + [','] + b) ==>
              (TeHasTrailers(h) <==> HasToken(a, "trailers") || HasToken(b, "trailers"))
  {
    if First(h, "te").Some? {
      var v := First(h, "te").value;
      if ',' !in v && forall i :: 0 <= i < |v| ==> !IsSpace(v[i]) {
        SingleTokenValue(v, "trailers");
      }
      if v == a + [','] + b {
        HasTokenJoin(a, b, "trailers");
      }
    }
  }

  /** A value that is one token, without commas or whitespace, lists exactly the tokens
      it equals ignoring case. */
  lemma {:induction false} SingleTokenValue(v: string, token: string)
    requires ',' !in v
    requires forall i :: 0 <= i < |v| ==> !IsSpace(v[i])
    ensures HasToken(v, token) <==> EqIgnoreCase(v, token)
  {
    SplitWithoutSeparator(v, ',');
    TrimWithoutSpace(v);
    var pieces := Split(v, ',');
    assert pieces[0] == v && |pieces| == 1;
    if HasToken(v, token) {
      var i :| 0 <= i < |pieces| && EqIgnoreCase(Trim(pieces[i]), token);
      assert i == 0;
    }
  }
}
