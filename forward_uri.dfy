/**
 * The forward URI builder: the URI the proxied request is sent to, composed from the
 * configured target (scheme, authority, an optional path prefix and an optional query) and
 * the path and query of the inbound request. Pure string composition: nothing is parsed
 * as a URI here, and malformed queries are never an error.
 */
module ForwardUri {
  import opened Wrappers
  import opened Text

  /** The parts of an inbound request URI the builder reads: `uri.path()` and `uri.query()`. */
  datatype Uri = Uri(path: string, query: Option<string>)

  /** The configured target before its first `?` (`split('?')`, first segment). */
  function TargetBase(target: string): string
  {
    Split(target, '?')[0]
  }

  /** The configured query: the second `?`-segment of the target, or empty. Anything after
      a second `?` is not part of it. */
  function TargetQuery(target: string): string
  {
    var segments := Split(target, '?');
    if |segments| > 1 then segments[1] else ""
  }

  /** Exactly one trailing `/` stripped, when there is one. */
  function StripSlash(s: string): (r: string)
    ensures s == r + "/" || (r == s && (|s| == 0 || s[|s| - 1] != '/'))
  {
    if |s| > 0 && s[|s| - 1] == '/' then s[..|s| - 1] else s
  }

  /** The request query as the builder sees it (`query().unwrap_or("")`). */
  function RequestQuery(query: Option<string>): string
  {
    if query.Some? then query.value else ""
  }

  /** A request query item as a (key, value) pair: the text before the first `=`, and the
      text between the first and the second `=` (empty when there is no `=`). */
  function RequestPair(item: string): (string, string)
  {
    var parts := Split(item, '=');
    (parts[0], if |parts| > 1 then parts[1] else "")
  }

  /** The keys of the configured query items: each item's text before its first `=`. */
  function ConfiguredKeys(items: seq<string>): (keys: seq<string>)
    ensures |keys| == |items|
    ensures forall i :: 0 <= i < |items| ==> keys[i] == Split(items[i], '=')[0]
  {
    seq(|items|, i requires 0 <= i < |items| => Split(items[i], '=')[0])
  }

  /** The request query items as pairs, in order. */
  function RequestPairs(items: seq<string>): (pairs: seq<(string, string)>)
    ensures |pairs| == |items|
    ensures forall i :: 0 <= i < |items| ==> pairs[i] == RequestPair(items[i])
  {
    seq(|items|, i requires 0 <= i < |items| => RequestPair(items[i]))
  }

  /** The request pairs that survive reconciliation, in request order: those whose key is
      not a configured key. */
  function Kept(pairs: seq<(string, string)>, keys: seq<string>): seq<(string, string)>
    decreases |pairs|
  {
    if |pairs| == 0 then []
    else
      var init := Kept(pairs[..|pairs| - 1], keys);
      var pair := pairs[|pairs| - 1];
      if pair.0 in keys then init else init + [pair]
  }

  /** The pairs written after the configured query, each as `&key=value`. */
  function Render(pairs: seq<(string, string)>): string
    decreases |pairs|
  {
    if |pairs| == 0 then ""
    else
      var last := pairs[|pairs| - 1];
      Render(pairs[..|pairs| - 1]) + ("&" + last.0 + "=" + last.1)
  }

  /** One trailing `&` removed, when there is one. */
  function TrimAmp(s: string): string
  {
    if |s| > 0 && s[|s| - 1] == '&' then s[..|s| - 1] else s
  }

  /** The URI `forward_uri` builds from the configured target and the request's path and
      query. */
  function ForwardUrl(target: string, path: string, query: Option<string>): string
  {
    var base := StripSlash(TargetBase(target));
    var configured := TargetQuery(target);
    var requested := RequestQuery(query);
    if configured == "" && requested == "" then base + path
    else if configured == "" then base + path + "?" + requested
    else
      var kept := Kept(RequestPairs(Split(requested, '&')), ConfiguredKeys(Split(configured, '&')));
      TrimAmp(base + path + "?" + configured + Render(kept))
  }

  /** What one request pair contributes after the configured query: `&key=value`, or
      nothing when its key is configured. */
  function Piece(pair: (string, string), keys: seq<string>): string
  {
    if pair.0 in keys then "" else "&" + pair.0 + "=" + pair.1
  }

  /** One more request pair adds its piece to the rendered pairs. */
  lemma KeptStep(pairs: seq<(string, string)>, keys: seq<string>, i: nat)
    requires i < |pairs|
    ensures Render(Kept(pairs[..i + 1], keys)) == Render(Kept(pairs[..i], keys)) + Piece(pairs[i], keys)
  {
    assert pairs[..i + 1][..i] == pairs[..i];
    var before := Kept(pairs[..i], keys);
    if pairs[i].0 !in keys {
      assert (before + [pairs[i]])[..|before|] == before;
    }
  }

  /** One turn of the merging loop: unless the key is configured, pushes `&`, the key, `=`
      and the value. */
  method PushPair(url0: string, pair: (string, string), keys: seq<string>) returns (url: string)
    ensures url == url0 + Piece(pair, keys)
  {
    url := url0;
    var (key, value) := pair;
    if key !in keys {
      url := url + "&";
      url := url + key;
      url := url + "=";
      url := url + value;
    }
  }

  /** The merging loop of `forward_uri`: appends `&key=value` for every request pair whose
      key is not a configured key, in request order. */
  method AppendRequestPairs(url0: string, pairs: seq<(string, string)>, keys: seq<string>) returns (url: string)
    ensures url == url0 + Render(Kept(pairs, keys))
  {
    url := url0;
    assert pairs[..0] == [];
    for i := 0 to |pairs|
      invariant url == url0 + Render(Kept(pairs[..i], keys))
    {
      KeptStep(pairs, keys, i);
      ghost var done := Render(Kept(pairs[..i], keys));
      url := PushPair(url, pairs[i], keys);
      assert url == url0 + (done + Piece(pairs[i], keys));
    }
    assert pairs[..|pairs|] == pairs;
  }

  /** The query part of `forward_uri`: pushes `?` and the configured query, then either the
      request query verbatim (no configured query) or the kept request pairs, and trims one
      trailing `&`. */
  method PushQuery(url0: string, configured: string, requested: string) returns (url: string)
    ensures configured == "" ==> url == url0 + "?" + requested
    ensures configured != "" ==>
      url == TrimAmp(url0 + "?" + configured
                     + Render(Kept(RequestPairs(Split(requested, '&')), ConfiguredKeys(Split(configured, '&')))))
  {
    url := url0 + "?";
    url := url + configured;
    if configured == "" {
      url := url + requested;
    } else {
      var pairs := RequestPairs(Split(requested, '&'));
      var keys := ConfiguredKeys(Split(configured, '&'));
      url := AppendRequestPairs(url, pairs, keys);
      if |url| > 0 && url[|url| - 1] == '&' {
        url := url[..|url| - 1];
      }
    }
  }

  /** `forward_uri`: writes the target's base, the request path and, when either side has a
      query, a `?` and the reconciled query into a growing string. */
  method BuildForwardUri(target: string, uri: Uri) returns (url: string)
    ensures url == ForwardUrl(target, uri.path, uri.query)
  {
    var segments := Split(target, '?');
    var base := segments[0];
    var configured := if |segments| > 1 then segments[1] else "";
    if |base| > 0 && base[|base| - 1] == '/' {
      base := base[..|base| - 1];
    }
    assert base == StripSlash(TargetBase(target)) && configured == TargetQuery(target);
    url := base + uri.path;
    if configured != "" || (uri.query.Some? && uri.query.value != "") {
      url := PushQuery(url, configured, RequestQuery(uri.query));
    }
  }

  // ---------------------------------------------------------------------------------------
  // Properties of the target's segments

  /** The base is the target up to (not including) its first `?`, and the configured query
      runs from there to the next `?` or the end. */
  lemma TargetSegments(target: string)
    ensures '?' !in TargetBase(target) && '?' !in TargetQuery(target)
    ensures '?' !in target ==> TargetBase(target) == target && TargetQuery(target) == ""
    ensures '?' in target ==>
      exists rest :: target == TargetBase(target) + "?" + TargetQuery(target) + rest
                     && (rest == "" || rest[0] == '?')
  {
    var segments := Split(target, '?');
    SplitPiecesLackSeparator(target, '?', 0);
    if |segments| > 1 {
      SplitPiecesLackSeparator(target, '?', 1);
    }
    SplitJoin(target, '?');
    if '?' !in target {
      SplitWithoutSeparator(target, '?');
    } else {
      var rest := if |segments| == 2 then "" else [('?')] + Join(segments[2..], '?');
      assert Join(segments[1..], '?') == segments[1] + rest by {
        assert segments[1..][0] == segments[1];
        if |segments| > 2 { assert segments[1..][1..] == segments[2..]; }
      }
      assert target == TargetBase(target) + "?" + TargetQuery(target) + rest;
    }
  }

  // ---------------------------------------------------------------------------------------
  // Properties of the built URI

  /** The result starts with the target's base, one trailing `/` stripped, followed by the
      request path verbatim; anything after that is a query introduced by `?`. */
  lemma ForwardUrlStartsWithBase(target: string, path: string, query: Option<string>)
    ensures var prefix := StripSlash(TargetBase(target)) + path;
      var url := ForwardUrl(target, path, query);
      |prefix| <= |url| && url[..|prefix|] == prefix && (|url| > |prefix| ==> url[|prefix|] == '?')
  {
    var prefix := StripSlash(TargetBase(target)) + path;
    var configured := TargetQuery(target);
    if configured != "" {
      var kept := Kept(RequestPairs(Split(RequestQuery(query), '&')), ConfiguredKeys(Split(configured, '&')));
      var whole := prefix + "?" + configured + Render(kept);
      assert whole[..|prefix|] == prefix;
      assert TrimAmp(whole)[..|prefix|] == prefix;
    }
  }

  /** With no query on either side, no `?` is appended. */
  lemma ForwardUrlWithoutQueries(target: string, path: string, query: Option<string>)
    requires TargetQuery(target) == "" && RequestQuery(query) == ""
    ensures ForwardUrl(target, path, query) == StripSlash(TargetBase(target)) + path
  {
  }

  /** With only a request query, it follows the `?` verbatim. */
  lemma ForwardUrlRequestQueryOnly(target: string, path: string, query: Option<string>)
    requires TargetQuery(target) == "" && RequestQuery(query) != ""
    ensures ForwardUrl(target, path, query) == StripSlash(TargetBase(target)) + path + "?" + query.value
  {
  }

  /** A pair is kept exactly when it is one of the request pairs and its key is not a
      configured key: a configured key always wins over the same request key. */
  lemma {:induction false} KeptMembers(pairs: seq<(string, string)>, keys: seq<string>, pair: (string, string))
    ensures pair in Kept(pairs, keys) <==> pair.0 !in keys && pair in pairs
    decreases |pairs|
  {
    if |pairs| > 0 {
      var init := pairs[..|pairs| - 1];
      KeptMembers(init, keys, pair);
      assert pairs == init + [pairs[|pairs| - 1]];
    }
  }

  /** Every kept pair is a request pair, there are no more of them than request pairs,
      and when no key is configured every pair is kept, in request order. */
  lemma {:induction false} KeptOrder(pairs: seq<(string, string)>, keys: seq<string>)
    ensures |Kept(pairs, keys)| <= |pairs|
    ensures forall k :: 0 <= k < |Kept(pairs, keys)| ==> Kept(pairs, keys)[k] in pairs
    ensures (forall p :: p in pairs ==> p.0 !in keys) ==> Kept(pairs, keys) == pairs
    decreases |pairs|
  {
    if |pairs| > 0 {
      var init := pairs[..|pairs| - 1];
      KeptOrder(init, keys);
      assert pairs == init + [pairs[|pairs| - 1]];
      assert forall p :: p in init ==> p in pairs;
    }
  }

  /** Keeping works pair by pair: the kept pairs of two runs of request pairs are those of
      the first run followed by those of the second, so the kept pairs keep their request
      order. */
  lemma {:induction false} KeptAppend(first: seq<(string, string)>, second: seq<(string, string)>, keys: seq<string>)
    ensures Kept(first + second, keys) == Kept(first, keys) + Kept(second, keys)
    decreases |second|
  {
    if |second| == 0 {
      assert first + second == first;
    } else {
      var init := second[..|second| - 1];
      KeptAppend(first, init, keys);
      assert (first + second)[..|first + second| - 1] == first + init;
    }
  }

  /** Each configured key is its item's text up to the first `=`: a prefix of the item
      without `=`, followed by `=` or the end of the item. */
  lemma ConfiguredKeyShape(items: seq<string>, i: nat)
    requires i < |items|
    ensures var key := ConfiguredKeys(items)[i];
      '=' !in key && |key| <= |items[i]| && items[i][..|key|] == key
      && (|key| == |items[i]| || items[i][|key|] == '=')
  {
    SplitFirstPiece(items[i], '=');
  }

  /** A request item's key is its text up to the first `=` (the whole item when there is
      none), and its value is the text after that `=` up to the next `=` or the end (empty
      when there is no `=`). */
  lemma RequestPairShape(item: string)
    ensures var (key, value) := RequestPair(item);
      '=' !in key && '=' !in value && |key| <= |item| && item[..|key|] == key
      && ('=' !in item ==> key == item && value == "")
      && ('=' in item ==>
            |key| < |item| && item[|key|] == '='
            && var rest := item[|key| + 1..];
               |value| <= |rest| && rest[..|value|] == value && (|value| == |rest| || rest[|value|] == '='))
  {
    SplitFirstPiece(item, '=');
    var key := Split(item, '=')[0];
    if '=' in item {
      SplitAtFirst(item, '=', |key|);
      SplitFirstPiece(item[|key| + 1..], '=');
    } else {
      SplitWithoutSeparator(item, '=');
    }
  }

  /** Render writes nothing that ends in `&` when no value holds `&`. */
  lemma RenderEnd(pairs: seq<(string, string)>)
    requires |pairs| > 0
    requires '&' !in pairs[|pairs| - 1].1
    ensures var r := Render(pairs); |r| > 0 && r[|r| - 1] != '&'
  {
  }

  /** A pair read from an item without `&` has no `&` in its value. */
  lemma RequestPairValueLacksAmp(item: string)
    requires '&' !in item
    ensures '&' !in RequestPair(item).1
  {
    var parts := Split(item, '=');
    if |parts| > 1 {
      forall c | 0 <= c < |parts[1]| ensures parts[1][c] != '&' {
        SplitPiecesFromSource(item, '=', 1, c);
      }
    }
  }

  /** No kept pair's value holds `&` when no request pair's value does. */
  lemma {:induction false} KeptValuesLackAmp(pairs: seq<(string, string)>, keys: seq<string>, k: nat)
    requires forall j :: 0 <= j < |pairs| ==> '&' !in pairs[j].1
    requires k < |Kept(pairs, keys)|
    ensures '&' !in Kept(pairs, keys)[k].1
    decreases |pairs|
  {
    var init := pairs[..|pairs| - 1];
    if k < |Kept(init, keys)| {
      assert forall j :: 0 <= j < |init| ==> init[j] == pairs[j];
      KeptValuesLackAmp(init, keys, k);
    }
  }

  /** Trimming one trailing `&` off `head + configured + rendered` touches the configured
      part only when nothing was rendered after it. */
  lemma TrimAmpAfterConfigured(head: string, configured: string, rendered: string)
    requires configured != ""
    requires rendered != "" ==> rendered[|rendered| - 1] != '&'
    ensures TrimAmp(head + configured + rendered)
      == head + (if rendered == "" then TrimAmp(configured) else configured + rendered)
  {
    var whole := head + configured + rendered;
    if rendered == "" {
      assert whole == head + configured;
      if configured[|configured| - 1] == '&' {
        assert whole[..|whole| - 1] == head + configured[..|configured| - 1];
      }
    } else {
      assert whole[|whole| - 1] == rendered[|rendered| - 1];
      assert whole == head + (configured + rendered);
    }
  }

  /** With a configured query, the result's query is the configured query followed by the
      kept request pairs as `&key=value`; only when nothing is kept can the trailing-`&`
      trim bite, and then it takes one `&` off the configured query. */
  lemma ForwardUrlMerged(target: string, path: string, query: Option<string>)
    requires TargetQuery(target) != ""
    ensures var configured := TargetQuery(target);
      var kept := Kept(RequestPairs(Split(RequestQuery(query), '&')), ConfiguredKeys(Split(configured, '&')));
      ForwardUrl(target, path, query)
        == StripSlash(TargetBase(target)) + path + "?"
           + (if kept == [] then TrimAmp(configured) else configured + Render(kept))
  {
    var configured := TargetQuery(target);
    var items := Split(RequestQuery(query), '&');
    var pairs := RequestPairs(items);
    var keys := ConfiguredKeys(Split(configured, '&'));
    var kept := Kept(pairs, keys);
    if kept != [] {
      forall j | 0 <= j < |pairs| ensures '&' !in pairs[j].1 {
        SplitPiecesLackSeparator(RequestQuery(query), '&', j);
        RequestPairValueLacksAmp(items[j]);
      }
      KeptValuesLackAmp(pairs, keys, |kept| - 1);
      RenderEnd(kept);
    }
    TrimAmpAfterConfigured(StripSlash(TargetBase(target)) + path + "?", configured, Render(kept));
  }

  /** Without a request query there is one request item, the empty one, and it is kept
      unless an empty key is configured. */
  lemma NoQueryKept(keys: seq<string>)
    requires "" !in keys
    ensures Kept(RequestPairs(Split(RequestQuery(None), '&')), keys) == [("", "")]
  {
    assert Split("", '&') == [""];
    assert RequestPair("") == ("", "");
    assert RequestPairs([""]) == [("", "")];
    assert [("", "")][..0] == [];
  }

  /** A configured query with no request query gains the empty pair: the result ends with
      `&=` unless an empty key is configured. */
  lemma ForwardUrlAppendsEmptyPair(target: string, path: string)
    requires TargetQuery(target) != ""
    requires "" !in ConfiguredKeys(Split(TargetQuery(target), '&'))
    ensures ForwardUrl(target, path, None)
      == StripSlash(TargetBase(target)) + path + "?" + TargetQuery(target) + "&="
  {
    ForwardUrlMerged(target, path, None);
    NoQueryKept(ConfiguredKeys(Split(TargetQuery(target), '&')));
    assert [("", "")][..0] == [];
    assert Render([("", "")]) == "&=";
  }

  /** A request item's value is the text between its first and second `=`; whatever
      follows a second `=` is dropped. */
  lemma RequestPairDropsAfterSecondEquals(key: string, value: string, tail: string)
    requires '=' !in key && '=' !in value
    ensures RequestPair(key + "=" + value + "=" + tail) == (key, value)
  {
    var item := key + "=" + value + "=" + tail;
    assert item[..|key|] == key;
    SplitAtFirst(item, '=', |key|);
    var after := item[|key| + 1..];
    assert after == value + "=" + tail;
    assert after[..|value|] == value;
    SplitAtFirst(after, '=', |value|);
  }
}
