/**
 * The string primitives of Rust's standard library that the proxy leans on, for `&str`
 * seen as a sequence of characters: `split` on a character, `trim`, `ends_with`,
 * `eq_ignore_ascii_case`, the `{:?}` rendering of a string, and the character classes
 * of the `http` crate (which bytes a header value may hold, which a header name may hold).
 */
module Text {

  /** `s.split(sep).collect()`: the pieces between the separators, in order. Like Rust's,
      this always yields at least one piece, and an empty piece stands for every empty
      stretch (a leading, trailing or doubled separator). */
  function Split(s: string, sep: char): (parts: seq<string>)
    ensures |parts| >= 1
    decreases |s|
  {
    if |s| == 0 then [""] else Cons(s[0], sep, Split(s[1..], sep))
  }

  /** The pieces of `[c] + t` from the pieces `rest` of `t`: a separator starts a new empty
      piece, any other character joins the first piece. */
  function Cons(c: char, sep: char, rest: seq<string>): (parts: seq<string>)
    requires |rest| >= 1
    ensures |parts| >= 1
  {
    if c == sep then [""] + rest else [[c] + rest[0]] + rest[1..]
  }

  /** No piece holds the separator. */
  lemma {:induction false} SplitPiecesLackSeparator(s: string, sep: char, i: nat)
    requires i < |Split(s, sep)|
    ensures sep !in Split(s, sep)[i]
    decreases |s|
  {
    if |s| > 0 {
      var rest := Split(s[1..], sep);
      if s[0] == sep {
        if i > 0 { SplitPiecesLackSeparator(s[1..], sep, i - 1); }
      } else {
        SplitPiecesLackSeparator(s[1..], sep, i);
      }
    }
  }

  /** The inverse of Split: the pieces glued back together with `sep` between them. */
  function Join(parts: seq<string>, sep: char): string
  {
    if |parts| == 0 then ""
    else if |parts| == 1 then parts[0]
    else parts[0] + [sep] + Join(parts[1..], sep)
  }

  /** Splitting loses nothing: gluing the pieces back gives the original string. */
  lemma {:induction false} SplitJoin(s: string, sep: char)
    ensures Join(Split(s, sep), sep) == s
    decreases |s|
  {
    if |s| > 0 {
      var rest := Split(s[1..], sep);
      SplitJoin(s[1..], sep);
      if s[0] == sep {
        assert Split(s, sep) == [""] + rest;
        assert ([""] + rest)[1..] == rest;
      } else {
        var parts := Split(s, sep);
        assert parts == [[s[0]] + rest[0]] + rest[1..];
        if |rest| == 1 {
          assert parts == [[s[0]] + rest[0]];
        } else {
          assert parts[1..] == rest[1..];
          assert Join(rest, sep) == rest[0] + [sep] + Join(rest[1..], sep);
        }
      }
    }
  }

  /** A string without the separator is one piece. */
  lemma {:induction false} SplitWithoutSeparator(s: string, sep: char)
    requires sep !in s
    ensures Split(s, sep) == [s]
    decreases |s|
  {
    if |s| > 0 {
      assert sep !in s[1..];
      SplitWithoutSeparator(s[1..], sep);
      assert [s[0]] + s[1..] == s;
    }
  }

  /** The first separator ends the first piece; the rest is split on its own. */
  lemma {:induction false} SplitAtFirst(s: string, sep: char, k: nat)
    requires k < |s| && s[k] == sep && sep !in s[..k]
    ensures Split(s, sep) == [s[..k]] + Split(s[k + 1..], sep)
    decreases k
  {
    if k == 0 {
      assert s[1..] == s[k + 1..];
    } else {
      assert s[1..][..k - 1] == s[1..k];
      assert sep !in s[1..][..k - 1];
      SplitAtFirst(s[1..], sep, k - 1);
      assert s[1..][k - 1 + 1..] == s[k + 1..];
      assert [s[0]] + s[1..k] == s[..k];
    }
  }

  /** Splitting at one separator splits the two sides apart: the pieces of `a`, then those
      of `b`. */
  lemma SplitConcat(a: string, b: string, sep: char)
    ensures Split(a + [sep] + b, sep) == Split(a, sep) + Split(b, sep)
  {
    var s := a + [sep] + b;
    assert s[..|a|] == a && s[|a| + 1..] == b;
    SplitAt(s, sep, |a|);
  }

  /** Any separator splits the pieces of the text before it from those of the text after. */
  lemma {:induction false} SplitAt(s: string, sep: char, k: nat)
    requires k < |s| && s[k] == sep
    ensures Split(s, sep) == Split(s[..k], sep) + Split(s[k + 1..], sep)
    decreases k
  {
    if k == 0 {
      assert s[..0] == [] && s[1..] == s[k + 1..];
    } else {
      var head := s[..k];
      SplitAt(s[1..], sep, k - 1);
      assert head[0] == s[0] && head[1..] == s[1..][..k - 1] && s[1..][k..] == s[k + 1..];
      ConsPieces(s[0], sep, Split(head[1..], sep), Split(s[k + 1..], sep));
    }
  }

  /** Putting one more character in front of the pieces `p + q` affects only `p`. */
  lemma ConsPieces(c: char, sep: char, p: seq<string>, q: seq<string>)
    requires |p| >= 1
    ensures Cons(c, sep, p + q) == Cons(c, sep, p) + q
  {
    if c != sep {
      assert (p + q)[1..] == p[1..] + q;
    }
  }

  /** The first piece is the text before the first separator: a prefix of the string
      without the separator, followed by the separator or the end. */
  lemma {:induction false} SplitFirstPiece(s: string, sep: char)
    ensures var p := Split(s, sep)[0];
      sep !in p && |p| <= |s| && s[..|p|] == p && (|p| == |s| || s[|p|] == sep)
    decreases |s|
  {
    if |s| > 0 && s[0] != sep {
      SplitFirstPiece(s[1..], sep);
      var q := Split(s[1..], sep)[0];
      assert s[..|q| + 1] == [s[0]] + s[1..][..|q|];
    }
  }

  /** Every character of every piece comes from the split string. */
  lemma {:induction false} SplitPiecesFromSource(s: string, sep: char, i: nat, k: nat)
    requires i < |Split(s, sep)| && k < |Split(s, sep)[i]|
    ensures Split(s, sep)[i][k] in s
    decreases |s|
  {
    var rest := Split(s[1..], sep);
    if s[0] == sep {
      SplitPiecesFromSource(s[1..], sep, i - 1, k);
    } else if i == 0 {
      if k > 0 { SplitPiecesFromSource(s[1..], sep, 0, k - 1); }
    } else {
      SplitPiecesFromSource(s[1..], sep, i, k);
    }
  }

  /** `char::is_whitespace`: the Unicode White_Space characters, which is what `str::trim`
      strips. */
  predicate IsSpace(c: char)
  {
    c == ' ' || '\t' <= c <= '\r' || c == '\U{85}' || c == '\U{A0}' || c == '\U{1680}'
    || '\U{2000}' <= c <= '\U{200A}' || c == '\U{2028}' || c == '\U{2029}'
    || c == '\U{202F}' || c == '\U{205F}' || c == '\U{3000}'
  }

  /** `trim_start`: the longest suffix that does not begin with whitespace. */
  function TrimStart(s: string): (t: string)
    ensures |t| <= |s|
    decreases |s|
  {
    if |s| > 0 && IsSpace(s[0]) then TrimStart(s[1..]) else s
  }

  /** `trim_end`: the longest prefix that does not end with whitespace. */
  function TrimEnd(s: string): (t: string)
    ensures |t| <= |s|
    decreases |s|
  {
    if |s| > 0 && IsSpace(s[|s| - 1]) then TrimEnd(s[..|s| - 1]) else s
  }

  /** `str::trim`: whitespace stripped from both ends. */
  function Trim(s: string): string
  {
    TrimEnd(TrimStart(s))
  }

  /** `trim_start` drops a run of whitespace and stops at the first other character. */
  lemma {:induction false} TrimStartShape(s: string)
    ensures var t := TrimStart(s);
      t == s[|s| - |t|..] && (|t| > 0 ==> !IsSpace(t[0]))
      && forall i :: 0 <= i < |s| - |t| ==> IsSpace(s[i])
    decreases |s|
  {
    if |s| > 0 && IsSpace(s[0]) {
      TrimStartShape(s[1..]);
    }
  }

  /** `trim_end` drops a run of whitespace and stops at the last other character. */
  lemma {:induction false} TrimEndShape(s: string)
    ensures var t := TrimEnd(s);
      t == s[..|t|] && (|t| > 0 ==> !IsSpace(t[|t| - 1]))
      && forall i :: |t| <= i < |s| ==> IsSpace(s[i])
    decreases |s|
  {
    if |s| > 0 && IsSpace(s[|s| - 1]) {
      TrimEndShape(s[..|s| - 1]);
    }
  }

  /** A string with no whitespace at either end is its own trim. */
  lemma TrimWithoutSpace(s: string)
    requires |s| > 0 ==> !IsSpace(s[0]) && !IsSpace(s[|s| - 1])
    ensures Trim(s) == s
  {
  }

  /** `u8::to_ascii_lowercase` on a character. */
  function AsciiLower(c: char): char
  {
    if 'A' <= c <= 'Z' then (c as int + 32) as char else c
  }

  /** `to_ascii_lowercase` on a string. */
  function Lower(s: string): (t: string)
    ensures |t| == |s| && forall i :: 0 <= i < |s| ==> t[i] == AsciiLower(s[i])
  {
    seq(|s|, i requires 0 <= i < |s| => AsciiLower(s[i]))
  }

  /** `eq_ignore_ascii_case`, which is how the `http` crate compares a `&str` with a
      `HeaderName`. */
  predicate EqIgnoreCase(a: string, b: string)
  {
    |a| == |b| && forall i :: 0 <= i < |a| ==> AsciiLower(a[i]) == AsciiLower(b[i])
  }

  /** What `HeaderValue::to_str` accepts: tab and the visible ASCII characters (with space);
      on anything else it returns an error, and `unwrap` on it panics. */
  predicate Visible(v: string)
  {
    forall i :: 0 <= i < |v| ==> v[i] == '\t' || ' ' <= v[i] <= '~'
  }

  /** What `str::parse::<HeaderValue>` accepts: no control character other than tab, and
      no DEL. */
  predicate ValidValue(v: string)
  {
    forall i :: 0 <= i < |v| ==> v[i] == '\t' || (' ' <= v[i] && v[i] != '\U{7F}')
  }

  lemma VisibleIsValidValue(v: string)
    requires Visible(v)
    ensures ValidValue(v)
  {
  }

  /** The token characters of section 3.2.6 of RFC 7230: the characters a header name may
      hold. */
  predicate IsTchar(c: char)
  {
    'a' <= c <= 'z' || 'A' <= c <= 'Z' || '0' <= c <= '9'
    || c in "!#$%&'*+-.^_`|~"
  }

  /** One character as `char::escape_debug` renders it inside a `{:?}`-formatted string,
      for the characters header text can hold (plus the line breaks and NUL). */
  function EscapeChar(c: char): string
  {
    if c == '\t' then "\\t"
    else if c == '\r' then "\\r"
    else if c == '\n' then "\\n"
    else if c == '\0' then "\\0"
    else if c == '\\' then "\\\\"
    else if c == '"' then "\\\""
    else [c]
  }

  function Escape(s: string): string
  {
    if |s| == 0 then "" else EscapeChar(s[0]) + Escape(s[1..])
  }

  /** The character an escape sequence `\c` stands for. */
  function EscapedChar(c: char): char
  {
    if c == 't' then '\t'
    else if c == 'r' then '\r'
    else if c == 'n' then '\n'
    else if c == '0' then '\0'
    else c
  }

  /** Reads escaped text back. */
  function Unescape(s: string): string
    decreases |s|
  {
    if |s| == 0 then ""
    else if s[0] == '\\' && |s| >= 2 then [EscapedChar(s[1])] + Unescape(s[2..])
    else [s[0]] + Unescape(s[1..])
  }

  /** The `{:?}` rendering of a string: quoted and escaped. */
  function DebugStr(s: string): string
  {
    "\"" + Escape(s) + "\""
  }

  /** Escaping loses nothing: the escaped text reads back as the original string. */
  lemma {:induction false} EscapeRoundTrip(s: string)
    ensures Unescape(Escape(s)) == s
    decreases |s|
  {
    if |s| > 0 {
      var rest := Escape(s[1..]);
      EscapeRoundTrip(s[1..]);
      var e := EscapeChar(s[0]) + rest;
      assert Escape(s) == e;
      if |EscapeChar(s[0])| == 2 {
        assert e[0] == '\\' && e[2..] == rest;
      } else {
        assert e[0] == s[0] && s[0] != '\\' && e[1..] == rest;
      }
      assert [s[0]] + s[1..] == s;
    }
  }
}
