/**
 * The two browser facilities `extractQueryFromURL` relies on: the query of
 * `new URL(url)` (`urlObj.search`) and `URLSearchParams.get`, which parses
 * that query as application/x-www-form-urlencoded text (section 5.1 of the
 * WHATWG URL Standard) and returns the first value of a name.
 */
module Url {
  import opened Wrappers
  import opened Strings
  import opened UriCodec

  // ---------------------------------------------------------------- URL query

  /** C0 control or space: what the URL parser strips from both ends of its input. */
  predicate IsC0OrSpace(c: char)
  {
    c as int <= 0x20
  }

  function StripLeading(s: string): (r: string)
    ensures |r| <= |s| && r == s[|s| - |r|..]
    ensures r != [] ==> !IsC0OrSpace(r[0])
  {
    if s != [] && IsC0OrSpace(s[0]) then StripLeading(s[1..]) else s
  }

  function StripTrailing(s: string): (r: string)
    ensures |r| <= |s| && r == s[..|r|]
    ensures r != [] ==> !IsC0OrSpace(r[|r| - 1])
  {
    if s != [] && IsC0OrSpace(s[|s| - 1]) then StripTrailing(s[..|s| - 1]) else s
  }

  /** The parser drops every tab, line feed and carriage return anywhere in its input. */
  function RemoveTabNewline(s: string): (r: string)
    ensures |r| <= |s|
    ensures '\t' !in r && '\n' !in r && '\r' !in r
  {
    if s == [] then []
    else (if s[0] in "\t\n\r" then [] else [s[0]]) + RemoveTabNewline(s[1..])
  }

  predicate IsAsciiAlpha(c: char)
  {
    'A' <= c <= 'Z' || 'a' <= c <= 'z'
  }

  predicate IsSchemeChar(c: char)
  {
    IsAsciiAlpha(c) || '0' <= c <= '9' || c == '+' || c == '-' || c == '.'
  }

  /** The index of the `:` that ends the scheme begun at 0, scanning from `i`. */
  function SchemeEnd(u: string, i: nat): (r: Option<nat>)
    decreases |u| - i
    ensures r.Some? ==> i <= r.value < |u| && u[r.value] == ':'
    ensures r.Some? ==> forall j | i <= j < r.value :: IsSchemeChar(u[j])
  {
    if i >= |u| then None
    else if u[i] == ':' then Some(i)
    else if IsSchemeChar(u[i]) then SchemeEnd(u, i + 1)
    else None
  }

  /** Without a base URL the parser fails unless the input starts with `alpha *(alnum / + / - / .) :`. */
  predicate HasScheme(u: string)
  {
    |u| > 0 && IsAsciiAlpha(u[0]) && SchemeEnd(u, 1).Some?
  }

  /** The text up to the first `#`: what precedes the fragment. */
  function BeforeFragment(u: string): (r: string)
    ensures '#' !in r && |r| <= |u| && r == u[..|r|]
    ensures '#' !in u ==> r == u
  {
    match IndexOf(u, "#")
    case Some(h) =>
      assert forall j | 0 <= j < h :: u[j] != '#' by {
        forall j | 0 <= j < h ensures u[j] != '#' {
          assert !OccursAt(u, "#", j);
          assert u[j..j + 1] == [u[j]];
        }
      }
      assert u[h..h + 1] == [u[h]];
      u[..h]
    case None =>
      assert forall j | 0 <= j < |u| :: u[j] != '#' by {
        forall j | 0 <= j < |u| ensures u[j] != '#' {
          assert !OccursAt(u, "#", j);
          assert u[j..j + 1] == [u[j]];
        }
      }
      u
  }

  /**
   * The query of `new URL(url)` without its leading `?` (`""` when there is
   * none), or `None` where the constructor throws. The parser's own
   * percent-encoding of the query is not applied: `URLSearchParams`
   * percent-decodes it straight back to the same bytes.
   */
  function UrlQuery(url: string): (r: Option<string>)
    ensures r.Some? ==> '#' !in r.value
  {
    var u := RemoveTabNewline(StripTrailing(StripLeading(url)));
    if !HasScheme(u) then None
    else
      var b := BeforeFragment(u);
      match IndexOf(b, "?")
      case Some(k) => Some(b[k + 1..])
      case None => Some("")
  }

  // ---------------------------------------------------------------- application/x-www-form-urlencoded

  /**
   * Percent-decoding of the UTF-8 encoding of `s`: `%` with two hexadecimal
   * digits gives that byte, anything else its own bytes. `%` and the digits
   * are ASCII and never part of a multi-byte sequence, so the work can go
   * character by character.
   */
  function PercentDecode(s: string): seq<byte>
    decreases |s|
  {
    if s == [] then []
    else if s[0] == '%' && |s| >= 3 && IsHexDigit(s[1]) && IsHexDigit(s[2]) then
      [HexByte(s[1], s[2])] + PercentDecode(s[3..])
    else Utf8Encode(s[0]) + PercentDecode(s[1..])
  }

  function ReplacePlus(s: string): (r: string)
    ensures |r| == |s| && '+' !in r
    ensures forall i | 0 <= i < |s| :: r[i] == (if s[i] == '+' then ' ' else s[i])
  {
    if s == [] then [] else [if s[0] == '+' then ' ' else s[0]] + ReplacePlus(s[1..])
  }

  /** One name or value: `+` to space, percent-decode, then UTF-8 decode with replacement. */
  function FormDecode(s: string): string
  {
    Utf8Decode(PercentDecode(ReplacePlus(s)))
  }

  /** A piece cut at its first `=`; a piece without one is all name, with an empty value. */
  function NameValue(piece: string): (r: (string, string))
    ensures '=' !in r.0
    ensures '=' in piece ==> piece == r.0 + "=" + r.1
    ensures '=' !in piece ==> r == (piece, "")
  {
    match IndexOf(piece, "=")
    case Some(k) =>
      assert forall j | 0 <= j < k :: piece[j] != '=' by {
        forall j | 0 <= j < k ensures piece[j] != '=' {
          assert !OccursAt(piece, "=", j);
          assert piece[j..j + 1] == [piece[j]];
        }
      }
      assert piece == piece[..k] + "=" + piece[k + 1..];
      (piece[..k], piece[k + 1..])
    case None =>
      assert '=' !in piece by {
        forall j | 0 <= j < |piece| ensures piece[j] != '=' {
          assert !OccursAt(piece, "=", j);
          assert piece[j..j + 1] == [piece[j]];
        }
      }
      (piece, "")
  }

  /** The name-value list of the pieces, skipping empty ones. */
  function ParsePieces(pieces: seq<string>): seq<(string, string)>
  {
    if pieces == [] then []
    else if pieces[0] == "" then ParsePieces(pieces[1..])
    else
      var nv := NameValue(pieces[0]);
      [(FormDecode(nv.0), FormDecode(nv.1))] + ParsePieces(pieces[1..])
  }

  /** `new URLSearchParams(query)`: the list of decoded name-value pairs in order. */
  function FormParse(query: string): (r: seq<(string, string)>)
    ensures '&' !in query ==> |r| == if query == "" then 0 else 1
  {
    if '&' in query then ParsePieces(Split(query, '&'))
    else
      SplitNoSep(query, '&');
      if query == "" then
        assert [query][1..] == [] && ParsePieces([]) == [];
        assert ParsePieces([query]) == ParsePieces([query][1..]);
        ParsePieces(Split(query, '&'))
      else
        ParsePiecesSingle(query);
        ParsePieces(Split(query, '&'))
  }

  /** `params.get(name)`: the value of the first pair with that name, `null` when there is none. */
  function SearchParamsGet(pairs: seq<(string, string)>, name: string): (r: Option<string>)
    ensures r.None? <==> forall i | 0 <= i < |pairs| :: pairs[i].0 != name
    ensures r.Some? ==> exists i | 0 <= i < |pairs| :: pairs[i] == (name, r.value)
                          && forall j | 0 <= j < i :: pairs[j].0 != name
  {
    if pairs == [] then None
    else if pairs[0].0 == name then Some(pairs[0].1)
    else
      SearchParamsGet(pairs[1..], name)
  }

  // ---------------------------------------------------------------- lemmas

  lemma {:induction false} RemoveTabNewlineNone(s: string)
    requires '\t' !in s && '\n' !in s && '\r' !in s
    ensures RemoveTabNewline(s) == s
  {
    if s != [] {
      RemoveTabNewlineNone(s[1..]);
      assert [s[0]] + s[1..] == s;
    }
  }

  lemma {:induction false} SchemeEndExtend(u: string, w: string, i: nat)
    requires SchemeEnd(u, i).Some?
    ensures SchemeEnd(u + w, i) == SchemeEnd(u, i)
    decreases |u| - i
  {
    assert (u + w)[i] == u[i];
    if u[i] != ':' {
      SchemeEndExtend(u, w, i + 1);
    }
  }

  lemma HasSchemeExtend(u: string, c: char, w: string)
    requires HasScheme(u)
    ensures HasScheme(u + [c] + w)
  {
    SchemeEndExtend(u, [c] + w, 1);
    assert u + [c] + w == u + ([c] + w);
  }

  /** Input without control characters or spaces passes the parser's clean-up unchanged. */
  lemma CleanUpNone(url: string)
    requires forall i | 0 <= i < |url| :: !IsC0OrSpace(url[i])
    ensures RemoveTabNewline(StripTrailing(StripLeading(url))) == url
  {
    assert StripLeading(url) == url;
    assert StripTrailing(url) == url;
    RemoveTabNewlineNone(url);
  }

  /** The first occurrence of a character that `a` lacks, in `a + [c] + b`, is at `|a|`. */
  lemma IndexOfFirstChar(a: string, c: char, b: string)
    requires c !in a
    ensures IndexOf(a + [c] + b, [c]) == Some(|a|)
  {
    var s := a + [c] + b;
    assert s[|a|..|a| + 1] == [c];
    assert OccursAt(s, [c], |a|);
    forall j | 0 <= j < |a|
      ensures !OccursAt(s, [c], j)
    {
      assert s[j..j + 1][0] == a[j];
    }
    assert Contains(s, [c]);
    var k := IndexOf(s, [c]).value;
    assert !(k < |a|) && !(k > |a|);
  }

  /**
   * A URL made of a base with a scheme and no `?` or `#`, a `?`, and a query
   * without `#`, none of it holding a control character or space, has that
   * query.
   */
  lemma UrlQueryOf(base: string, query: string)
    requires HasScheme(base) && '?' !in base && '#' !in base && '#' !in query
    requires forall i | 0 <= i < |base| :: !IsC0OrSpace(base[i])
    requires forall i | 0 <= i < |query| :: !IsC0OrSpace(query[i])
    ensures UrlQuery(base + "?" + query) == Some(query)
  {
    CleanJoin(base, query);
    UrlQueryAfterMark(base, query);
  }

  /** Joining texts without C0 controls or spaces with `?` gives a text the URL parser's clean-up leaves alone. */
  lemma CleanJoin(base: string, query: string)
    requires forall i | 0 <= i < |base| :: !IsC0OrSpace(base[i])
    requires forall i | 0 <= i < |query| :: !IsC0OrSpace(query[i])
    ensures RemoveTabNewline(StripTrailing(StripLeading(base + "?" + query))) == base + "?" + query
  {
    var url := base + "?" + query;
    assert forall i | 0 <= i < |url| :: !IsC0OrSpace(url[i]) by {
      forall i | 0 <= i < |url| ensures !IsC0OrSpace(url[i]) {
        if i < |base| {
          assert url[i] == base[i];
        } else if i > |base| {
          assert url[i] == query[i - |base| - 1];
        }
      }
    }
    CleanUpNone(url);
  }

  lemma UrlQueryAfterMark(base: string, query: string)
    requires HasScheme(base) && '?' !in base && '#' !in base && '#' !in query
    requires RemoveTabNewline(StripTrailing(StripLeading(base + "?" + query))) == base + "?" + query
    ensures UrlQuery(base + "?" + query) == Some(query)
  {
    var url := base + "?" + query;
    HasSchemeExtend(base, '?', query);
    assert '#' !in url;
    IndexOfFirstChar(base, '?', query);
    assert "?" == ['?'] && url == base + ['?'] + query;
    UrlQueryClean(url, |base|);
    assert url[|base| + 1..] == query;
  }

  /** A URL the clean-up leaves alone, with a scheme, no fragment and its first `?` at `k`, has the text after `k` as its query. */
  lemma UrlQueryClean(url: string, k: nat)
    requires RemoveTabNewline(StripTrailing(StripLeading(url))) == url
    requires HasScheme(url) && '#' !in url && IndexOf(url, "?") == Some(k)
    ensures UrlQuery(url) == Some(url[k + 1..])
  {
    assert BeforeFragment(url) == url;
  }

  /** Splitting at a first `=` is unique. */
  lemma FirstEqualsUnique(a: string, b: string, c: string, d: string)
    requires '=' !in a && '=' !in c && a + "=" + b == c + "=" + d
    ensures a == c && b == d
  {
    var s := a + "=" + b;
    IndexOfFirstChar(a, '=', b);
    IndexOfFirstChar(c, '=', d);
    assert a == s[..|a|] == c;
    assert b == s[|a| + 1..] == d;
  }

  /** A query holding one `name=value` pair parses to that one decoded pair. */
  lemma FormParseSingle(name: string, value: string)
    requires name != [] && '&' !in name && '=' !in name && '&' !in value
    ensures FormParse(name + "=" + value) == [(FormDecode(name), FormDecode(value))]
  {
    var piece := name + "=" + value;
    assert '&' !in piece;
    SplitNoSep(piece, '&');
    ParsePiecesSingle(piece);
    NameValueOf(name, value);
  }

  lemma ParsePiecesSingle(piece: string)
    requires piece != ""
    ensures ParsePieces([piece]) == [(FormDecode(NameValue(piece).0), FormDecode(NameValue(piece).1))]
  {
    assert [piece][1..] == [];
  }

  lemma NameValueOf(name: string, value: string)
    requires '=' !in name
    ensures NameValue(name + "=" + value) == (name, value)
  {
    var piece := name + "=" + value;
    var nv := NameValue(piece);
    assert piece[|name|] == '=';
    FirstEqualsUnique(nv.0, nv.1, name, value);
  }

  /** A leading escape decodes to its byte. */
  lemma PercentDecodeFront(t: string)
    requires |t| >= 3 && t[0] == '%' && IsHexDigit(t[1]) && IsHexDigit(t[2])
    ensures PercentDecode(t) == [HexByte(t[1], t[2])] + PercentDecode(t[3..])
  {
  }

  lemma {:induction false} PercentDecodeEscapes(bs: seq<byte>, rest: string)
    ensures PercentDecode(PercentEscapeAll(bs) + rest) == bs + PercentDecode(rest)
  {
    if bs != [] {
      PercentDecodeEscapes(bs[1..], rest);
      EscapesCons(bs, rest);
    } else {
      DropFront(PercentEscapeAll(bs), rest);
      DropFront(bs, PercentDecode(rest));
    }
  }

  /** One more byte in front: its escape decodes to it, the rest as before. */
  lemma EscapesCons(bs: seq<byte>, rest: string)
    requires bs != []
    requires PercentDecode(PercentEscapeAll(bs[1..]) + rest) == bs[1..] + PercentDecode(rest)
    ensures PercentDecode(PercentEscapeAll(bs) + rest) == bs + PercentDecode(rest)
  {
    var tail := PercentEscapeAll(bs[1..]) + rest;
    EscapeAllFront(bs, rest);
    DecodeEscapeThen(bs[0], tail, bs[1..], PercentDecode(rest));
    ConsAppend(bs, PercentDecode(rest));
  }

  lemma DecodeEscapeThen(b: byte, tail: string, front: seq<byte>, back: seq<byte>)
    requires PercentDecode(tail) == front + back
    ensures PercentDecode(PercentEscape(b) + tail) == [b] + (front + back)
  {
    EscapeFront(b, tail);
    PercentDecodeFront(PercentEscape(b) + tail);
  }

  /** Percent-decoding the output of `encodeURIComponent` gives the UTF-8 bytes of its input. */
  lemma {:induction false} PercentDecodeEncoded(q: string)
    ensures PercentDecode(EncodeURIComponent(q)) == Utf8EncodeString(q)
  {
    if q != [] {
      PercentDecodeEncoded(q[1..]);
      var e := EncodeURIComponent(q);
      if IsUriUnescaped(q[0]) {
        assert e == [q[0]] + EncodeURIComponent(q[1..]);
        assert e[1..] == EncodeURIComponent(q[1..]);
      } else {
        PercentDecodeEscapes(Utf8Encode(q[0]), EncodeURIComponent(q[1..]));
      }
    }
  }

  /** Text without `%` percent-decodes to its own UTF-8 bytes. */
  lemma {:induction false} PercentDecodePlain(s: string)
    requires '%' !in s
    ensures PercentDecode(s) == Utf8EncodeString(s)
  {
    if s != [] {
      assert '%' !in s[1..];
      PercentDecodePlain(s[1..]);
    }
  }

  lemma ReplacePlusNone(s: string)
    requires '+' !in s
    ensures ReplacePlus(s) == s
  {
  }

  /** The form decoder undoes `encodeURIComponent`. */
  lemma FormDecodeEncoded(q: string)
    ensures FormDecode(EncodeURIComponent(q)) == q
  {
    var e := EncodeURIComponent(q);
    EncodedTextOnly(q);
    EncodedTextExcludes(e);
    ReplacePlusNone(e);
    PercentDecodeEncoded(q);
    Utf8RoundTrip(q);
  }

  /** Text without `%` or `+` is its own form decoding. */
  lemma FormDecodePlain(s: string)
    requires '%' !in s && '+' !in s
    ensures FormDecode(s) == s
  {
    ReplacePlusNone(s);
    PercentDecodePlain(s);
    Utf8RoundTrip(s);
  }
}
