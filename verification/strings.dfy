/**
 * The few JavaScript string operations the extension relies on:
 * `indexOf`, `includes`, `startsWith`, `replace` with a string pattern,
 * `trim`, `split`/`join` on one separator, and number-to-string for
 * non-negative integers.
 */
module Strings {
  import opened Wrappers

  /** `pat` occurs in `s` starting at index `i`. */
  predicate OccursAt(s: string, pat: string, i: int)
  {
    0 <= i && i + |pat| <= |s| && s[i..i + |pat|] == pat
  }

  /** `s.includes(pat)`. */
  predicate Contains(s: string, pat: string)
  {
    exists i | 0 <= i <= |s| - |pat| :: OccursAt(s, pat, i)
  }

  /** `s.startsWith(p)`. */
  predicate StartsWith(s: string, p: string)
  {
    |p| <= |s| && s[..|p|] == p
  }

  /** `s.indexOf(pat, from)`: the first occurrence at or after `from`. */
  function IndexOfFrom(s: string, pat: string, from: nat): (r: Option<nat>)
    decreases |s| - from
    ensures r.Some? ==> from <= r.value && OccursAt(s, pat, r.value)
    ensures r.Some? ==> forall j | from <= j < r.value :: !OccursAt(s, pat, j)
    ensures r.None? ==> forall j | from <= j :: !OccursAt(s, pat, j)
  {
    if from + |pat| > |s| then None
    else if s[from..from + |pat|] == pat then Some(from)
    else IndexOfFrom(s, pat, from + 1)
  }

  /** `s.indexOf(pat)`. */
  function IndexOf(s: string, pat: string): (r: Option<nat>)
    ensures r.Some? <==> Contains(s, pat)
    ensures r.Some? ==> OccursAt(s, pat, r.value) && forall j | 0 <= j < r.value :: !OccursAt(s, pat, j)
  {
    IndexOfFrom(s, pat, 0)
  }

  /**
   * `s.replace(pat, rep)` with a string pattern: only the first occurrence
   * is replaced. JavaScript would expand `$&`, `$1`, ... in `rep`; every
   * replacement the extension passes is free of `$`, so the literal text is
   * spliced in.
   */
  function ReplaceFirst(s: string, pat: string, rep: string): (r: string)
    requires '$' !in rep
    ensures !Contains(s, pat) ==> r == s
    ensures Contains(s, pat) ==>
      exists k | 0 <= k <= |s| - |pat| ::
        && OccursAt(s, pat, k)
        && (forall j | 0 <= j < k :: !OccursAt(s, pat, j))
        && r == s[..k] + rep + s[k + |pat|..]
  {
    match IndexOf(s, pat)
    case None => s
    case Some(k) => s[..k] + rep + s[k + |pat|..]
  }

  /** Replacing a pattern that `s` starts with removes that prefix. */
  lemma ReplacePrefix(s: string, p: string)
    requires StartsWith(s, p)
    ensures ReplaceFirst(s, p, "") == s[|p|..]
  {
    assert OccursAt(s, p, 0);
  }

  /** When the pattern's first character is absent before it, the pattern's first occurrence is the one replaced. */
  lemma ReplaceFirstAfter(pre: string, pat: string, post: string, rep: string)
    requires pat != [] && pat[0] !in pre && '$' !in rep
    ensures ReplaceFirst(pre + pat + post, pat, rep) == pre + rep + post
  {
    var s := pre + pat + post;
    assert s[|pre|..|pre| + |pat|] == pat;
    assert OccursAt(s, pat, |pre|);
    forall j | 0 <= j < |pre|
      ensures !OccursAt(s, pat, j)
    {
      assert s[j..j + |pat|][0] == pre[j];
    }
    assert s[..|pre|] == pre && s[|pre| + |pat|..] == post;
  }

  /** JavaScript's WhiteSpace and LineTerminator code points, which `trim` removes. */
  predicate IsJsSpace(c: char)
  {
    || c == '\t' || c == '\n' || c == '\U{000B}' || c == '\U{000C}' || c == '\r'
    || c == ' ' || c == '\U{00A0}' || c == '\U{1680}'
    || ('\U{2000}' <= c <= '\U{200A}')
    || c == '\U{2028}' || c == '\U{2029}' || c == '\U{202F}' || c == '\U{205F}'
    || c == '\U{3000}' || c == '\U{FEFF}'
  }

  function TrimStart(s: string): (r: string)
    ensures |r| <= |s| && r == s[|s| - |r|..]
    ensures r == [] || !IsJsSpace(r[0])
    ensures forall i | 0 <= i < |s| - |r| :: IsJsSpace(s[i])
  {
    if s != [] && IsJsSpace(s[0]) then TrimStart(s[1..]) else s
  }

  function TrimEnd(s: string): (r: string)
    ensures |r| <= |s| && r == s[..|r|]
    ensures r == [] || !IsJsSpace(r[|r| - 1])
    ensures forall i | |r| <= i < |s| :: IsJsSpace(s[i])
  {
    if s != [] && IsJsSpace(s[|s| - 1]) then TrimEnd(s[..|s| - 1]) else s
  }

  /**
   * `s.trim()`: the result is a contiguous slice of `s` that neither starts
   * nor ends with white space, and everything cut off is white space.
   */
  function Trim(s: string): (r: string)
    ensures exists a | 0 <= a <= |s| - |r| ::
      && OccursAt(s, r, a)
      && (forall i | 0 <= i < a :: IsJsSpace(s[i]))
      && (forall i | a + |r| <= i < |s| :: IsJsSpace(s[i]))
    ensures r == [] || (!IsJsSpace(r[0]) && !IsJsSpace(r[|r| - 1]))
    ensures r == [] <==> forall i | 0 <= i < |s| :: IsJsSpace(s[i])
  {
    var t := TrimStart(s);
    var r := TrimEnd(t);
    TrimSlice(s, t, r);
    r
  }

  lemma TrimSlice(s: string, t: string, r: string)
    requires |t| <= |s| && t == s[|s| - |t|..]
    requires t == [] || !IsJsSpace(t[0])
    requires forall i | 0 <= i < |s| - |t| :: IsJsSpace(s[i])
    requires |r| <= |t| && r == t[..|r|]
    requires forall i | |r| <= i < |t| :: IsJsSpace(t[i])
    requires r == [] || !IsJsSpace(r[|r| - 1])
    ensures exists a | 0 <= a <= |s| - |r| ::
      && OccursAt(s, r, a)
      && (forall i | 0 <= i < a :: IsJsSpace(s[i]))
      && (forall i | a + |r| <= i < |s| :: IsJsSpace(s[i]))
    ensures r == [] <==> forall i | 0 <= i < |s| :: IsJsSpace(s[i])
    ensures r == [] || (!IsJsSpace(r[0]) && !IsJsSpace(r[|r| - 1]))
  {
    var a := |s| - |t|;
    assert r == [] || r[0] == t[0];
    assert r == s[a..a + |r|];
    forall i | a + |r| <= i < |s| ensures IsJsSpace(s[i]) {
      assert s[i] == t[i - a];
    }
    assert OccursAt(s, r, a);
    if r == [] {
      assert t == [];
    } else {
      assert !IsJsSpace(s[a]);
    }
  }

  /** `parts.join(sep)`. */
  function Join(parts: seq<string>, sep: string): string
  {
    if parts == [] then ""
    else if |parts| == 1 then parts[0]
    else parts[0] + sep + Join(parts[1..], sep)
  }

  /** `s.split(sep)` for a one-character separator. */
  function Split(s: string, sep: char): (r: seq<string>)
    ensures |r| >= 1
    ensures forall i | 0 <= i < |r| :: sep !in r[i]
  {
    if s == [] then [""]
    else
      var rest := Split(s[1..], sep);
      if s[0] == sep then [""] + rest
      else [[s[0]] + rest[0]] + rest[1..]
  }

  /** Joining the pieces of a split with the separator gives back the string. */
  lemma {:induction false} JoinSplit(s: string, sep: char)
    ensures Join(Split(s, sep), [sep]) == s
  {
    if s != [] {
      var rest := Split(s[1..], sep);
      JoinSplit(s[1..], sep);
      if s[0] != sep && |rest| > 1 {
        assert Join(Split(s, sep), [sep]) == [s[0]] + rest[0] + [sep] + Join(rest[1..], [sep]);
      }
    }
  }

  /** Splitting a join of separator-free pieces gives back the pieces. */
  lemma {:induction false} SplitJoin(parts: seq<string>, sep: char)
    requires |parts| >= 1
    requires forall i | 0 <= i < |parts| :: sep !in parts[i]
    ensures Split(Join(parts, [sep]), sep) == parts
  {
    if |parts| == 1 {
      SplitNoSep(parts[0], sep);
    } else {
      SplitJoin(parts[1..], sep);
      SplitConcat(parts[0], Join(parts[1..], [sep]), sep);
    }
  }

  lemma {:induction false} SplitNoSep(s: string, sep: char)
    requires sep !in s
    ensures Split(s, sep) == [s]
  {
    if s != [] {
      SplitNoSep(s[1..], sep);
      assert [s[0]] + s[1..] == s;
    }
  }

  lemma {:induction false} SplitConcat(a: string, b: string, sep: char)
    requires sep !in a
    ensures Split(a + [sep] + b, sep) == [a] + Split(b, sep)
  {
    if a == [] {
      assert a + [sep] + b == [sep] + b;
      assert ([sep] + b)[1..] == b;
    } else {
      assert (a + [sep] + b)[1..] == a[1..] + [sep] + b;
      SplitConcat(a[1..], b, sep);
      assert [a[0]] + a[1..] == a;
    }
  }

  predicate IsDigit(c: char)
  {
    '0' <= c <= '9'
  }

  /**
   * `String(n)` for a non-negative integer below 10^21 (such as a
   * millisecond timestamp): its decimal digits, without leading zeros.
   */
  function NatToString(n: nat): (r: string)
    ensures r != [] && forall i | 0 <= i < |r| :: IsDigit(r[i])
  {
    if n < 10 then [('0' as int + n) as char]
    else NatToString(n / 10) + [('0' as int + n % 10) as char]
  }

  /** The value of a string of decimal digits. */
  function DecimalValue(s: string): nat
    requires forall i | 0 <= i < |s| :: IsDigit(s[i])
  {
    if s == [] then 0
    else
      assert IsDigit(s[|s| - 1]);
      DecimalValue(s[..|s| - 1]) * 10 + (s[|s| - 1] as int - '0' as int)
  }

  /** Reading the digits back gives the number: `String` is injective on timestamps. */
  lemma {:induction false} DecimalOfNatToString(n: nat)
    ensures DecimalValue(NatToString(n)) == n
  {
    if n >= 10 {
      DecimalOfNatToString(n / 10);
      var r := NatToString(n);
      assert r[..|r| - 1] == NatToString(n / 10);
    }
  }

  lemma NatToStringInjective(m: nat, n: nat)
    requires NatToString(m) == NatToString(n)
    ensures m == n
  {
    DecimalOfNatToString(m);
    DecimalOfNatToString(n);
  }

  // ---------------------------------------------------------------- sequence identities

  /** A non-empty sequence is its head followed by its tail, also in front of more. */
  lemma ConsAppend<T>(s: seq<T>, x: seq<T>)
    requires s != []
    ensures [s[0]] + s[1..] == s
    ensures [s[0]] + (s[1..] + x) == s + x
  {
  }

  /** Dropping the first part of a concatenation leaves the second. */
  lemma DropFront<T>(a: seq<T>, b: seq<T>)
    ensures (a + b)[|a|..] == b && a + [] == a && [] + b == b
  {
  }
}
