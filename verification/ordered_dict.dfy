/**
 * A JavaScript plain object used as a dictionary, as the extension's engine
 * tables are: string keys kept in insertion order (none of the keys the
 * extension uses is an array index, so no key is reordered), one value per key.
 * `Put` is `o[k] = v`, `Remove` is `delete o[k]`, `Spread(a, b)` is `{ ...a, ...b }`.
 */
module OrderedDict {
  import opened Wrappers

  type Dict<V> = seq<(string, V)>

  /** `Object.keys(d)`. */
  function Keys<V>(d: Dict<V>): (ks: seq<string>)
    ensures |ks| == |d| && forall i | 0 <= i < |d| :: ks[i] == d[i].0
  {
    if d == [] then [] else [d[0].0] + Keys(d[1..])
  }

  predicate HasKey<V>(d: Dict<V>, k: string)
  {
    exists i | 0 <= i < |d| :: d[i].0 == k
  }

  /** No key appears twice, which every object satisfies. */
  predicate DistinctKeys<V>(d: Dict<V>)
  {
    forall i, j | 0 <= i < j < |d| :: d[i].0 != d[j].0
  }

  /** `d[k]`, `None` standing for `undefined`. */
  function Get<V>(d: Dict<V>, k: string): (r: Option<V>)
    ensures r.None? <==> !HasKey(d, k)
    ensures r.Some? ==> exists i | 0 <= i < |d| :: d[i] == (k, r.value)
  {
    if d == [] then None
    else if d[0].0 == k then Some(d[0].1)
    else
      var r := Get(d[1..], k);
      assert r.Some? ==> exists i | 1 <= i < |d| :: d[i] == (k, r.value) by {
        if r.Some? {
          var i :| 0 <= i < |d[1..]| && d[1..][i] == (k, r.value);
          assert d[i + 1] == (k, r.value);
        }
      }
      assert HasKey(d, k) ==> HasKey(d[1..], k) by {
        if HasKey(d, k) {
          var i :| 0 <= i < |d| && d[i].0 == k;
          assert d[1..][i - 1].0 == k;
        }
      }
      r
  }

  /** The dictionary as a mathematical map, forgetting the order. */
  function ToMap<V>(d: Dict<V>): (m: map<string, V>)
    ensures forall k :: k in m <==> HasKey(d, k)
  {
    if d == [] then map[]
    else
      var m := ToMap(d[1..])[d[0].0 := d[0].1];
      assert forall k :: HasKey(d, k) <==> (k == d[0].0 || HasKey(d[1..], k)) by {
        forall k ensures HasKey(d, k) <==> (k == d[0].0 || HasKey(d[1..], k)) {
          if HasKey(d[1..], k) {
            var i :| 0 <= i < |d[1..]| && d[1..][i].0 == k;
            assert d[i + 1].0 == k;
          }
          if HasKey(d, k) && k != d[0].0 {
            var i :| 0 <= i < |d| && d[i].0 == k;
            assert d[1..][i - 1].0 == k;
          }
        }
      }
      m
  }

  /** `d[k] = v`: an existing key keeps its place, a new key goes last. */
  function Put<V>(d: Dict<V>, k: string, v: V): (r: Dict<V>)
  {
    if d == [] then [(k, v)]
    else if d[0].0 == k then [(k, v)] + d[1..]
    else [d[0]] + Put(d[1..], k, v)
  }

  /** `delete d[k]`: every other entry keeps its place. */
  function Remove<V>(d: Dict<V>, k: string): (r: Dict<V>)
  {
    if d == [] then []
    else if d[0].0 == k then Remove(d[1..], k)
    else [d[0]] + Remove(d[1..], k)
  }

  /** `{ ...a, ...b }`: the entries of `b` are assigned into a copy of `a`, in order. */
  function Spread<V>(a: Dict<V>, b: Dict<V>): Dict<V>
    decreases |b|
  {
    if b == [] then a else Spread(Put(a, b[0].0, b[0].1), b[1..])
  }

  /** The keys of `b` that `a` lacks, in `b`'s order. */
  function NewKeys<V>(a: Dict<V>, b: Dict<V>): seq<string>
  {
    if b == [] then []
    else (if HasKey(a, b[0].0) then [] else [b[0].0]) + NewKeys(a, b[1..])
  }

  lemma HasKeyTail<V>(d: Dict<V>, k: string)
    requires d != []
    ensures HasKey(d, k) <==> d[0].0 == k || HasKey(d[1..], k)
  {
    if HasKey(d[1..], k) {
      var i :| 0 <= i < |d[1..]| && d[1..][i].0 == k;
      assert d[i + 1].0 == k;
    }
    if HasKey(d, k) && d[0].0 != k {
      var i :| 0 <= i < |d| && d[i].0 == k;
      assert d[1..][i - 1].0 == k;
    }
  }

  /** Assigning a key keeps the order of the keys, adding `k` at the end when it is new. */
  lemma {:induction false} PutKeys<V>(d: Dict<V>, k: string, v: V)
    ensures Keys(Put(d, k, v)) == if HasKey(d, k) then Keys(d) else Keys(d) + [k]
  {
    if d != [] {
      HasKeyTail(d, k);
      if d[0].0 != k {
        PutKeys(d[1..], k, v);
      }
    }
  }

  /** Assigning a key changes that key's value and no other. */
  lemma {:induction false} PutToMap<V>(d: Dict<V>, k: string, v: V)
    ensures ToMap(Put(d, k, v)) == ToMap(d)[k := v]
  {
    if d != [] && d[0].0 != k {
      PutToMap(d[1..], k, v);
    }
  }

  lemma {:induction false} PutDistinct<V>(d: Dict<V>, k: string, v: V)
    requires DistinctKeys(d)
    ensures DistinctKeys(Put(d, k, v))
  {
    PutKeys(d, k, v);
    var r := Put(d, k, v);
    forall i, j | 0 <= i < j < |r| ensures r[i].0 != r[j].0 {
      assert Keys(r)[i] == r[i].0 && Keys(r)[j] == r[j].0;
      if !HasKey(d, k) && j == |d| {
        assert r[i].0 == d[i].0;
      }
    }
  }

  /** Deleting a key removes exactly that key. */
  lemma {:induction false} RemoveToMap<V>(d: Dict<V>, k: string)
    ensures ToMap(Remove(d, k)) == ToMap(d) - {k}
  {
    if d != [] {
      RemoveToMap(d[1..], k);
    }
  }

  /** Deleting a key leaves the other keys in their order. */
  lemma {:induction false} RemoveKeys<V>(d: Dict<V>, k: string)
    ensures Keys(Remove(d, k)) == Without(Keys(d), k)
  {
    if d != [] {
      RemoveKeys(d[1..], k);
      assert Keys(d) == [d[0].0] + Keys(d[1..]);
    }
  }

  /** Deleting a key keeps the keys distinct. */
  lemma {:induction false} RemoveDistinct<V>(d: Dict<V>, k: string)
    requires DistinctKeys(d)
    ensures DistinctKeys(Remove(d, k))
  {
    if d != [] {
      DistinctTail(d);
      RemoveDistinct(d[1..], k);
      if d[0].0 != k {
        var rest := Remove(d[1..], k);
        RemoveToMap(d[1..], k);
        assert !HasKey(rest, d[0].0);
        var r := [d[0]] + rest;
        forall i, j | 0 <= i < j < |r| ensures r[i].0 != r[j].0 {
          assert r[j] == rest[j - 1];
          if i > 0 {
            assert r[i] == rest[i - 1];
          }
        }
      }
    }
  }

  /** `ks` with every occurrence of `k` dropped. */
  function Without(ks: seq<string>, k: string): seq<string>
  {
    if ks == [] then [] else (if ks[0] == k then [] else [ks[0]]) + Without(ks[1..], k)
  }

  lemma DistinctTail<V>(b: Dict<V>)
    requires b != [] && DistinctKeys(b)
    ensures DistinctKeys(b[1..]) && !HasKey(b[1..], b[0].0)
  {
    assert forall i | 0 <= i < |b[1..]| :: b[1..][i] == b[i + 1];
  }

  /** Spreading distinct-keyed `b` over `a`: `b` wins on shared keys, `a` keeps the rest. */
  lemma {:induction false} SpreadToMap<V>(a: Dict<V>, b: Dict<V>)
    requires DistinctKeys(b)
    ensures ToMap(Spread(a, b)) == ToMap(a) + ToMap(b)
    decreases |b|
  {
    if b != [] {
      var k, v := b[0].0, b[0].1;
      DistinctTail(b);
      SpreadToMap(Put(a, k, v), b[1..]);
      PutToMap(a, k, v);
      UpdateThenUnion(ToMap(a), ToMap(b[1..]), k, v);
    }
  }

  lemma UpdateThenUnion<V>(m: map<string, V>, tail: map<string, V>, k: string, v: V)
    requires k !in tail
    ensures m[k := v] + tail == m + tail[k := v]
  {
  }

  /** The keys of a spread: those of `a` in place, then the keys new in `b`. */
  lemma {:induction false} SpreadKeys<V>(a: Dict<V>, b: Dict<V>)
    requires DistinctKeys(b)
    ensures Keys(Spread(a, b)) == Keys(a) + NewKeys(a, b)
    decreases |b|
  {
    if b != [] {
      var k, v := b[0].0, b[0].1;
      var a' := Put(a, k, v);
      DistinctTail(b);
      SpreadKeys(a', b[1..]);
      NewKeysAfterPut(a, k, v, b[1..]);
      PutKeys(a, k, v);
      SpreadStep(a, b, a', Keys(a'), NewKeys(a, b[1..]));
    }
  }

  lemma SpreadStep<V>(a: Dict<V>, b: Dict<V>, a': Dict<V>, ka': seq<string>, rest: seq<string>)
    requires b != [] && a' == Put(a, b[0].0, b[0].1) && ka' == Keys(a')
    requires ka' == if HasKey(a, b[0].0) then Keys(a) else Keys(a) + [b[0].0]
    requires rest == NewKeys(a, b[1..])
    ensures ka' + rest == Keys(a) + NewKeys(a, b)
  {
  }

  lemma {:induction false} NewKeysAfterPut<V>(a: Dict<V>, k: string, v: V, rest: Dict<V>)
    requires !HasKey(rest, k)
    ensures NewKeys(Put(a, k, v), rest) == NewKeys(a, rest)
  {
    if rest != [] {
      HasKeyTail(rest, k);
      PutKeys(a, k, v);
      HasKeyOfKeys(a, rest[0].0);
      HasKeyOfKeys(Put(a, k, v), rest[0].0);
      NewKeysAfterPut(a, k, v, rest[1..]);
    }
  }

  lemma HasKeyOfKeys<V>(d: Dict<V>, k: string)
    ensures HasKey(d, k) <==> k in Keys(d)
  {
  }

  lemma {:induction false} SpreadDistinct<V>(a: Dict<V>, b: Dict<V>)
    requires DistinctKeys(a)
    ensures DistinctKeys(Spread(a, b))
    decreases |b|
  {
    if b != [] {
      PutDistinct(a, b[0].0, b[0].1);
      SpreadDistinct(Put(a, b[0].0, b[0].1), b[1..]);
    }
  }

  /** With distinct keys, `Get` reads the map view. */
  lemma GetToMap<V>(d: Dict<V>, k: string)
    requires HasKey(d, k)
    ensures Get(d, k) == Some(ToMap(d)[k])
  {
    if d[0].0 != k {
      HasKeyTail(d, k);
      GetToMap(d[1..], k);
    }
  }
}
