/**
 PHP arrays with string keys, as association lists.

 A PHP array is an ordered dictionary: every key occurs once, and keys keep
 the order in which they were first inserted. `Put` is the assignment
 `$a[$k] = $v` and `Merge` is `array_merge($a, $b)` restricted to string keys.
 */
module Dict {
  import opened Results

  /** The keys of an association list, in order. */
  function Keys<V>(d: seq<(string, V)>): (ks: seq<string>)
    ensures |ks| == |d|
    ensures forall i :: 0 <= i < |d| ==> ks[i] == d[i].0
  {
    if |d| == 0 then [] else [d[0].0] + Keys(d[1..])
  }

  /** No key occurs twice. */
  predicate UniqueKeys<V>(d: seq<(string, V)>) {
    forall i, j :: 0 <= i < j < |d| ==> d[i].0 != d[j].0
  }

  /** No element occurs twice. */
  predicate Distinct(ks: seq<string>) {
    forall i, j :: 0 <= i < j < |ks| ==> ks[i] != ks[j]
  }

  /** A string-keyed PHP array: keys are unique and ordered by first insertion. */
  type Dict<V> = d: seq<(string, V)> | UniqueKeys(d) witness []

  /** `[$k => $v]`: the one-entry array. */
  function Singleton<V>(k: string, v: V): Dict<V> {
    [(k, v)]
  }

  /** `$d[$k] ?? null`: the value stored under `k`, if any. */
  function Lookup<V>(d: seq<(string, V)>, k: string): (r: Option<V>)
    ensures r.Some? <==> k in Keys(d)
    ensures r.Some? ==> (k, r.value) in d
  {
    if |d| == 0 then None
    else if d[0].0 == k then Some(d[0].1)
    else Lookup(d[1..], k)
  }

  /** The keys of a dictionary never repeat. */
  lemma KeysDistinct<V>(d: Dict<V>)
    ensures Distinct(Keys(d))
  {
  }

  /** The keys of a list with one more pair in front. */
  lemma KeysCons<V>(x: (string, V), d: seq<(string, V)>)
    ensures Keys([x] + d) == [x.0] + Keys(d)
  {
    assert ([x] + d)[1..] == d;
  }

  /** Dropping the first pair of a dictionary leaves a dictionary. */
  function TailOf<V>(d: Dict<V>): (t: Dict<V>)
    requires |d| > 0
    ensures t == d[1..] && Keys(d) == [d[0].0] + Keys(t)
  {
    KeysCons(d[0], d[1..]);
    assert [d[0]] + d[1..] == d;
    d[1..]
  }

  /** A list with the same keys as a dictionary has unique keys too. */
  lemma SameKeysUnique<V>(r: seq<(string, V)>, d: Dict<V>)
    requires Keys(r) == Keys(d)
    ensures UniqueKeys(r)
  {
    forall i, j | 0 <= i < j < |r|
      ensures r[i].0 != r[j].0
    {
      assert r[i].0 == Keys(r)[i] == d[i].0;
      assert r[j].0 == Keys(r)[j] == d[j].0;
    }
  }

  /** Putting a pair with a new key in front of a dictionary keeps keys unique. */
  lemma ConsUnique<V>(x: (string, V), d: Dict<V>)
    requires x.0 !in Keys(d)
    ensures UniqueKeys([x] + d)
  {
    var r := [x] + d;
    forall i, j | 0 <= i < j < |r|
      ensures r[i].0 != r[j].0
    {
      assert r[j] == d[j - 1];
      if i == 0 {
        assert d[j - 1].0 == Keys(d)[j - 1];
      } else {
        assert r[i] == d[i - 1];
      }
    }
  }

  /**
   `$d[$k] = $v`: a present key is overwritten where it stands, an absent
   key is appended; every other key keeps its value.
   */
  function Put<V>(d: Dict<V>, k: string, v: V): (r: Dict<V>)
    ensures k in Keys(d) ==> Keys(r) == Keys(d)
    ensures k !in Keys(d) ==> Keys(r) == Keys(d) + [k]
    decreases |d|
  {
    if |d| == 0 then [(k, v)]
    else
      var tail: Dict<V> := TailOf(d);
      if d[0].0 == k then
        var r := [(k, v)] + tail;
        KeysCons((k, v), tail);
        SameKeysUnique(r, d);
        r
      else
        var t := Put(tail, k, v);
        KeysCons(d[0], tail);
        KeysCons(d[0], t);
        ConsUnique(d[0], t);
        [d[0]] + t
  }

  /** Assigning a key that is not yet present appends the pair at the end. */
  lemma {:induction false} PutNew<V>(d: Dict<V>, k: string, v: V)
    requires k !in Keys(d)
    ensures Put(d, k, v) == d + [(k, v)]
    decreases |d|
  {
    if |d| > 0 {
      assert d[0].0 != k by { assert d[0].0 == Keys(d)[0]; }
      var t: Dict<V> := d[1..];
      assert k !in Keys(t) by { assert Keys(t) == Keys(d)[1..]; }
      PutNew(t, k, v);
      assert Put(d, k, v) == [d[0]] + Put(t, k, v);
      assert [d[0]] + (t + [(k, v)]) == d + [(k, v)];
    }
  }

  /** After `$d[$k] = $v`, `k` holds `v` and every other key keeps its value. */
  lemma {:induction false} PutLookup<V>(d: Dict<V>, k: string, v: V, j: string)
    ensures Lookup(Put(d, k, v), j) == if j == k then Some(v) else Lookup(d, j)
    decreases |d|
  {
    if |d| > 0 && d[0].0 != k {
      PutLookup(d[1..], k, v, j);
    }
  }

  /**
   The keys of `ks` followed by those members of `extra` not seen before,
   each once, in order of first appearance: the key order `array_merge`
   produces.
   */
  function AppendNew(ks: seq<string>, extra: seq<string>): (r: seq<string>)
    ensures forall x :: x in r <==> x in ks || x in extra
    ensures Distinct(ks) ==> Distinct(r)
    decreases |extra|
  {
    if |extra| == 0 then ks
    else AppendNew(if extra[0] in ks then ks else ks + [extra[0]], extra[1..])
  }

  /** Every key after `$d[$k] = $v`, at once. */
  lemma PutLookups<V>(d: Dict<V>, k: string, v: V)
    ensures Lookup(Put(d, k, v), k) == Some(v)
    ensures forall j :: j != k ==> Lookup(Put(d, k, v), j) == Lookup(d, j)
  {
    forall j
      ensures Lookup(Put(d, k, v), j) == if j == k then Some(v) else Lookup(d, j)
    {
      PutLookup(d, k, v, j);
    }
  }

  /** The keys already present stay first, in their order. */
  lemma {:induction false} AppendNewPrefix(ks: seq<string>, extra: seq<string>)
    ensures |ks| <= |AppendNew(ks, extra)| && AppendNew(ks, extra)[..|ks|] == ks
    decreases |extra|
  {
    if |extra| > 0 {
      var ks' := if extra[0] in ks then ks else ks + [extra[0]];
      AppendNewPrefix(ks', extra[1..]);
      assert ks'[..|ks|] == ks;
    }
  }

  /** Appending never yields more keys than were offered. */
  lemma {:induction false} AppendNewLength(ks: seq<string>, extra: seq<string>)
    ensures |AppendNew(ks, extra)| <= |ks| + |extra|
    decreases |extra|
  {
    if |extra| > 0 {
      AppendNewLength(if extra[0] in ks then ks else ks + [extra[0]], extra[1..]);
    }
  }

  /**
   `array_merge($a, $b)` for string keys: the keys of `a` keep their
   positions and the keys new in `b` follow in `b`'s order.
   */
  function Merge<V>(a: Dict<V>, b: Dict<V>): (r: Dict<V>)
    ensures Keys(r) == AppendNew(Keys(a), Keys(b))
    decreases |b|
  {
    if |b| == 0 then a
    else
      assert Keys(b[1..]) == Keys(b)[1..];
      Merge(Put(a, b[0].0, b[0].1), b[1..])
  }

  /** In `array_merge($a, $b)` the value from `b` wins on a shared key; other keys keep `a`'s value. */
  lemma {:induction false} MergeLookup<V>(a: Dict<V>, b: Dict<V>, k: string)
    ensures Lookup(Merge(a, b), k) == if k in Keys(b) then Lookup(b, k) else Lookup(a, k)
    decreases |b|
  {
    if |b| > 0 {
      var a' := Put(a, b[0].0, b[0].1);
      MergeLookup(a', b[1..], k);
      PutLookup(a, b[0].0, b[0].1, k);
      assert Keys(b[1..]) == Keys(b)[1..];
      if k == b[0].0 {
        assert k !in Keys(b[1..]);
      }
    }
  }

  /** Every key of `array_merge($a, $b)`, at once. */
  lemma MergeLookups<V>(a: Dict<V>, b: Dict<V>)
    ensures forall k :: k in Keys(b) ==> Lookup(Merge(a, b), k) == Lookup(b, k)
    ensures forall k :: k !in Keys(b) ==> Lookup(Merge(a, b), k) == Lookup(a, k)
  {
    forall k
      ensures Lookup(Merge(a, b), k) == if k in Keys(b) then Lookup(b, k) else Lookup(a, k)
    {
      MergeLookup(a, b, k);
    }
  }

  /** Two dictionaries with the same keys in the same order and the same lookups are equal. */
  lemma {:induction false} Extensionality<V>(a: Dict<V>, b: Dict<V>)
    requires Keys(a) == Keys(b)
    requires forall k :: Lookup(a, k) == Lookup(b, k)
    ensures a == b
    decreases |a|
  {
    if |a| > 0 {
      var k0 := a[0].0;
      assert Keys(b)[0] == k0;
      assert Lookup(a, k0) == Some(a[0].1);
      assert Lookup(b, k0) == Some(b[0].1);
      assert Keys(a[1..]) == Keys(a)[1..];
      assert Keys(b[1..]) == Keys(b)[1..];
      forall k
        ensures Lookup(a[1..], k) == Lookup(b[1..], k)
      {
        if k == k0 {
          assert k0 !in Keys(a[1..]);
          assert k0 !in Keys(b[1..]);
        } else {
          assert Lookup(a, k) == Lookup(a[1..], k);
          assert Lookup(b, k) == Lookup(b[1..], k);
        }
      }
      Extensionality(a[1..], b[1..]);
      assert a == [a[0]] + a[1..];
      assert b == [b[0]] + b[1..];
    }
  }

  /**
   `Merge` is the only dictionary with its key order and its lookups: any
   dictionary that keeps `a`'s keys in place, appends `b`'s new keys in
   order, and lets `b` win on shared keys is `Merge(a, b)`.
   */
  lemma MergeCharacterized<V>(a: Dict<V>, b: Dict<V>, r: Dict<V>)
    requires Keys(r) == AppendNew(Keys(a), Keys(b))
    requires forall k :: k in Keys(b) ==> Lookup(r, k) == Lookup(b, k)
    requires forall k :: k !in Keys(b) ==> Lookup(r, k) == Lookup(a, k)
    ensures r == Merge(a, b)
  {
    var m := Merge(a, b);
    MergeLookups(a, b);
    forall k
      ensures Lookup(r, k) == Lookup(m, k)
    {
    }
    Extensionality(r, m);
  }

  /** Writing a key twice is the same as writing only the second value. */
  lemma PutTwice<V>(d: Dict<V>, k: string, v1: V, v2: V)
    ensures Put(Put(d, k, v1), k, v2) == Put(d, k, v2)
  {
    var once := Put(d, k, v2);
    var twice := Put(Put(d, k, v1), k, v2);
    PutLookups(d, k, v2);
    PutLookups(d, k, v1);
    PutLookups(Put(d, k, v1), k, v2);
    forall j
      ensures Lookup(twice, j) == Lookup(once, j)
    {
    }
    Extensionality(twice, once);
  }

  /** A suffix of a sequence without repetitions has none either. */
  lemma DistinctTail(ks: seq<string>)
    requires |ks| > 0 && Distinct(ks)
    ensures Distinct(ks[1..]) && ks[0] !in ks[1..]
  {
    forall i, j | 0 <= i < j < |ks[1..]|
      ensures ks[1..][i] != ks[1..][j]
    {
      assert ks[1..][i] == ks[i + 1] && ks[1..][j] == ks[j + 1];
    }
  }

  /** Appending keys none of which is already present just concatenates them. */
  lemma {:induction false} AppendNewFresh(ks: seq<string>, extra: seq<string>)
    requires Distinct(extra)
    requires forall i :: 0 <= i < |extra| ==> extra[i] !in ks
    ensures AppendNew(ks, extra) == ks + extra
    decreases |extra|
  {
    if |extra| > 0 {
      var e := extra[0];
      var rest := extra[1..];
      assert e !in ks;
      assert AppendNew(ks, extra) == AppendNew(ks + [e], rest);
      DistinctTail(extra);
      forall i | 0 <= i < |rest|
        ensures rest[i] !in ks + [e]
      {
        assert rest[i] == extra[i + 1];
        assert rest[i] != e;
        assert rest[i] !in ks;
      }
      AppendNewFresh(ks + [e], rest);
      assert ks + [e] + rest == ks + extra;
    }
  }

  /** The keys of a concatenation are the concatenated keys. */
  lemma KeysConcat<V>(a: seq<(string, V)>, b: seq<(string, V)>)
    ensures Keys(a + b) == Keys(a) + Keys(b)
  {
    assert forall i :: 0 <= i < |a + b| ==> Keys(a + b)[i] == (Keys(a) + Keys(b))[i];
  }

  /** Concatenating dictionaries with disjoint keys gives a dictionary. */
  lemma ConcatUnique<V>(a: Dict<V>, b: Dict<V>)
    requires forall k :: k in Keys(b) ==> k !in Keys(a)
    ensures UniqueKeys(a + b)
  {
    var c := a + b;
    forall i, j | 0 <= i < j < |c|
      ensures c[i].0 != c[j].0
    {
      if i < |a| && j >= |a| {
        assert c[j].0 == Keys(b)[j - |a|];
        assert c[i].0 in Keys(a);
      }
    }
  }

  /** Merging dictionaries with disjoint keys concatenates them. */
  lemma MergeDisjoint<V>(a: Dict<V>, b: Dict<V>)
    requires forall k :: k in Keys(b) ==> k !in Keys(a)
    ensures Merge(a, b) == a + b
  {
    var kb := Keys(b);
    forall i | 0 <= i < |kb|
      ensures kb[i] !in Keys(a)
    {
      assert kb[i] in kb;
    }
    KeysDistinct(b);
    AppendNewFresh(Keys(a), kb);
    ConcatUnique(a, b);
    var c: Dict<V> := a + b;
    KeysConcat(a, b);
    forall k
      ensures Lookup(c, k) == Lookup(Merge(a, b), k)
    {
      LookupConcat(a, b, k);
      MergeLookup(a, b, k);
    }
    Extensionality(c, Merge(a, b));
  }

  /** Lookup in a concatenation tries the left part first. */
  lemma {:induction false} LookupConcat<V>(a: seq<(string, V)>, b: seq<(string, V)>, k: string)
    ensures Lookup(a + b, k) == if k in Keys(a) then Lookup(a, k) else Lookup(b, k)
    decreases |a|
  {
    if |a| > 0 {
      assert (a + b)[1..] == a[1..] + b;
      LookupConcat(a[1..], b, k);
      assert Keys(a[1..]) == Keys(a)[1..];
    } else {
      assert a + b == b;
    }
  }

  /** Writing a key that sits at position `i` replaces that entry in place. */
  lemma {:induction false} PutAt<V>(d: Dict<V>, i: nat, v: V)
    requires i < |d|
    ensures Put(d, d[i].0, v) == d[i := (d[i].0, v)]
    decreases i
  {
    var k := d[i].0;
    if i > 0 {
      assert d[0].0 != k;
      var t: Dict<V> := d[1..];
      assert t[i - 1].0 == k;
      PutAt(t, i - 1, v);
      assert Put(d, k, v) == [d[0]] + Put(t, k, v);
      assert d[i := (k, v)] == [d[0]] + t[i - 1 := (k, v)];
    }
  }

  /** One more key appended is added at the end unless already present. */
  lemma {:induction false} AppendNewSnoc(ks: seq<string>, ys: seq<string>, c: string)
    ensures AppendNew(ks, ys + [c]) == (var r := AppendNew(ks, ys); if c in r then r else r + [c])
    decreases |ys|
  {
    if |ys| > 0 {
      assert (ys + [c])[0] == ys[0];
      assert (ys + [c])[1..] == ys[1..] + [c];
      AppendNewSnoc(if ys[0] in ks then ks else ks + [ys[0]], ys[1..], c);
    }
  }

  /** Appending in two rounds is appending the combined new keys in one. */
  lemma {:induction false} AppendNewAssoc(a: seq<string>, b: seq<string>, c: seq<string>)
    ensures AppendNew(AppendNew(a, b), c) == AppendNew(a, AppendNew(b, c))
    decreases |c|
  {
    if |c| > 0 {
      var b' := if c[0] in b then b else b + [c[0]];
      AppendNewAssoc(a, b', c[1..]);
      if c[0] !in b {
        AppendNewSnoc(a, b, c[0]);
      }
    }
  }

  /** `array_merge(array_merge($a, $b), $c) == array_merge($a, array_merge($b, $c))` for string keys. */
  lemma MergeAssoc<V>(a: Dict<V>, b: Dict<V>, c: Dict<V>)
    ensures Merge(Merge(a, b), c) == Merge(a, Merge(b, c))
  {
    var left := Merge(Merge(a, b), c);
    var right := Merge(a, Merge(b, c));
    AppendNewAssoc(Keys(a), Keys(b), Keys(c));
    forall k
      ensures Lookup(left, k) == Lookup(right, k)
    {
      MergeLookup(Merge(a, b), c, k);
      MergeLookup(a, b, k);
      MergeLookup(a, Merge(b, c), k);
      MergeLookup(b, c, k);
    }
    Extensionality(left, right);
  }
}
