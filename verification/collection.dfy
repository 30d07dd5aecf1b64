/**
 * lib/Structures/Collection.js: a `Map` with array-like helpers. A Map keeps
 * its keys unique and in first-insertion order, so a collection is modelled
 * as its entry list in iteration order, with no key twice.
 */
module Collections {
  import opened Wrappers

  predicate UniqueKeys<K(==), V>(es: seq<(K, V)>) {
    forall i, j | 0 <= i < j < |es| :: es[i].0 != es[j].0
  }

  /** The entries of a collection, in iteration order. */
  type Collection<K(==), V> = es: seq<(K, V)> | UniqueKeys(es) witness []

  /** `size`. */
  function Size<K(==), V>(c: Collection<K, V>): nat {
    |c|
  }

  /** `[...keys()]`. */
  function Keys<K(==), V>(c: seq<(K, V)>): (ks: seq<K>)
    ensures |ks| == |c|
    ensures forall i | 0 <= i < |c| :: ks[i] == c[i].0
  {
    if |c| == 0 then [] else Keys(c[..|c| - 1]) + [c[|c| - 1].0]
  }

  /** `has(k)`. */
  predicate Has<K(==), V>(c: Collection<K, V>, k: K) {
    k in Keys(c)
  }

  /** The position of the entry for `k`. */
  function IndexOf<K(==), V>(c: Collection<K, V>, k: K): (i: nat)
    requires Has(c, k)
    ensures i < |c| && c[i].0 == k
  {
    var i :| 0 <= i < |c| && Keys(c)[i] == k;
    i
  }

  /** `get(k)`: `None` stands for `undefined`. */
  function Get<K(==), V>(c: Collection<K, V>, k: K): (r: Option<V>)
    ensures r.Some? <==> Has(c, k)
    ensures r.Some? ==> (k, r.value) in c
  {
    if Has(c, k) then Some(c[IndexOf(c, k)].1) else None
  }

  /** An entry of the collection is what `get` returns for its key. */
  lemma GetEntry<K, V>(c: Collection<K, V>, i: nat)
    requires i < |c|
    ensures Get(c, c[i].0) == Some(c[i].1)
  {
    assert Keys(c)[i] == c[i].0;
  }

  /**
   * `set(k, v)`: an existing key keeps its position and takes the new value;
   * a new key goes last.
   */
  function Set<K(==), V>(c: Collection<K, V>, k: K, v: V): (r: Collection<K, V>)
    ensures Get(r, k) == Some(v)
    ensures Keys(r) == if Has(c, k) then Keys(c) else Keys(c) + [k]
  {
    if Has(c, k) then
      var i := IndexOf(c, k);
      var r := c[i := (k, v)];
      assert Keys(r) == Keys(c);
      GetEntry(r, i);
      r
    else
      var r := c + [(k, v)];
      assert Keys(r) == Keys(c) + [k];
      GetEntry(r, |c|);
      r
  }

  /** `set(k, v)` leaves what `get` returns for every other key unchanged. */
  lemma SetOther<K, V>(c: Collection<K, V>, k: K, v: V, other: K)
    requires other != k
    ensures Get(Set(c, k, v), other) == Get(c, other)
  {
    var r := Set(c, k, v);
    if Has(c, k) {
      var i := IndexOf(c, k);
      assert r == c[i := (k, v)];
    } else {
      assert r == c + [(k, v)];
    }
    SetKeepsOthers(c, r, k);
  }

  /** Two collections that agree on every entry not keyed `k` agree on `get` for every other key. */
  lemma SetKeepsOthers<K, V>(c: Collection<K, V>, r: Collection<K, V>, k: K)
    requires forall e | e in c && e.0 != k :: e in r
    requires forall e | e in r && e.0 != k :: e in c
    ensures forall other | other != k :: Get(r, other) == Get(c, other)
  {
    forall other | other != k
      ensures Get(r, other) == Get(c, other)
    {
      if Get(c, other).Some? {
        var i := IndexOf(c, other);
        assert c[i] in r;
        var j :| 0 <= j < |r| && r[j] == c[i];
        GetEntry(r, j);
      }
    }
  }

  /** `toArray()`: the values in iteration order. */
  function ToArray<K(==), V>(c: Collection<K, V>): (vs: seq<V>)
    ensures |vs| == Size(c)
    ensures forall i | 0 <= i < |c| :: vs[i] == c[i].1
  {
    seq(|c|, i requires 0 <= i < |c| => c[i].1)
  }

  /** The elements of `s` that satisfy `p`, in order: the reference for `filter`. */
  function Select<V>(s: seq<V>, p: V -> bool): seq<V> {
    if |s| == 0 then []
    else Select(s[..|s| - 1], p) + (if p(s[|s| - 1]) then [s[|s| - 1]] else [])
  }

  /** `filter(func)`: an array of the values that pass, not a collection. */
  method Filter<K(==), V>(c: Collection<K, V>, p: V -> bool) returns (result: seq<V>)
    ensures result == Select(ToArray(c), p)
  {
    result := [];
    var values := ToArray(c);
    for i := 0 to |values|
      invariant result == Select(values[..i], p)
    {
      assert values[..i + 1][..i] == values[..i];
      if p(values[i]) {
        result := result + [values[i]];
      }
    }
    assert values[..|values|] == values;
  }

  /** `map(func)`: one result per value, in iteration order. */
  method MapValues<K(==), V, U>(c: Collection<K, V>, f: V -> U) returns (result: seq<U>)
    ensures |result| == Size(c)
    ensures forall i | 0 <= i < |c| :: result[i] == f(c[i].1)
  {
    var values := ToArray(c);
    result := [];
    for i := 0 to |values|
      invariant |result| == i
      invariant forall j | 0 <= j < i :: result[j] == f(values[j])
    {
      result := result + [f(values[i])];
    }
  }

  /** A predicate that passes everything keeps everything. */
  lemma {:induction false} SelectAll<V>(s: seq<V>, p: V -> bool)
    requires forall x | x in s :: p(x)
    ensures Select(s, p) == s
  {
    if |s| > 0 {
      assert s[..|s| - 1] + [s[|s| - 1]] == s;
      SelectAll(s[..|s| - 1], p);
    }
  }

  /** What `filter` keeps: exactly the values that pass. */
  lemma {:induction false} SelectMembers<V>(s: seq<V>, p: V -> bool, x: V)
    ensures x in Select(s, p) <==> x in s && p(x)
  {
    if |s| > 0 {
      assert s == s[..|s| - 1] + [s[|s| - 1]];
      SelectMembers(s[..|s| - 1], p, x);
    }
  }

  /** `filter` never returns more values than the collection holds. */
  lemma {:induction false} SelectShorter<V>(s: seq<V>, p: V -> bool)
    ensures |Select(s, p)| <= |s|
  {
    if |s| > 0 {
      SelectShorter(s[..|s| - 1], p);
    }
  }

  /** `filter` with an always-true predicate is `toArray`. */
  lemma FilterAllIsToArray<K, V>(c: Collection<K, V>, p: V -> bool)
    requires forall v :: p(v)
    ensures Select(ToArray(c), p) == ToArray(c)
  {
    SelectAll(ToArray(c), p);
  }

  // Building a collection from a list, as `for (item of list) c.set(key(item), value(item))`.

  /** The key of every item, in order. */
  function KeysOf<T, K>(items: seq<T>, keyOf: T -> K): (ks: seq<K>)
    ensures |ks| == |items|
    ensures forall i | 0 <= i < |items| :: ks[i] == keyOf(items[i])
  {
    if |items| == 0 then [] else KeysOf(items[..|items| - 1], keyOf) + [keyOf(items[|items| - 1])]
  }

  /** Each key once, where it first occurs. */
  function Distinct<K(==)>(ks: seq<K>): seq<K> {
    if |ks| == 0 then []
    else
      var prefix := ks[..|ks| - 1];
      Distinct(prefix) + (if ks[|ks| - 1] in prefix then [] else [ks[|ks| - 1]])
  }

  /** The value of the last item with key `k`. */
  function LastValue<T, K(==), V>(items: seq<T>, keyOf: T -> K, valueOf: T -> V, k: K): (r: Option<V>)
    ensures r.None? <==> k !in KeysOf(items, keyOf)
  {
    if |items| == 0 then None
    else if keyOf(items[|items| - 1]) == k then Some(valueOf(items[|items| - 1]))
    else
      assert KeysOf(items, keyOf) == KeysOf(items[..|items| - 1], keyOf) + [keyOf(items[|items| - 1])];
      LastValue(items[..|items| - 1], keyOf, valueOf, k)
  }

  /** A collection filled from `items` by repeated `set`. */
  function Collect<T, K(==), V>(items: seq<T>, keyOf: T -> K, valueOf: T -> V): Collection<K, V> {
    if |items| == 0 then []
    else
      var last := items[|items| - 1];
      Set(Collect(items[..|items| - 1], keyOf, valueOf), keyOf(last), valueOf(last))
  }

  /** A key survives `Distinct` exactly when it occurs. */
  lemma {:induction false} DistinctMembers<K>(ks: seq<K>, k: K)
    ensures k in Distinct(ks) <==> k in ks
  {
    if |ks| > 0 {
      assert ks == ks[..|ks| - 1] + [ks[|ks| - 1]];
      DistinctMembers(ks[..|ks| - 1], k);
    }
  }

  /** The keys of a filled collection are the distinct item keys in first-seen order. */
  lemma {:induction false} CollectKeys<T, K, V>(items: seq<T>, keyOf: T -> K, valueOf: T -> V)
    ensures Keys(Collect(items, keyOf, valueOf)) == Distinct(KeysOf(items, keyOf))
  {
    if |items| > 0 {
      var prefix := items[..|items| - 1];
      var c := Collect(prefix, keyOf, valueOf);
      var k := keyOf(items[|items| - 1]);
      CollectKeys(prefix, keyOf, valueOf);
      assert KeysOf(items, keyOf)[..|items| - 1] == KeysOf(prefix, keyOf);
      DistinctMembers(KeysOf(prefix, keyOf), k);
      assert Has(c, k) <==> k in KeysOf(prefix, keyOf);
    }
  }

  /** For a repeated key the last item's value wins. */
  lemma {:induction false} CollectGet<T, K, V>(items: seq<T>, keyOf: T -> K, valueOf: T -> V, k: K)
    ensures Get(Collect(items, keyOf, valueOf), k) == LastValue(items, keyOf, valueOf, k)
  {
    if |items| > 0 {
      var prefix := items[..|items| - 1];
      var last := items[|items| - 1];
      CollectGet(prefix, keyOf, valueOf, k);
      if keyOf(last) != k {
        SetOther(Collect(prefix, keyOf, valueOf), keyOf(last), valueOf(last), k);
      }
    }
  }

  /** The collection has a key exactly when some item carries it. */
  lemma CollectHas<T, K, V>(items: seq<T>, keyOf: T -> K, valueOf: T -> V, k: K)
    ensures Has(Collect(items, keyOf, valueOf), k) <==> exists i | 0 <= i < |items| :: keyOf(items[i]) == k
  {
    CollectGet(items, keyOf, valueOf, k);
    if k in KeysOf(items, keyOf) {
      var i :| 0 <= i < |items| && KeysOf(items, keyOf)[i] == k;
    }
  }

  /** With no key repeated, the collection holds every item, in order. */
  lemma {:induction false} CollectUnique<T, K, V>(items: seq<T>, keyOf: T -> K, valueOf: T -> V)
    requires forall i, j | 0 <= i < j < |items| :: keyOf(items[i]) != keyOf(items[j])
    ensures |Collect(items, keyOf, valueOf)| == |items|
    ensures forall i | 0 <= i < |items| :: Collect(items, keyOf, valueOf)[i] == (keyOf(items[i]), valueOf(items[i]))
  {
    if |items| > 0 {
      var prefix := items[..|items| - 1];
      var c := Collect(prefix, keyOf, valueOf);
      CollectUnique(prefix, keyOf, valueOf);
      var k := keyOf(items[|items| - 1]);
      assert !Has(c, k);
      assert Collect(items, keyOf, valueOf) == c + [(k, valueOf(items[|items| - 1]))];
    }
  }
}
