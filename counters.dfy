/**
 Python's `collections.Counter` as a Dafny map from keys to counts.

 A key that was never incremented is absent from the map and reads as 0
 (`Get`); `m[k] += 1` is `Inc`; incrementing once per element of a sequence,
 in order, is `Tally` (this is `Counter.update(items)` and every counting loop
 of the two engines). `Sum` adds up the values, `TypeCounts` counts distinct
 keys by an image, and `Plus` adds two counters key by key.
 */
module Counters {

  /** Reading a counter: a missing key reads as 0. */
  function Get<K(!new)>(m: map<K, nat>, k: K): (r: nat)
    ensures k in m ==> r == m[k]
    ensures r > 0 ==> k in m
  {
    if k in m then m[k] else 0
  }

  /** `m[k] += 1`. */
  function Inc<K(!new)>(m: map<K, nat>, k: K): (r: map<K, nat>)
    ensures r.Keys == m.Keys + {k}
    ensures Get(r, k) == Get(m, k) + 1
    ensures forall j :: j != k ==> Get(r, j) == Get(m, j)
  {
    m[k := Get(m, k) + 1]
  }

  /** Increment once per element of `items`, first to last. */
  function Tally<K(!new)>(m: map<K, nat>, items: seq<K>): map<K, nat>
  {
    if items == [] then m
    else Inc(Tally(m, items[..|items| - 1]), items[|items| - 1])
  }

  /** Key-by-key sum of two counters (`a` updated with the counts of `b`). */
  function Plus<K(!new)>(a: map<K, nat>, b: map<K, nat>): (r: map<K, nat>)
    ensures r.Keys == a.Keys + b.Keys
    ensures forall k :: Get(r, k) == Get(a, k) + Get(b, k)
  {
    map k | k in a.Keys + b.Keys :: Get(a, k) + Get(b, k)
  }

  /** Two counters with the same keys that read the same everywhere are equal. */
  lemma SameCounts<K(!new)>(a: map<K, nat>, b: map<K, nat>)
    requires a.Keys == b.Keys
    requires forall k :: Get(a, k) == Get(b, k)
    ensures a == b
  {
    forall k | k in a
      ensures a[k] == b[k]
    {
      assert Get(a, k) == Get(b, k);
    }
  }

  // ---------------------------------------------------------------------
  // Tally: what a counting pass computes

  /** After a counting pass, every key reads as its old count plus its number of occurrences. */
  lemma {:induction false} TallyGet<K(!new)>(m: map<K, nat>, items: seq<K>, k: K)
    ensures Get(Tally(m, items), k) == Get(m, k) + multiset(items)[k]
  {
    if items != [] {
      var init, last := items[..|items| - 1], items[|items| - 1];
      TallyGet(m, init, k);
      assert items == init + [last];
    }
  }

  /** A counting pass adds exactly the elements it saw as keys. */
  lemma {:induction false} TallyKeys<K(!new)>(m: map<K, nat>, items: seq<K>)
    ensures Tally(m, items).Keys == m.Keys + (set x | x in items)
  {
    if items != [] {
      var init, last := items[..|items| - 1], items[|items| - 1];
      TallyKeys(m, init);
      assert items == init + [last];
      assert (set x | x in items) == (set x | x in init) + {last};
    }
  }

  /** Counting one more item is one more increment. */
  lemma TallySnoc<K(!new)>(m: map<K, nat>, items: seq<K>, x: K)
    ensures Tally(m, items + [x]) == Inc(Tally(m, items), x)
  {
    assert (items + [x])[..|items|] == items;
  }

  /** Counting one more element of `items`, a prefix at a time. */
  lemma TallyPrefix<K(!new)>(m: map<K, nat>, items: seq<K>, j: nat)
    requires j < |items|
    ensures Tally(m, items[..j + 1]) == Inc(Tally(m, items[..j]), items[j])
  {
    assert items[..j + 1][..j] == items[..j];
  }

  /** Counting `a + b` is counting `a` and then `b`. */
  lemma {:induction false} TallyAppend<K(!new)>(m: map<K, nat>, a: seq<K>, b: seq<K>)
    ensures Tally(m, a + b) == Tally(Tally(m, a), b)
  {
    if b == [] {
      assert a + b == a;
    } else {
      TallyAppend(m, a, b[..|b| - 1]);
      assert (a + b)[..|a + b| - 1] == a + b[..|b| - 1];
    }
  }

  /** A counter built by counting alone never holds a zero. */
  lemma {:induction false} TallyPositive<K(!new)>(items: seq<K>)
    ensures forall k :: k in Tally(map[], items) ==> Tally(map[], items)[k] >= 1
  {
    if items != [] {
      TallyPositive(items[..|items| - 1]);
    }
  }

  /** Counting more only raises counts. */
  lemma TallyGrows<K(!new)>(m: map<K, nat>, items: seq<K>, k: K)
    ensures Get(Tally(m, items), k) >= Get(m, k)
  {
    TallyGet(m, items, k);
  }

  // ---------------------------------------------------------------------
  // Sum of the values of a counter

  ghost function Pick<K(!new)>(s: set<K>): K
    requires s != {}
  {
    var x :| x in s; x
  }

  /** The sum of the values of `m` over `keys`. */
  ghost function SumOver<K(!new)>(m: map<K, nat>, keys: set<K>): nat
    requires keys <= m.Keys
    decreases keys
  {
    if keys == {} then 0
    else var k := Pick(keys); m[k] + SumOver(m, keys - {k})
  }

  /** The sum of all values of a counter (`sum(m.values())`). */
  ghost function Sum<K(!new)>(m: map<K, nat>): nat
  {
    SumOver(m, m.Keys)
  }

  /** The sum does not depend on which key is taken out first. */
  lemma {:induction false} SumOverRemove<K(!new)>(m: map<K, nat>, keys: set<K>, k: K)
    requires keys <= m.Keys && k in keys
    ensures SumOver(m, keys) == m[k] + SumOver(m, keys - {k})
    decreases keys
  {
    var j := Pick(keys);
    if j != k {
      SumOverRemove(m, keys - {j}, k);
      SumOverRemove(m, keys - {k}, j);
      assert keys - {j} - {k} == keys - {k} - {j};
    }
  }

  lemma {:induction false} SumOverAgree<K(!new)>(m1: map<K, nat>, m2: map<K, nat>, keys: set<K>)
    requires keys <= m1.Keys && keys <= m2.Keys
    requires forall k :: k in keys ==> m1[k] == m2[k]
    ensures SumOver(m1, keys) == SumOver(m2, keys)
    decreases keys
  {
    if keys != {} {
      var k := Pick(keys);
      SumOverAgree(m1, m2, keys - {k});
    }
  }

  /** Each value is at most the sum. */
  lemma {:induction false} SumOverBound<K(!new)>(m: map<K, nat>, keys: set<K>, k: K)
    requires keys <= m.Keys && k in keys
    ensures m[k] <= SumOver(m, keys)
  {
    SumOverRemove(m, keys, k);
  }

  /** With every value at least 1 the sum is at least the number of keys. */
  lemma {:induction false} SumOverAtLeastSize<K(!new)>(m: map<K, nat>, keys: set<K>)
    requires keys <= m.Keys
    requires forall k :: k in keys ==> m[k] >= 1
    ensures SumOver(m, keys) >= |keys|
    decreases keys
  {
    if keys != {} {
      var k := Pick(keys);
      SumOverAtLeastSize(m, keys - {k});
    }
  }

  /** `m[k] += 1` raises the sum of the values by exactly 1. */
  lemma SumInc<K(!new)>(m: map<K, nat>, k: K)
    ensures Sum(Inc(m, k)) == Sum(m) + 1
  {
    var r := Inc(m, k);
    SumOverRemove(r, r.Keys, k);
    if k in m {
      SumOverRemove(m, m.Keys, k);
      assert r.Keys - {k} == m.Keys - {k};
      SumOverAgree(r, m, m.Keys - {k});
    } else {
      assert r.Keys - {k} == m.Keys;
      SumOverAgree(r, m, m.Keys);
    }
  }

  /** A counting pass raises the sum by the number of items counted. */
  lemma {:induction false} TallySum<K(!new)>(m: map<K, nat>, items: seq<K>)
    ensures Sum(Tally(m, items)) == Sum(m) + |items|
  {
    if items != [] {
      TallySum(m, items[..|items| - 1]);
      SumInc(Tally(m, items[..|items| - 1]), items[|items| - 1]);
    }
  }

  // ---------------------------------------------------------------------
  // Counting distinct keys by an image

  /** For every image `v` of `proj` over `keys`, the number of DISTINCT keys that `proj` sends to `v`. */
  ghost function TypeCounts<K(!new), V(!new)>(keys: set<K>, proj: K -> V): map<V, nat>
  {
    var image := set k | k in keys :: proj(k);
    map v | v in image :: |set k | k in keys && proj(k) == v|
  }

  /** Reading a type count: the number of distinct keys with that image (0 for a value that is no key's image). */
  lemma TypeCountsGet<K(!new), V(!new)>(keys: set<K>, proj: K -> V, v: V, matching: set<K>)
    requires forall k :: k in matching <==> k in keys && proj(k) == v
    ensures Get(TypeCounts(keys, proj), v) == |matching|
  {
    var image := set k | k in keys :: proj(k);
    if v in image {
      assert matching == set k | k in keys && proj(k) == v;
    } else {
      assert matching == {};
    }
  }

  /** Visiting one more distinct key increments the count of its image, read at one value `v`. */
  lemma TypeCountsAddAt<K(!new), V(!new)>(keys: set<K>, x: K, proj: K -> V, v: V)
    requires x !in keys
    ensures Get(TypeCounts(keys + {x}, proj), v) == Get(Inc(TypeCounts(keys, proj), proj(x)), v)
  {
    var sb := set k | k in keys && proj(k) == v;
    TypeCountsGet(keys, proj, v, sb);
    if proj(x) == v {
      TypeCountsGet(keys + {x}, proj, v, sb + {x});
    } else {
      TypeCountsGet(keys + {x}, proj, v, sb);
    }
  }

  /** Visiting one more distinct key increments exactly the count of its image. */
  lemma TypeCountsAdd<K(!new), V(!new)>(keys: set<K>, x: K, proj: K -> V)
    requires x !in keys
    ensures TypeCounts(keys + {x}, proj) == Inc(TypeCounts(keys, proj), proj(x))
  {
    var after, expected := TypeCounts(keys + {x}, proj), Inc(TypeCounts(keys, proj), proj(x));
    assert (set k | k in keys + {x} :: proj(k)) == (set k | k in keys :: proj(k)) + {proj(x)};
    forall v
      ensures Get(after, v) == Get(expected, v)
    {
      TypeCountsAddAt(keys, x, proj, v);
    }
    SameCounts(after, expected);
  }

  lemma TypeCountsEmpty<K(!new), V(!new)>(proj: K -> V)
    ensures TypeCounts({}, proj) == map[]
  {
    assert (set k: K | k in {} :: proj(k)) == {};
  }

  /** Every distinct key is counted exactly once: the counts add up to the number of keys. */
  lemma {:induction false} TypeCountsSum<K(!new), V(!new)>(keys: set<K>, proj: K -> V)
    ensures Sum(TypeCounts(keys, proj)) == |keys|
    decreases keys
  {
    if keys == {} {
      TypeCountsEmpty(proj);
    } else {
      var x := Pick(keys);
      var rest := keys - {x};
      assert keys == rest + {x};
      TypeCountsSum(rest, proj);
      TypeCountsAdd(rest, x, proj);
      SumInc(TypeCounts(rest, proj), proj(x));
    }
  }

  /** Adding one to the right operand of `Plus` adds one to the result. */
  lemma PlusInc<K(!new)>(a: map<K, nat>, b: map<K, nat>, k: K)
    ensures Plus(a, Inc(b, k)) == Inc(Plus(a, b), k)
  {
    SameCounts(Plus(a, Inc(b, k)), Inc(Plus(a, b), k));
  }

  /** One more distinct key visited, on top of an existing counter `base`. */
  lemma PlusTypeCountsAdd<K(!new), V(!new)>(base: map<V, nat>, keys: set<K>, x: K, proj: K -> V)
    requires x !in keys
    ensures Plus(base, TypeCounts(keys + {x}, proj)) == Inc(Plus(base, TypeCounts(keys, proj)), proj(x))
  {
    TypeCountsAdd(keys, x, proj);
    PlusInc(base, TypeCounts(keys, proj), proj(x));
  }

  /** Nothing visited yet: `base` unchanged. */
  lemma PlusTypeCountsEmpty<K(!new), V(!new)>(base: map<V, nat>, proj: K -> V)
    ensures Plus(base, TypeCounts({}, proj)) == base
  {
    TypeCountsEmpty(proj);
    PlusEmpty(base);
  }

  lemma PlusEmpty<K(!new)>(a: map<K, nat>)
    ensures Plus(a, map[]) == a && Plus(map[], a) == a
  {
    SameCounts(Plus(a, map[]), a);
    SameCounts(Plus(map[], a), a);
  }
}
