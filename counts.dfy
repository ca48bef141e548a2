/**
 * Message- or key-indexed count maps: the error tallies of the Go processors
 * (`errorCounts[err.Error()]++`) and the field counts of src/json.rs.
 *
 * A count map is a Dafny map from key to count; a key that is absent reads as 0, exactly
 * as a missing key of a Go map or a Rust `HashMap` entry that `or_insert(0)` would create.
 */
module Counts {
  import opened Wrappers

  type CountMap = map<string, nat>

  /** A Go map that may still be nil: None reads as the empty map. */
  function OrEmpty(m: Option<CountMap>): CountMap
  {
    if m.Some? then m.value else map[]
  }

  /** The count of k, 0 when k is absent. */
  function Get(m: CountMap, k: string): nat
  {
    if k in m then m[k] else 0
  }

  /** `m[k]++`: one more occurrence of k. */
  function Bump(m: CountMap, k: string): (r: CountMap)
    ensures r.Keys == m.Keys + {k}
    ensures Get(r, k) == Get(m, k) + 1
    ensures forall j :: j != k ==> Get(r, j) == Get(m, j)
  {
    m[k := Get(m, k) + 1]
  }

  /** The tally after bumping every key of `keys`, in order, starting from m. */
  function Tally(m: CountMap, keys: seq<string>): CountMap
  {
    if keys == [] then m else Bump(Tally(m, keys[..|keys| - 1]), keys[|keys| - 1])
  }

  /** Tallying one more key bumps it. */
  lemma TallySnoc(m: CountMap, keys: seq<string>, k: string)
    ensures Tally(m, keys + [k]) == Bump(Tally(m, keys), k)
  {
    assert (keys + [k])[..|keys|] == keys;
  }

  /** The count map of a bag: each key with its multiplicity. */
  function FromBag(b: multiset<string>): (r: CountMap)
    ensures forall k :: Get(r, k) == b[k]
  {
    map k | k in b :: b[k]
  }

  /** Key-wise sum of two count maps, over the union of their keys. */
  function Merge(a: CountMap, b: CountMap): (r: CountMap)
    ensures r.Keys == a.Keys + b.Keys
    ensures forall k :: Get(r, k) == Get(a, k) + Get(b, k)
  {
    map k | k in a.Keys + b.Keys :: Get(a, k) + Get(b, k)
  }

  /** Two count maps are equal when they have the same keys and agree on every count. */
  lemma Extensionality(a: CountMap, b: CountMap)
    requires a.Keys == b.Keys
    requires forall k :: Get(a, k) == Get(b, k)
    ensures a == b
  {
    forall k | k in a ensures a[k] == b[k] {
      assert Get(a, k) == Get(b, k);
    }
  }

  /** Bumping x after merging a bag is merging the bag with one more x. */
  lemma BumpMerge(m: CountMap, b: multiset<string>, x: string)
    ensures Bump(Merge(m, FromBag(b)), x) == Merge(m, FromBag(b + multiset{x}))
  {
    var r := Bump(Merge(m, FromBag(b)), x);
    var s := Merge(m, FromBag(b + multiset{x}));
    forall k ensures Get(r, k) == Get(s, k) {
      assert (b + multiset{x})[k] == b[k] + (if k == x then 1 else 0);
    }
    Extensionality(r, s);
  }

  /**
   * Tallying a sequence of keys adds each key's number of occurrences to its count:
   * the result depends on the keys only through their multiset.
   */
  lemma {:induction false} TallyIsMerge(m: CountMap, keys: seq<string>)
    ensures Tally(m, keys) == Merge(m, FromBag(multiset(keys)))
  {
    if keys != [] {
      var init, last := keys[..|keys| - 1], keys[|keys| - 1];
      assert keys == init + [last];
      TallyIsMerge(m, init);
      assert multiset(keys) == multiset(init) + multiset{last};
      BumpMerge(m, multiset(init), last);
    }
  }

  /** The count of k after tallying `keys`: its old count plus its occurrences in `keys`. */
  lemma TallyAt(m: CountMap, keys: seq<string>, k: string)
    ensures Get(Tally(m, keys), k) == Get(m, k) + multiset(keys)[k]
    ensures k in Tally(m, keys) <==> k in m || k in keys
  {
    TallyIsMerge(m, keys);
  }

  /** The order in which failures reach the tally does not matter. */
  lemma TallyOrderIndependent(m: CountMap, a: seq<string>, b: seq<string>)
    requires multiset(a) == multiset(b)
    ensures Tally(m, a) == Tally(m, b)
  {
    TallyIsMerge(m, a);
    TallyIsMerge(m, b);
  }

  /** Tallying `a + b` is tallying `a`, then `b`: a split pass gives the flat pass's tally. */
  lemma {:induction false} TallyAppend(m: CountMap, a: seq<string>, b: seq<string>)
    ensures Tally(m, a + b) == Tally(Tally(m, a), b)
  {
    if b == [] {
      assert a + b == a;
    } else {
      var init := b[..|b| - 1];
      assert (a + b)[..|a + b| - 1] == a + init;
      TallyAppend(m, a, init);
    }
  }

  /** Merging the count maps of two bags gives the count map of their union. */
  lemma MergeFromBag(a: multiset<string>, b: multiset<string>)
    ensures Merge(FromBag(a), FromBag(b)) == FromBag(a + b)
  {
    Extensionality(Merge(FromBag(a), FromBag(b)), FromBag(a + b));
  }

  lemma MergeCommutes(a: CountMap, b: CountMap)
    ensures Merge(a, b) == Merge(b, a)
  {
    Extensionality(Merge(a, b), Merge(b, a));
  }

  lemma MergeAssociates(a: CountMap, b: CountMap, c: CountMap)
    ensures Merge(Merge(a, b), c) == Merge(a, Merge(b, c))
  {
    Extensionality(Merge(Merge(a, b), c), Merge(a, Merge(b, c)));
  }

  lemma MergeEmpty(a: CountMap)
    ensures Merge(map[], a) == a
  {
    Extensionality(Merge(map[], a), a);
  }

  /** The sum of all counts of m. */
  ghost function Total(m: CountMap): nat
    decreases |m|
  {
    if m == map[] then 0
    else
      var k :| k in m;
      assert (m - {k}).Keys == m.Keys - {k};
      m[k] + Total(m - {k})
  }

  /** Total may take its keys in any order: removing any one key first gives the same sum. */
  lemma {:induction false} TotalRemove(m: CountMap, k: string)
    requires k in m
    ensures Total(m) == m[k] + Total(m - {k})
    decreases |m|
  {
    var j :| j in m && Total(m) == m[j] + Total(m - {j});
    if j != k {
      assert (m - {j}).Keys == m.Keys - {j};
      assert (m - {k}).Keys == m.Keys - {k};
      TotalRemove(m - {j}, k);
      TotalRemove(m - {k}, j);
      assert m - {j} - {k} == m - {k} - {j};
    }
  }

  /** One more occurrence raises the total by one. */
  lemma TotalBump(m: CountMap, k: string)
    ensures Total(Bump(m, k)) == Total(m) + 1
  {
    var r := Bump(m, k);
    TotalRemove(r, k);
    assert r - {k} == m - {k};
    if k in m {
      TotalRemove(m, k);
    } else {
      assert m - {k} == m;
    }
  }

  /** The tally's total grows by exactly the number of keys tallied. */
  lemma {:induction false} TallyTotal(m: CountMap, keys: seq<string>)
    ensures Total(Tally(m, keys)) == Total(m) + |keys|
  {
    if keys != [] {
      TallyTotal(m, keys[..|keys| - 1]);
      TotalBump(Tally(m, keys[..|keys| - 1]), keys[|keys| - 1]);
    }
  }
}
