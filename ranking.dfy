/**
 * The orderings of the reports: each report turns a count map into a list of
 * (name, count) entries and sorts it. Go's `sort.Slice` is not stable and the Go and Rust
 * maps are iterated in an unspecified order, so a count-descending report leaves the order
 * of equal counts open; the fields report (dumps/fields.go) adds the name as a tie-breaker,
 * which makes its order total.
 *
 * The library sorts are modelled by a selection sort over a sequence: it may emit equal
 * counts in any order, which is all the library promises.
 */
module Ranking {
  import opened Counts

  datatype Entry = Entry(name: string, count: nat)

  /** es lists every entry of m exactly once, and nothing else. */
  ghost predicate Lists(es: seq<Entry>, m: CountMap)
  {
    && |es| == |m|
    && (forall i :: 0 <= i < |es| ==> es[i].name in m && es[i].count == m[es[i].name])
    && (forall k :: k in m ==> exists i :: 0 <= i < |es| && es[i].name == k)
    && (forall i, j :: 0 <= i < j < |es| ==> es[i].name != es[j].name)
  }

  /** es lists, exactly once each, the entries of m whose keys are not in rest. */
  ghost predicate ListsAllBut(es: seq<Entry>, m: CountMap, rest: set<string>)
  {
    && rest <= m.Keys
    && |es| + |rest| == |m|
    && (forall i :: 0 <= i < |es| ==> es[i].name in m && es[i].name !in rest && es[i].count == m[es[i].name])
    && (forall k :: k in m && k !in rest ==> exists i :: 0 <= i < |es| && es[i].name == k)
    && (forall i, j :: 0 <= i < j < |es| ==> es[i].name != es[j].name)
  }

  lemma ListsAllButStart(m: CountMap)
    ensures ListsAllBut([], m, m.Keys)
  {
  }

  lemma ListsAllButStep(es: seq<Entry>, m: CountMap, rest: set<string>, best: string)
    requires ListsAllBut(es, m, rest) && best in rest
    ensures ListsAllBut(es + [Entry(best, m[best])], m, rest - {best})
  {
    var es' := es + [Entry(best, m[best])];
    forall k | k in m && k !in rest - {best}
      ensures exists i :: 0 <= i < |es'| && es'[i].name == k
    {
      if k == best {
        assert es'[|es|].name == k;
      } else {
        var i :| 0 <= i < |es| && es[i].name == k;
        assert es'[i].name == k;
      }
    }
  }

  lemma ListsAllButDone(es: seq<Entry>, m: CountMap)
    requires ListsAllBut(es, m, {})
    ensures Lists(es, m)
  {
  }

  /** Counts never increase along es. */
  ghost predicate ByCountDesc(es: seq<Entry>)
  {
    forall i, j :: 0 <= i < j < |es| ==> es[i].count >= es[j].count
  }

  /** A key of rest whose count no other key of rest exceeds. */
  method MostFrequentOf(m: CountMap, rest: set<string>) returns (best: string)
    requires rest != {} && rest <= m.Keys
    ensures best in rest
    ensures forall k :: k in rest ==> m[k] <= m[best]
  {
    best :| best in rest;
    var seen := {best};
    while seen != rest
      invariant best in seen && seen <= rest
      invariant forall k :: k in seen ==> m[k] <= m[best]
      decreases |rest - seen|
    {
      var k :| k in rest - seen;
      if m[k] > m[best] {
        best := k;
      }
      seen := seen + {k};
    }
  }

  /**
   * Lists the entries of m with counts non-increasing: the error summaries of the Go
   * processors and `print_sorted_counts` of src/main.rs.
   */
  method SortByCount(m: CountMap) returns (es: seq<Entry>)
    ensures Lists(es, m)
    ensures ByCountDesc(es)
  {
    es := [];
    var rest := m.Keys;
    ListsAllButStart(m);
    while rest != {}
      invariant ListsAllBut(es, m, rest)
      invariant ByCountDesc(es)
      invariant forall i, k :: 0 <= i < |es| && k in rest ==> es[i].count >= m[k]
      decreases |rest|
    {
      var best := MostFrequentOf(m, rest);
      ListsAllButStep(es, m, rest, best);
      es := es + [Entry(best, m[best])];
      rest := rest - {best};
    }
    ListsAllButDone(es, m);
  }

  /** Byte-wise lexicographic order, Go's `<` on strings. */
  predicate NameLess(a: string, b: string)
  {
    if a == [] then b != []
    else if b == [] then false
    else if a[0] != b[0] then a[0] < b[0]
    else NameLess(a[1..], b[1..])
  }

  lemma {:induction false} NameLessAsymmetric(a: string, b: string)
    ensures !(NameLess(a, b) && NameLess(b, a))
  {
    if a != [] && b != [] && a[0] == b[0] {
      NameLessAsymmetric(a[1..], b[1..]);
    }
  }

  lemma {:induction false} NameLessTransitive(a: string, b: string, c: string)
    requires NameLess(a, b) && NameLess(b, c)
    ensures NameLess(a, c)
  {
    if a != [] && b != [] && c != [] && a[0] == b[0] && b[0] == c[0] {
      NameLessTransitive(a[1..], b[1..], c[1..]);
    }
  }

  lemma {:induction false} NameLessTotal(a: string, b: string)
    requires a != b
    ensures NameLess(a, b) || NameLess(b, a)
  {
    if a != [] && b != [] && a[0] == b[0] {
      assert a == [a[0]] + a[1..] && b == [b[0]] + b[1..];
      NameLessTotal(a[1..], b[1..]);
    }
  }

  /** The fields report order: higher count first, then name ascending. */
  predicate Precedes(x: Entry, y: Entry)
  {
    x.count > y.count || (x.count == y.count && NameLess(x.name, y.name))
  }

  /** Every entry precedes every later one. */
  ghost predicate StrictlyOrdered(es: seq<Entry>)
  {
    forall i, j :: 0 <= i < j < |es| ==> Precedes(es[i], es[j])
  }

  lemma PrecedesTransitive(x: Entry, y: Entry, z: Entry)
    requires Precedes(x, y) && Precedes(y, z)
    ensures Precedes(x, z)
  {
    if x.count == y.count == z.count {
      NameLessTransitive(x.name, y.name, z.name);
    }
  }

  lemma PrecedesAsymmetric(x: Entry, y: Entry)
    ensures !(Precedes(x, y) && Precedes(y, x))
  {
    NameLessAsymmetric(x.name, y.name);
  }

  lemma PrecedesTotal(x: Entry, y: Entry)
    requires x.name != y.name
    ensures Precedes(x, y) || Precedes(y, x)
  {
    NameLessTotal(x.name, y.name);
  }

  /** The key of rest whose entry precedes the entries of all other keys of rest. */
  method FirstOf(m: CountMap, rest: set<string>) returns (best: string)
    requires rest != {} && rest <= m.Keys
    ensures best in rest
    ensures forall k :: k in rest && k != best ==> Precedes(Entry(best, m[best]), Entry(k, m[k]))
  {
    best :| best in rest;
    var seen := {best};
    while seen != rest
      invariant best in seen && seen <= rest
      invariant forall k :: k in seen && k != best ==> Precedes(Entry(best, m[best]), Entry(k, m[k]))
      decreases |rest - seen|
    {
      var k :| k in rest - seen;
      if Precedes(Entry(k, m[k]), Entry(best, m[best])) {
        forall j | j in seen && j != best
          ensures Precedes(Entry(k, m[k]), Entry(j, m[j]))
        {
          PrecedesTransitive(Entry(k, m[k]), Entry(best, m[best]), Entry(j, m[j]));
        }
        best := k;
      } else {
        PrecedesTotal(Entry(best, m[best]), Entry(k, m[k]));
      }
      seen := seen + {k};
    }
  }

  /** Lists the entries of m by count descending, then name ascending (dumps/fields.go). */
  method SortByCountThenName(m: CountMap) returns (es: seq<Entry>)
    ensures Lists(es, m)
    ensures StrictlyOrdered(es)
  {
    es := [];
    var rest := m.Keys;
    ListsAllButStart(m);
    while rest != {}
      invariant ListsAllBut(es, m, rest)
      invariant StrictlyOrdered(es)
      invariant forall i, k :: 0 <= i < |es| && k in rest ==> Precedes(es[i], Entry(k, m[k]))
      decreases |rest|
    {
      var best := FirstOf(m, rest);
      ListsAllButStep(es, m, rest, best);
      es := es + [Entry(best, m[best])];
      rest := rest - {best};
    }
    ListsAllButDone(es, m);
  }

  lemma HeadIn(s: seq<Entry>)
    requires s != []
    ensures s[0] in s
  {
  }

  /** Two strictly ordered lists of the same entries are the same list. */
  lemma {:induction false} StrictlyOrderedUnique(a: seq<Entry>, b: seq<Entry>)
    requires StrictlyOrdered(a) && StrictlyOrdered(b)
    requires forall x :: x in a <==> x in b
    ensures a == b
  {
    if a == [] {
      if b != [] {
        HeadIn(b);
        assert false;
      }
    } else {
      assert a[0] in b && b != [];
      assert b[0] in a;
      if a[0] != b[0] {
        var i :| 0 <= i < |a| && a[i] == b[0];
        var j :| 0 <= j < |b| && b[j] == a[0];
        assert Precedes(a[0], b[0]);
        assert Precedes(b[0], a[0]);
        PrecedesAsymmetric(a[0], b[0]);
        assert false;
      }
      forall x ensures x in a[1..] <==> x in b[1..] {
        if x in a[1..] {
          var i :| 1 <= i < |a| && a[i] == x;
          PrecedesAsymmetric(a[0], x);
          assert x in a;
          var j :| 0 <= j < |b| && b[j] == x;
          assert j != 0;
          assert b[1..][j - 1] == x;
        }
        if x in b[1..] {
          var j :| 1 <= j < |b| && b[j] == x;
          PrecedesAsymmetric(b[0], x);
          assert x in b;
          var i :| 0 <= i < |a| && a[i] == x;
          assert i != 0;
          assert a[1..][i - 1] == x;
        }
      }
      StrictlyOrderedUnique(a[1..], b[1..]);
      assert a == [a[0]] + a[1..] && b == [b[0]] + b[1..];
    }
  }

  /** The fields report order is fully determined: the listing of m is unique. */
  lemma FieldsOrderDetermined(a: seq<Entry>, b: seq<Entry>, m: CountMap)
    requires Lists(a, m) && StrictlyOrdered(a)
    requires Lists(b, m) && StrictlyOrdered(b)
    ensures a == b
  {
    forall x ensures x in a <==> x in b {
      if x in a {
        var i :| 0 <= i < |a| && a[i] == x;
        var j :| 0 <= j < |b| && b[j].name == x.name;
      }
      if x in b {
        var j :| 0 <= j < |b| && b[j] == x;
        var i :| 0 <= i < |a| && a[i].name == x.name;
      }
    }
    StrictlyOrderedUnique(a, b);
  }
}
