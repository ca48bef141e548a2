/**
 * src/json.rs: counting the top-level keys of every JSON object in a dump. Lines are dealt
 * out to three workers; each keeps its own count map, and the maps are summed at the end.
 * The dealing is a parameter: `assignment[i]` is the worker that receives line i.
 */
module Json {
  import opened Wrappers
  import opened Errs
  import opened Counts

  const NumWorkers: nat := 3

  /**
   * The error a panicked worker becomes: `{:?}` of the panic payload, a `Box<dyn Any>`,
   * prints as `Any { .. }` whatever the payload holds.
   */
  const PanicMessage: string := "Worker thread panicked: Any { .. }"

  /** What the object iterator yields for one line: a key per field, or an error. */
  type ObjectIter = seq<Result<string, Error>>

  /** `to_object_iter`, the foreign JSON scanner. */
  type ObjectReader = string -> ObjectIter

  /** The result of count_fields_from_reader: the summed counts and the bytes read. */
  datatype FieldCounts = FieldCounts(counts: CountMap, nbytes: nat)

  /** The keys the iterator yields successfully, in order; errors are dropped. */
  function OkKeys(obj: ObjectIter): seq<string>
  {
    if obj == [] then []
    else
      var last := obj[|obj| - 1];
      OkKeys(obj[..|obj| - 1]) + (if last.Success? then [last.value] else [])
  }

  /** An error item adds no key. */
  lemma ErrorsSkipped(obj: ObjectIter, e: Error)
    ensures OkKeys(obj + [Failure(e)]) == OkKeys(obj)
  {
    assert (obj + [Failure(e)])[..|obj|] == obj;
  }

  lemma OkKeysStep(obj: ObjectIter, i: nat)
    requires i < |obj|
    ensures OkKeys(obj[..i + 1]) == OkKeys(obj[..i]) + (if obj[i].Success? then [obj[i].value] else [])
  {
    assert obj[..i + 1][..i] == obj[..i];
  }

  /**
   * count_fields: each key the iterator yields adds one to its count, an unseen key
   * entering with 1; error items and keys not yielded change nothing.
   */
  method CountFields(obj: ObjectIter, counts: CountMap) returns (r: CountMap)
    ensures r == Tally(counts, OkKeys(obj))
  {
    r := counts;
    var i := 0;
    while i < |obj|
      invariant 0 <= i <= |obj|
      invariant r == Tally(counts, OkKeys(obj[..i]))
    {
      OkKeysStep(obj, i);
      var done := OkKeys(obj[..i]);
      if obj[i].Success? {
        var key := obj[i].value;
        TallySnoc(counts, done, key);
        if key in r {
          r := r[key := r[key] + 1];
        } else {
          r := r[key := 1];
        }
      } else {
        assert done + [] == done;
      }
      i := i + 1;
    }
    assert obj[..|obj|] == obj;
  }

  /** Every key yielded by every line, as a bag. */
  function KeysOf(lines: seq<string>, reader: ObjectReader): multiset<string>
  {
    if lines == [] then multiset{}
    else KeysOf(lines[..|lines| - 1], reader) + multiset(OkKeys(reader(lines[|lines| - 1])))
  }

  lemma KeysOfStep(lines: seq<string>, i: nat, reader: ObjectReader)
    requires i < |lines|
    ensures KeysOf(lines[..i + 1], reader) == KeysOf(lines[..i], reader) + multiset(OkKeys(reader(lines[i])))
  {
    assert lines[..i + 1][..i] == lines[..i];
  }

  /** The worker maps summed in order, starting from an empty map. */
  function MergeAll(maps: seq<CountMap>): CountMap
  {
    if maps == [] then map[] else Merge(MergeAll(maps[..|maps| - 1]), maps[|maps| - 1])
  }

  /** A key's count in one map after another, added up. */
  function SumAt(maps: seq<CountMap>, k: string): nat
  {
    if maps == [] then 0 else SumAt(maps[..|maps| - 1], k) + Get(maps[|maps| - 1], k)
  }

  /**
   * After the merge each key's total is the sum of its counts in the worker maps, and a
   * key is present only if some worker map has it.
   */
  lemma {:induction false} MergeAllAt(maps: seq<CountMap>, k: string)
    ensures Get(MergeAll(maps), k) == SumAt(maps, k)
    ensures k in MergeAll(maps) <==> exists i :: 0 <= i < |maps| && k in maps[i]
  {
    if maps != [] {
      var n := |maps| - 1;
      MergeAllAt(maps[..n], k);
      if k in maps[n] {
      } else if k in MergeAll(maps[..n]) {
        var i :| 0 <= i < n && k in maps[..n][i];
        assert k in maps[i];
      } else {
        assert forall i :: 0 <= i < n ==> maps[..n][i] == maps[i];
      }
    }
  }

  /** Taking any one map out and merging it last gives the same sum. */
  lemma {:induction false} MergeAllRemove(maps: seq<CountMap>, j: nat)
    requires j < |maps|
    ensures MergeAll(maps) == Merge(MergeAll(maps[..j] + maps[j + 1..]), maps[j])
  {
    var n := |maps| - 1;
    if j == n {
      assert maps[..j] + maps[j + 1..] == maps[..n];
    } else {
      var init := maps[..n];
      MergeAllRemove(init, j);
      var rest := init[..j] + init[j + 1..];
      assert maps[..j] + maps[j + 1..] == rest + [maps[n]];
      assert (rest + [maps[n]])[..|rest|] == rest;
      MergeAssociates(MergeAll(rest), maps[j], maps[n]);
      MergeCommutes(maps[j], maps[n]);
      MergeAssociates(MergeAll(rest), maps[n], maps[j]);
    }
  }

  /** The worker maps can be joined in any order: the merge is the same. */
  lemma {:induction false} MergeAllPermutation(a: seq<CountMap>, b: seq<CountMap>)
    requires multiset(a) == multiset(b)
    ensures MergeAll(a) == MergeAll(b)
    decreases |a|
  {
    if a == [] {
      assert |b| == |multiset(b)| == 0;
    } else {
      var n := |a| - 1;
      var last := a[n];
      assert last in multiset(b) by {
        assert a == a[..n] + [last];
      }
      var j :| 0 <= j < |b| && b[j] == last;
      var rest := b[..j] + b[j + 1..];
      assert a == a[..n] + [last];
      assert b == b[..j] + [last] + b[j + 1..];
      assert multiset(a[..n]) == multiset(rest) by {
        calc {
          multiset(a[..n]);
          multiset(a) - multiset{last};
          multiset(b) - multiset{last};
          multiset(rest);
        }
      }
      assert |rest| == n;
      MergeAllPermutation(a[..n], rest);
      MergeAllRemove(b, j);
    }
  }

  /** Adding x into one worker's map adds x to the merged total. */
  lemma {:induction false} MergeAllUpdate(maps: seq<CountMap>, w: nat, x: CountMap)
    requires w < |maps|
    ensures MergeAll(maps[w := Merge(maps[w], x)]) == Merge(MergeAll(maps), x)
  {
    var n := |maps| - 1;
    var updated := maps[w := Merge(maps[w], x)];
    var init := MergeAll(maps[..n]);
    if w == n {
      assert updated[..n] == maps[..n];
      MergeAssociates(init, maps[n], x);
    } else {
      assert updated[..n] == maps[..n][w := Merge(maps[..n][w], x)];
      MergeAllUpdate(maps[..n], w, x);
      MergeAssociates(init, x, maps[n]);
      MergeCommutes(x, maps[n]);
      MergeAssociates(init, maps[n], x);
    }
  }

  /** Bytes over all lines read, parsed or not. */
  function TotalBytes(lines: seq<string>): nat
  {
    if lines == [] then 0 else TotalBytes(lines[..|lines| - 1]) + |lines[|lines| - 1]|
  }

  /** `*total_counts.entry(key).or_insert(0) += count` for every entry of one worker map. */
  method MergeInto(total: CountMap, local: CountMap) returns (r: CountMap)
    ensures r == Merge(total, local)
  {
    r := total;
    var rest := local.Keys;
    while rest != {}
      invariant rest <= local.Keys
      invariant r.Keys == total.Keys + (local.Keys - rest)
      invariant forall k :: Get(r, k) == Get(total, k) + (if k in local.Keys - rest then local[k] else 0)
      decreases rest
    {
      var key :| key in rest;
      r := r[key := Get(r, key) + local[key]];
      rest := rest - {key};
    }
    Extensionality(r, Merge(total, local));
  }

  /** The producer side: `total_bytes += line.len()` for every line read. */
  method ReadLines(lines: seq<string>) returns (totalBytes: nat)
    ensures totalBytes == TotalBytes(lines)
  {
    totalBytes := 0;
    var i := 0;
    while i < |lines|
      invariant 0 <= i <= |lines|
      invariant totalBytes == TotalBytes(lines[..i])
    {
      assert lines[..i + 1][..i] == lines[..i];
      totalBytes := totalBytes + |lines[i]|;
      i := i + 1;
    }
    assert lines[..|lines|] == lines;
  }

  /**
   * The workers: line i goes to worker assignment[i], which runs count_fields on it into
   * its own map, starting empty. Each worker sees its lines in the order they were sent.
   * Whatever the dealing, the worker maps add up to the counts of all keys read.
   */
  method RunWorkers(lines: seq<string>, assignment: seq<nat>, reader: ObjectReader) returns (locals: seq<CountMap>)
    requires |assignment| == |lines|
    requires forall i :: 0 <= i < |assignment| ==> assignment[i] < NumWorkers
    ensures |locals| == NumWorkers
    ensures MergeAll(locals) == FromBag(KeysOf(lines, reader))
  {
    locals := [map[], map[], map[]];
    assert MergeAll(locals) == map[] by {
      var e: CountMap := map[];
      MergeEmpty(e);
      assert [e][..0] == [];
      assert MergeAll([e]) == e;
      assert [e, e][..1] == [e];
      assert MergeAll([e, e]) == e;
      assert locals[..2] == [e, e];
    }
    Extensionality(map[], FromBag(multiset{}));
    var i := 0;
    while i < |lines|
      invariant 0 <= i <= |lines|
      invariant |locals| == NumWorkers
      invariant MergeAll(locals) == FromBag(KeysOf(lines[..i], reader))
    {
      var w := assignment[i];
      var obj := reader(lines[i]);
      var counts := CountFields(obj, locals[w]);
      TallyIsMerge(locals[w], OkKeys(obj));
      MergeAllUpdate(locals, w, FromBag(multiset(OkKeys(obj))));
      KeysOfStep(lines, i, reader);
      MergeFromBag(KeysOf(lines[..i], reader), multiset(OkKeys(obj)));
      locals := locals[w := counts];
      i := i + 1;
    }
    assert lines[..|lines|] == lines;
  }

  /**
   * Joining the workers in order: the first one that panicked ends the join with an error;
   * otherwise their maps are summed.
   */
  method JoinWorkers(locals: seq<CountMap>, panicked: seq<bool>) returns (r: Result<CountMap, Error>)
    requires |locals| == |panicked|
    ensures true in panicked ==> r == Failure(Leaf(PanicMessage))
    ensures true !in panicked ==> r == Success(MergeAll(locals))
  {
    var totalCounts: CountMap := map[];
    var w := 0;
    while w < |locals|
      invariant 0 <= w <= |locals|
      invariant totalCounts == MergeAll(locals[..w])
      invariant forall v :: 0 <= v < w ==> !panicked[v]
    {
      if panicked[w] {
        return Failure(Leaf(PanicMessage));
      }
      assert locals[..w + 1][..w] == locals[..w];
      totalCounts := MergeInto(totalCounts, locals[w]);
      w := w + 1;
    }
    assert locals[..|locals|] == locals;
    return Success(totalCounts);
  }

  /**
   * count_fields_from_reader over the lines the reader yields and the error it stops with
   * (None at end of input), `assignment` dealing the lines to the workers and `panicked`
   * saying which workers panic. A read error is returned as is; otherwise a panicked worker
   * turns the whole result into an error; otherwise the counts hold every key's
   * occurrences over all lines, however the lines were dealt, and nbytes is the length of
   * every line read.
   */
  method CountFieldsFromReader(
    lines: seq<string>, readErr: Option<Error>, assignment: seq<nat>, panicked: seq<bool>, reader: ObjectReader)
    returns (r: Result<FieldCounts, Error>)
    requires |assignment| == |lines|
    requires forall i :: 0 <= i < |assignment| ==> assignment[i] < NumWorkers
    requires |panicked| == NumWorkers
    ensures readErr.Some? ==> r == Failure(readErr.value)
    ensures readErr.None? && true in panicked ==> r == Failure(Leaf(PanicMessage))
    ensures readErr.None? && true !in panicked ==> r == Success(FieldCounts(FromBag(KeysOf(lines, reader)), TotalBytes(lines)))
  {
    var totalBytes := ReadLines(lines);
    if readErr.Some? {
      return Failure(readErr.value);
    }
    var locals := RunWorkers(lines, assignment, reader);
    var joined := JoinWorkers(locals, panicked);
    if joined.Failure? {
      return Failure(joined.error);
    }
    return Success(FieldCounts(joined.value, totalBytes));
  }
}
