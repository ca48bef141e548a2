/**
 * The batched line pipeline of dumps/collector.go, without its goroutines.
 *
 * Lines are grouped into batches of BATCH_SIZE; every line of a batch goes through the
 * callback in batch order; a success adds the line's length to the byte counter and a
 * failure goes to the error funnel, whose drain adds one to the failure's message in the
 * tally. The model runs the stages one after another and proves that the totals are those
 * of a flat pass over the lines, whatever the batch size and whatever order the batches are
 * handled in.
 */
module Collector {
  import opened Wrappers
  import opened Errs
  import opened Counts
  import Ranking

  /** Lines per batch (collector.go:36). */
  const BATCH_SIZE: nat := 512

  /** One input line, without its terminator. */
  type Line = seq<bv8>

  /** The per-line callback; None is a nil error. */
  type LineProcessor = Line -> Option<Error>

  /** The lines of the batches, batch after batch. */
  function Flatten(batches: seq<seq<Line>>): seq<Line>
  {
    if batches == [] then [] else Flatten(batches[..|batches| - 1]) + batches[|batches| - 1]
  }

  /** Every batch holds 1 to size lines, and every batch but the last exactly size. */
  ghost predicate WellBatched(batches: seq<seq<Line>>, size: nat)
  {
    && (forall i :: 0 <= i < |batches| ==> 0 < |batches[i]| <= size)
    && (forall i :: 0 <= i < |batches| - 1 ==> |batches[i]| == size)
  }

  /**
   * The batcher stage (collector.go:61-80): appends lines to the current batch, emits it
   * when it is full, and flushes a non-empty remainder at the end.
   */
  method MakeBatches(lines: seq<Line>, size: nat) returns (batches: seq<seq<Line>>)
    requires size > 0
    ensures Flatten(batches) == lines
    ensures WellBatched(batches, size)
    ensures batches == [] <==> lines == []
  {
    batches := [];
    var batch: seq<Line> := [];
    var i := 0;
    while i < |lines|
      invariant 0 <= i <= |lines|
      invariant Flatten(batches) + batch == lines[..i]
      invariant |batch| < size
      invariant forall b :: 0 <= b < |batches| ==> |batches[b]| == size
      invariant batches == [] && batch == [] ==> i == 0
    {
      batch := batch + [lines[i]];
      assert lines[..i + 1] == lines[..i] + [lines[i]];
      if |batch| >= size {
        assert (batches + [batch])[..|batches|] == batches;
        assert Flatten(batches + [batch]) == Flatten(batches) + batch;
        batches := batches + [batch];
        batch := [];
      }
      i := i + 1;
    }
    if |batch| > 0 {
      assert (batches + [batch])[..|batches|] == batches;
      batches := batches + [batch];
    }
    assert lines[..|lines|] == lines;
  }

  /** Bytes of the lines the callback accepts, in a flat pass. */
  function AcceptedBytes(lines: seq<Line>, processor: LineProcessor): nat
  {
    if lines == [] then 0
    else
      var last := lines[|lines| - 1];
      AcceptedBytes(lines[..|lines| - 1], processor) + (if processor(last).None? then |last| else 0)
  }

  /** The errors the callback returns, in line order, in a flat pass. */
  function Rejections(lines: seq<Line>, processor: LineProcessor): seq<Error>
  {
    if lines == [] then []
    else
      var last := lines[|lines| - 1];
      Rejections(lines[..|lines| - 1], processor) + (if processor(last).Some? then [processor(last).value] else [])
  }

  /** The messages of a sequence of errors, the keys of the tally. */
  function Messages(errs: seq<Error>): seq<string>
  {
    if errs == [] then [] else Messages(errs[..|errs| - 1]) + [errs[|errs| - 1].Message()]
  }

  lemma {:induction false} AcceptedBytesAppend(a: seq<Line>, b: seq<Line>, processor: LineProcessor)
    ensures AcceptedBytes(a + b, processor) == AcceptedBytes(a, processor) + AcceptedBytes(b, processor)
  {
    if b == [] {
      assert a + b == a;
    } else {
      assert (a + b)[..|a + b| - 1] == a + b[..|b| - 1];
      AcceptedBytesAppend(a, b[..|b| - 1], processor);
    }
  }

  lemma {:induction false} RejectionsAppend(a: seq<Line>, b: seq<Line>, processor: LineProcessor)
    ensures Rejections(a + b, processor) == Rejections(a, processor) + Rejections(b, processor)
  {
    if b == [] {
      assert a + b == a;
    } else {
      assert (a + b)[..|a + b| - 1] == a + b[..|b| - 1];
      RejectionsAppend(a, b[..|b| - 1], processor);
    }
  }

  lemma {:induction false} MessagesAppend(a: seq<Error>, b: seq<Error>)
    ensures Messages(a + b) == Messages(a) + Messages(b)
  {
    if b == [] {
      assert a + b == a;
    } else {
      assert (a + b)[..|a + b| - 1] == a + b[..|b| - 1];
      MessagesAppend(a, b[..|b| - 1]);
    }
  }

  /** Every line is either accepted or rejected: rejections number at most the lines. */
  lemma {:induction false} RejectionsBounded(lines: seq<Line>, processor: LineProcessor)
    ensures |Rejections(lines, processor)| <= |lines|
    ensures |Rejections(lines, processor)| == |lines| <==> forall i :: 0 <= i < |lines| ==> processor(lines[i]).Some?
  {
    if lines != [] {
      var init := lines[..|lines| - 1];
      RejectionsBounded(init, processor);
      assert forall i :: 0 <= i < |init| ==> init[i] == lines[i];
    }
  }

  /** What the workers add to the byte counter for a sequence of batches, batch by batch. */
  function BatchedBytes(batches: seq<seq<Line>>, processor: LineProcessor): nat
  {
    if batches == [] then 0
    else BatchedBytes(batches[..|batches| - 1], processor) + AcceptedBytes(batches[|batches| - 1], processor)
  }

  /** What the workers send to the error funnel for a sequence of batches, batch by batch. */
  function BatchedRejections(batches: seq<seq<Line>>, processor: LineProcessor): seq<Error>
  {
    if batches == [] then []
    else BatchedRejections(batches[..|batches| - 1], processor) + Rejections(batches[|batches| - 1], processor)
  }

  /** Processing batch by batch gives the byte total and the failures of the flat pass. */
  lemma {:induction false} BatchedPassIsFlatPass(batches: seq<seq<Line>>, processor: LineProcessor)
    ensures BatchedBytes(batches, processor) == AcceptedBytes(Flatten(batches), processor)
    ensures BatchedRejections(batches, processor) == Rejections(Flatten(batches), processor)
  {
    if batches != [] {
      var init := batches[..|batches| - 1];
      BatchedPassIsFlatPass(init, processor);
      AcceptedBytesAppend(Flatten(init), batches[|batches| - 1], processor);
      RejectionsAppend(Flatten(init), batches[|batches| - 1], processor);
    }
  }

  /** The batch size does not change the totals: any two batchings of the same lines agree. */
  lemma BatchSizeIrrelevant(b1: seq<seq<Line>>, b2: seq<seq<Line>>, processor: LineProcessor, tally: CountMap)
    requires Flatten(b1) == Flatten(b2)
    ensures BatchedBytes(b1, processor) == BatchedBytes(b2, processor)
    ensures Tally(tally, Messages(BatchedRejections(b1, processor))) == Tally(tally, Messages(BatchedRejections(b2, processor)))
  {
    BatchedPassIsFlatPass(b1, processor);
    BatchedPassIsFlatPass(b2, processor);
  }

  lemma {:induction false} BatchedAppend(a: seq<seq<Line>>, b: seq<seq<Line>>, processor: LineProcessor)
    ensures BatchedBytes(a + b, processor) == BatchedBytes(a, processor) + BatchedBytes(b, processor)
    ensures BatchedRejections(a + b, processor) == BatchedRejections(a, processor) + BatchedRejections(b, processor)
  {
    if b == [] {
      assert a + b == a;
    } else {
      assert (a + b)[..|a + b| - 1] == a + b[..|b| - 1];
      BatchedAppend(a, b[..|b| - 1], processor);
    }
  }

  /** Removing one matching element from two permutations of each other leaves permutations. */
  lemma RemoveMatching(b1: seq<seq<Line>>, b2: seq<seq<Line>>, j: nat)
    requires multiset(b1) == multiset(b2) && b1 != []
    requires j < |b2| && b2[j] == b1[|b1| - 1]
    ensures multiset(b1[..|b1| - 1]) == multiset(b2[..j] + b2[j + 1..])
  {
    var init, last := b1[..|b1| - 1], b1[|b1| - 1];
    assert b1 == init + [last];
    assert b2 == b2[..j] + [last] + b2[j + 1..];
    calc {
      multiset(init);
      multiset(b1) - multiset{last};
      multiset(b2) - multiset{last};
      multiset(b2[..j] + b2[j + 1..]);
    }
  }

  /** Taking one batch out of the middle of a sequence of batches. */
  lemma BatchedSplit(left: seq<seq<Line>>, x: seq<Line>, right: seq<seq<Line>>, processor: LineProcessor)
    ensures BatchedBytes(left + [x] + right, processor) == BatchedBytes(left + right, processor) + AcceptedBytes(x, processor)
    ensures multiset(Messages(BatchedRejections(left + [x] + right, processor)))
         == multiset(Messages(BatchedRejections(left + right, processor))) + multiset(Messages(Rejections(x, processor)))
  {
    BatchedAppend(left, right, processor);
    BatchedAppend(left + [x], right, processor);
    BatchedAppend(left, [x], processor);
    assert [x][..0] == [];
    var rl, rr, rx := BatchedRejections(left, processor), BatchedRejections(right, processor), Rejections(x, processor);
    MessagesAppend(rl, rr);
    MessagesAppend(rl + rx, rr);
    MessagesAppend(rl, rx);
  }

  /** Batch-order independence of the byte total. */
  lemma {:induction false} BatchOrderBytes(b1: seq<seq<Line>>, b2: seq<seq<Line>>, processor: LineProcessor)
    requires multiset(b1) == multiset(b2)
    ensures BatchedBytes(b1, processor) == BatchedBytes(b2, processor)
    decreases |b1|
  {
    if b1 == [] {
      assert b2 == [] by {
        assert |b2| == |multiset(b2)|;
      }
    } else {
      var init, last := b1[..|b1| - 1], b1[|b1| - 1];
      var j := FindMatching(b1, b2);
      RemoveMatching(b1, b2, j);
      BatchOrderBytes(init, b2[..j] + b2[j + 1..], processor);
      assert b2 == b2[..j] + [last] + b2[j + 1..];
      BatchedSplit(b2[..j], last, b2[j + 1..], processor);
    }
  }

  /** Batch-order independence of the multiset of failure messages. */
  lemma {:induction false} BatchOrderMessages(b1: seq<seq<Line>>, b2: seq<seq<Line>>, processor: LineProcessor)
    requires multiset(b1) == multiset(b2)
    ensures multiset(Messages(BatchedRejections(b1, processor))) == multiset(Messages(BatchedRejections(b2, processor)))
    decreases |b1|
  {
    if b1 == [] {
      assert b2 == [] by {
        assert |b2| == |multiset(b2)|;
      }
    } else {
      var init, last := b1[..|b1| - 1], b1[|b1| - 1];
      var j := FindMatching(b1, b2);
      RemoveMatching(b1, b2, j);
      BatchOrderMessages(init, b2[..j] + b2[j + 1..], processor);
      assert b2 == b2[..j] + [last] + b2[j + 1..];
      BatchedSplit(b2[..j], last, b2[j + 1..], processor);
      MessagesAppend(BatchedRejections(init, processor), Rejections(last, processor));
    }
  }

  /** Where the last batch of b1 sits in its permutation b2. */
  lemma FindMatching(b1: seq<seq<Line>>, b2: seq<seq<Line>>) returns (j: nat)
    requires multiset(b1) == multiset(b2) && b1 != []
    ensures j < |b2| && b2[j] == b1[|b1| - 1]
  {
    assert b1[|b1| - 1] in multiset(b1);
    j :| 0 <= j < |b2| && b2[j] == b1[|b1| - 1];
  }

  /**
   * Workers take batches in no particular order and the funnel delivers their errors in no
   * particular order: handling the batches in any order gives the same byte total and the
   * same tally.
   */
  lemma BatchOrderIrrelevant(b1: seq<seq<Line>>, b2: seq<seq<Line>>, processor: LineProcessor, tally: CountMap)
    requires multiset(b1) == multiset(b2)
    ensures BatchedBytes(b1, processor) == BatchedBytes(b2, processor)
    ensures Tally(tally, Messages(BatchedRejections(b1, processor))) == Tally(tally, Messages(BatchedRejections(b2, processor)))
  {
    BatchOrderBytes(b1, b2, processor);
    BatchOrderMessages(b1, b2, processor);
    TallyOrderIndependent(tally, Messages(BatchedRejections(b1, processor)), Messages(BatchedRejections(b2, processor)));
  }

  class Collector {
    /** The failure tally, keyed by error message; None is the nil map of a zero Collector. */
    var errorCounts: Option<CountMap>
    /** Bytes of the lines the callback accepted (an int64 in the source). */
    var bytesProcessed: int

    constructor ()
      ensures errorCounts == None && bytesProcessed == 0
    {
      errorCounts := None;
      bytesProcessed := 0;
    }

    /**
     * Collect(scanner, processor) over the lines the scanner yields before it stops and
     * the error it reports then (None at end of input). The tally is created when it is
     * still nil; per-line failures are tallied and never stop the run; earlier tallies and
     * bytes are kept; the only error returned is the scanner's, wrapped as "scanner error: ...".
     */
    method Collect(lines: seq<Line>, scanErr: Option<Error>, processor: LineProcessor) returns (err: Option<Error>)
      modifies this
      ensures bytesProcessed == old(bytesProcessed) + AcceptedBytes(lines, processor)
      ensures errorCounts == Some(Tally(OrEmpty(old(errorCounts)), Messages(Rejections(lines, processor))))
      ensures err == Prefix(scanErr, "scanner error")
    {
      if errorCounts.None? {
        errorCounts := Some(map[]);
      }
      var batches := MakeBatches(lines, BATCH_SIZE);
      var funnel := Work(batches, processor);
      BatchedPassIsFlatPass(batches, processor);
      Drain(funnel);
      err := Prefix(scanErr, "scanner error");
    }

    /** The worker stage (collector.go:84-96): every batch, and every line of it in order. */
    method Work(batches: seq<seq<Line>>, processor: LineProcessor) returns (funnel: seq<Error>)
      modifies this`bytesProcessed
      ensures bytesProcessed == old(bytesProcessed) + BatchedBytes(batches, processor)
      ensures funnel == BatchedRejections(batches, processor)
    {
      funnel := [];
      var b := 0;
      while b < |batches|
        invariant 0 <= b <= |batches|
        invariant bytesProcessed == old(bytesProcessed) + BatchedBytes(batches[..b], processor)
        invariant funnel == BatchedRejections(batches[..b], processor)
      {
        assert batches[..b + 1][..b] == batches[..b];
        var errs := WorkBatch(batches[b], processor);
        funnel := funnel + errs;
        b := b + 1;
      }
      assert batches[..|batches|] == batches;
    }

    /** One worker's pass over one batch: the callback on each line, in batch order. */
    method WorkBatch(batch: seq<Line>, processor: LineProcessor) returns (errs: seq<Error>)
      modifies this`bytesProcessed
      ensures bytesProcessed == old(bytesProcessed) + AcceptedBytes(batch, processor)
      ensures errs == Rejections(batch, processor)
    {
      errs := [];
      var j := 0;
      while j < |batch|
        invariant 0 <= j <= |batch|
        invariant bytesProcessed == old(bytesProcessed) + AcceptedBytes(batch[..j], processor)
        invariant errs == Rejections(batch[..j], processor)
      {
        var data := batch[j];
        assert batch[..j + 1][..j] == batch[..j];
        var result := processor(data);
        if result.Some? {
          errs := errs + [result.value];
        } else {
          bytesProcessed := bytesProcessed + |data|;
        }
        j := j + 1;
      }
      assert batch[..|batch|] == batch;
    }

    /** The error collector (collector.go:104-107): drains the funnel into the tally. */
    method Drain(funnel: seq<Error>)
      requires errorCounts.Some?
      modifies this`errorCounts
      ensures errorCounts == Some(Tally(old(errorCounts).value, Messages(funnel)))
    {
      var k := 0;
      while k < |funnel|
        invariant 0 <= k <= |funnel|
        invariant errorCounts == Some(Tally(old(errorCounts).value, Messages(funnel[..k])))
      {
        assert funnel[..k + 1][..k] == funnel[..k];
        ReportError(funnel[k]);
        k := k + 1;
      }
      assert funnel[..|funnel|] == funnel;
    }

    /**
     * Adds one to the tally of the error's message (collector.go:115-117). The tally must
     * exist: on the nil map of a Collector that has not run Collect the write panics.
     */
    method ReportError(err: Error)
      requires errorCounts.Some?
      modifies this`errorCounts
      ensures errorCounts == Some(old(errorCounts).value[err.Message() := Get(old(errorCounts).value, err.Message()) + 1])
    {
      var m := errorCounts.value;
      errorCounts := Some(m[err.Message() := Get(m, err.Message()) + 1]);
    }

    /**
     * The lines PrintErrorSummary writes: nothing for an empty tally, otherwise every
     * message once with its count, most frequent first.
     */
    method PrintErrorSummary() returns (summary: Option<seq<Ranking.Entry>>)
      ensures summary.None? <==> |OrEmpty(errorCounts)| == 0
      ensures summary.Some? ==> Ranking.Lists(summary.value, OrEmpty(errorCounts)) && Ranking.ByCountDesc(summary.value)
    {
      if |OrEmpty(errorCounts)| == 0 {
        return None;
      }
      var entries := Ranking.SortByCount(OrEmpty(errorCounts));
      summary := Some(entries);
    }
  }
}
