/**
 * The shared processor core of dumps/base.go: a fail-soft loop that feeds every line to an
 * injected callback and tallies the callback's failures by message, the count and score
 * counters, the report figures and the error summary.
 */
module Base {
  import opened Wrappers
  import opened Errs
  import opened Counts
  import opened FailSoft
  import opened Display
  import Ranking

  class BaseProcessor {
    var count: int
    var scoreSum: int
    /** The failure tally, keyed by error message. A nil Go map reads as empty. */
    var errorCounts: CountMap

    constructor ()
      ensures count == 0 && scoreSum == 0 && errorCounts == map[]
    {
      count, scoreSum := 0, 0;
      errorCounts := map[];
    }

    /**
     * process(scanner, processor) over the lines the scanner yields and the error it stops
     * with: each rejected line adds one to its message's tally, accepted lines change
     * nothing here, a rejection never stops the loop, earlier tallies are kept, and the
     * only error returned is the scanner's, wrapped as "scanner error: ...".
     */
    method Process(lines: seq<string>, scanErr: Option<Error>, processor: LineCallback) returns (err: Option<Error>)
      modifies this`errorCounts
      ensures errorCounts == Tally(old(errorCounts), Rejections(lines, processor))
      ensures Total(errorCounts) == Total(old(errorCounts)) + |Rejections(lines, processor)|
      ensures err == Prefix(scanErr, "scanner error")
    {
      var i := 0;
      while i < |lines|
        invariant 0 <= i <= |lines|
        invariant errorCounts == Tally(old(errorCounts), Rejections(lines[..i], processor))
      {
        TallyStep(old(errorCounts), lines, i, processor);
        var result := processor(lines[i]);
        if result.Some? {
          errorCounts := Bump(errorCounts, result.value.Message());
        }
        i := i + 1;
      }
      assert lines[..|lines|] == lines;
      TallyTotal(old(errorCounts), Rejections(lines, processor));
      err := Prefix(scanErr, "scanner error");
    }

    /** IncrementCount(score): one more item, score added, nothing else changes. */
    method IncrementCount(score: int)
      modifies this`count, this`scoreSum
      ensures count == old(count) + 1
      ensures scoreSum == old(scoreSum) + score
    {
      count := count + 1;
      scoreSum := scoreSum + score;
    }

    /**
     * The figures Report(unitName) prints before the error summary. The average is 0 until
     * something was counted, and otherwise the exact mean; Go computes it in float64.
     */
    method Report() returns (stats: Stats, summary: Option<seq<Ranking.Entry>>)
      ensures stats == Stats(count, scoreSum, Average(scoreSum, count))
      ensures summary.None? <==> |errorCounts| == 0
      ensures summary.Some? ==> Ranking.Lists(summary.value, errorCounts) && Ranking.ByCountDesc(summary.value)
    {
      stats := Stats(count, scoreSum, Average(scoreSum, count));
      summary := PrintErrorSummary();
    }

    /**
     * The lines PrintErrorSummary writes: nothing for an empty tally, otherwise every
     * message once with its count, most frequent first.
     */
    method PrintErrorSummary() returns (summary: Option<seq<Ranking.Entry>>)
      ensures summary.None? <==> |errorCounts| == 0
      ensures summary.Some? ==> Ranking.Lists(summary.value, errorCounts) && Ranking.ByCountDesc(summary.value)
    {
      if |errorCounts| == 0 {
        return None;
      }
      var entries := Ranking.SortByCount(errorCounts);
      summary := Some(entries);
    }
  }
}
