/** dumps/processors.go: a bare score accumulator and its report line. */
module Scores {
  import opened Display

  function Sum(scores: seq<int>): int
  {
    if scores == [] then 0 else Sum(scores[..|scores| - 1]) + scores[|scores| - 1]
  }

  class BaseScores {
    var count: int
    var scores: int
    /** The scores passed to Process so far, oldest first. */
    ghost var history: seq<int>

    /** count is the number of calls so far and scores their total. */
    ghost predicate Valid()
      reads this
    {
      count == |history| && scores == Sum(history)
    }

    /** The Go zero value. */
    constructor ()
      ensures Valid() && history == []
      ensures count == 0 && scores == 0
    {
      count, scores := 0, 0;
      history := [];
    }

    /** process(score): one more call and its score; nothing else changes. */
    method Process(score: int)
      requires Valid()
      modifies this
      ensures Valid()
      ensures history == old(history) + [score]
      ensures count == old(count) + 1
      ensures scores == old(scores) + score
    {
      scores := scores + score;
      count := count + 1;
      history := history + [score];
      assert history[..|history| - 1] == old(history);
    }

    /** The figures Report prints: no division while nothing was counted. */
    method Report() returns (stats: Stats)
      ensures stats == Stats(count, scores, Average(scores, count))
    {
      var avg := 0.0;
      if count > 0 {
        avg := scores as real / count as real;
      }
      stats := Stats(count, scores, avg);
    }
  }
}
