/** dumps/comments.go: a pass over a dump of comments only, counting and scoring them. */
module Comments {
  import opened Wrappers
  import opened Errs
  import opened Counts
  import opened FailSoft
  import opened Display
  import opened Records
  import Ranking

  type CommentParser = string -> Result<RedditComment, Error>

  /** The line processComment prints for a comment it decoded: the body cut to 50 bytes. */
  datatype Shown = Shown(index: int, author: string, preview: string, score: int)

  function ScoreOf(s: RedditComment): int
  {
    s.score
  }

  /** ProcessLine's error, as the callback of the tally loop. */
  function LineError(parse: CommentParser): LineCallback
  {
    Wrapping(parse, "process comment")
  }

  /**
   * processComment: the decoded score and the line announcing it as number commentCount,
   * with a preview of the body.
   */
  function ProcessComment(line: string, commentCount: int, parse: CommentParser): (r: Result<(int, Shown), Error>)
    ensures r.Failure? ==> parse(line).Failure? && r.error == parse(line).error
    ensures r.Success? ==> parse(line).Success? && r.value.0 == parse(line).value.score
    ensures r.Success? ==> r.value.1 == Shown(commentCount, parse(line).value.author, Truncate(parse(line).value.body, 50), parse(line).value.score)
  {
    match parse(line)
    case Failure(e) => Failure(e)
    case Success(c) => Success((c.score, Shown(commentCount, c.author, Truncate(c.body, 50), c.score)))
  }

  class CommentProcessor {
    var count: int
    var scoreSum: int
    /** The failure tally, keyed by error message. A nil Go map reads as empty. */
    var errorCounts: CountMap

    constructor ()
      ensures count == 0 && scoreSum == 0 && errorCounts == map[]
    {
      count, scoreSum := 0, 0;
      errorCounts := map[];
    }

    /**
     * ProcessLine: a comment that decodes is counted and scored and announced under the
     * number it takes; one that does not is returned as "process comment: ..." and
     * changes no counter.
     */
    method ProcessLine(line: string, parse: CommentParser) returns (err: Option<Error>, shown: Option<Shown>)
      modifies this`count, this`scoreSum
      ensures err == LineError(parse)(line)
      ensures parse(line).Failure? ==> count == old(count) && scoreSum == old(scoreSum)
      ensures parse(line).Success? ==> count == old(count) + 1 && scoreSum == old(scoreSum) + parse(line).value.score
      ensures shown.Some? <==> err.None?
      ensures shown.Some? ==> shown.value.index == count
      ensures shown.Some? ==> shown.value == ProcessComment(line, count, parse).value.1
    {
      var r := ProcessComment(line, count + 1, parse);
      if r.Failure? {
        return Some(Wrapped("process comment", r.error)), None;
      }
      count := count + 1;
      scoreSum := scoreSum + r.value.0;
      return None, Some(r.value.1);
    }

    /**
     * Process: ProcessLine on every line, each failure tallied under its message, scanning
     * on past bad lines; only the scanner's error is returned.
     */
    method Process(lines: seq<string>, scanErr: Option<Error>, parse: CommentParser) returns (err: Option<Error>)
      modifies this
      ensures count == old(count) + Parsed(lines, parse)
      ensures scoreSum == old(scoreSum) + Scored(lines, parse, ScoreOf)
      ensures errorCounts == Tally(old(errorCounts), Rejections(lines, LineError(parse)))
      ensures err == Prefix(scanErr, "scanner error")
    {
      var i := 0;
      while i < |lines|
        invariant 0 <= i <= |lines|
        invariant count == old(count) + Parsed(lines[..i], parse)
        invariant scoreSum == old(scoreSum) + Scored(lines[..i], parse, ScoreOf)
        invariant errorCounts == Tally(old(errorCounts), Rejections(lines[..i], LineError(parse)))
      {
        ParsedStep(lines, i, parse);
        ScoredStep(lines, i, parse, ScoreOf);
        TallyStep(old(errorCounts), lines, i, LineError(parse));
        var lineErr, _ := ProcessLine(lines[i], parse);
        if lineErr.Some? {
          errorCounts := Bump(errorCounts, lineErr.value.Message());
        }
        i := i + 1;
      }
      assert lines[..|lines|] == lines;
      err := Prefix(scanErr, "scanner error");
    }

    /** The Report line for comments and the error summary. */
    method Report() returns (stats: Stats, summary: Option<seq<Ranking.Entry>>)
      ensures stats == Stats(count, scoreSum, Average(scoreSum, count))
      ensures summary.None? <==> |errorCounts| == 0
      ensures summary.Some? ==> Ranking.Lists(summary.value, errorCounts) && Ranking.ByCountDesc(summary.value)
    {
      stats := Stats(count, scoreSum, Average(scoreSum, count));
      summary := PrintErrorSummary();
    }

    /**
     * The lines PrintErrorSummary writes: nothing for an empty tally, otherwise every
     * message once with its count, most frequent first.
     */
    method PrintErrorSummary() returns (summary: Option<seq<Ranking.Entry>>)
      ensures summary.None? <==> |errorCounts| == 0
      ensures summary.Some? ==> Ranking.Lists(summary.value, errorCounts) && Ranking.ByCountDesc(summary.value)
    {
      if |errorCounts| == 0 {
        return None;
      }
      var entries := Ranking.SortByCount(errorCounts);
      summary := Some(entries);
    }
  }
}
