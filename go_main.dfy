/**
 * main.go: the stand-alone counting loop over a dump of posts and comments. Lines that
 * cannot be handled are reported on stderr and skipped; the loop never stops early.
 */
module GoMain {
  import opened Wrappers
  import opened Errs
  import opened Records
  import Processor

  type ItemType = Processor.ItemType
  type Totals = Processor.Totals
  type PostParser = Processor.PostParser
  type CommentParser = Processor.CommentParser

  /** Whether decoding the line found a "title" field and a "body" field. */
  datatype Presence = Presence(title: bool, body: bool)

  /** The decode detectType does, into a struct with the two raw fields. */
  type Probe = string -> Result<Presence, Error>

  /** detectType: a post whenever a title is present, even next to a body. */
  function DetectType(line: string, probe: Probe): (r: Result<ItemType, Error>)
    ensures probe(line).Failure? ==> r == Failure(probe(line).error)
    ensures probe(line).Success? ==> r.Success?
    ensures probe(line).Success? ==> (r.value == Processor.Post <==> probe(line).value.title)
    ensures probe(line).Success? ==> (r.value == Processor.Comment <==> !probe(line).value.title && probe(line).value.body)
    ensures probe(line).Success? ==> (r.value == Processor.Unknown <==> !probe(line).value.title && !probe(line).value.body)
  {
    match probe(line)
    case Failure(e) => Failure(e)
    case Success(p) =>
      if p.title then Success(Processor.Post)
      else if p.body then Success(Processor.Comment)
      else Success(Processor.Unknown)
  }

  /** The stderr line the loop writes for a line it skips, if it skips it. */
  function Diagnostic(line: string, probe: Probe, parsePost: PostParser, parseComment: CommentParser): Option<string>
  {
    match DetectType(line, probe)
    case Failure(e) => Some("Error detecting type: " + e.Message())
    case Success(Post) =>
      if parsePost(line).Failure? then Some("Error processing post: " + parsePost(line).error.Message()) else None
    case Success(Comment) =>
      if parseComment(line).Failure? then Some("Error processing comment: " + parseComment(line).error.Message()) else None
    case Success(Unknown) => Some("Unknown item type: " + line)
  }

  /** The counters after one line. */
  function Step(t: Totals, line: string, probe: Probe, parsePost: PostParser, parseComment: CommentParser): Totals
  {
    match DetectType(line, probe)
    case Failure(_) => t
    case Success(Post) =>
      if parsePost(line).Success?
      then t.(posts := t.posts + 1, postScore := t.postScore + parsePost(line).value.score)
      else t
    case Success(Comment) =>
      if parseComment(line).Success?
      then t.(comments := t.comments + 1, commentScore := t.commentScore + parseComment(line).value.score)
      else t
    case Success(Unknown) => t
  }

  function Run(t: Totals, lines: seq<string>, probe: Probe, parsePost: PostParser, parseComment: CommentParser): Totals
  {
    if lines == [] then t
    else Step(Run(t, lines[..|lines| - 1], probe, parsePost, parseComment), lines[|lines| - 1], probe, parsePost, parseComment)
  }

  function Diagnostics(lines: seq<string>, probe: Probe, parsePost: PostParser, parseComment: CommentParser): seq<string>
  {
    if lines == [] then []
    else
      var d := Diagnostic(lines[|lines| - 1], probe, parsePost, parseComment);
      Diagnostics(lines[..|lines| - 1], probe, parsePost, parseComment) + (if d.Some? then [d.value] else [])
  }

  /**
   * A skipped line (type detection failed, decoding failed, or the type is unknown) leaves
   * every counter alone; any other line adds one to exactly one of the two item counts
   * and its score to that kind's total.
   */
  lemma SkippedLinesChangeNothing(t: Totals, line: string, probe: Probe, parsePost: PostParser, parseComment: CommentParser)
    ensures Diagnostic(line, probe, parsePost, parseComment).Some? ==> Step(t, line, probe, parsePost, parseComment) == t
    ensures Diagnostic(line, probe, parsePost, parseComment).None? ==>
      var u := Step(t, line, probe, parsePost, parseComment);
      || (parsePost(line).Success? && u == t.(posts := t.posts + 1, postScore := t.postScore + parsePost(line).value.score))
      || (parseComment(line).Success? && u == t.(comments := t.comments + 1, commentScore := t.commentScore + parseComment(line).value.score))
  {
  }

  /** Every line is either counted once or reported once. */
  lemma {:induction false} RunConservation(t: Totals, lines: seq<string>, probe: Probe, parsePost: PostParser, parseComment: CommentParser)
    ensures var u := Run(t, lines, probe, parsePost, parseComment);
      (u.posts - t.posts) + (u.comments - t.comments) + |Diagnostics(lines, probe, parsePost, parseComment)| == |lines|
  {
    if lines != [] {
      var n := |lines| - 1;
      RunConservation(t, lines[..n], probe, parsePost, parseComment);
      SkippedLinesChangeNothing(Run(t, lines[..n], probe, parsePost, parseComment), lines[n], probe, parsePost, parseComment);
    }
  }

  lemma RunStep(t: Totals, lines: seq<string>, i: nat, probe: Probe, parsePost: PostParser, parseComment: CommentParser)
    requires i < |lines|
    ensures Run(t, lines[..i + 1], probe, parsePost, parseComment)
         == Step(Run(t, lines[..i], probe, parsePost, parseComment), lines[i], probe, parsePost, parseComment)
    ensures var d := Diagnostic(lines[i], probe, parsePost, parseComment);
      Diagnostics(lines[..i + 1], probe, parsePost, parseComment)
      == Diagnostics(lines[..i], probe, parsePost, parseComment) + (if d.Some? then [d.value] else [])
  {
    assert lines[..i + 1][..i] == lines[..i];
  }

  /**
   * The scan loop of main, from zeroed counters: the counters it ends with, the stderr
   * lines for the lines it skipped, and the message it exits with when the scanner failed.
   */
  method ScanDump(lines: seq<string>, scanErr: Option<Error>, probe: Probe, parsePost: PostParser, parseComment: CommentParser)
    returns (totals: Totals, log: seq<string>, fatal: Option<string>)
    ensures totals == Run(Processor.Totals(0, 0, 0, 0), lines, probe, parsePost, parseComment)
    ensures log == Diagnostics(lines, probe, parsePost, parseComment)
    ensures fatal.None? <==> scanErr.None?
    ensures scanErr.Some? ==> fatal == Some("Error reading input: " + scanErr.value.Message())
  {
    var postCount, commentCount := 0, 0;
    var totalPostScore, totalCommentScore := 0, 0;
    log := [];
    var i := 0;
    while i < |lines|
      invariant 0 <= i <= |lines|
      invariant Processor.Totals(postCount, commentCount, totalPostScore, totalCommentScore)
             == Run(Processor.Totals(0, 0, 0, 0), lines[..i], probe, parsePost, parseComment)
      invariant log == Diagnostics(lines[..i], probe, parsePost, parseComment)
    {
      RunStep(Processor.Totals(0, 0, 0, 0), lines, i, probe, parsePost, parseComment);
      var line := lines[i];
      var itemType := DetectType(line, probe);
      if itemType.Failure? {
        log := log + ["Error detecting type: " + itemType.error.Message()];
      } else {
        match itemType.value
        case Post =>
          var post := parsePost(line);
          if post.Failure? {
            log := log + ["Error processing post: " + post.error.Message()];
          } else {
            postCount := postCount + 1;
            totalPostScore := totalPostScore + post.value.score;
          }
        case Comment =>
          var comment := parseComment(line);
          if comment.Failure? {
            log := log + ["Error processing comment: " + comment.error.Message()];
          } else {
            commentCount := commentCount + 1;
            totalCommentScore := totalCommentScore + comment.value.score;
          }
        case Unknown =>
          log := log + ["Unknown item type: " + line];
      }
      i := i + 1;
    }
    assert lines[..|lines|] == lines;
    totals := Processor.Totals(postCount, commentCount, totalPostScore, totalCommentScore);
    fatal := if scanErr.Some? then Some("Error reading input: " + scanErr.value.Message()) else None;
  }
}
