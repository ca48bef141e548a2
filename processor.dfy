/**
 * dumps/processor.go: one pass over a dump that holds posts and comments, telling them apart
 * by a raw scan for the first unescaped `"title":` and `"body":` keys.
 */
module Processor {
  import opened Wrappers
  import opened Errs
  import opened Counts
  import opened FailSoft
  import opened Display
  import opened Records
  import Ranking

  datatype ItemType = Post | Comment | Unknown

  const TitleKey: string := "\"title\":"
  const BodyKey: string := "\"body\":"

  /**
   * The key starts at byte i, is not escaped by a preceding backslash, and the line goes on
   * for at least one byte after it: the scan loops stop |key| bytes before the end, so a key
   * whose ':' is the last byte is never seen.
   */
  predicate KeyAt(line: string, key: string, i: nat)
  {
    && i + |key| < |line|
    && line[i..i + |key|] == key
    && (i == 0 || line[i - 1] != '\\')
  }

  /** The first position from i on where the key is seen. */
  function FindFrom(line: string, key: string, i: nat): (r: Option<nat>)
    ensures r.Some? ==> i <= r.value && KeyAt(line, key, r.value)
    ensures r.Some? ==> forall j :: i <= j < r.value ==> !KeyAt(line, key, j)
    ensures r.None? ==> forall j :: i <= j ==> !KeyAt(line, key, j)
    decreases |line| - i
  {
    if i + |key| >= |line| then None
    else if KeyAt(line, key, i) then Some(i)
    else FindFrom(line, key, i + 1)
  }

  function FirstKey(line: string, key: string): (r: Option<nat>)
    ensures r.Some? ==> KeyAt(line, key, r.value) && forall j :: 0 <= j < r.value ==> !KeyAt(line, key, j)
    ensures r.None? ==> forall j :: !KeyAt(line, key, j)
  {
    FindFrom(line, key, 0)
  }

  /** A post when the title key comes first, a comment when only the body key does. */
  function Classify(line: string): ItemType
  {
    var t := FirstKey(line, TitleKey);
    var b := FirstKey(line, BodyKey);
    if t.Some? && (b.None? || t.value < b.value) then Post
    else if b.Some? then Comment
    else Unknown
  }

  /** The two keys differ in their second byte, so they never start at the same place. */
  lemma KeysNeverClash(line: string, i: nat)
    ensures KeyAt(line, TitleKey, i) ==> !KeyAt(line, BodyKey, i)
  {
    if KeyAt(line, TitleKey, i) {
      assert line[i + 1] == line[i..i + 8][1] == 't';
    }
  }

  /** A post exactly when a title key is seen with no body key at or before it. */
  lemma ClassifyPost(line: string)
    ensures Classify(line) == Post <==>
      exists t :: KeyAt(line, TitleKey, t) && forall j :: 0 <= j <= t ==> !KeyAt(line, BodyKey, j)
  {
    var t := FirstKey(line, TitleKey);
    var b := FirstKey(line, BodyKey);
    if Classify(line) == Post {
      assert KeyAt(line, TitleKey, t.value);
      if b.Some? {
        KeysNeverClash(line, t.value);
      }
    }
  }

  /** A comment exactly when a body key is seen with no title key at or before it. */
  lemma ClassifyComment(line: string)
    ensures Classify(line) == Comment <==>
      exists b :: KeyAt(line, BodyKey, b) && forall j :: 0 <= j <= b ==> !KeyAt(line, TitleKey, j)
  {
    var t := FirstKey(line, TitleKey);
    var b := FirstKey(line, BodyKey);
    if Classify(line) == Comment {
      assert KeyAt(line, BodyKey, b.value);
      if t.Some? {
        KeysNeverClash(line, b.value);
      }
    }
  }

  /** Unknown exactly when neither key is seen anywhere. */
  lemma ClassifyUnknown(line: string)
    ensures Classify(line) == Unknown <==> forall i :: !KeyAt(line, TitleKey, i) && !KeyAt(line, BodyKey, i)
  {
    var t := FirstKey(line, TitleKey);
    var b := FirstKey(line, BodyKey);
    if Classify(line) != Unknown {
      if t.Some? {
        assert KeyAt(line, TitleKey, t.value);
      } else {
        assert KeyAt(line, BodyKey, b.value);
      }
    }
  }

  /** Lines shorter than 8 bytes have room for neither key. */
  lemma ShortLineUnknown(line: string)
    requires |line| < 8
    ensures Classify(line) == Unknown
  {
    ClassifyUnknown(line);
  }

  /** The byte-wise test of the title scan is KeyAt. */
  lemma TitleTest(line: string, i: nat)
    requires i + 8 < |line|
    ensures KeyAt(line, TitleKey, i) <==>
      line[i] == '"' && line[i + 1..i + 7] == "title\"" && line[i + 7] == ':' && (i == 0 || line[i - 1] != '\\')
  {
    assert line[i..i + 8] == [line[i]] + line[i + 1..i + 7] + [line[i + 7]];
    assert TitleKey == ['"'] + "title\"" + [':'];
    assert line[i..i + 8][1..7] == line[i + 1..i + 7];
  }

  /** The byte-wise test of the body scan is KeyAt. */
  lemma BodyTest(line: string, i: nat)
    requires i + 7 < |line|
    ensures KeyAt(line, BodyKey, i) <==>
      line[i] == '"' && line[i + 1..i + 6] == "body\"" && line[i + 6] == ':' && (i == 0 || line[i - 1] != '\\')
  {
    assert line[i..i + 7] == [line[i]] + line[i + 1..i + 6] + [line[i + 6]];
    assert BodyKey == ['"'] + "body\"" + [':'];
    assert line[i..i + 7][1..6] == line[i + 1..i + 6];
  }

  /**
   * detectType: two scans for the first unescaped key, each stopping at its first match,
   * then the decision. The error it returns is always nil, so it is left out.
   */
  method DetectType(line: string) returns (itemType: ItemType)
    ensures itemType == Classify(line)
  {
    var titleIdx := -1;
    var bodyIdx := -1;

    var i := 0;
    while i < |line| - 8
      invariant 0 <= i
      invariant forall j :: 0 <= j < i ==> !KeyAt(line, TitleKey, j)
    {
      TitleTest(line, i);
      if line[i] == '"' && line[i + 1..i + 7] == "title\"" && line[i + 7] == ':'
        && (i == 0 || line[i - 1] != '\\')
      {
        titleIdx := i;
        break;
      }
      i := i + 1;
    }
    assert titleIdx == -1 ==> FirstKey(line, TitleKey) == None;
    assert titleIdx != -1 ==> FirstKey(line, TitleKey) == Some(titleIdx);

    i := 0;
    while i < |line| - 7
      invariant 0 <= i
      invariant forall j :: 0 <= j < i ==> !KeyAt(line, BodyKey, j)
    {
      BodyTest(line, i);
      if line[i] == '"' && line[i + 1..i + 6] == "body\"" && line[i + 6] == ':'
        && (i == 0 || line[i - 1] != '\\')
      {
        bodyIdx := i;
        break;
      }
      i := i + 1;
    }
    assert bodyIdx == -1 ==> FirstKey(line, BodyKey) == None;
    assert bodyIdx != -1 ==> FirstKey(line, BodyKey) == Some(bodyIdx);

    if titleIdx != -1 && (bodyIdx == -1 || titleIdx < bodyIdx) {
      return Post;
    }
    if bodyIdx != -1 {
      return Comment;
    }
    return Unknown;
  }

  type PostParser = string -> Result<RedditSubmission, Error>
  type CommentParser = string -> Result<RedditComment, Error>

  /** The four counters of a Processor. */
  datatype Totals = Totals(posts: int, comments: int, postScore: int, commentScore: int)

  /** The line processPost or processComment prints for an item it decoded. */
  datatype Shown =
    | ShownPost(index: int, title: string, score: int)
    | ShownComment(index: int, author: string, preview: string, score: int)

  /** ProcessLine's error for a line: the decode error under its stage, or the unknown line. */
  function ItemError(line: string, parsePost: PostParser, parseComment: CommentParser): Option<Error>
  {
    match Classify(line)
    case Post => if parsePost(line).Failure? then Some(Wrapped("process post", parsePost(line).error)) else None
    case Comment => if parseComment(line).Failure? then Some(Wrapped("process comment", parseComment(line).error)) else None
    case Unknown => Some(Leaf("unknown item type: " + line))
  }

  /** ItemError as the callback of the tally loop. */
  function LineError(parsePost: PostParser, parseComment: CommentParser): LineCallback
  {
    line => ItemError(line, parsePost, parseComment)
  }

  /** The counters after one line: a decoded item adds to its own kind only. */
  function Step(t: Totals, line: string, parsePost: PostParser, parseComment: CommentParser): Totals
  {
    match Classify(line)
    case Post =>
      if parsePost(line).Success?
      then t.(posts := t.posts + 1, postScore := t.postScore + parsePost(line).value.score)
      else t
    case Comment =>
      if parseComment(line).Success?
      then t.(comments := t.comments + 1, commentScore := t.commentScore + parseComment(line).value.score)
      else t
    case Unknown => t
  }

  /** The counters after the lines, one Step per line. */
  function Run(t: Totals, lines: seq<string>, parsePost: PostParser, parseComment: CommentParser): Totals
  {
    if lines == [] then t
    else Step(Run(t, lines[..|lines| - 1], parsePost, parseComment), lines[|lines| - 1], parsePost, parseComment)
  }

  /**
   * A line either fails and leaves every counter alone, or succeeds and adds one to exactly
   * one of the two item counts.
   */
  lemma StepCountsOnlySuccess(t: Totals, line: string, parsePost: PostParser, parseComment: CommentParser)
    ensures LineError(parsePost, parseComment)(line).Some? ==> Step(t, line, parsePost, parseComment) == t
    ensures LineError(parsePost, parseComment)(line).None? ==>
      var u := Step(t, line, parsePost, parseComment);
      || (u.posts == t.posts + 1 && u.comments == t.comments && u.commentScore == t.commentScore)
      || (u.comments == t.comments + 1 && u.posts == t.posts && u.postScore == t.postScore)
  {
  }

  /** Every line is counted once or tallied once: counted items plus rejections are the lines. */
  lemma {:induction false} RunConservation(t: Totals, lines: seq<string>, parsePost: PostParser, parseComment: CommentParser)
    ensures var u := Run(t, lines, parsePost, parseComment);
      (u.posts - t.posts) + (u.comments - t.comments) + |Rejections(lines, LineError(parsePost, parseComment))| == |lines|
  {
    if lines != [] {
      var n := |lines| - 1;
      RunConservation(t, lines[..n], parsePost, parseComment);
      StepCountsOnlySuccess(Run(t, lines[..n], parsePost, parseComment), lines[n], parsePost, parseComment);
    }
  }

  /** A line too short for either key is rejected as an unknown item, quoting the line. */
  lemma ShortLineRejected(line: string, parsePost: PostParser, parseComment: CommentParser)
    requires |line| < 8
    ensures LineError(parsePost, parseComment)(line) == Some(Leaf("unknown item type: " + line))
    ensures LineError(parsePost, parseComment)(line).value.Message() == "unknown item type: " + line
  {
    ShortLineUnknown(line);
  }

  lemma RunStep(t: Totals, lines: seq<string>, i: nat, parsePost: PostParser, parseComment: CommentParser)
    requires i < |lines|
    ensures Run(t, lines[..i + 1], parsePost, parseComment)
         == Step(Run(t, lines[..i], parsePost, parseComment), lines[i], parsePost, parseComment)
  {
    assert lines[..i + 1][..i] == lines[..i];
  }

  /** processPost: the decoded post's score and the line announcing it as number postCount. */
  function ProcessPost(line: string, postCount: int, parsePost: PostParser): (r: Result<(int, Shown), Error>)
    ensures r.Failure? ==> parsePost(line).Failure? && r.error == parsePost(line).error
    ensures r.Success? ==> parsePost(line).Success? && r.value.0 == parsePost(line).value.score
    ensures r.Success? ==> r.value.1.ShownPost? && r.value.1.index == postCount
    ensures r.Success? ==> r.value.1 == ShownPost(postCount, parsePost(line).value.title, parsePost(line).value.score)
  {
    match parsePost(line)
    case Failure(e) => Failure(e)
    case Success(post) => Success((post.score, ShownPost(postCount, post.title, post.score)))
  }

  /**
   * processComment: the decoded comment's score and the line announcing it as number
   * commentCount, with the body cut to 50 bytes.
   */
  function ProcessComment(line: string, commentCount: int, parseComment: CommentParser): (r: Result<(int, Shown), Error>)
    ensures r.Failure? ==> parseComment(line).Failure? && r.error == parseComment(line).error
    ensures r.Success? ==> parseComment(line).Success? && r.value.0 == parseComment(line).value.score
    ensures r.Success? ==> r.value.1.ShownComment? && r.value.1.index == commentCount
    ensures r.Success? ==> r.value.1 == ShownComment(commentCount, parseComment(line).value.author, Truncate(parseComment(line).value.body, 50), parseComment(line).value.score)
    ensures r.Success? ==> |r.value.1.preview| <= 53
  {
    match parseComment(line)
    case Failure(e) => Failure(e)
    case Success(c) => Success((c.score, ShownComment(commentCount, c.author, Truncate(c.body, 50), c.score)))
  }

  class Processor {
    var postCount: int
    var commentCount: int
    var totalPostScore: int
    var totalCommentScore: int
    /** The failure tally, keyed by error message. A nil Go map reads as empty. */
    var errorCounts: CountMap

    function Counters(): Totals
      reads this
    {
      Totals(postCount, commentCount, totalPostScore, totalCommentScore)
    }

    constructor ()
      ensures Counters() == Totals(0, 0, 0, 0) && errorCounts == map[]
    {
      postCount, commentCount := 0, 0;
      totalPostScore, totalCommentScore := 0, 0;
      errorCounts := map[];
    }

    /**
     * ProcessLine: classify the line, decode it as that kind, and count it. A failure is
     * returned prefixed by its stage and changes no counter; a decoded item is announced
     * under the number it takes among its kind.
     */
    method ProcessLine(line: string, parsePost: PostParser, parseComment: CommentParser)
      returns (err: Option<Error>, shown: Option<Shown>)
      modifies this`postCount, this`commentCount, this`totalPostScore, this`totalCommentScore
      ensures err == ItemError(line, parsePost, parseComment)
      ensures Counters() == Step(old(Counters()), line, parsePost, parseComment)
      ensures shown.Some? <==> err.None?
      ensures shown.Some? && shown.value.ShownPost? ==> shown.value.index == postCount
      ensures shown.Some? && shown.value.ShownComment? ==> shown.value.index == commentCount
      ensures Classify(line) == Post && parsePost(line).Success? ==>
        shown == Some(ProcessPost(line, postCount, parsePost).value.1)
      ensures Classify(line) == Comment && parseComment(line).Success? ==>
        shown == Some(ProcessComment(line, commentCount, parseComment).value.1)
    {
      var itemType := DetectType(line);
      match itemType
      case Post =>
        var r := ProcessPost(line, postCount + 1, parsePost);
        if r.Failure? {
          return Some(Wrapped("process post", r.error)), None;
        }
        postCount := postCount + 1;
        totalPostScore := totalPostScore + r.value.0;
        return None, Some(r.value.1);
      case Comment =>
        var r := ProcessComment(line, commentCount + 1, parseComment);
        if r.Failure? {
          return Some(Wrapped("process comment", r.error)), None;
        }
        commentCount := commentCount + 1;
        totalCommentScore := totalCommentScore + r.value.0;
        return None, Some(r.value.1);
      case Unknown =>
        return Some(Leaf("unknown item type: " + line)), None;
    }

    /**
     * Process: ProcessLine on every line, each failure tallied under its message, scanning
     * on past bad lines; only the scanner's error is returned.
     */
    method Process(lines: seq<string>, scanErr: Option<Error>, parsePost: PostParser, parseComment: CommentParser)
      returns (err: Option<Error>)
      modifies this
      ensures Counters() == Run(old(Counters()), lines, parsePost, parseComment)
      ensures errorCounts == Tally(old(errorCounts), Rejections(lines, LineError(parsePost, parseComment)))
      ensures err == Prefix(scanErr, "scanner error")
    {
      var i := 0;
      while i < |lines|
        invariant 0 <= i <= |lines|
        invariant Counters() == Run(old(Counters()), lines[..i], parsePost, parseComment)
        invariant errorCounts == Tally(old(errorCounts), Rejections(lines[..i], LineError(parsePost, parseComment)))
      {
        RunStep(old(Counters()), lines, i, parsePost, parseComment);
        TallyStep(old(errorCounts), lines, i, LineError(parsePost, parseComment));
        Feed(lines[i], parsePost, parseComment);
        i := i + 1;
      }
      assert lines[..|lines|] == lines;
      err := Prefix(scanErr, "scanner error");
    }

    /** One turn of the Process loop: ProcessLine, then the tally of its error if any. */
    method Feed(line: string, parsePost: PostParser, parseComment: CommentParser)
      modifies this
      ensures Counters() == Step(old(Counters()), line, parsePost, parseComment)
      ensures errorCounts
           == if ItemError(line, parsePost, parseComment).Some?
              then Bump(old(errorCounts), ItemError(line, parsePost, parseComment).value.Message())
              else old(errorCounts)
    {
      var lineErr, _ := ProcessLine(line, parsePost, parseComment);
      if lineErr.Some? {
        errorCounts := Bump(errorCounts, lineErr.value.Message());
      }
    }

    /** The two Report lines, for posts and for comments, and the error summary. */
    method Report() returns (posts: Stats, comments: Stats, summary: Option<seq<Ranking.Entry>>)
      ensures posts == Stats(postCount, totalPostScore, Average(totalPostScore, postCount))
      ensures comments == Stats(commentCount, totalCommentScore, Average(totalCommentScore, commentCount))
      ensures summary.None? <==> |errorCounts| == 0
      ensures summary.Some? ==> Ranking.Lists(summary.value, errorCounts) && Ranking.ByCountDesc(summary.value)
    {
      posts := Stats(postCount, totalPostScore, Average(totalPostScore, postCount));
      comments := Stats(commentCount, totalCommentScore, Average(totalCommentScore, commentCount));
      summary := PrintErrorSummary();
    }

    /**
     * The lines PrintErrorSummary writes: nothing for an empty tally, otherwise every
     * message once with its count, most frequent first.
     */
    method PrintErrorSummary() returns (summary: Option<seq<Ranking.Entry>>)
      ensures summary.None? <==> |errorCounts| == 0
      ensures summary.Some? ==> Ranking.Lists(summary.value, errorCounts) && Ranking.ByCountDesc(summary.value)
    {
      if |errorCounts| == 0 {
        return None;
      }
      var entries := Ranking.SortByCount(errorCounts);
      summary := Some(entries);
    }
  }
}
