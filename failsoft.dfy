/**
 * The fail-soft scanning loop every processor in dumps/ repeats: each line goes to a
 * callback, a callback error adds one to the tally of its message, and scanning goes on.
 * These are the specification functions of those loops and the facts they share.
 */
module FailSoft {
  import opened Wrappers
  import opened Errs
  import opened Counts

  /** A per-line callback; None is a nil error. */
  type LineCallback = string -> Option<Error>

  /** The messages of the callback's errors, in line order. */
  function Rejections(lines: seq<string>, callback: LineCallback): seq<string>
  {
    if lines == [] then []
    else
      var last := lines[|lines| - 1];
      Rejections(lines[..|lines| - 1], callback) + (if callback(last).Some? then [callback(last).value.Message()] else [])
  }

  /** A rejection never ends the loop: the lines after it are still looked at and tallied. */
  lemma {:induction false} RejectionsAppend(a: seq<string>, b: seq<string>, callback: LineCallback)
    ensures Rejections(a + b, callback) == Rejections(a, callback) + Rejections(b, callback)
  {
    if b == [] {
      assert a + b == a;
    } else {
      assert (a + b)[..|a + b| - 1] == a + b[..|b| - 1];
      RejectionsAppend(a, b[..|b| - 1], callback);
    }
  }

  /** The positions of the rejected lines. */
  ghost function RejectedAt(lines: seq<string>, callback: LineCallback): set<nat>
  {
    set i: nat | i < |lines| && callback(lines[i]).Some?
  }

  lemma RejectedAtSnoc(lines: seq<string>, callback: LineCallback)
    requires lines != []
    ensures var n := |lines| - 1;
      RejectedAt(lines, callback) == RejectedAt(lines[..n], callback) + (if callback(lines[n]).Some? then {n} else {})
  {
    var n := |lines| - 1;
    forall i: nat | i < n ensures lines[..n][i] == lines[i] { }
  }

  /** One tally entry per rejected line: accepted lines add nothing. */
  lemma {:induction false} RejectionsCount(lines: seq<string>, callback: LineCallback)
    ensures |Rejections(lines, callback)| == |RejectedAt(lines, callback)|
  {
    if lines != [] {
      var n := |lines| - 1;
      RejectionsCount(lines[..n], callback);
      RejectedAtSnoc(lines, callback);
      assert n !in RejectedAt(lines[..n], callback);
    }
  }

  /** One more line extends the tally by that line's rejection, if any. */
  lemma TallyStep(m: CountMap, lines: seq<string>, i: nat, callback: LineCallback)
    requires i < |lines|
    ensures Tally(m, Rejections(lines[..i + 1], callback))
         == if callback(lines[i]).Some?
            then Bump(Tally(m, Rejections(lines[..i], callback)), callback(lines[i]).value.Message())
            else Tally(m, Rejections(lines[..i], callback))
  {
    assert lines[..i + 1][..i] == lines[..i];
    var done := Rejections(lines[..i], callback);
    if callback(lines[i]).Some? {
      assert (done + [callback(lines[i]).value.Message()])[..|done|] == done;
    } else {
      assert done + [] == done;
    }
  }

  /** A decoder used as a callback: its error, wrapped as "prefix: ...", or nil. */
  function Wrapping<T>(parse: string -> Result<T, Error>, prefix: string): (callback: LineCallback)
    ensures forall line :: callback(line).Some? <==> parse(line).Failure?
    ensures forall line :: parse(line).Failure? ==> callback(line) == Some(Wrapped(prefix, parse(line).error))
    ensures forall line :: parse(line).Failure? ==>
      callback(line).value.Message() == prefix + ": " + parse(line).error.Message()
      && callback(line).value.Unwrap() == Some(parse(line).error)
  {
    line => if parse(line).Failure? then Prefix(Some(parse(line).error), prefix) else None
  }

  /** The number of lines that decode. */
  function Parsed<T>(lines: seq<string>, parse: string -> Result<T, Error>): nat
  {
    if lines == [] then 0
    else Parsed(lines[..|lines| - 1], parse) + (if parse(lines[|lines| - 1]).Success? then 1 else 0)
  }

  /** The scores of the lines that decode, added up. */
  function Scored<T>(lines: seq<string>, parse: string -> Result<T, Error>, score: T -> int): int
  {
    if lines == [] then 0
    else
      var last := parse(lines[|lines| - 1]);
      Scored(lines[..|lines| - 1], parse, score) + (if last.Success? then score(last.value) else 0)
  }

  lemma ParsedStep<T>(lines: seq<string>, i: nat, parse: string -> Result<T, Error>)
    requires i < |lines|
    ensures Parsed(lines[..i + 1], parse) == Parsed(lines[..i], parse) + (if parse(lines[i]).Success? then 1 else 0)
  {
    assert lines[..i + 1][..i] == lines[..i];
  }

  lemma ScoredStep<T>(lines: seq<string>, i: nat, parse: string -> Result<T, Error>, score: T -> int)
    requires i < |lines|
    ensures Scored(lines[..i + 1], parse, score)
         == Scored(lines[..i], parse, score) + (if parse(lines[i]).Success? then score(parse(lines[i]).value) else 0)
  {
    assert lines[..i + 1][..i] == lines[..i];
  }

  /** Every line is either counted or tallied, never both and never neither. */
  lemma {:induction false} ParsedPlusRejected<T>(lines: seq<string>, parse: string -> Result<T, Error>, prefix: string)
    ensures Parsed(lines, parse) + |Rejections(lines, Wrapping(parse, prefix))| == |lines|
  {
    if lines != [] {
      ParsedPlusRejected(lines[..|lines| - 1], parse, prefix);
    }
  }
}
