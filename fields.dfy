/**
 * dumps/fields.go: counts, over every line that decodes as a JSON object, how many objects
 * carry each top-level key, on top of the shared processor core.
 */
module Fields {
  import opened Wrappers
  import opened Errs
  import opened Counts
  import opened Ranking
  import opened FailSoft
  import opened Base

  /**
   * The JSON decoder: the set of top-level keys of the object a line holds, or the decode
   * error. A JSON `null` decodes to an object with no keys.
   */
  type ObjectParser = string -> Result<set<string>, Error>

  /** What Report prints: "No fields found", or the ranked field counts and the object count. */
  datatype FieldsReport = NoFields | FieldCounts(objects: int, stats: seq<Entry>)

  /** processLine's error for a line that does not decode, as the callback of the shared loop. */
  function LineError(parse: ObjectParser): LineCallback
  {
    Wrapping(parse, "parse JSON object")
  }

  /** Every key of one object counted once more. */
  function AddKeys(m: CountMap, keys: set<string>): (r: CountMap)
    ensures r.Keys == m.Keys + keys
    ensures forall f :: Get(r, f) == Get(m, f) + (if f in keys then 1 else 0)
  {
    map f | f in m.Keys + keys :: Get(m, f) + (if f in keys then 1 else 0)
  }

  lemma AddKeysStep(m: CountMap, done: set<string>, f: string)
    requires f !in done
    ensures AddKeys(m, done + {f}) == Bump(AddKeys(m, done), f)
  {
    Extensionality(AddKeys(m, done + {f}), Bump(AddKeys(m, done), f));
  }

  /** The field counts after the lines, from `fc`: only objects that decode count. */
  function FoldFields(fc: Option<CountMap>, lines: seq<string>, parse: ObjectParser): Option<CountMap>
  {
    if lines == [] then fc
    else
      var prev := FoldFields(fc, lines[..|lines| - 1], parse);
      match parse(lines[|lines| - 1])
      case Success(keys) => Some(AddKeys(OrEmpty(prev), keys))
      case Failure(_) => prev
  }

  /** The number of decoded objects that carry the key f. */
  function Carrying(lines: seq<string>, parse: ObjectParser, f: string): nat
  {
    if lines == [] then 0
    else
      var last := parse(lines[|lines| - 1]);
      Carrying(lines[..|lines| - 1], parse, f) + (if last.Success? && f in last.value then 1 else 0)
  }

  /** A field's count is the number of decoded objects that have it. */
  lemma {:induction false} FieldCountIsCarrying(lines: seq<string>, parse: ObjectParser, f: string)
    ensures Get(OrEmpty(FoldFields(None, lines, parse)), f) == Carrying(lines, parse, f)
  {
    if lines != [] {
      FieldCountIsCarrying(lines[..|lines| - 1], parse, f);
    }
  }

  /** No field is counted more often than there are decoded objects. */
  lemma {:induction false} CarryingBounded(lines: seq<string>, parse: ObjectParser, f: string)
    ensures Carrying(lines, parse, f) <= Parsed(lines, parse)
  {
    if lines != [] {
      CarryingBounded(lines[..|lines| - 1], parse, f);
    }
  }

  /** The field map stays nil exactly as long as no line has decoded. */
  lemma {:induction false} NoFieldsIffNothingParsed(lines: seq<string>, parse: ObjectParser)
    ensures FoldFields(None, lines, parse).None? <==> Parsed(lines, parse) == 0
  {
    if lines != [] {
      NoFieldsIffNothingParsed(lines[..|lines| - 1], parse);
    }
  }

  lemma FoldStep(fc: Option<CountMap>, lines: seq<string>, i: nat, parse: ObjectParser)
    requires i < |lines|
    ensures FoldFields(fc, lines[..i + 1], parse)
         == if parse(lines[i]).Success?
            then Some(AddKeys(OrEmpty(FoldFields(fc, lines[..i], parse)), parse(lines[i]).value))
            else FoldFields(fc, lines[..i], parse)
  {
    assert lines[..i + 1][..i] == lines[..i];
  }

  class FieldsProcessor {
    /** The embedded BaseProcessor. */
    const base: BaseProcessor
    /** nil until the first object decodes. */
    var fieldCounts: Option<CountMap>
    /** Declared but never updated or read. */
    var totalObjects: int

    /**
     * The field map exists exactly when an object was counted, and no field outnumbers the
     * objects.
     */
    ghost predicate Valid()
      reads this, base
    {
      && base.count >= 0
      && (fieldCounts.None? <==> base.count == 0)
      && (fieldCounts.Some? ==> forall f :: f in fieldCounts.value ==> fieldCounts.value[f] <= base.count)
    }

    constructor ()
      ensures Valid() && fresh(base)
      ensures fieldCounts == None && totalObjects == 0
      ensures base.count == 0 && base.scoreSum == 0 && base.errorCounts == map[]
    {
      base := new BaseProcessor();
      fieldCounts := None;
      totalObjects := 0;
    }

    /**
     * processLine: a line that does not decode is returned as "parse JSON object: ..." and
     * changes nothing; an object adds one to each of its keys and one to the object count,
     * with score 0.
     */
    method ProcessLine(line: string, parse: ObjectParser) returns (err: Option<Error>)
      requires Valid()
      modifies this`fieldCounts, base`count, base`scoreSum
      ensures Valid()
      ensures err == LineError(parse)(line)
      ensures parse(line).Failure? ==> fieldCounts == old(fieldCounts) && base.count == old(base.count)
      ensures parse(line).Success? ==> fieldCounts == Some(AddKeys(OrEmpty(old(fieldCounts)), parse(line).value))
      ensures parse(line).Success? ==> base.count == old(base.count) + 1
      ensures base.scoreSum == old(base.scoreSum)
    {
      var obj := parse(line);
      if obj.Failure? {
        return Prefix(Some(obj.error), "parse JSON object");
      }
      if fieldCounts.None? {
        fieldCounts := Some(map[]);
      }
      ghost var start := fieldCounts.value;
      var rest := obj.value;
      Extensionality(AddKeys(start, {}), start);
      assert obj.value - rest == {};
      while rest != {}
        invariant rest <= obj.value
        invariant fieldCounts == Some(AddKeys(start, obj.value - rest))
        invariant base.count == old(base.count) && base.scoreSum == old(base.scoreSum)
        decreases rest
      {
        var f :| f in rest;
        AddKeysStep(start, obj.value - rest, f);
        assert obj.value - (rest - {f}) == (obj.value - rest) + {f};
        fieldCounts := Some(Bump(fieldCounts.value, f));
        rest := rest - {f};
      }
      assert obj.value - rest == obj.value;
      base.IncrementCount(0);
      err := None;
    }

    /**
     * Process(scanner): the shared loop with processLine as the callback. The field counts
     * and the object count grow by the decoded lines, every undecodable line is tallied under
     * its message, and only the scanner's own error is returned.
     */
    method Process(lines: seq<string>, scanErr: Option<Error>, parse: ObjectParser) returns (err: Option<Error>)
      requires Valid()
      modifies this`fieldCounts, base`count, base`scoreSum, base`errorCounts
      ensures Valid()
      ensures fieldCounts == FoldFields(old(fieldCounts), lines, parse)
      ensures base.count == old(base.count) + Parsed(lines, parse)
      ensures base.scoreSum == old(base.scoreSum)
      ensures base.errorCounts == Tally(old(base.errorCounts), Rejections(lines, LineError(parse)))
      ensures err == Prefix(scanErr, "scanner error")
    {
      var i := 0;
      while i < |lines|
        invariant 0 <= i <= |lines|
        invariant Valid()
        invariant fieldCounts == FoldFields(old(fieldCounts), lines[..i], parse)
        invariant base.count == old(base.count) + Parsed(lines[..i], parse)
        invariant base.scoreSum == old(base.scoreSum)
        invariant base.errorCounts == Tally(old(base.errorCounts), Rejections(lines[..i], LineError(parse)))
      {
        FoldStep(old(fieldCounts), lines, i, parse);
        ParsedStep(lines, i, parse);
        TallyStep(old(base.errorCounts), lines, i, LineError(parse));
        Feed(lines[i], parse);
        i := i + 1;
      }
      assert lines[..|lines|] == lines;
      err := Prefix(scanErr, "scanner error");
    }

    /** One turn of the shared loop: processLine, then the tally of its error if any. */
    method Feed(line: string, parse: ObjectParser)
      requires Valid()
      modifies this`fieldCounts, base`count, base`scoreSum, base`errorCounts
      ensures Valid()
      ensures parse(line).Failure? ==> fieldCounts == old(fieldCounts) && base.count == old(base.count)
      ensures parse(line).Success? ==> fieldCounts == Some(AddKeys(OrEmpty(old(fieldCounts)), parse(line).value))
      ensures parse(line).Success? ==> base.count == old(base.count) + 1
      ensures base.scoreSum == old(base.scoreSum)
      ensures base.errorCounts
           == if LineError(parse)(line).Some?
              then Bump(old(base.errorCounts), LineError(parse)(line).value.Message())
              else old(base.errorCounts)
    {
      var result := ProcessLine(line, parse);
      if result.Some? {
        base.errorCounts := Bump(base.errorCounts, result.value.Message());
      }
    }

    /**
     * Report: "No fields found" while the map is nil, otherwise every field once with its
     * count, by count descending and then by name, under the object count.
     */
    method Report() returns (report: FieldsReport)
      ensures report.NoFields? <==> fieldCounts.None?
      ensures fieldCounts.Some? ==> report.objects == base.count
      ensures fieldCounts.Some? ==> Lists(report.stats, fieldCounts.value) && StrictlyOrdered(report.stats)
    {
      if fieldCounts.None? {
        return NoFields;
      }
      var stats := SortByCountThenName(fieldCounts.value);
      report := FieldCounts(base.count, stats);
    }
  }
}
