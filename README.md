# redumps core, modelled in Dafny

redumps streams Reddit dump files, one JSON record per line. Each line goes through a
per-line callback. The program keeps counters and score totals as it goes. A bad line does
not stop the run: its error message is tallied in a message-keyed map, and a summary of the
tally is printed at the end, most frequent message first. The repository ships several
versions of this pipeline:

- the Go `dumps` package:
  - the batched `Collector`;
  - the post/comment `Processor`, which sniffs each line for a `"title":` or `"body":` key;
  - the shared `BaseProcessor` fail-soft loop and the `FieldsProcessor` built on it;
  - the single-kind `SubmissionProcessor` and `CommentProcessor`;
  - the `BaseScores` accumulator;
- a stand-alone Go `main.go` with the same counting loop;
- a Rust field counter (`src/json.rs`, `src/main.rs`), which counts JSON keys across worker
  threads and merges the per-worker maps.

This project models the sequential logic that decides what the counters, tallies and
summaries end up holding, and proves what they hold.

How the model is built:

- One Dafny module per source file. The files of `dumps/` redeclare the same names, so they
  are alternative versions of the package, and each gets its own module.
  - `Records` holds the records of `dumps/data.go`.
  - The identical copies of `truncate` (`dumps/base.go:79-84`, `dumps/processor.go:112-117`,
    `dumps/submissions.go:101-106`, `main.go:61-66`) are one function, `Display.Truncate`.
- Types whose fields the source updates in place are classes with those fields, and their
  methods carry `modifies` clauses: `Collector`, `BaseProcessor`, `FieldsProcessor`,
  `Processor`, `SubmissionProcessor`, `CommentProcessor` and `BaseScores`. Every loop the
  model keeps is a `while` loop, proved against a specification function of the part already
  processed.
- Go errors are values of `Errs.Error`.
  - `fmt.Errorf("p: %w", e)` is `Wrapped(p, e)`.
  - A message built without `%w` is `Leaf(text)`.
  - `err.Error()` is `Message()`, and `errors.Unwrap` is `Unwrap()`.
  - A nil error is `None`.
- A `bufio.Scanner`, or the Rust line reader, is modelled as the sequence of lines it yields
  plus the optional error it ends with.
- JSON decoding is a function-valued parameter:
  - `json.Unmarshal` into a record is `string -> Result<Record, Error>`;
  - decoding into `map[string]any` is `string -> Result<set<string>, Error>`;
  - `sonic_rs::to_object_iter` is `string -> seq<Result<string, Error>>`.
- Printing is replaced by returned values:
  - the per-item display line (`Shown`);
  - the statistics line (`Display.Stats`);
  - the ordered error or field summary (`seq<Ranking.Entry>`);
  - the diagnostics of `main.go`.
- The Go maps are `map<string, nat>` (`Counts.CountMap`). A Go map that can still be nil when
  it is written to, or whose nil is observed, is an `Option<CountMap>`, with `None` for nil
  and `Counts.OrEmpty` for reading it: the `errorCounts` of `Collector`, which only `Collect`
  creates and which `ReportError` writes, and `FieldsProcessor.fieldCounts`, whose nil
  `Report` observes. The processors that create their `errorCounts` at the start of the only
  method that writes it keep an always-present map, since a nil Go map reads as empty.
- The unspecified order of a Go map range followed by `sort.Slice`, and of a Rust `HashMap`
  iteration followed by `sort_by`, is modelled by a selection sort. Its contract allows any
  order of ties, so it states only what every execution of the source guarantees.
- The Rust worker pool is modelled by an arbitrary assignment of lines to the three workers,
  plus a flag per worker saying whether it panicked. The Go worker pool is modelled by
  processing the batches in sequence, and separate lemmas show that the order of the batches
  does not matter.

## Model

| member | source | states |
|---|---|---|
| Errs.Prefix | errs/errs.go:8-14 | a nil error stays nil; a non-nil error gives a non-nil error whose message is the prefix, ": " and the original message, and unwrapping it gives back the original error |
| Counts.Bump | dumps/base.go:26 | `m[k]++` on a Go map: k is now present and counts one more, and every other key keeps its count |
| Counts.Merge | src/json.rs:68-70 | the merged map holds the keys of both maps, and each count is the sum of the two counts (a missing key counts 0) |
| Counts.TallyAt | dumps/base.go:23-29 | after tallying a sequence of messages, each message's count is its old count plus the number of times it occurs; a key is present iff it was present before or occurs |
| Counts.TallyOrderIndependent | dumps/collector.go:104-107 | the tally depends only on the multiset of messages, not on the order they arrive in |
| Counts.TallyAppend | dumps/base.go:23-29 | tallying two runs of messages one after the other is tallying their concatenation, so tallies carry over from call to call |
| Counts.TallyTotal | dumps/base.go:23-29 | the sum of all counts grows by exactly the number of messages tallied |
| Counts.TallyIsMerge | dumps/collector.go:115-117 | tallying a sequence of messages adds the multiset of those messages to the map |
| Counts.MergeCommutes | src/json.rs:63-71 | merging is commutative |
| Counts.MergeAssociates | src/json.rs:63-71 | merging is associative |
| Counts.MergeEmpty | src/json.rs:63 | merging into the fresh empty total map gives back the merged map |
| Counts.MergeFromBag | src/json.rs:68-70 | merging the counts of two multisets of keys counts their union |
| Counts.TotalBump | dumps/collector.go:116 | one increment raises the sum of all counts by exactly one |
| Ranking.SortByCount | dumps/base.go:55-65 | the summary lists every message of the map exactly once, each with its own count and nothing else, with counts non-increasing along the list |
| Ranking.NameLessAsymmetric | dumps/fields.go:45 | the byte-wise string order `<` is asymmetric |
| Ranking.NameLessTransitive | dumps/fields.go:45 | the byte-wise string order `<` is transitive |
| Ranking.NameLessTotal | dumps/fields.go:45 | two different strings are always ordered one way or the other |
| Ranking.PrecedesTransitive | dumps/fields.go:41-46 | the field-report comparator (count descending, then name ascending) is transitive |
| Ranking.PrecedesAsymmetric | dumps/fields.go:41-46 | the field-report comparator is asymmetric |
| Ranking.PrecedesTotal | dumps/fields.go:41-46 | entries with different names are always ordered by the field-report comparator |
| Ranking.SortByCountThenName | dumps/fields.go:30-46 | the field report lists every field exactly once with its count, and each entry strictly precedes the next: count descending, then name ascending |
| Ranking.StrictlyOrderedUnique | dumps/fields.go:41-46 | two strictly ordered lists with the same entries are equal |
| Ranking.FieldsOrderDetermined | dumps/fields.go:41-46 | any two listings of the same field map in the field-report order are identical, so the report does not depend on map iteration order |
| Collector.Collector.constructor | dumps/collector.go:14-17 | the zero Collector: a nil tally and no bytes processed |
| Collector.Collector.MakeBatches | dumps/collector.go:60-80 | the batches concatenate back to the lines in order; each batch holds 1 to 512 lines and every batch but the last is full; no lines give no batches |
| Collector.RejectionsBounded | dumps/collector.go:87-92 | every line is accepted or rejected: rejections are at most the lines, and equal them iff the callback rejects every line |
| Collector.BatchedPassIsFlatPass | dumps/collector.go:84-96 | going over the batches line by line gives the byte total and the error sequence of one flat pass over the lines |
| Collector.BatchSizeIrrelevant | dumps/collector.go:36 | two batchings of the same lines give the same byte total and the same tally, so the batch size does not matter |
| Collector.BatchOrderBytes | dumps/collector.go:84-96 | handling the batches in any order gives the same byte total |
| Collector.BatchOrderMessages | dumps/collector.go:84-107 | handling the batches in any order sends the same multiset of error messages to the collector |
| Collector.BatchOrderIrrelevant | dumps/collector.go:84-107 | handling the batches in any order gives the same byte total and the same tally |
| Collector.Collector.Collect | dumps/collector.go:21-113 | the tally is created if it is nil; the byte counter grows by the lengths of the accepted lines; the tally grows by one per rejected line under its message; earlier counts carry over; the only error returned is the scanner's, wrapped as "scanner error" |
| Collector.Collector.Work | dumps/collector.go:84-96 | the workers add the accepted bytes batch by batch and send each rejection to the error channel |
| Collector.Collector.WorkBatch | dumps/collector.go:87-93 | one batch, in order: an accepted line adds its length to the byte counter, and a rejected line's error is sent on |
| Collector.Collector.Drain | dumps/collector.go:104-107 | draining the error channel tallies every received message once |
| Collector.Collector.ReportError | dumps/collector.go:115-117 | on an existing tally, the error's message counts one more and no other count changes; the nil tally of a Collector that has not run Collect is excluded, since the write panics there |
| Collector.Collector.PrintErrorSummary | dumps/collector.go:120-139 | no summary for a nil or empty tally; otherwise every message exactly once with its count, most frequent first |
| FailSoft.RejectionsAppend | dumps/base.go:23-29 | the messages of two runs of lines are the messages of the first run followed by those of the second |
| FailSoft.RejectionsCount | dumps/base.go:23-29 | exactly one message per rejected line |
| FailSoft.Wrapping | dumps/submissions.go:29-32 | the callback rejects a line iff it does not decode; the error wraps the decode error under the prefix, so its message is the prefix, ": " and the decode message |
| FailSoft.ParsedPlusRejected | dumps/submissions.go:38-54 | every line is either decoded and counted, or tallied: decoded plus rejected lines are all the lines |
| Display.Truncate | dumps/processor.go:112-117 | a string that fits is returned unchanged; a longer one becomes its first maxLen bytes followed by "...", so it is exactly maxLen+3 bytes long |
| Display.TruncateIdempotent | dumps/processor.go:112-117 | truncating twice gives the same result as truncating once |
| Display.Average | dumps/processors.go:16-20 | a zero count gives the default average 0; otherwise the average times the count is the score sum |
| Base.BaseProcessor.constructor | dumps/base.go:11-15 | the zero BaseProcessor |
| Base.BaseProcessor.Process | dumps/base.go:18-35 | the tally grows by one per rejected line under its message and keeps earlier counts; the sum of all counts grows by the number of rejected lines; the only error returned is the scanner's, wrapped as "scanner error" |
| Base.BaseProcessor.IncrementCount | dumps/base.go:73-76 | count rises by one and scoreSum by the score; the tally is left alone |
| Base.BaseProcessor.Report | dumps/base.go:38-47 | the statistics are the count, the score sum and a guarded average; the error summary follows |
| Base.BaseProcessor.PrintErrorSummary | dumps/base.go:50-70 | no summary for an empty tally; otherwise every message exactly once with its count, most frequent first |
| Fields.AddKeys | dumps/fields.go:65-68 | every key of the object counts one more, and every other field keeps its count |
| Fields.FieldCountIsCarrying | dumps/fields.go:55-72 | after a run, each field's count is the number of decoded objects that carry it |
| Fields.CarryingBounded | dumps/fields.go:66-70 | no field is carried by more objects than were decoded |
| Fields.NoFieldsIffNothingParsed | dumps/fields.go:25-28 | there are no field counts iff no line decoded, which is when the report prints "No fields found" |
| Fields.FieldsProcessor.constructor | dumps/fields.go:12-16 | the zero FieldsProcessor: no field map, nothing counted, an empty tally; the invariant holds |
| Fields.FieldsProcessor.ProcessLine | dumps/fields.go:55-72 | a line that does not decode is rejected as "parse JSON object: …" and changes nothing; a decoded object adds one to each of its keys, creates the map if it was nil, raises count by one and leaves scoreSum; no field count ever exceeds count |
| Fields.FieldsProcessor.Process | dumps/fields.go:19-21 | the field map is the fold of all decoded objects; count rises by the number of decoded lines; rejections are tallied under "parse JSON object: …"; the only error returned is the scanner's |
| Fields.FieldsProcessor.Report | dumps/fields.go:24-52 | "No fields found" iff the field map is nil; otherwise the object count and every field exactly once, in the strict count-then-name order |
| Processor.FindFrom | dumps/processor.go:127-133 | the result is the first position, at or after the start, where the key sits unescaped with at least one byte after it; none if there is no such position |
| Processor.FirstKey | dumps/processor.go:127-141 | the first unescaped occurrence of a key within the scan bounds, or none |
| Processor.KeysNeverClash | dumps/processor.go:127-139 | a title key and a body key never start at the same position |
| Processor.ClassifyPost | dumps/processor.go:143-145 | a line is a post iff a title key is seen with no body key at or before it |
| Processor.ClassifyComment | dumps/processor.go:146-147 | a line is a comment iff a body key is seen with no title key at or before it |
| Processor.ClassifyUnknown | dumps/processor.go:148-149 | a line is unknown iff neither key is seen anywhere |
| Processor.ShortLineUnknown | dumps/processor.go:127-135 | a line shorter than 8 bytes is always unknown |
| Processor.DetectType | dumps/processor.go:120-150 | the two index scans stop at the first unescaped title and body keys, and the type is the classification; no error is ever returned |
| Processor.ProcessPost | dumps/processor.go:152-159 | a decode failure is returned as is; a decoded post gives its score and the display line for post number postCount with the post's title and score |
| Processor.ProcessComment | dumps/processor.go:161-169 | a decode failure is returned as is; a decoded comment gives its score and the display line for comment number commentCount with the author, the body truncated to 50 bytes (at most 53 with the ellipsis) and the score |
| Processor.StepCountsOnlySuccess | dumps/processor.go:21-49 | a rejected line leaves every counter unchanged; an accepted line adds one to exactly one of the post and comment counts and leaves the other kind's score alone |
| Processor.RunConservation | dumps/processor.go:51-62 | over a run, new posts plus new comments plus rejections are the number of lines |
| Processor.ShortLineRejected | dumps/processor.go:44-45 | a line shorter than 8 bytes is rejected with "unknown item type: " followed by the line |
| Processor.Processor.constructor | dumps/processor.go:12-19 | the zero Processor |
| Processor.Processor.ProcessLine | dumps/processor.go:21-49 | the error is "process post: …", "process comment: …" or "unknown item type: <line>"; the counters change only on success, by one item and its score of the detected kind; a display line is produced iff there is no error, numbered with the new count; that line is the one ProcessPost or ProcessComment builds for the line under its number |
| Processor.Processor.Process | dumps/processor.go:51-67 | the counters are the per-line fold over all lines; each rejection is tallied once under its message; earlier counts carry over; the only error returned is the scanner's, wrapped as "scanner error" |
| Processor.Processor.Report | dumps/processor.go:69-85 | post and comment statistics with guarded averages, then the error summary |
| Processor.Processor.PrintErrorSummary | dumps/processor.go:87-107 | no summary for an empty tally; otherwise every message exactly once with its count, most frequent first |
| Submissions.ProcessSubmission | dumps/submissions.go:89-96 | a decode failure is returned as is; a decoded submission gives its score and the display line with its number, title and score |
| Submissions.SubmissionProcessor.constructor | dumps/submissions.go:22-26 | the zero SubmissionProcessor |
| Submissions.SubmissionProcessor.ProcessLine | dumps/submissions.go:28-36 | a failure is "process submission: …" and leaves the counters; a success adds one and the score; a display line is produced iff there is no error, numbered with the new count; that line is the one ProcessSubmission builds for the line under its number |
| Submissions.SubmissionProcessor.Process | dumps/submissions.go:38-54 | count rises by the decoded lines and scoreSum by their scores; each rejection is tallied once; the only error returned is the scanner's |
| Submissions.SubmissionProcessor.Report | dumps/submissions.go:56-65 | the statistics with a guarded average, then the error summary |
| Submissions.SubmissionProcessor.PrintErrorSummary | dumps/submissions.go:67-87 | no summary for an empty tally; otherwise every message exactly once with its count, most frequent first |
| Comments.ProcessComment | dumps/comments.go:124-132 | a decode failure is returned as is; a decoded comment gives its score and the display line with its number, author, a 50-byte preview of the body and its score |
| Comments.CommentProcessor.constructor | dumps/comments.go:56-60 | the zero CommentProcessor |
| Comments.CommentProcessor.ProcessLine | dumps/comments.go:62-70 | a failure is "process comment: …" and leaves the counters; a success adds one and the score; a display line is produced iff there is no error, numbered with the new count; that line is the one ProcessComment builds for the line under its number |
| Comments.CommentProcessor.Process | dumps/comments.go:72-89 | count rises by the decoded lines and scoreSum by their scores; each rejection is tallied once; the only error returned is the scanner's |
| Comments.CommentProcessor.Report | dumps/comments.go:91-100 | the statistics with a guarded average, then the error summary |
| Comments.CommentProcessor.PrintErrorSummary | dumps/comments.go:102-122 | no summary for an empty tally; otherwise every message exactly once with its count, most frequent first |
| Scores.BaseScores.constructor | dumps/processors.go:5-8 | the zero BaseScores, which has seen no scores |
| Scores.BaseScores.Process | dumps/processors.go:10-13 | count rises by one and scores by the score, so count is the number of calls and scores the sum of the scores passed |
| Scores.BaseScores.Report | dumps/processors.go:16-24 | the statistics with the zero-count guard on the average |
| Json.ErrorsSkipped | src/json.rs:15 | an error item of the object iterator yields no key |
| Json.CountFields | src/json.rs:13-25 | each key the iterator yields counts one more (inserted at 1 when new); error items and other keys change nothing |
| Json.MergeInto | src/json.rs:68-70 | the total becomes the key-wise sum of the total and the worker's map |
| Json.MergeAllAt | src/json.rs:63-71 | each key's merged count is the sum of its counts across the worker maps, and a key is present iff some worker map has it |
| Json.MergeAllRemove | src/json.rs:64-71 | merging all maps is merging all the others, then the one taken out |
| Json.MergeAllPermutation | src/json.rs:64-71 | the merged result does not depend on the order the worker maps are joined in |
| Json.MergeAllUpdate | src/json.rs:44-47 | a worker adding one line's keys to its own map adds them to the merged total |
| Json.RunWorkers | src/json.rs:38-52 | however the lines are shared among the three workers, their maps merge to the count of every key of every line |
| Json.ReadLines | src/json.rs:55-59 | the byte total is the sum of the lengths of all lines read, whether or not they decode |
| Json.JoinWorkers | src/json.rs:63-71 | a panicked worker turns the result into the "Worker thread panicked" error instead of partial counts; otherwise it is the merge of all worker maps |
| Json.CountFieldsFromReader | src/json.rs:32-77 | a read error is returned as is; a panic gives the panic error; otherwise the result is each key's count over every line, with the byte total of every line |
| RustMain.PrintSortedCounts | src/main.rs:44-51 | every (field, count) pair appears exactly once, counts are non-increasing, and the length is the number of distinct fields |
| GoMain.DetectType | main.go:69-87 | a decode failure is returned as is; otherwise post iff a title field is present, comment iff only a body field is, and unknown iff neither is |
| GoMain.SkippedLinesChangeNothing | main.go:128-156 | a line that produces a diagnostic changes no counter; any other line adds one post or one comment with its score |
| GoMain.RunConservation | main.go:128-157 | new posts plus new comments plus diagnostics are the number of lines |
| GoMain.ScanDump | main.go:121-162 | the counters are the per-line fold from zero; the diagnostics are one per skipped line, in order, with the source's wording; a scanner error gives "Error reading input: …" and nothing else does |

## Left out

- Goroutines, channels, the `WaitGroup` and the worker count (`dumps/collector.go:39-102`), and the Rust threads and channel (`src/json.rs:33-52`): the stages run in sequence, and the lemmas on batch order and worker assignment stand in for the scheduling.
- The unsynchronised `BytesProcessed +=` (`dumps/collector.go:91`) is a data race; only the intended sequential sum is modelled.
- JSON decoding (`json.Unmarshal`, `sonic_rs::to_object_iter`) is foreign code; it is a parameter of the model.
- The `created_utc` normalisation in `UnmarshalJSON` (`dumps/data.go:29-56`, `dumps/comments.go:24-51`, `main.go:32-59`) depends on JSON internals and float formatting; it is part of the abstract decoder.
- Display.Average: the averages are exact reals, not `float64`, and the `%.2f` formatting is left out.
- The MiB conversion, throughput and elapsed-time lines (`src/main.rs:25-36`, `main.go:121`, `main.go:179-180`) and `Processor.startTime` depend on the clock and on floats.
- Files, stdin, zstd decoding, command-line parsing and `os.Exit` are left out, and so are the line reading of `src/io.rs` and the helpers of `conv/bytes.go`, `src/conv.rs` and `src/utils.rs`.
- Printing is left out: each printed line is a returned value.
- Integer widths are left out: `int`, `int64` and `usize` are unbounded, with no wrap-around.
- Strings are one `char` per byte. The line lengths of `src/json.rs:57` come from the line reader; `src/io.rs` defines `readlines` (`src/io.rs:7-23`), which passes each line as `read_line` fills it, newline included, while `src/json.rs:56` calls a `foreach_line` that `src/io.rs` does not define. Here a line is whatever string the reader yields, terminator included if it has one.
- Processor.Processor.ProcessLine: the "detect type: " wrapping (`dumps/processor.go:22-25`) is unreachable, because `detectType` never returns an error, so it is not modelled.
- Json.CountFieldsFromReader: `send` never fails, because the main thread keeps its own `receiver` (`src/json.rs:34`) and only clones go to the workers, so the `?` early exit of `src/json.rs:59` is not modelled. If every worker panics while more than 32 lines remain to be sent, the bounded channel fills and the source blocks forever on `send` (`src/json.rs:58`); the model returns the panic error instead, because it does not model blocking.
- Base.BaseProcessor.Process: the callback is a pure function of the line, so the method's frame leaves `count` and `scoreSum` unchanged; the only caller, `dumps/fields.go:20`, passes `processLine`, which updates the processor as it goes. Fields.FieldsProcessor.Process therefore runs the same loop itself, over its own state, instead of calling Base.BaseProcessor.Process.
- Json.JoinWorkers: the panic payload is formatted with `{:?}` of a `Box<dyn Any>`, which prints `Any { .. }`, so the message is a constant.
- `FieldsProcessor.totalObjects` is never updated or read; it stays at its zero value.
- The embedded `BaseProcessor` of `FieldsProcessor` is a reference to a separate object (`base`), not an embedded struct.
