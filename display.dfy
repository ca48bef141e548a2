/** What the processors print, as values: truncated previews and score averages. */
module Display {
  /**
   * truncate(s, maxLen): s itself when it fits, otherwise its first maxLen bytes followed
   * by "...". A negative maxLen makes the Go slice expression panic, hence nat.
   */
  function Truncate(s: string, maxLen: nat): (r: string)
    ensures |s| <= maxLen ==> r == s
    ensures |s| > maxLen ==> |r| == maxLen + 3 && r[..maxLen] == s[..maxLen] && r[maxLen..] == "..."
    ensures |r| <= maxLen + 3
  {
    if |s| <= maxLen then s else s[..maxLen] + "..."
  }

  lemma TruncateIdempotent(s: string, maxLen: nat)
    ensures Truncate(Truncate(s, maxLen), maxLen) == Truncate(s, maxLen)
  {
  }

  /** The figures a Report line prints: the item count, the score total and the mean score. */
  datatype Stats = Stats(count: int, scoreSum: int, average: real)

  /**
   * The average a Report prints: it stays 0 unless something was counted, and is then the
   * exact mean. Go computes it in float64.
   */
  function Average(scoreSum: int, count: int): (avg: real)
    ensures count <= 0 ==> avg == 0.0
    ensures count > 0 ==> avg * count as real == scoreSum as real
  {
    if count > 0 then scoreSum as real / count as real else 0.0
  }
}
