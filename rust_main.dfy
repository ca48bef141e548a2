/** src/main.rs: the field-count listing printed after a run. */
module RustMain {
  import opened Counts
  import opened Ranking

  /**
   * print_sorted_counts: every (field, count) pair of the map exactly once, unchanged, with
   * counts non-increasing. The map's iteration order is unspecified, so ties may come out in
   * any order even though the sort itself is stable.
   */
  method PrintSortedCounts(counts: CountMap) returns (entries: seq<Entry>)
    ensures Lists(entries, counts)
    ensures ByCountDesc(entries)
    ensures |entries| == |counts|
  {
    entries := SortByCount(counts);
  }
}
