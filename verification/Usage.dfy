/** The usage a summary call reports and how the usages of several calls are merged. */
module Usage {
  import opened Wrappers
  import opened Words

  datatype TokenUsage = TokenUsage(
    inputTokens: Option<uint64>, outputTokens: Option<uint64>, reasoningTokens: Option<uint64>,
    cacheReadTokens: Option<uint64>, cacheWriteTokens: Option<uint64>, totalTokens: Option<uint64>)

  datatype Metadata = Metadata(
    decodeDurationMs: Option<uint64>, responseId: Option<string>, model: Option<string>)

  datatype StopReason = Completed | ToolUse | MaxOutputTokens | ContentFilter | CancelledStop | Other(reason: string)

  datatype SummaryUsage = SummaryUsage(
    metadata: Metadata, usage: TokenUsage, stopReason: StopReason, elapsedMillis: uint64)

  /** The counters of a token usage. */
  datatype Counter = Input | Output | Reasoning | CacheRead | CacheWrite | Whole

  function Count(usage: TokenUsage, counter: Counter): Option<uint64> {
    match counter
    case Input => usage.inputTokens
    case Output => usage.outputTokens
    case Reasoning => usage.reasoningTokens
    case CacheRead => usage.cacheReadTokens
    case CacheWrite => usage.cacheWriteTokens
    case Whole => usage.totalTokens
  }

  /** `sum_reported`: a sum is known only when both parts are. */
  function SumReported(first: Option<uint64>, second: Option<uint64>): Option<uint64> {
    if first.Some? && second.Some? then Some(SatAdd(first.value, second.value)) else None
  }

  function MergeTokenUsage(first: TokenUsage, second: TokenUsage): TokenUsage {
    TokenUsage(
      SumReported(first.inputTokens, second.inputTokens),
      SumReported(first.outputTokens, second.outputTokens),
      SumReported(first.reasoningTokens, second.reasoningTokens),
      SumReported(first.cacheReadTokens, second.cacheReadTokens),
      SumReported(first.cacheWriteTokens, second.cacheWriteTokens),
      SumReported(first.totalTokens, second.totalTokens))
  }

  function Or<T>(first: Option<T>, second: Option<T>): Option<T> {
    if first.Some? then first else second
  }

  /** `merge_summary_usage`. */
  function Merge(first: Option<SummaryUsage>, second: Option<SummaryUsage>): Option<SummaryUsage> {
    if first.None? then second
    else if second.None? then first
    else
      var a, b := first.value, second.value;
      Some(SummaryUsage(
        Metadata(None, Or(b.metadata.responseId, a.metadata.responseId), Or(b.metadata.model, a.metadata.model)),
        MergeTokenUsage(a.usage, b.usage),
        b.stopReason,
        SatAdd(a.elapsedMillis, b.elapsedMillis)))
  }

  /** The usages of a sequence of calls, merged in the order of the calls. */
  function MergeAll(usages: seq<Option<SummaryUsage>>): Option<SummaryUsage> {
    if usages == [] then None
    else Merge(MergeAll(usages[..|usages| - 1]), usages[|usages| - 1])
  }

  /** The mutable accumulator one logical compaction reports its usage from. */
  class SummaryUsageAccumulator {
    var usage: Option<SummaryUsage>
    ghost var pushed: seq<Option<SummaryUsage>>

    ghost predicate Valid()
      reads this
    {
      usage == MergeAll(pushed)
    }

    constructor ()
      ensures Valid() && pushed == [] && usage == None
    {
      usage := None;
      pushed := [];
    }

    method Push(callUsage: Option<SummaryUsage>)
      requires Valid()
      modifies this
      ensures Valid() && pushed == old(pushed) + [callUsage]
      ensures usage == Merge(old(usage), callUsage)
    {
      MergeAllNext(pushed, callUsage);
      usage := Merge(usage, callUsage);
      pushed := pushed + [callUsage];
    }
  }

  lemma MergeAllNext(usages: seq<Option<SummaryUsage>>, next: Option<SummaryUsage>)
    ensures MergeAll(usages + [next]) == Merge(MergeAll(usages), next)
  {
    assert (usages + [next])[..|usages|] == usages;
  }

  lemma SumReportedAssociative(a: Option<uint64>, b: Option<uint64>, c: Option<uint64>)
    ensures SumReported(SumReported(a, b), c) == SumReported(a, SumReported(b, c))
  {
  }

  lemma MergeTokenUsageAssociative(a: TokenUsage, b: TokenUsage, c: TokenUsage)
    ensures MergeTokenUsage(MergeTokenUsage(a, b), c) == MergeTokenUsage(a, MergeTokenUsage(b, c))
  {
    SumReportedAssociative(a.inputTokens, b.inputTokens, c.inputTokens);
    SumReportedAssociative(a.outputTokens, b.outputTokens, c.outputTokens);
    SumReportedAssociative(a.reasoningTokens, b.reasoningTokens, c.reasoningTokens);
    SumReportedAssociative(a.cacheReadTokens, b.cacheReadTokens, c.cacheReadTokens);
    SumReportedAssociative(a.cacheWriteTokens, b.cacheWriteTokens, c.cacheWriteTokens);
    SumReportedAssociative(a.totalTokens, b.totalTokens, c.totalTokens);
  }

  lemma MergeAssociative(a: Option<SummaryUsage>, b: Option<SummaryUsage>, c: Option<SummaryUsage>)
    ensures Merge(Merge(a, b), c) == Merge(a, Merge(b, c))
  {
    if a.Some? && b.Some? && c.Some? {
      MergeTokenUsageAssociative(a.value.usage, b.value.usage, c.value.usage);
    }
  }

  /** Merging a run of calls in two parts and then the parts gives the same as merging them all. */
  lemma {:induction false} MergeAllConcat(a: seq<Option<SummaryUsage>>, b: seq<Option<SummaryUsage>>)
    ensures MergeAll(a + b) == Merge(MergeAll(a), MergeAll(b))
  {
    if b == [] {
      assert a + b == a;
    } else {
      var head, last := b[..|b| - 1], b[|b| - 1];
      assert a + b == (a + head) + [last];
      MergeAllNext(a + head, last);
      MergeAllConcat(a, head);
      MergeAssociative(MergeAll(a), MergeAll(head), last);
    }
  }

  /** The calls that reported a usage at all. */
  function Reports(usages: seq<Option<SummaryUsage>>): seq<SummaryUsage> {
    if usages == [] then []
    else Reports(usages[..|usages| - 1])
         + (match usages[|usages| - 1] case Some(usage) => [usage] case None => [])
  }

  function Known(usages: seq<SummaryUsage>, counter: Counter): nat {
    if usages == [] then 0
    else Known(usages[..|usages| - 1], counter)
         + (match Count(usages[|usages| - 1].usage, counter) case Some(n) => n case None => 0)
  }

  /** The counter of a merged usage, where an absent usage contributes nothing. */
  function MergedCount(usage: Option<SummaryUsage>, counter: Counter): Option<uint64> {
    if usage.None? then Some(0) else Count(usage.value.usage, counter)
  }

  lemma MergeCounts(a: Option<SummaryUsage>, b: SummaryUsage, counter: Counter)
    ensures MergedCount(Merge(a, Some(b)), counter)
         == SumReported(MergedCount(a, counter), Count(b.usage, counter))
  {
  }

  /** The last known value of some reports. */
  ghost predicate IsLatest<T>(known: seq<Option<T>>, value: Option<T>) {
    match value
    case None => forall k | 0 <= k < |known| :: known[k].None?
    case Some(_) =>
      exists k | 0 <= k < |known| :: known[k] == value && forall j | k < j < |known| :: known[j].None?
  }

  lemma LatestNext<T>(known: seq<Option<T>>, value: Option<T>, next: Option<T>)
    requires IsLatest(known, value)
    ensures IsLatest(known + [next], Or(next, value))
  {
    var more := known + [next];
    if next.Some? {
      assert more[|known|] == next;
    } else if value.Some? {
      var k :| 0 <= k < |known| && known[k] == value && forall j | k < j < |known| :: known[j].None?;
      assert more[k] == value;
    }
  }

  function Elapsed(usages: seq<SummaryUsage>): nat {
    if usages == [] then 0 else Elapsed(usages[..|usages| - 1]) + usages[|usages| - 1].elapsedMillis
  }

  function Ids(usages: seq<SummaryUsage>): (ids: seq<Option<string>>)
    ensures |ids| == |usages|
  {
    seq(|usages|, i requires 0 <= i < |usages| => usages[i].metadata.responseId)
  }

  function Models(usages: seq<SummaryUsage>): (models: seq<Option<string>>)
    ensures |models| == |usages|
  {
    seq(|usages|, i requires 0 <= i < |usages| => usages[i].metadata.model)
  }

  /**
    Besides the counters a merged usage has the stop reason of the last report, the last response and
    model that any report states, and the time of all; the duration of a single answer is kept only
    where there is one report.
   */
  lemma {:induction false} MergedDetails(usages: seq<Option<SummaryUsage>>)
    requires Reports(usages) != []
    ensures var reports := Reports(usages);
      MergeAll(usages).Some?
      && var merged := MergeAll(usages).value;
         merged.stopReason == reports[|reports| - 1].stopReason
         && merged.elapsedMillis == Saturate(Elapsed(reports))
         && IsLatest(Ids(reports), merged.metadata.responseId)
         && IsLatest(Models(reports), merged.metadata.model)
         && merged.metadata.decodeDurationMs
            == if |reports| == 1 then reports[0].metadata.decodeDurationMs else None
  {
    var head, last := usages[..|usages| - 1], usages[|usages| - 1];
    if last.None? {
      assert Reports(head) + [] == Reports(head);
      MergedDetails(head);
    } else if Reports(head) == [] {
      MergedCounter(head, Input);
      assert Reports(usages) == [last.value] && Reports(usages)[..0] == [];
      assert Ids([last.value])[0] == last.value.metadata.responseId;
      assert Models([last.value])[0] == last.value.metadata.model;
    } else {
      MergedDetails(head);
      var merged := MergeAll(head).value;
      assert Reports(usages) == Reports(head) + [last.value] && Reports(usages)[..|Reports(head)|] == Reports(head);
      LatestNext(Ids(Reports(head)), merged.metadata.responseId, last.value.metadata.responseId);
      LatestNext(Models(Reports(head)), merged.metadata.model, last.value.metadata.model);
      assert Ids(Reports(usages)) == Ids(Reports(head)) + [last.value.metadata.responseId];
      assert Models(Reports(usages)) == Models(Reports(head)) + [last.value.metadata.model];
    }
  }

  ghost predicate AllKnown(usages: seq<SummaryUsage>, counter: Counter) {
    forall usage | usage in usages :: Count(usage.usage, counter).Some?
  }

  lemma KnownNext(usages: seq<SummaryUsage>, last: SummaryUsage, counter: Counter)
    ensures AllKnown(usages + [last], counter) <==>
      AllKnown(usages, counter) && Count(last.usage, counter).Some?
    ensures Count(last.usage, counter).Some? ==>
      Known(usages + [last], counter) == Known(usages, counter) + Count(last.usage, counter).value
  {
    assert (usages + [last])[..|usages|] == usages;
    if AllKnown(usages + [last], counter) {
      assert last in usages + [last];
    }
  }

  /**
    No count is invented and none is lost: a merged counter is known exactly when every report
    states it, and then it is their sum.
   */
  lemma {:induction false} MergedCounter(usages: seq<Option<SummaryUsage>>, counter: Counter)
    ensures MergeAll(usages).None? <==> Reports(usages) == []
    ensures MergedCount(MergeAll(usages), counter)
      == if AllKnown(Reports(usages), counter) then Some(Saturate(Known(Reports(usages), counter))) else None
  {
    if usages != [] {
      var head, last := usages[..|usages| - 1], usages[|usages| - 1];
      MergedCounter(head, counter);
      match last
      case Some(usage) =>
        assert Reports(usages) == Reports(head) + [usage];
        KnownNext(Reports(head), usage, counter);
        MergeCounts(MergeAll(head), usage, counter);
      case None =>
        assert Reports(head) + [] == Reports(head);
    }
  }
}
