/** Bounded recursive summarization around a summarizer that may answer anything. */
module Summarizer {
  import opened Wrappers
  import opened Words
  import opened Text
  import opened Transcript
  import opened Sums
  import opened Units
  import opened Rewriting
  import opened Usage
  import opened Errors
  import opened Planning
  import opened Chunking
  import opened ChunkLaws
  import opened Budget

  /** How many times summaries may be summarized again. */
  const MAX_RECURSION: nat := 8

  /** What the engine takes from outside: estimates, encodings and the wording it inserts. */
  datatype Ports = Ports(
    estimators: Estimators, costs: Costs, digest: seq<Message> -> string,
    summaryPrefix: string, truncationText: string)

  function SummaryMessage(ports: Ports, summary: string): Message {
    TextMessage(User, ports.summaryPrefix + summary)
  }

  datatype SummaryRequest = SummaryRequest(model: string, messages: seq<Message>, maxOutputTokens: uint32)

  datatype SummaryOutcome = SummaryOutcome(summary: string, modelUsage: Option<SummaryUsage>)

  datatype Reply = Reply(result: Result<SummaryOutcome, ContextError>, modelUsage: Option<SummaryUsage>)

  /** The world's answers, tick by tick: whether the turn is cancelled, and the summarizer's replies. */
  datatype World = World(cancelled: nat -> bool, reply: (nat, SummaryRequest) -> Reply)

  datatype Call = Call(request: SummaryRequest, reply: Reply)

  function CallUsage(reply: Reply): Option<SummaryUsage> {
    if reply.modelUsage.Some? then reply.modelUsage
    else match reply.result
      case Success(outcome) => outcome.modelUsage
      case Failure(_) => None
  }

  function CallUsages(log: seq<Call>): (usages: seq<Option<SummaryUsage>>)
    ensures |usages| == |log|
  {
    Map(log, (call: Call) => CallUsage(call.reply))
  }

  /** The usage of all calls so far. */
  function Spent(log: seq<Call>): Option<SummaryUsage> {
    MergeAll(CallUsages(log))
  }

  datatype Batch = Batch(summaries: Result<seq<string>, ContextError>, log: seq<Call>, tick: nat)

  /** `summarize_chunks` from the `k`-th chunk on; the first failure ends it. */
  function SummarizeFrom(
    world: World, model: string, chunks: seq<seq<Message>>, k: nat, maxOutput: uint32,
    done: seq<string>, log: seq<Call>, tick: nat): Batch
    requires k <= |chunks|
    decreases |chunks| - k
  {
    if k == |chunks| then Batch(Success(done), log, tick)
    else if world.cancelled(tick) then Batch(Failure(Attach(Cancelled, Spent(log))), log, tick + 1)
    else
      var request := SummaryRequest(model, chunks[k], maxOutput);
      var reply := world.reply(tick + 1, request);
      var log' := log + [Call(request, reply)];
      match reply.result
      case Failure(error) => Batch(Failure(Attach(error, Spent(log'))), log', tick + 2)
      case Success(outcome) =>
        if Trim(outcome.summary) == "" then Batch(Failure(Attach(EmptySummary, Spent(log'))), log', tick + 2)
        else SummarizeFrom(world, model, chunks, k + 1, maxOutput, done + [Trim(outcome.summary)], log', tick + 2)
  }

  lemma SpentNext(log: seq<Call>, call: Call)
    ensures CallUsages(log + [call]) == CallUsages(log) + [CallUsage(call.reply)]
    ensures Spent(log + [call]) == Merge(Spent(log), CallUsage(call.reply))
  {
    assert CallUsages(log + [call]) == CallUsages(log) + [CallUsage(call.reply)];
    MergeAllNext(CallUsages(log), CallUsage(call.reply));
  }

  method SummarizeChunks(
    world: World, model: string, chunks: seq<seq<Message>>, maxOutput: uint32,
    usage: SummaryUsageAccumulator, ghost before: seq<Call>, start: nat)
    returns (summaries: Result<seq<string>, ContextError>, ghost log: seq<Call>, tick: nat)
    requires usage.Valid() && usage.pushed == CallUsages(before)
    modifies usage
    ensures Batch(summaries, log, tick) == SummarizeFrom(world, model, chunks, 0, maxOutput, [], before, start)
    ensures usage.Valid() && usage.pushed == CallUsages(log) && usage.usage == Spent(log)
  {
    var done := [];
    log, tick := before, start;
    for k := 0 to |chunks|
      invariant usage.Valid() && usage.pushed == CallUsages(log)
      invariant SummarizeFrom(world, model, chunks, k, maxOutput, done, log, tick)
             == SummarizeFrom(world, model, chunks, 0, maxOutput, [], before, start)
    {
      if world.cancelled(tick) {
        return Failure(Attach(Cancelled, usage.usage)), log, tick + 1;
      }
      var request := SummaryRequest(model, chunks[k], maxOutput);
      var reply := world.reply(tick + 1, request);
      SpentNext(log, Call(request, reply));
      log, tick := log + [Call(request, reply)], tick + 2;
      usage.Push(CallUsage(reply));
      match reply.result
      case Failure(error) =>
        return Failure(Attach(error, usage.usage)), log, tick;
      case Success(outcome) =>
        if Trim(outcome.summary) == "" {
          return Failure(Attach(EmptySummary, usage.usage)), log, tick;
        }
        done := done + [Trim(outcome.summary)];
    }
    summaries := Success(done);
  }

  // ----- the recursion -----

  datatype Job = Job(ports: Ports, policy: Policy, world: World, request: Request, plan: Plan)

  predicate ValidJob(job: Job) {
    job.plan.start <= job.plan.end <= |job.request.messages|
  }

  /** The request with the planned range replaced by a summary. */
  function Compressed(job: Job, summary: string): Request
    requires ValidJob(job)
  {
    job.request.(messages :=
      Splice(job.request.messages, job.plan.start, job.plan.end, SummaryMessage(job.ports, summary)))
  }

  /** Whether the request rebuilt with a summary is within the strict input budget of a window. */
  predicate CandidateFits(job: Job, budget: SummaryBudget, summary: string)
    requires ValidJob(job)
  {
    match StrictInputBudget(job.policy, job.request, Capabilities(Some(budget.maxContextTokens), None))
    case Some(limit) => job.ports.estimators.request(Compressed(job, summary)) <= limit
    case None => true
  }

  function AsMessages(summaries: seq<string>): (messages: seq<Message>)
    ensures |messages| == |summaries|
  {
    Map(summaries, summary => TextMessage(User, summary))
  }

  datatype Outcome = Outcome(summary: Result<string, ContextError>, log: seq<Call>, tick: nat)

  /** One more layer: the summaries are grouped and each group is summarized. */
  function Layer(job: Job, budget: SummaryBudget, summaries: seq<string>, log: seq<Call>, tick: nat): Batch {
    var grouped := GroupSummaries(AsMessages(summaries), budget, job.ports.costs, job.world.cancelled, tick);
    match grouped.chunks
    case Failure(error) => Batch(Failure(Attach(error, Spent(log))), log, grouped.tick)
    case Success(chunks) =>
      var batch := SummarizeFrom(job.world, job.request.model, chunks, 0, budget.maxOutputTokens, [], log, grouped.tick);
      if batch.summaries.Success? && NotReduced(summaries, batch.summaries.value) then
        Batch(Failure(Attach(NoReduction(summaries, batch.summaries.value), Spent(batch.log))), batch.log, batch.tick)
      else batch
  }

  function NoReduction(summaries: seq<string>, next: seq<string>): ContextError {
    CompressionDidNotReduce(EstimateMessages(AsMessages(summaries)), EstimateMessages(AsMessages(next)))
  }

  /** What the recursion consists of: a layer, the test a single summary must pass, cancellation. */
  datatype Rounds = Rounds(
    layer: (seq<string>, seq<Call>, nat) -> Batch, accepts: string -> bool, cancelled: nat -> bool)

  /** The loop of `summarize_source`: accept a single fitting summary or summarize the summaries. */
  function RefineWith(rounds: Rounds, summaries: seq<string>, depth: nat, log: seq<Call>, tick: nat): Outcome
    requires depth <= MAX_RECURSION
    decreases MAX_RECURSION - depth
  {
    if rounds.cancelled(tick) then Outcome(Failure(Attach(Cancelled, Spent(log))), log, tick + 1)
    else if |summaries| == 1 && rounds.accepts(Trim(summaries[0])) then
      Outcome(Success(Trim(summaries[0])), log, tick + 1)
    else if depth == MAX_RECURSION then
      Outcome(Failure(Attach(SummaryRecursionLimit, Spent(log))), log, tick + 1)
    else
      var layer := rounds.layer(summaries, log, tick + 1);
      match layer.summaries
      case Failure(error) => Outcome(Failure(error), layer.log, layer.tick)
      case Success(next) => RefineWith(rounds, next, depth + 1, layer.log, layer.tick)
  }

  function RoundsOf(job: Job, budget: SummaryBudget): Rounds
    requires ValidJob(job)
  {
    Rounds(
      (summaries: seq<string>, log: seq<Call>, tick: nat) => Layer(job, budget, summaries, log, tick),
      (summary: string) => CandidateFits(job, budget, summary),
      job.world.cancelled)
  }

  function Refine(job: Job, budget: SummaryBudget, summaries: seq<string>, log: seq<Call>, tick: nat): Outcome
    requires ValidJob(job)
  {
    RefineWith(RoundsOf(job, budget), summaries, 0, log, tick)
  }

  /** A layer that shrinks neither the estimate nor the number of summaries. */
  predicate NotReduced(summaries: seq<string>, next: seq<string>) {
    EstimateMessages(AsMessages(next)) >= EstimateMessages(AsMessages(summaries)) && |next| >= |summaries|
  }

  /** `summarize_source`. */
  function SummarizeSource(job: Job, budget: Option<SummaryBudget>, tick: nat): Outcome
    requires ValidJob(job)
  {
    var units := TranscriptUnits(job.request.messages);
    var split := SplitSource(job.request.messages, units, job.plan.start, job.plan.end,
                             budget, job.ports.costs, job.world.cancelled, tick);
    match split.chunks
    case Failure(error) => Outcome(Failure(error), [], split.tick)
    case Success(chunks) =>
      var maxOutput := match budget
        case Some(b) => b.maxOutputTokens
        case None => job.policy.summaryMaxOutputTokens;
      var batch := SummarizeFrom(job.world, job.request.model, chunks, 0, maxOutput, [], [], split.tick);
      match batch.summaries
      case Failure(error) => Outcome(Failure(error), batch.log, batch.tick)
      case Success(summaries) =>
        match budget
        case None =>
          if summaries == [] then Outcome(Failure(Attach(EmptySummary, Spent(batch.log))), batch.log, batch.tick)
          else Outcome(Success(summaries[|summaries| - 1]), batch.log, batch.tick)
        case Some(b) => Refine(job, b, summaries, batch.log, batch.tick)
  }

  /** Rounds that stand for a job: their layer is `Layer`, their test is `CandidateFits`. */
  ghost predicate Realizes(rounds: Rounds, job: Job, budget: SummaryBudget)
    requires ValidJob(job)
  {
    rounds.cancelled == job.world.cancelled
    && (forall summary: string :: rounds.accepts(summary) == CandidateFits(job, budget, summary))
    && forall summaries: seq<string>, log: seq<Call>, tick: nat {:trigger Layer(job, budget, summaries, log, tick)} ::
      rounds.layer(summaries, log, tick) == Layer(job, budget, summaries, log, tick)
  }

  method RefineSummaries(
    job: Job, budget: SummaryBudget, first: seq<string>, usage: SummaryUsageAccumulator,
    ghost rounds: Rounds, ghost before: seq<Call>, start: nat)
    returns (summary: Result<string, ContextError>, ghost log: seq<Call>, tick: nat)
    requires ValidJob(job) && Realizes(rounds, job, budget)
    requires usage.Valid() && usage.pushed == CallUsages(before)
    modifies usage
    ensures Outcome(summary, log, tick) == RefineWith(rounds, first, 0, before, start)
    ensures usage.Valid() && usage.pushed == CallUsages(log)
  {
    var summaries, depth := first, 0;
    log, tick := before, start;
    while true
      invariant depth <= MAX_RECURSION
      invariant usage.Valid() && usage.pushed == CallUsages(log)
      invariant RefineWith(rounds, summaries, depth, log, tick) == RefineWith(rounds, first, 0, before, start)
      decreases MAX_RECURSION - depth
    {
      var round;
      round, log, tick := RunRound(job, budget, summaries, depth, usage, rounds, log, tick);
      match round
      case Done(result) =>
        return result, log, tick;
      case Again(next) =>
        summaries, depth := next, depth + 1;
    }
  }

  datatype Round = Done(result: Result<string, ContextError>) | Again(next: seq<string>)

  /** One pass of the loop: settled by the checks at its head or by a failing layer, or one layer on. */
  method RunRound(
    job: Job, budget: SummaryBudget, summaries: seq<string>, depth: nat, usage: SummaryUsageAccumulator,
    ghost rounds: Rounds, ghost before: seq<Call>, start: nat)
    returns (round: Round, ghost log: seq<Call>, tick: nat)
    requires ValidJob(job) && Realizes(rounds, job, budget) && depth <= MAX_RECURSION
    requires usage.Valid() && usage.pushed == CallUsages(before)
    modifies usage
    ensures var whole := RefineWith(rounds, summaries, depth, before, start);
      match round
      case Done(result) => whole == Outcome(result, log, tick)
      case Again(next) => depth < MAX_RECURSION && whole == RefineWith(rounds, next, depth + 1, log, tick)
    ensures usage.Valid() && usage.pushed == CallUsages(log)
  {
    log := before;
    var settled := Settle(job, budget, summaries, depth, usage, rounds, log, start);
    tick := start + 1;
    if settled.Some? {
      return Done(settled.value), log, tick;
    }
    var next;
    next, log, tick := SummarizeLayer(job, budget, summaries, usage, log, tick);
    round := if next.Failure? then Done(Failure(next.error)) else Again(next.value);
  }

  /** The checks at the head of the loop: cancellation, an acceptable summary, the recursion limit. */
  method Settle(
    job: Job, budget: SummaryBudget, summaries: seq<string>, depth: nat, usage: SummaryUsageAccumulator,
    ghost rounds: Rounds, ghost log: seq<Call>, tick: nat) returns (settled: Option<Result<string, ContextError>>)
    requires ValidJob(job) && Realizes(rounds, job, budget)
    requires usage.Valid() && usage.pushed == CallUsages(log) && depth <= MAX_RECURSION
    ensures var whole := RefineWith(rounds, summaries, depth, log, tick);
      match settled
      case Some(summary) => whole == Outcome(summary, log, tick + 1)
      case None =>
        depth < MAX_RECURSION
        && whole == Continue(rounds, rounds.layer(summaries, log, tick + 1), depth)
  {
    if job.world.cancelled(tick) {
      return Some(Failure(Attach(Cancelled, usage.usage)));
    }
    if |summaries| == 1 {
      var candidate := Trim(summaries[0]);
      if CandidateFits(job, budget, candidate) {
        return Some(Success(candidate));
      }
    }
    if depth >= MAX_RECURSION {
      return Some(Failure(Attach(SummaryRecursionLimit, usage.usage)));
    }
    settled := None;
    RefineNext(rounds, summaries, depth, log, tick);
  }

  ghost function Continue(rounds: Rounds, layer: Batch, depth: nat): Outcome
    requires depth < MAX_RECURSION
  {
    match layer.summaries
    case Failure(error) => Outcome(Failure(error), layer.log, layer.tick)
    case Success(next) => RefineWith(rounds, next, depth + 1, layer.log, layer.tick)
  }

  lemma RefineNext(rounds: Rounds, summaries: seq<string>, depth: nat, log: seq<Call>, tick: nat)
    requires depth < MAX_RECURSION && !rounds.cancelled(tick)
    requires !(|summaries| == 1 && rounds.accepts(Trim(summaries[0])))
    ensures RefineWith(rounds, summaries, depth, log, tick)
         == Continue(rounds, rounds.layer(summaries, log, tick + 1), depth)
  {
  }

  method SummarizeLayer(
    job: Job, budget: SummaryBudget, summaries: seq<string>, usage: SummaryUsageAccumulator,
    ghost before: seq<Call>, start: nat)
    returns (next: Result<seq<string>, ContextError>, ghost log: seq<Call>, tick: nat)
    requires usage.Valid() && usage.pushed == CallUsages(before)
    modifies usage
    ensures Batch(next, log, tick) == Layer(job, budget, summaries, before, start)
    ensures usage.Valid() && usage.pushed == CallUsages(log) && usage.usage == Spent(log)
  {
    var chunks;
    log := before;
    chunks, tick := ComputeGroups(AsMessages(summaries), budget, job.ports.costs, job.world.cancelled, start);
    if chunks.Failure? {
      return Failure(Attach(chunks.error, usage.usage)), log, tick;
    }
    next, log, tick := SummarizeChunks(
      job.world, job.request.model, chunks.value, budget.maxOutputTokens, usage, log, tick);
    if next.Success? && NotReduced(summaries, next.value) {
      next := Failure(Attach(NoReduction(summaries, next.value), usage.usage));
    }
  }

  method ComputeSourceSummary(job: Job, budget: Option<SummaryBudget>, usage: SummaryUsageAccumulator, start: nat)
    returns (summary: Result<string, ContextError>, ghost log: seq<Call>, tick: nat)
    requires ValidJob(job) && usage.Valid() && usage.pushed == []
    requires Sliceable(job.request.messages,
               UnitsWithin(TranscriptUnits(job.request.messages), job.plan.start, job.plan.end))
    modifies usage
    ensures Outcome(summary, log, tick) == SummarizeSource(job, budget, start)
    ensures usage.Valid() && usage.usage == Spent(log)
  {
    var messages := job.request.messages;
    var units := ComputeTranscriptUnits(messages);
    var chunks;
    chunks, tick := ComputeSplit(messages, units, job.plan.start, job.plan.end, budget,
                                 job.ports.costs, job.world.cancelled, start);
    log := [];
    if chunks.Failure? {
      return Failure(chunks.error), log, tick;
    }
    var maxOutput := if budget.Some? then budget.value.maxOutputTokens else job.policy.summaryMaxOutputTokens;
    var summaries;
    summaries, log, tick := SummarizeChunks(
      job.world, job.request.model, chunks.value, maxOutput, usage, [], tick);
    if summaries.Failure? {
      return Failure(summaries.error), log, tick;
    }
    if budget.Some? {
      summary, log, tick := RefineSummaries(
        job, budget.value, summaries.value, usage, RoundsOf(job, budget.value), log, tick);
    } else if summaries.value == [] {
      summary := Failure(Attach(EmptySummary, usage.usage));
    } else {
      summary := Success(summaries.value[|summaries.value| - 1]);
    }
  }

  // ----- bounds, budgets and usage -----

  /** A successful batch makes one call for each chunk and returns one trimmed summary for each. */
  lemma {:induction false} BatchCounts(
    world: World, model: string, chunks: seq<seq<Message>>, k: nat, maxOutput: uint32,
    done: seq<string>, log: seq<Call>, tick: nat)
    requires k <= |chunks|
    ensures var batch := SummarizeFrom(world, model, chunks, k, maxOutput, done, log, tick);
      |log| <= |batch.log| <= |log| + |chunks| - k
      && (batch.summaries.Success? ==>
            |batch.log| == |log| + |chunks| - k && |batch.summaries.value| == |done| + |chunks| - k)
    decreases |chunks| - k
  {
    if k < |chunks| && !world.cancelled(tick) {
      var request := SummaryRequest(model, chunks[k], maxOutput);
      var reply := world.reply(tick + 1, request);
      if reply.result.Success? {
        BatchCounts(world, model, chunks, k + 1, maxOutput, done + [Trim(reply.result.value.summary)],
                    log + [Call(request, reply)], tick + 2);
      }
    }
  }

  /** A layer never has more summaries, hence never makes more calls, than the one before it. */
  lemma LayerCounts(job: Job, budget: SummaryBudget, summaries: seq<string>, log: seq<Call>, tick: nat)
    ensures var layer := Layer(job, budget, summaries, log, tick);
      |layer.log| <= |log| + |summaries|
      && (layer.summaries.Success? ==> |layer.summaries.value| <= |summaries|)
  {
    var grouped := GroupSummaries(AsMessages(summaries), budget, job.ports.costs, job.world.cancelled, tick);
    GroupingIsSound(AsMessages(summaries), budget, job.ports.costs, job.world.cancelled, tick);
    if grouped.chunks.Success? {
      BatchCounts(job.world, job.request.model, grouped.chunks.value, 0, budget.maxOutputTokens, [], log, grouped.tick);
    }
  }

  /** A layer that adds at most one call for each summary and returns no more summaries. */
  ghost predicate Shrinking(rounds: Rounds) {
    forall summaries: seq<string>, log: seq<Call>, tick: nat ::
      var layer := rounds.layer(summaries, log, tick);
      |layer.log| <= |log| + |summaries|
      && (layer.summaries.Success? ==> |layer.summaries.value| <= |summaries|)
  }

  lemma RoundsShrink(job: Job, budget: SummaryBudget)
    requires ValidJob(job)
    ensures Shrinking(RoundsOf(job, budget))
  {
    var rounds := RoundsOf(job, budget);
    forall summaries: seq<string>, log: seq<Call>, tick: nat
      ensures var layer := rounds.layer(summaries, log, tick);
        |layer.log| <= |log| + |summaries|
        && (layer.summaries.Success? ==> |layer.summaries.value| <= |summaries|)
    {
      LayerCounts(job, budget, summaries, log, tick);
    }
  }

  lemma {:induction false} RefineCounts(rounds: Rounds, summaries: seq<string>, depth: nat, log: seq<Call>, tick: nat)
    requires depth <= MAX_RECURSION && Shrinking(rounds)
    ensures |RefineWith(rounds, summaries, depth, log, tick).log| <= |log| + (MAX_RECURSION - depth) * |summaries|
    decreases MAX_RECURSION - depth
  {
    if depth < MAX_RECURSION {
      var layer := rounds.layer(summaries, log, tick + 1);
      if layer.summaries.Success? {
        RefineCounts(rounds, layer.summaries.value, depth + 1, layer.log, layer.tick);
        OneMoreLayer(MAX_RECURSION - depth, |layer.summaries.value|, |summaries|);
      } else {
        OneMoreLayer(MAX_RECURSION - depth, 0, |summaries|);
      }
    }
  }

  lemma OneMoreLayer(left: nat, next: nat, current: nat)
    requires next <= current && 1 <= left
    ensures current + (left - 1) * next <= left * current
    ensures current <= left * current
  {
    MulMonotone(left - 1, next, current);
    assert left * current == (left - 1) * current + current;
    MulMonotone(current, 1, left);
  }

  /**
    Whatever the world answers, summarizing a planned range of `n` units ends after at most `9 n`
    calls: one layer over the source and eight over its summaries.
   */
  lemma CallsAreBounded(job: Job, budget: Option<SummaryBudget>, tick: nat, a: nat, b: nat)
    requires a < b <= |TranscriptUnits(job.request.messages)|
    requires var units := TranscriptUnits(job.request.messages);
      job.plan == Plan(units[a].start, units[b - 1].end) && ValidJob(job)
    ensures |SummarizeSource(job, budget, tick).log| <= (1 + MAX_RECURSION) * (b - a)
  {
    var split := SplitSource(job.request.messages, TranscriptUnits(job.request.messages), job.plan.start, job.plan.end,
                             budget, job.ports.costs, job.world.cancelled, tick);
    ChunksOfRun(job, budget, tick, a, b);
    if split.chunks.Success? {
      SourceCalls(job, budget, split.chunks.value, split.tick, b - a);
    }
  }

  /** A planned range of `b - a` units is split into at most that many chunks. */
  lemma ChunksOfRun(job: Job, budget: Option<SummaryBudget>, tick: nat, a: nat, b: nat)
    requires a < b <= |TranscriptUnits(job.request.messages)|
    requires var units := TranscriptUnits(job.request.messages);
      job.plan == Plan(units[a].start, units[b - 1].end) && ValidJob(job)
    ensures var chunks := SplitSource(job.request.messages, TranscriptUnits(job.request.messages),
                            job.plan.start, job.plan.end, budget, job.ports.costs, job.world.cancelled, tick).chunks;
      chunks.Success? ==> |chunks.value| <= b - a
  {
    PlannedUnits(job.request.messages, a, b);
    var split := SplitSource(job.request.messages, TranscriptUnits(job.request.messages),
                             job.plan.start, job.plan.end, budget, job.ports.costs, job.world.cancelled, tick);
    if budget.Some? && split.chunks.Success? {
      EveryChunkFits(job.request.messages, TranscriptUnits(job.request.messages)[a..b], job.plan.start, job.plan.end,
                     budget.value, job.ports.costs, job.world.cancelled, tick);
    }
  }

  lemma SourceCalls(job: Job, budget: Option<SummaryBudget>, chunks: seq<seq<Message>>, tick: nat, n: nat)
    requires ValidJob(job) && |chunks| <= n
    ensures var maxOutput := if budget.Some? then budget.value.maxOutputTokens else job.policy.summaryMaxOutputTokens;
      var batch := SummarizeFrom(job.world, job.request.model, chunks, 0, maxOutput, [], [], tick);
      |batch.log| <= n
      && (batch.summaries.Success? && budget.Some? ==>
            |Refine(job, budget.value, batch.summaries.value, batch.log, batch.tick).log| <= (1 + MAX_RECURSION) * n)
  {
    var maxOutput := if budget.Some? then budget.value.maxOutputTokens else job.policy.summaryMaxOutputTokens;
    BatchCounts(job.world, job.request.model, chunks, 0, maxOutput, [], [], tick);
    var batch := SummarizeFrom(job.world, job.request.model, chunks, 0, maxOutput, [], [], tick);
    if batch.summaries.Success? && budget.Some? {
      RoundsShrink(job, budget.value);
      RefineCounts(RoundsOf(job, budget.value), batch.summaries.value, 0, batch.log, batch.tick);
      MulMonotone(MAX_RECURSION, |batch.summaries.value|, n);
    }
  }

  lemma {:induction false} RefinedAccepted(
    rounds: Rounds, summaries: seq<string>, depth: nat, log: seq<Call>, tick: nat)
    requires depth <= MAX_RECURSION
    ensures var summary := RefineWith(rounds, summaries, depth, log, tick).summary;
      summary.Success? ==> rounds.accepts(summary.value) && Trim(summary.value) == summary.value
    decreases MAX_RECURSION - depth
  {
    if depth < MAX_RECURSION {
      var layer := rounds.layer(summaries, log, tick + 1);
      if layer.summaries.Success? {
        RefinedAccepted(rounds, layer.summaries.value, depth + 1, layer.log, layer.tick);
      }
    }
    if |summaries| == 1 {
      TrimIdempotent(summaries[0]);
    }
  }

  /** A summary accepted under a known window is trimmed and fits the strict input budget. */
  lemma AcceptedSummaryFits(job: Job, budget: SummaryBudget, tick: nat)
    requires ValidJob(job) && SummarizeSource(job, Some(budget), tick).summary.Success?
    ensures var summary := SummarizeSource(job, Some(budget), tick).summary.value;
      CandidateFits(job, budget, summary) && Trim(summary) == summary
  {
    var split := SplitSource(job.request.messages, TranscriptUnits(job.request.messages), job.plan.start, job.plan.end,
                             Some(budget), job.ports.costs, job.world.cancelled, tick);
    var batch := SummarizeFrom(job.world, job.request.model, split.chunks.value, 0, budget.maxOutputTokens, [], [], split.tick);
    RefinedAccepted(RoundsOf(job, budget), batch.summaries.value, 0, batch.log, batch.tick);
  }

  /** Every request in a log is within the budget of a summary request. */
  ghost predicate RequestsFit(log: seq<Call>, budget: SummaryBudget, costs: Costs) {
    forall call | call in log ::
      call.request.messages != [] && Fits(call.request.messages, budget, costs)
      && call.request.maxOutputTokens == budget.maxOutputTokens
  }

  lemma {:induction false} BatchRequestsFit(
    world: World, model: string, chunks: seq<seq<Message>>, k: nat, budget: SummaryBudget, costs: Costs,
    done: seq<string>, log: seq<Call>, tick: nat)
    requires k <= |chunks| && AllFit(chunks, budget, costs) && RequestsFit(log, budget, costs)
    ensures RequestsFit(SummarizeFrom(world, model, chunks, k, budget.maxOutputTokens, done, log, tick).log, budget, costs)
    decreases |chunks| - k
  {
    if k < |chunks| && !world.cancelled(tick) {
      assert chunks[k] in chunks;
      var request := SummaryRequest(model, chunks[k], budget.maxOutputTokens);
      var reply := world.reply(tick + 1, request);
      if reply.result.Success? {
        BatchRequestsFit(world, model, chunks, k + 1, budget, costs, done + [Trim(reply.result.value.summary)],
                         log + [Call(request, reply)], tick + 2);
      }
    }
  }

  /** A layer sends only requests within a budget. */
  ghost predicate Bounded(rounds: Rounds, budget: SummaryBudget, costs: Costs) {
    forall summaries: seq<string>, log: seq<Call>, tick: nat ::
      RequestsFit(log, budget, costs) ==> RequestsFit(rounds.layer(summaries, log, tick).log, budget, costs)
  }

  lemma RoundsBounded(job: Job, budget: SummaryBudget)
    requires ValidJob(job)
    ensures Bounded(RoundsOf(job, budget), budget, job.ports.costs)
  {
    forall summaries: seq<string>, log: seq<Call>, tick: nat | RequestsFit(log, budget, job.ports.costs)
      ensures RequestsFit(RoundsOf(job, budget).layer(summaries, log, tick).log, budget, job.ports.costs)
    {
      LayerRequestsFit(job, budget, summaries, log, tick);
    }
  }

  lemma {:induction false} RefineRequestsFit(
    rounds: Rounds, budget: SummaryBudget, costs: Costs, summaries: seq<string>, depth: nat, log: seq<Call>, tick: nat)
    requires depth <= MAX_RECURSION && Bounded(rounds, budget, costs) && RequestsFit(log, budget, costs)
    ensures RequestsFit(RefineWith(rounds, summaries, depth, log, tick).log, budget, costs)
    decreases MAX_RECURSION - depth
  {
    if depth < MAX_RECURSION {
      var layer := rounds.layer(summaries, log, tick + 1);
      if layer.summaries.Success? {
        RefineRequestsFit(rounds, budget, costs, layer.summaries.value, depth + 1, layer.log, layer.tick);
      }
    }
  }

  lemma LayerRequestsFit(job: Job, budget: SummaryBudget, summaries: seq<string>, log: seq<Call>, tick: nat)
    requires RequestsFit(log, budget, job.ports.costs)
    ensures RequestsFit(Layer(job, budget, summaries, log, tick).log, budget, job.ports.costs)
  {
    var grouped := GroupSummaries(AsMessages(summaries), budget, job.ports.costs, job.world.cancelled, tick);
    GroupingIsSound(AsMessages(summaries), budget, job.ports.costs, job.world.cancelled, tick);
    if grouped.chunks.Success? {
      BatchRequestsFit(job.world, job.request.model, grouped.chunks.value, 0, budget, job.ports.costs, [], log, grouped.tick);
    }
  }

  /** With a known window, no request that exceeds its budget is ever sent, in any layer. */
  lemma NoOversizedRequest(job: Job, budget: SummaryBudget, tick: nat, a: nat, b: nat)
    requires a < b <= |TranscriptUnits(job.request.messages)|
    requires var units := TranscriptUnits(job.request.messages);
      job.plan == Plan(units[a].start, units[b - 1].end) && ValidJob(job)
    ensures RequestsFit(SummarizeSource(job, Some(budget), tick).log, budget, job.ports.costs)
  {
    var messages, units := job.request.messages, TranscriptUnits(job.request.messages);
    PlannedUnits(messages, a, b);
    var split := SplitSource(messages, units, job.plan.start, job.plan.end, Some(budget),
                             job.ports.costs, job.world.cancelled, tick);
    if split.chunks.Success? {
      EveryChunkFits(messages, units[a..b], job.plan.start, job.plan.end, budget,
                     job.ports.costs, job.world.cancelled, tick);
      BatchRequestsFit(job.world, job.request.model, split.chunks.value, 0, budget, job.ports.costs,
                       [], [], split.tick);
      var batch := SummarizeFrom(job.world, job.request.model, split.chunks.value, 0, budget.maxOutputTokens,
                                 [], [], split.tick);
      if batch.summaries.Success? {
        RoundsBounded(job, budget);
        RefineRequestsFit(RoundsOf(job, budget), budget, job.ports.costs, batch.summaries.value, 0, batch.log, batch.tick);
      }
    }
  }
}
