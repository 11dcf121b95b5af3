/** What a compaction did, stated on its record, its calls and the transcripts alone. */
module Outcomes {
  import opened Wrappers
  import opened Words
  import opened Text
  import opened Transcript
  import opened Units
  import opened Micro
  import Usage
  import opened MicroGains
  import opened Errors
  import opened Planning
  import opened Chunking
  import opened ChunkLaws
  import opened Abridging
  import opened Budget
  import opened Summarizer
  import opened Accounting
  import opened Replay
  import opened Mechanical
  import opened Compacting
  import opened CompactingLaws
  import opened Tracing
  import opened Reserves

  // ----- history -----

  /** There is a unit open to compaction before the most recent ones. */
  predicate HasOlderOpenUnit(messages: seq<Message>, recent: nat) {
    exists i | 0 <= i < |TranscriptUnits(messages)| - recent :: !TranscriptUnits(messages)[i].protected
  }

  lemma HistoryExactlyWhen(messages: seq<Message>, recent: nat)
    ensures HasCompressibleHistory(messages, recent) <==> HasOlderOpenUnit(messages, recent)
  {
  }

  // ----- the range -----

  /** Down to the target with room for the largest summary, and at least one token. */
  function WantedReduction(before: nat, target: nat, ceiling: nat): nat {
    Max(Min(Max(before - target, 0) + ceiling, U64_MAX), 1)
  }

  /** The units `[a, b)` are the run that the planner's rule chooses, and the range is theirs. */
  ghost predicate IsChosenRun(
    messages: seq<Message>, estimator: Estimator, recent: nat, wanted: uint64, plan: Plan, a: nat, b: nat)
  {
    var units := TranscriptUnits(messages);
    a < b <= |units| && plan == Plan(units[a].start, units[b - 1].end) && plan.start < plan.end <= |messages|
    && Chosen(units, Sizes(messages, estimator), if |units| > recent then |units| - recent else 0, wanted, a, b)
  }

  ghost predicate IsChosenRange(
    messages: seq<Message>, estimator: Estimator, recent: nat, wanted: uint64, plan: Plan)
  {
    exists a: nat, b: nat :: IsChosenRun(messages, estimator, recent, wanted, plan, a, b)
  }

  /** The planner's choice for a compaction of `messages`. */
  ghost predicate ChosenFor(task: Task, messages: seq<Message>, plan: Plan) {
    IsChosenRange(
      messages, task.ports.estimators.messages, task.policy.minimumRecentUnits,
      WantedReduction(task.ports.estimators.request(task.request.(messages := messages)), task.target,
                      CeilingOf(task.policy, task.capabilities)),
      plan)
  }

  lemma PlanIsChosenRun(task: Task) returns (a: nat, b: nat)
    requires PlanOf(task).Success?
    ensures IsChosenRun(
      task.request.messages, task.ports.estimators.messages, task.policy.minimumRecentUnits,
      WantedReduction(task.ports.estimators.request(task.request), task.target,
                      CeilingOf(task.policy, task.capabilities)),
      PlanOf(task).value, a, b)
  {
    var hint := match task.capabilities
      case Some(known) => InputBudget(task.policy, task.request, known)
      case None => None;
    a, b := PlanIsChosen(task.request.messages, task.policy.minimumRecentUnits, TokensBefore(task), task.target,
                         Ceiling(task), hint, task.ports.estimators.messages);
  }

  lemma PlanIsChosenFor(task: Task)
    requires PlanOf(task).Success?
    ensures ChosenFor(task, task.request.messages, PlanOf(task).value)
  {
    var a, b := PlanIsChosenRun(task);
    assert task.request.(messages := task.request.messages) == task.request;
  }

  // ----- one full compaction -----

  /** The request with the planned range replaced by one user message that carries a summary. */
  function WithSummary(task: Task, messages: seq<Message>, plan: Plan, summary: string): Request
    requires plan.start <= plan.end <= |messages|
  {
    task.request.(messages :=
      messages[..plan.start] + [Message(false, "", User, [TextBlock(task.ports.summaryPrefix + summary)])]
      + messages[plan.end..])
  }

  /** A known window holds this request beside its output. */
  predicate WithinWindow(task: Task, messages: seq<Message>, request: Request) {
    task.capabilities.Some? && task.capabilities.value.maxContextTokens.Some? ==>
      FitsWindow(task.policy, task.request.(messages := messages), task.capabilities.value,
                 task.ports.estimators.request(request))
  }

  /** Summarizing the planned range of these messages. */
  function JobFor(task: Task, messages: seq<Message>, plan: Plan): Job {
    Job(task.ports, task.policy, task.world, task.request.(messages := messages), plan)
  }

  /** The calls of a compaction that summarizes `messages`, and how they end. */
  ghost predicate Summarizes(
    task: Task, messages: seq<Message>, plan: Plan, log: seq<Call>, sources: seq<seq<Message>>,
    layers: seq<seq<Call>>, summary: Result<string, ContextError>)
  {
    ChosenFor(task, messages, plan) && plan.start < plan.end <= |messages|
    && SummaryBudgetOf(task.policy, task.capabilities).Success?
    && log == Flatten(layers)
    && ReadsRange(JobFor(task, messages, plan), SummaryBudgetOf(task.policy, task.capabilities).value,
                  sources, layers, summary)
    && WithinWindow(task, messages, WithSummary(task, messages, plan, ""))
  }

  /** A compaction that ends in this record and these messages. */
  ghost predicate Records(task: Task, messages: seq<Message>, plan: Plan, summary: string, c: Compaction) {
    plan.start <= plan.end <= |messages|
    && c.record.kind == Summary && c.record.trigger == task.trigger
    && c.record.start == plan.start && c.record.end == plan.end && c.record.summary == summary
    && c.messages == WithSummary(task, messages, plan, summary).messages
    && c.record.tokensBefore == task.ports.estimators.request(task.request.(messages := messages))
    && c.record.tokensAfter == task.ports.estimators.request(task.request.(messages := c.messages))
  }

  lemma WithinUnlessExceeds(task: Task, request: Request)
    ensures WithinWindow(task, task.request.messages, request)
       <==> !Exceeds(task, task.ports.estimators.request(request))
  {
    assert task.request.(messages := task.request.messages) == task.request;
  }

  lemma RebuiltIs(task: Task, plan: Plan, summary: string)
    requires Plannable(task, plan)
    ensures Compressed(JobOf(task, plan), summary) == WithSummary(task, task.request.messages, plan, summary)
  {
  }

  /** The summary a summarizing returns is trimmed and not blank. */
  lemma ReadSummary(
    job: Job, budget: Option<SummaryBudget>, sources: seq<seq<Message>>, layers: seq<seq<Call>>, summary: string)
    requires ValidJob(job) && ReadsRange(job, budget, sources, layers, Success(summary))
    ensures Trim(summary) == summary != "" && Flatten(layers) != []
  {
    var last := layers[|layers| - 1];
    assert Answers(last)[0] == AnswerOf(last[0]);
    if last[0].reply.result.Success? {
      TrimIdempotent(last[0].reply.result.value.summary);
    }
    if |layers| > 1 {
      assert LaterLayer(job, budget.value, layers, |layers| - 1, true);
    }
    assert AllUsable(last) && last[0] in last;
    FlattenHolds(layers, |layers| - 1);
  }

  lemma {:induction false} FlattenHolds<T>(parts: seq<seq<T>>, k: nat)
    requires k < |parts| && parts[k] != []
    ensures Flatten(parts) != []
  {
    if k > 0 {
      FlattenHolds(parts[1..], k - 1);
    }
  }

  lemma FullReads(task: Task, tick: nat)
    returns (plan: Plan, sources: seq<seq<Message>>, layers: seq<seq<Call>>, outcome: Outcome)
    requires CompactFull(task, tick).log != [] || CompactFull(task, tick).result.Success?
    ensures Summarizes(task, task.request.messages, plan, CompactFull(task, tick).log, sources, layers, outcome.summary)
    ensures PlanOf(task) == Success(plan) && Plannable(task, plan)
    ensures CompactFull(task, tick).result ==
      match outcome.summary
      case Failure(error) => Failure(error)
      case Success(summary) =>
        if task.world.cancelled(outcome.tick) then Failure(Attach(Cancelled, Spent(outcome.log)))
        else Conclude(task, plan, summary, Spent(outcome.log))
  {
    PlansArePlannable(task);
    plan := PlanOf(task).value;
    var budget := SummaryBudgetOf(task.policy, task.capabilities).value;
    outcome := SummarizeSource(JobOf(task, plan), budget, tick + 1);
    var a, b := PlanIsChosenRun(task);
    sources, layers := SummarizingReadsRange(JobOf(task, plan), budget, tick + 1, a, b);
    PlanIsChosenFor(task);
    WithinUnlessExceeds(task, WithSummary(task, task.request.messages, plan, ""));
    RebuiltIs(task, plan, "");
    assert task.request.(messages := task.request.messages) == task.request;
  }

  /** What becomes of a summary: it is recorded if it reduces the estimate, unless the Turn is cancelled. */
  lemma FullRecords(task: Task, tick: nat)
    returns (plan: Plan, sources: seq<seq<Message>>, layers: seq<seq<Call>>, summary: Result<string, ContextError>)
    requires CompactFull(task, tick).log != [] || CompactFull(task, tick).result.Success?
    ensures Summarizes(task, task.request.messages, plan, CompactFull(task, tick).log, sources, layers, summary)
    ensures Settles(task, task.request.messages, plan, summary, CompactFull(task, tick).result)
    ensures CompactFull(task, tick).result.Success? ==> CompactFull(task, tick).log != []
  {
    var outcome;
    plan, sources, layers, outcome := FullReads(task, tick);
    summary := outcome.summary;
    if summary.Success? {
      ReadSummary(JobOf(task, plan), SummaryBudgetOf(task.policy, task.capabilities).value,
                  sources, layers, summary.value);
      ConclusionRecords(task, plan, summary.value, Spent(outcome.log));
    }
  }

  /** A summary that reduces the estimate is recorded unless the Turn is cancelled; nothing else is. */
  ghost predicate Settles(
    task: Task, messages: seq<Message>, plan: Plan, summary: Result<string, ContextError>,
    result: Result<Compaction, ContextError>)
  {
    plan.start <= plan.end <= |messages|
    && (result.Success? ==> summary.Success? && Records(task, messages, plan, summary.value, result.value))
    && (result.Success? ==> Reduces(task, messages, WithSummary(task, messages, plan, summary.value)))
    && (result.Failure? && summary.Success? ==>
          (exists tick: nat :: task.world.cancelled(tick))
          || !Reduces(task, messages, WithSummary(task, messages, plan, summary.value)))
  }

  predicate Reduces(task: Task, messages: seq<Message>, after: Request) {
    task.ports.estimators.request(after) < task.ports.estimators.request(task.request.(messages := messages))
  }

  lemma ConclusionRecords(task: Task, plan: Plan, summary: string, usage: Option<Usage.SummaryUsage>)
    requires Plannable(task, plan) && Trim(summary) == summary != ""
    requires !Exceeds(task, EstimateWith(task, plan, summary))
    ensures var result := Conclude(task, plan, summary, usage);
      (result.Success? <==>
         Reduces(task, task.request.messages, WithSummary(task, task.request.messages, plan, summary)))
      && (result.Success? ==> Records(task, task.request.messages, plan, summary, result.value))
  {
    RebuiltIs(task, plan, summary);
    assert task.request.(messages := task.request.messages) == task.request;
  }

  /** A planned range whose replacement by an empty summary would not fit the window. */
  predicate NoSummaryFits(task: Task, window: uint64, messages: seq<Message>, plan: Plan)
    requires plan.start <= plan.end <= |messages|
  {
    task.ports.estimators.request(WithSummary(task, messages, plan, "")) > Room(task.policy, task.request, window)
  }

  /** Then nobody is called, and the refusal names what the request would take with its output, and the window. */
  lemma TooLargeIsRefused(task: Task, tick: nat, plan: Plan, window: uint64)
    requires !task.world.cancelled(tick) && PlanOf(task) == Success(plan) && Plannable(task, plan)
    requires task.capabilities.Some? && task.capabilities.value.maxContextTokens == Some(window) && window >= 246
    requires NoSummaryFits(task, window, task.request.messages, plan)
    ensures var estimate := task.ports.estimators.request(WithSummary(task, task.request.messages, plan, ""));
      CompactFull(task, tick).log == []
      && CompactFull(task, tick).result == Failure(CompressionRequestTooLarge(
           Saturate(estimate + window - Room(task.policy, task.request, window)), window))
  {
    SummaryOutputIsGreatest(task.policy, task.capabilities.value, window, 1);
    RoomIsBudget(task.policy, task.request, task.capabilities.value, window);
    RebuiltIs(task, plan, "");
  }

  // ----- whole compactions -----

  /** What is projected before anything is summarized. */
  function ProjectedMessages(task: Task): seq<Message> {
    match MicroPlanOf(task)
    case None => task.request.messages
    case Some(plan) => Projected(task.request, plan).messages
  }

  /** The task that is left for the summarizer. */
  function LeftTask(task: Task): Task {
    match MicroPlanOf(task) case None => task case Some(plan) => ProjectedTask(task, plan)
  }

  /** Every old tool text that is worth it is abridged, those of the last rounds only without history. */
  lemma ProjectedCutsTexts(task: Task)
    ensures CutsTexts(task.request.messages, ProjectedMessages(task),
                      !HasOlderOpenUnit(task.request.messages, task.policy.minimumRecentUnits))
  {
    var relaxed := !HasCompressibleHistory(task.request.messages, task.policy.minimumRecentUnits);
    match MicroPlanOf(task)
    case None => NothingToCut(task.request.messages, relaxed);
    case Some(_) => PlanCutsTexts(task.request.messages, relaxed);
  }

  lemma ProjectedIsFull(task: Task, plan: MicroPlan, tick: nat)
    requires var answer := ProjectThenSummarize(task, plan, tick);
      answer.log != [] || answer.result.Success?
    ensures var answer, full := ProjectThenSummarize(task, plan, tick), CompactFull(ProjectedTask(task, plan), tick);
      answer.log == full.log && (answer.result.Success? <==> full.result.Success?)
      && (full.result.Success? ==>
            answer.result.value.record == full.result.value.record
            && answer.result.value.messages == full.result.value.messages)
  {
  }

  /** A compaction that asked the summarizer, or that ends with a summary, is a full one of what was projected. */
  lemma CompactIsFull(task: Task, tick: nat)
    requires Compact(task, tick).log != []
      || (Compact(task, tick).result.Success? && Compact(task, tick).result.value.record.kind == Summary)
    ensures Compact(task, tick).log == CompactFull(LeftTask(task), tick + 1).log
    ensures Compact(task, tick).result.Success? <==> CompactFull(LeftTask(task), tick + 1).result.Success?
    ensures Compact(task, tick).result.Success? ==>
      Compact(task, tick).result.value.record == CompactFull(LeftTask(task), tick + 1).result.value.record
      && Compact(task, tick).result.value.messages == CompactFull(LeftTask(task), tick + 1).result.value.messages
  {
    if MicroPlanOf(task).Some? && !SavesEnough(task, MicroPlanOf(task).value) {
      ProjectedIsFull(task, MicroPlanOf(task).value, tick + 1);
    }
  }

  /** What the first record of a compaction of two leads to is what its second one is about. */
  ghost predicate Precedes(task: Task, c: Compaction, projected: seq<Message>) {
    match c.preApplied
    case None => projected == task.request.messages
    case Some(first) => Apply(task.ports, first, task.request.messages) == Success(projected)
  }

  lemma FirstRecordPrecedes(task: Task, tick: nat)
    requires Compact(task, tick).result.Success? && Compact(task, tick).result.value.record.kind == Summary
    ensures Precedes(task, Compact(task, tick).result.value, ProjectedMessages(task))
  {
    match MicroPlanOf(task)
    case None => FullReplays(task, tick + 1);
    case Some(_) =>
      ProjectionReplays(task.ports, task.trigger, task.request,
                        !HasCompressibleHistory(task.request.messages, task.policy.minimumRecentUnits));
  }

  lemma LeftIsSame(
    task: Task, plan: Plan, log: seq<Call>, sources: seq<seq<Message>>, layers: seq<seq<Call>>,
    summary: Result<string, ContextError>, result: Result<Compaction, ContextError>)
    requires Summarizes(LeftTask(task), LeftTask(task).request.messages, plan, log, sources, layers, summary)
    requires Settles(LeftTask(task), LeftTask(task).request.messages, plan, summary, result)
    ensures Summarizes(task, ProjectedMessages(task), plan, log, sources, layers, summary)
    ensures Settles(task, ProjectedMessages(task), plan, summary, result)
  {
    var messages := ProjectedMessages(task);
    assert LeftTask(task) == task.(request := task.request.(messages := messages));
    assert task.request.(messages := messages).(messages := messages) == task.request.(messages := messages);
    assert JobFor(LeftTask(task), messages, plan) == JobFor(task, messages, plan);
    assert WithSummary(LeftTask(task), messages, plan, "") == WithSummary(task, messages, plan, "");
    assert summary.Success? ==>
      WithSummary(LeftTask(task), messages, plan, summary.value) == WithSummary(task, messages, plan, summary.value);
  }

  /**
    Any compaction that asks the summarizer anything, whatever the answers: the transcript is projected
    first, the planner's choice for the reduction that is still wanted is the range that the calls read,
    and a request with an empty summary in its place would fit. A summary that lowers the estimate is
    recorded for that range and inserted there, unless the Turn is cancelled.
   */
  lemma CompactionSummarizesItsRange(task: Task, tick: nat)
    returns (projected: seq<Message>, plan: Plan, sources: seq<seq<Message>>, layers: seq<seq<Call>>,
             summary: Result<string, ContextError>)
    requires Compact(task, tick).log != []
    ensures CutsTexts(task.request.messages, projected,
                      !HasOlderOpenUnit(task.request.messages, task.policy.minimumRecentUnits))
    ensures Summarizes(task, projected, plan, Compact(task, tick).log, sources, layers, summary)
    ensures var result := Compact(task, tick).result;
      (result.Success? ==>
         summary.Success? && Records(task, projected, plan, summary.value, result.value)
         && Precedes(task, result.value, projected)
         && Reduces(task, projected, WithSummary(task, projected, plan, summary.value)))
      && (result.Failure? && summary.Success? ==>
            (exists t: nat :: task.world.cancelled(t))
            || !Reduces(task, projected, WithSummary(task, projected, plan, summary.value)))
  {
    projected := ProjectedMessages(task);
    ProjectedCutsTexts(task);
    CompactIsFull(task, tick);
    plan, sources, layers, summary := FullRecords(LeftTask(task), tick + 1);
    LeftIsSame(task, plan, Compact(task, tick).log, sources, layers, summary,
               CompactFull(LeftTask(task), tick + 1).result);
    if Compact(task, tick).result.Success? {
      FirstRecordPrecedes(task, tick);
    }
  }

  /** No compaction ends with a summary that no call returned. */
  lemma SummaryNeedsCalls(task: Task, tick: nat)
    requires Compact(task, tick).result.Success? && Compact(task, tick).result.value.record.kind == Summary
    ensures Compact(task, tick).log != []
  {
    CompactIsFull(task, tick);
    var plan, sources, layers, summary := FullRecords(LeftTask(task), tick + 1);
  }

  /**
    The range of a summary record is the run that the planner's rule chooses, before the recent units
    and for the reduction that leads from the record's own estimate down to the target.
   */
  lemma SummaryRangeIsChosen(task: Task, tick: nat) returns (projected: seq<Message>)
    requires Compact(task, tick).result.Success? && Compact(task, tick).result.value.record.kind == Summary
    ensures var c := Compact(task, tick).result.value;
      Precedes(task, c, projected)
      && c.record.tokensBefore == task.ports.estimators.request(task.request.(messages := projected))
      && IsChosenRange(
           projected, task.ports.estimators.messages, task.policy.minimumRecentUnits,
           WantedReduction(c.record.tokensBefore, task.target, CeilingOf(task.policy, task.capabilities)),
           Plan(c.record.start, c.record.end))
  {
    SummaryNeedsCalls(task, tick);
    var plan, sources, layers, summary;
    projected, plan, sources, layers, summary := CompactionSummarizesItsRange(task, tick);
  }

  // ----- projections alone -----

  /** A quarter of the bytes that abridging saves covers the wanted reduction, and the estimate does fall. */
  ghost predicate ProjectionSuffices(task: Task, plan: MicroPlan)
    requires InPlace(task.request.messages, plan.projections)
  {
    Min(SlotsSaved(task.request.messages, plan.projections), U64_MAX) / 4
      >= WantedReduction(task.ports.estimators.request(task.request), task.target,
                         CeilingOf(task.policy, task.capabilities))
    && task.ports.estimators.request(Projected(task.request, plan)) < task.ports.estimators.request(task.request)
  }

  predicate IsAlone(result: Result<Compaction, ContextError>) {
    result.Success? && result.value.kind == MicroOnly
  }

  lemma AloneMeans(task: Task, tick: nat)
    requires !task.world.cancelled(tick)
    ensures IsAlone(Compact(task, tick).result) <==>
      MicroPlanOf(task).Some? && SavesEnough(task, MicroPlanOf(task).value)
      && BuildMicroRecord(task.ports, task.trigger, task.request, MicroPlanOf(task).value).Success?
    ensures IsAlone(Compact(task, tick).result) ==>
      Compact(task, tick).result.value.messages == ProjectedMessages(task)
  {
    if MicroPlanOf(task).None? && CompactFull(task, tick + 1).result.Success? {
      FullReplays(task, tick + 1);
    }
  }

  /**
    A compaction that is not cancelled succeeds by a projection alone if and only if there is something
    to abridge and that suffices; then every text that is worth it is abridged.
   */
  lemma ProjectionAloneExactlyWhen(task: Task, tick: nat)
    requires !task.world.cancelled(tick)
    ensures var relaxed := !HasOlderOpenUnit(task.request.messages, task.policy.minimumRecentUnits);
      var plan := PlanMicro(task.request.messages, relaxed);
      (plan.Some? ==> InPlace(task.request.messages, plan.value.projections))
      && (IsAlone(Compact(task, tick).result) <==> plan.Some? && ProjectionSuffices(task, plan.value))
      && (IsAlone(Compact(task, tick).result) ==>
            CutsTexts(task.request.messages, Compact(task, tick).result.value.messages, relaxed))
  {
    AloneMeans(task, tick);
    ProjectedCutsTexts(task);
    HistoryExactlyWhen(task.request.messages, task.policy.minimumRecentUnits);
    if MicroPlanOf(task).Some? {
      SavedTokensAre(task.request.messages,
                     !HasCompressibleHistory(task.request.messages, task.policy.minimumRecentUnits));
    }
  }

  // ----- the bill -----

  /** What the calls state they used: a reply's own usage, or else that of its summary. */
  function Statements(log: seq<Call>): seq<Usage.SummaryUsage> {
    if log == [] then []
    else
      var reply := log[|log| - 1].reply;
      Statements(log[..|log| - 1])
      + (match (reply.modelUsage, reply.result)
         case (Some(usage), _) => [usage]
         case (None, Success(SummaryOutcome(_, Some(usage)))) => [usage]
         case (None, Success(SummaryOutcome(_, None))) => []
         case (None, Failure(_)) => [])
  }

  lemma {:induction false} StatementsAreReports(log: seq<Call>)
    ensures Usage.Reports(CallUsages(log)) == Statements(log)
  {
    if log != [] {
      StatementsAreReports(log[..|log| - 1]);
      assert CallUsages(log)[..|log| - 1] == CallUsages(log[..|log| - 1]);
      assert CallUsages(log)[|log| - 1] == CallUsage(log[|log| - 1].reply);
    }
  }

  /**
    Unless the last reply spoils the account, a compaction reports of each counter the saturated sum of
    what its calls state, and reports it exactly if every call with a statement states it.
   */
  lemma BillIsSumOfStatements(task: Task, tick: nat, counter: Usage.Counter)
    requires !EndsSpoiled(Compact(task, tick).log)
    ensures var statements := Statements(Compact(task, tick).log);
      (Reported(Compact(task, tick).result).None? <==> statements == [])
      && Usage.MergedCount(Reported(Compact(task, tick).result), counter)
         == if Usage.AllKnown(statements, counter) then Some(Saturate(Usage.Known(statements, counter))) else None
  {
    CompactReportsExactlyWhen(task, tick);
    Usage.MergedCounter(CallUsages(Compact(task, tick).log), counter);
    StatementsAreReports(Compact(task, tick).log);
  }

  // ----- cancellation -----

  /** A Turn that is cancelled already is not compacted, and a summary is dropped by a late cancellation. */
  lemma CancelledIsNotCompacted(task: Task, tick: nat)
    ensures task.world.cancelled(tick) ==> Compact(task, tick) == Answer(Failure(Cancelled), [], tick + 1)
    ensures Compact(task, tick).result.Success? && Compact(task, tick).log != [] ==>
      1 <= Compact(task, tick).tick && !task.world.cancelled(tick + 1)
      && !task.world.cancelled(Compact(task, tick).tick - 1)
  {
    if Compact(task, tick).result.Success? && Compact(task, tick).log != [] {
      CompactIsFull(task, tick);
      FullLooks(LeftTask(task), tick + 1);
      SameTick(task, tick);
    }
  }

  lemma FullLooks(task: Task, tick: nat)
    ensures CompactFull(task, tick).result.Success? ==>
      1 <= CompactFull(task, tick).tick && !task.world.cancelled(tick)
      && !task.world.cancelled(CompactFull(task, tick).tick - 1)
  {
    PlansArePlannable(task);
    if PlanOf(task).Success? {
      RangeLooks(task, PlanOf(task).value, tick + 1);
    }
  }

  lemma RangeLooks(task: Task, plan: Plan, tick: nat)
    requires Plannable(task, plan)
    ensures var answer := SummarizePlan(task, plan, tick);
      answer.result.Success? ==> 1 <= answer.tick && !task.world.cancelled(answer.tick - 1)
  {
  }

  lemma SameTick(task: Task, tick: nat)
    requires Compact(task, tick).result.Success? && Compact(task, tick).log != []
    ensures Compact(task, tick).tick == CompactFull(LeftTask(task), tick + 1).tick
  {
  }

  // ----- the form of an outcome -----

  /** What a compaction calls itself follows from its records, each of which names its trigger. */
  ghost predicate WellFormed(c: Compaction, trigger: Trigger) {
    (forall record | record in Emitted(c) :: record.trigger == trigger && record.policyVersion == 1)
    && match c.kind
       case FullOnly => c.preApplied.None? && c.record.kind == Summary
       case MicroOnly => c.preApplied.None? && c.record.kind == MicroProjection
       case MicroThenFull =>
         c.preApplied.Some? && c.preApplied.value.kind == MicroProjection && c.record.kind == Summary
       case Mechanical => c.preApplied.None? && c.record.kind == MechanicalTruncation
  }

  lemma FullIsWellFormed(task: Task, tick: nat)
    requires CompactFull(task, tick).result.Success?
    ensures WellFormed(CompactFull(task, tick).result.value, task.trigger)
  {
    var plan, summary, outcome := FullSource(task, tick);
  }

  lemma AloneIsWellFormed(task: Task, plan: MicroPlan)
    requires ProjectOnly(task.ports, task.trigger, task.request, plan).Success?
    ensures WellFormed(ProjectOnly(task.ports, task.trigger, task.request, plan).value, task.trigger)
  {
  }

  lemma PairIsWellFormed(full: Compaction, first: Record, trigger: Trigger)
    requires WellFormed(full, trigger) && full.kind == FullOnly
    requires first.kind == MicroProjection && first.trigger == trigger && first.policyVersion == 1
    ensures WellFormed(full.(kind := MicroThenFull, preApplied := Some(first)), trigger)
  {
    assert full.record in Emitted(full);
    assert Emitted(full.(kind := MicroThenFull, preApplied := Some(first))) == [first, full.record];
  }

  lemma BothAreWellFormed(task: Task, plan: MicroPlan, tick: nat)
    requires ProjectThenSummarize(task, plan, tick).result.Success?
    ensures WellFormed(ProjectThenSummarize(task, plan, tick).result.value, task.trigger)
  {
    FullIsWellFormed(ProjectedTask(task, plan), tick);
    FullReplays(ProjectedTask(task, plan), tick);
    PairIsWellFormed(CompactFull(ProjectedTask(task, plan), tick).result.value,
                     BuildMicroRecord(task.ports, task.trigger, task.request, plan).value, task.trigger);
  }

  lemma CompactIsWellFormed(task: Task, tick: nat)
    requires Compact(task, tick).result.Success?
    ensures WellFormed(Compact(task, tick).result.value, task.trigger)
  {
    match MicroPlanOf(task)
    case None => FullIsWellFormed(task, tick + 1);
    case Some(plan) =>
      if SavesEnough(task, plan) {
        AloneIsWellFormed(task, plan);
      } else {
        BothAreWellFormed(task, plan, tick + 1);
      }
  }

  lemma TruncationIsWellFormed(ports: Ports, recent: nat, trigger: Trigger, target: uint64, request: Request)
    requires Truncate(ports, recent, trigger, target, request).Success?
    ensures WellFormed(Truncate(ports, recent, trigger, target, request).value, trigger)
    ensures Truncate(ports, recent, trigger, target, request).value.kind == OutcomeKind.Mechanical
  {
  }
}
