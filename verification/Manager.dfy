/** The context manager: one usage anchor, and the operations that note, use and clear it. */
module Manager {
  import opened Wrappers
  import opened Words
  import opened Transcript
  import opened Units
  import opened Micro
  import opened Usage
  import opened Errors
  import opened Planning
  import opened Chunking
  import opened ChunkLaws
  import opened Budget
  import opened Summarizer
  import opened Replay
  import opened Mechanical
  import opened Compacting

  /** The search for the summary's output size ends for these capabilities. */
  predicate Searchable(policy: Policy, capabilities: Option<Capabilities>) {
    capabilities.Some? && capabilities.value.maxContextTokens.Some? ==>
      SearchEnds(SummaryCeiling(policy, capabilities.value), capabilities.value.maxContextTokens.value)
  }

  method ComputeSummaryBudget(policy: Policy, capabilities: Option<Capabilities>)
    returns (budget: Result<Option<SummaryBudget>, ContextError>)
    requires Searchable(policy, capabilities)
    ensures budget == SummaryBudgetOf(policy, capabilities)
  {
    if capabilities.None? || capabilities.value.maxContextTokens.None? {
      return Success(None);
    }
    var window := capabilities.value.maxContextTokens.value;
    var output := FindLargestFittingOutput(SummaryCeiling(policy, capabilities.value), window);
    match output
    case None =>
      budget := Failure(CompressionRequestTooLarge(SatAdd(window, 1), window));
    case Some(size) =>
      budget := Success(Some(SummaryBudget(Max(SatSub(window, size), 1), size, window)));
  }

  /** A full compaction once its range is planned. */
  method SummarizeRange(task: Task, plan: Plan, start: nat)
    returns (result: Result<Compaction, ContextError>, ghost log: seq<Call>, tick: nat)
    requires Searchable(task.policy, task.capabilities) && PlanOf(task) == Success(plan) && Plannable(task, plan)
    ensures result == SummarizePlan(task, plan, start).result && tick == SummarizePlan(task, plan, start).tick
    ensures log == SummarizePlan(task, plan, start).log
  {
    log, tick := [], start;
    var budget := ComputeSummaryBudget(task.policy, task.capabilities);
    if budget.Failure? {
      return Failure(budget.error), log, tick;
    }
    var minimum := EstimateWith(task, plan, "");
    if Exceeds(task, minimum) {
      return Failure(Compacting.TooLarge(task, minimum)), log, tick;
    }
    var usage := new SummaryUsageAccumulator();
    PlannedRangeIsSliceable(task);
    var summary;
    summary, log, tick := ComputeSourceSummary(JobOf(task, plan), budget.value, usage, start);
    if summary.Failure? {
      return Failure(summary.error), log, tick;
    }
    if task.world.cancelled(tick) {
      return Failure(Attach(Cancelled, usage.usage)), log, tick + 1;
    }
    result, tick := Conclude(task, plan, summary.value, usage.usage), tick + 1;
  }

  lemma PlannedRangeIsSliceable(task: Task)
    requires PlanOf(task).Success?
    ensures var plan := PlanOf(task).value;
      Sliceable(task.request.messages, UnitsWithin(TranscriptUnits(task.request.messages), plan.start, plan.end))
  {
    var a, b := PlannedRun(task);
    PlannedUnits(task.request.messages, a, b);
  }

  method ComputePlanOf(task: Task) returns (plan: Result<Plan, ContextError>)
    ensures plan == PlanOf(task)
  {
    var hint := None;
    if task.capabilities.Some? {
      hint := InputBudget(task.policy, task.request, task.capabilities.value);
    }
    plan := ComputePlan(task.request.messages, task.policy.minimumRecentUnits, TokensBefore(task), task.target,
                        Ceiling(task), hint, task.ports.estimators.messages);
  }

  class ContextManager {
    const ports: Ports
    const policy: Policy
    /** The real input size of the last confirmed round, if it still describes the transcript. */
    var anchor: Option<Anchor>
    /** The messages of the request the anchor was noted for. */
    ghost var noted: seq<Message>

    ghost predicate Valid()
      reads this
    {
      ValidPolicy(policy)
      && (anchor.Some? ==> anchor.value.inputTokens > 0 && anchor.value.messageCount == |noted|)
    }

    constructor (ports: Ports, policy: Policy)
      requires ValidPolicy(policy)
      ensures Valid() && this.ports == ports && this.policy == policy && anchor == None
    {
      this.ports := ports;
      this.policy := policy;
      anchor := None;
      noted := [];
    }

    /** `new`: refuses an invalid policy. */
    static method Create(ports: Ports, policy: Policy) returns (manager: Result<ContextManager, ContextError>)
      ensures manager.Success? <==> ValidPolicy(policy)
      ensures manager.Failure? ==> manager.error == InvalidPolicy
      ensures manager.Success? ==> fresh(manager.value) && manager.value.Valid() && manager.value.anchor == None
      ensures manager.Success? ==> manager.value.ports == ports && manager.value.policy == policy
    {
      if !ValidPolicy(policy) {
        return Failure(InvalidPolicy);
      }
      var created := new ContextManager(ports, policy);
      manager := Success(created);
    }

    /** `estimate_request`. */
    method EstimateRequest(request: Request) returns (estimate: uint64)
      ensures estimate == AnchoredEstimate(anchor, request, ports.estimators)
    {
      if anchor.Some? && |request.messages| >= anchor.value.messageCount {
        var added := ports.estimators.messages(request.messages[anchor.value.messageCount..]);
        return SatAdd(anchor.value.inputTokens, added);
      }
      estimate := ports.estimators.request(request);
    }

    /** `note_model_round_usage`: a usage without a positive input size changes nothing. */
    method NoteModelRoundUsage(request: Request, usage: TokenUsage)
      requires Valid()
      modifies this
      ensures Valid()
      ensures if usage.inputTokens.Some? && usage.inputTokens.value > 0
              then anchor == Some(Anchor(usage.inputTokens.value, |request.messages|)) && noted == request.messages
              else anchor == old(anchor) && noted == old(noted)
    {
      if usage.inputTokens.Some? && usage.inputTokens.value > 0 {
        anchor := Some(Anchor(usage.inputTokens.value, |request.messages|));
        noted := request.messages;
      }
    }

    /** `clear_usage_anchor`. */
    method ClearUsageAnchor()
      requires Valid()
      modifies this
      ensures Valid() && anchor == None && noted == old(noted)
    {
      anchor := None;
    }

    /** `compact_with_capabilities`, and `compact` when no capabilities are known. */
    method Compact(
      world: World, request: Request, trigger: Trigger, target: uint64, capabilities: Option<Capabilities>, start: nat)
      returns (result: Result<Compaction, ContextError>, ghost log: seq<Call>, tick: nat)
      requires Valid() && Searchable(policy, capabilities)
      modifies this
      ensures Valid() && noted == old(noted)
      ensures var task := Task(ports, policy, world, request, trigger, target, capabilities);
        Answer(result, log, tick) == Compacting.Compact(task, start)
        && anchor == if Clears(task, start) then None else old(anchor)
    {
      var task := Task(ports, policy, world, request, trigger, target, capabilities);
      if world.cancelled(start) {
        return Failure(Cancelled), [], start + 1;
      }
      var relaxed := !HasCompressibleHistory(request.messages, policy.minimumRecentUnits);
      var plan := ComputeMicroPlan(request.messages, relaxed);
      if plan.None? {
        result, log, tick := CompactRange(task, start + 1);
      } else if SavesEnough(task, plan.value) {
        result := ApplyMicroCompaction(request, trigger, plan.value);
        log, tick := [], start + 1;
      } else {
        result, log, tick := ProjectAndCompactRange(task, plan.value, start + 1);
      }
    }

    /** `compact_full_internal`. */
    method CompactRange(task: Task, start: nat)
      returns (result: Result<Compaction, ContextError>, ghost log: seq<Call>, tick: nat)
      requires Valid() && Searchable(task.policy, task.capabilities)
      modifies this
      ensures Valid() && noted == old(noted)
      ensures Answer(result, log, tick) == CompactFull(task, start)
      ensures anchor == if result.Success? then None else old(anchor)
    {
      if task.world.cancelled(start) {
        return Failure(Cancelled), [], start + 1;
      }
      var plan := ComputePlanOf(task);
      if plan.Failure? {
        return Failure(plan.error), [], start + 1;
      }
      PlansArePlannable(task);
      result, log, tick := SummarizeRange(task, plan.value, start + 1);
      if result.Success? {
        anchor := None;
      }
    }

    /** The branch of `compact_internal` that projects first and then summarizes what is left. */
    method ProjectAndCompactRange(task: Task, plan: MicroPlan, start: nat)
      returns (result: Result<Compaction, ContextError>, ghost log: seq<Call>, tick: nat)
      requires Valid() && Searchable(task.policy, task.capabilities)
      modifies this
      ensures Valid() && noted == old(noted)
      ensures Answer(result, log, tick) == ProjectThenSummarize(task, plan, start)
      ensures anchor == if BuildMicroRecord(task.ports, task.trigger, task.request, plan).Success?
                        then None else old(anchor)
    {
      var projected := OverwriteProjections(task.request.messages, plan.projections);
      var record := BuildMicroRecord(task.ports, task.trigger, task.request, plan);
      if record.Failure? {
        return Failure(record.error), [], start;
      }
      anchor := None;
      result, log, tick := CompactRange(task.(request := task.request.(messages := projected)), start);
      match result
      case Success(c) =>
        result := Success(c.(kind := MicroThenFull, preApplied := Some(record.value)));
      case Failure(error) =>
        result := Failure(MicroAppliedThenFullFailed(record.value, projected, error));
    }

    /** `apply_micro_compaction`, which also serves a plan made without protecting recent rounds. */
    method ApplyMicroCompaction(request: Request, trigger: Trigger, plan: MicroPlan)
      returns (result: Result<Compaction, ContextError>)
      requires Valid()
      modifies this
      ensures Valid() && noted == old(noted)
      ensures result == ProjectOnly(ports, trigger, request, plan)
      ensures anchor == if result.Success? then None else old(anchor)
    {
      var record := BuildMicroRecord(ports, trigger, request, plan);
      if record.Failure? {
        return Failure(record.error);
      }
      var projected := OverwriteProjections(request.messages, plan.projections);
      anchor := None;
      result := Success(Compaction(MicroOnly, projected, record.value, None, None));
    }

    /** `mechanical_truncation`. */
    method MechanicalTruncation(world: World, request: Request, trigger: Trigger, target: uint64, tick: nat)
      returns (result: Result<Compaction, ContextError>)
      requires Valid()
      modifies this
      ensures Valid() && noted == old(noted)
      ensures result == if world.cancelled(tick) then Failure(Cancelled)
                        else Truncate(ports, policy.minimumRecentUnits, trigger, target, request)
      ensures anchor == if result.Success? then None else old(anchor)
    {
      if world.cancelled(tick) {
        return Failure(Cancelled);
      }
      result := ComputeTruncation(ports, policy.minimumRecentUnits, trigger, target, request);
      if result.Success? {
        anchor := None;
      }
    }
  }
}
