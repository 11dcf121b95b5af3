/** What every compaction guarantees, whatever the summarizer answers. */
module CompactingLaws {
  import opened Wrappers
  import opened Words
  import opened Text
  import opened Transcript
  import opened Units
  import opened Rewriting
  import opened Micro
  import opened MicroGains
  import Usage
  import opened Errors
  import opened Planning
  import opened Budget
  import opened Summarizer
  import opened Accounting
  import opened Replay
  import opened Preservation
  import opened Mechanical
  import opened Compacting

  // ----- live output equals replay -----

  /** Where a successful full compaction comes from. */
  lemma FullSource(task: Task, tick: nat) returns (plan: Plan, summary: string, outcome: Outcome)
    requires CompactFull(task, tick).result.Success?
    ensures PlanOf(task) == Success(plan) && Plannable(task, plan)
    ensures SummaryBudgetOf(task.policy, task.capabilities).Success?
    ensures outcome == SummarizeSource(JobOf(task, plan), SummaryBudgetOf(task.policy, task.capabilities).value, tick + 1)
    ensures outcome.summary == Success(summary)
    ensures CompactFull(task, tick).result == Conclude(task, plan, summary, Spent(outcome.log))
    ensures CompactFull(task, tick).log == outcome.log
  {
    PlansArePlannable(task);
    plan := PlanOf(task).value;
    outcome := SummarizeSource(JobOf(task, plan), SummaryBudgetOf(task.policy, task.capabilities).value, tick + 1);
    summary := outcome.summary.value;
  }

  lemma FullReplays(task: Task, tick: nat)
    requires CompactFull(task, tick).result.Success?
    ensures var c := CompactFull(task, tick).result.value;
      Apply(task.ports, c.record, task.request.messages) == Success(c.messages)
      && c.kind == FullOnly && c.preApplied == None
      && c.record.tokensAfter == task.ports.estimators.request(task.request.(messages := c.messages))
      && c.record.tokensAfter < c.record.tokensBefore == TokensBefore(task)
  {
    var plan, summary, outcome := FullSource(task, tick);
    var a, b := PlannedRun(task);
    TrimIdempotent(summary);
    SummaryReplays(task.ports, task.trigger, task.request.messages, plan.start, plan.end, Trim(summary),
                   TokensBefore(task), EstimateWith(task, plan, Trim(summary)));
  }

  lemma ProjectionReplays(ports: Ports, trigger: Trigger, request: Request, relaxed: bool)
    requires PlanMicro(request.messages, relaxed).Some?
    requires BuildMicroRecord(ports, trigger, request, PlanMicro(request.messages, relaxed).value).Success?
    ensures var plan := PlanMicro(request.messages, relaxed).value;
      Apply(ports, BuildMicroRecord(ports, trigger, request, plan).value, request.messages)
      == Success(Projected(request, plan).messages)
  {
    var plan := PlanMicro(request.messages, relaxed).value;
    var record := BuildMicroRecord(ports, trigger, request, plan).value;
    MicroReplays(ports, trigger, request.messages, relaxed, record.tokensBefore, record.tokensAfter);
  }

  lemma ApplyOne(ports: Ports, record: Record, messages: seq<Message>)
    ensures ApplyAll(ports, [record], messages) == Apply(ports, record, messages)
  {
    assert [record][1..] == [];
  }

  lemma ApplyTwo(ports: Ports, first: Record, second: Record, messages: seq<Message>)
    requires Apply(ports, first, messages).Success?
    ensures ApplyAll(ports, [first, second], messages)
         == Apply(ports, second, Apply(ports, first, messages).value)
  {
    assert [first, second][1..] == [second];
    ApplyOne(ports, second, Apply(ports, first, messages).value);
  }

  /**
    Applying the emitted records in order to the original transcript gives the live transcript, for
    every successful compaction of any kind; each record lowers the estimate, and the second begins
    where the first ends.
   */
  lemma CompactReplays(task: Task, tick: nat)
    requires Compact(task, tick).result.Success?
    ensures var c := Compact(task, tick).result.value;
      ApplyAll(task.ports, Emitted(c), task.request.messages) == Success(c.messages)
      && c.record.tokensAfter == task.ports.estimators.request(task.request.(messages := c.messages))
      && c.record.tokensAfter < c.record.tokensBefore
      && (match c.preApplied
          case None => c.record.tokensBefore == TokensBefore(task)
          case Some(first) =>
            c.kind == MicroThenFull && first.tokensAfter == c.record.tokensBefore
            && first.tokensBefore == TokensBefore(task) && first.tokensAfter < first.tokensBefore)
  {
    var c := Compact(task, tick).result.value;
    match MicroPlanOf(task)
    case None =>
      FullReplays(task, tick + 1);
      ApplyOne(task.ports, c.record, task.request.messages);
    case Some(plan) =>
      ProjectionReplays(task.ports, task.trigger, task.request,
                        !HasCompressibleHistory(task.request.messages, task.policy.minimumRecentUnits));
      if SavesEnough(task, plan) {
        ApplyOne(task.ports, c.record, task.request.messages);
      } else {
        FullReplays(ProjectedTask(task, plan), tick + 1);
        ApplyTwo(task.ports, c.preApplied.value, c.record, task.request.messages);
      }
  }

  // ----- usage -----

  /**
    What a compaction reports, and why: a success reports what its calls spent, and none failed; a
    failure is explained by the log.
   */
  ghost predicate AnswerAccounts(world: World, answer: Answer) {
    Accounts(world, answer.result, answer.log)
    && (answer.result.Success? ==> answer.result.value.modelUsage == Spent(answer.log))
  }

  lemma PlanErrorIsFree(task: Task)
    requires PlanOf(task).Failure?
    ensures ErrorUsage(PlanOf(task).error) == None && !PlanOf(task).error.MicroAppliedThenFullFailed?
  {
  }

  lemma FreeFailureAccounts(world: World, error: ContextError, tick: nat)
    requires ErrorUsage(error) == None && !error.MicroAppliedThenFullFailed?
    ensures AnswerAccounts(world, Answer(Failure(error), [], tick))
  {
    FreeErrorIsExplained(error);
  }

  lemma PlannedAccounts(task: Task, plan: Plan, tick: nat)
    requires Plannable(task, plan)
    ensures AnswerAccounts(task.world, SummarizePlan(task, plan, tick))
  {
    match SummaryBudgetOf(task.policy, task.capabilities)
    case Failure(error) =>
      FreeFailureAccounts(task.world, error, tick);
    case Success(budget) =>
      if task.capabilities.Some? {
        FreeFailureAccounts(task.world, TooLarge(task, EstimateWith(task, plan, "")), tick);
      }
      SummaryAccounts(JobOf(task, plan), budget, tick);
      var outcome := SummarizeSource(JobOf(task, plan), budget, tick);
      if outcome.summary.Success? {
        OwnErrorIsExplained(Cancelled, outcome.log);
        ConclusionAccounts(task, plan, outcome.summary.value, outcome.log);
      }
  }

  lemma ConclusionAccounts(task: Task, plan: Plan, summary: string, log: seq<Call>)
    requires Plannable(task, plan) && AllSucceeded(log)
    ensures match Conclude(task, plan, summary, Spent(log))
      case Success(c) => c.modelUsage == Spent(log)
      case Failure(error) => Explains(error, log)
  {
    var after := EstimateWith(task, plan, Trim(summary));
    OwnErrorIsExplained(EmptySummary, log);
    OwnErrorIsExplained(CompressionDidNotReduce(TokensBefore(task), after), log);
    if Exceeds(task, after) {
      OwnErrorIsExplained(TooLarge(task, after), log);
    }
  }

  lemma FullAccounts(task: Task, tick: nat)
    ensures AnswerAccounts(task.world, CompactFull(task, tick))
  {
    FreeFailureAccounts(task.world, Cancelled, tick + 1);
    PlansArePlannable(task);
    match PlanOf(task)
    case Failure(error) =>
      PlanErrorIsFree(task);
      FreeFailureAccounts(task.world, error, tick + 1);
    case Success(plan) =>
      PlannedAccounts(task, plan, tick + 1);
  }

  /** What a result reports of the usage of its calls. */
  function Reported(result: Result<Compaction, ContextError>): Option<Usage.SummaryUsage> {
    match result
    case Success(c) => c.modelUsage
    case Failure(error) => ErrorUsage(error)
  }

  lemma FullReportsExactlyWhen(task: Task, tick: nat)
    ensures var answer := CompactFull(task, tick);
      Reported(answer.result) == Spent(answer.log) <==> !EndsSpoiled(answer.log)
  {
    FullAccounts(task, tick);
    var answer := CompactFull(task, tick);
    match answer.result
    case Success(_) => NoneFailed(answer.log);
    case Failure(error) => ExplainedReportsExactlyWhen(error, answer.log);
  }

  lemma MicroErrorIsFree(task: Task, plan: MicroPlan)
    requires BuildMicroRecord(task.ports, task.trigger, task.request, plan).Failure?
    ensures ErrorUsage(BuildMicroRecord(task.ports, task.trigger, task.request, plan).error) == None
  {
  }

  ghost predicate ReportsExactly(answer: Answer) {
    Reported(answer.result) == Spent(answer.log) <==> !EndsSpoiled(answer.log)
  }

  lemma ProjectedReportsExactlyWhen(task: Task, plan: MicroPlan, tick: nat)
    ensures ReportsExactly(ProjectThenSummarize(task, plan, tick))
  {
    FullReportsExactlyWhen(ProjectedTask(task, plan), tick);
    if BuildMicroRecord(task.ports, task.trigger, task.request, plan).Failure? {
      MicroErrorIsFree(task, plan);
    }
  }

  lemma OnlyReportsExactlyWhen(task: Task, plan: MicroPlan, tick: nat)
    ensures ReportsExactly(Answer(ProjectOnly(task.ports, task.trigger, task.request, plan), [], tick))
  {
    if BuildMicroRecord(task.ports, task.trigger, task.request, plan).Failure? {
      MicroErrorIsFree(task, plan);
    }
  }

  /**
    For every summarizer: success or failure, a compaction reports the in-order merge of the usage of
    all its calls, each once, if and only if the last reply does not spoil the account.
   */
  lemma CompactReportsExactlyWhen(task: Task, tick: nat)
    ensures var answer := Compact(task, tick);
      Reported(answer.result) == Spent(answer.log) <==> !EndsSpoiled(answer.log)
  {
    match MicroPlanOf(task)
    case None =>
      FullReportsExactlyWhen(task, tick + 1);
    case Some(plan) =>
      ProjectedReportsExactlyWhen(task, plan, tick + 1);
      OnlyReportsExactlyWhen(task, plan, tick + 1);
  }

  lemma CompactAnswered(task: Task, tick: nat)
    ensures Answered(task.world, Compact(task, tick).log)
  {
    FullAccounts(task, tick + 1);
    if MicroPlanOf(task).Some? {
      FullAccounts(ProjectedTask(task, MicroPlanOf(task).value), tick + 1);
    }
  }

  /** With a summarizer whose errors are all of a kind that usage is attached to, the account is right. */
  lemma WrappableRepliesAreReported(task: Task, tick: nat)
    requires AllWrappable(task.world)
    ensures Reported(Compact(task, tick).result) == Spent(Compact(task, tick).log)
  {
    CompactAnswered(task, tick);
    WrappableNeverSpoils(task.world, Compact(task, tick).log);
    CompactReportsExactlyWhen(task, tick);
  }

  // ----- the anchor -----

  /** The caller's transcript is about to change: on success, and with a projection handed over. */
  ghost predicate Rewrites(result: Result<Compaction, ContextError>) {
    result.Success? || result.error.MicroAppliedThenFullFailed?
  }

  /** Nothing was projected, and the summarizer answered with the failure that says something was. */
  ghost predicate Forged(task: Task, tick: nat) {
    MicroPlanOf(task).None? && EndsForged(Compact(task, tick).log)
  }

  lemma FullForgedExactlyWhen(task: Task, tick: nat)
    ensures var answer := CompactFull(task, tick);
      (answer.result.Failure? && answer.result.error.MicroAppliedThenFullFailed?) <==> EndsForged(answer.log)
  {
    FullAccounts(task, tick);
    var answer := CompactFull(task, tick);
    match answer.result
    case Success(_) => NoneFailed(answer.log);
    case Failure(error) => ForgedExactlyWhen(error, answer.log);
  }

  /**
    For every summarizer: the anchor is cleared if and only if the transcript is about to change, in
    exactly the compactions whose result is not forged.
   */
  lemma ClearsExactlyUnlessForged(task: Task, tick: nat)
    ensures (Clears(task, tick) <==> Rewrites(Compact(task, tick).result)) <==> !Forged(task, tick)
  {
    FullForgedExactlyWhen(task, tick + 1);
  }

  /** A summarizer that never answers with a forged failure forges no compaction. */
  lemma NothingForgedHere(task: Task, tick: nat)
    requires NothingForged(task.world)
    ensures !Forged(task, tick)
  {
    FullAccounts(task, tick + 1);
    if MicroPlanOf(task).None? {
      NothingForgedInLog(task.world, Compact(task, tick).log);
    }
  }

  /**
    For every summarizer: a failed compaction that hands over a projected transcript, and is not
    forged, hands over the record that rebuilds it; its inner error is forged exactly if the
    summarizer answered so.
   */
  lemma FailureReplays(task: Task, tick: nat)
    requires Compact(task, tick).result.Failure? && !Forged(task, tick)
    requires Compact(task, tick).result.error.MicroAppliedThenFullFailed?
    ensures var error := Compact(task, tick).result.error;
      Apply(task.ports, error.record, task.request.messages) == Success(error.messages)
      && error.record.tokensAfter == task.ports.estimators.request(task.request.(messages := error.messages))
      && error.record.tokensAfter < error.record.tokensBefore == TokensBefore(task)
      && (error.inner.MicroAppliedThenFullFailed? <==> EndsForged(Compact(task, tick).log))
  {
    FullForgedExactlyWhen(task, tick + 1);
    var plan := MicroPlanOf(task).value;
    FullForgedExactlyWhen(ProjectedTask(task, plan), tick + 1);
    ProjectionReplays(task.ports, task.trigger, task.request,
                      !HasCompressibleHistory(task.request.messages, task.policy.minimumRecentUnits));
  }

  // ----- budgets -----

  /** The reserve depends on no capability but the window. */
  lemma SameLimit(policy: Policy, request: Request, known: Capabilities, window: uint64)
    requires known.maxContextTokens == Some(window)
    ensures StrictInputBudget(policy, request, known) == StrictInputBudget(policy, request, Capabilities(Some(window), None))
  {
  }

  /** With a known window, a summary that summarizing returned passes the later check of its size. */
  lemma LateCheckNeverFires(task: Task, plan: Plan, budget: Option<Chunking.SummaryBudget>, tick: nat)
    requires Plannable(task, plan) && SummaryBudgetOf(task.policy, task.capabilities) == Success(budget)
    requires SummarizeSource(JobOf(task, plan), budget, tick).summary.Success?
    ensures var summary := SummarizeSource(JobOf(task, plan), budget, tick).summary.value;
      !Exceeds(task, EstimateWith(task, plan, Trim(summary)))
  {
    if budget.Some? {
      AcceptedSummaryFits(JobOf(task, plan), budget.value, tick);
      SameLimit(task.policy, task.request, task.capabilities.value, budget.value.maxContextTokens);
    }
  }

  /** A full compaction under a known window produces a request that fits it. */
  lemma FullFits(task: Task, tick: nat)
    requires CompactFull(task, tick).result.Success?
    requires task.capabilities.Some? && task.capabilities.value.maxContextTokens.Some?
    ensures var c := CompactFull(task, tick).result.value;
      c.record.tokensAfter == task.ports.estimators.request(task.request.(messages := c.messages))
      && FitsWindow(task.policy, task.request, task.capabilities.value, c.record.tokensAfter)
  {
    var plan, summary, outcome := FullSource(task, tick);
    ReserveLeavesHalf(task.policy, task.request, task.capabilities.value, task.capabilities.value.maxContextTokens.value);
  }

  lemma SavingMeetsTarget(before: uint64, after: uint64, saved: uint64, target: uint64, ceiling: uint32, loss: nat)
    requires after <= before && after + saved <= before + loss && saved <= U64_MAX / 4
    requires saved >= DesiredReduction(before, target, ceiling)
    ensures after <= target + Max(loss - ceiling, 0)
  {
  }

  /** The estimate after a projection, for the built-in estimator without saturation. */
  lemma ProjectedEstimate(request: Request, relaxed: bool)
    requires PlanMicro(request.messages, relaxed).Some?
    requires Allocated(request.messages) && RequestTokens(request) <= U64_MAX
    ensures var plan := PlanMicro(request.messages, relaxed).value;
      var after := EstimateRequest(Projected(request, plan));
      after <= EstimateRequest(request) && plan.savedTokens <= U64_MAX / 4
      && after + plan.savedTokens <= EstimateRequest(request) + 3 * |plan.projections| / 4
  {
    MicroReduction(request.messages, relaxed);
    ScopeInRange(request.messages, relaxed);
  }

  /**
    A projection alone ends at most `3k/4` tokens less the output ceiling above the target, for `k`
    projections; so it meets the target whenever the ceiling covers that rounding loss.
   */
  lemma MicroOnlyMeetsTarget(task: Task, tick: nat)
    requires Compact(task, tick).result.Success? && Compact(task, tick).result.value.kind == MicroOnly
    requires task.ports.estimators == BUILT_IN
    requires Allocated(task.request.messages) && RequestTokens(task.request) <= U64_MAX
    ensures var record := Compact(task, tick).result.value.record;
      record.tokensAfter <= task.target + Max(3 * |record.projections| / 4 - Ceiling(task), 0)
  {
    var plan := MicroOnlySource(task, tick);
    ProjectedEstimate(task.request, !HasCompressibleHistory(task.request.messages, task.policy.minimumRecentUnits));
    SavingMeetsTarget(TokensBefore(task), EstimateRequest(Projected(task.request, plan)), plan.savedTokens,
                      task.target, Ceiling(task), 3 * |plan.projections| / 4);
  }

  lemma MicroOnlySource(task: Task, tick: nat) returns (plan: MicroPlan)
    requires Compact(task, tick).result.Success? && Compact(task, tick).result.value.kind == MicroOnly
    ensures MicroPlanOf(task) == Some(plan) && SavesEnough(task, plan)
    ensures var record := Compact(task, tick).result.value.record;
      record.projections == plan.projections
      && record.tokensAfter == task.ports.estimators.request(Projected(task.request, plan))
  {
    if MicroPlanOf(task).None? {
      FullReplays(task, tick + 1);
    }
    plan := MicroPlanOf(task).value;
  }

  /** A full compaction keeps the recent window verbatim. */
  lemma FullKeepsRecent(task: Task, tick: nat)
    requires CompactFull(task, tick).result.Success?
    ensures RecentKept(task.request.messages, CompactFull(task, tick).result.value.messages,
                       task.policy.minimumRecentUnits)
  {
    var plan, summary, outcome := FullSource(task, tick);
    var a, b := PlannedRun(task);
    RecentUnitsKept(task.request.messages, a, b, task.policy.minimumRecentUnits,
                    SummaryMessage(task.ports, Trim(summary)));
  }

  // ----- projections that do not reduce -----

  /** Some planned projection saves a token. */
  ghost predicate SavesSomewhere(messages: seq<Message>, plan: MicroPlan) {
    exists p | p in plan.projections :: SavesAToken(messages, p)
  }

  /**
    For the built-in estimator without saturation a micro record is built if and only if some planned
    text saves more bytes than its last, partly filled token holds.
   */
  lemma RecordBuiltExactlyWhen(ports: Ports, trigger: Trigger, request: Request, relaxed: bool)
    requires PlanMicro(request.messages, relaxed).Some? && ports.estimators == BUILT_IN
    requires Allocated(request.messages) && RequestTokens(request) <= U64_MAX
    ensures var plan := PlanMicro(request.messages, relaxed).value;
      BuildMicroRecord(ports, trigger, request, plan).Success? <==> SavesSomewhere(request.messages, plan)
  {
    MicroReduction(request.messages, relaxed);
    MicroReducesExactlyWhen(request.messages, relaxed);
  }

  lemma StopsWithRecord(task: Task, tick: nat)
    requires !task.world.cancelled(tick) && MicroPlanOf(task).Some?
    ensures var built := BuildMicroRecord(task.ports, task.trigger, task.request, MicroPlanOf(task).value);
      var answer := Compact(task, tick);
      (built.Success? ==> answer.result.Success? || answer.result.error.MicroAppliedThenFullFailed?)
      && (built.Failure? ==> answer.log == [] && answer.result == Failure(built.error)
                             && built.error.CompressionDidNotReduce?)
  {
  }

  /**
    A plan none of whose projections saves a token stops the whole compaction before any summarizer
    call, and nothing else stops it that way: the branch that refuses to build a record which does not
    reduce is taken exactly then.
   */
  lemma CompactStopsExactlyWhen(task: Task, tick: nat)
    requires !task.world.cancelled(tick) && MicroPlanOf(task).Some? && task.ports.estimators == BUILT_IN
    requires Allocated(task.request.messages) && RequestTokens(task.request) <= U64_MAX
    ensures var answer := Compact(task, tick);
      (answer.log == [] && answer.result.Failure? && answer.result.error.CompressionDidNotReduce?)
      <==> !SavesSomewhere(task.request.messages, MicroPlanOf(task).value)
  {
    StopsWithRecord(task, tick);
    RecordBuiltExactlyWhen(task.ports, task.trigger, task.request,
      !HasCompressibleHistory(task.request.messages, task.policy.minimumRecentUnits));
  }

  // ----- relaxed projections and the number of calls -----

  lemma ProjectionKeepsHistory(messages: seq<Message>, relaxed: bool, recent: nat)
    requires PlanMicro(messages, relaxed).Some?
    ensures var messages' := ApplyProjections(messages, PlanMicro(messages, relaxed).value.projections);
      TranscriptUnits(messages') == TranscriptUnits(messages)
      && (HasCompressibleHistory(messages', recent) <==> HasCompressibleHistory(messages, recent))
  {
    PlanCompacts(messages, relaxed);
    var projections := PlanMicro(messages, relaxed).value.projections;
    AppliedKeepsShape(messages, projections);
    SameShapeUnits(messages, ApplyProjections(messages, projections), 0);
  }

  /** A plan exists exactly when there is history to compress. */
  lemma PlansExactlyWhen(task: Task)
    ensures PlanOf(task).Success? <==> HasCompressibleHistory(task.request.messages, task.policy.minimumRecentUnits)
  {
    var hint := match task.capabilities
      case Some(known) => InputBudget(task.policy, task.request, known)
      case None => None;
    PlanFailsExactlyWhen(task.request.messages, task.policy.minimumRecentUnits, TokensBefore(task), task.target,
                         Ceiling(task), hint, task.ports.estimators.messages);
  }

  /** Without compressible history the summarizer is never called, and only a projection can succeed. */
  lemma NoHistoryNoCall(task: Task, tick: nat)
    requires !HasCompressibleHistory(task.request.messages, task.policy.minimumRecentUnits)
    ensures Compact(task, tick).log == []
    ensures Compact(task, tick).result.Success? ==> Compact(task, tick).result.value.kind == MicroOnly
  {
    PlansExactlyWhen(task);
    if MicroPlanOf(task).Some? {
      ProjectionKeepsHistory(task.request.messages, true, task.policy.minimumRecentUnits);
      PlansExactlyWhen(ProjectedTask(task, MicroPlanOf(task).value));
    }
  }

  lemma RangeCallsBounded(task: Task, plan: Plan, tick: nat, a: nat, b: nat)
    requires Plannable(task, plan) && a < b <= |TranscriptUnits(task.request.messages)|
    requires var units := TranscriptUnits(task.request.messages); plan == Plan(units[a].start, units[b - 1].end)
    ensures |SummarizePlan(task, plan, tick).log| <= (1 + MAX_RECURSION) * (b - a)
  {
    if SummaryBudgetOf(task.policy, task.capabilities).Success? {
      CallsAreBounded(JobOf(task, plan), SummaryBudgetOf(task.policy, task.capabilities).value, tick, a, b);
    }
  }

  lemma PlannedCallsBounded(task: Task, plan: Plan, tick: nat)
    requires PlanOf(task) == Success(plan) && Plannable(task, plan)
    ensures |SummarizePlan(task, plan, tick).log| <= (1 + MAX_RECURSION) * |TranscriptUnits(task.request.messages)|
  {
    var a, b := PlannedRun(task);
    RangeCallsBounded(task, plan, tick, a, b);
    MulMonotone(1 + MAX_RECURSION, b - a, |TranscriptUnits(task.request.messages)|);
  }

  lemma FullCallsBounded(task: Task, tick: nat)
    ensures |CompactFull(task, tick).log| <= (1 + MAX_RECURSION) * |TranscriptUnits(task.request.messages)|
  {
    PlansArePlannable(task);
    if PlanOf(task).Success? {
      PlannedCallsBounded(task, PlanOf(task).value, tick + 1);
    }
  }

  /** Whatever the summarizer answers, a compaction makes at most nine calls for each unit. */
  lemma CompactCallsBounded(task: Task, tick: nat)
    ensures |Compact(task, tick).log| <= (1 + MAX_RECURSION) * |TranscriptUnits(task.request.messages)|
  {
    FullCallsBounded(task, tick + 1);
    if MicroPlanOf(task).Some? {
      FullCallsBounded(ProjectedTask(task, MicroPlanOf(task).value), tick + 1);
      ProjectionKeepsHistory(task.request.messages,
        !HasCompressibleHistory(task.request.messages, task.policy.minimumRecentUnits), task.policy.minimumRecentUnits);
    }
  }
}
