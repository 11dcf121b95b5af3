/** One compaction: projecting old tool results, and summarizing a range when that is not enough. */
module Compacting {
  import opened Wrappers
  import opened Words
  import opened Text
  import opened Transcript
  import opened Units
  import opened Micro
  import opened Usage
  import opened Errors
  import opened Planning
  import opened Budget
  import opened Summarizer
  import opened Replay

  datatype Task = Task(
    ports: Ports, policy: Policy, world: World, request: Request,
    trigger: Trigger, target: uint64, capabilities: Option<Capabilities>)

  datatype Answer = Answer(result: Result<Compaction, ContextError>, log: seq<Call>, tick: nat)

  /** The estimate of the whole request; a compaction never uses the anchored one. */
  function TokensBefore(task: Task): uint64 {
    task.ports.estimators.request(task.request)
  }

  function Ceiling(task: Task): uint32 {
    CeilingOf(task.policy, task.capabilities)
  }

  /** An estimate above the strict input budget of a known window. */
  predicate Exceeds(task: Task, estimate: uint64) {
    task.capabilities.Some?
    && match StrictInputBudget(task.policy, task.request, task.capabilities.value)
       case Some(limit) => estimate > limit
       case None => false
  }

  function TooLarge(task: Task, estimate: uint64): ContextError
    requires task.capabilities.Some?
  {
    var known := task.capabilities.value;
    CompressionRequestTooLarge(
      SatAdd(estimate, ReservedOutput(task.policy, task.request, known)),
      if known.maxContextTokens.Some? then known.maxContextTokens.value else U64_MAX)
  }

  function PlanOf(task: Task): Result<Plan, ContextError> {
    var hint := match task.capabilities
      case Some(known) => InputBudget(task.policy, task.request, known)
      case None => None;
    PlanReplacement(task.request.messages, task.policy.minimumRecentUnits, TokensBefore(task), task.target,
                    Ceiling(task), hint, task.ports.estimators.messages)
  }

  /** A plan covers a run of unprotected units before the recent window. */
  lemma PlannedRun(task: Task) returns (a: nat, b: nat)
    requires PlanOf(task).Success?
    ensures var messages, plan := task.request.messages, PlanOf(task).value;
      var units := TranscriptUnits(messages);
      OpenRun(units, a, b) && b <= TailStart(units, task.policy.minimumRecentUnits)
      && plan == Plan(units[a].start, units[b - 1].end)
      && plan.start < plan.end <= |messages| && Accepts(messages, plan.start, plan.end)
  {
    var hint := match task.capabilities
      case Some(known) => InputBudget(task.policy, task.request, known)
      case None => None;
    a, b := PlanIsChosen(task.request.messages, task.policy.minimumRecentUnits, TokensBefore(task), task.target,
                         Ceiling(task), hint, task.ports.estimators.messages);
  }

  predicate Plannable(task: Task, plan: Plan) {
    plan.start <= plan.end <= |task.request.messages|
  }

  lemma PlansArePlannable(task: Task)
    ensures PlanOf(task).Success? ==> Plannable(task, PlanOf(task).value)
  {
    if PlanOf(task).Success? {
      var a, b := PlannedRun(task);
    }
  }

  function JobOf(task: Task, plan: Plan): Job {
    Job(task.ports, task.policy, task.world, task.request, plan)
  }

  /** The estimate of the request rebuilt with a summary. */
  function EstimateWith(task: Task, plan: Plan, summary: string): uint64
    requires Plannable(task, plan)
  {
    task.ports.estimators.request(Compressed(JobOf(task, plan), summary))
  }

  /** The end of a full compaction: the summary must not be empty, must fit and must reduce. */
  function Conclude(
    task: Task, plan: Plan, summary: string, usage: Option<SummaryUsage>): Result<Compaction, ContextError>
    requires Plannable(task, plan)
  {
    if Trim(summary) == "" then Failure(Attach(EmptySummary, usage))
    else
      var after := EstimateWith(task, plan, Trim(summary));
      if Exceeds(task, after) then Failure(Attach(TooLarge(task, after), usage))
      else if after >= TokensBefore(task) then Failure(Attach(CompressionDidNotReduce(TokensBefore(task), after), usage))
      else
        var record := SummaryRecord(task.ports, task.trigger, task.request.messages, plan.start, plan.end,
                                    Trim(summary), TokensBefore(task), after);
        Success(Compaction(FullOnly, Compressed(JobOf(task, plan), Trim(summary)).messages, record, None, usage))
  }

  function SummarizePlan(task: Task, plan: Plan, tick: nat): Answer
    requires Plannable(task, plan)
  {
    match SummaryBudgetOf(task.policy, task.capabilities)
    case Failure(error) => Answer(Failure(error), [], tick)
    case Success(budget) =>
      if Exceeds(task, EstimateWith(task, plan, "")) then
        Answer(Failure(TooLarge(task, EstimateWith(task, plan, ""))), [], tick)
      else
        var outcome := SummarizeSource(JobOf(task, plan), budget, tick);
        match outcome.summary
        case Failure(error) => Answer(Failure(error), outcome.log, outcome.tick)
        case Success(summary) =>
          if task.world.cancelled(outcome.tick) then
            Answer(Failure(Attach(Cancelled, Spent(outcome.log))), outcome.log, outcome.tick + 1)
          else Answer(Conclude(task, plan, summary, Spent(outcome.log)), outcome.log, outcome.tick + 1)
  }

  /** `compact_full_internal`. */
  function CompactFull(task: Task, tick: nat): Answer {
    if task.world.cancelled(tick) then Answer(Failure(Cancelled), [], tick + 1)
    else match PlanOf(task)
      case Failure(error) => Answer(Failure(error), [], tick + 1)
      case Success(plan) =>
        PlansArePlannable(task);
        SummarizePlan(task, plan, tick + 1)
  }

  function Projected(request: Request, plan: MicroPlan): Request {
    request.(messages := ApplyProjections(request.messages, plan.projections))
  }

  /** `build_micro_record`. */
  function BuildMicroRecord(
    ports: Ports, trigger: Trigger, request: Request, plan: MicroPlan): Result<Record, ContextError>
  {
    var before := ports.estimators.request(request);
    var after := ports.estimators.request(Projected(request, plan));
    if after >= before then Failure(CompressionDidNotReduce(before, after))
    else Success(MicroRecord(ports, trigger, request.messages, plan, before, after))
  }

  /** `apply_micro_compaction`. */
  function ProjectOnly(
    ports: Ports, trigger: Trigger, request: Request, plan: MicroPlan): Result<Compaction, ContextError>
  {
    match BuildMicroRecord(ports, trigger, request, plan)
    case Failure(error) => Failure(error)
    case Success(record) => Success(Compaction(MicroOnly, Projected(request, plan).messages, record, None, None))
  }

  function ProjectedTask(task: Task, plan: MicroPlan): Task {
    task.(request := Projected(task.request, plan))
  }

  function ProjectThenSummarize(task: Task, plan: MicroPlan, tick: nat): Answer {
    match BuildMicroRecord(task.ports, task.trigger, task.request, plan)
    case Failure(error) => Answer(Failure(error), [], tick)
    case Success(record) =>
      var full := CompactFull(ProjectedTask(task, plan), tick);
      match full.result
      case Success(c) =>
        Answer(Success(c.(kind := MicroThenFull, preApplied := Some(record))), full.log, full.tick)
      case Failure(error) =>
        Answer(Failure(MicroAppliedThenFullFailed(record, Projected(task.request, plan).messages, error)),
               full.log, full.tick)
  }

  /** The micro plan of a task; the protected rounds are given up when no range could be summarized. */
  function MicroPlanOf(task: Task): Option<MicroPlan> {
    PlanMicro(task.request.messages, !HasCompressibleHistory(task.request.messages, task.policy.minimumRecentUnits))
  }

  predicate SavesEnough(task: Task, plan: MicroPlan) {
    plan.savedTokens >= DesiredReduction(TokensBefore(task), task.target, Ceiling(task))
  }

  /** `compact_internal`. */
  function Compact(task: Task, tick: nat): Answer {
    if task.world.cancelled(tick) then Answer(Failure(Cancelled), [], tick + 1)
    else match MicroPlanOf(task)
      case None => CompactFull(task, tick + 1)
      case Some(plan) =>
        if SavesEnough(task, plan) then
          Answer(ProjectOnly(task.ports, task.trigger, task.request, plan), [], tick + 1)
        else ProjectThenSummarize(task, plan, tick + 1)
  }

  /** Whether a compaction clears the usage anchor on its way. */
  predicate Clears(task: Task, tick: nat) {
    !task.world.cancelled(tick)
    && match MicroPlanOf(task)
       case None => CompactFull(task, tick + 1).result.Success?
       case Some(plan) => BuildMicroRecord(task.ports, task.trigger, task.request, plan).Success?
  }

  /** The records a compaction emits, in the order in which they are applied. */
  function Emitted(c: Compaction): seq<Record> {
    (match c.preApplied case Some(record) => [record] case None => []) + [c.record]
  }
}
