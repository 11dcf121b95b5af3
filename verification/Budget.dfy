/** Context budgets: output reserve, compaction triggers, admission, and the summary's own budget. */
module Budget {
  import opened Wrappers
  import opened Words
  import opened Transcript
  import opened Errors
  import opened Chunking

  datatype Policy = Policy(
    precompressEnabled: bool, triggerPercent: uint8, targetPercent: uint8, reservedOutputTokens: uint64,
    forcedTargetPercent: uint8, minimumRecentUnits: nat, summaryMaxOutputTokens: uint32)

  /** `ContextPolicy::validate`. */
  predicate ValidPolicy(policy: Policy) {
    1 <= policy.triggerPercent <= 100
    && 0 < policy.targetPercent < policy.triggerPercent
    && 1 <= policy.forcedTargetPercent < 100
    && policy.reservedOutputTokens > 0 && policy.minimumRecentUnits > 0 && policy.summaryMaxOutputTokens > 0
  }

  datatype Capabilities = Capabilities(maxContextTokens: Option<uint64>, maxOutputTokens: Option<uint64>)

  /** Estimates of a whole request and of a list of messages; any estimator may be plugged in. */
  datatype Estimators = Estimators(request: Request -> uint64, messages: seq<Message> -> uint64)

  /** The program's own estimator. */
  const BUILT_IN: Estimators := Estimators(EstimateRequest, EstimateMessages)

  /** The real input size of a confirmed round and the number of messages its request had. */
  datatype Anchor = Anchor(inputTokens: uint64, messageCount: nat)

  const PREDICTIVE_GROWTH_TOKENS: uint64 := 15_000

  /** `ContextManager::estimate_request`. */
  function AnchoredEstimate(anchor: Option<Anchor>, request: Request, estimators: Estimators): uint64 {
    match anchor
    case Some(a) =>
      if |request.messages| >= a.messageCount
      then SatAdd(a.inputTokens, estimators.messages(request.messages[a.messageCount..]))
      else estimators.request(request)
    case None => estimators.request(request)
  }

  /** `effective_reserved_output`: never more than half of a known window. */
  function ReservedOutput(policy: Policy, request: Request, capabilities: Capabilities): uint64 {
    var reserved := match request.maxOutputTokens case Some(n) => n case None => policy.reservedOutputTokens;
    match capabilities.maxContextTokens
    case Some(window) => Min(reserved, window / 2)
    case None => reserved
  }

  /** `strict_main_input_budget`. */
  function StrictInputBudget(policy: Policy, request: Request, capabilities: Capabilities): Option<uint64> {
    match capabilities.maxContextTokens
    case Some(window) => Some(SatSub(window, ReservedOutput(policy, request, capabilities)))
    case None => None
  }

  /** `input_budget`. */
  function InputBudget(policy: Policy, request: Request, capabilities: Capabilities): Option<uint64> {
    match StrictInputBudget(policy, request, capabilities)
    case Some(budget) => Some(Max(budget, 1))
    case None => None
  }

  /** `request_fits_context_window`, for an estimate of the request. */
  predicate FitsWindow(policy: Policy, request: Request, capabilities: Capabilities, estimate: uint64) {
    match capabilities.maxContextTokens
    case Some(window) =>
      var output := ReservedOutput(policy, request, capabilities);
      output <= window && estimate <= window - output
    case None => false
  }

  datatype Admission = Admitted | Blocked(breakdown: Breakdown)

  /** `admission_check`, for the estimate without an anchor. */
  function AdmissionCheck(policy: Policy, request: Request, capabilities: Capabilities, estimate: uint64): Admission {
    match capabilities.maxContextTokens
    case None => Admitted
    case Some(window) =>
      var reserved := ReservedOutput(policy, request, capabilities);
      var budget := Max(SatSub(window, reserved), 1);
      if estimate <= budget then Admitted
      else
        var tools := Saturate(ToolsTokens(request.tools));
        Blocked(Breakdown(window, reserved, budget, estimate, tools, SatSub(estimate, tools), SatSub(estimate, budget)))
  }

  function TargetOf(budget: uint64, percent: uint8): uint64 {
    Max(PercentOf(budget, percent), 1)
  }

  /** `precompression_target`. */
  function PrecompressionTarget(
    policy: Policy, request: Request, capabilities: Capabilities, estimate: uint64): Option<uint64>
  {
    if !policy.precompressEnabled then None
    else match InputBudget(policy, request, capabilities)
      case None => None
      case Some(budget) =>
        if estimate >= PercentOf(budget, policy.triggerPercent)
        then Some(TargetOf(budget, policy.targetPercent)) else None
  }

  /** `predictive_precompression_target`. */
  function PredictiveTarget(
    policy: Policy, request: Request, capabilities: Capabilities, estimate: uint64): Option<uint64>
  {
    if !policy.precompressEnabled then None
    else match InputBudget(policy, request, capabilities)
      case None => None
      case Some(budget) =>
        if estimate >= PercentOf(budget, policy.triggerPercent) then None
        else
          var growth := SatAdd(policy.reservedOutputTokens, PREDICTIVE_GROWTH_TOKENS);
          if SatAdd(estimate, growth) >= budget then Some(TargetOf(budget, policy.targetPercent)) else None
  }

  // ----- coherence of the decisions -----

  /** The reserve leaves at least half of any window to the input. */
  lemma ReserveLeavesHalf(policy: Policy, request: Request, capabilities: Capabilities, window: uint64)
    requires capabilities.maxContextTokens == Some(window)
    ensures var reserved := ReservedOutput(policy, request, capabilities);
      reserved <= window && StrictInputBudget(policy, request, capabilities) == Some(window - reserved)
      && 2 * (window - reserved) >= window
  {
  }

  /** A request that does not trigger precompression fits its window. */
  lemma UntriggeredFits(policy: Policy, request: Request, capabilities: Capabilities, estimate: uint64)
    requires ValidPolicy(policy) && policy.precompressEnabled && capabilities.maxContextTokens.Some?
    requires PrecompressionTarget(policy, request, capabilities, estimate).None?
    ensures FitsWindow(policy, request, capabilities, estimate)
  {
    var budget := InputBudget(policy, request, capabilities).value;
    PercentOfIsAShare(budget, policy.triggerPercent);
    ReserveLeavesHalf(policy, request, capabilities, capabilities.maxContextTokens.value);
  }

  /** A compaction is asked for, by whichever trigger. */
  function TriggeredTarget(
    policy: Policy, request: Request, capabilities: Capabilities, estimate: uint64): Option<uint64>
  {
    var budgeted := PrecompressionTarget(policy, request, capabilities, estimate);
    if budgeted.Some? then budgeted else PredictiveTarget(policy, request, capabilities, estimate)
  }

  /**
    The two triggers never fire together, and they escalate: a larger estimate keeps a fired budget
    trigger, turns a predictive one at most into the budget one, and never changes the target.
   */
  lemma TriggersEscalate(
    policy: Policy, request: Request, capabilities: Capabilities, estimate: uint64, larger: uint64)
    requires estimate <= larger
    ensures PrecompressionTarget(policy, request, capabilities, estimate).None?
         || PredictiveTarget(policy, request, capabilities, estimate).None?
    ensures PrecompressionTarget(policy, request, capabilities, estimate).Some? ==>
      PrecompressionTarget(policy, request, capabilities, larger).Some?
    ensures TriggeredTarget(policy, request, capabilities, estimate).Some? ==>
      TriggeredTarget(policy, request, capabilities, larger)
      == TriggeredTarget(policy, request, capabilities, estimate)
  {
  }

  lemma PercentMonotone(value: uint64, p: uint8, q: uint8)
    requires p <= q
    ensures PercentOf(value, p) <= PercentOf(value, q)
  {
    MulMonotone(value, p, q);
  }

  /** A fired trigger asks for no more than the current estimate, unless that is zero. */
  lemma TriggeredTargetBelowEstimate(policy: Policy, request: Request, capabilities: Capabilities, estimate: uint64)
    requires ValidPolicy(policy)
    requires PrecompressionTarget(policy, request, capabilities, estimate).Some?
    ensures PrecompressionTarget(policy, request, capabilities, estimate).value <= Max(estimate, 1)
  {
    var budget := InputBudget(policy, request, capabilities).value;
    PercentMonotone(budget, policy.targetPercent, policy.triggerPercent);
  }

  /**
    With a known window and no anchor, admission agrees with the fit of the request in every case but
    one: an empty window, whose budget is raised to one token, admits an estimate of exactly one.
   */
  lemma AdmissionAgreesExactlyWhen(policy: Policy, request: Request, capabilities: Capabilities, estimators: Estimators)
    requires capabilities.maxContextTokens.Some?
    ensures (AdmissionCheck(policy, request, capabilities, estimators.request(request)).Admitted?
             <==> FitsWindow(policy, request, capabilities, AnchoredEstimate(None, request, estimators)))
      <==> !(capabilities.maxContextTokens == Some(0) && estimators.request(request) == 1)
  {
    ReserveLeavesHalf(policy, request, capabilities, capabilities.maxContextTokens.value);
  }

  /** With the program's own estimator there is no exception: it never estimates one. */
  lemma BuiltInAdmissionAgrees(policy: Policy, request: Request, capabilities: Capabilities)
    requires capabilities.maxContextTokens.Some?
    ensures AdmissionCheck(policy, request, capabilities, EstimateRequest(request)).Admitted?
       <==> FitsWindow(policy, request, capabilities, AnchoredEstimate(None, request, BUILT_IN))
  {
    AdmissionAgreesExactlyWhen(policy, request, capabilities, BUILT_IN);
    assert EstimateRequest(request) >= PER_REQUEST_OVERHEAD_TOKENS;
  }

  /** The breakdown of a blocked request adds up. */
  lemma BlockedAddsUp(policy: Policy, request: Request, capabilities: Capabilities)
    requires capabilities.maxContextTokens.Some? && capabilities.maxContextTokens.value >= 1
    requires AdmissionCheck(policy, request, capabilities, EstimateRequest(request)).Blocked?
    ensures var b := AdmissionCheck(policy, request, capabilities, EstimateRequest(request)).breakdown;
      b.reservedOutput + b.inputBudget == b.maxContextTokens
      && b.overflowTokens > 0 && b.inputBudget + b.overflowTokens == b.estimatedFixedInput
      && b.toolsTokens + b.messagesTokens == b.estimatedFixedInput
  {
    ReserveLeavesHalf(policy, request, capabilities, capabilities.maxContextTokens.value);
  }

  // ----- the summary's output -----

  /** The estimate of a summary request without any history. */
  const TEMPLATE_TOKENS: uint64 := 245

  predicate OutputFits(candidate: uint32, window: uint64) {
    SatAdd(TEMPLATE_TOKENS, candidate) <= window
  }

  /** The greatest output in `[1, ceiling]` that fits beside the template, if any does. */
  function LargestFittingOutput(ceiling: uint32, window: uint64): Option<uint32> {
    if !OutputFits(1, window) then None
    else Some(Min(Max(ceiling, 1), window - TEMPLATE_TOKENS))
  }

  datatype Search = Search(low: uint32, high: uint32, best: Option<uint32>)

  datatype Probe = Stop | Next(state: Search)

  /** One iteration of the binary search. */
  function SearchStep(state: Search, window: uint64): Probe {
    if state.low > state.high then Stop
    else
      var candidate := SatAdd32(state.low, SatSub32(state.high, state.low) / 2);
      if OutputFits(candidate, window) then
        Next(Search(SatAdd32(candidate, 1), state.high, Some(candidate)))
      else if candidate == 1 then Stop
      else Next(Search(state.low, SatSub32(candidate, 1), state.best))
  }

  /** The search can only fail to end by finding that the largest 32-bit size fits. */
  predicate SearchEnds(ceiling: uint32, window: uint64) {
    ceiling < U32_MAX || !OutputFits(U32_MAX, window)
  }

  /** What is known between iterations: sizes up to `best` fit, and none above `high` qualifies. */
  ghost predicate SearchInvariant(state: Search, ceiling: uint32, window: uint64) {
    var top := Max(ceiling, 1);
    1 <= state.low && state.low <= state.high + 1 && state.high <= top
    && (state.best.None? <==> state.low == 1)
    && (state.best.Some? ==> state.best == Some(state.low - 1) && OutputFits(state.low - 1, window))
    && (state.high < top ==> !OutputFits(state.high + 1, window))
  }

  lemma SearchKeepsInvariant(state: Search, ceiling: uint32, window: uint64)
    requires SearchInvariant(state, ceiling, window) && SearchEnds(ceiling, window)
    ensures match SearchStep(state, window)
      case Stop => state.best == LargestFittingOutput(ceiling, window)
      case Next(next) =>
        SearchInvariant(next, ceiling, window) && next.high + 1 - next.low < state.high + 1 - state.low
  {
  }

  /** `largest_fitting_summary_output`: the search ends with the greatest output that fits. */
  method FindLargestFittingOutput(ceiling: uint32, window: uint64) returns (best: Option<uint32>)
    requires SearchEnds(ceiling, window)
    ensures best == LargestFittingOutput(ceiling, window)
  {
    var low: uint32, high: uint32 := 1, Max(ceiling, 1);
    best := None;
    while low <= high
      invariant SearchInvariant(Search(low, high, best), ceiling, window)
      decreases high + 1 - low
    {
      SearchKeepsInvariant(Search(low, high, best), ceiling, window);
      var candidate := SatAdd32(low, SatSub32(high, low) / 2);
      if SatAdd(TEMPLATE_TOKENS, candidate) <= window {
        best := Some(candidate);
        low := SatAdd32(candidate, 1);
      } else if candidate == 1 {
        break;
      } else {
        high := SatSub32(candidate, 1);
      }
    }
  }

  function StepsFrom(state: Search, window: uint64, n: nat): Probe
    decreases n
  {
    if n == 0 then Next(state)
    else match SearchStep(state, window)
      case Stop => Stop
      case Next(next) => StepsFrom(next, window, n - 1)
  }

  lemma {:induction false} SearchStops(state: Search, ceiling: uint32, window: uint64)
    requires SearchInvariant(state, ceiling, window) && SearchEnds(ceiling, window)
    ensures StepsFrom(state, window, state.high + 2 - state.low).Stop?
    decreases state.high + 1 - state.low
  {
    SearchKeepsInvariant(state, ceiling, window);
    match SearchStep(state, window)
    case Stop =>
    case Next(next) =>
      SearchStops(next, ceiling, window);
      MoreSteps(next, window, next.high + 2 - next.low, state.high + 1 - state.low);
  }

  lemma {:induction false} MoreSteps(state: Search, window: uint64, n: nat, m: nat)
    requires n <= m && StepsFrom(state, window, n).Stop?
    ensures StepsFrom(state, window, m).Stop?
    decreases n
  {
    if n > 0 && SearchStep(state, window).Next? {
      MoreSteps(SearchStep(state, window).state, window, n - 1, m - 1);
    }
  }

  /** With every size fitting, the search climbs to the maximum and then repeats itself. */
  lemma {:induction false} SearchClimbs(low: uint32, best: Option<uint32>, window: uint64, n: nat)
    requires 1 <= low && OutputFits(U32_MAX, window)
    ensures StepsFrom(Search(low, U32_MAX, best), window, n).Next?
    decreases n
  {
    if n > 0 {
      var candidate := SatAdd32(low, SatSub32(U32_MAX, low) / 2);
      SearchClimbs(SatAdd32(candidate, 1), Some(candidate), window, n - 1);
    }
  }

  /** The search ends exactly when its ceiling is below the maximum or the maximum does not fit. */
  lemma SearchEndsExactlyWhen(ceiling: uint32, window: uint64)
    ensures SearchEnds(ceiling, window)
      <==> exists n: nat :: StepsFrom(Search(1, Max(ceiling, 1), None), window, n).Stop?
  {
    if SearchEnds(ceiling, window) {
      SearchStops(Search(1, Max(ceiling, 1), None), ceiling, window);
    } else {
      forall n: nat ensures StepsFrom(Search(1, Max(ceiling, 1), None), window, n).Next? {
        SearchClimbs(1, None, window, n);
      }
    }
  }

  /** The answer fits, stays within the ceiling, and the next larger size would not. */
  lemma LargestIsLargest(ceiling: uint32, window: uint64, candidate: uint32)
    requires 1 <= candidate <= Max(ceiling, 1)
    ensures var best := LargestFittingOutput(ceiling, window);
      OutputFits(candidate, window) <==> best.Some? && candidate <= best.value
  {
  }

  /** `summary_output_ceiling`. */
  function SummaryCeiling(policy: Policy, capabilities: Capabilities): uint32 {
    var byOutput := match capabilities.maxOutputTokens
      case Some(n) => Min(policy.summaryMaxOutputTokens, Min(n, U32_MAX))
      case None => policy.summaryMaxOutputTokens;
    var byWindow := match capabilities.maxContextTokens
      case Some(window) => Min(byOutput, Min(window / 2, U32_MAX))
      case None => byOutput;
    Max(byWindow, 1)
  }

  function CeilingOf(policy: Policy, capabilities: Option<Capabilities>): uint32 {
    match capabilities
    case Some(known) => SummaryCeiling(policy, known)
    case None => policy.summaryMaxOutputTokens
  }

  /** `summary_budget`. */
  function SummaryBudgetOf(
    policy: Policy, capabilities: Option<Capabilities>): Result<Option<SummaryBudget>, ContextError>
  {
    if capabilities.None? || capabilities.value.maxContextTokens.None? then Success(None)
    else
      var window := capabilities.value.maxContextTokens.value;
      match LargestFittingOutput(SummaryCeiling(policy, capabilities.value), window)
      case None => Failure(CompressionRequestTooLarge(SatAdd(window, 1), window))
      case Some(output) => Success(Some(SummaryBudget(Max(SatSub(window, output), 1), output, window)))
  }

  /** Whenever a summary budget exists, at least half of the window is left to its input. */
  lemma SummaryInputIsHalf(policy: Policy, capabilities: Capabilities, window: uint64)
    requires capabilities.maxContextTokens == Some(window)
    ensures match SummaryBudgetOf(policy, Some(capabilities))
      case Success(Some(budget)) =>
        2 * budget.maxInputTokens >= window && budget.maxInputTokens + budget.maxOutputTokens == window
        && OutputFits(budget.maxOutputTokens, window)
      case Success(None) => false
      case Failure(_) => !OutputFits(1, window)
  {
  }
}
