/** The decisions about a known window in terms of the window and the request alone. */
module Reserves {
  import opened Wrappers
  import opened Words
  import opened Transcript
  import opened Errors
  import opened Chunking
  import opened Budget
  import opened Rewriting
  import opened ChunkLaws
  import opened Sums
  import opened Estimates

  /** The output asked for, or the policy's where none is asked for, is at most half of the window. */
  predicate AsksForHalf(policy: Policy, request: Request, window: uint64) {
    match request.maxOutputTokens
    case Some(n) => 2 * n <= window
    case None => 2 * policy.reservedOutputTokens <= window
  }

  /** What is left of the window for the input. */
  function Room(policy: Policy, request: Request, window: uint64): (room: nat)
    ensures 2 * room >= window
  {
    if !AsksForHalf(policy, request, window) then window - window / 2
    else match request.maxOutputTokens
      case Some(n) => window - n
      case None => window - policy.reservedOutputTokens
  }

  /**
    A request fits a window if and only if its estimate and its output limit are together within it;
    a limit above half of the window counts as half, and a request without one has the policy's.
   */
  lemma FitsExactlyWhen(
    policy: Policy, request: Request, capabilities: Capabilities, window: uint64, estimate: uint64)
    requires capabilities.maxContextTokens == Some(window)
    ensures FitsWindow(policy, request, capabilities, estimate) <==>
      match request.maxOutputTokens
      case Some(n) => if 2 * n <= window then estimate + n <= window else estimate + window / 2 <= window
      case None =>
        if 2 * policy.reservedOutputTokens <= window then estimate + policy.reservedOutputTokens <= window
        else estimate + window / 2 <= window
  {
  }

  lemma RoomIsBudget(policy: Policy, request: Request, capabilities: Capabilities, window: uint64)
    requires capabilities.maxContextTokens == Some(window)
    ensures StrictInputBudget(policy, request, capabilities) == Some(Room(policy, request, window))
    ensures InputBudget(policy, request, capabilities) == Some(Max(Room(policy, request, window), 1))
  {
  }

  /** A request is admitted if and only if it fits, or the window is empty and the estimate is one. */
  lemma AdmittedExactlyWhen(
    policy: Policy, request: Request, capabilities: Capabilities, window: uint64, estimate: uint64)
    requires capabilities.maxContextTokens == Some(window)
    ensures AdmissionCheck(policy, request, capabilities, estimate).Admitted? <==>
      estimate <= Room(policy, request, window) || (window == 0 && estimate == 1)
    ensures FitsWindow(policy, request, capabilities, estimate) <==> estimate <= Room(policy, request, window)
  {
    FitsExactlyWhen(policy, request, capabilities, window, estimate);
  }

  /** Whatever was asked for, an unknown window admits a request and never counts as fitting it. */
  lemma UnknownWindow(policy: Policy, request: Request, capabilities: Capabilities, estimate: uint64)
    requires capabilities.maxContextTokens.None?
    ensures AdmissionCheck(policy, request, capabilities, estimate).Admitted?
    ensures !FitsWindow(policy, request, capabilities, estimate)
    ensures TriggeredTarget(policy, request, capabilities, estimate).None?
  {
  }

  /** The breakdown of a blocked request: what is reserved is what the room leaves of the window. */
  lemma BlockedReserve(
    policy: Policy, request: Request, capabilities: Capabilities, window: uint64, estimate: uint64)
    requires capabilities.maxContextTokens == Some(window)
    requires AdmissionCheck(policy, request, capabilities, estimate).Blocked?
    ensures var b := AdmissionCheck(policy, request, capabilities, estimate).breakdown;
      b.maxContextTokens == window && b.reservedOutput == window - Room(policy, request, window)
      && b.inputBudget == Max(Room(policy, request, window), 1) && b.estimatedFixedInput == estimate
      && b.overflowTokens == estimate - b.inputBudget
  {
    RoomIsBudget(policy, request, capabilities, window);
  }

  /** Of a blocked estimate the tools' share is what their texts take, and the rest is the messages'. */
  lemma BlockedTools(policy: Policy, request: Request, capabilities: Capabilities, estimate: uint64)
    requires AdmissionCheck(policy, request, capabilities, estimate).Blocked?
    requires Fit(Flatten(Map(request.tools, ToolTexts)))
    ensures var b := AdmissionCheck(policy, request, capabilities, estimate).breakdown;
      b.toolsTokens == Saturate(Total(Flatten(Map(request.tools, ToolTexts)), Quarter))
      && b.messagesTokens == Max(estimate - b.toolsTokens, 0)
  {
    ToolsCount(request.tools);
  }

  /** So many hundredths of a whole, in hundredths; the product is capped at the largest word. */
  function Hundredths(whole: nat, percent: nat): nat {
    Min(whole * percent, U64_MAX)
  }

  lemma PercentIsShare(whole: uint64, percent: uint8, estimate: nat)
    ensures 100 * PercentOf(whole, percent) <= Hundredths(whole, percent) < 100 * PercentOf(whole, percent) + 100
    ensures estimate >= PercentOf(whole, percent) <==> 100 * estimate + 99 >= Hundredths(whole, percent)
  {
  }

  /**
    The budget trigger fires if and only if precompression is on and the estimate has reached its
    percentage of the room, rounded down; the predictive one if it has not, but would with the expected
    growth fill the room. Either asks for the target percentage of the room, and for at least one token.
   */
  lemma TriggersExactlyWhen(
    policy: Policy, request: Request, capabilities: Capabilities, window: uint64, estimate: uint64)
    requires capabilities.maxContextTokens == Some(window)
    ensures var room := Max(Room(policy, request, window), 1);
      var reached := 100 * estimate + 99 >= Hundredths(room, policy.triggerPercent);
      (PrecompressionTarget(policy, request, capabilities, estimate).Some? <==> policy.precompressEnabled && reached)
      && (PredictiveTarget(policy, request, capabilities, estimate).Some? <==>
            policy.precompressEnabled && !reached && estimate + policy.reservedOutputTokens + 15_000 >= room)
    ensures TriggeredTarget(policy, request, capabilities, estimate).Some? ==>
      var target := TriggeredTarget(policy, request, capabilities, estimate).value;
      var share := Hundredths(Max(Room(policy, request, window), 1), policy.targetPercent);
      target >= 1 && share < 100 * target + 100 && (100 * target <= share || target == 1)
  {
    var room := Max(Room(policy, request, window), 1);
    RoomIsBudget(policy, request, capabilities, window);
    PercentIsShare(room, policy.triggerPercent, estimate);
    PercentIsShare(room, policy.targetPercent, estimate);
  }

  /** The case the program is written for: a small window and an explicit, small output limit. */
  lemma SmallLimitIsHonoured(policy: Policy, request: Request)
    requires policy.reservedOutputTokens == 4_096 && request.maxOutputTokens == Some(2_048)
    ensures var known := Capabilities(Some(8_192), None);
      FitsWindow(policy, request, known, 5_000)
      && !FitsWindow(policy, request.(maxOutputTokens := None), known, 5_000)
  {
    FitsExactlyWhen(policy, request, Capabilities(Some(8_192), None), 8_192, 5_000);
  }

  // ----- the summary's own budget -----

  /** An output that the policy, the model and half of a known window allow. */
  predicate Allowed(policy: Policy, capabilities: Capabilities, output: nat) {
    output <= policy.summaryMaxOutputTokens
    && (capabilities.maxOutputTokens.Some? ==> output <= capabilities.maxOutputTokens.value)
    && (capabilities.maxContextTokens.Some? ==> 2 * output <= capabilities.maxContextTokens.value)
  }

  /** The ceiling of a summary's output is the greatest allowed output, or one where none is allowed. */
  lemma CeilingIsGreatest(policy: Policy, capabilities: Capabilities, output: nat)
    requires output >= 1
    ensures output <= SummaryCeiling(policy, capabilities) <==> output == 1 || Allowed(policy, capabilities, output)
  {
  }

  /**
    A summary request gets the greatest output that is allowed, or one, and leaves room for the
    template of 245 tokens; the rest of the window is its input. Without such an output it fails, and
    with an unknown window there is no budget.
   */
  lemma SummaryOutputIsGreatest(policy: Policy, capabilities: Capabilities, window: uint64, output: nat)
    requires capabilities.maxContextTokens == Some(window) && output >= 1
    ensures var budget := SummaryBudgetOf(policy, Some(capabilities));
      (budget.Failure? <==> window < 246)
      && (budget.Failure? ==> budget.error == CompressionRequestTooLarge(Saturate(window + 1), window))
      && (budget.Success? ==>
            budget.value.Some? && budget.value.value.maxContextTokens == window
            && budget.value.value.maxInputTokens + budget.value.value.maxOutputTokens == window
            && (output <= budget.value.value.maxOutputTokens <==>
                  (output == 1 || Allowed(policy, capabilities, output)) && 245 + output <= window))
  {
    CeilingIsGreatest(policy, capabilities, output);
  }

  /** For the budgets of the engine the second half of the fitting test is implied by the first. */
  lemma OneTestIsEnough(policy: Policy, capabilities: Capabilities, messages: seq<Message>, costs: Costs)
    requires capabilities.maxContextTokens.Some?
    requires SummaryBudgetOf(policy, Some(capabilities)).Success?
    ensures var budget := SummaryBudgetOf(policy, Some(capabilities)).value;
      budget.Some?
      && (Fits(messages, budget.value, costs) <==> SummaryInput(messages, costs) <= budget.value.maxInputTokens)
  {
    SummaryOutputIsGreatest(policy, capabilities, capabilities.maxContextTokens.value, 1);
  }
}
