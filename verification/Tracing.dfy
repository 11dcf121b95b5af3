/** What the summarizer is sent: every message of the range once, then every answer, layer by layer. */
module Tracing {
  import opened Wrappers
  import opened Words
  import opened Text
  import opened Transcript
  import opened Units
  import opened Rewriting
  import opened Errors
  import opened Planning
  import opened Packing
  import opened Chunking
  import opened ChunkLaws
  import opened Abridging
  import opened Summarizer
  import opened Accounting

  // ----- calls -----

  function Sent(calls: seq<Call>): (sent: seq<seq<Message>>)
    ensures |sent| == |calls|
  {
    Map(calls, (call: Call) => call.request.messages)
  }

  /** The trimmed summary a call was answered with. */
  function AnswerOf(call: Call): string {
    match call.reply.result case Success(outcome) => Trim(outcome.summary) case Failure(_) => ""
  }

  function Answers(calls: seq<Call>): (answers: seq<string>)
    ensures |answers| == |calls|
  {
    Map(calls, AnswerOf)
  }

  /** Every call was answered with a summary that is not blank. */
  ghost predicate AllUsable(calls: seq<Call>) {
    forall call | call in calls :: AnswerOf(call) != ""
  }

  /** The world answered this call right after it was asked, in vain, whether the Turn is cancelled. */
  predicate Asked(world: World, tick: nat, call: Call) {
    !world.cancelled(tick) && Gives(world, tick + 1, call)
  }

  /** A call with these parameters that was answered by the world. */
  ghost predicate Genuine(world: World, model: string, maxOutput: uint32, call: Call) {
    call.request.model == model && call.request.maxOutputTokens == maxOutput
    && exists tick: nat :: Asked(world, tick, call)
  }

  /** The `i`-th call carries the `i`-th chunk. */
  ghost predicate Carries(world: World, model: string, maxOutput: uint32, chunks: seq<seq<Message>>, calls: seq<Call>) {
    |calls| <= |chunks|
    && forall i | 0 <= i < |calls| ::
      Genuine(world, model, maxOutput, calls[i]) && calls[i].request.messages == chunks[i]
  }

  lemma CarriesNext(
    world: World, model: string, maxOutput: uint32, chunks: seq<seq<Message>>, call: Call, rest: seq<Call>)
    requires chunks != [] && Genuine(world, model, maxOutput, call) && call.request.messages == chunks[0]
    requires Carries(world, model, maxOutput, chunks[1..], rest)
    ensures Carries(world, model, maxOutput, chunks, [call] + rest)
    ensures Answers([call] + rest) == [AnswerOf(call)] + Answers(rest)
    ensures AnswerOf(call) != "" && AllUsable(rest) ==> AllUsable([call] + rest)
  {
    var calls := [call] + rest;
    forall i | 0 <= i < |calls|
      ensures Genuine(world, model, maxOutput, calls[i]) && calls[i].request.messages == chunks[i]
    {
      if i > 0 {
        assert calls[i] == rest[i - 1] && chunks[i] == chunks[1..][i - 1];
      }
    }
  }

  /** The error of a batch whose calls were all answered with a summary: a cancellation. */
  ghost predicate OnlyCancelled(result: Result<seq<string>, ContextError>, calls: seq<Call>) {
    result.Failure? && AllUsable(calls) ==> Strip(result.error) == Cancelled
  }

  /** A batch sends its chunks one by one, in order; a successful one sends them all. */
  lemma {:induction false} BatchSends(
    world: World, model: string, chunks: seq<seq<Message>>, k: nat, maxOutput: uint32,
    done: seq<string>, log: seq<Call>, tick: nat) returns (calls: seq<Call>)
    requires k <= |chunks|
    ensures var batch := SummarizeFrom(world, model, chunks, k, maxOutput, done, log, tick);
      batch.log == log + calls && Carries(world, model, maxOutput, chunks[k..], calls)
      && OnlyCancelled(batch.summaries, calls)
      && (batch.summaries.Success? ==>
            |calls| == |chunks| - k && AllUsable(calls) && batch.summaries.value == done + Answers(calls))
    decreases |chunks| - k
  {
    calls := [];
    if k < |chunks| && world.cancelled(tick) {
      AttachIsTransparent(Cancelled, Spent(log));
    } else if k < |chunks| {
      var request := SummaryRequest(model, chunks[k], maxOutput);
      var call := Call(request, world.reply(tick + 1, request));
      assert Asked(world, tick, call);
      assert chunks[k..][1..] == chunks[k + 1..];
      var rest := [];
      if AnswerOf(call) != "" {
        rest := BatchSends(world, model, chunks, k + 1, maxOutput, done + [AnswerOf(call)], log + [call], tick + 2);
      }
      CarriesNext(world, model, maxOutput, chunks[k..], call, rest);
      calls := [call] + rest;
      ConsAppend(log, call, rest);
      ConsAppend(done, AnswerOf(call), Answers(rest));
      assert call in calls;
      assert forall c | c in rest :: c in calls;
    }
  }

  lemma {:induction false} SentPrefix(
    world: World, model: string, maxOutput: uint32, chunks: seq<seq<Message>>, calls: seq<Call>)
    requires Carries(world, model, maxOutput, chunks, calls)
    ensures Flatten(Sent(calls)) <= Flatten(chunks)
    ensures |calls| == |chunks| ==> Sent(calls) == chunks
    decreases |calls|
  {
    if calls != [] {
      assert Carries(world, model, maxOutput, chunks[1..], calls[1..]) by {
        forall i | 0 <= i < |calls[1..]|
          ensures Genuine(world, model, maxOutput, calls[1..][i]) && calls[1..][i].request.messages == chunks[1..][i]
        {
          assert calls[1..][i] == calls[i + 1];
        }
      }
      SentPrefix(world, model, maxOutput, chunks[1..], calls[1..]);
      assert Sent(calls)[1..] == Sent(calls[1..]);
    }
  }

  // ----- layers over summaries -----

  /** A request of a layer: within the budget, not empty, and answered by the world. */
  ghost predicate Sound(job: Job, budget: SummaryBudget, calls: seq<Call>) {
    forall call | call in calls ::
      Genuine(job.world, job.request.model, budget.maxOutputTokens, call)
      && call.request.messages != [] && Fits(call.request.messages, budget, job.ports.costs)
  }

  /** One user message for each summary. */
  function OneEach(given: seq<string>): (messages: seq<Message>)
    ensures |messages| == |given|
  {
    seq(|given|, i requires 0 <= i < |given| => Message(false, "", User, [TextBlock(given[i])]))
  }

  lemma AsMessagesIsOneEach(given: seq<string>)
    ensures AsMessages(given) == OneEach(given)
  {
  }

  /**
    A layer sends the summaries it is given, one message each and in order, and, if it is whole, all of
    them; then it ends with fewer summaries or a smaller estimate.
   */
  ghost predicate Passes(job: Job, budget: SummaryBudget, given: seq<string>, calls: seq<Call>, whole: bool) {
    Sound(job, budget, calls) && Flatten(Sent(calls)) <= OneEach(given)
    && (whole ==>
          AllUsable(calls) && Flatten(Sent(calls)) == OneEach(given)
          && (|calls| < |given| || EstimateMessages(OneEach(Answers(calls))) < EstimateMessages(OneEach(given))))
  }

  /** The answers are no fewer and no smaller than what was given, and the error names both estimates. */
  predicate Stalls(given: seq<string>, answers: seq<string>, error: ContextError) {
    |answers| >= |given| && EstimateMessages(OneEach(answers)) >= EstimateMessages(OneEach(given))
    && error == CompressionDidNotReduce(EstimateMessages(OneEach(given)), EstimateMessages(OneEach(answers)))
  }

  lemma CarriedIsSound(job: Job, budget: SummaryBudget, chunks: seq<seq<Message>>, calls: seq<Call>)
    requires AllFit(chunks, budget, job.ports.costs)
    requires Carries(job.world, job.request.model, budget.maxOutputTokens, chunks, calls)
    ensures Sound(job, budget, calls)
  {
    forall call | call in calls
      ensures Genuine(job.world, job.request.model, budget.maxOutputTokens, call)
        && call.request.messages != [] && Fits(call.request.messages, budget, job.ports.costs)
    {
      var i :| 0 <= i < |calls| && calls[i] == call;
      assert chunks[i] in chunks;
    }
  }

  /** A batch over groups of summaries. */
  lemma GroupsSend(
    job: Job, budget: SummaryBudget, given: seq<string>, chunks: seq<seq<Message>>, log: seq<Call>, tick: nat)
    returns (calls: seq<Call>)
    requires Flatten(chunks) == AsMessages(given) && AllFit(chunks, budget, job.ports.costs)
    ensures var batch :=
        SummarizeFrom(job.world, job.request.model, chunks, 0, budget.maxOutputTokens, [], log, tick);
      batch.log == log + calls && Sound(job, budget, calls) && Flatten(Sent(calls)) <= AsMessages(given)
      && OnlyCancelled(batch.summaries, calls)
      && (batch.summaries.Success? ==>
            AllUsable(calls) && Flatten(Sent(calls)) == AsMessages(given) && batch.summaries.value == Answers(calls))
  {
    calls := BatchSends(job.world, job.request.model, chunks, 0, budget.maxOutputTokens, [], log, tick);
    assert chunks[0..] == chunks && [] + Answers(calls) == Answers(calls);
    SentPrefix(job.world, job.request.model, budget.maxOutputTokens, chunks, calls);
    CarriedIsSound(job, budget, chunks, calls);
  }

  lemma LayerSends(job: Job, budget: SummaryBudget, given: seq<string>, log: seq<Call>, tick: nat)
    returns (calls: seq<Call>)
    ensures var layer := Layer(job, budget, given, log, tick);
      layer.log == log + calls && Passes(job, budget, given, calls, layer.summaries.Success?)
      && (layer.summaries.Success? ==> layer.summaries.value == Answers(calls))
      && (layer.summaries.Failure? && AllUsable(calls) ==>
            Strip(layer.summaries.error) != SummaryRecursionLimit
            && (Strip(layer.summaries.error).CompressionDidNotReduce? ==>
                  Stalls(given, Answers(calls), Strip(layer.summaries.error))))
  {
    AsMessagesIsOneEach(given);
    var grouped := GroupSummaries(AsMessages(given), budget, job.ports.costs, job.world.cancelled, tick);
    GroupingIsSound(AsMessages(given), budget, job.ports.costs, job.world.cancelled, tick);
    match grouped.chunks
    case Failure(error) =>
      calls := [];
      assert log + [] == log;
      AttachIsTransparent(error, Spent(log));
    case Success(chunks) =>
      calls := GroupsSend(job, budget, given, chunks, log, grouped.tick);
      AsMessagesIsOneEach(Answers(calls));
      AttachIsTransparent(NoReduction(given, Answers(calls)), Spent(log + calls));
  }

  // ----- the cascade of layers -----

  /** What ends the recursion, what one layer makes of the summaries it is given, and when it gives up. */
  datatype Relay = Relay(
    ends: seq<string> -> bool, passes: (seq<string>, seq<Call>, bool) -> bool,
    stalls: (seq<string>, seq<Call>, ContextError) -> bool)

  /** Every layer passes on what it is given, and none follows on what could have ended the recursion. */
  ghost predicate Cascades(relay: Relay, first: seq<string>, layers: seq<seq<Call>>, whole: bool)
    decreases |layers|
  {
    layers == []
    || (!relay.ends(first) && relay.passes(first, layers[0], whole || |layers| > 1)
        && Cascades(relay, Answers(layers[0]), layers[1..], whole))
  }

  /** What the layers leave in the end: the answers of the last of them. */
  function Left(first: seq<string>, layers: seq<seq<Call>>): seq<string> {
    if layers == [] then first else Answers(layers[|layers| - 1])
  }

  ghost predicate AllLayersUsable(layers: seq<seq<Call>>) {
    forall layer | layer in layers :: AllUsable(layer)
  }

  /** What the `k`-th layer is given: the answers of the layer before it. */
  function Given(first: seq<string>, layers: seq<seq<Call>>, k: nat): seq<string>
    requires k <= |layers|
  {
    if k == 0 then first else Answers(layers[k - 1])
  }

  /** A recursion that ends for want of progress ends with a layer that stalled. */
  ghost predicate Stalled(relay: Relay, first: seq<string>, layers: seq<seq<Call>>, error: ContextError) {
    error.CompressionDidNotReduce? ==>
      layers != [] && relay.stalls(Given(first, layers, |layers| - 1), layers[|layers| - 1], error)
  }

  /** A recursion ends with a summary that ends it, or in failure; the limit is reached only after all layers. */
  ghost predicate Concludes(
    relay: Relay, left: seq<string>, usable: bool, spare: int, result: Result<string, ContextError>)
  {
    match result
    case Success(summary) => relay.ends(left) && |left| == 1 && summary == Trim(left[0])
    case Failure(error) => usable && Strip(error) == SummaryRecursionLimit ==> spare == 0
  }

  ghost predicate Forwarded(relay: Relay, given: seq<string>, log: seq<Call>, layer: Batch, calls: seq<Call>) {
    layer.log == log + calls && relay.passes(given, calls, layer.summaries.Success?)
    && (layer.summaries.Success? ==> layer.summaries.value == Answers(calls))
    && (layer.summaries.Failure? && AllUsable(calls) ==> GivesUp(relay, given, calls, Strip(layer.summaries.error)))
  }

  /** A layer whose calls were all answered fails at the limit never, and for want of progress only if it stalls. */
  ghost predicate GivesUp(relay: Relay, given: seq<string>, calls: seq<Call>, error: ContextError) {
    error != SummaryRecursionLimit && (error.CompressionDidNotReduce? ==> relay.stalls(given, calls, error))
  }

  /** The layers of a recursion pass on as the relay says. */
  ghost predicate Relays(rounds: Rounds, relay: Relay) {
    (forall given: seq<string> :: relay.ends(given) <==> |given| == 1 && rounds.accepts(Trim(given[0])))
    && (forall given: seq<string>, calls: seq<Call> ::
          relay.passes(given, calls, true) ==> relay.passes(given, calls, false))
    && forall given: seq<string>, log: seq<Call>, tick: nat :: Forwards(rounds, relay, given, log, tick)
  }

  ghost predicate Forwards(rounds: Rounds, relay: Relay, given: seq<string>, log: seq<Call>, tick: nat) {
    exists calls :: Forwarded(relay, given, log, rounds.layer(given, log, tick), calls)
  }

  lemma CascadesNext(relay: Relay, first: seq<string>, head: seq<Call>, rest: seq<seq<Call>>, whole: bool)
    requires !relay.ends(first) && relay.passes(first, head, whole || rest != [])
    requires Cascades(relay, Answers(head), rest, whole)
    ensures Cascades(relay, first, [head] + rest, whole)
    ensures Left(first, [head] + rest) == Left(Answers(head), rest)
  {
    assert ([head] + rest)[1..] == rest;
  }

  lemma FlattenNext<T>(log: seq<T>, head: seq<T>, rest: seq<seq<T>>)
    ensures (log + head) + Flatten(rest) == log + Flatten([head] + rest)
  {
    assert ([head] + rest)[1..] == rest;
  }

  lemma UsableNext(head: seq<Call>, rest: seq<seq<Call>>)
    ensures AllLayersUsable([head] + rest) <==> AllUsable(head) && AllLayersUsable(rest)
  {
    if AllLayersUsable([head] + rest) {
      assert head in [head] + rest;
      assert forall layer | layer in rest :: layer in [head] + rest;
    }
  }

  /** What a recursion that may still add `spare` layers to its log adds to it. */
  ghost predicate Traced(
    relay: Relay, first: seq<string>, log: seq<Call>, layers: seq<seq<Call>>, spare: nat, outcome: Outcome)
  {
    outcome.log == log + Flatten(layers) && |layers| <= spare
    && Cascades(relay, first, layers, outcome.summary.Success?)
    && Concludes(relay, Left(first, layers), AllLayersUsable(layers), spare - |layers|, outcome.summary)
    && (outcome.summary.Failure? && AllLayersUsable(layers) ==>
          Stalled(relay, first, layers, Strip(outcome.summary.error)))
  }

  lemma StalledNext(relay: Relay, first: seq<string>, head: seq<Call>, rest: seq<seq<Call>>, error: ContextError)
    requires Stalled(relay, Answers(head), rest, error)
    ensures Stalled(relay, first, [head] + rest, error)
  {
    var layers := [head] + rest;
    if rest != [] {
      assert layers[|layers| - 1] == rest[|rest| - 1];
      assert Given(first, layers, |layers| - 1) == Given(Answers(head), rest, |rest| - 1);
    }
  }

  lemma TracedNext(
    relay: Relay, first: seq<string>, log: seq<Call>, head: seq<Call>, rest: seq<seq<Call>>, spare: nat,
    outcome: Outcome)
    requires !relay.ends(first) && relay.passes(first, head, outcome.summary.Success? || rest != [])
    requires Traced(relay, Answers(head), log + head, rest, spare, outcome)
    ensures Traced(relay, first, log, [head] + rest, spare + 1, outcome)
  {
    CascadesNext(relay, first, head, rest, outcome.summary.Success?);
    FlattenNext(log, head, rest);
    UsableNext(head, rest);
    if outcome.summary.Failure? && AllLayersUsable([head] + rest) {
      StalledNext(relay, first, head, rest, Strip(outcome.summary.error));
    }
  }

  /** A layer that fails is the last one. */
  lemma TracedFailure(
    relay: Relay, first: seq<string>, log: seq<Call>, head: seq<Call>, spare: nat, outcome: Outcome)
    requires !relay.ends(first) && relay.passes(first, head, false) && outcome.log == log + head
    requires outcome.summary.Failure?
    requires AllUsable(head) ==> GivesUp(relay, first, head, Strip(outcome.summary.error))
    ensures Traced(relay, first, log, [head], spare + 1, outcome)
  {
    assert [head] + [] == [head] && (log + head) + [] == log + head;
    CascadesNext(relay, first, head, [], false);
    FlattenNext(log, head, []);
    UsableNext(head, []);
  }

  /** The loop over the layers, from `first` on: what each sends, and when it ends. */
  lemma {:induction false} RefineSends(
    rounds: Rounds, relay: Relay, first: seq<string>, depth: nat, log: seq<Call>, tick: nat)
    returns (layers: seq<seq<Call>>)
    requires Relays(rounds, relay) && depth <= MAX_RECURSION
    ensures Traced(relay, first, log, layers, MAX_RECURSION - depth, RefineWith(rounds, first, depth, log, tick))
    decreases MAX_RECURSION - depth
  {
    layers := [];
    assert log + [] == log;
    AttachIsTransparent(SummaryRecursionLimit, Spent(log));
    if rounds.cancelled(tick) {
      AttachIsTransparent(Cancelled, Spent(log));
    } else if !relay.ends(first) && depth < MAX_RECURSION {
      var outcome := RefineWith(rounds, first, depth, log, tick);
      RefineNext(rounds, first, depth, log, tick);
      assert Forwards(rounds, relay, first, log, tick + 1);
      var layer := rounds.layer(first, log, tick + 1);
      var head :| Forwarded(relay, first, log, layer, head);
      if layer.summaries.Success? {
        var rest := RefineSends(rounds, relay, layer.summaries.value, depth + 1, layer.log, layer.tick);
        TracedNext(relay, first, log, head, rest, MAX_RECURSION - depth - 1, outcome);
        layers := [head] + rest;
      } else {
        TracedFailure(relay, first, log, head, MAX_RECURSION - depth - 1, outcome);
        layers := [head];
      }
    }
  }

  /** A recursion that returns a summary looked at the signal right before. */
  lemma {:induction false} RefineLooks(rounds: Rounds, first: seq<string>, depth: nat, log: seq<Call>, tick: nat)
    requires depth <= MAX_RECURSION
    ensures var outcome := RefineWith(rounds, first, depth, log, tick);
      outcome.summary.Success? ==> 1 <= outcome.tick && !rounds.cancelled(outcome.tick - 1)
    decreases MAX_RECURSION - depth
  {
    if !rounds.cancelled(tick) && depth < MAX_RECURSION && !(|first| == 1 && rounds.accepts(Trim(first[0]))) {
      var layer := rounds.layer(first, log, tick + 1);
      if layer.summaries.Success? {
        RefineLooks(rounds, layer.summaries.value, depth + 1, layer.log, layer.tick);
      }
    }
  }

  lemma {:induction false} CascadeAt(relay: Relay, first: seq<string>, layers: seq<seq<Call>>, whole: bool, k: nat)
    requires Cascades(relay, first, layers, whole) && k < |layers|
    ensures !relay.ends(Given(first, layers, k))
    ensures relay.passes(Given(first, layers, k), layers[k], whole || k < |layers| - 1)
    decreases |layers|
  {
    if k > 0 {
      CascadeAt(relay, Answers(layers[0]), layers[1..], whole, k - 1);
    }
  }

  /** A single summary that the rebuilt request can hold ends the recursion. */
  predicate Ends(job: Job, budget: SummaryBudget, given: seq<string>)
    requires ValidJob(job)
  {
    |given| == 1 && CandidateFits(job, budget, Trim(given[0]))
  }

  ghost function RelayOf(job: Job, budget: SummaryBudget): Relay
    requires ValidJob(job)
  {
    Relay((given: seq<string>) => Ends(job, budget, given),
          (given: seq<string>, calls: seq<Call>, whole: bool) => Passes(job, budget, given, calls, whole),
          (given: seq<string>, calls: seq<Call>, error: ContextError) => Stalls(given, Answers(calls), error))
  }

  lemma JobRelays(job: Job, budget: SummaryBudget)
    requires ValidJob(job)
    ensures Relays(RoundsOf(job, budget), RelayOf(job, budget))
  {
    var rounds, relay := RoundsOf(job, budget), RelayOf(job, budget);
    forall given: seq<string>, log: seq<Call>, tick: nat
      ensures Forwards(rounds, relay, given, log, tick)
    {
      var calls := LayerSends(job, budget, given, log, tick);
      assert Forwarded(relay, given, log, rounds.layer(given, log, tick), calls);
    }
  }

  // ----- the first layer -----

  /** The messages of some unit inside the planned range. */
  ghost predicate IsUnit(messages: seq<Message>, plan: Plan, source: seq<Message>) {
    exists unit | unit in TranscriptUnits(messages) ::
      plan.start <= unit.start <= unit.end <= plan.end && unit.end <= |messages|
      && source == messages[unit.start..unit.end]
  }

  /** The longer tool texts of a unit are abridged at both ends alike, and nothing else is changed. */
  ghost predicate IsForced(source: seq<Message>, sent: seq<Message>) {
    exists keep: nat :: keep >= 100 && ForcesTexts(source, sent, keep)
  }

  /** A part of the range is sent as it is; only a unit that is too large by itself is abridged. */
  ghost predicate SentFor(
    messages: seq<Message>, plan: Plan, source: seq<Message>, sent: seq<Message>,
    budget: Option<SummaryBudget>, costs: Costs)
  {
    match budget
    case None => sent == source
    case Some(limits) =>
      source != [] && Fits(sent, limits, costs)
      && if Fits(source, limits, costs) then sent == source
         else IsUnit(messages, plan, source) && IsForced(source, sent)
  }

  /** The output size asked of each call. */
  function OutputOf(job: Job, budget: Option<SummaryBudget>): uint32 {
    match budget case Some(limits) => limits.maxOutputTokens case None => job.policy.summaryMaxOutputTokens
  }

  /** The parts that `chunks` stand for make up the range. */
  ghost predicate StandFor(
    job: Job, budget: Option<SummaryBudget>, sources: seq<seq<Message>>, chunks: seq<seq<Message>>)
    requires ValidJob(job)
  {
    |sources| == |chunks| && Flatten(sources) == job.request.messages[job.plan.start..job.plan.end]
    && forall i | 0 <= i < |chunks| ::
      SentFor(job.request.messages, job.plan, sources[i], chunks[i], budget, job.ports.costs)
  }

  lemma {:induction false} OriginalsJoined(
    messages: seq<Message>, units: seq<Unit>, pieces: seq<Piece>, sources: seq<seq<Message>>)
    requires |sources| == |pieces|
    requires forall i | 0 <= i < |pieces| :: sources[i] == Original(messages, units, pieces[i])
    ensures Flatten(sources) == Originals(messages, units, pieces)
    decreases |pieces|
  {
    if pieces != [] {
      OriginalsJoined(messages, units, pieces[1..], sources[1..]);
    }
  }

  lemma UnitOfRun(messages: seq<Message>, a: nat, b: nat, k: nat)
    requires a <= k < b <= |TranscriptUnits(messages)|
    ensures var units := TranscriptUnits(messages);
      units[a].start <= units[k].start < units[k].end <= units[b - 1].end <= |messages|
  {
    UnitOrder(messages, a, k);
    UnitOrder(messages, k, b - 1);
  }

  lemma PieceIsSent(
    messages: seq<Message>, plan: Plan, a: nat, b: nat, limits: SummaryBudget, costs: Costs, piece: Piece)
    requires a < b <= |TranscriptUnits(messages)| && Within(piece, 0, b - a)
    requires plan == Plan(TranscriptUnits(messages)[a].start, TranscriptUnits(messages)[b - 1].end)
    requires Sendable(messages, TranscriptUnits(messages)[a..b], limits, costs, piece)
    ensures var run := TranscriptUnits(messages)[a..b];
      SentFor(messages, plan, Original(messages, run, piece), Render(messages, run, limits, costs, piece),
              Some(limits), costs)
  {
    var run := TranscriptUnits(messages)[a..b];
    match piece
    case Whole(_, _) =>
    case Forced(k) =>
      RunUnitIsUnit(messages, plan, a, b, k);
      ForcedIsForced(UnitSlice(messages, run, k), limits, costs);
  }

  lemma RunUnitIsUnit(messages: seq<Message>, plan: Plan, a: nat, b: nat, k: nat)
    requires a < b <= |TranscriptUnits(messages)| && k < b - a
    requires plan == Plan(TranscriptUnits(messages)[a].start, TranscriptUnits(messages)[b - 1].end)
    ensures IsUnit(messages, plan, UnitSlice(messages, TranscriptUnits(messages)[a..b], k))
  {
    UnitOfRun(messages, a, b, a + k);
    var unit := TranscriptUnits(messages)[a + k];
    assert unit in TranscriptUnits(messages);
    assert UnitSlice(messages, TranscriptUnits(messages)[a..b], k) == messages[unit.start..unit.end];
  }

  lemma ForcedIsForced(source: seq<Message>, limits: SummaryBudget, costs: Costs)
    ensures ForceProjectUnit(source, limits, costs).Some? ==>
      IsForced(source, ForceProjectUnit(source, limits, costs).value)
  {
    var longest, n := ForcedExactlyWhen(source, limits, costs);
    if ForceProjectUnit(source, limits, costs).Some? {
      var keep := Halved(FirstKept(limits, longest), n);
      assert keep >= 100 && ForcesTexts(source, ForceProjectUnit(source, limits, costs).value, keep);
    }
  }

  lemma ChunksStandFor(job: Job, limits: SummaryBudget, a: nat, b: nat, tick: nat) returns (sources: seq<seq<Message>>)
    requires ValidJob(job) && a < b <= |TranscriptUnits(job.request.messages)|
    requires var units := TranscriptUnits(job.request.messages); job.plan == Plan(units[a].start, units[b - 1].end)
    requires SplitOf(job, Some(limits), tick).chunks.Success?
    ensures StandFor(job, Some(limits), sources, SplitOf(job, Some(limits), tick).chunks.value)
  {
    var messages, costs := job.request.messages, job.ports.costs;
    var run := TranscriptUnits(messages)[a..b];
    PlannedUnits(messages, a, b);
    var pieces := ChunksAreSound(messages, run, job.plan.start, job.plan.end, limits, costs, job.world.cancelled, tick);
    PiecesRestoreRange(messages, run, job.plan.start, job.plan.end, pieces);
    sources := Map(pieces, piece => Original(messages, run, piece));
    OriginalsJoined(messages, run, pieces, sources);
    forall i | 0 <= i < |pieces|
      ensures SentFor(messages, job.plan, sources[i], Render(messages, run, limits, costs, pieces[i]),
                      Some(limits), costs)
    {
      assert pieces[i] in pieces;
      CoversWithin(pieces, 0, |run|, pieces[i]);
      PieceIsSent(messages, job.plan, a, b, limits, costs, pieces[i]);
    }
  }

  function SplitOf(job: Job, budget: Option<SummaryBudget>, tick: nat): Chunked
    requires ValidJob(job)
  {
    SplitSource(job.request.messages, TranscriptUnits(job.request.messages), job.plan.start, job.plan.end,
                budget, job.ports.costs, job.world.cancelled, tick)
  }

  // ----- all calls of a summarizing -----

  /** The calls of the first layer carry the parts of the range one by one; a whole layer carries them all. */
  ghost predicate FirstLayer(
    job: Job, budget: Option<SummaryBudget>, sources: seq<seq<Message>>, calls: seq<Call>, whole: bool)
    requires ValidJob(job)
  {
    Flatten(sources) == job.request.messages[job.plan.start..job.plan.end] && |calls| <= |sources|
    && (whole ==> |calls| == |sources| && AllUsable(calls))
    && forall i | 0 <= i < |calls| ::
      Genuine(job.world, job.request.model, OutputOf(job, budget), calls[i])
      && SentFor(job.request.messages, job.plan, sources[i], calls[i].request.messages, budget, job.ports.costs)
  }

  /** Each later layer carries the answers of the one before it, which could not end the recursion. */
  ghost predicate LaterLayers(job: Job, limits: SummaryBudget, layers: seq<seq<Call>>, whole: bool)
    requires ValidJob(job)
  {
    forall k | 0 < k < |layers| :: LaterLayer(job, limits, layers, k, whole)
  }

  ghost predicate LaterLayer(job: Job, limits: SummaryBudget, layers: seq<seq<Call>>, k: nat, whole: bool)
    requires ValidJob(job) && 0 < k < |layers|
  {
    !Ends(job, limits, Answers(layers[k - 1]))
    && Passes(job, limits, Answers(layers[k - 1]), layers[k], whole || k < |layers| - 1)
  }

  /**
    A summary is the only answer of the last layer; giving up on recursion takes nine layers, and giving
    up for want of progress a last layer that made none.
   */
  ghost predicate EndsReading(
    job: Job, budget: Option<SummaryBudget>, layers: seq<seq<Call>>, result: Result<string, ContextError>)
    requires ValidJob(job)
  {
    match result
    case Success(summary) =>
      layers != [] && Answers(layers[|layers| - 1]) == [summary]
      && (budget.Some? ==> CandidateFits(job, budget.value, summary))
    case Failure(error) =>
      AllLayersUsable(layers) ==>
        (Strip(error) == SummaryRecursionLimit ==> |layers| == 9)
        && (Strip(error).CompressionDidNotReduce? ==>
              |layers| > 1
              && Stalls(Answers(layers[|layers| - 2]), Answers(layers[|layers| - 1]), Strip(error)))
  }

  /** How a summarizing reads its range: the layers of its calls, and what they carry. */
  ghost predicate ReadsRange(
    job: Job, budget: Option<SummaryBudget>, sources: seq<seq<Message>>, layers: seq<seq<Call>>,
    result: Result<string, ContextError>)
    requires ValidJob(job)
  {
    |layers| <= 9
    && (layers != [] ==> FirstLayer(job, budget, sources, layers[0], |layers| > 1 || result.Success?))
    && (match budget
        case None => |layers| <= 1
        case Some(limits) => LaterLayers(job, limits, layers, result.Success?))
    && EndsReading(job, budget, layers, result)
  }

  lemma SplitErrorIsNoLimit(job: Job, budget: Option<SummaryBudget>, tick: nat)
    requires ValidJob(job) && SplitOf(job, budget, tick).chunks.Failure?
    ensures Strip(SplitOf(job, budget, tick).chunks.error) != SummaryRecursionLimit
    ensures !Strip(SplitOf(job, budget, tick).chunks.error).CompressionDidNotReduce?
  {
  }

  /** The chunks of a range stand for its parts, with a known window or without. */
  lemma SplitStandsFor(job: Job, budget: Option<SummaryBudget>, a: nat, b: nat, tick: nat)
    returns (sources: seq<seq<Message>>)
    requires ValidJob(job) && a < b <= |TranscriptUnits(job.request.messages)|
    requires var units := TranscriptUnits(job.request.messages); job.plan == Plan(units[a].start, units[b - 1].end)
    requires SplitOf(job, budget, tick).chunks.Success?
    ensures StandFor(job, budget, sources, SplitOf(job, budget, tick).chunks.value)
    ensures budget.None? ==> |sources| == 1
  {
    match budget
    case None =>
      var range := job.request.messages[job.plan.start..job.plan.end];
      sources := [range];
      assert [range][1..] == [] && range + [] == range;
    case Some(limits) =>
      sources := ChunksStandFor(job, limits, a, b, tick);
  }

  /** The first layer of calls, over chunks that stand for the range. */
  lemma FirstLayerSends(
    job: Job, budget: Option<SummaryBudget>, sources: seq<seq<Message>>, chunks: seq<seq<Message>>, tick: nat)
    returns (calls: seq<Call>)
    requires ValidJob(job) && StandFor(job, budget, sources, chunks)
    ensures var batch := SummarizeFrom(job.world, job.request.model, chunks, 0, OutputOf(job, budget), [], [], tick);
      batch.log == calls && FirstLayer(job, budget, sources, calls, batch.summaries.Success?)
      && OnlyCancelled(batch.summaries, calls)
      && (batch.summaries.Success? ==> batch.summaries.value == Answers(calls))
  {
    calls := BatchSends(job.world, job.request.model, chunks, 0, OutputOf(job, budget), [], [], tick);
    assert chunks[0..] == chunks && [] + calls == calls && [] + Answers(calls) == Answers(calls);
  }

  lemma OneLayer(
    job: Job, budget: Option<SummaryBudget>, sources: seq<seq<Message>>, calls: seq<Call>,
    result: Result<string, ContextError>)
    requires ValidJob(job) && FirstLayer(job, budget, sources, calls, result.Success?)
    requires match result
      case Success(summary) => budget.None? && Answers(calls) == [summary]
      case Failure(error) =>
        AllUsable(calls) ==> Strip(error) != SummaryRecursionLimit && !Strip(error).CompressionDidNotReduce?
    ensures ReadsRange(job, budget, sources, [calls], result) && Flatten([calls]) == calls
  {
    assert [calls][1..] == [] && calls + [] == calls;
    assert AllLayersUsable([calls]) ==> AllUsable([calls][0]);
  }

  lemma LaterFollow(job: Job, limits: SummaryBudget, head: seq<Call>, rest: seq<seq<Call>>, whole: bool)
    requires ValidJob(job) && Cascades(RelayOf(job, limits), Answers(head), rest, whole)
    ensures LaterLayers(job, limits, [head] + rest, whole)
  {
    var layers := [head] + rest;
    forall k | 0 < k < |layers| ensures LaterLayer(job, limits, layers, k, whole) {
      CascadeAt(RelayOf(job, limits), Answers(head), rest, whole, k - 1);
      assert layers[k] == rest[k - 1] && Given(Answers(head), rest, k - 1) == Answers(layers[k - 1]);
    }
  }

  lemma StalledLast(
    job: Job, limits: SummaryBudget, head: seq<Call>, rest: seq<seq<Call>>, result: Result<string, ContextError>)
    requires ValidJob(job)
    requires result.Failure? && AllLayersUsable(rest) ==>
      Stalled(RelayOf(job, limits), Answers(head), rest, Strip(result.error))
    ensures var layers := [head] + rest;
      result.Failure? && AllLayersUsable(rest) && Strip(result.error).CompressionDidNotReduce? ==>
        |layers| > 1 && Stalls(Answers(layers[|layers| - 2]), Answers(layers[|layers| - 1]), Strip(result.error))
  {
    var layers := [head] + rest;
    if result.Failure? && AllLayersUsable(rest) && Strip(result.error).CompressionDidNotReduce? {
      assert layers[|layers| - 1] == rest[|rest| - 1];
      assert Given(Answers(head), rest, |rest| - 1) == Answers(layers[|layers| - 2]);
    }
  }

  lemma MoreLayers(
    job: Job, limits: SummaryBudget, sources: seq<seq<Message>>, head: seq<Call>, rest: seq<seq<Call>>,
    result: Result<string, ContextError>)
    requires ValidJob(job) && FirstLayer(job, Some(limits), sources, head, true) && |rest| <= MAX_RECURSION
    requires LaterLayers(job, limits, [head] + rest, result.Success?)
    requires Concludes(RelayOf(job, limits), Left(Answers(head), rest), AllLayersUsable(rest),
                       MAX_RECURSION - |rest|, result)
    requires result.Failure? && AllLayersUsable(rest) ==>
      Stalled(RelayOf(job, limits), Answers(head), rest, Strip(result.error))
    ensures ReadsRange(job, Some(limits), sources, [head] + rest, result)
  {
    UsableNext(head, rest);
    StalledLast(job, limits, head, rest, result);
    LastAnswer(if rest == [] then head else rest[|rest| - 1]);
  }

  lemma LastAnswer(calls: seq<Call>)
    ensures |calls| == 1 ==> Answers(calls) == [Trim(Answers(calls)[0])]
  {
    if |calls| == 1 {
      var answer := AnswerOf(calls[0]);
      if calls[0].reply.result.Success? {
        TrimIdempotent(calls[0].reply.result.value.summary);
      }
      assert Trim(answer) == answer;
      assert Answers(calls) == [answer];
    }
  }

  /**
    Whatever the summarizer answers: the calls of a summarizing fall into layers. Those of the first
    carry the planned range, part by part and in order, each part as it is unless it is a single unit
    too large for a request; those of a later layer carry the answers of the layer before, in order.
    A successful summarizing carries everything, and returns the single answer of its last layer.
   */
  lemma SummarizingReadsRange(job: Job, budget: Option<SummaryBudget>, tick: nat, a: nat, b: nat)
    returns (sources: seq<seq<Message>>, layers: seq<seq<Call>>)
    requires a < b <= |TranscriptUnits(job.request.messages)| && ValidJob(job)
    requires var units := TranscriptUnits(job.request.messages); job.plan == Plan(units[a].start, units[b - 1].end)
    ensures SummarizeSource(job, budget, tick).log == Flatten(layers)
    ensures ReadsRange(job, budget, sources, layers, SummarizeSource(job, budget, tick).summary)
  {
    sources, layers := [], [];
    var split := SplitOf(job, budget, tick);
    if split.chunks.Failure? {
      SplitErrorIsNoLimit(job, budget, tick);
    } else {
      sources := SplitStandsFor(job, budget, a, b, tick);
      var batch := SummarizeFrom(job.world, job.request.model, split.chunks.value, 0, OutputOf(job, budget),
                                 [], [], split.tick);
      var head := FirstLayerSends(job, budget, sources, split.chunks.value, split.tick);
      if batch.summaries.Failure? || budget.None? {
        OneLayer(job, budget, sources, head, SummarizeSource(job, budget, tick).summary);
        layers := [head];
      } else {
        JobRelays(job, budget.value);
        var rest := RefineSends(RoundsOf(job, budget.value), RelayOf(job, budget.value), Answers(head), 0,
                                head, batch.tick);
        LaterFollow(job, budget.value, head, rest, SummarizeSource(job, budget, tick).summary.Success?);
        MoreLayers(job, budget.value, sources, head, rest, SummarizeSource(job, budget, tick).summary);
        FlattenNext([], head, rest);
        layers := [head] + rest;
      }
    }
  }

  /** Every unit of the range can be sent by itself, or the window is unknown. */
  ghost predicate UnitsFitAlone(job: Job, budget: Option<SummaryBudget>) {
    budget.Some? ==>
      forall source | IsUnit(job.request.messages, job.plan, source) :: Fits(source, budget.value, job.ports.costs)
  }

  lemma SameParts(sources: seq<seq<Message>>, calls: seq<Call>)
    requires |calls| == |sources| && forall i | 0 <= i < |calls| :: calls[i].request.messages == sources[i]
    ensures Flatten(Sent(calls)) == Flatten(sources)
  {
    assert Sent(calls) == sources;
  }

  /** Then a successful summarizing sends the planned range verbatim, with nothing left out or repeated. */
  lemma RangeIsSentVerbatim(
    job: Job, budget: Option<SummaryBudget>, sources: seq<seq<Message>>, layers: seq<seq<Call>>,
    result: Result<string, ContextError>)
    requires ValidJob(job) && UnitsFitAlone(job, budget)
    requires ReadsRange(job, budget, sources, layers, result) && result.Success?
    ensures Flatten(Sent(layers[0])) == job.request.messages[job.plan.start..job.plan.end]
  {
    SameParts(sources, layers[0]);
  }
}
