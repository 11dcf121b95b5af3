/** What summarizing reports of the usage of its calls, for a summarizer that may answer anything. */
module Accounting {
  import opened Wrappers
  import opened Words
  import Text
  import opened Transcript
  import opened Units
  import Usage
  import opened Errors
  import opened Planning
  import opened Chunking
  import opened Budget
  import opened Summarizer

  ghost predicate AllSucceeded(log: seq<Call>) {
    forall call | call in log :: call.reply.result.Success?
  }

  /** The last reply is an error; it ended the summarizing. */
  predicate LastFailed(log: seq<Call>) {
    log != [] && log[|log| - 1].reply.result.Failure?
  }

  function LastCall(log: seq<Call>): Call
    requires log != []
  {
    log[|log| - 1]
  }

  function LastError(log: seq<Call>): ContextError
    requires LastFailed(log)
  {
    LastCall(log).reply.result.error
  }

  /**
    Where an error comes from: it is the last reply with the usage of all calls attached, or an error
    of the engine's own that reports the usage of all calls, none of which failed.
   */
  ghost predicate Explains(error: ContextError, log: seq<Call>) {
    if LastFailed(log) then error == Attach(LastError(log), Spent(log))
    else AllSucceeded(log) && ErrorUsage(error) == Spent(log) && !error.MicroAppliedThenFullFailed?
  }

  predicate Gives(world: World, tick: nat, call: Call) {
    world.reply(tick, call.request) == call.reply
  }

  /** A last reply that failed is one the world gave. */
  ghost predicate Answered(world: World, log: seq<Call>) {
    LastFailed(log) ==> exists tick: nat :: Gives(world, tick, LastCall(log))
  }

  ghost predicate Accounts<T>(world: World, result: Result<T, ContextError>, log: seq<Call>) {
    Answered(world, log)
    && match result
       case Success(_) => AllSucceeded(log)
       case Failure(error) => Explains(error, log)
  }

  lemma NoneFailed(log: seq<Call>)
    requires AllSucceeded(log)
    ensures !LastFailed(log)
  {
    if log != [] {
      assert log[|log| - 1] in log;
    }
  }

  lemma OwnErrorIsExplained(error: ContextError, log: seq<Call>)
    requires Wrappable(error) && AllSucceeded(log)
    ensures Explains(Attach(error, Spent(log)), log)
  {
    AttachReports(error, Spent(log));
    NoneFailed(log);
  }

  lemma FreeErrorIsExplained(error: ContextError)
    requires ErrorUsage(error) == None && !error.MicroAppliedThenFullFailed?
    ensures Explains(error, [])
  {
  }

  lemma {:induction false} BatchesAccount(
    world: World, model: string, chunks: seq<seq<Message>>, k: nat, maxOutput: uint32,
    done: seq<string>, log: seq<Call>, tick: nat)
    requires k <= |chunks| && AllSucceeded(log)
    ensures var batch := SummarizeFrom(world, model, chunks, k, maxOutput, done, log, tick);
      Accounts(world, batch.summaries, batch.log)
    decreases |chunks| - k
  {
    NoneFailed(log);
    if k < |chunks| {
      if world.cancelled(tick) {
        OwnErrorIsExplained(Cancelled, log);
      } else {
        var request := SummaryRequest(model, chunks[k], maxOutput);
        var call := Call(request, world.reply(tick + 1, request));
        match call.reply.result
        case Failure(error) =>
          assert LastCall(log + [call]) == call && Gives(world, tick + 1, call);
        case Success(outcome) =>
          assert AllSucceeded(log + [call]);
          OwnErrorIsExplained(EmptySummary, log + [call]);
          BatchesAccount(world, model, chunks, k + 1, maxOutput, done + [Text.Trim(outcome.summary)],
                         log + [call], tick + 2);
      }
    }
  }

  lemma LayersAccount(job: Job, budget: SummaryBudget, summaries: seq<string>, log: seq<Call>, tick: nat)
    requires AllSucceeded(log)
    ensures var layer := Layer(job, budget, summaries, log, tick); Accounts(job.world, layer.summaries, layer.log)
  {
    NoneFailed(log);
    var grouped := GroupSummaries(AsMessages(summaries), budget, job.ports.costs, job.world.cancelled, tick);
    match grouped.chunks
    case Failure(error) =>
      OwnErrorIsExplained(error, log);
    case Success(chunks) =>
      BatchesAccount(job.world, job.request.model, chunks, 0, budget.maxOutputTokens, [], log, grouped.tick);
      var batch := SummarizeFrom(job.world, job.request.model, chunks, 0, budget.maxOutputTokens,
                                 [], log, grouped.tick);
      if batch.summaries.Success? {
        OwnErrorIsExplained(NoReduction(summaries, batch.summaries.value), batch.log);
      }
  }

  ghost predicate RoundsAccount(rounds: Rounds, world: World) {
    forall summaries: seq<string>, log: seq<Call>, tick: nat ::
      AllSucceeded(log) ==>
        Accounts(world, rounds.layer(summaries, log, tick).summaries, rounds.layer(summaries, log, tick).log)
  }

  lemma {:induction false} RefineAccounts(
    rounds: Rounds, world: World, summaries: seq<string>, depth: nat, log: seq<Call>, tick: nat)
    requires depth <= MAX_RECURSION && RoundsAccount(rounds, world) && AllSucceeded(log)
    ensures var outcome := RefineWith(rounds, summaries, depth, log, tick);
      Accounts(world, outcome.summary, outcome.log)
    decreases MAX_RECURSION - depth
  {
    NoneFailed(log);
    OwnErrorIsExplained(Cancelled, log);
    OwnErrorIsExplained(SummaryRecursionLimit, log);
    if depth < MAX_RECURSION {
      var layer := rounds.layer(summaries, log, tick + 1);
      assert Accounts(world, layer.summaries, layer.log);
      if layer.summaries.Success? {
        RefineAccounts(rounds, world, layer.summaries.value, depth + 1, layer.log, layer.tick);
      }
    }
  }

  lemma JobRoundsAccount(job: Job, budget: SummaryBudget)
    requires ValidJob(job)
    ensures RoundsAccount(RoundsOf(job, budget), job.world)
  {
    var rounds := RoundsOf(job, budget);
    forall summaries: seq<string>, log: seq<Call>, tick: nat | AllSucceeded(log)
      ensures Accounts(job.world, rounds.layer(summaries, log, tick).summaries, rounds.layer(summaries, log, tick).log)
    {
      LayersAccount(job, budget, summaries, log, tick);
    }
  }

  /** Chunking happens before any call and fails with errors that report no usage. */
  lemma SplitErrorsAreFree(
    messages: seq<Message>, units: seq<Unit>, start: nat, end: nat, budget: Option<SummaryBudget>,
    costs: Costs, cancelled: nat -> bool, tick: nat)
    requires start <= end <= |messages|
    ensures var chunks := SplitSource(messages, units, start, end, budget, costs, cancelled, tick).chunks;
      chunks.Failure? ==> ErrorUsage(chunks.error) == None && !chunks.error.MicroAppliedThenFullFailed?
  {
  }

  /**
    Whatever the summarizer answers, the error of a failed summarizing is explained by the log: the
    last reply with the usage of all calls attached to it, or an error of the engine's own that
    reports exactly the usage of all calls. A summary is returned only if no reply failed.
   */
  lemma SummaryAccounts(job: Job, budget: Option<SummaryBudget>, tick: nat)
    requires ValidJob(job)
    ensures var outcome := SummarizeSource(job, budget, tick);
      Accounts(job.world, outcome.summary, outcome.log)
  {
    var units := TranscriptUnits(job.request.messages);
    SplitErrorsAreFree(job.request.messages, units, job.plan.start, job.plan.end, budget,
                       job.ports.costs, job.world.cancelled, tick);
    var split := SplitSource(job.request.messages, units, job.plan.start, job.plan.end,
                             budget, job.ports.costs, job.world.cancelled, tick);
    match split.chunks
    case Failure(error) =>
      FreeErrorIsExplained(error);
    case Success(chunks) =>
      var maxOutput := if budget.Some? then budget.value.maxOutputTokens else job.policy.summaryMaxOutputTokens;
      SourceAccounts(job, budget, chunks, maxOutput, split.tick);
  }

  lemma SourceAccounts(
    job: Job, budget: Option<SummaryBudget>, chunks: seq<seq<Message>>, maxOutput: uint32, tick: nat)
    requires ValidJob(job)
    ensures var batch := SummarizeFrom(job.world, job.request.model, chunks, 0, maxOutput, [], [], tick);
      Accounts(job.world, batch.summaries, batch.log)
      && (batch.summaries.Success? ==>
            Explains(Attach(EmptySummary, Spent(batch.log)), batch.log)
            && (budget.Some? ==>
                  var outcome := Refine(job, budget.value, batch.summaries.value, batch.log, batch.tick);
                  Accounts(job.world, outcome.summary, outcome.log)))
  {
    BatchesAccount(job.world, job.request.model, chunks, 0, maxOutput, [], [], tick);
    var batch := SummarizeFrom(job.world, job.request.model, chunks, 0, maxOutput, [], [], tick);
    if batch.summaries.Success? {
      OwnErrorIsExplained(EmptySummary, batch.log);
      if budget.Some? {
        JobRoundsAccount(job, budget.value);
        RefineAccounts(RoundsOf(job, budget.value), job.world, batch.summaries.value, 0, batch.log, batch.tick);
      }
    }
  }

  // ----- when the report is the usage spent -----

  /** Adding `extra` to `total` leaves it as it is. */
  predicate AddsNothing(extra: Option<uint64>, total: Option<uint64>) {
    total.None? || (extra.Some? && (extra.value == 0 || total.value == U64_MAX))
  }

  /** An identifier that is already known, or is not told. */
  predicate TellsNothing<T>(extra: Option<T>, known: Option<T>) {
    known.Some? || extra.None?
  }

  /** Merging the usage `extra` in front of `total` leaves `total` as it is. */
  predicate Absorbed(extra: Usage.SummaryUsage, total: Usage.SummaryUsage) {
    total.metadata.decodeDurationMs.None?
    && TellsNothing(extra.metadata.responseId, total.metadata.responseId)
    && TellsNothing(extra.metadata.model, total.metadata.model)
    && AddsNothing(extra.usage.inputTokens, total.usage.inputTokens)
    && AddsNothing(extra.usage.outputTokens, total.usage.outputTokens)
    && AddsNothing(extra.usage.reasoningTokens, total.usage.reasoningTokens)
    && AddsNothing(extra.usage.cacheReadTokens, total.usage.cacheReadTokens)
    && AddsNothing(extra.usage.cacheWriteTokens, total.usage.cacheWriteTokens)
    && AddsNothing(extra.usage.totalTokens, total.usage.totalTokens)
    && AddsNothing(Some(extra.elapsedMillis), Some(total.elapsedMillis))
  }

  lemma AbsorbedExactlyWhen(extra: Usage.SummaryUsage, total: Usage.SummaryUsage)
    ensures Usage.Merge(Some(extra), Some(total)) == Some(total) <==> Absorbed(extra, total)
  {
  }

  /** An error, unwrapped down to the first usage it wraps, carries another usage than what was spent. */
  predicate CarriesOther(error: ContextError, spent: Option<Usage.SummaryUsage>) {
    match error
    case SummaryCallFailed(_, own) => spent != Some(own)
    case MicroAppliedThenFullFailed(_, _, inner) => CarriesOther(inner, spent)
    case _ => spent.Some?
  }

  lemma {:induction false} CarriesOtherMeans(error: ContextError, spent: Option<Usage.SummaryUsage>)
    ensures CarriesOther(error, spent) <==> ErrorUsage(error) != spent
  {
    match error
    case MicroAppliedThenFullFailed(_, _, inner) => CarriesOtherMeans(inner, spent);
    case _ =>
  }

  /**
    The errors that spoil the account of the usage spent: one that wraps a usage of its own has it
    counted on top, one that stands for a failed compaction reports only what it carries, and any
    other that usage is not attached to loses what was spent.
   */
  predicate Spoils(error: ContextError, spent: Option<Usage.SummaryUsage>) {
    match error
    case SummaryCallFailed(_, own) => spent.None? || !Absorbed(own, spent.value)
    case MicroAppliedThenFullFailed(_, _, inner) => CarriesOther(inner, spent)
    case _ => !Wrappable(error) && spent.Some?
  }

  /** The usage spent is reported after attaching it exactly when the error does not spoil it. */
  lemma AttachKeepsExactlyWhen(error: ContextError, spent: Option<Usage.SummaryUsage>)
    ensures ErrorUsage(Attach(error, spent)) == spent <==> !Spoils(error, spent)
  {
    AttachReports(error, spent);
    if error.SummaryCallFailed? && spent.Some? {
      AbsorbedExactlyWhen(error.usage, spent.value);
    }
    if error.MicroAppliedThenFullFailed? {
      CarriesOtherMeans(error.inner, spent);
    }
  }

  /** Whatever was spent is reported exactly for the kinds of error that usage is attached to. */
  lemma AttachAlwaysKeepsExactlyWhen(error: ContextError)
    ensures (forall spent :: ErrorUsage(Attach(error, spent)) == spent) <==> Wrappable(error)
  {
    AttachReports(error, None);
    AttachReports(error, Some(TokensOnly(5)));
    if Wrappable(error) {
      forall spent ensures ErrorUsage(Attach(error, spent)) == spent {
        AttachReports(error, spent);
      }
    } else {
      assert ErrorUsage(Attach(error, None)) != None
          || ErrorUsage(Attach(error, Some(TokensOnly(5)))) != Some(TokensOnly(5));
    }
  }

  /** A usage that reports an input size and nothing else. */
  /** Usage is never attached to what a policy, a request, a record or a projection is refused with. */
  lemma UnwrappableKinds(error: ContextError)
    ensures !Wrappable(error) <==>
      error.InvalidPolicy? || error.NothingCompressible? || error.ProtectedInputFillsWindow?
      || error.InitialRequestOversized? || error.RecordMismatch? || error.StillExceeded?
      || error.SummaryCallFailed? || error.MicroAppliedThenFullFailed?
  {
  }

  function TokensOnly(input: uint64): Usage.SummaryUsage {
    Usage.SummaryUsage(
      Usage.Metadata(None, None, None), Usage.TokenUsage(Some(input), None, None, None, None, None), Usage.Completed, 0)
  }

  /** The last reply spoils the account of what all calls spent. */
  ghost predicate EndsSpoiled(log: seq<Call>) {
    LastFailed(log) && Spoils(LastError(log), Spent(log))
  }

  /** A failure reports the usage of every call exactly once unless the last reply spoils the account. */
  lemma ExplainedReportsExactlyWhen(error: ContextError, log: seq<Call>)
    requires Explains(error, log)
    ensures ErrorUsage(error) == Spent(log) <==> !EndsSpoiled(log)
  {
    if LastFailed(log) {
      AttachKeepsExactlyWhen(LastError(log), Spent(log));
    }
  }

  /**
    A failed summarizing reports the in-order merge of every call's usage, each once, if and only if
    its last reply does not spoil that account.
   */
  lemma SummaryReportsExactlyWhen(job: Job, budget: Option<SummaryBudget>, tick: nat)
    requires ValidJob(job) && SummarizeSource(job, budget, tick).summary.Failure?
    ensures var outcome := SummarizeSource(job, budget, tick);
      ErrorUsage(outcome.summary.error) == Spent(outcome.log) <==> !EndsSpoiled(outcome.log)
  {
    SummaryAccounts(job, budget, tick);
    var outcome := SummarizeSource(job, budget, tick);
    ExplainedReportsExactlyWhen(outcome.summary.error, outcome.log);
  }

  /** Every failing reply is of a kind that usage is attached to. */
  ghost predicate AllWrappable(world: World) {
    forall tick: nat, request: SummaryRequest ::
      var result := world.reply(tick, request).result;
      result.Failure? ==> Wrappable(result.error)
  }

  lemma WrappableNeverSpoils(world: World, log: seq<Call>)
    requires AllWrappable(world) && Answered(world, log)
    ensures !EndsSpoiled(log)
  {
  }

  // ----- forged failures -----

  /** The last reply is the failure that only a compaction as a whole should report. */
  ghost predicate EndsForged(log: seq<Call>) {
    LastFailed(log) && LastError(log).MicroAppliedThenFullFailed?
  }

  /** Such a failure comes out of summarizing exactly when the summarizer answered with it. */
  lemma ForgedExactlyWhen(error: ContextError, log: seq<Call>)
    requires Explains(error, log)
    ensures error.MicroAppliedThenFullFailed? <==> EndsForged(log)
  {
  }

  /** No reply is a forged failure. Every other error may be answered. */
  ghost predicate NothingForged(world: World) {
    forall tick: nat, request: SummaryRequest ::
      var result := world.reply(tick, request).result;
      result.Failure? ==> !result.error.MicroAppliedThenFullFailed?
  }

  lemma NothingForgedInLog(world: World, log: seq<Call>)
    requires NothingForged(world) && Answered(world, log)
    ensures !EndsForged(log)
  {
  }
}
