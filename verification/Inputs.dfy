/** Inputs at which the program does less than its comments or its purpose say. */
module Inputs {
  import opened Wrappers
  import opened Words
  import opened Text
  import opened Transcript
  import opened Units
  import opened Rewriting
  import opened Projection
  import opened Micro
  import opened MicroGains
  import Usage
  import opened Errors
  import opened Planning
  import Chunking
  import opened Budget
  import opened Summarizer
  import opened Accounting
  import opened Replay
  import opened Mechanical
  import opened Compacting
  import opened CompactingLaws

  /** The program's default policy. */
  const POLICY := Policy(true, 85, 60, 4_096, 50, 2, 16_000)

  const PORTS := Ports(
    BUILT_IN, Chunking.Costs((message: Message) => 1, (messages: seq<Message>) => 1),
    (messages: seq<Message>) => "", "summary: ", "truncated")

  /** A world that is never cancelled and whose summarizer always answers the same. */
  function Always(reply: Reply): World {
    World((tick: nat) => false, (tick: nat, request: SummaryRequest) => reply)
  }

  function TaskFor(messages: seq<Message>, reply: Reply): Task {
    Task(PORTS, POLICY, Always(reply), Request("model", messages, [], None, None), Trigger.Budget, 0, None)
  }

  /** Three user messages: the first is compressible history for two recent units. */
  function Talk(): seq<Message> {
    [TextMessage(User, "a"), TextMessage(User, "b"), TextMessage(User, "c")]
  }

  lemma TalkUnits()
    ensures TranscriptUnits(Talk()) == [Unit(0, 1, false), Unit(1, 2, false), Unit(2, 3, false)]
  {
    var messages := Talk();
    assert UnitsFrom(messages, 3) == [];
    assert UnitsFrom(messages, 2) == [Unit(2, 3, false)];
    assert UnitsFrom(messages, 1) == [Unit(1, 2, false), Unit(2, 3, false)];
  }

  lemma TalkIsCompressible(reply: Reply)
    ensures HasCompressibleHistory(Talk(), 2) && MicroPlanOf(TaskFor(Talk(), reply)).None?
  {
    TalkUnits();
    assert !TranscriptUnits(Talk())[0].protected;
    assert StaleFrom(Talk(), 0, 3) == None;
    assert StaleFrom(Talk(), 1, 3) == None;
    assert StaleFrom(Talk(), 2, 3) == None;
  }

  /** With an unknown window and nothing to project, a first failing reply is the end. */
  lemma FirstReplyEnds(task: Task, tick: nat, reply: Reply)
    requires task.world == Always(reply) && reply.result.Failure?
    requires task.capabilities.None? && MicroPlanOf(task).None?
    requires HasCompressibleHistory(task.request.messages, task.policy.minimumRecentUnits)
    ensures var answer := Compact(task, tick);
      answer.result == Failure(Attach(reply.result.error, CallUsage(reply)))
      && Spent(answer.log) == CallUsage(reply) && LastFailed(answer.log)
      && LastError(answer.log) == reply.result.error && |answer.log| == 1
  {
    PlansExactlyWhen(task);
    PlansArePlannable(task);
    var plan := PlanOf(task).value;
    var request := SummaryRequest(
      task.request.model, task.request.messages[plan.start..plan.end], task.policy.summaryMaxOutputTokens);
    SpentNext([], Call(request, reply));
    assert [] + [Call(request, reply)] == [Call(request, reply)];
  }

  lemma TalkEnds(reply: Reply, tick: nat)
    requires reply.result.Failure?
    ensures var answer := Compact(TaskFor(Talk(), reply), tick);
      answer.result == Failure(Attach(reply.result.error, CallUsage(reply)))
      && Spent(answer.log) == CallUsage(reply) && LastFailed(answer.log)
      && LastError(answer.log) == reply.result.error
      && Reported(answer.result) == ErrorUsage(Attach(reply.result.error, CallUsage(reply)))
  {
    TalkIsCompressible(reply);
    FirstReplyEnds(TaskFor(Talk(), reply), tick, reply);
  }

  lemma NotAttached()
    ensures ErrorUsage(Attach(NothingCompressible, Some(TokensOnly(5)))) == None
  {
  }

  // ----- usage -----

  /** An error that usage is not attached to, such as a refused plan, loses what its call spent. */
  lemma UsageIsLost(reply: Reply, tick: nat)
    requires reply == Reply(Failure(NothingCompressible), Some(TokensOnly(5)))
    ensures var answer := Compact(TaskFor(Talk(), reply), tick);
      Spent(answer.log) == Some(TokensOnly(5)) && Reported(answer.result) == None
  {
    NotAttached();
    TalkEnds(reply, tick);
  }

  lemma FiveAndFive()
    ensures Usage.Merge(Some(TokensOnly(5)), Some(TokensOnly(5))) == Some(TokensOnly(10))
  {
  }

  /** An error that wraps the usage its call reports as well has the five tokens counted as ten. */
  lemma UsageIsCountedTwice(reply: Reply, tick: nat)
    requires reply == Reply(Failure(SummaryCallFailed(CompressionFailed, TokensOnly(5))), Some(TokensOnly(5)))
    ensures var answer := Compact(TaskFor(Talk(), reply), tick);
      Spent(answer.log) == Some(TokensOnly(5)) && Reported(answer.result) == Some(TokensOnly(10))
  {
    TalkEnds(reply, tick);
    AttachReports(reply.result.error, Some(TokensOnly(5)));
    FiveAndFive();
  }

  /** Any error of another kind miscounts some usage: here is a call at which it does. */
  lemma UnwrappableIsMiscounted(error: ContextError, tick: nat) returns (spent: Option<Usage.SummaryUsage>)
    requires !Wrappable(error)
    ensures var answer := Compact(TaskFor(Talk(), Reply(Failure(error), spent)), tick);
      Spent(answer.log) == spent && Reported(answer.result) != spent
  {
    AttachAlwaysKeepsExactlyWhen(error);
    spent :| ErrorUsage(Attach(error, spent)) != spent;
    TalkEnds(Reply(Failure(error), spent), tick);
  }

  // ----- a forged failure -----

  /** A failure that claims an applied projection which never happened. */
  function ForgedFailure(): ContextError {
    MicroAppliedThenFullFailed(
      Record(MicroProjection, Trigger.Budget, 0, 0, 0, 0, 0, 0, "", "", [], POLICY_VERSION), [], CompressionFailed)
  }

  /** Nothing is projected here, so any such answer is forged, and the anchor stays. */
  lemma TalkForged(reply: Reply, tick: nat)
    requires reply.result.Failure? && reply.result.error.MicroAppliedThenFullFailed?
    ensures Forged(TaskFor(Talk(), reply), tick) && !Clears(TaskFor(Talk(), reply), tick)
  {
    TalkIsCompressible(reply);
    TalkEnds(reply, tick);
  }

  /** The record of the forged failure does not apply to the transcript. */
  lemma ForgedRecordFails()
    ensures Apply(PORTS, ForgedFailure().record, Talk()).Failure?
  {
  }

  /**
    The forged failure is believed: it comes out although nothing was projected, the anchor stays, and
    the record it hands over does not apply to the transcript.
   */
  lemma ForgedFailureIsBelieved(reply: Reply, tick: nat)
    requires reply == Reply(Failure(ForgedFailure()), None)
    ensures Compact(TaskFor(Talk(), reply), tick).result == Failure(reply.result.error)
    ensures Forged(TaskFor(Talk(), reply), tick) && !Clears(TaskFor(Talk(), reply), tick)
    ensures Apply(PORTS, reply.result.error.record, Talk()).Failure?
  {
    TalkForged(reply, tick);
    TalkEnds(reply, tick);
    ForgedRecordFails();
  }

  // ----- a projection that does not reduce -----

  lemma OldResultIsCompressible(text: string)
    ensures HasCompressibleHistory(OldResult(text), 2)
  {
    var messages := OldResult(text);
    assert UnitsFrom(messages, 4) == [];
    assert UnitsFrom(messages, 3) == [Unit(3, 4, false)];
    assert UnitsFrom(messages, 2) == [Unit(2, 3, false), Unit(3, 4, false)];
    assert UnitsFrom(messages, 1) == [Unit(1, 2, false), Unit(2, 3, false), Unit(3, 4, false)];
    assert UnitAt(messages, 0) == Unit(0, 1, true);
    assert !TranscriptUnits(messages)[1].protected;
  }

  lemma OldResultIsAllocated(text: string)
    requires |text| == 532 && forall i | 0 <= i < |text| :: CharWidth(text[i]) == 1
    ensures Allocated(OldResult(text)) && Tokens(OldResult(text)) <= ISIZE_MAX + 19
  {
    Utf8LenUniform(text, 1);
    OldResultTokens(text);
    forall slot | HasText(OldResult(text), slot) ensures Utf8Len(TextAt(OldResult(text), slot)) <= ISIZE_MAX {
    }
  }

  /**
    One old tool result of 532 one-byte characters stops every compaction, whatever the summarizer
    would answer and although there is history it could summarize: the record that is called
    unreachable is refused, before any call.
   */
  lemma OldResultStopsCompaction(text: string, reply: Reply, tick: nat)
    requires |text| == 532 && !Contains(text, SENTINEL)
    requires forall i | 0 <= i < |text| :: CharWidth(text[i]) == 1
    ensures HasCompressibleHistory(OldResult(text), 2)
    ensures var answer := Compact(TaskFor(OldResult(text), reply), tick);
      answer.log == [] && answer.result.Failure? && answer.result.error.CompressionDidNotReduce?
  {
    var task := TaskFor(OldResult(text), reply);
    OldResultIsCompressible(text);
    OldResultIsAllocated(text);
    PlanWithoutReduction(text);
    MicroReducesExactlyWhen(OldResult(text), false);
    CompactStopsExactlyWhen(task, tick);
  }

  // ----- budgets -----

  /** An estimator that may be plugged in: every request costs one token. */
  const ONE_EACH := Estimators((request: Request) => 1, (messages: seq<Message>) => 1)

  /** With it, an empty window admits a request that does not fit it. */
  lemma AdmissionDisagrees(request: Request)
    ensures var empty := Capabilities(Some(0), None);
      AdmissionCheck(POLICY, request, empty, ONE_EACH.request(request)).Admitted?
      && !FitsWindow(POLICY, request, empty, AnchoredEstimate(None, request, ONE_EACH))
  {
    AdmissionAgreesExactlyWhen(POLICY, request, Capabilities(Some(0), None), ONE_EACH);
  }

  /** A valid policy and a window for which the search for the summary's output size never ends. */
  lemma SearchNeverEnds(n: nat)
    ensures var policy := POLICY.(summaryMaxOutputTokens := U32_MAX);
      var known := Capabilities(Some(0x4_0000_0000), None);
      ValidPolicy(policy) && SummaryCeiling(policy, known) == U32_MAX
      && StepsFrom(Search(1, SummaryCeiling(policy, known), None), 0x4_0000_0000, n).Next?
  {
    SearchEndsExactlyWhen(U32_MAX, 0x4_0000_0000);
  }
}
