/** Applying persisted compaction records to a transcript. */
module Replay {
  import opened Wrappers
  import opened Words
  import opened Text
  import opened Transcript
  import opened Sums
  import opened Units
  import opened Rewriting
  import opened Micro
  import Projection
  import opened MicroGains
  import opened Errors
  import opened Summarizer

  const POLICY_VERSION: nat := 1

  /** The synthetic message that marks a mechanical truncation. */
  function TruncationMarker(ports: Ports): Message {
    TextMessage(User, ports.truncationText).(isMeta := true)
  }

  /** The range checks shared by the two replacing kinds. */
  predicate RangeMatches(record: Record, messages: seq<Message>) {
    record.start < record.end <= |messages| && record.replacedCount == record.end - record.start
  }

  function ApplyReplacement(
    ports: Ports, record: Record, messages: seq<Message>, inserted: Message): Result<seq<Message>, ContextError>
    requires RangeMatches(record, messages)
  {
    if !Accepts(messages, record.start, record.end) then Failure(RecordMismatch)
    else if ports.digest(messages[record.start..record.end]) != record.digest then Failure(RecordMismatch)
    else
      var rebuilt := Splice(messages, record.start, record.end, inserted);
      if |rebuilt| != record.retainedCount then Failure(RecordMismatch) else Success(rebuilt)
  }

  /** `apply_summary`. */
  function ApplySummary(ports: Ports, record: Record, messages: seq<Message>): Result<seq<Message>, ContextError> {
    if !RangeMatches(record, messages) || Trim(record.summary) == "" || record.projections != []
    then Failure(RecordMismatch)
    else ApplyReplacement(ports, record, messages, SummaryMessage(ports, record.summary))
  }

  /** `apply_mechanical_truncation`. */
  function ApplyMechanical(ports: Ports, record: Record, messages: seq<Message>): Result<seq<Message>, ContextError> {
    if record.summary != "" || record.projections != [] || !RangeMatches(record, messages)
    then Failure(RecordMismatch)
    else ApplyReplacement(ports, record, messages, TruncationMarker(ports))
  }

  /** `projections_already_applied`. */
  predicate AlreadyApplied(messages: seq<Message>, projections: seq<ToolProjection>) {
    forall p | p in projections :: HasText(messages, p.slot) && TextAt(messages, p.slot) == p.text
  }

  /** The strict overwriting loop of a replay: every target must be a tool-result text. */
  function ReplayProjections(
    messages: seq<Message>, projections: seq<ToolProjection>): Result<seq<Message>, ContextError>
    decreases |projections|
  {
    if projections == [] then Success(messages)
    else if !HasToolText(messages, projections[0].slot) then Failure(RecordMismatch)
    else ReplayProjections(SetText(messages, projections[0].slot, projections[0].text), projections[1..])
  }

  method ComputeReplay(messages: seq<Message>, projections: seq<ToolProjection>)
    returns (replayed: Result<seq<Message>, ContextError>)
    ensures replayed == ReplayProjections(messages, projections)
  {
    var rebuilt := messages;
    for k := 0 to |projections|
      invariant ReplayProjections(rebuilt, projections[k..]) == ReplayProjections(messages, projections)
    {
      assert projections[k..][1..] == projections[k + 1..];
      var slot := projections[k].slot;
      if slot.message >= |rebuilt| || rebuilt[slot.message].role != Tool {
        return Failure(RecordMismatch);
      }
      var message := rebuilt[slot.message];
      if slot.block >= |message.content| || !message.content[slot.block].ToolResult? {
        return Failure(RecordMismatch);
      }
      var parts := message.content[slot.block].content;
      if slot.part >= |parts| || !parts[slot.part].ResultText? {
        return Failure(RecordMismatch);
      }
      rebuilt := rebuilt[slot.message := SetMessageText(message, slot.block, slot.part, projections[k].text)];
    }
    replayed := Success(rebuilt);
  }

  /** `apply_micro_projection`. */
  function ApplyMicro(ports: Ports, record: Record, messages: seq<Message>): Result<seq<Message>, ContextError> {
    if record.summary != "" || record.projections == []
       || record.start != 0 || record.end != 0 || record.replacedCount != 0
       || record.retainedCount != |messages|
    then Failure(RecordMismatch)
    else if AlreadyApplied(messages, record.projections) then Success(messages)
    else if ports.digest(messages) != record.digest then Failure(RecordMismatch)
    else ReplayProjections(messages, record.projections)
  }

  /** `ContextCompressionRecord::apply`. */
  function Apply(ports: Ports, record: Record, messages: seq<Message>): Result<seq<Message>, ContextError> {
    if record.tokensBefore == 0 || record.tokensAfter >= record.tokensBefore then Failure(RecordMismatch)
    else match record.kind
      case Summary => ApplySummary(ports, record, messages)
      case MicroProjection => ApplyMicro(ports, record, messages)
      case MechanicalTruncation => ApplyMechanical(ports, record, messages)
  }

  // ----- records the engine makes -----

  function SummaryRecord(
    ports: Ports, trigger: Trigger, messages: seq<Message>, start: nat, end: nat, summary: string,
    before: uint64, after: uint64): Record
    requires start <= end <= |messages|
  {
    Record(Summary, trigger, before, after, start, end, end - start, |messages| - (end - start) + 1,
           ports.digest(messages[start..end]), summary, [], POLICY_VERSION)
  }

  function MechanicalRecord(
    ports: Ports, trigger: Trigger, messages: seq<Message>, start: nat, end: nat, before: uint64, after: uint64): Record
    requires start <= end <= |messages|
  {
    Record(MechanicalTruncation, trigger, before, after, start, end, end - start, |messages| - (end - start) + 1,
           ports.digest(messages[start..end]), "", [], POLICY_VERSION)
  }

  function MicroRecord(
    ports: Ports, trigger: Trigger, messages: seq<Message>, plan: MicroPlan, before: uint64, after: uint64): Record
  {
    Record(MicroProjection, trigger, before, after, 0, 0, 0, |messages|,
           ports.digest(messages), "", plan.projections, POLICY_VERSION)
  }

  /** A summary record made for a run of unprotected units rebuilds the live transcript. */
  lemma SummaryReplays(
    ports: Ports, trigger: Trigger, messages: seq<Message>, start: nat, end: nat, summary: string,
    before: uint64, after: uint64)
    requires start < end <= |messages| && Accepts(messages, start, end)
    requires Trim(summary) != "" && after < before
    ensures Apply(ports, SummaryRecord(ports, trigger, messages, start, end, summary, before, after), messages)
         == Success(Splice(messages, start, end, SummaryMessage(ports, summary)))
  {
  }

  lemma MechanicalReplays(
    ports: Ports, trigger: Trigger, messages: seq<Message>, start: nat, end: nat, before: uint64, after: uint64)
    requires start < end <= |messages| && Accepts(messages, start, end) && after < before
    ensures Apply(ports, MechanicalRecord(ports, trigger, messages, start, end, before, after), messages)
         == Success(Splice(messages, start, end, TruncationMarker(ports)))
  {
  }

  lemma {:induction false} PlannedReplay(messages: seq<Message>, projections: seq<ToolProjection>)
    requires Compacts(messages, projections)
    ensures ReplayProjections(messages, projections) == Success(ApplyProjections(messages, projections))
    decreases |projections|
  {
    if projections != [] {
      assert projections[0] in projections;
      CompactsNext(messages, projections);
      PlannedReplay(ApplyProjection(messages, projections[0]), projections[1..]);
    }
  }

  lemma PlanCompacts(messages: seq<Message>, relaxed: bool)
    requires PlanMicro(messages, relaxed).Some?
    ensures PlanMicro(messages, relaxed).value.projections != []
    ensures Compacts(messages, PlanMicro(messages, relaxed).value.projections)
  {
    ScopeInRange(messages, relaxed);
    CandidatesCompact(messages, Scope(messages, relaxed).value);
  }

  /** Before its plan is applied, a transcript does not look as if it already had been. */
  lemma NotYetApplied(messages: seq<Message>, relaxed: bool)
    requires PlanMicro(messages, relaxed).Some?
    ensures !AlreadyApplied(messages, PlanMicro(messages, relaxed).value.projections)
  {
    var projections := PlanMicro(messages, relaxed).value.projections;
    PlanIsPlanned(messages, relaxed);
    var first := projections[0];
    assert first in projections;
    Projection.EligibleShrinks(TextAt(messages, first.slot));
  }

  /** A micro record made from a plan rebuilds the live transcript. */
  lemma MicroReplays(
    ports: Ports, trigger: Trigger, messages: seq<Message>, relaxed: bool, before: uint64, after: uint64)
    requires PlanMicro(messages, relaxed).Some? && after < before
    ensures var plan := PlanMicro(messages, relaxed).value;
      Apply(ports, MicroRecord(ports, trigger, messages, plan, before, after), messages)
      == Success(ApplyProjections(messages, plan.projections))
  {
    PlanCompacts(messages, relaxed);
    NotYetApplied(messages, relaxed);
    PlannedReplay(messages, PlanMicro(messages, relaxed).value.projections);
  }

  lemma AppliedIsApplied(messages: seq<Message>, projections: seq<ToolProjection>)
    requires Compacts(messages, projections)
    ensures AlreadyApplied(ApplyProjections(messages, projections), projections)
    ensures |ApplyProjections(messages, projections)| == |messages|
  {
    AppliedKeepsShape(messages, projections);
    forall p | p in projections
      ensures HasText(ApplyProjections(messages, projections), p.slot)
              && TextAt(ApplyProjections(messages, projections), p.slot) == p.text
    {
      AppliedText(messages, projections, p.slot);
      assert Targets(projections, p.slot);
    }
  }

  /** Applying a planner-made micro record twice is the same as applying it once. */
  lemma MicroIdempotent(
    ports: Ports, trigger: Trigger, messages: seq<Message>, relaxed: bool, before: uint64, after: uint64)
    requires PlanMicro(messages, relaxed).Some? && after < before
    ensures var record := MicroRecord(ports, trigger, messages, PlanMicro(messages, relaxed).value, before, after);
      Apply(ports, record, messages).Success?
      && Apply(ports, record, Apply(ports, record, messages).value) == Apply(ports, record, messages)
  {
    MicroReplays(ports, trigger, messages, relaxed, before, after);
    PlanCompacts(messages, relaxed);
    AppliedIsApplied(messages, PlanMicro(messages, relaxed).value.projections);
  }

  ghost predicate Injective(digest: seq<Message> -> string) {
    forall a, b :: digest(a) == digest(b) ==> a == b
  }

  /**
    With a collision-free digest a record rejects a tampered source: it applies only where the
    replaced range is the one it was made from or, for a projection, where the whole transcript is,
    or every target already holds its projected text.
   */
  lemma TamperingIsRejected(ports: Ports, record: Record, source: seq<Message>, messages: seq<Message>)
    requires Injective(ports.digest) && Apply(ports, record, messages).Success?
    requires record.digest == ports.digest(source)
    ensures match record.kind
      case MicroProjection => messages == source || AlreadyApplied(messages, record.projections)
      case _ => record.start < record.end <= |messages| && messages[record.start..record.end] == source
  {
  }

  /**
    The counts of a record that applies are true of what it makes: a summary or truncation takes out as
    many messages as it says, puts one in, and leaves as many as it says; a projection leaves all. And
    it holds what its kind needs and nothing else.
   */
  lemma AppliedCountsAreTrue(ports: Ports, record: Record, messages: seq<Message>)
    requires Apply(ports, record, messages).Success?
    ensures var result := Apply(ports, record, messages).value;
      record.tokensAfter < record.tokensBefore && |result| == record.retainedCount
      && match record.kind
         case MicroProjection =>
           record.replacedCount == record.start == record.end == 0 && |result| == |messages|
           && record.summary == "" && record.projections != []
         case Summary =>
           Trim(record.summary) != "" && record.projections == []
           && |result| == |messages| - record.replacedCount + 1 && record.start < |result|
           && result[record.start] == TextMessage(User, ports.summaryPrefix + record.summary)
           && result[..record.start] == messages[..record.start]
           && result[record.start + 1..] == messages[record.end..]
         case MechanicalTruncation =>
           record.summary == "" && record.projections == []
           && |result| == |messages| - record.replacedCount + 1 && record.start < |result|
           && result[record.start] == Message(true, "", User, [TextBlock(ports.truncationText)])
           && result[..record.start] == messages[..record.start]
           && result[record.start + 1..] == messages[record.end..]
  {
    if record.kind.MicroProjection? {
      ReplayedLength(messages, record.projections);
    }
  }

  lemma {:induction false} ReplayedLength(messages: seq<Message>, projections: seq<ToolProjection>)
    ensures ReplayProjections(messages, projections).Success? ==>
      |ReplayProjections(messages, projections).value| == |messages|
    decreases |projections|
  {
    if projections != [] && HasToolText(messages, projections[0].slot) {
      ReplayedLength(SetText(messages, projections[0].slot, projections[0].text), projections[1..]);
    }
  }

  /** A range of another transcript that a record made from `messages` would replace. */
  ghost predicate SameRange(messages: seq<Message>, other: seq<Message>, start: nat, end: nat)
    requires start <= end <= |messages|
  {
    |other| == |messages| && Accepts(other, start, end) && other[start..end] == messages[start..end]
  }

  /**
    With a collision-free digest, a summary record applies to another transcript if and only if that
    has the same length, the same messages in the range, and the range consists of whole unprotected
    units there as well; and then what it inserts does not depend on the transcript.
   */
  lemma SummaryAppliesExactlyWhen(
    ports: Ports, trigger: Trigger, messages: seq<Message>, start: nat, end: nat, summary: string,
    before: uint64, after: uint64, other: seq<Message>)
    requires Injective(ports.digest) && start < end <= |messages|
    requires Trim(summary) != "" && after < before
    ensures var record := SummaryRecord(ports, trigger, messages, start, end, summary, before, after);
      (Apply(ports, record, other).Success? <==> SameRange(messages, other, start, end))
      && (Apply(ports, record, other).Success? ==>
            Apply(ports, record, other).value == Splice(other, start, end, SummaryMessage(ports, summary)))
  {
  }
}
