/** Whole runs of a session: what is recovered from its journal, and what its usage anchor means. */
module Recovery {
  import opened Wrappers
  import opened Words
  import opened Transcript
  import opened Sums
  import opened Units
  import opened Micro
  import Usage
  import Planning
  import opened Rewriting
  import opened Errors
  import opened Budget
  import opened Summarizer
  import opened Accounting
  import opened Replay
  import opened Preservation
  import opened Mechanical
  import opened Compacting
  import opened CompactingLaws
  import opened Sessions

  // ----- recovery equals the live state -----

  lemma {:induction false} RecoverConcat(ports: Ports, a: seq<Event>, b: seq<Event>, messages: seq<Message>)
    requires Recover(ports, a, messages).Success?
    ensures Recover(ports, a + b, messages) == Recover(ports, b, Recover(ports, a, messages).value)
    decreases |a|
  {
    if a == [] {
      assert a + b == b;
    } else {
      assert (a + b)[1..] == a[1..] + b;
      match a[0]
      case Added(added) => RecoverConcat(ports, a[1..], b, messages + added);
      case Applied(record) => RecoverConcat(ports, a[1..], b, Apply(ports, record, messages).value);
    }
  }

  lemma {:induction false} RecoverRecords(ports: Ports, records: seq<Record>, messages: seq<Message>)
    ensures Recover(ports, Journaled(records), messages) == ApplyAll(ports, records, messages)
    decreases |records|
  {
    if records != [] {
      assert Journaled(records)[1..] == Journaled(records[1..]);
      match Apply(ports, records[0], messages)
      case Failure(_) =>
      case Success(next) => RecoverRecords(ports, records[1..], next);
    }
  }

  /** The events that were adopted rebuild the live transcript. */
  ghost predicate Recoverable(ports: Ports, base: seq<Message>, turn: Turn) {
    Recover(ports, turn.adopted, base) == Success(turn.live)
  }

  /** An anchor present means that the transcript still begins with what it was noted for. */
  ghost predicate AnchorSafe(session: Session) {
    session.anchor.Some? ==>
      session.anchor.value.messageCount == |session.noted| && session.anchor.value.inputTokens > 0
      && session.noted <= session.turn.live
  }

  /** The records apply one after another, and the outcome is not where they began. */
  ghost predicate Moves(ports: Ports, records: seq<Record>, messages: seq<Message>) {
    var outcome := ApplyAll(ports, records, messages);
    outcome.Success? && outcome.value != messages
  }

  /** What the journal has and the live transcript lacks applies to it, and changes it if there is any. */
  ghost predicate AheadOf(ports: Ports, turn: Turn) {
    Unadopted(turn) == [] || Moves(ports, Unadopted(turn), turn.live)
  }

  /** The records handed over lead to the messages handed over, and each of them changes the transcript. */
  ghost predicate HandsOver(ports: Ports, messages: seq<Message>, result: Result<Compaction, ContextError>) {
    match HandedOver(result)
    case Some(handover) =>
      ApplyAll(ports, handover.records, messages) == Success(handover.messages)
      && forall k: nat | 0 < k <= |handover.records| :: Moves(ports, handover.records[..k], messages)
    case None => true
  }

  lemma AdoptedIsRecoverable(
    ports: Ports, base: seq<Message>, turn: Turn, records: seq<Record>, messages: seq<Message>)
    requires Recoverable(ports, base, turn) && ApplyAll(ports, records, turn.live) == Success(messages)
    ensures Recover(ports, turn.adopted + Journaled(records), base) == Success(messages)
  {
    RecoverConcat(ports, turn.adopted, Journaled(records), base);
    RecoverRecords(ports, records, turn.live);
  }

  lemma AdoptResultKeeps(
    ports: Ports, base: seq<Message>, turn: Turn, result: Result<Compaction, ContextError>, delivery: Delivery)
    requires Recoverable(ports, base, turn) && turn.ending.Running? && HandsOver(ports, turn.live, result)
    ensures var next := AdoptResult(turn, result, delivery); Recoverable(ports, base, next) && AheadOf(ports, next)
  {
    match HandedOver(result)
    case None =>
    case Some(handover) =>
      AdoptedIsRecoverable(ports, base, turn, handover.records, handover.messages);
      assert handover.records[..|handover.records|] == handover.records;
  }

  /** The compaction of a step, if it is one, is not forged. */
  ghost predicate Unforged(ports: Ports, policy: Policy, turn: Turn, step: Step) {
    step.CompactWith? ==> !Forged(TaskOf(ports, policy, turn, step), step.tick)
  }

  /** None of the compactions a run performs is forged. */
  ghost predicate RunUnforged(ports: Ports, policy: Policy, session: Session, steps: seq<Step>)
    decreases |steps|
  {
    steps == [] || session.turn.ending.Ended?
    || (Unforged(ports, policy, session.turn, steps[0])
        && RunUnforged(ports, policy, Advance(ports, policy, session, steps[0]), steps[1..]))
  }

  /** That holds of every run whose summarizers never answer with a forged failure. */
  lemma {:induction false} HonestRunsAreUnforged(ports: Ports, policy: Policy, session: Session, steps: seq<Step>)
    requires forall step | step in steps && step.CompactWith? :: NothingForged(step.world)
    ensures RunUnforged(ports, policy, session, steps)
    decreases |steps|
  {
    if steps != [] && session.turn.ending.Running? {
      assert steps[0] in steps;
      if steps[0].CompactWith? {
        NothingForgedHere(TaskOf(ports, policy, session.turn, steps[0]), steps[0].tick);
      }
      HonestRunsAreUnforged(ports, policy, Advance(ports, policy, session, steps[0]), steps[1..]);
    }
  }

  /** A lower estimate means another transcript. */
  lemma LowerIsOther(ports: Ports, request: Request, messages: seq<Message>)
    requires ports.estimators.request(request.(messages := messages)) < ports.estimators.request(request)
    ensures messages != request.messages
  {
  }

  lemma OneRecordMoves(ports: Ports, request: Request, record: Record, messages: seq<Message>)
    requires Apply(ports, record, request.messages) == Success(messages)
    requires ports.estimators.request(request.(messages := messages)) < ports.estimators.request(request)
    ensures ApplyAll(ports, [record], request.messages) == Success(messages)
    ensures Moves(ports, [record], request.messages)
  {
    ApplyOne(ports, record, request.messages);
    LowerIsOther(ports, request, messages);
  }

  lemma PrefixOfOne<T>(x: T, k: nat)
    requires 0 < k <= 1
    ensures [x][..k] == [x]
  {
  }

  lemma OneRecordHandedOver(ports: Ports, request: Request, result: Result<Compaction, ContextError>)
    requires HandedOver(result).Some? && |HandedOver(result).value.records| == 1
    requires var handover := HandedOver(result).value;
      Apply(ports, handover.records[0], request.messages) == Success(handover.messages)
      && ports.estimators.request(request.(messages := handover.messages)) < ports.estimators.request(request)
    ensures HandsOver(ports, request.messages, result)
  {
    var handover := HandedOver(result).value;
    assert handover.records == [handover.records[0]];
    OneRecordMoves(ports, request, handover.records[0], handover.messages);
    forall k: nat | 0 < k <= 1 ensures Moves(ports, handover.records[..k], request.messages) {
      PrefixOfOne(handover.records[0], k);
    }
  }

  lemma TwoRecordsHandedOver(ports: Ports, messages: seq<Message>, result: Result<Compaction, ContextError>)
    requires HandedOver(result).Some? && |HandedOver(result).value.records| == 2
    requires var handover := HandedOver(result).value;
      ApplyAll(ports, handover.records, messages) == Success(handover.messages) && handover.messages != messages
      && Moves(ports, [handover.records[0]], messages)
    ensures HandsOver(ports, messages, result)
  {
    var records := HandedOver(result).value.records;
    forall k: nat | 0 < k <= 2 ensures Moves(ports, records[..k], messages) {
      if k == 1 {
        assert records[..1] == [records[0]];
      } else {
        assert records[..2] == records;
      }
    }
  }

  lemma SuccessHandsOver(task: Task, tick: nat)
    requires Compact(task, tick).result.Success?
    ensures HandsOver(task.ports, task.request.messages, Compact(task, tick).result)
  {
    var result := Compact(task, tick).result;
    var c := result.value;
    CompactReplays(task, tick);
    if c.preApplied.None? {
      ApplyOne(task.ports, c.record, task.request.messages);
      OneRecordHandedOver(task.ports, task.request, result);
    } else {
      LowerIsOther(task.ports, task.request, c.messages);
      FirstRecordMoves(task, tick);
      TwoRecordsHandedOver(task.ports, task.request.messages, result);
    }
  }

  lemma FirstRecordMoves(task: Task, tick: nat)
    requires Compact(task, tick).result.Success? && Compact(task, tick).result.value.preApplied.Some?
    ensures Moves(task.ports, [Compact(task, tick).result.value.preApplied.value], task.request.messages)
  {
    if MicroPlanOf(task).None? {
      FullReplays(task, tick + 1);
    }
    var plan := MicroPlanOf(task).value;
    var record := BuildMicroRecord(task.ports, task.trigger, task.request, plan).value;
    ProjectionReplays(task.ports, task.trigger, task.request,
                      !Planning.HasCompressibleHistory(task.request.messages, task.policy.minimumRecentUnits));
    OneRecordMoves(task.ports, task.request, record, Projected(task.request, plan).messages);
    FullKind(task, plan, tick);
  }

  lemma FullKind(task: Task, plan: MicroPlan, tick: nat)
    requires MicroPlanOf(task) == Some(plan)
    requires Compact(task, tick).result.Success? && Compact(task, tick).result.value.preApplied.Some?
    ensures BuildMicroRecord(task.ports, task.trigger, task.request, plan)
         == Success(Compact(task, tick).result.value.preApplied.value)
  {
  }

  lemma CompactHandsOver(task: Task, tick: nat)
    requires !Forged(task, tick)
    ensures HandsOver(task.ports, task.request.messages, Compact(task, tick).result)
    ensures Rewrites(Compact(task, tick).result) ==> Clears(task, tick)
  {
    ClearsExactlyUnlessForged(task, tick);
    match Compact(task, tick).result
    case Success(_) => SuccessHandsOver(task, tick);
    case Failure(error) =>
      if error.MicroAppliedThenFullFailed? {
        FailureReplays(task, tick);
        OneRecordHandedOver(task.ports, task.request, Compact(task, tick).result);
      }
  }

  lemma ProjectionHandsOver(ports: Ports, request: Request, trigger: Trigger)
    requires PlanMicro(request.messages, true).Some?
    ensures var result := ProjectOnly(ports, trigger, request, PlanMicro(request.messages, true).value);
      HandsOver(ports, request.messages, result) && (Rewrites(result) ==> result.Success?)
  {
    var plan := PlanMicro(request.messages, true).value;
    var result := ProjectOnly(ports, trigger, request, plan);
    if result.Success? {
      ProjectionReplays(ports, trigger, request, true);
      OneRecordHandedOver(ports, request, result);
    }
  }

  lemma TruncationHandsOver(ports: Ports, policy: Policy, turn: Turn, step: Step)
    requires step.TruncateTo?
    ensures var result := TruncationOf(ports, policy, turn, step);
      HandsOver(ports, turn.live, result) && (Rewrites(result) ==> result.Success?)
  {
    var request := RequestOf(step.frame, turn);
    var result := TruncationOf(ports, policy, turn, step);
    if result.Success? {
      TruncationReplays(ports, policy.minimumRecentUnits, step.trigger, step.target, request);
      var first, end := TruncatedRun(ports, policy.minimumRecentUnits, step.trigger, step.target, request);
      OneRecordHandedOver(ports, request, result);
    }
  }

  /** What every step of a running session keeps. */
  ghost predicate Sound(ports: Ports, base: seq<Message>, session: Session) {
    Recoverable(ports, base, session.turn) && AheadOf(ports, session.turn) && AnchorSafe(session)
  }

  lemma AfterCompactionIsSound(
    ports: Ports, base: seq<Message>, session: Session, clears: bool,
    result: Result<Compaction, ContextError>, delivery: Delivery)
    requires Sound(ports, base, session) && session.turn.ending.Running?
    requires HandsOver(ports, session.turn.live, result) && (Rewrites(result) ==> clears)
    ensures Sound(ports, base, AfterCompaction(session, clears, result, delivery))
  {
    AdoptResultKeeps(ports, base, session.turn, result, delivery);
  }

  lemma StepKeeps(ports: Ports, policy: Policy, base: seq<Message>, session: Session, step: Step)
    requires Sound(ports, base, session) && session.turn.ending.Running?
    requires Unforged(ports, policy, session.turn, step)
    ensures Sound(ports, base, Advance(ports, policy, session, step))
  {
    match step
    case Append(messages) =>
      RecoverConcat(ports, session.turn.adopted, [Added(messages)], base);
      assert [Added(messages)][1..] == [];
    case Note(_, _) =>
    case NoteCorrection(_, _) =>
    case Clear =>
    case CompactWith(_, _, _, _, _, tick, delivery) =>
      var task := TaskOf(ports, policy, session.turn, step);
      CompactHandsOver(task, tick);
      AfterCompactionIsSound(ports, base, session, Clears(task, tick), Compact(task, tick).result, delivery);
    case ProjectRecent(frame, trigger) =>
      var request := RequestOf(frame, session.turn);
      if PlanMicro(request.messages, true).Some? {
        ProjectionHandsOver(ports, request, trigger);
        var result := ProjectOnly(ports, trigger, request, PlanMicro(request.messages, true).value);
        AfterCompactionIsSound(ports, base, session, result.Success?, result, DELIVERED);
      }
    case TruncateTo(_, _, _, _, _) =>
      TruncationHandsOver(ports, policy, session.turn, step);
      var result := TruncationOf(ports, policy, session.turn, step);
      AfterCompactionIsSound(ports, base, session, result.Success?, result, DELIVERED);
  }

  lemma {:induction false} RunKeeps(
    ports: Ports, policy: Policy, base: seq<Message>, session: Session, steps: seq<Step>)
    requires Sound(ports, base, session) && RunUnforged(ports, policy, session, steps)
    ensures Sound(ports, base, Run(ports, policy, session, steps))
    decreases |steps|
  {
    if steps != [] && session.turn.ending.Running? {
      StepKeeps(ports, policy, base, session, steps[0]);
      RunKeeps(ports, policy, base, Advance(ports, policy, session, steps[0]), steps[1..]);
    }
  }

  /**
    A compaction leaves the journal ahead: of two records the second is refused, or a failure hands
    over a projection whose record is stored and is a cancellation or cannot be reported.
   */
  ghost predicate StepAhead(ports: Ports, policy: Policy, turn: Turn, step: Step) {
    step.CompactWith? && step.delivery.stored >= 1
    && match Compact(TaskOf(ports, policy, turn, step), step.tick).result
       case Success(c) => c.preApplied.Some? && step.delivery.stored == 1
       case Failure(error) =>
         error.MicroAppliedThenFullFailed? && (IsCancelled(error) || !step.delivery.reported)
  }

  /** Some step that the run performs leaves the journal ahead. */
  ghost predicate RunAhead(ports: Ports, policy: Policy, session: Session, steps: seq<Step>)
    decreases |steps|
  {
    steps != [] && session.turn.ending.Running?
    && (StepAhead(ports, policy, session.turn, steps[0])
        || RunAhead(ports, policy, Advance(ports, policy, session, steps[0]), steps[1..]))
  }

  lemma CompactionEndsAhead(turn: Turn, result: Result<Compaction, ContextError>, delivery: Delivery)
    requires turn.ending.Running?
    ensures Unadopted(AdoptResult(turn, result, delivery)) != [] <==>
      delivery.stored >= 1
      && match result
         case Success(c) => c.preApplied.Some? && delivery.stored == 1
         case Failure(error) => error.MicroAppliedThenFullFailed? && (IsCancelled(error) || !delivery.reported)
  {
    if result.Success? && result.value.preApplied.Some? {
      assert |Emitted(result.value)| == 2;
    }
  }

  lemma TruncationIsOneRecord(ports: Ports, policy: Policy, turn: Turn, step: Step)
    requires step.TruncateTo?
    ensures match TruncationOf(ports, policy, turn, step)
      case Success(c) => c.preApplied == None
      case Failure(error) => !error.MicroAppliedThenFullFailed?
  {
    var request := RequestOf(step.frame, turn);
    if TruncationOf(ports, policy, turn, step).Success? {
      var first, end := TruncatedRun(ports, policy.minimumRecentUnits, step.trigger, step.target, request);
    }
  }

  lemma StepEndsAhead(ports: Ports, policy: Policy, session: Session, step: Step)
    requires session.turn.ending.Running?
    ensures Unadopted(Advance(ports, policy, session, step).turn) != [] <==>
      StepAhead(ports, policy, session.turn, step)
  {
    match step
    case Append(_) =>
    case Note(_, _) =>
    case NoteCorrection(_, _) =>
    case Clear =>
    case CompactWith(_, _, _, _, _, tick, delivery) =>
      CompactionEndsAhead(session.turn, Compact(TaskOf(ports, policy, session.turn, step), tick).result, delivery);
    case ProjectRecent(frame, trigger) =>
      var request := RequestOf(frame, session.turn);
      if PlanMicro(request.messages, true).Some? {
        CompactionEndsAhead(
          session.turn, ProjectOnly(ports, trigger, request, PlanMicro(request.messages, true).value), DELIVERED);
      }
    case TruncateTo(_, _, _, _, _) =>
      TruncationIsOneRecord(ports, policy, session.turn, step);
      CompactionEndsAhead(session.turn, TruncationOf(ports, policy, session.turn, step), DELIVERED);
  }

  /** A run ends with records that were not adopted exactly if one of its steps leaves the journal ahead. */
  lemma {:induction false} RunEndsAhead(ports: Ports, policy: Policy, session: Session, steps: seq<Step>)
    requires Unadopted(session.turn) == []
    ensures Unadopted(Run(ports, policy, session, steps).turn) != [] <==> RunAhead(ports, policy, session, steps)
    decreases |steps|
  {
    if steps != [] && session.turn.ending.Running? {
      var next := Advance(ports, policy, session, steps[0]);
      StepEndsAhead(ports, policy, session, steps[0]);
      if Unadopted(next.turn) == [] {
        RunEndsAhead(ports, policy, next, steps[1..]);
      }
    }
  }

  /**
    After any run of appends, notes and compactions of every kind, replaying the journal on the
    original transcript succeeds. It gives the live transcript if and only if no step leaves the
    journal ahead; otherwise it gives what the records that were not adopted make of it.
   */
  lemma RecoveryIsLiveExactlyWhen(ports: Ports, policy: Policy, base: seq<Message>, steps: seq<Step>)
    requires RunUnforged(ports, policy, Opened(base), steps)
    ensures var turn := Run(ports, policy, Opened(base), steps).turn;
      var recovered := Recover(ports, Journal(turn), base);
      recovered.Success? && recovered == ApplyAll(ports, Unadopted(turn), turn.live)
      && (recovered.value == turn.live <==> !RunAhead(ports, policy, Opened(base), steps))
  {
    RunKeeps(ports, policy, base, Opened(base), steps);
    RunEndsAhead(ports, policy, Opened(base), steps);
    JournalRecovers(ports, base, Run(ports, policy, Opened(base), steps).turn);
  }

  /** What the journal of a sound Turn recovers. */
  lemma JournalRecovers(ports: Ports, base: seq<Message>, turn: Turn)
    requires Recoverable(ports, base, turn) && AheadOf(ports, turn)
    ensures var recovered := Recover(ports, Journal(turn), base);
      recovered.Success? && recovered == ApplyAll(ports, Unadopted(turn), turn.live)
      && (recovered.value == turn.live <==> Unadopted(turn) == [])
  {
    if Unadopted(turn) != [] {
      AdoptedIsRecoverable(ports, base, turn, Unadopted(turn),
                           ApplyAll(ports, Unadopted(turn), turn.live).value);
    } else {
      assert turn.adopted + [] == turn.adopted;
    }
  }

  /** The anchor a positive input size leaves; any other usage leaves the old one. */
  function Noted(session: Session, messages: seq<Message>, usage: Usage.TokenUsage): Option<Anchor> {
    match usage.inputTokens
    case Some(n) => if n == 0 then session.anchor else Some(Anchor(n, |messages|))
    case None => session.anchor
  }

  /**
    What one step makes of the anchor: appending keeps it, a note replaces it, a correction or a clearing
    drops it, and a compaction of any kind drops or keeps it and never keeps it for a transcript that it
    rewrote, unless it is forged.
   */
  lemma AnchorAfterStep(ports: Ports, policy: Policy, session: Session, step: Step)
    requires Unforged(ports, policy, session.turn, step)
    ensures var next := Advance(ports, policy, session, step);
      match step
      case Append(_) => next.anchor == session.anchor
      case Note(_, usage) => next.anchor == Noted(session, session.turn.live, usage)
      case NoteCorrection(_, _) => next.anchor == None
      case Clear => next.anchor == None
      case _ =>
        (next.anchor == None || next.anchor == session.anchor)
        && (next.turn.live != session.turn.live ==> next.anchor == None)
  {
    if step.CompactWith? {
      ClearsExactlyUnlessForged(TaskOf(ports, policy, session.turn, step), step.tick);
    }
  }

  /**
    After any run, an anchor that is present describes a prefix of the live transcript, and the
    anchored estimate is the noted input plus the estimate of what was added since.
   */
  lemma AnchorIsSound(ports: Ports, policy: Policy, base: seq<Message>, steps: seq<Step>, frame: Request)
    requires RunUnforged(ports, policy, Opened(base), steps)
    ensures var session := Run(ports, policy, Opened(base), steps);
      session.anchor.Some? ==>
        session.noted <= session.turn.live
        && AnchoredEstimate(session.anchor, RequestOf(frame, session.turn), ports.estimators)
        == SatAdd(session.anchor.value.inputTokens, ports.estimators.messages(session.turn.live[|session.noted|..]))
  {
    RunKeeps(ports, policy, base, Opened(base), steps);
  }

  // ----- instructions over whole runs -----

  /** The messages a journal adds, in order. */
  function AllAdded(journal: seq<Event>): seq<Message> {
    if journal == [] then [] else (if journal[0].Added? then journal[0].messages else []) + AllAdded(journal[1..])
  }

  /** Whatever was compacted, the instructions are those ever written, in the order written. */
  lemma {:induction false} RecoveredInstructions(ports: Ports, journal: seq<Event>, messages: seq<Message>)
    requires Recover(ports, journal, messages).Success?
    ensures Instructions(Recover(ports, journal, messages).value) == Instructions(messages + AllAdded(journal))
    decreases |journal|
  {
    if journal == [] {
      assert messages + [] == messages;
    } else {
      var rest := AllAdded(journal[1..]);
      match journal[0]
      case Added(added) =>
        RecoveredInstructions(ports, journal[1..], messages + added);
        ConsConcat(messages, added, rest);
      case Applied(record) =>
        var next := Apply(ports, record, messages).value;
        RecoveredInstructions(ports, journal[1..], next);
        AppliedRecordKeeps(ports, record, messages);
        ProtectedDetermineInstructions(messages, next);
        FilterConcat(messages, rest, IsInstruction);
        FilterConcat(next, rest, IsInstruction);
        assert [] + rest == rest;
    }
  }

  /** The messages the steps of a run append, in order. */
  function AppendedBy(steps: seq<Step>): seq<Message> {
    if steps == [] then [] else AppendedByStep(steps[0]) + AppendedBy(steps[1..])
  }

  lemma {:induction false} AddedConcat(a: seq<Event>, b: seq<Event>)
    ensures AllAdded(a + b) == AllAdded(a) + AllAdded(b)
  {
    if a == [] {
      assert a + b == b;
    } else {
      assert (a + b)[1..] == a[1..] + b;
      AddedConcat(a[1..], b);
      ConsConcat(if a[0].Added? then a[0].messages else [], AllAdded(a[1..]), AllAdded(b));
    }
  }

  lemma {:induction false} RecordsAddNothing(records: seq<Record>)
    ensures AllAdded(Journaled(records)) == []
  {
    if records != [] {
      assert Journaled(records)[1..] == Journaled(records[1..]);
      RecordsAddNothing(records[1..]);
    }
  }

  lemma AdoptAdds(turn: Turn, result: Result<Compaction, ContextError>, delivery: Delivery)
    ensures AllAdded(AdoptResult(turn, result, delivery).adopted) == AllAdded(turn.adopted)
  {
    match HandedOver(result)
    case None =>
    case Some(handover) =>
      AddedConcat(turn.adopted, Journaled(handover.records));
      RecordsAddNothing(handover.records);
      assert AllAdded(turn.adopted) + [] == AllAdded(turn.adopted);
  }

  function AppendedByStep(step: Step): seq<Message> {
    if step.Append? then step.messages else []
  }

  lemma StepAdds(ports: Ports, policy: Policy, session: Session, step: Step)
    ensures AllAdded(Advance(ports, policy, session, step).turn.adopted)
         == AllAdded(session.turn.adopted) + AppendedByStep(step)
  {
    var added := AllAdded(session.turn.adopted);
    assert added + [] == added;
    match step
    case Append(messages) =>
      AddedConcat(session.turn.adopted, [Added(messages)]);
      assert [Added(messages)][1..] == [] && messages + [] == messages;
    case Note(_, _) =>
    case NoteCorrection(_, _) =>
    case Clear =>
    case CompactWith(_, _, _, _, _, tick, delivery) =>
      AdoptAdds(session.turn, Compact(TaskOf(ports, policy, session.turn, step), tick).result, delivery);
    case ProjectRecent(frame, trigger) =>
      var request := RequestOf(frame, session.turn);
      var plan := PlanMicro(request.messages, true);
      if plan.Some? {
        AdoptAdds(session.turn, ProjectOnly(ports, trigger, request, plan.value), DELIVERED);
      }
    case TruncateTo(_, _, _, _, _) =>
      AdoptAdds(session.turn, TruncationOf(ports, policy, session.turn, step), DELIVERED);
  }

  /** The adopted events add what the steps performed have appended: all steps, unless the run ended. */
  lemma {:induction false} RunAdds(ports: Ports, policy: Policy, session: Session, steps: seq<Step>) returns (n: nat)
    ensures n <= |steps| && (Run(ports, policy, session, steps).turn.ending.Running? ==> n == |steps|)
    ensures AllAdded(Run(ports, policy, session, steps).turn.adopted)
         == AllAdded(session.turn.adopted) + AppendedBy(steps[..n])
    decreases |steps|
  {
    if steps == [] || session.turn.ending.Ended? {
      n := 0;
      assert AllAdded(session.turn.adopted) + [] == AllAdded(session.turn.adopted);
    } else {
      StepAdds(ports, policy, session, steps[0]);
      var rest := RunAdds(ports, policy, Advance(ports, policy, session, steps[0]), steps[1..]);
      n := rest + 1;
      assert steps[..n][1..] == steps[1..][..rest];
      ConsConcat(AllAdded(session.turn.adopted), AppendedByStep(steps[0]), AppendedBy(steps[1..][..rest]));
    }
  }

  /**
    No run loses, changes, duplicates or reorders a System or Developer message: live, and recovered,
    are those of the original transcript and of what the performed steps appended.
   */
  lemma RunKeepsInstructions(ports: Ports, policy: Policy, base: seq<Message>, steps: seq<Step>) returns (n: nat)
    requires RunUnforged(ports, policy, Opened(base), steps)
    ensures var turn := Run(ports, policy, Opened(base), steps).turn;
      n <= |steps| && (turn.ending.Running? ==> n == |steps|)
      && Instructions(turn.live) == Instructions(base + AppendedBy(steps[..n]))
      && Recover(ports, Journal(turn), base).Success?
      && Instructions(Recover(ports, Journal(turn), base).value) == Instructions(turn.live)
  {
    RunKeeps(ports, policy, base, Opened(base), steps);
    JournalRecovers(ports, base, Run(ports, policy, Opened(base), steps).turn);
    n := RunAdds(ports, policy, Opened(base), steps);
    assert AllAdded([]) + AppendedBy(steps[..n]) == AppendedBy(steps[..n]);
    var turn := Run(ports, policy, Opened(base), steps).turn;
    RecoveredInstructions(ports, turn.adopted, base);
    RunOfRecordsKeeps(ports, Unadopted(turn), turn.live);
  }

  // ----- which compactions can leave the journal ahead -----

  /** The compaction projects first and has to summarize what is left. */
  ghost predicate ProjectsFirst(task: Task, tick: nat) {
    !task.world.cancelled(tick) && MicroPlanOf(task).Some? && !SavesEnough(task, MicroPlanOf(task).value)
    && BuildMicroRecord(task.ports, task.trigger, task.request, MicroPlanOf(task).value).Success?
  }

  /** A success with a second record, or a failure with a projection: what can leave the journal ahead. */
  ghost predicate ProjectedAndMore(result: Result<Compaction, ContextError>) {
    match result
    case Success(c) => c.preApplied.Some?
    case Failure(error) => error.MicroAppliedThenFullFailed?
  }

  lemma FullIsOneRecord(task: Task, tick: nat)
    requires CompactFull(task, tick).result.Success?
    ensures CompactFull(task, tick).result.value.preApplied == None
  {
    FullReplays(task, tick);
  }

  /** Unless it is forged, exactly a compaction that projects first can leave the journal ahead. */
  lemma ProjectedAndMoreExactlyWhen(task: Task, tick: nat)
    requires !Forged(task, tick)
    ensures ProjectedAndMore(Compact(task, tick).result) <==> ProjectsFirst(task, tick)
  {
    FullForgedExactlyWhen(task, tick + 1);
    if CompactFull(task, tick + 1).result.Success? {
      FullIsOneRecord(task, tick + 1);
    }
  }

  /** Cancelling right after the projection hands over the projection in a cancelled failure. */
  lemma CancelledAfterProjection(task: Task, tick: nat)
    requires ProjectsFirst(task, tick) && task.world.cancelled(tick + 1)
    ensures var plan := MicroPlanOf(task).value;
      Compact(task, tick).result
      == Failure(MicroAppliedThenFullFailed(
           BuildMicroRecord(task.ports, task.trigger, task.request, plan).value,
           Projected(task.request, plan).messages, Cancelled))
  {
  }

  /** A cancelled failure's record is journaled but not adopted. */
  lemma CancelledIsNotAdopted(
    ports: Ports, base: seq<Message>, turn: Turn, error: ContextError, delivery: Delivery)
    requires Recoverable(ports, base, turn) && turn.ending.Running? && delivery.stored >= 1
    requires error.MicroAppliedThenFullFailed? && IsCancelled(error)
    requires ApplyAll(ports, [error.record], turn.live) == Success(error.messages)
    ensures var next := AdoptResult(turn, Failure(error), delivery);
      next.live == turn.live && Recover(ports, Journal(next), base) == Success(error.messages)
  {
    AdoptedIsRecoverable(ports, base, turn, [error.record], error.messages);
  }

  /** The record of a projection that is summarized next leads to another transcript. */
  lemma ProjectionMoves(task: Task, tick: nat)
    requires ProjectsFirst(task, tick)
    ensures var plan := MicroPlanOf(task).value;
      var projected := Projected(task.request, plan).messages;
      projected != task.request.messages
      && ApplyAll(task.ports, [BuildMicroRecord(task.ports, task.trigger, task.request, plan).value],
                  task.request.messages) == Success(projected)
  {
    var plan := MicroPlanOf(task).value;
    var record := BuildMicroRecord(task.ports, task.trigger, task.request, plan).value;
    ProjectionReplays(task.ports, task.trigger, task.request,
                      !Planning.HasCompressibleHistory(task.request.messages, task.policy.minimumRecentUnits));
    OneRecordMoves(task.ports, task.request, record, Projected(task.request, plan).messages);
  }

  lemma CancelledTaskRecovers(task: Task, tick: nat, base: seq<Message>, turn: Turn, delivery: Delivery)
    requires Recoverable(task.ports, base, turn) && turn.ending.Running? && turn.live == task.request.messages
    requires ProjectsFirst(task, tick) && task.world.cancelled(tick + 1) && delivery.stored >= 1
    ensures var next := AdoptResult(turn, Compact(task, tick).result, delivery);
      var projected := Projected(task.request, MicroPlanOf(task).value).messages;
      next.live == turn.live != projected && Recover(task.ports, Journal(next), base) == Success(projected)
  {
    CancelledAfterProjection(task, tick);
    ProjectionMoves(task, tick);
    CancelledIsNotAdopted(task.ports, base, turn, Compact(task, tick).result.error, delivery);
  }

  /**
    A session whose compaction is cancelled right after its projection: its record is journaled, live
    stays as it was, and recovery gives the projected transcript, which is another one.
   */
  lemma CancelledRunRecovers(
    ports: Ports, policy: Policy, base: seq<Message>, session: Session, step: Step, task: Task)
    requires Recoverable(ports, base, session.turn) && session.turn.ending.Running?
    requires step.CompactWith? && step.delivery.stored >= 1 && task == TaskOf(ports, policy, session.turn, step)
    requires ProjectsFirst(task, step.tick) && task.world.cancelled(step.tick + 1)
    ensures var next := Advance(ports, policy, session, step).turn;
      var projected := Projected(task.request, MicroPlanOf(task).value).messages;
      next.live == session.turn.live != projected && Recover(ports, Journal(next), base) == Success(projected)
  {
    CancelledTaskRecovers(task, step.tick, base, session.turn, step.delivery);
  }

  // ----- exchanges over runs of compactions -----

  ghost predicate OnlyRecords(journal: seq<Event>) {
    forall event | event in journal :: event.Applied?
  }

  function RecordsOf(journal: seq<Event>): seq<Record> {
    if journal == [] then [] else (if journal[0].Applied? then [journal[0].record] else []) + RecordsOf(journal[1..])
  }

  lemma {:induction false} RecoverIsApplyAll(ports: Ports, journal: seq<Event>, messages: seq<Message>)
    requires OnlyRecords(journal)
    ensures Recover(ports, journal, messages) == ApplyAll(ports, RecordsOf(journal), messages)
    decreases |journal|
  {
    if journal != [] {
      assert journal[0] in journal;
      var records := RecordsOf(journal[1..]);
      assert ([journal[0].record] + records)[1..] == records;
      match Apply(ports, journal[0].record, messages)
      case Failure(_) =>
      case Success(next) => RecoverIsApplyAll(ports, journal[1..], next);
    }
  }

  lemma AdoptsOnlyRecords(turn: Turn, result: Result<Compaction, ContextError>, delivery: Delivery)
    requires OnlyRecords(turn.adopted)
    ensures OnlyRecords(AdoptResult(turn, result, delivery).adopted)
  {
  }

  lemma StepKeepsOnlyRecords(ports: Ports, policy: Policy, session: Session, step: Step)
    requires OnlyRecords(session.turn.adopted) && !step.Append?
    ensures OnlyRecords(Advance(ports, policy, session, step).turn.adopted)
  {
    match step
    case Note(_, _) =>
    case NoteCorrection(_, _) =>
    case Clear =>
    case CompactWith(_, _, _, _, _, tick, delivery) =>
      AdoptsOnlyRecords(session.turn, Compact(TaskOf(ports, policy, session.turn, step), tick).result, delivery);
    case ProjectRecent(frame, trigger) =>
      var request := RequestOf(frame, session.turn);
      if PlanMicro(request.messages, true).Some? {
        AdoptsOnlyRecords(
          session.turn, ProjectOnly(ports, trigger, request, PlanMicro(request.messages, true).value), DELIVERED);
      }
    case TruncateTo(_, _, _, _, _) =>
      AdoptsOnlyRecords(session.turn, TruncationOf(ports, policy, session.turn, step), DELIVERED);
  }

  lemma {:induction false} RunKeepsOnlyRecords(ports: Ports, policy: Policy, session: Session, steps: seq<Step>)
    requires OnlyRecords(session.turn.adopted) && forall step | step in steps :: !step.Append?
    ensures OnlyRecords(Run(ports, policy, session, steps).turn.adopted)
    decreases |steps|
  {
    if steps != [] && session.turn.ending.Running? {
      StepKeepsOnlyRecords(ports, policy, session, steps[0]);
      RunKeepsOnlyRecords(ports, policy, Advance(ports, policy, session, steps[0]), steps[1..]);
    }
  }

  /**
    Between two appends, however the transcript is compacted, every protected unit stays and no tool
    exchange is split: those that remain are exchanges of the original transcript, in its order.
   */
  lemma CompactionsKeepExchanges(ports: Ports, policy: Policy, base: seq<Message>, steps: seq<Step>)
    requires RunUnforged(ports, policy, Opened(base), steps) && forall step | step in steps :: !step.Append?
    ensures var live := Run(ports, policy, Opened(base), steps).turn.live;
      ProtectedUnits(live, Shape) == ProtectedUnits(base, Shape)
      && Subsequence(Exchanges(live, Shape), Exchanges(base, Shape))
  {
    RunKeeps(ports, policy, base, Opened(base), steps);
    RunKeepsOnlyRecords(ports, policy, Opened(base), steps);
    var adopted := Run(ports, policy, Opened(base), steps).turn.adopted;
    RecoverIsApplyAll(ports, adopted, base);
    RunOfRecordsKeeps(ports, RecordsOf(adopted), base);
  }
}
