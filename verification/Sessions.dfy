/** A session: the steps of a run, what is persisted and adopted, and the manager that performs them. */
module Sessions {
  import opened Wrappers
  import opened Words
  import opened Transcript
  import Rewriting
  import opened Micro
  import opened Usage
  import opened Errors
  import opened Budget
  import opened Summarizer
  import opened Replay
  import opened Mechanical
  import opened Compacting
  import opened Manager

  /** What is persisted: messages added to the transcript and records applied to it. */
  datatype Event = Added(messages: seq<Message>) | Applied(record: Record)

  /** Whether a run goes on, or ended with records persisted that the live transcript never adopted. */
  datatype Ending = Running | Ended(unadopted: seq<Record>)

  /** The live transcript, the events it is made of, and whether the run ended. */
  datatype Turn = Turn(live: seq<Message>, adopted: seq<Event>, ending: Ending)

  /** A Turn, the anchor, and the messages the anchor was noted for. */
  datatype Session = Session(turn: Turn, anchor: Option<Anchor>, noted: seq<Message>)

  /**
    What becomes of what a compaction hands over: how many of its records the journal accepts before it
    fails, and whether the event that reports a failure is delivered.
   */
  datatype Delivery = Delivery(stored: nat, reported: bool)

  /** One record, persisted and reported. */
  const DELIVERED := Delivery(1, true)

  /** `frame` is the request of a step, except for its messages. */
  datatype Step =
    | Append(messages: seq<Message>)
    | Note(frame: Request, usage: TokenUsage)
    | NoteCorrection(request: Request, usage: TokenUsage)
    | Clear
    | CompactWith(
        frame: Request, world: World, trigger: Trigger, target: uint64, capabilities: Option<Capabilities>, tick: nat,
        delivery: Delivery)
    | ProjectRecent(frame: Request, trigger: Trigger)
    | TruncateTo(frame: Request, world: World, trigger: Trigger, target: uint64, tick: nat)

  function RequestOf(frame: Request, turn: Turn): Request {
    frame.(messages := turn.live)
  }

  function TaskOf(ports: Ports, policy: Policy, turn: Turn, step: Step): Task
    requires step.CompactWith?
  {
    Task(ports, policy, step.world, RequestOf(step.frame, turn), step.trigger, step.target, step.capabilities)
  }

  function Journaled(records: seq<Record>): seq<Event> {
    Rewriting.Map(records, (record: Record) => Applied(record))
  }

  /** What a compaction hands over: records, the messages they lead to, and the error if it failed. */
  datatype Handover = Handover(records: seq<Record>, messages: seq<Message>, failure: Option<ContextError>)

  function HandedOver(result: Result<Compaction, ContextError>): Option<Handover> {
    match result
    case Success(c) => Some(Handover(Emitted(c), c.messages, None))
    case Failure(error) =>
      if error.MicroAppliedThenFullFailed? then Some(Handover([error.record], error.messages, Some(error))) else None
  }

  /**
    The records are persisted one by one, a failure is reported, then the messages are adopted. The
    run ends, and what was persisted is not adopted, when the journal fails in between, and after a
    failure that was a cancellation or whose report could not be delivered.
   */
  function Adopt(turn: Turn, handover: Handover, delivery: Delivery): Turn {
    var records, failure := handover.records, handover.failure;
    if delivery.stored < |records| then turn.(ending := Ended(records[..delivery.stored]))
    else if failure.Some? && (IsCancelled(failure.value) || !delivery.reported) then turn.(ending := Ended(records))
    else turn.(live := handover.messages, adopted := turn.adopted + Journaled(records))
  }

  function AdoptResult(turn: Turn, result: Result<Compaction, ContextError>, delivery: Delivery): Turn {
    match HandedOver(result)
    case Some(handover) => Adopt(turn, handover, delivery)
    case None => turn
  }

  function Unadopted(turn: Turn): seq<Record> {
    match turn.ending case Running => [] case Ended(records) => records
  }

  /** Everything that was persisted. */
  function Journal(turn: Turn): seq<Event> {
    turn.adopted + Journaled(Unadopted(turn))
  }

  function AfterNote(session: Session, messages: seq<Message>, usage: TokenUsage): Session {
    if usage.inputTokens.Some? && usage.inputTokens.value > 0
    then session.(anchor := Some(Anchor(usage.inputTokens.value, |messages|)), noted := messages)
    else session
  }

  function AfterCompaction(
    session: Session, clears: bool, result: Result<Compaction, ContextError>, delivery: Delivery): Session
  {
    session.(turn := AdoptResult(session.turn, result, delivery), anchor := if clears then None else session.anchor)
  }

  function AfterProjection(ports: Ports, session: Session, request: Request, trigger: Trigger): Session {
    match PlanMicro(request.messages, true)
    case None => session
    case Some(plan) =>
      var result := ProjectOnly(ports, trigger, request, plan);
      AfterCompaction(session, result.Success?, result, DELIVERED)
  }

  function TruncationOf(ports: Ports, policy: Policy, turn: Turn, step: Step): Result<Compaction, ContextError>
    requires step.TruncateTo?
  {
    if step.world.cancelled(step.tick) then Failure(Cancelled)
    else Truncate(ports, policy.minimumRecentUnits, step.trigger, step.target, RequestOf(step.frame, turn))
  }

  function AfterAppend(turn: Turn, messages: seq<Message>): Turn {
    turn.(live := turn.live + messages, adopted := turn.adopted + [Added(messages)])
  }

  function Advance(ports: Ports, policy: Policy, session: Session, step: Step): Session {
    match step
    case Append(messages) => session.(turn := AfterAppend(session.turn, messages))
    case Note(_, usage) => AfterNote(session, session.turn.live, usage)
    case NoteCorrection(request, usage) => AfterNote(session, request.messages, usage).(anchor := None)
    case Clear => session.(anchor := None)
    case CompactWith(_, _, _, _, _, tick, delivery) =>
      var task := TaskOf(ports, policy, session.turn, step);
      AfterCompaction(session, Clears(task, tick), Compact(task, tick).result, delivery)
    case ProjectRecent(frame, trigger) => AfterProjection(ports, session, RequestOf(frame, session.turn), trigger)
    case TruncateTo(_, _, _, _, _) =>
      var result := TruncationOf(ports, policy, session.turn, step);
      AfterCompaction(session, result.Success?, result, DELIVERED)
  }

  /** A run performs its steps until they are over or it ended. */
  function Run(ports: Ports, policy: Policy, session: Session, steps: seq<Step>): Session
    decreases |steps|
  {
    if steps == [] || session.turn.ending.Ended? then session
    else Run(ports, policy, Advance(ports, policy, session, steps[0]), steps[1..])
  }

  function Opened(base: seq<Message>): Session {
    Session(Turn(base, [], Running), None, [])
  }

  /** Rebuilding a transcript from a journal. */
  function Recover(ports: Ports, journal: seq<Event>, messages: seq<Message>): Result<seq<Message>, ContextError>
    decreases |journal|
  {
    if journal == [] then Success(messages)
    else match journal[0]
      case Added(added) => Recover(ports, journal[1..], messages + added)
      case Applied(record) =>
        match Apply(ports, record, messages)
        case Failure(error) => Failure(error)
        case Success(next) => Recover(ports, journal[1..], next)
  }

  // ----- the manager performs the steps -----

  ghost predicate Performable(policy: Policy, step: Step) {
    step.CompactWith? ==> Searchable(policy, step.capabilities)
  }

  /** One step of a session, carried out by a context manager that holds its anchor. */
  method Perform(manager: ContextManager, turn: Turn, step: Step) returns (next: Turn)
    requires manager.Valid() && Performable(manager.policy, step)
    modifies manager
    ensures manager.Valid()
    ensures Session(next, manager.anchor, manager.noted)
         == Advance(manager.ports, manager.policy, Session(turn, old(manager.anchor), old(manager.noted)), step)
  {
    next := turn;
    match step {
      case Append(messages) =>
        next := AfterAppend(turn, messages);
      case Note(frame, usage) =>
        manager.NoteModelRoundUsage(RequestOf(frame, turn), usage);
      case NoteCorrection(request, usage) =>
        manager.NoteModelRoundUsage(request, usage);
        manager.ClearUsageAnchor();
      case Clear =>
        manager.ClearUsageAnchor();
      case CompactWith(frame, world, trigger, target, capabilities, start, delivery) =>
        var result, log, tick :=
          manager.Compact(world, RequestOf(frame, turn), trigger, target, capabilities, start);
        next := AdoptResult(turn, result, delivery);
      case ProjectRecent(frame, trigger) =>
        var plan := ComputeMicroPlan(turn.live, true);
        if plan.Some? {
          var result := manager.ApplyMicroCompaction(RequestOf(frame, turn), trigger, plan.value);
          next := AdoptResult(turn, result, DELIVERED);
        }
      case TruncateTo(frame, world, trigger, target, tick) =>
        var result := manager.MechanicalTruncation(world, RequestOf(frame, turn), trigger, target, tick);
        next := AdoptResult(turn, result, DELIVERED);
    }
  }

  /** A whole run, carried out step by step. */
  method PerformAll(manager: ContextManager, start: Turn, steps: seq<Step>) returns (turn: Turn)
    requires manager.Valid() && forall step | step in steps :: Performable(manager.policy, step)
    modifies manager
    ensures manager.Valid()
    ensures Session(turn, manager.anchor, manager.noted)
         == Run(manager.ports, manager.policy, Session(start, old(manager.anchor), old(manager.noted)), steps)
  {
    turn := start;
    ghost var whole := Run(manager.ports, manager.policy, Session(start, manager.anchor, manager.noted), steps);
    var k := 0;
    while k < |steps| && turn.ending.Running?
      invariant 0 <= k <= |steps| && manager.Valid()
      invariant Run(manager.ports, manager.policy, Session(turn, manager.anchor, manager.noted), steps[k..]) == whole
    {
      assert steps[k] in steps && steps[k..][0] == steps[k] && steps[k..][1..] == steps[k + 1..];
      turn := Perform(manager, turn, steps[k]);
      k := k + 1;
    }
  }
}
