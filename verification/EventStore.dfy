/** The transactional event store: batches appended once, under injected faults. */
module EventStore {
  import opened Wrappers

  datatype EventKind =
    | DispatchAcknowledged
    | InvocationCommitted(output: string)
    | TurnFailed(reason: string)
    | CleanupCompleted
    | Other(payload: string)

  datatype Event = Event(sequence: nat, kind: EventKind)

  datatype Checkpoint = Checkpoint(lastEventSequence: nat, content: string)

  datatype Batch = Batch(expected: nat, events: seq<Event>, checkpoint: Checkpoint)

  datatype Transition = Transition(batchId: string, batch: Batch)

  /** The faults still to be injected. */
  datatype Faults = Faults(
    alreadyCommittedAhead: bool, indeterminateWithoutCommit: nat,
    dispatchAck: bool, collaborationCommit: bool, failureCompensation: bool, cleanupAck: bool,
    commitThenIndeterminate: bool)

  /** What is stored: the watermark, the log, the batches by identifier, the last checkpoint. */
  datatype Data = Data(
    sequence: nat, events: seq<Event>, batches: map<string, Batch>, checkpoint: Option<Checkpoint>)

  datatype Store = Store(data: Data, faults: Faults)

  datatype Reply = Appended | AlreadyCommitted(current: nat) | Conflict(actual: nat) | Absent(current: nat) | Indeterminate

  // ----- one commit -----

  predicate HasKind(events: seq<Event>, wanted: EventKind -> bool) {
    exists event | event in events :: wanted(event.kind)
  }

  predicate HasAcknowledgement(events: seq<Event>) {
    HasKind(events, (kind: EventKind) => kind.DispatchAcknowledged?)
  }

  predicate HasInvocation(events: seq<Event>) {
    HasKind(events, (kind: EventKind) => kind.InvocationCommitted?)
  }

  predicate HasFailure(events: seq<Event>) {
    HasKind(events, (kind: EventKind) => kind.TurnFailed?)
  }

  predicate HasCleanup(events: seq<Event>) {
    HasKind(events, (kind: EventKind) => kind.CleanupCompleted?)
  }

  /** The fault that makes a commit of these events fail, removed; `None` when none applies. */
  function InjectedFault(faults: Faults, events: seq<Event>): Option<Faults> {
    if HasAcknowledgement(events) && faults.dispatchAck then Some(faults.(dispatchAck := false))
    else if HasInvocation(events) && faults.collaborationCommit then Some(faults.(collaborationCommit := false))
    else if HasFailure(events) && faults.failureCompensation then Some(faults.(failureCompensation := false))
    else if HasCleanup(events) && faults.cleanupAck then Some(faults.(cleanupAck := false))
    else None
  }

  /** The watermark after consecutive events, or `None` when a sequence number is out of step. */
  function WatermarkAfter(events: seq<Event>, k: nat, sequence: nat): Option<nat>
    requires k <= |events|
    decreases |events| - k
  {
    if k == |events| then Some(sequence)
    else if events[k].sequence != sequence + 1 then None
    else WatermarkAfter(events, k + 1, sequence + 1)
  }

  function LastSequence(batch: Batch): nat {
    if batch.events == [] then batch.expected else batch.events[|batch.events| - 1].sequence
  }

  function WithBatch(data: Data, transition: Transition, sequence: nat): Data {
    Data(sequence, data.events + transition.batch.events,
         data.batches[transition.batchId := transition.batch], Some(transition.batch.checkpoint))
  }

  datatype Committed = Committed(store: Store, reply: Reply)

  /** The checks on the batch itself, and the atomic append. */
  function AppendBatch(store: Store, transition: Transition): Committed {
    var data, batch := store.data, transition.batch;
    if data.sequence != batch.expected then Committed(store, Conflict(data.sequence))
    else match WatermarkAfter(batch.events, 0, data.sequence)
      case None => Committed(store, Absent(data.sequence))
      case Some(next) =>
        if batch.checkpoint.lastEventSequence != next then Committed(store, Absent(data.sequence))
        else
          Committed(Store(WithBatch(data, transition, next), store.faults.(commitThenIndeterminate := false)),
                    if store.faults.commitThenIndeterminate then Indeterminate else Appended)
  }

  /** `commit_transition`. */
  function Commit(store: Store, transition: Transition): Committed {
    var data, faults, batch := store.data, store.faults, transition.batch;
    if faults.alreadyCommittedAhead then
      Committed(Store(data, faults.(alreadyCommittedAhead := false)), AlreadyCommitted(LastSequence(batch) + 1))
    else if transition.batchId in data.batches then
      Committed(store, if data.batches[transition.batchId] == batch
                       then AlreadyCommitted(data.sequence) else Conflict(data.sequence))
    else if faults.indeterminateWithoutCommit > 0 then
      Committed(Store(data, faults.(indeterminateWithoutCommit := faults.indeterminateWithoutCommit - 1)), Indeterminate)
    else match InjectedFault(faults, batch.events)
      case Some(rest) => Committed(Store(data, rest), Absent(data.sequence))
      case None => AppendBatch(store, transition)
  }

  // ----- the store as an object -----

  class RecordingStore {
    var sequence: nat
    var events: seq<Event>
    var batches: map<string, Batch>
    var checkpoint: Option<Checkpoint>
    var faults: Faults

    function Contents(): Store
      reads this
    {
      Store(Data(sequence, events, batches, checkpoint), faults)
    }

    constructor ()
      ensures Contents() == Empty()
    {
      sequence, events, batches, checkpoint := 0, [], map[], None;
      faults := NoFaults();
    }

    /** `commit_transition`. */
    method CommitTransition(transition: Transition) returns (reply: Reply)
      modifies this
      ensures Committed(Contents(), reply) == Commit(old(Contents()), transition)
    {
      var batch := transition.batch;
      if faults.alreadyCommittedAhead {
        faults := faults.(alreadyCommittedAhead := false);
        return AlreadyCommitted(LastSequence(batch) + 1);
      }
      if transition.batchId in batches {
        var recorded := batches[transition.batchId];
        if recorded.expected == batch.expected && recorded.events == batch.events
           && recorded.checkpoint == batch.checkpoint {
          return AlreadyCommitted(sequence);
        }
        return Conflict(sequence);
      }
      if faults.indeterminateWithoutCommit > 0 {
        faults := faults.(indeterminateWithoutCommit := faults.indeterminateWithoutCommit - 1);
        return Indeterminate;
      }
      var rest := InjectedFault(faults, batch.events);
      if rest.Some? {
        faults := rest.value;
        return Absent(sequence);
      }
      reply := Append(transition);
    }

    method Append(transition: Transition) returns (reply: Reply)
      modifies this
      ensures Committed(Contents(), reply) == AppendBatch(old(Contents()), transition)
    {
      var batch := transition.batch;
      if sequence != batch.expected {
        return Conflict(sequence);
      }
      var next := CheckSequence(batch.events, sequence);
      if next.None? || batch.checkpoint.lastEventSequence != next.value {
        return Absent(sequence);
      }
      sequence := next.value;
      events := events + batch.events;
      batches := batches[transition.batchId := batch];
      checkpoint := Some(batch.checkpoint);
      if faults.commitThenIndeterminate {
        faults := faults.(commitThenIndeterminate := false);
        return Indeterminate;
      }
      reply := Appended;
    }

    static method CheckSequence(events: seq<Event>, sequence: nat) returns (next: Option<nat>)
      ensures next == WatermarkAfter(events, 0, sequence)
    {
      var current := sequence;
      for k := 0 to |events|
        invariant WatermarkAfter(events, k, current) == WatermarkAfter(events, 0, sequence)
      {
        if events[k].sequence != current + 1 {
          return None;
        }
        current := current + 1;
      }
      next := Some(current);
    }

    /** `advance_sequence`: another coordinator appended an event. */
    method AdvanceSequence()
      modifies this
      ensures Contents() == Advanced(old(Contents()))
    {
      sequence := sequence + 1;
    }

    /** Arms faults for later commits. */
    method Inject(pending: Faults)
      modifies this
      ensures Contents() == old(Contents()).(faults := pending)
    {
      faults := pending;
    }
  }

  function NoFaults(): Faults {
    Faults(false, 0, false, false, false, false, false)
  }

  function Empty(): Store {
    Store(Data(0, [], map[], None), NoFaults())
  }

  function Advanced(store: Store): Store {
    store.(data := store.data.(sequence := store.data.sequence + 1))
  }

  // ----- a consistent log -----

  ghost predicate Increasing(events: seq<Event>) {
    forall i, j | 0 <= i < j < |events| :: events[i].sequence < events[j].sequence
  }

  ghost predicate Below(events: seq<Event>, limit: nat) {
    forall event | event in events :: event.sequence <= limit
  }

  /** The sequence numbers of a batch are consecutive and follow the expected one. */
  ghost predicate Consecutive(batch: Batch) {
    (forall i | 0 <= i < |batch.events| :: batch.events[i].sequence == batch.expected + i + 1)
    && batch.checkpoint.lastEventSequence == batch.expected + |batch.events|
  }

  ghost predicate Distinct(ids: seq<string>) {
    forall i, j | 0 <= i < j < |ids| :: ids[i] != ids[j]
  }

  /** The events of the batches with these identifiers, in this order. */
  function Concatenated(batches: map<string, Batch>, order: seq<string>): seq<Event>
    requires forall id | id in order :: id in batches
  {
    if order == [] then []
    else
      assert order[|order| - 1] in order;
      Concatenated(batches, order[..|order| - 1]) + batches[order[|order| - 1]].events
  }

  /**
    The log is the concatenation of the recorded batches, each exactly once and as one block, in the
    order of their commits; it increases strictly up to at most the watermark, and the checkpoint is
    the one of the last batch.
   */
  ghost predicate Consistent(data: Data, order: seq<string>) {
    Distinct(order) && (forall id :: id in order <==> id in data.batches)
    && data.events == Concatenated(data.batches, order)
    && Increasing(data.events) && Below(data.events, data.sequence)
    && (forall id | id in data.batches :: Consecutive(data.batches[id]))
    && data.checkpoint == if order == [] then None else Some(data.batches[order[|order| - 1]].checkpoint)
  }

  lemma {:induction false} ConcatenatedFrame(
    batches: map<string, Batch>, batches': map<string, Batch>, order: seq<string>)
    requires forall id | id in order :: id in batches && id in batches' && batches'[id] == batches[id]
    ensures Concatenated(batches', order) == Concatenated(batches, order)
  {
    if order != [] {
      assert order[|order| - 1] in order;
      ConcatenatedFrame(batches, batches', order[..|order| - 1]);
    }
  }

  /** Passing the check means that the events are numbered consecutively. */
  lemma {:induction false} WatermarkMeans(events: seq<Event>, k: nat, sequence: nat)
    requires k <= |events|
    ensures WatermarkAfter(events, k, sequence).Some? <==>
      forall i | k <= i < |events| :: events[i].sequence == sequence + (i - k) + 1
    ensures WatermarkAfter(events, k, sequence).Some? ==>
      WatermarkAfter(events, k, sequence).value == sequence + |events| - k
    decreases |events| - k
  {
    if k < |events| && events[k].sequence == sequence + 1 {
      WatermarkMeans(events, k + 1, sequence + 1);
    }
  }

  /** A batch that the store would append: expected now, numbered consecutively, with its checkpoint. */
  ghost predicate Appendable(data: Data, transition: Transition) {
    transition.batchId !in data.batches && transition.batch.expected == data.sequence
    && Consecutive(transition.batch)
  }

  function Extended(data: Data, transition: Transition): Data {
    WithBatch(data, transition, data.sequence + |transition.batch.events|)
  }

  /** What a commit does to the data: nothing at all, or the whole batch at once. */
  lemma CommitIsAtomic(store: Store, transition: Transition)
    ensures var c := Commit(store, transition);
      match c.reply
      case Appended => Appendable(store.data, transition) && c.store.data == Extended(store.data, transition)
      case Indeterminate =>
        c.store.data == store.data
        || (Appendable(store.data, transition) && c.store.data == Extended(store.data, transition)
            && store.faults.commitThenIndeterminate)
      case _ => c.store.data == store.data
  {
    WatermarkMeans(transition.batch.events, 0, store.data.sequence);
  }

  lemma ExtendedIsConsistent(data: Data, transition: Transition, order: seq<string>)
    requires Consistent(data, order) && Appendable(data, transition)
    ensures Consistent(Extended(data, transition), order + [transition.batchId])
  {
    var data', order' := Extended(data, transition), order + [transition.batchId];
    var batch := transition.batch;
    assert order'[..|order|] == order;
    ConcatenatedFrame(data.batches, data'.batches, order);
    forall i, j | 0 <= i < j < |data'.events| ensures data'.events[i].sequence < data'.events[j].sequence {
      if i < |data.events| <= j {
        assert data.events[i] in data.events;
        assert data'.events[j] == batch.events[j - |data.events|];
      }
    }
    forall event | event in data'.events ensures event.sequence <= data'.sequence {
      if event !in data.events {
        assert event in batch.events;
      }
    }
  }

  // ----- runs -----

  datatype Operation = Committing(transition: Transition) | Advancing | Injecting(pending: Faults)

  function Perform(store: Store, operation: Operation): Store {
    match operation
    case Committing(transition) => Commit(store, transition).store
    case Advancing => Advanced(store)
    case Injecting(pending) => store.(faults := pending)
  }

  function Run(store: Store, operations: seq<Operation>): Store
    decreases |operations|
  {
    if operations == [] then store else Run(Perform(store, operations[0]), operations[1..])
  }

  /** A whole run, carried out by a store. */
  method PerformAll(store: RecordingStore, operations: seq<Operation>)
    modifies store
    ensures store.Contents() == Run(old(store.Contents()), operations)
  {
    ghost var whole := Run(store.Contents(), operations);
    for k := 0 to |operations|
      invariant Run(store.Contents(), operations[k..]) == whole
    {
      assert operations[k..][0] == operations[k] && operations[k..][1..] == operations[k + 1..];
      match operations[k] {
        case Committing(transition) =>
          var reply := store.CommitTransition(transition);
        case Advancing =>
          store.AdvanceSequence();
        case Injecting(pending) =>
          store.Inject(pending);
      }
    }
  }

  /** What was recorded stays recorded, unchanged, and the log only grows at its end. */
  ghost predicate Extends(data: Data, data': Data) {
    data.events <= data'.events && data.sequence <= data'.sequence
    && forall id | id in data.batches :: id in data'.batches && data'.batches[id] == data.batches[id]
  }

  lemma OperationKeeps(store: Store, operation: Operation, order: seq<string>) returns (order': seq<string>)
    requires Consistent(store.data, order)
    ensures Consistent(Perform(store, operation).data, order') && order <= order'
    ensures Extends(store.data, Perform(store, operation).data)
  {
    order' := order;
    if operation.Committing? {
      CommitIsAtomic(store, operation.transition);
      if Perform(store, operation).data != store.data {
        ExtendedIsConsistent(store.data, operation.transition, order);
        order' := order + [operation.transition.batchId];
      }
    }
  }

  lemma {:induction false} RunKeeps(
    store: Store, operations: seq<Operation>, order: seq<string>) returns (order': seq<string>)
    requires Consistent(store.data, order)
    ensures Consistent(Run(store, operations).data, order') && order <= order'
    ensures Extends(store.data, Run(store, operations).data)
    decreases |operations|
  {
    if operations == [] {
      order' := order;
    } else {
      var next := OperationKeeps(store, operations[0], order);
      order' := RunKeeps(Perform(store, operations[0]), operations[1..], next);
    }
  }

  /** In every run of a fresh store, with any faults, the log stays consistent. */
  lemma EveryRunIsConsistent(operations: seq<Operation>) returns (order: seq<string>)
    ensures Consistent(Run(Empty(), operations).data, order)
  {
    order := RunKeeps(Empty(), operations, []);
  }

  // ----- retries -----

  /** When a commit is answered as already recorded: by the false answer, or truthfully. */
  lemma AlreadyCommittedExactlyWhen(store: Store, transition: Transition)
    ensures Commit(store, transition).reply.AlreadyCommitted? <==>
      store.faults.alreadyCommittedAhead
      || (transition.batchId in store.data.batches && store.data.batches[transition.batchId] == transition.batch)
  {
    CommitIsAtomic(store, transition);
  }

  /** How many injected faults are still pending. */
  function Pending(faults: Faults): nat {
    faults.indeterminateWithoutCommit
    + (if faults.alreadyCommittedAhead then 1 else 0)
    + (if faults.dispatchAck then 1 else 0)
    + (if faults.collaborationCommit then 1 else 0)
    + (if faults.failureCompensation then 1 else 0)
    + (if faults.cleanupAck then 1 else 0)
  }

  /** The same commit, sent `n` times. */
  function Retried(store: Store, transition: Transition, n: nat): Store
    decreases n
  {
    if n == 0 then store else Retried(Commit(store, transition).store, transition, n - 1)
  }

  /** A recorded batch can be sent again any number of times. */
  lemma {:induction false} RecordedIsStable(store: Store, transition: Transition, n: nat)
    requires transition.batchId in store.data.batches
    ensures Retried(store, transition, n).data == store.data
    decreases n
  {
    if n > 0 {
      RecordedIsStable(Commit(store, transition).store, transition, n - 1);
    }
  }

  /** A commit that is not carried out uses up a fault. */
  lemma RefusalUsesFault(store: Store, transition: Transition)
    requires Appendable(store.data, transition)
    ensures var store' := Commit(store, transition).store;
      store'.data == Extended(store.data, transition)
      || (store'.data == store.data && Pending(store'.faults) < Pending(store.faults))
  {
    WatermarkMeans(transition.batch.events, 0, store.data.sequence);
  }

  /**
    Exactly once: however many faults are pending, sending a commit again more often than that ends
    with the data of a single append, replies lost or not.
   */
  lemma {:induction false} RetryIsOneAppend(store: Store, transition: Transition, n: nat)
    requires Appendable(store.data, transition) && n > Pending(store.faults)
    ensures Retried(store, transition, n).data == Extended(store.data, transition)
    decreases n
  {
    RefusalUsesFault(store, transition);
    var next := Commit(store, transition).store;
    if next.data == store.data && transition.batchId !in next.data.batches {
      RetryIsOneAppend(next, transition, n - 1);
    } else {
      RecordedIsStable(next, transition, n - 1);
    }
  }

  /** And at most once: any number of attempts leaves the old data or those of a single append. */
  lemma {:induction false} RetryIsAtMostOneAppend(store: Store, transition: Transition, n: nat)
    ensures Retried(store, transition, n).data == store.data
         || (Appendable(store.data, transition) && Retried(store, transition, n).data == Extended(store.data, transition))
    decreases n
  {
    if n > 0 {
      CommitIsAtomic(store, transition);
      var next := Commit(store, transition).store;
      if next.data == store.data {
        RetryIsAtMostOneAppend(next, transition, n - 1);
      } else {
        RecordedIsStable(next, transition, n - 1);
      }
    }
  }

  /**
    A lost reply may be resolved much later: whatever happens after the commit, sending it again
    changes no data and, unless the false answer is armed, is answered truthfully.
   */
  lemma LateRetry(store: Store, transition: Transition, between: seq<Operation>)
    requires Commit(store, transition).store.data != store.data
    ensures var later := Run(Commit(store, transition).store, between);
      Commit(later, transition).store.data == later.data
      && (!later.faults.alreadyCommittedAhead ==>
            Commit(later, transition) == Committed(later, AlreadyCommitted(later.data.sequence)))
  {
    CommitIsAtomic(store, transition);
    RecordedStays(Commit(store, transition).store, between, transition.batchId);
  }

  lemma {:induction false} RecordedStays(store: Store, operations: seq<Operation>, id: string)
    requires id in store.data.batches
    ensures var later := Run(store, operations);
      id in later.data.batches && later.data.batches[id] == store.data.batches[id]
    decreases |operations|
  {
    if operations != [] {
      if operations[0].Committing? {
        CommitIsAtomic(store, operations[0].transition);
      }
      RecordedStays(Perform(store, operations[0]), operations[1..], id);
    }
  }

  // ----- where a batch lies in the log -----

  lemma {:induction false} BlockExists(batches: map<string, Batch>, order: seq<string>, id: string) returns (at: nat)
    requires id in order && forall other | other in order :: other in batches
    ensures at + |batches[id].events| <= |Concatenated(batches, order)|
    ensures Concatenated(batches, order)[at..at + |batches[id].events|] == batches[id].events
  {
    var last := order[|order| - 1];
    assert last in order && order == order[..|order| - 1] + [last];
    var head := Concatenated(batches, order[..|order| - 1]);
    if last == id {
      at := |head|;
    } else {
      at := BlockExists(batches, order[..|order| - 1], id);
      assert (head + batches[last].events)[at..at + |batches[id].events|] == head[at..at + |batches[id].events|];
    }
  }

  ghost predicate LiesAt(log: seq<Event>, block: seq<Event>, at: nat) {
    at + |block| <= |log| && log[at..at + |block|] == block
  }

  /** Each recorded batch lies in the log as one block, and a non-empty one at a single place. */
  lemma BlockIsUnique(data: Data, order: seq<string>, id: string) returns (at: nat)
    requires Consistent(data, order) && id in data.batches
    ensures var events := data.batches[id].events;
      LiesAt(data.events, events, at)
      && forall other: nat | LiesAt(data.events, events, other) :: events == [] || other == at
  {
    at := BlockExists(data.batches, order, id);
    var events := data.batches[id].events;
    forall other: nat | LiesAt(data.events, events, other) ensures events == [] || other == at {
      if events != [] {
        assert data.events[other] == data.events[other..other + |events|][0];
        assert data.events[at] == data.events[at..at + |events|][0];
      }
    }
  }

  /**
    In every run of a fresh store, a commit answered as already recorded, unless by the armed false
    answer, has all its events in the log as one block, none above the watermark it is answered with.
   */
  lemma AlreadyCommittedIsTrue(operations: seq<Operation>, transition: Transition) returns (at: nat)
    requires var store := Run(Empty(), operations);
      Commit(store, transition).reply.AlreadyCommitted? && !store.faults.alreadyCommittedAhead
    ensures var store := Run(Empty(), operations);
      LiesAt(store.data.events, transition.batch.events, at)
      && Commit(store, transition) == Committed(store, AlreadyCommitted(store.data.sequence))
      && Below(transition.batch.events, store.data.sequence)
  {
    var store := Run(Empty(), operations);
    var order := EveryRunIsConsistent(operations);
    AlreadyCommittedExactlyWhen(store, transition);
    at := BlockIsUnique(store.data, order, transition.batchId);
    forall event | event in transition.batch.events ensures event.sequence <= store.data.sequence {
      var i :| 0 <= i < |transition.batch.events| && transition.batch.events[i] == event;
      assert store.data.events[at..at + |transition.batch.events|][i] == store.data.events[at + i];
      assert store.data.events[at + i] in store.data.events;
    }
  }

  /** The armed false answer names a watermark the store has not reached, for any batch it would append. */
  lemma FalseAnswerIsAhead(store: Store, transition: Transition)
    requires store.faults.alreadyCommittedAhead && Appendable(store.data, transition)
    ensures Commit(store, transition).reply.AlreadyCommitted?
         && Commit(store, transition).reply.current == Extended(store.data, transition).sequence + 1
         && Commit(store, transition).store.data == store.data
  {
  }

  // ----- checkpoints of single agents -----

  datatype AgentCheckpoint = AgentCheckpoint(agentId: string, revision: nat, content: string)

  /** `save_agent_checkpoint`: never an older revision, never another content at the same revision. */
  function SaveAgentCheckpoint(
    saved: map<string, AgentCheckpoint>, checkpoint: AgentCheckpoint): Option<map<string, AgentCheckpoint>>
  {
    if checkpoint.agentId in saved
       && (saved[checkpoint.agentId].revision > checkpoint.revision
           || (saved[checkpoint.agentId].revision == checkpoint.revision && saved[checkpoint.agentId] != checkpoint))
    then None
    else Some(saved[checkpoint.agentId := checkpoint])
  }

  /** A checkpoint is saved exactly if it is the agent's first, a newer one, or the saved one again. */
  lemma SavedExactlyWhen(saved: map<string, AgentCheckpoint>, checkpoint: AgentCheckpoint)
    ensures var id := checkpoint.agentId;
      SaveAgentCheckpoint(saved, checkpoint).Some? <==>
        id !in saved || saved[id].revision < checkpoint.revision || saved[id] == checkpoint
    ensures SaveAgentCheckpoint(saved, checkpoint).Some? ==>
      var later := SaveAgentCheckpoint(saved, checkpoint).value;
      later.Keys == saved.Keys + {checkpoint.agentId} && later[checkpoint.agentId] == checkpoint
      && forall id | id in saved && id != checkpoint.agentId :: later[id] == saved[id]
  {
  }

  function SaveAll(saved: map<string, AgentCheckpoint>, checkpoints: seq<AgentCheckpoint>): map<string, AgentCheckpoint>
    decreases |checkpoints|
  {
    if checkpoints == [] then saved
    else
      var next := SaveAgentCheckpoint(saved, checkpoints[0]);
      SaveAll(if next.Some? then next.value else saved, checkpoints[1..])
  }

  /** Over any run of saves an agent's revision never falls, and one revision never changes content. */
  lemma {:induction false} RevisionsOnlyRise(
    saved: map<string, AgentCheckpoint>, checkpoints: seq<AgentCheckpoint>, id: string)
    requires id in saved
    ensures var later := SaveAll(saved, checkpoints);
      id in later && saved[id].revision <= later[id].revision
      && (saved[id].revision == later[id].revision ==> later[id] == saved[id])
    decreases |checkpoints|
  {
    if checkpoints != [] {
      var next := SaveAgentCheckpoint(saved, checkpoints[0]);
      RevisionsOnlyRise(if next.Some? then next.value else saved, checkpoints[1..], id);
    }
  }
}
