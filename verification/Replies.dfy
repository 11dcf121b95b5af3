/** Which reply a commit gets, and which fault it uses up, for every state of the store. */
module Replies {
  import opened EventStore

  /** An armed fault is aimed at an event of this kind. */
  predicate Aimed(faults: Faults, kind: EventKind) {
    match kind
    case DispatchAcknowledged => faults.dispatchAck
    case InvocationCommitted(_) => faults.collaborationCommit
    case TurnFailed(_) => faults.failureCompensation
    case CleanupCompleted => faults.cleanupAck
    case Other(_) => false
  }

  /** An armed fault strikes one of the events. */
  predicate Struck(faults: Faults, events: seq<Event>) {
    exists event | event in events :: Aimed(faults, event.kind)
  }

  /** The order in which faults strike. */
  function Rank(kind: EventKind): nat {
    match kind
    case DispatchAcknowledged => 0
    case InvocationCommitted(_) => 1
    case TurnFailed(_) => 2
    case CleanupCompleted => 3
    case Other(_) => 4
  }

  /** The fault aimed at this kind is used up, and no other. */
  function Used(faults: Faults, kind: EventKind): Faults {
    match kind
    case DispatchAcknowledged => faults.(dispatchAck := false)
    case InvocationCommitted(_) => faults.(collaborationCommit := false)
    case TurnFailed(_) => faults.(failureCompensation := false)
    case CleanupCompleted => faults.(cleanupAck := false)
    case Other(_) => faults
  }

  /** The event that a fault strikes first. */
  ghost predicate StruckFirst(faults: Faults, events: seq<Event>, event: Event) {
    event in events && Aimed(faults, event.kind)
    && forall other | other in events && Aimed(faults, other.kind) :: Rank(event.kind) <= Rank(other.kind)
  }

  lemma FaultStrikes(faults: Faults, events: seq<Event>)
    ensures InjectedFault(faults, events).Some? <==> Struck(faults, events)
    ensures InjectedFault(faults, events).Some? ==>
      exists event ::
        StruckFirst(faults, events, event) && InjectedFault(faults, events).value == Used(faults, event.kind)
  {
    if HasAcknowledgement(events) && faults.dispatchAck {
      var event :| event in events && event.kind.DispatchAcknowledged?;
      assert StruckFirst(faults, events, event);
    } else if HasInvocation(events) && faults.collaborationCommit {
      var event :| event in events && event.kind.InvocationCommitted?;
      assert StruckFirst(faults, events, event);
    } else if HasFailure(events) && faults.failureCompensation {
      var event :| event in events && event.kind.TurnFailed?;
      assert StruckFirst(faults, events, event);
    } else if HasCleanup(events) && faults.cleanupAck {
      var event :| event in events && event.kind.CleanupCompleted?;
      assert StruckFirst(faults, events, event);
    }
  }

  /** Neither the armed false answer, nor a recorded identifier, nor a fault keeps a commit from its checks. */
  predicate Checked(store: Store, transition: Transition) {
    !store.faults.alreadyCommittedAhead && transition.batchId !in store.data.batches
    && store.faults.indeterminateWithoutCommit == 0 && !Struck(store.faults, transition.batch.events)
  }

  /**
    When each reply is given. A refusal names the watermark of the store; it is a conflict for another
    batch under a recorded identifier or a wrong expectation, and an absence for a struck batch or one
    that is not numbered consecutively up to its checkpoint.
   */
  lemma ReplyExactlyWhen(store: Store, transition: Transition)
    ensures var data, faults, batch := store.data, store.faults, transition.batch;
      var recorded := transition.batchId in data.batches;
      match Commit(store, transition).reply
      case AlreadyCommitted(current) =>
        if faults.alreadyCommittedAhead then current == 1 + LastSequence(batch)
        else recorded && data.batches[transition.batchId] == batch && current == data.sequence
      case Conflict(actual) =>
        actual == data.sequence && !faults.alreadyCommittedAhead
        && (if recorded then data.batches[transition.batchId] != batch
            else Checked(store, transition) && batch.expected != data.sequence)
      case Absent(current) =>
        current == data.sequence && !faults.alreadyCommittedAhead && !recorded
        && faults.indeterminateWithoutCommit == 0
        && (Struck(faults, batch.events) || (batch.expected == data.sequence && !Consecutive(batch)))
      case Indeterminate =>
        !faults.alreadyCommittedAhead && !recorded
        && (faults.indeterminateWithoutCommit > 0
            || (Checked(store, transition) && Appendable(data, transition) && faults.commitThenIndeterminate))
      case Appended =>
        Checked(store, transition) && Appendable(data, transition) && !faults.commitThenIndeterminate
  {
    FaultStrikes(store.faults, transition.batch.events);
    WatermarkMeans(transition.batch.events, 0, store.data.sequence);
  }

  /** What a commit uses up: the first fault in its way, or the lost reply of an append, or nothing. */
  lemma FaultsUsedExactly(store: Store, transition: Transition)
    ensures var data, faults, batch := store.data, store.faults, transition.batch;
      var faults' := Commit(store, transition).store.faults;
      if faults.alreadyCommittedAhead then faults' == faults.(alreadyCommittedAhead := false)
      else if transition.batchId in data.batches then faults' == faults
      else if faults.indeterminateWithoutCommit > 0 then
        faults' == faults.(indeterminateWithoutCommit := faults.indeterminateWithoutCommit - 1)
      else if Struck(faults, batch.events) then
        exists event :: StruckFirst(faults, batch.events, event) && faults' == Used(faults, event.kind)
      else if Appendable(data, transition) then faults' == faults.(commitThenIndeterminate := false)
      else faults' == faults
  {
    FaultStrikes(store.faults, transition.batch.events);
    WatermarkMeans(transition.batch.events, 0, store.data.sequence);
  }
}
