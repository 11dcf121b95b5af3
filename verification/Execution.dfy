/** The execution port of the collaboration tests: each Turn started and each tree quiesced once. */
module Execution {
  import opened Wrappers

  datatype Launch = Launch(turnId: string, assignment: string)

  datatype Quiesce = Quiesce(rootAgentId: string, reason: string)

  datatype StartResult = Accepted | AlreadyAccepted | RejectedBeforeSideEffect | Unknown

  datatype QuiesceResult = Quiesced | AlreadyQuiesced | RefusedQuiesce | UnknownQuiesce

  /** The faults still to be injected into starts and quiesces. */
  datatype Faults = Faults(
    nextStartError: Option<string>, failAllStarts: bool, failNextStart: bool,
    unknownNextStart: bool, acceptThenUnknown: bool,
    rejectAllQuiesces: bool, unknownNextQuiesce: bool)

  function TurnIds(launches: seq<Launch>): seq<string> {
    seq(|launches|, i requires 0 <= i < |launches| => launches[i].turnId)
  }

  function Roots(quiesces: seq<Quiesce>): seq<string> {
    seq(|quiesces|, i requires 0 <= i < |quiesces| => quiesces[i].rootAgentId)
  }

  predicate Distinct(ids: seq<string>) {
    forall i, j | 0 <= i < j < |ids| :: ids[i] != ids[j]
  }

  /** The fault that decides a start before anything happens, and what is left of the faults. */
  function StartFault(faults: Faults): Option<(StartResult, Faults)> {
    if faults.nextStartError.Some? then Some((RejectedBeforeSideEffect, faults.(nextStartError := None)))
    else if faults.failAllStarts then Some((RejectedBeforeSideEffect, faults))
    else if faults.failNextStart then Some((RejectedBeforeSideEffect, faults.(failNextStart := false)))
    else if faults.unknownNextStart then Some((Unknown, faults.(unknownNextStart := false)))
    else None
  }

  /**
    A start is decided by a fault exactly if one is armed; it is answered as unknown only where no
    rejection is armed, and of the faults that end with their use the first one ends.
   */
  lemma StartFaultExactlyWhen(faults: Faults)
    ensures StartFault(faults).Some? <==>
      faults.nextStartError.Some? || faults.failAllStarts || faults.failNextStart || faults.unknownNextStart
    ensures StartFault(faults).Some? ==>
      var (answer, rest) := StartFault(faults).value;
      var rejected := faults.nextStartError.Some? || faults.failAllStarts || faults.failNextStart;
      answer == (if rejected then RejectedBeforeSideEffect else Unknown)
      && rest.failAllStarts == faults.failAllStarts && rest.nextStartError == None
      && rest.acceptThenUnknown == faults.acceptThenUnknown
      && (rest.unknownNextStart <==> faults.unknownNextStart && rejected)
      && (rest.failNextStart <==> faults.failNextStart && (faults.nextStartError.Some? || faults.failAllStarts))
      && rest.rejectAllQuiesces == faults.rejectAllQuiesces && rest.unknownNextQuiesce == faults.unknownNextQuiesce
  {
  }

  class RecordingExecution {
    var launches: seq<Launch>
    var acceptedTurns: set<string>
    var quiesces: seq<Quiesce>
    var quiesceAttempts: nat
    var faults: Faults

    /** Every Turn with a side effect has exactly one, and is remembered; every root at most one. */
    ghost predicate Valid()
      reads this
    {
      Distinct(TurnIds(launches))
      && (forall id :: id in acceptedTurns <==> id in TurnIds(launches))
      && Distinct(Roots(quiesces))
      && |quiesces| <= quiesceAttempts
    }

    constructor (faults: Faults)
      ensures Valid() && launches == [] && quiesces == [] && this.faults == faults
    {
      launches, acceptedTurns, quiesces, quiesceAttempts := [], {}, [], 0;
      this.faults := faults;
    }

    /** `start_turn`: a Turn is launched at most once, whatever was answered before. */
    method StartTurn(launch: Launch) returns (result: StartResult)
      requires Valid()
      modifies this
      ensures Valid()
      ensures quiesces == old(quiesces) && quiesceAttempts == old(quiesceAttempts)
      ensures match StartFault(old(faults))
        case Some((answer, rest)) =>
          result == answer && faults == rest && launches == old(launches) && acceptedTurns == old(acceptedTurns)
        case None =>
          acceptedTurns == old(acceptedTurns) + {launch.turnId}
          && if launch.turnId in TurnIds(old(launches)) then
               result == AlreadyAccepted && launches == old(launches) && faults == old(faults)
             else
               launches == old(launches) + [launch]
               && result == (if old(faults).acceptThenUnknown then Unknown else Accepted)
               && faults == old(faults).(acceptThenUnknown := false)
    {
      if faults.nextStartError.Some? {
        faults := faults.(nextStartError := None);
        return RejectedBeforeSideEffect;
      }
      if faults.failAllStarts {
        return RejectedBeforeSideEffect;
      }
      if faults.failNextStart {
        faults := faults.(failNextStart := false);
        return RejectedBeforeSideEffect;
      }
      if faults.unknownNextStart {
        faults := faults.(unknownNextStart := false);
        return Unknown;
      }
      if launch.turnId in acceptedTurns {
        return AlreadyAccepted;
      }
      TurnIdsNext(launches, launch);
      acceptedTurns := acceptedTurns + {launch.turnId};
      launches := launches + [launch];
      if faults.acceptThenUnknown {
        faults := faults.(acceptThenUnknown := false);
        return Unknown;
      }
      result := Accepted;
    }

    /** `quiesce_tree`: a root is recorded as quiesced at most once; every call is counted. */
    method QuiesceTree(request: Quiesce) returns (result: QuiesceResult)
      requires Valid()
      modifies this
      ensures Valid()
      ensures launches == old(launches) && acceptedTurns == old(acceptedTurns)
      ensures quiesceAttempts == old(quiesceAttempts) + 1
      ensures
        if old(faults).rejectAllQuiesces then
          result == RefusedQuiesce && quiesces == old(quiesces) && faults == old(faults)
        else if old(faults).unknownNextQuiesce then
          result == UnknownQuiesce && quiesces == old(quiesces)
          && faults == old(faults).(unknownNextQuiesce := false)
        else if request.rootAgentId in Roots(old(quiesces)) then
          result == AlreadyQuiesced && quiesces == old(quiesces) && faults == old(faults)
        else
          result == Quiesced && quiesces == old(quiesces) + [request] && faults == old(faults)
    {
      quiesceAttempts := quiesceAttempts + 1;
      if faults.rejectAllQuiesces {
        return RefusedQuiesce;
      }
      if faults.unknownNextQuiesce {
        faults := faults.(unknownNextQuiesce := false);
        return UnknownQuiesce;
      }
      for i := 0 to |quiesces|
        invariant request.rootAgentId !in Roots(quiesces)[..i]
      {
        if quiesces[i].rootAgentId == request.rootAgentId {
          assert Roots(quiesces)[i] in Roots(quiesces);
          return AlreadyQuiesced;
        }
      }
      assert Roots(quiesces)[..|quiesces|] == Roots(quiesces);
      RootsNext(quiesces, request);
      quiesces := quiesces + [request];
      result := Quiesced;
    }
  }

  lemma TurnIdsNext(launches: seq<Launch>, launch: Launch)
    requires Distinct(TurnIds(launches)) && launch.turnId !in TurnIds(launches)
    ensures TurnIds(launches + [launch]) == TurnIds(launches) + [launch.turnId]
    ensures Distinct(TurnIds(launches + [launch]))
  {
    assert TurnIds(launches + [launch]) == TurnIds(launches) + [launch.turnId];
    forall i | 0 <= i < |launches| ensures TurnIds(launches)[i] != launch.turnId {
      assert TurnIds(launches)[i] in TurnIds(launches);
    }
  }

  lemma RootsNext(quiesces: seq<Quiesce>, request: Quiesce)
    requires Distinct(Roots(quiesces)) && request.rootAgentId !in Roots(quiesces)
    ensures Roots(quiesces + [request]) == Roots(quiesces) + [request.rootAgentId]
    ensures Distinct(Roots(quiesces + [request]))
  {
    assert Roots(quiesces + [request]) == Roots(quiesces) + [request.rootAgentId];
    forall i | 0 <= i < |quiesces| ensures Roots(quiesces)[i] != request.rootAgentId {
      assert Roots(quiesces)[i] in Roots(quiesces);
    }
  }
}
