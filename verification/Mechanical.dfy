/** Mechanical truncation: dropping the oldest units without any model call. */
module Mechanical {
  import opened Wrappers
  import opened Words
  import opened Transcript
  import opened Sums
  import opened Units
  import opened Errors
  import opened Planning
  import opened Budget
  import opened Summarizer
  import opened Replay

  /** The first unprotected unit before the recent window, or the window's begin. */
  function FirstOpen(units: seq<Unit>, tail: nat, cursor: nat): (first: nat)
    requires cursor <= tail <= |units|
    ensures cursor <= first <= tail
    decreases tail - cursor
  {
    if cursor < tail && units[cursor].protected then FirstOpen(units, tail, cursor + 1) else cursor
  }

  /** The estimates a truncation starts from: all messages, the marker, the rest of the request. */
  datatype Base = Base(whole: uint64, marker: uint64, fixed: uint64)

  function BaseOf(ports: Ports, request: Request): Base {
    var whole := ports.estimators.messages(request.messages);
    Base(whole, ports.estimators.messages([TruncationMarker(ports)]),
         SatSub(ports.estimators.request(request), whole))
  }

  /** The incremental estimate once units of this size are dropped. */
  function Remaining(base: Base, dropped: uint64): uint64 {
    SatAdd(SatAdd(SatSub(base.whole, dropped), base.marker), base.fixed)
  }

  datatype Drop = Reached(end: nat) | Exhausted(end: nat, dropped: uint64)

  /** The dropping loop: stops at the first unit boundary where the target is reached. */
  function DropFrom(
    units: seq<Unit>, sizes: seq<uint64>, tail: nat, base: Base, target: uint64, cursor: nat, dropped: uint64): (d: Drop)
    requires cursor <= tail <= |units| == |sizes|
    ensures cursor <= d.end <= tail
    ensures d.Reached? ==> cursor < d.end
    decreases tail - cursor
  {
    if cursor < tail && !units[cursor].protected then
      var dropped' := SatAdd(dropped, sizes[cursor]);
      if Remaining(base, dropped') <= target then Reached(cursor + 1)
      else DropFrom(units, sizes, tail, base, target, cursor + 1, dropped')
    else Exhausted(cursor, dropped)
  }

  /** The request with the messages in `[start, end)` replaced by the marker. */
  function Truncated(ports: Ports, request: Request, start: nat, end: nat): Request
    requires start <= end <= |request.messages|
  {
    request.(messages := Splice(request.messages, start, end, TruncationMarker(ports)))
  }

  /** The end of a truncation: the rebuilt request is estimated anew, and must be smaller. */
  function Finish(
    ports: Ports, trigger: Trigger, request: Request, start: nat, end: nat): Result<Compaction, ContextError>
    requires start <= end <= |request.messages|
  {
    var before := ports.estimators.request(request);
    var rebuilt := Truncated(ports, request, start, end);
    var after := ports.estimators.request(rebuilt);
    if after >= before then Failure(CompressionDidNotReduce(before, after))
    else
      var record := MechanicalRecord(ports, trigger, request.messages, start, end, before, after);
      Success(Compaction(OutcomeKind.Mechanical, rebuilt.messages, record, None, None))
  }

  /** The size of each unit of a transcript. */
  function Sizes(messages: seq<Message>, estimator: Estimator): (sizes: seq<uint64>)
    ensures |sizes| == |TranscriptUnits(messages)|
  {
    UnitsInRange(messages);
    UnitSizes(messages, TranscriptUnits(messages), estimator)
  }

  function Deliver(
    ports: Ports, trigger: Trigger, request: Request, first: nat, drop: Drop): Result<Compaction, ContextError>
    requires drop.Reached? ==> first < drop.end <= |TranscriptUnits(request.messages)|
  {
    match drop
    case Exhausted(_, dropped) => Failure(StillExceeded(Remaining(BaseOf(ports, request), dropped)))
    case Reached(end) =>
      var units := TranscriptUnits(request.messages);
      DroppedBounds(request.messages, first, end);
      Finish(ports, trigger, request, units[first].start, units[end - 1].end)
  }

  /** `mechanical_truncation`, after the cancellation check. */
  function Truncate(
    ports: Ports, recent: nat, trigger: Trigger, target: uint64, request: Request): Result<Compaction, ContextError>
  {
    var units := TranscriptUnits(request.messages);
    var tail := TailStart(units, recent);
    var first := FirstOpen(units, tail, 0);
    if ports.estimators.request(request) <= target || first >= tail then Failure(NothingCompressible)
    else
      Deliver(ports, trigger, request, first,
              DropFrom(units, Sizes(request.messages, ports.estimators.messages), tail,
                       BaseOf(ports, request), target, first, 0))
  }

  lemma DroppedBounds(messages: seq<Message>, first: nat, end: nat)
    requires first < end <= |TranscriptUnits(messages)|
    ensures TranscriptUnits(messages)[first].start < TranscriptUnits(messages)[end - 1].end <= |messages|
  {
    RunBounds(messages, first, end);
  }

  method ComputeTruncation(ports: Ports, recent: nat, trigger: Trigger, target: uint64, request: Request)
    returns (outcome: Result<Compaction, ContextError>)
    ensures outcome == Truncate(ports, recent, trigger, target, request)
  {
    var messages := request.messages;
    var before := ports.estimators.request(request);
    var units := ComputeTranscriptUnits(messages);
    UnitsInRange(messages);
    var tail := TailStart(units, recent);
    var cursor := 0;
    while cursor < tail && units[cursor].protected
      invariant 0 <= cursor <= tail
      invariant FirstOpen(units, tail, cursor) == FirstOpen(units, tail, 0)
    {
      cursor := cursor + 1;
    }
    if before <= target || cursor >= tail {
      return Failure(NothingCompressible);
    }
    var drop := DropUnits(ports, request, units, tail, target, cursor);
    outcome := Deliver(ports, trigger, request, cursor, drop);
  }

  /** The dropping loop over the messages themselves. */
  method DropUnits(ports: Ports, request: Request, units: seq<Unit>, tail: nat, target: uint64, first: nat)
    returns (drop: Drop)
    requires InRange(units, |request.messages|) && first < tail <= |units|
    ensures drop == DropFrom(units, UnitSizes(request.messages, units, ports.estimators.messages), tail,
                             BaseOf(ports, request), target, first, 0)
  {
    ghost var sizes := UnitSizes(request.messages, units, ports.estimators.messages);
    var base := BaseOf(ports, request);
    var cursor := first;
    var dropped: uint64 := 0;
    while cursor < tail && !units[cursor].protected
      invariant first <= cursor <= tail
      invariant DropFrom(units, sizes, tail, base, target, cursor, dropped)
             == DropFrom(units, sizes, tail, base, target, first, 0)
    {
      dropped := SatAdd(dropped, UnitSize(request.messages, units[cursor], ports.estimators.messages));
      cursor := cursor + 1;
      if Remaining(base, dropped) <= target {
        return Reached(cursor);
      }
    }
    drop := Exhausted(cursor, dropped);
  }

  // ----- what is dropped -----

  lemma {:induction false} FirstOpenMeans(units: seq<Unit>, tail: nat, cursor: nat)
    requires cursor <= tail <= |units|
    ensures var first := FirstOpen(units, tail, cursor);
      (forall i | cursor <= i < first :: units[i].protected) && (first < tail ==> !units[first].protected)
    decreases tail - cursor
  {
    if cursor < tail && units[cursor].protected {
      FirstOpenMeans(units, tail, cursor + 1);
    }
  }

  lemma {:induction false} DropIsOpen(
    units: seq<Unit>, sizes: seq<uint64>, tail: nat, base: Base, target: uint64, cursor: nat, dropped: uint64)
    requires cursor <= tail <= |units| == |sizes|
    ensures var drop := DropFrom(units, sizes, tail, base, target, cursor, dropped);
      (forall i | cursor <= i < drop.end :: !units[i].protected)
      && (drop.Exhausted? ==> drop.end == tail || units[drop.end].protected)
    decreases tail - cursor
  {
    if cursor < tail && !units[cursor].protected {
      DropIsOpen(units, sizes, tail, base, target, cursor + 1, SatAdd(dropped, sizes[cursor]));
    }
  }

  /** A drop stops at the first boundary that reaches the target. */
  lemma {:induction false} DropMeans(
    units: seq<Unit>, sizes: seq<uint64>, tail: nat, base: Base, target: uint64, first: nat, cursor: nat)
    requires first <= cursor <= tail <= |units| == |sizes|
    requires forall k | first < k <= cursor :: Remaining(base, Removed(sizes, first, k)) > target
    ensures var drop := DropFrom(units, sizes, tail, base, target, cursor, Removed(sizes, first, cursor));
      (forall k | first < k < drop.end :: Remaining(base, Removed(sizes, first, k)) > target)
      && match drop
         case Reached(end) => first < end && Remaining(base, Removed(sizes, first, end)) <= target
         case Exhausted(end, dropped) =>
           dropped == Removed(sizes, first, end) && (first < end ==> Remaining(base, dropped) > target)
    decreases tail - cursor
  {
    if cursor < tail && !units[cursor].protected {
      RemovedNext(sizes, first, cursor);
      if Remaining(base, Removed(sizes, first, cursor + 1)) > target {
        DropMeans(units, sizes, tail, base, target, first, cursor + 1);
      }
    }
  }

  lemma RemovedNext(sizes: seq<uint64>, a: nat, b: nat)
    requires a <= b < |sizes|
    ensures Removed(sizes, a, b + 1) == SatAdd(Removed(sizes, a, b), sizes[b])
  {
  }

  // ----- exactness of the incremental estimate -----

  /** The estimates of two adjacent slices add up, with saturation, to the estimate of their union. */
  predicate Adds(estimator: Estimator, messages: seq<Message>, i: nat, j: nat, k: nat) {
    i <= j <= k <= |messages| ==>
      SatAdd(estimator(messages[i..j]), estimator(messages[j..k])) == estimator(messages[i..k])
  }

  ghost predicate Additive(estimator: Estimator, messages: seq<Message>) {
    forall i: nat, j: nat, k: nat :: Adds(estimator, messages, i, j, k)
  }

  lemma BuiltInAdds(messages: seq<Message>, i: nat, j: nat, k: nat)
    ensures Adds(EstimateMessages, messages, i, j, k)
  {
    if i <= j <= k <= |messages| {
      TotalAdjacent(messages, i, j, k, MessageTokens);
      SaturateTwice(Tokens(messages[i..j]), Tokens(messages[j..k]));
    }
  }

  lemma BuiltInIsAdditive(messages: seq<Message>)
    ensures Additive(EstimateMessages, messages)
  {
    forall i: nat, j: nat, k: nat ensures Adds(EstimateMessages, messages, i, j, k) {
      BuiltInAdds(messages, i, j, k);
    }
  }

  /** The `i`-th size is the estimate of the `i`-th unit, which ends where the next one begins. */
  predicate Sized(messages: seq<Message>, estimator: Estimator, units: seq<Unit>, sizes: seq<uint64>, i: nat) {
    i < |units| == |sizes| ==>
      units[i].start <= units[i].end <= |messages| && sizes[i] == estimator(messages[units[i].start..units[i].end])
      && (i + 1 < |units| ==> units[i].end == units[i + 1].start)
  }

  /** The sizes of adjacent units add up to the size of their union. */
  lemma {:induction false} RemovedIsEstimate(
    messages: seq<Message>, estimator: Estimator, units: seq<Unit>, sizes: seq<uint64>, a: nat, b: nat)
    requires a < b <= |units| == |sizes| && Additive(estimator, messages)
    requires forall i: nat :: Sized(messages, estimator, units, sizes, i)
    ensures units[a].start <= units[b - 1].end <= |messages|
    ensures Removed(sizes, a, b) == estimator(messages[units[a].start..units[b - 1].end])
    decreases b
  {
    assert Sized(messages, estimator, units, sizes, b - 1);
    if a + 1 == b {
      assert Removed(sizes, a, a) == 0;
    } else {
      RemovedIsEstimate(messages, estimator, units, sizes, a, b - 1);
      assert Sized(messages, estimator, units, sizes, b - 2);
      assert Adds(estimator, messages, units[a].start, units[b - 2].end, units[b - 1].end);
    }
  }

  lemma TranscriptIsSized(messages: seq<Message>, estimator: Estimator, i: nat)
    ensures Sized(messages, estimator, TranscriptUnits(messages), Sizes(messages, estimator), i)
  {
    UnitsInRange(messages);
    if i + 1 < |TranscriptUnits(messages)| {
      AdjacentUnits(messages, i);
    }
  }

  lemma DroppedSize(messages: seq<Message>, a: nat, b: nat)
    requires a < b <= |TranscriptUnits(messages)|
    ensures var units := TranscriptUnits(messages);
      units[a].start <= units[b - 1].end <= |messages|
      && Removed(Sizes(messages, EstimateMessages), a, b) == EstimateMessages(messages[units[a].start..units[b - 1].end])
  {
    var units, sizes := TranscriptUnits(messages), Sizes(messages, EstimateMessages);
    BuiltInIsAdditive(messages);
    forall i: nat ensures Sized(messages, EstimateMessages, units, sizes, i) {
      TranscriptIsSized(messages, EstimateMessages, i);
    }
    RemovedIsEstimate(messages, EstimateMessages, units, sizes, a, b);
  }

  lemma AdjacentUnits(messages: seq<Message>, i: nat)
    requires i + 1 < |TranscriptUnits(messages)|
    ensures TranscriptUnits(messages)[i].end == TranscriptUnits(messages)[i + 1].start
  {
    UnitsTile(messages, 0);
  }

  lemma BaseIsExact(ports: Ports, request: Request)
    requires ports.estimators == BUILT_IN && RequestTokens(request) <= U64_MAX
    ensures BaseOf(ports, request)
         == Base(Tokens(request.messages), Saturate(MessageTokens(TruncationMarker(ports))), FixedTokens(request))
  {
    TotalOne(TruncationMarker(ports), MessageTokens);
  }

  lemma RemainingIsExact(base: Base, dropped: nat, marker: nat)
    requires dropped <= base.whole && base.marker == Saturate(marker)
    ensures Remaining(base, Saturate(dropped)) == Saturate(base.whole - dropped + marker + base.fixed)
  {
    SaturateThree(base.whole - dropped, marker, base.fixed);
  }

  lemma SplicedTokens(request: Request, start: nat, end: nat, inserted: Message)
    requires start <= end <= |request.messages|
    ensures Tokens(request.messages[start..end]) <= Tokens(request.messages)
    ensures RequestTokens(request.(messages := Splice(request.messages, start, end, inserted)))
         == Tokens(request.messages) - Tokens(request.messages[start..end]) + MessageTokens(inserted) + FixedTokens(request)
  {
    TotalSplice(request.messages, start, end, inserted, MessageTokens);
    TotalWithin(request.messages, 0, start, end, |request.messages|, MessageTokens);
    assert request.messages[0..|request.messages|] == request.messages;
  }

  /** The incremental estimate is the estimate of the rebuilt request. */
  lemma IncrementIsEstimate(ports: Ports, request: Request, start: nat, end: nat)
    requires ports.estimators == BUILT_IN && RequestTokens(request) <= U64_MAX
    requires start <= end <= |request.messages|
    ensures Remaining(BaseOf(ports, request), EstimateMessages(request.messages[start..end]))
         == EstimateRequest(Truncated(ports, request, start, end))
  {
    BaseIsExact(ports, request);
    SplicedTokens(request, start, end, TruncationMarker(ports));
    RemainingIsExact(BaseOf(ports, request), Tokens(request.messages[start..end]), MessageTokens(TruncationMarker(ports)));
  }

  lemma SaturateThree(a: nat, b: nat, c: nat)
    requires a <= U64_MAX && c <= U64_MAX
    ensures SatAdd(SatAdd(a, Saturate(b)), c) == Saturate(a + b + c)
  {
  }

  /** The units `[first, end)` are the whole first run of unprotected units before the recent window. */
  ghost predicate FirstRun(units: seq<Unit>, tail: nat, first: nat, end: nat)
    requires tail <= |units|
  {
    MaximalRun(units, tail, first, end) && forall i | 0 <= i < first :: units[i].protected
  }

  /** The request with the units `[first, k)` replaced by the marker. */
  function Without(ports: Ports, request: Request, first: nat, k: nat): Request
    requires first < k <= |TranscriptUnits(request.messages)|
  {
    var units := TranscriptUnits(request.messages);
    DroppedBounds(request.messages, first, k);
    Truncated(ports, request, units[first].start, units[k - 1].end)
  }

  /** For each `k`, the estimate of the request without the units `[first, k)`. */
  function Estimates(ports: Ports, request: Request, first: nat): nat -> uint64 {
    (k: nat) =>
      if first < k <= |TranscriptUnits(request.messages)| then EstimateRequest(Without(ports, request, first, k)) else 0
  }

  lemma DropIsEstimated(ports: Ports, request: Request, first: nat, k: nat)
    requires ports.estimators == BUILT_IN && RequestTokens(request) <= U64_MAX
    requires first < k <= |TranscriptUnits(request.messages)|
    ensures Remaining(BaseOf(ports, request), Removed(Sizes(request.messages, EstimateMessages), first, k))
         == Estimates(ports, request, first)(k)
  {
    var units := TranscriptUnits(request.messages);
    DroppedSize(request.messages, first, k);
    IncrementIsEstimate(ports, request, units[first].start, units[k - 1].end);
  }

  /** `k` is the least bound in `(first, end]` whose estimate is within the target. */
  ghost predicate Shortest(estimates: nat -> uint64, target: uint64, first: nat, end: nat, k: nat) {
    first < k <= end && estimates(k) <= target && forall j: nat | first < j < k :: estimates(j) > target
  }

  ghost predicate NoneReaches(estimates: nat -> uint64, target: uint64, first: nat, end: nat) {
    forall j: nat | first < j <= end :: estimates(j) > target
  }

  /** The drop is the shortest one that reaches the target; without any, the whole run was tried. */
  ghost predicate IsShortest(drop: Drop, base: Base, estimates: nat -> uint64, target: uint64, first: nat, end: nat) {
    match drop
    case Reached(k) => Shortest(estimates, target, first, end, k)
    case Exhausted(_, dropped) =>
      Remaining(base, dropped) == estimates(end) && NoneReaches(estimates, target, first, end)
  }

  /** The dropping loop finds the shortest prefix of the run that reaches the target. */
  lemma DropFindsShortest(
    units: seq<Unit>, sizes: seq<uint64>, tail: nat, base: Base, target: uint64, first: nat, end: nat,
    estimates: nat -> uint64)
    requires tail <= |units| == |sizes| && FirstRun(units, tail, first, end)
    requires forall k: nat | first < k <= end :: Remaining(base, Removed(sizes, first, k)) == estimates(k)
    ensures IsShortest(DropFrom(units, sizes, tail, base, target, first, 0), base, estimates, target, first, end)
  {
    assert Removed(sizes, first, first) == 0;
    DropMeans(units, sizes, tail, base, target, first, first);
    DropIsOpen(units, sizes, tail, base, target, first, 0);
  }

  lemma DropIsExact(ports: Ports, request: Request, tail: nat, target: uint64, first: nat, end: nat)
    requires ports.estimators == BUILT_IN && RequestTokens(request) <= U64_MAX
    requires tail <= |TranscriptUnits(request.messages)| && FirstRun(TranscriptUnits(request.messages), tail, first, end)
    ensures IsShortest(
      DropFrom(TranscriptUnits(request.messages), Sizes(request.messages, EstimateMessages), tail,
               BaseOf(ports, request), target, first, 0),
      BaseOf(ports, request), Estimates(ports, request, first), target, first, end)
  {
    var units, base := TranscriptUnits(request.messages), BaseOf(ports, request);
    var sizes := Sizes(request.messages, EstimateMessages);
    var estimates := Estimates(ports, request, first);
    forall k: nat | first < k <= end ensures Remaining(base, Removed(sizes, first, k)) == estimates(k) {
      DropIsEstimated(ports, request, first, k);
    }
    DropFindsShortest(units, sizes, tail, base, target, first, end, estimates);
  }

  /** The outcome of dropping the units `[first, k)`. */
  ghost predicate DropsTo(ports: Ports, request: Request, target: uint64, first: nat, k: nat, c: Compaction) {
    first < k <= |TranscriptUnits(request.messages)|
    && c.messages == Without(ports, request, first, k).messages
    && c.record.tokensAfter == Estimates(ports, request, first)(k)
    && c.record.tokensAfter <= target < c.record.tokensBefore == EstimateRequest(request)
  }

  lemma FinishIsExact(ports: Ports, trigger: Trigger, request: Request, target: uint64, first: nat, k: nat)
    requires ports.estimators == BUILT_IN && first < k <= |TranscriptUnits(request.messages)|
    requires Estimates(ports, request, first)(k) <= target < EstimateRequest(request)
    ensures var units := TranscriptUnits(request.messages);
      units[first].start < units[k - 1].end <= |request.messages|
      && var outcome := Finish(ports, trigger, request, units[first].start, units[k - 1].end);
      outcome.Success? && DropsTo(ports, request, target, first, k, outcome.value)
  {
    DroppedBounds(request.messages, first, k);
  }

  /**
    What truncation decides, for the built-in estimator without saturation. It refuses when the
    target is met already or nothing may be dropped; otherwise it drops the shortest prefix of the
    first run of unprotected units that reaches the target, and when the whole run does not, it
    reports the estimate that dropping the run would leave. It never fails to reduce.
   */
  lemma TruncationIsExact(ports: Ports, recent: nat, trigger: Trigger, target: uint64, request: Request)
    returns (first: nat, end: nat, k: nat)
    requires ports.estimators == BUILT_IN && RequestTokens(request) <= U64_MAX
    ensures var outcome := Truncate(ports, recent, trigger, target, request);
      var units, estimates := TranscriptUnits(request.messages), Estimates(ports, request, first);
      if EstimateRequest(request) <= target || !HasCompressibleHistory(request.messages, recent) then
        outcome == Failure(NothingCompressible)
      else
        FirstRun(units, TailStart(units, recent), first, end)
        && match outcome
           case Failure(error) =>
             NoneReaches(estimates, target, first, end) && error == StillExceeded(estimates(end))
           case Success(c) =>
             Shortest(estimates, target, first, end, k) && DropsTo(ports, request, target, first, k, c)
  {
    var units := TranscriptUnits(request.messages);
    var tail := TailStart(units, recent);
    first, end, k := FirstOpen(units, tail, 0), tail, 0;
    FirstOpenMeans(units, tail, 0);
    if EstimateRequest(request) > target && first < tail {
      end := RunEnd(units, tail, first);
      assert HasCompressibleHistory(request.messages, recent);
      k := DropOutcome(ports, recent, trigger, target, request, first, end);
    }
  }

  lemma DeliversExactly(
    ports: Ports, trigger: Trigger, target: uint64, request: Request, first: nat, end: nat, drop: Drop)
    requires ports.estimators == BUILT_IN && EstimateRequest(request) > target
    requires first < end <= |TranscriptUnits(request.messages)|
    requires IsShortest(drop, BaseOf(ports, request), Estimates(ports, request, first), target, first, end)
    ensures drop.Reached? ==> first < drop.end <= |TranscriptUnits(request.messages)|
    ensures match Deliver(ports, trigger, request, first, drop)
      case Failure(error) =>
        NoneReaches(Estimates(ports, request, first), target, first, end)
        && error == StillExceeded(Estimates(ports, request, first)(end))
      case Success(c) =>
        Shortest(Estimates(ports, request, first), target, first, end, drop.end)
        && DropsTo(ports, request, target, first, drop.end, c)
  {
    if drop.Reached? {
      FinishIsExact(ports, trigger, request, target, first, drop.end);
    }
  }

  lemma DropOutcome(ports: Ports, recent: nat, trigger: Trigger, target: uint64, request: Request, first: nat, end: nat)
    returns (k: nat)
    requires ports.estimators == BUILT_IN && RequestTokens(request) <= U64_MAX && EstimateRequest(request) > target
    requires var units := TranscriptUnits(request.messages);
      FirstRun(units, TailStart(units, recent), first, end) && first == FirstOpen(units, TailStart(units, recent), 0)
    ensures match Truncate(ports, recent, trigger, target, request)
      case Failure(error) =>
        NoneReaches(Estimates(ports, request, first), target, first, end)
        && error == StillExceeded(Estimates(ports, request, first)(end))
      case Success(c) =>
        Shortest(Estimates(ports, request, first), target, first, end, k)
        && DropsTo(ports, request, target, first, k, c)
  {
    var units := TranscriptUnits(request.messages);
    var tail := TailStart(units, recent);
    DropIsExact(ports, request, tail, target, first, end);
    var drop := DropFrom(units, Sizes(request.messages, EstimateMessages), tail,
                         BaseOf(ports, request), target, first, 0);
    DeliversExactly(ports, trigger, target, request, first, end, drop);
    k := drop.end;
  }

  lemma {:induction false} RunEnd(units: seq<Unit>, tail: nat, first: nat) returns (end: nat)
    requires first < tail <= |units| && !units[first].protected
    ensures first < end <= tail && (forall i | first <= i < end :: !units[i].protected)
    ensures end == tail || units[end].protected
    decreases tail - first
  {
    if first + 1 == tail || units[first + 1].protected {
      end := first + 1;
    } else {
      end := RunEnd(units, tail, first + 1);
    }
  }

  // ----- for every estimator -----

  lemma DeliveredDrop(ports: Ports, trigger: Trigger, request: Request, first: nat, drop: Drop)
    requires drop.Reached? ==> first < drop.end <= |TranscriptUnits(request.messages)|
    requires Deliver(ports, trigger, request, first, drop).Success?
    ensures drop.Reached?
    ensures var units := TranscriptUnits(request.messages);
      units[first].start < units[drop.end - 1].end <= |request.messages|
      && Deliver(ports, trigger, request, first, drop)
      == Finish(ports, trigger, request, units[first].start, units[drop.end - 1].end)
  {
    if drop.Reached? {
      DroppedBounds(request.messages, first, drop.end);
    }
  }

  /** A truncation replaces whole unprotected units that end before the recent window. */
  lemma TruncatedRun(ports: Ports, recent: nat, trigger: Trigger, target: uint64, request: Request)
    returns (first: nat, end: nat)
    requires Truncate(ports, recent, trigger, target, request).Success?
    ensures var units := TranscriptUnits(request.messages);
      var c := Truncate(ports, recent, trigger, target, request).value;
      OpenRun(units, first, end) && end <= TailStart(units, recent)
      && units[first].start < units[end - 1].end <= |request.messages|
      && Finish(ports, trigger, request, units[first].start, units[end - 1].end) == Success(c)
  {
    var units := TranscriptUnits(request.messages);
    var tail := TailStart(units, recent);
    var sizes := Sizes(request.messages, ports.estimators.messages);
    first := FirstOpen(units, tail, 0);
    DropIsOpen(units, sizes, tail, BaseOf(ports, request), target, first, 0);
    var drop := DropFrom(units, sizes, tail, BaseOf(ports, request), target, first, 0);
    DeliveredDrop(ports, trigger, request, first, drop);
    end := drop.end;
  }

  /** Replaying the record of a truncation rebuilds its transcript. */
  lemma TruncationReplays(ports: Ports, recent: nat, trigger: Trigger, target: uint64, request: Request)
    requires Truncate(ports, recent, trigger, target, request).Success?
    ensures var c := Truncate(ports, recent, trigger, target, request).value;
      Apply(ports, c.record, request.messages) == Success(c.messages)
  {
    var first, end := TruncatedRun(ports, recent, trigger, target, request);
    var units := TranscriptUnits(request.messages);
    RunIsAccepted(request.messages, first, end);
    var c := Truncate(ports, recent, trigger, target, request).value;
    MechanicalReplays(ports, trigger, request.messages, units[first].start, units[end - 1].end,
                      c.record.tokensBefore, c.record.tokensAfter);
  }

  /** The last `recent` units are, verbatim and as units, the last ones of the new transcript. */
  ghost predicate RecentKept(messages: seq<Message>, messages': seq<Message>, recent: nat) {
    var units, units' := TranscriptUnits(messages), TranscriptUnits(messages');
    var kept := |units| - TailStart(units, recent);
    var length := |messages| - StartOf(units, |units| - kept, |messages|);
    0 <= length <= |messages'| && messages'[|messages'| - length..] == messages[|messages| - length..]
    && kept <= |units'|
    && Shifted(units[|units| - kept..], units'[|units'| - kept..], |messages'| - |messages|)
  }

  /** Replacing a run that ends before the recent window keeps the window. */
  lemma RecentUnitsKept(messages: seq<Message>, a: nat, b: nat, recent: nat, inserted: Message)
    requires OpenRun(TranscriptUnits(messages), a, b) && b <= TailStart(TranscriptUnits(messages), recent)
    requires inserted.role == User
    ensures var units := TranscriptUnits(messages);
      units[a].start < units[b - 1].end <= |messages|
      && RecentKept(messages, Splice(messages, units[a].start, units[b - 1].end, inserted), recent)
  {
    var units := TranscriptUnits(messages);
    var tail := TailStart(units, recent);
    var kept := |units| - tail;
    ReplacedUnits(messages, a, b, inserted);
    RunBounds(messages, a, b);
    SurvivingSuffix(messages, b, tail, units[a].start, inserted);
    var units' := TranscriptUnits(Splice(messages, units[a].start, units[b - 1].end, inserted));
    assert units[b..][|units| - b - kept..] == units[tail..];
    assert units'[a + 1..][|units| - b - kept..] == units'[|units'| - kept..];
  }

  lemma DropOfConcat<T>(a: seq<T>, b: seq<T>, d: nat)
    requires d <= |b|
    ensures (a + b)[|a| + d..] == b[d..]
  {
  }

  lemma SuffixAfterSplice(messages: seq<Message>, start: nat, end: nat, at: nat, inserted: Message)
    requires start <= end <= at <= |messages|
    ensures var messages' := Splice(messages, start, end, inserted);
      messages'[|messages'| - (|messages| - at)..] == messages[at..]
  {
    DropOfConcat(messages[..start] + [inserted], messages[end..], at - end);
    assert messages[end..][at - end..] == messages[at..];
  }

  lemma SurvivingSuffix(messages: seq<Message>, end: nat, tail: nat, start: nat, inserted: Message)
    requires 0 < end <= tail <= |TranscriptUnits(messages)|
    requires start < TranscriptUnits(messages)[end - 1].end <= |messages|
    ensures var units := TranscriptUnits(messages);
      var at := StartOf(units, tail, |messages|);
      var messages' := Splice(messages, start, units[end - 1].end, inserted);
      units[end - 1].end <= at <= |messages| && |messages| - at <= |messages'|
      && messages'[|messages'| - (|messages| - at)..] == messages[at..]
  {
    var units := TranscriptUnits(messages);
    if tail < |units| {
      UnitOrder(messages, end - 1, tail);
    }
    SuffixAfterSplice(messages, start, units[end - 1].end, StartOf(units, tail, |messages|), inserted);
  }

  /** The last `recent` units survive a truncation. */
  lemma RecentUnitsSurvive(ports: Ports, recent: nat, trigger: Trigger, target: uint64, request: Request)
    requires Truncate(ports, recent, trigger, target, request).Success?
    ensures RecentKept(request.messages, Truncate(ports, recent, trigger, target, request).value.messages, recent)
  {
    var first, end := TruncatedRun(ports, recent, trigger, target, request);
    RecentUnitsKept(request.messages, first, end, recent, TruncationMarker(ports));
  }
}
