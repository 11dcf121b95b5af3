/** Choosing the range of units a summary replaces. */
module Planning {
  import opened Wrappers
  import opened Words
  import opened Transcript
  import opened Units
  import opened Errors

  /** The estimator's opinion on a list of messages; the planner works with any. */
  type Estimator = seq<Message> -> uint64

  datatype Plan = Plan(start: nat, end: nat)

  /** Down to the target, and room for the summary that will be inserted. */
  function DesiredReduction(before: uint64, target: uint64, summaryCeiling: uint32): (d: uint64)
    ensures d >= 1
  {
    Max(SatAdd(SatSub(before, target), summaryCeiling), 1)
  }

  ghost predicate InRange(units: seq<Unit>, n: nat) {
    forall i | 0 <= i < |units| :: units[i].start < units[i].end <= n
  }

  lemma UnitsInRange(messages: seq<Message>)
    ensures InRange(TranscriptUnits(messages), |messages|)
  {
    UnitsTile(messages, 0);
  }

  function UnitSize(messages: seq<Message>, unit: Unit, estimator: Estimator): uint64
    requires unit.start <= unit.end <= |messages|
  {
    estimator(messages[unit.start..unit.end])
  }

  function UnitSizes(messages: seq<Message>, units: seq<Unit>, estimator: Estimator): (sizes: seq<uint64>)
    requires InRange(units, |messages|)
    ensures |sizes| == |units|
  {
    seq(|units|, i requires 0 <= i < |units| => UnitSize(messages, units[i], estimator))
  }

  /** The units before the recent window, whose size is `minimum_recent_units`. */
  function TailStart(units: seq<Unit>, recent: nat): (tail: nat)
    ensures tail <= |units|
  {
    if |units| >= recent then |units| - recent else 0
  }

  /** The saturating sum over the units in `[a, b)`. */
  function Removed(sizes: seq<uint64>, a: nat, b: nat): uint64
    requires a <= b <= |sizes|
    decreases b
  {
    if a == b then 0 else SatAdd(Removed(sizes, a, b - 1), sizes[b - 1])
  }

  datatype Scan = Hit(end: nat) | Short(end: nat, removed: uint64)

  /** The inner loop: extends a run until it covers the desired reduction or ends. */
  function ScanRun(
    units: seq<Unit>, sizes: seq<uint64>, tail: nat, desired: uint64, cursor: nat, removed: uint64): (s: Scan)
    requires cursor <= tail <= |units| == |sizes|
    ensures cursor <= s.end <= tail
    ensures s.Hit? || (cursor < tail && !units[cursor].protected) ==> cursor < s.end
    decreases tail - cursor
  {
    if cursor < tail && !units[cursor].protected then
      var removed' := SatAdd(removed, sizes[cursor]);
      if removed' >= desired then Hit(cursor + 1)
      else ScanRun(units, sizes, tail, desired, cursor + 1, removed')
    else Short(cursor, removed)
  }

  datatype Run = Run(first: nat, last: nat, removed: uint64)

  /** The outer loop: the first run that covers the reduction, or the best run there is. */
  function Select(
    units: seq<Unit>, sizes: seq<uint64>, tail: nat, desired: uint64, cursor: nat, best: Option<Run>): Option<Run>
    requires cursor <= tail <= |units| == |sizes|
    decreases tail - cursor
  {
    if cursor == tail then best
    else if units[cursor].protected then Select(units, sizes, tail, desired, cursor + 1, best)
    else match ScanRun(units, sizes, tail, desired, cursor, 0)
      case Hit(end) => Some(Run(cursor, end, desired))
      case Short(end, removed) =>
        var better := best.None? || removed > best.value.removed;
        Select(units, sizes, tail, desired, end, if better then Some(Run(cursor, end, removed)) else best)
  }

  function CountProtected(units: seq<Unit>): nat {
    if units == [] then 0 else CountProtected(units[1..]) + if units[0].protected then 1 else 0
  }

  lemma CountProtectedBound(units: seq<Unit>)
    ensures CountProtected(units) <= |units|
  {
  }

  /** What the planner reports when no run exists. */
  function NoRun(units: seq<Unit>, before: uint64, hint: Option<uint64>): ContextError {
    CountProtectedBound(units);
    if units == [] then NothingCompressible
    else ProtectedInputFillsWindow(
      before, if hint.Some? then hint.value else Max(before, 1),
      CountProtected(units), |units| - CountProtected(units))
  }

  /** `plan_replacement`. */
  function PlanReplacement(
    messages: seq<Message>, recent: nat, before: uint64, target: uint64, summaryCeiling: uint32,
    hint: Option<uint64>, estimator: Estimator): Result<Plan, ContextError>
  {
    var units := TranscriptUnits(messages);
    UnitsInRange(messages);
    var sizes := UnitSizes(messages, units, estimator);
    var tail := TailStart(units, recent);
    var chosen := Select(units, sizes, tail, DesiredReduction(before, target, summaryCeiling), 0, None);
    SelectedIndices(units, sizes, tail, DesiredReduction(before, target, summaryCeiling), 0, None);
    match chosen
    case None => Failure(NoRun(units, before, hint))
    case Some(run) => Success(Plan(units[run.first].start, units[run.last - 1].end))
  }

  lemma {:induction false} SelectedIndices(
    units: seq<Unit>, sizes: seq<uint64>, tail: nat, desired: uint64, cursor: nat, best: Option<Run>)
    requires cursor <= tail <= |units| == |sizes|
    requires best.Some? ==> best.value.first < best.value.last <= tail
    ensures var chosen := Select(units, sizes, tail, desired, cursor, best);
      chosen.Some? ==> chosen.value.first < chosen.value.last <= tail
    decreases tail - cursor
  {
    if cursor < tail {
      if units[cursor].protected {
        SelectedIndices(units, sizes, tail, desired, cursor + 1, best);
      } else {
        match ScanRun(units, sizes, tail, desired, cursor, 0)
        case Hit(end) =>
        case Short(end, removed) =>
          var better := best.None? || removed > best.value.removed;
          SelectedIndices(units, sizes, tail, desired, end,
                          if better then Some(Run(cursor, end, removed)) else best);
      }
    }
  }

  method ComputePlan(
    messages: seq<Message>, recent: nat, before: uint64, target: uint64, summaryCeiling: uint32,
    hint: Option<uint64>, estimator: Estimator) returns (plan: Result<Plan, ContextError>)
    ensures plan == PlanReplacement(messages, recent, before, target, summaryCeiling, hint, estimator)
  {
    var units := ComputeTranscriptUnits(messages);
    UnitsInRange(messages);
    var tail := TailStart(units, recent);
    var desired := DesiredReduction(before, target, summaryCeiling);
    SelectedIndices(units, UnitSizes(messages, units, estimator), tail, desired, 0, None);
    var chosen := SelectRun(messages, units, tail, desired, estimator);
    match chosen
    case None =>
      plan := Failure(NoRun(units, before, hint));
    case Some(run) =>
      plan := Success(Plan(units[run.first].start, units[run.last - 1].end));
  }

  /** The outer loop of the planner. */
  method SelectRun(messages: seq<Message>, units: seq<Unit>, tail: nat, desired: uint64, estimator: Estimator)
    returns (chosen: Option<Run>)
    requires InRange(units, |messages|) && tail <= |units|
    ensures chosen == Select(units, UnitSizes(messages, units, estimator), tail, desired, 0, None)
  {
    ghost var sizes := UnitSizes(messages, units, estimator);
    ghost var expected := Select(units, sizes, tail, desired, 0, None);
    chosen := None;
    var cursor := 0;
    while cursor < tail
      invariant 0 <= cursor <= tail
      invariant Select(units, sizes, tail, desired, cursor, chosen) == expected
    {
      if units[cursor].protected {
        cursor := cursor + 1;
      } else {
        var scan := ScanUnits(messages, units, tail, desired, cursor, estimator);
        match scan
        case Hit(end) =>
          return Some(Run(cursor, end, desired));
        case Short(end, removed) =>
          if chosen.None? || removed > chosen.value.removed {
            chosen := Some(Run(cursor, end, removed));
          }
          cursor := end;
      }
    }
  }

  /** The inner loop of the planner, from the first unit of a run. */
  method ScanUnits(
    messages: seq<Message>, units: seq<Unit>, tail: nat, desired: uint64, runStart: nat, estimator: Estimator)
    returns (scan: Scan)
    requires InRange(units, |messages|) && runStart < tail <= |units|
    ensures scan == ScanRun(units, UnitSizes(messages, units, estimator), tail, desired, runStart, 0)
  {
    ghost var sizes := UnitSizes(messages, units, estimator);
    var cursor := runStart;
    var removed: uint64 := 0;
    while cursor < tail && !units[cursor].protected
      invariant runStart <= cursor <= tail
      invariant ScanRun(units, sizes, tail, desired, cursor, removed)
             == ScanRun(units, sizes, tail, desired, runStart, 0)
    {
      removed := SatAdd(removed, UnitSize(messages, units[cursor], estimator));
      cursor := cursor + 1;
      if removed >= desired {
        return Hit(cursor);
      }
    }
    scan := Short(cursor, removed);
  }

  // ----- what the choice means -----

  /** A maximal run of unprotected units before the recent window. */
  ghost predicate MaximalRun(units: seq<Unit>, tail: nat, a: nat, r: nat)
    requires tail <= |units|
  {
    a < r <= tail && (forall i | a <= i < r :: !units[i].protected)
    && (a == 0 || units[a - 1].protected) && (r == tail || units[r].protected)
  }

  /** Every maximal run that begins before `cursor` removes less than desired. */
  ghost predicate NoneCovers(units: seq<Unit>, sizes: seq<uint64>, tail: nat, desired: uint64, cursor: nat)
    requires tail <= |units| == |sizes|
  {
    forall a: nat, r: nat | MaximalRun(units, tail, a, r) && a < cursor :: Removed(sizes, a, r) < desired
  }

  /** The largest of the runs that begin before `cursor`, the earliest one on ties. */
  ghost predicate Largest(units: seq<Unit>, sizes: seq<uint64>, tail: nat, cursor: nat, first: nat, last: nat)
    requires tail <= |units| == |sizes|
  {
    MaximalRun(units, tail, first, last) && first < cursor
    && forall a: nat, r: nat | MaximalRun(units, tail, a, r) && a < cursor ::
      Removed(sizes, a, r) <= Removed(sizes, first, last)
      && (a < first ==> Removed(sizes, a, r) < Removed(sizes, first, last))
  }

  /** The shortest prefix of the earliest run that covers the reduction. */
  ghost predicate EarliestCover(units: seq<Unit>, sizes: seq<uint64>, tail: nat, desired: uint64, first: nat, last: nat)
    requires tail <= |units| == |sizes|
  {
    first < last <= tail
    && (first == 0 || units[first - 1].protected)
    && (forall i | first <= i < last :: !units[i].protected)
    && Removed(sizes, first, last - 1) < desired <= Removed(sizes, first, last)
    && NoneCovers(units, sizes, tail, desired, first)
  }

  /** The planner's rule: an earliest cover, or, when no run covers, the whole largest run. */
  ghost predicate Chosen(units: seq<Unit>, sizes: seq<uint64>, tail: nat, desired: uint64, first: nat, last: nat)
    requires tail <= |units| == |sizes|
  {
    EarliestCover(units, sizes, tail, desired, first, last)
    || (NoneCovers(units, sizes, tail, desired, tail) && Largest(units, sizes, tail, tail, first, last))
  }

  lemma {:induction false} ScanMeans(
    units: seq<Unit>, sizes: seq<uint64>, tail: nat, desired: uint64, first: nat, cursor: nat)
    requires first <= cursor <= tail <= |units| == |sizes|
    requires forall i | first <= i < cursor :: !units[i].protected
    requires Removed(sizes, first, cursor) < desired
    ensures match ScanRun(units, sizes, tail, desired, cursor, Removed(sizes, first, cursor))
      case Hit(end) =>
        cursor < end && (forall i | first <= i < end :: !units[i].protected)
        && Removed(sizes, first, end - 1) < desired <= Removed(sizes, first, end)
      case Short(end, removed) =>
        (forall i | first <= i < end :: !units[i].protected)
        && (end == tail || units[end].protected)
        && removed == Removed(sizes, first, end) && removed < desired
    decreases tail - cursor
  {
    if cursor < tail && !units[cursor].protected {
      assert Removed(sizes, first, cursor + 1) == SatAdd(Removed(sizes, first, cursor), sizes[cursor]);
      if Removed(sizes, first, cursor + 1) < desired {
        ScanMeans(units, sizes, tail, desired, first, cursor + 1);
      }
    }
  }

  /** A maximal run that begins in the open stretch `[first, end)` is that stretch. */
  lemma RunsInStretch(units: seq<Unit>, tail: nat, first: nat, end: nat, a: nat, r: nat)
    requires first < end <= tail <= |units|
    requires forall i | first <= i < end :: !units[i].protected
    requires end == tail || units[end].protected
    requires MaximalRun(units, tail, a, r) && first <= a < end
    ensures a == first && r == end
  {
  }

  ghost predicate AtRunEdge(units: seq<Unit>, tail: nat, cursor: nat)
    requires cursor <= tail <= |units|
  {
    cursor == 0 || cursor == tail || units[cursor - 1].protected || units[cursor].protected
  }

  ghost predicate BestSoFar(units: seq<Unit>, sizes: seq<uint64>, tail: nat, cursor: nat, best: Option<Run>)
    requires tail <= |units| == |sizes|
  {
    match best
    case None => forall i | 0 <= i < cursor && i < tail :: units[i].protected
    case Some(run) =>
      Largest(units, sizes, tail, cursor, run.first, run.last)
      && run.removed == Removed(sizes, run.first, run.last)
  }

  lemma ImprovedBest(
    units: seq<Unit>, sizes: seq<uint64>, tail: nat, cursor: nat, best: Option<Run>, end: nat)
    requires cursor < end <= tail <= |units| == |sizes|
    requires MaximalRun(units, tail, cursor, end) && BestSoFar(units, sizes, tail, cursor, best)
    ensures var removed := Removed(sizes, cursor, end);
      var better := best.None? || removed > best.value.removed;
      BestSoFar(units, sizes, tail, end, if better then Some(Run(cursor, end, removed)) else best)
  {
    var removed := Removed(sizes, cursor, end);
    var better := best.None? || removed > best.value.removed;
    var run := if better then Run(cursor, end, removed) else best.value;
    forall a: nat, r: nat | MaximalRun(units, tail, a, r) && a < end
      ensures Removed(sizes, a, r) <= Removed(sizes, run.first, run.last)
      ensures a < run.first ==> Removed(sizes, a, r) < Removed(sizes, run.first, run.last)
    {
      if a >= cursor {
        RunsInStretch(units, tail, cursor, end, a, r);
      } else {
        assert !units[a].protected;
      }
    }
  }

  lemma {:induction false} SelectMeans(
    units: seq<Unit>, sizes: seq<uint64>, tail: nat, desired: uint64, cursor: nat, best: Option<Run>)
    requires cursor <= tail <= |units| == |sizes| && 1 <= desired
    requires AtRunEdge(units, tail, cursor) && BestSoFar(units, sizes, tail, cursor, best)
    requires NoneCovers(units, sizes, tail, desired, cursor)
    ensures match Select(units, sizes, tail, desired, cursor, best)
      case None => forall i | 0 <= i < tail :: units[i].protected
      case Some(run) => Chosen(units, sizes, tail, desired, run.first, run.last)
    decreases tail - cursor
  {
    if cursor < tail {
      if units[cursor].protected {
        forall a: nat, r: nat | MaximalRun(units, tail, a, r) && a < cursor + 1 ensures a < cursor {
        }
        SelectMeans(units, sizes, tail, desired, cursor + 1, best);
      } else {
        ScanMeans(units, sizes, tail, desired, cursor, cursor);
        match ScanRun(units, sizes, tail, desired, cursor, 0)
        case Hit(end) =>
        case Short(end, removed) =>
          ImprovedBest(units, sizes, tail, cursor, best, end);
          forall a: nat, r: nat | MaximalRun(units, tail, a, r) && a < end
            ensures Removed(sizes, a, r) < desired
          {
            if a >= cursor {
              RunsInStretch(units, tail, cursor, end, a, r);
            }
          }
          var better := best.None? || removed > best.value.removed;
          SelectMeans(units, sizes, tail, desired, end,
                      if better then Some(Run(cursor, end, removed)) else best);
      }
    }
  }

  /** `has_compressible_history`. */
  predicate HasCompressibleHistory(messages: seq<Message>, recent: nat) {
    var units := TranscriptUnits(messages);
    exists i | 0 <= i < TailStart(units, recent) :: !units[i].protected
  }

  ghost function Protected(units: seq<Unit>): set<nat> {
    set i: nat | i < |units| && units[i].protected
  }

  lemma {:induction false} ProtectedCounted(units: seq<Unit>)
    ensures CountProtected(units) == |Protected(units)|
  {
    if units != [] {
      var init, last := units[..|units| - 1], units[|units| - 1];
      assert units == init + [last];
      ProtectedCounted(init);
      CountProtectedNext(init, last);
      assert Protected(units) == if last.protected then Protected(init) + {|init|} else Protected(init);
    }
  }

  lemma {:induction false} CountProtectedNext(units: seq<Unit>, last: Unit)
    ensures CountProtected(units + [last]) == CountProtected(units) + if last.protected then 1 else 0
  {
    if units == [] {
      assert [last][1..] == [];
    } else {
      assert (units + [last])[1..] == units[1..] + [last];
      CountProtectedNext(units[1..], last);
    }
  }

  /**
    What planning is refused with: nothing to compress without any unit; otherwise the estimate, the
    budget it was made for, and how many units are protected and how many are not.
   */
  lemma RefusalCounts(
    messages: seq<Message>, recent: nat, before: uint64, target: uint64, summaryCeiling: uint32,
    hint: Option<uint64>, estimator: Estimator)
    requires PlanReplacement(messages, recent, before, target, summaryCeiling, hint, estimator).Failure?
    ensures var units := TranscriptUnits(messages);
      var error := PlanReplacement(messages, recent, before, target, summaryCeiling, hint, estimator).error;
      if messages == [] then error == NothingCompressible
      else
        |Protected(units)| <= |units|
        && error == ProtectedInputFillsWindow(
             before, match hint case Some(budget) => budget case None => Max(before, 1),
             |Protected(units)|, |units| - |Protected(units)|)
  {
    ProtectedCounted(TranscriptUnits(messages));
    UnitsTile(messages, 0);
  }

  /** Planning fails exactly when there is no compressible history. */
  lemma PlanFailsExactlyWhen(
    messages: seq<Message>, recent: nat, before: uint64, target: uint64, summaryCeiling: uint32,
    hint: Option<uint64>, estimator: Estimator)
    ensures PlanReplacement(messages, recent, before, target, summaryCeiling, hint, estimator).Success?
       <==> HasCompressibleHistory(messages, recent)
  {
    var units := TranscriptUnits(messages);
    UnitsInRange(messages);
    var sizes := UnitSizes(messages, units, estimator);
    var tail := TailStart(units, recent);
    var desired := DesiredReduction(before, target, summaryCeiling);
    SelectMeans(units, sizes, tail, desired, 0, None);
    SelectedIndices(units, sizes, tail, desired, 0, None);
    var chosen := Select(units, sizes, tail, desired, 0, None);
    if chosen.Some? {
      assert !units[chosen.value.first].protected;
    }
  }

  /**
    A successful plan obeys the planner's rule, covers whole unprotected units that end before the
    recent window, and is a range the validator accepts.
   */
  lemma PlanIsChosen(
    messages: seq<Message>, recent: nat, before: uint64, target: uint64, summaryCeiling: uint32,
    hint: Option<uint64>, estimator: Estimator) returns (first: nat, last: nat)
    requires PlanReplacement(messages, recent, before, target, summaryCeiling, hint, estimator).Success?
    ensures var units := TranscriptUnits(messages);
      InRange(units, |messages|)
      && var plan := PlanReplacement(messages, recent, before, target, summaryCeiling, hint, estimator).value;
      var tail := TailStart(units, recent);
      last <= tail && OpenRun(units, first, last)
      && Chosen(units, UnitSizes(messages, units, estimator), tail,
                DesiredReduction(before, target, summaryCeiling), first, last)
      && plan == Plan(units[first].start, units[last - 1].end)
      && plan.start < plan.end <= |messages| && Accepts(messages, plan.start, plan.end)
  {
    var units := TranscriptUnits(messages);
    UnitsInRange(messages);
    var sizes := UnitSizes(messages, units, estimator);
    var tail := TailStart(units, recent);
    var desired := DesiredReduction(before, target, summaryCeiling);
    SelectMeans(units, sizes, tail, desired, 0, None);
    SelectedIndices(units, sizes, tail, desired, 0, None);
    var run := Select(units, sizes, tail, desired, 0, None).value;
    first, last := run.first, run.last;
    RunIsAccepted(messages, first, last);
  }
}
