/** Whether a whole compaction, projection included, leaves the most recent units as they are. */
module RecentWindow {
  import opened Wrappers
  import opened Transcript
  import opened Units
  import opened Rewriting
  import opened Projection
  import opened Micro
  import opened MicroGains
  import opened Planning
  import opened Replay
  import opened Mechanical
  import opened Compacting
  import opened CompactingLaws

  /** The index of the first message of the recent window. */
  function RecentStart(messages: seq<Message>, recent: nat): (at: nat)
    ensures at <= |messages|
  {
    var units := TranscriptUnits(messages);
    RecentStartInRange(messages, recent);
    StartOf(units, TailStart(units, recent), |messages|)
  }

  lemma RecentStartInRange(messages: seq<Message>, recent: nat)
    ensures StartOf(TranscriptUnits(messages), TailStart(TranscriptUnits(messages), recent), |messages|) <= |messages|
  {
    var units := TranscriptUnits(messages);
    var tail := TailStart(units, recent);
    if tail < |units| {
      UnitOrder(messages, tail, tail);
    }
  }

  /** No planned projection addresses a message of the recent window. */
  ghost predicate SparesRecent(messages: seq<Message>, plan: MicroPlan, recent: nat) {
    forall p | p in plan.projections :: p.slot.message < RecentStart(messages, recent)
  }

  // ----- what a projection does to the window -----

  lemma ProjectionChanges(messages: seq<Message>, projections: seq<ToolProjection>, p: ToolProjection)
    requires Planned(messages, projections) && Compacts(messages, projections) && p in projections
    requires |ApplyProjections(messages, projections)| == |messages|
    ensures p.slot.message < |messages|
    ensures ApplyProjections(messages, projections)[p.slot.message] != messages[p.slot.message]
  {
    AppliedText(messages, projections, p.slot);
    assert Targets(projections, p.slot);
    EligibleShrinks(TextAt(messages, p.slot));
  }

  lemma UntargetedStays(messages: seq<Message>, projections: seq<ToolProjection>, m: nat)
    requires Compacts(messages, projections) && m < |messages|
    requires forall p | p in projections :: p.slot.message != m
    ensures |ApplyProjections(messages, projections)| == |messages|
    ensures ApplyProjections(messages, projections)[m] == messages[m]
  {
    var applied := ApplyProjections(messages, projections);
    AppliedKeepsShape(messages, projections);
    forall b: nat, c: nat ensures SameText(messages, applied, Slot(m, b, c)) {
      AppliedText(messages, projections, Slot(m, b, c));
    }
    SameTextsSameMessage(messages, applied, m);
  }

  lemma SparedStays(messages: seq<Message>, projections: seq<ToolProjection>, at: nat)
    requires Compacts(messages, projections) && at <= |messages|
    requires forall p | p in projections :: p.slot.message < at
    ensures var applied := ApplyProjections(messages, projections);
      |applied| == |messages| && applied[at..] == messages[at..]
  {
    var applied := ApplyProjections(messages, projections);
    AppliedKeepsShape(messages, projections);
    forall m | at <= m < |messages| ensures applied[m] == messages[m] {
      UntargetedStays(messages, projections, m);
    }
  }

  lemma TargetedChanges(messages: seq<Message>, projections: seq<ToolProjection>, at: nat, p: ToolProjection)
    requires Planned(messages, projections) && Compacts(messages, projections) && at <= |messages|
    requires p in projections && p.slot.message >= at && |ApplyProjections(messages, projections)| == |messages|
    ensures ApplyProjections(messages, projections)[at..] != messages[at..]
  {
    var applied, m := ApplyProjections(messages, projections), p.slot.message;
    ProjectionChanges(messages, projections, p);
    assert applied[at..][m - at] == applied[m] && messages[at..][m - at] == messages[m];
  }

  lemma SparedExactlyWhen(messages: seq<Message>, projections: seq<ToolProjection>, at: nat)
    requires Planned(messages, projections) && Compacts(messages, projections) && at <= |messages|
    ensures var applied := ApplyProjections(messages, projections);
      |applied| == |messages|
      && (applied[at..] == messages[at..] <==> forall p | p in projections :: p.slot.message < at)
  {
    if forall p | p in projections :: p.slot.message < at {
      SparedStays(messages, projections, at);
    } else {
      AppliedKeepsShape(messages, projections);
      var p :| p in projections && p.slot.message >= at;
      TargetedChanges(messages, projections, at, p);
    }
  }

  /** A projection leaves the window verbatim if and only if its plan spares the window. */
  lemma ProjectionSparesExactlyWhen(messages: seq<Message>, relaxed: bool, recent: nat)
    requires PlanMicro(messages, relaxed).Some?
    ensures var plan, at := PlanMicro(messages, relaxed).value, RecentStart(messages, recent);
      var applied := ApplyProjections(messages, plan.projections);
      |applied| == |messages| && (applied[at..] == messages[at..] <==> SparesRecent(messages, plan, recent))
  {
    PlanCompacts(messages, relaxed);
    PlanIsPlanned(messages, relaxed);
    SparedExactlyWhen(messages, PlanMicro(messages, relaxed).value.projections, RecentStart(messages, recent));
  }

  // ----- the three protected rounds and the window -----

  lemma {:induction false} AssistantsSplit(messages: seq<Message>, i: nat, j: nat, k: nat)
    requires i <= j <= k <= |messages|
    ensures Assistants(messages, i, k) == Assistants(messages, i, j) + Assistants(messages, j, k)
    decreases k - j
  {
    if j < k {
      AssistantsSplit(messages, i, j, k - 1);
    }
  }

  lemma {:induction false} ToolRunHasNone(messages: seq<Message>, i: nat, k: nat)
    requires i <= |messages| && i <= k <= ToolRunEnd(messages, i)
    ensures Assistants(messages, i, k) == 0
    decreases k - i
  {
    if i < k {
      ToolRunHasTools(messages, i, k - 1);
      ToolRunHasNone(messages, i, k - 1);
    }
  }

  lemma {:induction false} ToolRunHasTools(messages: seq<Message>, i: nat, m: nat)
    requires i <= |messages| && i <= m < ToolRunEnd(messages, i)
    ensures messages[m].role == Tool
    decreases m - i
  {
    if i < m {
      ToolRunHasTools(messages, i + 1, m);
    }
  }

  lemma OneMessage(messages: seq<Message>, i: nat)
    requires i < |messages|
    ensures Assistants(messages, i, i + 1) == if messages[i].role == Assistant then 1 else 0
  {
    assert Assistants(messages, i, i) == 0;
  }

  /** A unit holds an assistant message only at its begin. */
  lemma UnitAssistants(messages: seq<Message>, i: nat)
    requires i < |messages|
    ensures Assistants(messages, i, UnitAt(messages, i).end) == if messages[i].role == Assistant then 1 else 0
  {
    OneMessage(messages, i);
    if OpensExchange(messages[i]) {
      var end := ToolRunEnd(messages, i + 1);
      ToolRunHasNone(messages, i + 1, end);
      AssistantsSplit(messages, i, i + 1, end);
    }
  }

  /** There are no more assistant messages than units, and fewer where the first unit has none. */
  lemma {:induction false} AssistantsWithinUnits(messages: seq<Message>, i: nat)
    requires i <= |messages|
    ensures Assistants(messages, i, |messages|) <= |UnitsFrom(messages, i)|
    ensures i < |messages| && messages[i].role != Assistant ==>
      Assistants(messages, i, |messages|) < |UnitsFrom(messages, i)|
    decreases |messages| - i
  {
    if i < |messages| {
      var end := UnitAt(messages, i).end;
      UnitAssistants(messages, i);
      AssistantsSplit(messages, i, end, |messages|);
      AssistantsWithinUnits(messages, end);
    }
  }

  lemma AssistantsBefore(messages: seq<Message>, at: nat, limit: nat)
    requires at < limit <= |messages|
    ensures Assistants(messages, at, |messages|)
         >= Assistants(messages, limit, |messages|) + if messages[at].role == Assistant then 1 else 0
  {
    AssistantsSplit(messages, at, at + 1, |messages|);
    AssistantsSplit(messages, at + 1, limit, |messages|);
    OneMessage(messages, at);
  }

  lemma WindowUnits(messages: seq<Message>, recent: nat)
    requires |TranscriptUnits(messages)| >= recent
    ensures |UnitsFrom(messages, RecentStart(messages, recent))| == recent
  {
    CutAtUnit(messages, 0, |TranscriptUnits(messages)| - recent);
  }

  /** With at most three recent units the protected rounds cover the recent window. */
  lemma RoundsCoverWindow(messages: seq<Message>, recent: nat)
    requires recent <= 3 && StaleWindowStart(messages).Some? && |TranscriptUnits(messages)| >= recent
    ensures StaleWindowStart(messages).value <= RecentStart(messages, recent)
  {
    var at, limit := RecentStart(messages, recent), StaleWindowStart(messages).value;
    StaleWindowIsThreeRounds(messages);
    WindowUnits(messages, recent);
    AssistantsWithinUnits(messages, at);
    if at < limit {
      AssistantsBefore(messages, at, limit);
    }
  }

  /** Then, where there is history to compress, a plan spares the window. */
  lemma ThreeUnitsAreSpared(messages: seq<Message>, recent: nat)
    requires recent <= 3 && HasCompressibleHistory(messages, recent) && PlanMicro(messages, false).Some?
    ensures SparesRecent(messages, PlanMicro(messages, false).value, recent)
  {
    RoundsCoverWindow(messages, recent);
    ScopeInRange(messages, false);
    var limit := StaleWindowStart(messages).value;
    forall p | p in PlanMicro(messages, false).value.projections
      ensures p.slot.message < RecentStart(messages, recent)
    {
      CandidatesAre(messages, 0, limit, p);
    }
  }

  // ----- whole compactions -----

  /** Verbatim projection before, window kept after: kept all in all, and the other way round. */
  lemma WindowThroughProjection(
    messages: seq<Message>, projected: seq<Message>, result: seq<Message>, recent: nat)
    requires |projected| == |messages| && TranscriptUnits(projected) == TranscriptUnits(messages)
    requires RecentKept(projected, result, recent)
    ensures RecentKept(messages, result, recent)
       <==> projected[RecentStart(messages, recent)..] == messages[RecentStart(messages, recent)..]
  {
  }

  lemma KeptByProjection(messages: seq<Message>, projected: seq<Message>, recent: nat)
    requires |projected| == |messages| && TranscriptUnits(projected) == TranscriptUnits(messages)
    ensures RecentKept(projected, projected, recent)
  {
    RecentStartInRange(projected, recent);
  }

  /**
    Any successful compaction keeps the recent window verbatim, and as the last units, if and only if
    its micro plan, if it has one, spares the window.
   */
  lemma CompactKeepsRecentExactlyWhen(task: Task, tick: nat)
    requires Compact(task, tick).result.Success?
    ensures RecentKept(task.request.messages, Compact(task, tick).result.value.messages, task.policy.minimumRecentUnits)
       <==> (MicroPlanOf(task).Some? ==>
               SparesRecent(task.request.messages, MicroPlanOf(task).value, task.policy.minimumRecentUnits))
  {
    var messages, recent := task.request.messages, task.policy.minimumRecentUnits;
    match MicroPlanOf(task)
    case None =>
      FullKeepsRecent(task, tick + 1);
    case Some(plan) =>
      var relaxed := !HasCompressibleHistory(messages, recent);
      ProjectionKeepsHistory(messages, relaxed, recent);
      ProjectionSparesExactlyWhen(messages, relaxed, recent);
      ProjectedKeepsRecent(task, plan, tick);
      WindowThroughProjection(messages, Projected(task.request, plan).messages,
                              Compact(task, tick).result.value.messages, recent);
  }

  lemma ProjectedKeepsRecent(task: Task, plan: MicroPlan, tick: nat)
    requires Compact(task, tick).result.Success? && MicroPlanOf(task) == Some(plan)
    ensures RecentKept(Projected(task.request, plan).messages, Compact(task, tick).result.value.messages,
                       task.policy.minimumRecentUnits)
  {
    var projected := Projected(task.request, plan).messages;
    if SavesEnough(task, plan) {
      KeptByProjection(projected, projected, task.policy.minimumRecentUnits);
    } else {
      FullKeepsRecent(ProjectedTask(task, plan), tick + 1);
    }
  }

  /** With at most three recent units and history to compress, every successful compaction keeps them. */
  lemma CompactKeepsThreeRecent(task: Task, tick: nat)
    requires Compact(task, tick).result.Success? && task.policy.minimumRecentUnits <= 3
    requires HasCompressibleHistory(task.request.messages, task.policy.minimumRecentUnits)
    ensures RecentKept(task.request.messages, Compact(task, tick).result.value.messages, task.policy.minimumRecentUnits)
  {
    CompactKeepsRecentExactlyWhen(task, tick);
    if MicroPlanOf(task).Some? {
      ThreeUnitsAreSpared(task.request.messages, task.policy.minimumRecentUnits);
    }
  }
}
