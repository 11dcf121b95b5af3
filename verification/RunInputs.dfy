/** Runs and transcripts at which a promise about a whole session or compaction fails. */
module RunInputs {
  import opened Wrappers
  import opened Words
  import opened Text
  import opened Transcript
  import opened Sums
  import opened Units
  import opened Rewriting
  import opened Projection
  import opened Micro
  import opened MicroGains
  import opened Errors
  import opened Planning
  import opened Budget
  import opened Summarizer
  import opened Mechanical
  import opened Compacting
  import opened CompactingLaws
  import opened RecentWindow
  import opened Sessions
  import opened Recovery
  import opened Inputs

  ghost predicate Ascii(text: string) {
    forall i | 0 <= i < |text| :: CharWidth(text[i]) == 1
  }

  // ----- a run that ends with its journal ahead -----

  /** The program cancels the Turn between the projection and the summary. */
  function CancelledAtOne(reply: Reply): World {
    World((tick: nat) => tick == 1, (tick: nat, request: SummaryRequest) => reply)
  }

  function Interrupted(reply: Reply): Sessions.Step {
    CompactWith(Request("model", [], [], None, None), CancelledAtOne(reply), Trigger.Budget, 0, None, 0, DELIVERED)
  }

  lemma OldResultSaved(text: string)
    requires |text| == 533 && Ascii(text) && !Contains(text, SENTINEL)
    ensures Eligible(text) && Saved(text) == 2 && Utf8Len(text) == 533 && Utf8Len(Project(text)) == 531
    ensures SavedBytes(OldResult(text), 1) == 2
  {
    Utf8LenUniform(text, 1);
    Utf8LenUniform(text[HEAD_CHARS..|text| - TAIL_CHARS], 1);
    SavedIsOmittedLessMarker(text);
    DecimalLength(83);
    var message := OldResult(text)[0];
    assert OldResult(text)[..1] == [message] && message.content == [message.content[0]];
    TotalOne(message, MessageSaved);
    TotalOne(message.content[0], BlockSaved);
    TotalOne(ResultText(text), PartSaved);
  }

  /** The plan for one old result: one projection, which saves a token but no whole one for certain. */
  lemma OldResultPlan(text: string)
    requires |text| == 533 && Ascii(text) && !Contains(text, SENTINEL)
    ensures PlanMicro(OldResult(text), false).Some?
    ensures PlanMicro(OldResult(text), false).value.savedTokens == 0
    ensures SavesSomewhere(OldResult(text), PlanMicro(OldResult(text), false).value)
  {
    var messages := OldResult(text);
    OldResultSaved(text);
    OldResultWindow(text);
    var p := ToolProjection(Slot(0, 0, 0), Project(text));
    CandidatesAre(messages, 0, 1, p);
    assert p in Candidates(messages, 0, 1);
    assert SavesAToken(messages, p);
  }

  lemma OldResultIsSmall(text: string)
    requires |text| == 533 && Ascii(text)
    ensures Allocated(OldResult(text)) && Tokens(OldResult(text)) <= ISIZE_MAX + 19
  {
    Utf8LenUniform(text, 1);
    OldResultTokens(text);
    forall slot | HasText(OldResult(text), slot) ensures Utf8Len(TextAt(OldResult(text), slot)) <= ISIZE_MAX {
    }
  }

  function InterruptedTask(text: string, reply: Reply): Task {
    TaskOf(PORTS, POLICY, Opened(OldResult(text)).turn, Interrupted(reply))
  }

  lemma InterruptedProjects(text: string, reply: Reply)
    requires |text| == 533 && Ascii(text) && !Contains(text, SENTINEL)
    ensures ProjectsFirst(InterruptedTask(text, reply), 0)
  {
    var task := InterruptedTask(text, reply);
    OldResultPlan(text);
    OldResultIsCompressible(text);
    OldResultIsSmall(text);
    RecordBuiltExactlyWhen(PORTS, Trigger.Budget, task.request, false);
  }

  /** Any run of a single compaction that is cancelled right after its projection. */
  lemma OneStepDiverges(ports: Ports, policy: Policy, base: seq<Message>, step: Sessions.Step, task: Task)
    requires step.CompactWith? && step.delivery.stored >= 1 && task == TaskOf(ports, policy, Opened(base).turn, step)
    requires ProjectsFirst(task, step.tick) && task.world.cancelled(step.tick + 1)
    ensures RunAhead(ports, policy, Opened(base), [step])
    ensures var turn := Sessions.Run(ports, policy, Opened(base), [step]).turn;
      turn.live == base
      && Recover(ports, Journal(turn), base).Success? && Recover(ports, Journal(turn), base).value != base
  {
    CancelledAfterProjection(task, step.tick);
    CancelledRunRecovers(ports, policy, base, Opened(base), step, task);
    assert [step][1..] == [];
    assert Sessions.Run(ports, policy, Opened(base), [step]) == Advance(ports, policy, Opened(base), step);
  }

  /**
    One old tool result of 533 one-byte characters, and a Turn cancelled between the projection and the
    summary: the run ends with its journal ahead, so that recovery does not give the live transcript.
   */
  lemma CancelledRunDiverges(text: string, reply: Reply)
    requires |text| == 533 && Ascii(text) && !Contains(text, SENTINEL)
    ensures RunAhead(PORTS, POLICY, Opened(OldResult(text)), [Interrupted(reply)])
    ensures var turn := Sessions.Run(PORTS, POLICY, Opened(OldResult(text)), [Interrupted(reply)]).turn;
      turn.live == OldResult(text)
      && Recover(PORTS, Journal(turn), OldResult(text)).Success?
      && Recover(PORTS, Journal(turn), OldResult(text)).value != turn.live
  {
    InterruptedProjects(text, reply);
    OneStepDiverges(PORTS, POLICY, OldResult(text), Interrupted(reply), InterruptedTask(text, reply));
  }

  // ----- four recent units -----

  /** A call and its result. */
  function Round(text: string): seq<Message> {
    [Message(false, "", Assistant, [ToolCall("call", "tool", Arguments("{}", None, None, None))]),
     Message(false, "", Tool, [ToolResult("call", [ResultText(text)], false)])]
  }

  /** Five exchanges; the second is the first of four recent units and the last before three rounds. */
  function FiveRounds(text: string): seq<Message> {
    Round("a") + Round(text) + Round("b") + Round("c") + Round("d")
  }

  lemma RoundIsUnit(messages: seq<Message>, i: nat, text: string)
    requires i + 2 <= |messages| && messages[i..i + 2] == Round(text)
    requires i + 2 == |messages| || messages[i + 2].role == Assistant
    ensures UnitAt(messages, i) == Unit(i, i + 2, false)
  {
    assert messages[i] == messages[i..i + 2][0] && messages[i + 1] == messages[i..i + 2][1];
    var calls := messages[i].content;
    assert calls[1..] == [] && BlockCallIds([]) == [] && CallIds(messages[i]) == ["call"];
    assert ToolRunEnd(messages, i + 2) == i + 2 && ToolRunEnd(messages, i + 1) == i + 2;
    assert messages[i + 1].content[1..] == [] && BlockResultIds(messages[i + 1].content) == ["call"];
    assert ResultIds(messages, i + 1, i + 1) == [] && ResultIds(messages, i + 1, i + 2) == ["call"];
  }

  lemma FiveRoundUnit(text: string, k: nat)
    requires k < 5
    ensures UnitAt(FiveRounds(text), 2 * k) == Unit(2 * k, 2 * k + 2, false)
  {
    var messages := FiveRounds(text);
    var texts := ["a", text, "b", "c", "d"];
    assert messages[2 * k..2 * k + 2] == Round(texts[k]);
    RoundIsUnit(messages, 2 * k, texts[k]);
  }

  /** A transcript in which every second message opens a closed exchange of two. */
  ghost predicate AllRounds(messages: seq<Message>) {
    |messages| % 2 == 0
    && forall k: nat | 2 * k < |messages| :: UnitAt(messages, 2 * k) == Unit(2 * k, 2 * k + 2, false)
  }

  lemma {:induction false} RoundUnits(messages: seq<Message>, k: nat)
    requires AllRounds(messages) && 2 * k <= |messages|
    ensures var units := UnitsFrom(messages, 2 * k);
      |units| == |messages| / 2 - k
      && forall j | 0 <= j < |units| :: units[j] == Unit(2 * (k + j), 2 * (k + j) + 2, false)
    decreases |messages| - k
  {
    if 2 * k < |messages| {
      RoundUnits(messages, k + 1);
      var rest := UnitsFrom(messages, 2 * (k + 1));
      assert UnitsFrom(messages, 2 * k) == [Unit(2 * k, 2 * k + 2, false)] + rest;
    }
  }

  lemma FiveRoundUnits(text: string)
    ensures var units := TranscriptUnits(FiveRounds(text));
      |units| == 5 && forall j | 0 <= j < 5 :: units[j] == Unit(2 * j, 2 * j + 2, false)
  {
    forall k: nat | 2 * k < |FiveRounds(text)|
      ensures UnitAt(FiveRounds(text), 2 * k) == Unit(2 * k, 2 * k + 2, false)
    {
      FiveRoundUnit(text, k);
    }
    RoundUnits(FiveRounds(text), 0);
  }

  lemma FiveRoundWindow(text: string)
    ensures StaleWindowStart(FiveRounds(text)) == Some(4)
  {
    var messages := FiveRounds(text);
    assert messages[9].role == messages[7].role == messages[5].role == Tool;
    assert messages[8].role == messages[6].role == messages[4].role == Assistant;
    assert StaleFrom(messages, 5, 1) == Some(4);
    assert StaleFrom(messages, 7, 2) == Some(4);
    assert StaleFrom(messages, 9, 3) == Some(4);
  }

  /** The text of the second exchange is planned although it lies in the recent window. */
  lemma FourthUnitIsNotSpared(text: string)
    requires Eligible(text)
    ensures HasCompressibleHistory(FiveRounds(text), 4) && PlanMicro(FiveRounds(text), false).Some?
    ensures var plan := PlanMicro(FiveRounds(text), false).value;
      ToolProjection(Slot(3, 0, 0), Project(text)) in plan.projections && !SparesRecent(FiveRounds(text), plan, 4)
  {
    var messages := FiveRounds(text);
    FiveRoundUnits(text);
    FiveRoundWindow(text);
    assert !TranscriptUnits(messages)[0].protected;
    var p := ToolProjection(Slot(3, 0, 0), Project(text));
    CandidatesAre(messages, 0, 4, p);
    assert p in Candidates(messages, 0, 4);
    assert RecentStart(messages, 4) == 2;
  }

  /** With four recent units no successful compaction of this transcript keeps them all verbatim. */
  lemma FourRecentAreNotKept(task: Task, tick: nat, text: string)
    requires Eligible(text) && task.request.messages == FiveRounds(text) && task.policy.minimumRecentUnits == 4
    requires Compact(task, tick).result.Success?
    ensures !RecentKept(task.request.messages, Compact(task, tick).result.value.messages, 4)
  {
    FourthUnitIsNotSpared(text);
    CompactKeepsRecentExactlyWhen(task, tick);
  }

  lemma SixHundredSaved(text: string)
    requires |text| == 600 && Ascii(text) && !Contains(text, SENTINEL)
    ensures Eligible(text) && Saved(text) == 68 && Utf8Len(text) == 600 && Utf8Len(Project(text)) == 532
  {
    Utf8LenUniform(text, 1);
    Utf8LenUniform(text[HEAD_CHARS..|text| - TAIL_CHARS], 1);
    SavedIsOmittedLessMarker(text);
    DecimalLength(15);
    assert Decimal(150) == Decimal(15) + [Digit(0)];
  }

  lemma RoundTokens(text: string, m: Message)
    requires |text| <= 1_000 && Ascii(text) && m in Round(text)
    ensures MessageTokens(m) <= 1_000
  {
    Utf8LenUniform(text, 1);
    Utf8LenUniform("tool", 1);
    Utf8LenUniform("{}", 1);
    assert WireContent(m) == m.content == [m.content[0]];
    TotalOne(m.content[0], BlockTokens);
    TotalOne(ResultText(text), PartTokens);
  }

  lemma RoundIsSmall(text: string)
    requires |text| <= 1_000 && Ascii(text)
    ensures Tokens(Round(text)) <= 2_000
  {
    forall m | m in Round(text) ensures MessageTokens(m) <= 1_000 {
      RoundTokens(text, m);
    }
    TotalAtMost(Round(text), MessageTokens, 1_000);
  }

  lemma FiveTotals<T>(a: seq<T>, b: seq<T>, c: seq<T>, d: seq<T>, e: seq<T>, weight: T -> nat)
    ensures Total(a + b + c + d + e, weight)
         == Total(a, weight) + Total(b, weight) + Total(c, weight) + Total(d, weight) + Total(e, weight)
  {
    TotalConcat(a + b + c + d, e, weight);
    TotalConcat(a + b + c, d, weight);
    TotalConcat(a + b, c, weight);
    TotalConcat(a, b, weight);
  }

  lemma FiveRoundsAreSmall(text: string)
    requires |text| == 600 && Ascii(text)
    ensures Tokens(FiveRounds(text)) <= 10_000
  {
    RoundIsSmall("a");
    RoundIsSmall(text);
    RoundIsSmall("b");
    RoundIsSmall("c");
    RoundIsSmall("d");
    FiveTotals(Round("a"), Round(text), Round("b"), Round("c"), Round("d"), MessageTokens);
  }

  lemma FiveRoundTexts(text: string, slot: Slot)
    requires HasText(FiveRounds(text), slot)
    ensures var short := TextAt(FiveRounds(text), slot); (|short| == 1 && Ascii(short)) || short == text
  {
  }

  lemma FiveRoundsAreAllocated(text: string)
    requires |text| == 600 && Ascii(text)
    ensures Allocated(FiveRounds(text))
  {
    forall slot | HasText(FiveRounds(text), slot) ensures Utf8Len(TextAt(FiveRounds(text), slot)) <= ISIZE_MAX {
      FiveRoundTexts(text, slot);
      Utf8LenUniform(TextAt(FiveRounds(text), slot), 1);
    }
  }

  /** A valid policy with four recent units, and a target that is met already. */
  function FourRecentTask(text: string, reply: Reply): Task {
    TaskFor(FiveRounds(text), reply).(
      policy := POLICY.(minimumRecentUnits := 4, summaryMaxOutputTokens := 1), target := U64_MAX)
  }

  lemma SecondRoundSaves(text: string)
    requires |text| == 600 && Ascii(text) && !Contains(text, SENTINEL)
    ensures SavedBytes(FiveRounds(text), 4) >= 68
  {
    var message := FiveRounds(text)[3];
    SixHundredSaved(text);
    TotalAtLeast(FiveRounds(text)[..4], 3, MessageSaved);
    assert message.content == [message.content[0]];
    TotalOne(message.content[0], BlockSaved);
    TotalOne(ResultText(text), PartSaved);
  }

  lemma SecondRoundPlan(text: string)
    requires |text| == 600 && Ascii(text) && !Contains(text, SENTINEL)
    ensures PlanMicro(FiveRounds(text), false).Some?
    ensures var plan := PlanMicro(FiveRounds(text), false).value;
      plan.savedTokens >= 1 && SavesSomewhere(FiveRounds(text), plan)
  {
    SixHundredSaved(text);
    FourthUnitIsNotSpared(text);
    FiveRoundWindow(text);
    SecondRoundSaves(text);
    assert SavesAToken(FiveRounds(text), ToolProjection(Slot(3, 0, 0), Project(text)));
  }

  /**
    Five exchanges of which the second has a result of 600 one-byte characters: compacting with four
    recent units succeeds by projecting that result, which is one of the four.
   */
  lemma FourRecentAreLost(text: string, reply: Reply, tick: nat)
    requires |text| == 600 && Ascii(text) && !Contains(text, SENTINEL)
    ensures ValidPolicy(FourRecentTask(text, reply).policy)
    ensures Compact(FourRecentTask(text, reply), tick).result.Success?
    ensures !RecentKept(FiveRounds(text), Compact(FourRecentTask(text, reply), tick).result.value.messages, 4)
  {
    var task := FourRecentTask(text, reply);
    SixHundredSaved(text);
    FourthUnitIsNotSpared(text);
    SecondRoundPlan(text);
    FiveRoundsAreSmall(text);
    FiveRoundsAreAllocated(text);
    RecordBuiltExactlyWhen(PORTS, Trigger.Budget, task.request, false);
    FourRecentAreNotKept(task, tick, text);
  }
}
