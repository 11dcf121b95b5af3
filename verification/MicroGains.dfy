/** How much a micro compaction lowers the token estimate, and that it leaves nothing to redo. */
module MicroGains {
  import opened Wrappers
  import opened Words
  import opened Text
  import opened Transcript
  import opened Sums
  import opened Rewriting
  import opened Projection
  import opened Micro

  // ----- fixed point and locality -----

  lemma {:induction false} SameShapeStale(messages: seq<Message>, messages': seq<Message>, k: nat, remaining: nat)
    requires SameShape(messages, messages') && k <= |messages| && 1 <= remaining
    ensures StaleFrom(messages', k, remaining) == StaleFrom(messages, k, remaining)
  {
    if k > 0 {
      SameShapeSameIds(messages[k - 1], messages'[k - 1]);
      SameShapeStale(messages, messages', k - 1, remaining);
      if remaining > 1 {
        SameShapeStale(messages, messages', k - 1, remaining - 1);
      }
    }
  }

  lemma NothingLeftInScope(messages: seq<Message>, limit: nat)
    requires limit <= |messages|
    ensures Candidates(CompactTexts(messages, limit), 0, limit) == []
  {
    var after := CompactTexts(messages, limit);
    var found := Candidates(after, 0, limit);
    if found != [] {
      var p := found[0];
      CandidatesAre(after, 0, limit, p);
      CompactedText(messages, limit, p.slot);
      CompactTextsKeepsShape(messages, limit);
      SameShapeSameIds(messages[p.slot.message], after[p.slot.message]);
      CompactedIsStable(TextAt(messages, p.slot));
      assert false;
    }
  }

  /** Planning again after a plan was applied, with the same relaxation, finds nothing. */
  lemma ReplanFindsNothing(messages: seq<Message>, relaxed: bool)
    requires PlanMicro(messages, relaxed).Some?
    ensures PlanMicro(ApplyProjections(messages, PlanMicro(messages, relaxed).value.projections), relaxed)
         == None
  {
    ScopeInRange(messages, relaxed);
    var limit := Scope(messages, relaxed).value;
    PlanCompactsTexts(messages, limit);
    CompactTextsKeepsShape(messages, limit);
    SameShapeStale(messages, CompactTexts(messages, limit), |messages|, STALE_ROUNDS);
    NothingLeftInScope(messages, limit);
  }

  /** Outside tool messages that precede the protected window, a plan changes nothing at all. */
  lemma PlanIsLocal(messages: seq<Message>, relaxed: bool, m: nat)
    requires PlanMicro(messages, relaxed).Some? && m < |messages|
    ensures var after := ApplyProjections(messages, PlanMicro(messages, relaxed).value.projections);
      |after| == |messages| && Shape(after[m]) == Shape(messages[m])
      && (messages[m].role != Tool || Scope(messages, relaxed).value <= m ==> after[m] == messages[m])
  {
    ScopeInRange(messages, relaxed);
    var limit := Scope(messages, relaxed).value;
    PlanCompactsTexts(messages, limit);
    CompactTextsKeepsShape(messages, limit);
    CompactTextsAt(messages, limit, m);
  }

  // ----- the exact token drop -----

  /** Every text fits in memory, as every Rust string does. */
  ghost predicate Allocated(messages: seq<Message>) {
    forall slot | HasText(messages, slot) :: Utf8Len(TextAt(messages, slot)) <= ISIZE_MAX
  }

  lemma ExactTextTokens(text: string)
    requires Utf8Len(text) <= ISIZE_MAX
    ensures TextTokens(text) == (Utf8Len(text) + 3) / 4
  {
  }

  /** With an unsaturated total, the tool result that holds a text is itself not saturated. */
  lemma UnsaturatedResult(messages: seq<Message>, slot: Slot)
    requires HasText(messages, slot) && Tokens(messages) <= U64_MAX
    ensures PartsTokens(messages[slot.message].content[slot.block].content) < U64_MAX
  {
    var message := messages[slot.message];
    TotalAtLeast(messages, slot.message, MessageTokens);
    var wire := WireContent(message);
    assert wire[slot.block] == message.content[slot.block];
    TotalAtLeast(wire, slot.block, BlockTokens);
  }

  lemma SetMessageTextTokens(message: Message, block: nat, part: nat, text: string)
    requires block < |message.content| && message.content[block].ToolResult?
    requires part < |message.content[block].content| && message.content[block].content[part].ResultText?
    requires PartsTokens(message.content[block].content) < U64_MAX
    requires TextTokens(text) <= TextTokens(message.content[block].content[part].text)
    ensures MessageTokens(SetMessageText(message, block, part, text))
            + TextTokens(message.content[block].content[part].text)
         == MessageTokens(message) + TextTokens(text)
  {
    var parts := message.content[block].content;
    TotalUpdate(parts, part, ResultText(text), PartTokens);
    var block' := message.content[block].(content := parts[part := ResultText(text)]);
    var wire := WireContent(message);
    assert WireContent(SetMessageText(message, block, part, text)) == wire[block := block'];
    TotalUpdate(wire, block, block', BlockTokens);
  }

  lemma SetTextTokens(messages: seq<Message>, slot: Slot, text: string)
    requires HasText(messages, slot) && Tokens(messages) <= U64_MAX
    requires TextTokens(text) <= TextTokens(TextAt(messages, slot))
    ensures Tokens(SetText(messages, slot, text)) + TextTokens(TextAt(messages, slot))
         == Tokens(messages) + TextTokens(text)
  {
    UnsaturatedResult(messages, slot);
    var message := messages[slot.message];
    SetMessageTextTokens(message, slot.block, slot.part, text);
    TotalUpdate(messages, slot.message,
                SetMessageText(message, slot.block, slot.part, text), MessageTokens);
  }

  /** Distinct slots, each holding a text that the planner would select and project this way. */
  ghost predicate Planned(messages: seq<Message>, projections: seq<ToolProjection>) {
    Ascending(projections)
    && forall p | p in projections ::
      HasToolText(messages, p.slot) && Eligible(TextAt(messages, p.slot))
      && p.text == Project(TextAt(messages, p.slot))
  }

  /** The first of ascending targets is none of the others. */
  lemma FirstIsApart(projections: seq<ToolProjection>, p: ToolProjection)
    requires projections != [] && Ascending(projections) && p in projections[1..]
    ensures p in projections && p.slot != projections[0].slot
  {
    var rest := projections[1..];
    var k :| 0 <= k < |rest| && rest[k] == p;
    assert Before(projections[0].slot, projections[k + 1].slot);
  }

  lemma ApartUnchanged(messages: seq<Message>, first: ToolProjection, p: ToolProjection)
    requires HasToolText(messages, first.slot) && HasToolText(messages, p.slot) && p.slot != first.slot
    ensures HasToolText(ApplyProjection(messages, first), p.slot)
    ensures TextAt(ApplyProjection(messages, first), p.slot) == TextAt(messages, p.slot)
  {
    SetTextReads(messages, first.slot, first.text);
  }

  lemma PlannedNext(messages: seq<Message>, projections: seq<ToolProjection>)
    requires projections != [] && Planned(messages, projections)
    ensures Planned(ApplyProjection(messages, projections[0]), projections[1..])
    ensures forall p | p in projections[1..] ::
      TextAt(ApplyProjection(messages, projections[0]), p.slot) == TextAt(messages, p.slot)
  {
    var first, rest := projections[0], projections[1..];
    assert first in projections && Ascending(rest);
    forall p | p in rest
      ensures p in projections && HasToolText(ApplyProjection(messages, first), p.slot)
      ensures TextAt(ApplyProjection(messages, first), p.slot) == TextAt(messages, p.slot)
    {
      FirstIsApart(projections, p);
      ApartUnchanged(messages, first, p);
    }
  }

  /** The tokens a projection takes off the text it replaces. */
  function TokenDrop(messages: seq<Message>, p: ToolProjection): int
    requires HasText(messages, p.slot)
  {
    TextTokens(TextAt(messages, p.slot)) - TextTokens(p.text)
  }

  ghost function TotalDrop(messages: seq<Message>, projections: seq<ToolProjection>): int
    requires forall p | p in projections :: HasText(messages, p.slot)
  {
    if projections == [] then 0
    else TokenDrop(messages, projections[0]) + TotalDrop(messages, projections[1..])
  }

  /** The drops are read from the transcript before anything is overwritten. */
  lemma {:induction false} DropsUnaffected(
    messages: seq<Message>, messages': seq<Message>, projections: seq<ToolProjection>)
    requires forall p | p in projections ::
      HasText(messages, p.slot) && HasText(messages', p.slot)
      && TextAt(messages', p.slot) == TextAt(messages, p.slot)
    ensures TotalDrop(messages', projections) == TotalDrop(messages, projections)
  {
    if projections != [] {
      assert projections[0] in projections;
      DropsUnaffected(messages, messages', projections[1..]);
    }
  }

  lemma EligibleDrop(text: string)
    requires Eligible(text) && Utf8Len(text) <= ISIZE_MAX
    ensures var drop := TextTokens(text) - TextTokens(Project(text));
      Saved(text) / 4 <= drop && Saved(text) <= 4 * drop + 3
      && (drop > 0 <==> Saved(text) > (Utf8Len(text) + 3) % 4)
  {
    EligibleShrinks(text);
    ExactTextTokens(text);
    ExactTextTokens(Project(text));
  }

  /** Applying a plan lowers the unbounded estimate by exactly the sum of its token drops. */
  lemma {:induction false} AppliedTokens(messages: seq<Message>, projections: seq<ToolProjection>)
    requires Planned(messages, projections) && Allocated(messages) && Tokens(messages) <= U64_MAX
    ensures Tokens(ApplyProjections(messages, projections)) + TotalDrop(messages, projections)
         == Tokens(messages)
    decreases |projections|
  {
    if projections != [] {
      var first, rest := projections[0], projections[1..];
      assert first in projections;
      var next := ApplyProjection(messages, first);
      EligibleDrop(TextAt(messages, first.slot));
      SetTextTokens(messages, first.slot, first.text);
      PlannedNext(messages, projections);
      StaysAllocated(messages, first);
      AppliedTokens(next, rest);
      forall p | p in rest ensures HasText(messages, p.slot) {
        assert p in projections;
      }
      DropsUnaffected(messages, next, rest);
    }
  }

  lemma StaysAllocated(messages: seq<Message>, p: ToolProjection)
    requires Allocated(messages) && HasText(messages, p.slot)
    requires Eligible(TextAt(messages, p.slot)) && p.text == Project(TextAt(messages, p.slot))
    ensures Allocated(ApplyProjection(messages, p))
  {
    SetTextReads(messages, p.slot, p.text);
    EligibleShrinks(TextAt(messages, p.slot));
  }

  lemma {:induction false} TotalDropSign(messages: seq<Message>, projections: seq<ToolProjection>)
    requires Planned(messages, projections) && Allocated(messages)
    ensures TotalDrop(messages, projections) >= 0
    ensures TotalDrop(messages, projections) > 0 <==>
      exists p | p in projections :: TokenDrop(messages, p) > 0
  {
    if projections != [] {
      var first, rest := projections[0], projections[1..];
      assert first in projections;
      assert forall p :: p in projections <==> p == first || p in rest;
      EligibleDrop(TextAt(messages, first.slot));
      TotalDropSign(messages, rest);
    }
  }

  ghost predicate InPlace(messages: seq<Message>, projections: seq<ToolProjection>) {
    forall p | p in projections :: HasText(messages, p.slot)
  }

  /** The bytes by which the projected texts are shorter than the texts they replace. */
  ghost function SlotsSaved(messages: seq<Message>, projections: seq<ToolProjection>): int
    requires InPlace(messages, projections)
  {
    if projections == [] then 0
    else
      assert projections[0] in projections;
      Utf8Len(TextAt(messages, projections[0].slot)) - Utf8Len(projections[0].text)
      + SlotsSaved(messages, projections[1..])
  }

  /** Each projection loses at most three bytes' worth of saving to rounding. */
  lemma {:induction false} DropCoversSaving(messages: seq<Message>, projections: seq<ToolProjection>)
    requires Planned(messages, projections) && Allocated(messages)
    ensures SlotsSaved(messages, projections)
         <= 4 * TotalDrop(messages, projections) + 3 * |projections|
  {
    if projections != [] {
      assert projections[0] in projections;
      EligibleDrop(TextAt(messages, projections[0].slot));
      DropCoversSaving(messages, projections[1..]);
    }
  }

  lemma {:induction false} SlotsSavedConcat(
    messages: seq<Message>, a: seq<ToolProjection>, b: seq<ToolProjection>)
    requires InPlace(messages, a) && InPlace(messages, b)
    ensures InPlace(messages, a + b)
    ensures SlotsSaved(messages, a + b) == SlotsSaved(messages, a) + SlotsSaved(messages, b)
  {
    if a == [] {
      assert a + b == b;
    } else {
      assert a[0] in a;
      assert (a + b)[1..] == a[1..] + b;
      SlotsSavedConcat(messages, a[1..], b);
    }
  }

  lemma SlotSaved(messages: seq<Message>, p: ToolProjection)
    requires HasText(messages, p.slot)
    ensures SlotsSaved(messages, [p]) == Utf8Len(TextAt(messages, p.slot)) - Utf8Len(p.text)
  {
    assert [p][1..] == [];
  }

  lemma {:induction false} PartsSaved(messages: seq<Message>, m: nat, b: nat, c: nat)
    requires m < |messages| && b < |messages[m].content| && messages[m].content[b].ToolResult?
    requires c <= |messages[m].content[b].content|
    ensures var parts := messages[m].content[b].content;
      InPlace(messages, PartCandidates(parts, m, b, c))
      && SlotsSaved(messages, PartCandidates(parts, m, b, c)) == Total(parts[c..], PartSaved)
    decreases |messages[m].content[b].content| - c
  {
    var parts := messages[m].content[b].content;
    if c < |parts| {
      PartsSaved(messages, m, b, c + 1);
      PartCandidatesNext(parts, m, b, c);
      assert parts[c..][1..] == parts[c + 1..];
      if EligiblePart(parts[c]) {
        var p := ToolProjection(Slot(m, b, c), Project(parts[c].text));
        EligibleShrinks(parts[c].text);
        SlotSaved(messages, p);
        SlotsSavedConcat(messages, [p], PartCandidates(parts, m, b, c + 1));
      } else {
        assert [] + PartCandidates(parts, m, b, c + 1) == PartCandidates(parts, m, b, c + 1);
      }
    }
  }

  lemma {:induction false} BlocksSaved(messages: seq<Message>, m: nat, b: nat)
    requires m < |messages| && b <= |messages[m].content|
    ensures var blocks := messages[m].content;
      InPlace(messages, BlockCandidates(blocks, m, b))
      && SlotsSaved(messages, BlockCandidates(blocks, m, b)) == Total(blocks[b..], BlockSaved)
    decreases |messages[m].content| - b
  {
    var blocks := messages[m].content;
    if b < |blocks| {
      BlocksSaved(messages, m, b + 1);
      BlockCandidatesNext(blocks, m, b);
      assert blocks[b..][1..] == blocks[b + 1..];
      if blocks[b].ToolResult? {
        PartsSaved(messages, m, b, 0);
        assert blocks[b].content[0..] == blocks[b].content;
        SlotsSavedConcat(messages, PartCandidates(blocks[b].content, m, b, 0), BlockCandidates(blocks, m, b + 1));
      } else {
        assert [] + BlockCandidates(blocks, m, b + 1) == BlockCandidates(blocks, m, b + 1);
      }
    }
  }

  lemma {:induction false} MessagesSaved(messages: seq<Message>, m: nat, limit: nat)
    requires m <= limit <= |messages|
    ensures InPlace(messages, Candidates(messages, m, limit))
    ensures SlotsSaved(messages, Candidates(messages, m, limit)) == Total(messages[m..limit], MessageSaved)
    decreases limit - m
  {
    if m < limit {
      MessagesSaved(messages, m + 1, limit);
      CandidatesNext(messages, m, limit);
      assert messages[m..limit][1..] == messages[m + 1..limit];
      if messages[m].role == Tool {
        BlocksSaved(messages, m, 0);
        assert messages[m].content[0..] == messages[m].content;
        SlotsSavedConcat(messages, BlockCandidates(messages[m].content, m, 0), Candidates(messages, m + 1, limit));
      } else {
        assert [] + Candidates(messages, m + 1, limit) == Candidates(messages, m + 1, limit);
      }
    }
  }

  lemma CandidatesPlanned(messages: seq<Message>, limit: nat)
    requires limit <= |messages|
    ensures Planned(messages, Candidates(messages, 0, limit))
  {
    CandidatesAscend(messages, 0, limit);
    forall p | p in Candidates(messages, 0, limit)
      ensures HasToolText(messages, p.slot) && Eligible(TextAt(messages, p.slot))
              && p.text == Project(TextAt(messages, p.slot))
    {
      CandidatesAre(messages, 0, limit, p);
    }
  }

  lemma PlanIsPlanned(messages: seq<Message>, relaxed: bool)
    requires PlanMicro(messages, relaxed).Some?
    ensures Planned(messages, PlanMicro(messages, relaxed).value.projections)
  {
    ScopeInRange(messages, relaxed);
    CandidatesPlanned(messages, Scope(messages, relaxed).value);
  }

  /** The announced saving is a quarter, rounded down, of the bytes by which the planned texts get shorter. */
  lemma SavedTokensAre(messages: seq<Message>, relaxed: bool)
    requires PlanMicro(messages, relaxed).Some?
    ensures var plan := PlanMicro(messages, relaxed).value;
      InPlace(messages, plan.projections)
      && plan.savedTokens == Min(SlotsSaved(messages, plan.projections), U64_MAX) / 4
  {
    ScopeInRange(messages, relaxed);
    var limit := Scope(messages, relaxed).value;
    MessagesSaved(messages, 0, limit);
    assert messages[0..limit] == messages[..limit];
  }

  /**
    The estimate falls by at least the announced saving less three quarters of a token for each
    projection, and it never rises.
   */
  lemma MicroReduction(messages: seq<Message>, relaxed: bool)
    requires PlanMicro(messages, relaxed).Some? && Allocated(messages) && Tokens(messages) <= U64_MAX
    ensures var plan := PlanMicro(messages, relaxed).value;
      var after := ApplyProjections(messages, plan.projections);
      Tokens(after) <= Tokens(messages)
      && Tokens(after) + plan.savedTokens <= Tokens(messages) + 3 * |plan.projections| / 4
  {
    ScopeInRange(messages, relaxed);
    var limit := Scope(messages, relaxed).value;
    var projections := Candidates(messages, 0, limit);
    CandidatesPlanned(messages, limit);
    AppliedTokens(messages, projections);
    TotalDropSign(messages, projections);
    DropCoversSaving(messages, projections);
    MessagesSaved(messages, 0, limit);
    assert messages[0..limit] == messages[..limit];
  }

  /** A projection that saves more bytes than the last, partly filled token of its text holds. */
  predicate SavesAToken(messages: seq<Message>, p: ToolProjection) {
    HasText(messages, p.slot)
    && Utf8Len(TextAt(messages, p.slot)) - Utf8Len(p.text) > (Utf8Len(TextAt(messages, p.slot)) + 3) % 4
  }

  lemma SavesATokenIsDrop(messages: seq<Message>, p: ToolProjection)
    requires HasText(messages, p.slot) && Allocated(messages)
    requires Eligible(TextAt(messages, p.slot)) && p.text == Project(TextAt(messages, p.slot))
    ensures SavesAToken(messages, p) <==> TokenDrop(messages, p) > 0
  {
    EligibleShrinks(TextAt(messages, p.slot));
    EligibleDrop(TextAt(messages, p.slot));
  }

  /** When a micro record forms a real reduction: exactly when one selected text saves a token. */
  lemma MicroReducesExactlyWhen(messages: seq<Message>, relaxed: bool)
    requires PlanMicro(messages, relaxed).Some? && Allocated(messages) && Tokens(messages) <= U64_MAX
    ensures var projections := PlanMicro(messages, relaxed).value.projections;
      Tokens(ApplyProjections(messages, projections)) < Tokens(messages)
      <==> exists p | p in projections :: SavesAToken(messages, p)
  {
    PlanIsPlanned(messages, relaxed);
    var projections := PlanMicro(messages, relaxed).value.projections;
    AppliedTokens(messages, projections);
    TotalDropSign(messages, projections);
    forall p | p in projections ensures SavesAToken(messages, p) <==> TokenDrop(messages, p) > 0 {
      SavesATokenIsDrop(messages, p);
    }
  }

  /** Four bytes saved at one place are always enough. */
  lemma FourBytesReduce(messages: seq<Message>, relaxed: bool, p: ToolProjection)
    requires PlanMicro(messages, relaxed).Some? && Allocated(messages) && Tokens(messages) <= U64_MAX
    requires p in PlanMicro(messages, relaxed).value.projections
    requires HasText(messages, p.slot) && Utf8Len(TextAt(messages, p.slot)) >= Utf8Len(p.text) + 4
    ensures Tokens(ApplyProjections(messages, PlanMicro(messages, relaxed).value.projections))
          < Tokens(messages)
  {
    MicroReducesExactlyWhen(messages, relaxed);
    assert SavesAToken(messages, p);
  }

  /** A selected text that saves nothing in tokens: 532 one-byte characters become 531. */
  lemma AsciiOf532SavesNoToken(text: string)
    requires |text| == 532 && !Contains(text, SENTINEL)
    requires forall i | 0 <= i < |text| :: CharWidth(text[i]) == 1
    ensures Eligible(text) && Saved(text) == 1
    ensures TextTokens(Project(text)) == TextTokens(text)
  {
    AsciiGainsFrom532(text);
    Utf8LenUniform(text, 1);
    EligibleDrop(text);
  }

  /** One tool result followed by three rounds, so that the result is no longer protected. */
  function OldResult(text: string): seq<Message> {
    [Message(false, "", Tool, [ToolResult("call", [ResultText(text)], false)]),
     TextMessage(Assistant, "a"), TextMessage(Assistant, "b"), TextMessage(Assistant, "c")]
  }

  /** The planner accepts a transcript whose projection leaves the estimate where it was. */
  lemma PlanWithoutReduction(text: string)
    requires |text| == 532 && !Contains(text, SENTINEL)
    requires forall i | 0 <= i < |text| :: CharWidth(text[i]) == 1
    ensures PlanMicro(OldResult(text), false).Some?
    ensures var messages := OldResult(text);
      Tokens(ApplyProjections(messages, PlanMicro(messages, false).value.projections)) == Tokens(messages)
  {
    var messages := OldResult(text);
    AsciiOf532SavesNoToken(text);
    Utf8LenUniform(text, 1);
    OldResultWindow(text);
    var p := ToolProjection(Slot(0, 0, 0), Project(text));
    CandidatesAre(messages, 0, 1, p);
    assert Candidates(messages, 0, 1) != [];
    assert PlanMicro(messages, false).Some?;
    OldResultTokens(text);
    forall slot | HasText(messages, slot) ensures Utf8Len(TextAt(messages, slot)) <= ISIZE_MAX {
      assert slot == Slot(0, 0, 0);
    }
    MicroReduction(messages, false);
    MicroReducesExactlyWhen(messages, false);
    forall q | q in PlanMicro(messages, false).value.projections ensures !SavesAToken(messages, q) {
      CandidatesAre(messages, 0, 1, q);
      assert q == p;
      SavesATokenIsDrop(messages, p);
    }
  }

  lemma OldResultWindow(text: string)
    ensures StaleWindowStart(OldResult(text)) == Some(1)
  {
    var messages := OldResult(text);
    assert messages[1].role == messages[2].role == messages[3].role == Assistant;
    assert StaleFrom(messages, 2, 1) == Some(1);
    assert StaleFrom(messages, 3, 2) == Some(1);
  }

  lemma OldResultTokens(text: string)
    requires Utf8Len(text) <= ISIZE_MAX
    ensures Tokens(OldResult(text)) <= ISIZE_MAX + 19
  {
    var messages := OldResult(text);
    ResultTokens(text);
    ShortTextTokens("a");
    ShortTextTokens("b");
    ShortTextTokens("c");
    TotalOf3(messages[1], messages[2], messages[3], MessageTokens);
    assert messages == [messages[0]] + [messages[1], messages[2], messages[3]];
    TotalConcat([messages[0]], [messages[1], messages[2], messages[3]], MessageTokens);
    TotalOne(messages[0], MessageTokens);
  }

  lemma ResultTokens(text: string)
    requires Utf8Len(text) <= ISIZE_MAX
    ensures MessageTokens(OldResult(text)[0]) <= 4 + ISIZE_MAX
  {
    var message := OldResult(text)[0];
    assert WireContent(message) == message.content == [message.content[0]];
    TotalOne(message.content[0], BlockTokens);
    TotalOne(ResultText(text), PartTokens);
    ExactTextTokens(text);
  }

  lemma TotalOf3<T>(a: T, b: T, c: T, weight: T -> nat)
    ensures Total([a, b, c], weight) == weight(a) + weight(b) + weight(c)
  {
    assert [a, b, c] == [a] + [b] + [c];
    TotalConcat([a] + [b], [c], weight);
    TotalConcat([a], [b], weight);
    TotalOne(a, weight);
    TotalOne(b, weight);
    TotalOne(c, weight);
  }

  lemma ShortTextTokens(text: string)
    requires |text| == 1
    ensures MessageTokens(TextMessage(Assistant, text)) <= 5
  {
    assert Utf8Len(text) == CharWidth(text[0]) + Utf8Len(text[1..]);
    assert text[1..] == "";
    ExactTextTokens(text);
    assert WireContent(TextMessage(Assistant, text)) == [TextBlock(text)];
    TotalOne(TextBlock(text), BlockTokens);
  }
}
