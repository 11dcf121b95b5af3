/** What an abridged tool result still shows of its text, and that nothing else of a transcript changes. */
module Abridging {
  import opened Words
  import opened Text
  import opened Transcript
  import opened Rewriting
  import opened Projection
  import opened Micro
  import opened Chunking

  // ----- one text -----

  predicate IsDigit(c: char) {
    '0' <= c <= '9'
  }

  /** The number that the leading digits of a text denote, after digits that denote `before`. */
  function ReadNumber(text: string, before: nat): nat {
    if text != "" && IsDigit(text[0])
    then ReadNumber(text[1..], 10 * before + (text[0] as int - '0' as int)) else before
  }

  /** Reading what was written as a decimal gives the number back. */
  lemma {:induction false} DecimalReads(n: nat, rest: string)
    ensures ReadNumber(Decimal(n) + rest, 0) == ReadNumber(rest, n)
  {
    var last := [Digit(n % 10)];
    if n < 10 {
      assert (last + rest)[1..] == rest;
    } else {
      assert Decimal(n) + rest == Decimal(n / 10) + (last + rest);
      DecimalReads(n / 10, last + rest);
      assert (last + rest)[1..] == rest;
    }
  }

  predicate EndsWith(text: string, end: string) {
    |end| <= |text| && text[|text| - |end|..] == end
  }

  /**
    `short` begins with the first `head` characters of `text` and ends with its last `tail`; between
    them stands the marker, and the number read from it is that of the characters left out.
   */
  ghost predicate Abridges(short: string, text: string, head: nat, tail: nat) {
    head + tail <= |text| && text[..head] <= short && EndsWith(short, text[|text| - tail..])
    && head + tail <= |short|
    && var between := short[head..|short| - tail];
      SENTINEL <= between && EndsWith(between, MARKER_REST)
      && ReadNumber(between[|SENTINEL|..], 0) == |text| - head - tail
  }

  lemma MarkerReads(omitted: nat)
    ensures SENTINEL <= Marker(omitted) && EndsWith(Marker(omitted), MARKER_REST)
    ensures ReadNumber(Marker(omitted)[|SENTINEL|..], 0) == omitted
  {
    assert Marker(omitted) == SENTINEL + (Decimal(omitted) + MARKER_REST);
    assert Marker(omitted)[|SENTINEL|..] == Decimal(omitted) + MARKER_REST;
    DecimalReads(omitted, MARKER_REST);
    assert MARKER_REST[0] == ' ';
  }

  lemma ShortenAbridges(text: string, head: nat, tail: nat)
    requires head + tail <= |text|
    ensures Abridges(Shorten(text, head, tail), text, head, tail)
  {
    var short, marker := Shorten(text, head, tail), Marker(|text| - head - tail);
    MarkerReads(|text| - head - tail);
    assert short[..head] == text[..head];
    assert short[head..|short| - tail] == marker;
  }

  /** Head, tail and count leave no doubt about the rest: what was cut out is all that is lost. */
  lemma AbridgedAgree(short: string, text: string, other: string, head: nat, tail: nat)
    requires Abridges(short, text, head, tail) && Abridges(short, other, head, tail)
    ensures |other| == |text| && other[..head] == text[..head] && other[|other| - tail..] == text[|text| - tail..]
  {
    assert short[..head] == text[..head] && short[..head] == other[..head];
    assert |text[|text| - tail..]| == tail && |other[|other| - tail..]| == tail;
  }

  // ----- a plan and the transcript it rewrites -----

  /** A text the planner cuts: long, not cut before, and its middle longer than the marker that replaces it. */
  predicate WorthCutting(text: string) {
    |text| > 500 && !Contains(text, SENTINEL)
    && Utf8Len(text[350..|text| - 100]) > 79 + |Decimal(|text| - 450)|
  }

  lemma EligibleIsWorthCutting(text: string)
    ensures Eligible(text) <==> WorthCutting(text)
    ensures Eligible(text) ==> Abridges(Project(text), text, 350, 100) && Utf8Len(Project(text)) < Utf8Len(text)
  {
    if |text| > 500 {
      SavedIsOmittedLessMarker(text);
      ShortenAbridges(text, 350, 100);
      if Eligible(text) {
        EligibleShrinks(text);
      }
    }
  }

  /** A message before the last three assistant messages; any message once the rounds are given up. */
  predicate InScope(messages: seq<Message>, relaxed: bool, m: nat) {
    m < |messages| && (relaxed || Assistants(messages, m + 1, |messages|) >= 3)
  }

  lemma {:induction false} AssistantsFrom(messages: seq<Message>, i: nat, j: nat, k: nat)
    requires i <= j <= k <= |messages|
    ensures Assistants(messages, i, k) == Assistants(messages, i, j) + Assistants(messages, j, k)
    decreases k - j
  {
    if j < k {
      AssistantsFrom(messages, i, j, k - 1);
    }
  }

  lemma InScopeExactlyWhen(messages: seq<Message>, relaxed: bool, m: nat)
    requires m < |messages|
    ensures InScope(messages, relaxed, m) <==> Scope(messages, relaxed).Some? && m < Scope(messages, relaxed).value
  {
    StaleWindowIsThreeRounds(messages);
    if !relaxed {
      match StaleWindowStart(messages)
      case None =>
        AssistantsFrom(messages, 0, m + 1, |messages|);
      case Some(start) =>
        if m < start {
          AssistantsFrom(messages, m + 1, start, |messages|);
        } else {
          AssistantsFrom(messages, start, m + 1, |messages|);
          AssistantsFrom(messages, start, start + 1, m + 1);
          assert Assistants(messages, start, start) == 0;
        }
    }
  }

  /** A text that a projection of the transcript must cut. */
  ghost predicate CutAt(messages: seq<Message>, relaxed: bool, slot: Slot) {
    HasToolText(messages, slot) && InScope(messages, relaxed, slot.message) && WorthCutting(TextAt(messages, slot))
  }

  /** `after` is `messages` with every text in scope that is worth it abridged, and nothing else changed. */
  ghost predicate CutsTexts(messages: seq<Message>, after: seq<Message>, relaxed: bool) {
    SameShape(messages, after)
    && forall slot | HasText(messages, slot) ::
      HasText(after, slot)
      && if CutAt(messages, relaxed, slot)
         then Abridges(TextAt(after, slot), TextAt(messages, slot), 350, 100)
              && Utf8Len(TextAt(after, slot)) < Utf8Len(TextAt(messages, slot))
         else TextAt(after, slot) == TextAt(messages, slot)
  }

  lemma CutExactlyWhen(messages: seq<Message>, relaxed: bool, slot: Slot)
    ensures CutAt(messages, relaxed, slot) <==>
      HasToolText(messages, slot) && Eligible(TextAt(messages, slot))
      && Scope(messages, relaxed).Some? && slot.message < Scope(messages, relaxed).value
  {
    if HasToolText(messages, slot) {
      InScopeExactlyWhen(messages, relaxed, slot.message);
      EligibleIsWorthCutting(TextAt(messages, slot));
    }
  }

  /**
    Each planned projection addresses a text in scope that is worth cutting, and abridges it; and each
    such text is addressed.
   */
  lemma PlanAbridges(messages: seq<Message>, relaxed: bool, p: ToolProjection)
    ensures PlanMicro(messages, relaxed).Some? && p in PlanMicro(messages, relaxed).value.projections ==>
      CutAt(messages, relaxed, p.slot) && Abridges(p.text, TextAt(messages, p.slot), 350, 100)
    ensures CutAt(messages, relaxed, p.slot) ==>
      PlanMicro(messages, relaxed).Some? && Targets(PlanMicro(messages, relaxed).value.projections, p.slot)
  {
    ScopeInRange(messages, relaxed);
    CutExactlyWhen(messages, relaxed, p.slot);
    if Scope(messages, relaxed).Some? {
      var limit := Scope(messages, relaxed).value;
      CandidatesAre(messages, 0, limit, p);
      if p in Candidates(messages, 0, limit) {
        EligibleIsWorthCutting(TextAt(messages, p.slot));
      }
      if CutAt(messages, relaxed, p.slot) {
        CandidateAtSlot(messages, limit, p.slot);
      }
    }
  }

  lemma AppliedCut(messages: seq<Message>, relaxed: bool, slot: Slot)
    requires PlanMicro(messages, relaxed).Some? && HasText(messages, slot)
    ensures var after := ApplyProjections(messages, PlanMicro(messages, relaxed).value.projections);
      HasText(after, slot)
      && TextAt(after, slot) == if CutAt(messages, relaxed, slot) then Project(TextAt(messages, slot))
                                else TextAt(messages, slot)
  {
    ScopeInRange(messages, relaxed);
    var limit := Scope(messages, relaxed).value;
    CutExactlyWhen(messages, relaxed, slot);
    CandidatesCompact(messages, limit);
    AppliedText(messages, Candidates(messages, 0, limit), slot);
    CandidateAtSlot(messages, limit, slot);
  }

  /** Applying a plan abridges every text in scope that is worth it, and changes nothing else. */
  lemma PlanCutsTexts(messages: seq<Message>, relaxed: bool)
    requires PlanMicro(messages, relaxed).Some?
    ensures CutsTexts(messages, ApplyProjections(messages, PlanMicro(messages, relaxed).value.projections), relaxed)
  {
    ScopeInRange(messages, relaxed);
    CandidatesCompact(messages, Scope(messages, relaxed).value);
    AppliedKeepsShape(messages, PlanMicro(messages, relaxed).value.projections);
    forall slot | HasText(messages, slot)
      ensures var after := ApplyProjections(messages, PlanMicro(messages, relaxed).value.projections);
        HasText(after, slot)
        && if CutAt(messages, relaxed, slot)
           then Abridges(TextAt(after, slot), TextAt(messages, slot), 350, 100)
                && Utf8Len(TextAt(after, slot)) < Utf8Len(TextAt(messages, slot))
           else TextAt(after, slot) == TextAt(messages, slot)
    {
      AppliedCut(messages, relaxed, slot);
      CutExactlyWhen(messages, relaxed, slot);
      EligibleIsWorthCutting(TextAt(messages, slot));
    }
  }

  /** There is a plan exactly when some text in scope is worth cutting. */
  lemma PlanExactlyWhen(messages: seq<Message>, relaxed: bool)
    ensures PlanMicro(messages, relaxed).Some? <==> exists slot :: CutAt(messages, relaxed, slot)
  {
    ScopeInRange(messages, relaxed);
    if PlanMicro(messages, relaxed).Some? {
      PlanAbridges(messages, relaxed, PlanMicro(messages, relaxed).value.projections[0]);
    }
    if slot :| CutAt(messages, relaxed, slot) {
      PlanAbridges(messages, relaxed, ToolProjection(slot, ""));
    }
  }

  /** Without a plan the transcript is its own projection. */
  lemma NothingToCut(messages: seq<Message>, relaxed: bool)
    requires PlanMicro(messages, relaxed).None?
    ensures CutsTexts(messages, messages, relaxed)
  {
    PlanExactlyWhen(messages, relaxed);
  }

  // ----- the forced projection of a single unit -----

  /** A text that forcing cuts to `keep` characters at either end. */
  predicate ForcedAt(messages: seq<Message>, keep: nat, slot: Slot) {
    HasToolText(messages, slot) && |TextAt(messages, slot)| > 2 * keep + 16
    && !Contains(TextAt(messages, slot), SENTINEL)
  }

  ghost predicate ForcesTexts(messages: seq<Message>, after: seq<Message>, keep: nat) {
    SameShape(messages, after)
    && forall slot | HasText(messages, slot) ::
      HasText(after, slot)
      && if ForcedAt(messages, keep, slot)
         then Abridges(TextAt(after, slot), TextAt(messages, slot), keep, keep)
         else TextAt(after, slot) == TextAt(messages, slot)
  }

  lemma RewrittenText(messages: seq<Message>, f: string -> string, slot: Slot)
    requires HasText(messages, slot)
    ensures HasText(Rewrite(messages, f), slot)
    ensures TextAt(Rewrite(messages, f), slot)
         == if messages[slot.message].role == Tool then f(TextAt(messages, slot)) else TextAt(messages, slot)
  {
  }

  lemma ForceProjectForces(messages: seq<Message>, keep: nat)
    ensures ForcesTexts(messages, ForceProject(messages, keep), keep)
  {
    var f := text => ForceShorten(text, keep);
    var after := ForceProject(messages, keep);
    RewriteKeepsShape(messages, text => ForceShorten(text, keep));
    forall slot | HasText(messages, slot)
      ensures HasText(after, slot)
        && if ForcedAt(messages, keep, slot)
           then Abridges(TextAt(after, slot), TextAt(messages, slot), keep, keep)
           else TextAt(after, slot) == TextAt(messages, slot)
    {
      RewrittenText(messages, text => ForceShorten(text, keep), slot);
      if ForcedAt(messages, keep, slot) {
        ShortenAbridges(TextAt(messages, slot), keep, keep);
      }
    }
  }

  lemma {:induction false} LongestPart(parts: seq<ResultContent>)
    ensures forall c | 0 <= c < |parts| && parts[c].ResultText? :: |parts[c].text| <= MaxPartChars(parts)
    ensures MaxPartChars(parts) > 0 ==>
      exists c | 0 <= c < |parts| :: parts[c].ResultText? && |parts[c].text| == MaxPartChars(parts)
  {
    if parts != [] {
      LongestPart(parts[1..]);
      assert forall c | 0 < c < |parts| :: parts[c] == parts[1..][c - 1];
      if MaxPartChars(parts) > 0 && MaxPartChars(parts) == MaxPartChars(parts[1..]) {
        var c :| 0 <= c < |parts[1..]| && parts[1..][c].ResultText? && |parts[1..][c].text| == MaxPartChars(parts[1..]);
        assert parts[c + 1] == parts[1..][c];
      }
    }
  }

  /** A text of one of the results among some blocks. */
  ghost predicate HoldsPart(blocks: seq<Block>, b: nat, c: nat) {
    b < |blocks| && blocks[b].ToolResult? && c < |blocks[b].content| && blocks[b].content[c].ResultText?
  }

  lemma {:induction false} LongestInBlocks(blocks: seq<Block>) returns (b: nat, c: nat)
    ensures forall i: nat, k: nat | HoldsPart(blocks, i, k) :: |blocks[i].content[k].text| <= MaxBlockChars(blocks)
    ensures MaxBlockChars(blocks) > 0 ==>
      HoldsPart(blocks, b, c) && |blocks[b].content[c].text| == MaxBlockChars(blocks)
  {
    b, c := 0, 0;
    if blocks != [] {
      b, c := LongestInBlocks(blocks[1..]);
      b := b + 1;
      assert forall i: nat, k: nat | HoldsPart(blocks, i, k) && i > 0 :: HoldsPart(blocks[1..], i - 1, k);
      if blocks[0].ToolResult? {
        var parts := blocks[0].content;
        LongestPart(parts);
        if MaxBlockChars(blocks) > 0 && MaxBlockChars(blocks) == MaxPartChars(parts) {
          var k :| 0 <= k < |parts| && parts[k].ResultText? && |parts[k].text| == MaxPartChars(parts);
          b, c := 0, k;
        }
      }
    }
  }

  /** The length from which forcing starts is that of the longest text of a tool result. */
  lemma {:induction false} LongestToolText(messages: seq<Message>) returns (longest: Slot)
    ensures forall slot | HasToolText(messages, slot) :: |TextAt(messages, slot)| <= MaxToolTextChars(messages)
    ensures MaxToolTextChars(messages) > 0 ==>
      HasToolText(messages, longest) && |TextAt(messages, longest)| == MaxToolTextChars(messages)
  {
    longest := Slot(0, 0, 0);
    if messages != [] {
      var head, rest := messages[0], messages[1..];
      var later := LongestToolText(rest);
      var b, c := LongestInBlocks(head.content);
      forall slot | HasToolText(messages, slot) ensures |TextAt(messages, slot)| <= MaxToolTextChars(messages) {
        if slot.message == 0 {
          assert HoldsPart(head.content, slot.block, slot.part);
        } else {
          assert HasToolText(rest, Slot(slot.message - 1, slot.block, slot.part));
        }
      }
      if head.role == Tool && MaxBlockChars(head.content) == MaxToolTextChars(messages) {
        longest := Slot(0, b, c);
      } else {
        longest := Slot(later.message + 1, later.block, later.part);
      }
    }
  }

  /** A length halved `n` times. */
  function Halved(keep: nat, n: nat): nat {
    if n == 0 then keep else Halved(keep / 2, n - 1)
  }

  /** What is left of a unit when `keep` is halved `n` times can be sent, and is not less than 100 characters. */
  ghost predicate Reaches(messages: seq<Message>, keep: nat, n: nat, budget: SummaryBudget, costs: Costs) {
    Halved(keep, n) >= 100 && Fits(ForceProject(messages, Halved(keep, n)), budget, costs)
  }

  lemma {:induction false} ShrinkMeans(
    messages: seq<Message>, keep: nat, budget: SummaryBudget, costs: Costs) returns (n: nat)
    ensures match ShrinkUntilFits(messages, keep, budget, costs)
      case Some(projected) =>
        projected == ForceProject(messages, Halved(keep, n)) && Reaches(messages, keep, n, budget, costs)
        && forall i: nat | i < n :: !Reaches(messages, keep, i, budget, costs)
      case None => forall i: nat :: !Reaches(messages, keep, i, budget, costs)
  {
    n := 0;
    if keep < 100 {
      forall i: nat ensures !Reaches(messages, keep, i, budget, costs) {
        HalvedShrinks(keep, i);
      }
    } else if !Fits(ForceProject(messages, keep), budget, costs) {
      n := ShrinkMeans(messages, keep / 2, budget, costs);
      forall i: nat ensures i > 0 ==>
        (Reaches(messages, keep, i, budget, costs) <==> Reaches(messages, keep / 2, i - 1, budget, costs))
      {
      }
      n := n + 1;
    }
  }

  lemma {:induction false} HalvedShrinks(keep: nat, n: nat)
    ensures Halved(keep, n) <= keep
    decreases n
  {
    if n > 0 {
      HalvedShrinks(keep / 2, n - 1);
    }
  }

  /** The first length tried: a quarter of the input budget, at most half of the longest text less eight. */
  function FirstKept(budget: SummaryBudget, longest: nat): nat
    requires longest >= 16
  {
    Min(Max(budget.maxInputTokens / 4, 1), longest / 2 - 8)
  }

  /**
    A unit is forced exactly when it holds a tool text of more than 466 characters and some halving of
    the first length, not below 100, fits. Then the first such halving is taken: at that length every
    longer text not cut before is abridged, and nothing else changes.
   */
  lemma ForcedExactlyWhen(messages: seq<Message>, budget: SummaryBudget, costs: Costs) returns (longest: nat, n: nat)
    ensures forall slot | HasToolText(messages, slot) :: |TextAt(messages, slot)| <= longest
    ensures longest > 0 ==> exists slot :: HasToolText(messages, slot) && |TextAt(messages, slot)| == longest
    ensures match ForceProjectUnit(messages, budget, costs)
      case Some(projected) =>
        longest > 466 && Reaches(messages, FirstKept(budget, longest), n, budget, costs)
        && ForcesTexts(messages, projected, Halved(FirstKept(budget, longest), n))
        && forall i: nat | i < n :: !Reaches(messages, FirstKept(budget, longest), i, budget, costs)
      case None =>
        longest > 466 ==> forall i: nat :: !Reaches(messages, FirstKept(budget, longest), i, budget, costs)
  {
    n := 0;
    longest := MaxToolTextChars(messages);
    var slot := LongestToolText(messages);
    if longest > 466 {
      n := ShrinkMeans(messages, FirstKept(budget, longest), budget, costs);
      ForceProjectForces(messages, Halved(FirstKept(budget, longest), n));
    }
  }
}
