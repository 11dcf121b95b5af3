/** Packing the planned units, or generated summaries, into summary requests that fit. */
module Chunking {
  import opened Wrappers
  import opened Words
  import opened Text
  import opened Transcript
  import opened Sums
  import opened Units
  import opened Rewriting
  import opened Projection
  import opened Errors
  import opened Packing

  datatype SummaryBudget = SummaryBudget(
    maxInputTokens: uint64, maxOutputTokens: uint32, maxContextTokens: uint64)

  /** Token costs of encoded messages: of one message, and of a whole summary request for diagnosis. */
  datatype Costs = Costs(message: Message -> nat, request: seq<Message> -> uint64)

  /** Instruction message, shell of the user message and request envelope. */
  const SUMMARY_CONSTANT_TOKENS: nat := 238

  function SummaryInput(messages: seq<Message>, costs: Costs): uint64 {
    Saturate(SUMMARY_CONSTANT_TOKENS + Total(messages, costs.message))
  }

  /** `summary_request_fits`. */
  predicate Fits(messages: seq<Message>, budget: SummaryBudget, costs: Costs) {
    var input := SummaryInput(messages, costs);
    input <= budget.maxInputTokens && SatAdd(input, budget.maxOutputTokens) <= budget.maxContextTokens
  }

  method SummaryRequestFits(messages: seq<Message>, budget: SummaryBudget, costs: Costs) returns (fits: bool)
    ensures fits == Fits(messages, budget, costs)
  {
    var input: uint64 := SUMMARY_CONSTANT_TOKENS;
    for i := 0 to |messages|
      invariant input == Saturate(SUMMARY_CONSTANT_TOKENS + Total(messages[..i], costs.message))
    {
      TotalNext(messages, i, costs.message);
      input := SatAdd(input, Saturate(costs.message(messages[i])));
    }
    assert messages[..|messages|] == messages;
    fits := input <= budget.maxInputTokens && SatAdd(input, budget.maxOutputTokens) <= budget.maxContextTokens;
  }

  /** What is part of a fitting request fits as well. */
  lemma FitsWithin(messages: seq<Message>, i: nat, i': nat, k': nat, k: nat, budget: SummaryBudget, costs: Costs)
    requires i <= i' <= k' <= k <= |messages| && Fits(messages[i..k], budget, costs)
    ensures Fits(messages[i'..k'], budget, costs)
  {
    TotalWithin(messages, i, i', k', k, costs.message);
  }

  // ----- forced projection of one oversized unit -----

  /** Keeps `keep` characters at both ends of a text that is long enough and not yet projected. */
  function ForceShorten(text: string, keep: nat): string {
    if |text| <= 2 * keep + 16 || Contains(text, SENTINEL) then text else Shorten(text, keep, keep)
  }

  /** `force_project_unit_messages`. */
  function ForceProject(messages: seq<Message>, keep: nat): seq<Message> {
    Rewrite(messages, text => ForceShorten(text, keep))
  }

  function MaxPartChars(parts: seq<ResultContent>): nat {
    if parts == [] then 0
    else Max(if parts[0].ResultText? then |parts[0].text| else 0, MaxPartChars(parts[1..]))
  }

  function MaxBlockChars(blocks: seq<Block>): nat {
    if blocks == [] then 0
    else Max(if blocks[0].ToolResult? then MaxPartChars(blocks[0].content) else 0, MaxBlockChars(blocks[1..]))
  }

  /** `max_tool_result_text_chars`. */
  function MaxToolTextChars(messages: seq<Message>): nat {
    if messages == [] then 0
    else Max(if messages[0].role == Tool then MaxBlockChars(messages[0].content) else 0,
             MaxToolTextChars(messages[1..]))
  }

  /** Halves the kept length until the unit fits or would keep less than the usual tail. */
  function ShrinkUntilFits(
    messages: seq<Message>, keep: nat, budget: SummaryBudget, costs: Costs): Option<seq<Message>>
  {
    if keep < TAIL_CHARS then None
    else if Fits(ForceProject(messages, keep), budget, costs) then Some(ForceProject(messages, keep))
    else ShrinkUntilFits(messages, keep / 2, budget, costs)
  }

  /** `force_project_single_unit`. */
  function ForceProjectUnit(messages: seq<Message>, budget: SummaryBudget, costs: Costs): Option<seq<Message>> {
    var longest := MaxToolTextChars(messages);
    if longest <= HEAD_CHARS + TAIL_CHARS + 16 then None
    else ShrinkUntilFits(messages, Min(Max(budget.maxInputTokens / 4, 1), longest / 2 - 8), budget, costs)
  }

  method ComputeForcedProjection(messages: seq<Message>, budget: SummaryBudget, costs: Costs)
    returns (projected: Option<seq<Message>>)
    ensures projected == ForceProjectUnit(messages, budget, costs)
  {
    var longest := MaxToolTextChars(messages);
    if longest <= HEAD_CHARS + TAIL_CHARS + 16 {
      return None;
    }
    var keep: nat := Min(Max(budget.maxInputTokens / 4, 1), longest / 2 - 8);
    while keep >= TAIL_CHARS
      invariant ShrinkUntilFits(messages, keep, budget, costs) == ForceProjectUnit(messages, budget, costs)
    {
      var candidate := ForceProject(messages, keep);
      var fits := SummaryRequestFits(candidate, budget, costs);
      if fits {
        return Some(candidate);
      }
      keep := keep / 2;
    }
    projected := None;
  }

  lemma {:induction false} ShrunkFits(messages: seq<Message>, keep: nat, budget: SummaryBudget, costs: Costs)
    ensures var projected := ShrinkUntilFits(messages, keep, budget, costs);
      projected.Some? ==> Fits(projected.value, budget, costs) && SameShape(messages, projected.value)
  {
    if keep >= TAIL_CHARS {
      RewriteKeepsShape(messages, text => ForceShorten(text, keep));
      ShrunkFits(messages, keep / 2, budget, costs);
    }
  }

  /** A forced projection fits, and differs from the unit only in the texts of tool results. */
  lemma ForcedFits(messages: seq<Message>, budget: SummaryBudget, costs: Costs)
    ensures var projected := ForceProjectUnit(messages, budget, costs);
      projected.Some? ==> Fits(projected.value, budget, costs) && SameShape(messages, projected.value)
  {
    var longest := MaxToolTextChars(messages);
    if longest > HEAD_CHARS + TAIL_CHARS + 16 {
      ShrunkFits(messages, Min(Max(budget.maxInputTokens / 4, 1), longest / 2 - 8), budget, costs);
    }
  }

  // ----- source chunks -----

  datatype Chunked = Chunked(chunks: Result<seq<seq<Message>>, ContextError>, tick: nat)

  function TooLarge(messages: seq<Message>, budget: SummaryBudget, costs: Costs): ContextError {
    CompressionRequestTooLarge(
      SatAdd(costs.request(messages), budget.maxOutputTokens), budget.maxContextTokens)
  }

  predicate HasSlice(messages: seq<Message>, units: seq<Unit>, i: nat, k: nat) {
    i < k <= |units| && units[i].start <= units[k - 1].end <= |messages|
  }

  /** The messages of the units in `[i, k)`. */
  function Slice(messages: seq<Message>, units: seq<Unit>, i: nat, k: nat): seq<Message> {
    if HasSlice(messages, units, i, k) then messages[units[i].start..units[k - 1].end] else []
  }

  /** The messages of one unit. */
  function UnitSlice(messages: seq<Message>, units: seq<Unit>, k: nat): seq<Message> {
    Slice(messages, units, k, k + 1)
  }

  /** The packing rules for units: a unit that does not fit may have its tool results projected. */
  function UnitRules(
    messages: seq<Message>, units: seq<Unit>, budget: SummaryBudget, costs: Costs, cancelled: nat -> bool): Rules
  {
    Rules(
      (i: nat, k: nat) => HasSlice(messages, units, i, k) && Fits(Slice(messages, units, i, k), budget, costs),
      (k: nat) => ForceProjectUnit(UnitSlice(messages, units, k), budget, costs).Some?,
      cancelled)
  }

  /** The messages a piece stands for. */
  function Original(messages: seq<Message>, units: seq<Unit>, piece: Piece): seq<Message> {
    match piece
    case Whole(first, last) => Slice(messages, units, first, last)
    case Forced(k) => UnitSlice(messages, units, k)
  }

  /** The messages a piece sends to the summarizer. */
  function Render(
    messages: seq<Message>, units: seq<Unit>, budget: SummaryBudget, costs: Costs, piece: Piece): seq<Message>
  {
    match piece
    case Whole(first, last) => Slice(messages, units, first, last)
    case Forced(k) =>
      (match ForceProjectUnit(UnitSlice(messages, units, k), budget, costs)
       case Some(projected) => projected
       case None => UnitSlice(messages, units, k))
  }

  function RenderAll(
    messages: seq<Message>, units: seq<Unit>, budget: SummaryBudget, costs: Costs,
    pieces: seq<Piece>): (chunks: seq<seq<Message>>)
    ensures |chunks| == |pieces|
  {
    Map(pieces, piece => Render(messages, units, budget, costs, piece))
  }

  function UnitChunks(
    messages: seq<Message>, units: seq<Unit>, budget: SummaryBudget, costs: Costs, cancelled: nat -> bool, tick: nat): Chunked
  {
    var packed := PackFrom(UnitRules(messages, units, budget, costs, cancelled), |units|, 0, 0, tick);
    Chunked(
      match packed.pieces
      case Success(pieces) => Success(RenderAll(messages, units, budget, costs, pieces))
      case Failure(Interrupted) => Failure(Cancelled)
      case Failure(Hopeless(k)) => Failure(TooLarge(UnitSlice(messages, units, k), budget, costs)),
      packed.tick)
  }

  /** The units inside a range. */
  function UnitsWithin(units: seq<Unit>, start: nat, end: nat): seq<Unit> {
    if units == [] then []
    else (if units[0].start >= start && units[0].end <= end then [units[0]] else [])
         + UnitsWithin(units[1..], start, end)
  }

  /** `split_source_chunks`. */
  function SplitSource(
    messages: seq<Message>, units: seq<Unit>, start: nat, end: nat, budget: Option<SummaryBudget>,
    costs: Costs, cancelled: nat -> bool, tick: nat): Chunked
    requires start <= end <= |messages|
  {
    match budget
    case None => Chunked(Success([messages[start..end]]), tick)
    case Some(limits) =>
      var selected := UnitsWithin(units, start, end);
      if selected == [] then Chunked(Failure(NothingCompressible), tick)
      else UnitChunks(messages, selected, limits, costs, cancelled, tick)
  }

  /** Every run of units is a slice of the transcript. */
  ghost predicate Sliceable(messages: seq<Message>, units: seq<Unit>) {
    forall i: nat, k: nat | i < k <= |units| :: HasSlice(messages, units, i, k)
  }

  /** Rules that say what the fitting test and the forced projection say. */
  ghost predicate Follows(rules: Rules, messages: seq<Message>, units: seq<Unit>, budget: SummaryBudget, costs: Costs) {
    (forall i: nat, k: nat {:trigger HasSlice(messages, units, i, k)} ::
       rules.fits(i, k) == (HasSlice(messages, units, i, k) && Fits(Slice(messages, units, i, k), budget, costs)))
    && forall k: nat {:trigger UnitSlice(messages, units, k)} ::
       rules.forcible(k) == ForceProjectUnit(UnitSlice(messages, units, k), budget, costs).Some?
  }

  lemma UnitRulesFollow(
    messages: seq<Message>, units: seq<Unit>, budget: SummaryBudget, costs: Costs, cancelled: nat -> bool)
    ensures Follows(UnitRules(messages, units, budget, costs, cancelled), messages, units, budget, costs)
  {
  }

  /** The packing loop over units; a piece stands for the chunk that is pushed. */
  method PackUnits(
    messages: seq<Message>, units: seq<Unit>, budget: SummaryBudget, costs: Costs, cancelled: nat -> bool,
    ghost rules: Rules, start: nat) returns (packed: Packed)
    requires Sliceable(messages, units) && Follows(rules, messages, units, budget, costs)
    requires rules.cancelled == cancelled
    ensures packed == PackFrom(rules, |units|, 0, 0, start)
  {
    ghost var all := PackFrom(rules, |units|, 0, 0, start);
    var pieces: seq<Piece> := [];
    var open, k, tick := 0, 0, start;
    PrependNothing(all);
    while k < |units|
      invariant 0 <= open <= k <= |units|
      invariant Prepend(pieces, PackFrom(rules, |units|, open, k, tick)) == all
      decreases |units| - k
    {
      if cancelled(tick) {
        return Packed(Failure(Interrupted), tick + 1);
      }
      tick := tick + 1;
      assert HasSlice(messages, units, open, k + 1);
      var fits := SummaryRequestFits(Slice(messages, units, open, k + 1), budget, costs);
      if !fits {
        var placed := PlaceUnit(messages, units, open, k, budget, costs, rules, tick);
        if placed.None? {
          return Packed(Failure(Hopeless(k)), tick);
        }
        open := if placed.value == Open(open, k) then k else k + 1;
        PrependTwice(pieces, placed.value, PackFrom(rules, |units|, open, k + 1, tick));
        pieces := pieces + placed.value;
      }
      k := k + 1;
    }
    packed := Packed(Success(pieces + Open(open, k)), tick);
  }

  /** Closes the open chunk and finds another place for the unit that did not fit into it. */
  method PlaceUnit(
    messages: seq<Message>, units: seq<Unit>, open: nat, k: nat, budget: SummaryBudget, costs: Costs,
    ghost rules: Rules, ghost tick: nat) returns (placed: Option<seq<Piece>>)
    requires Sliceable(messages, units) && Follows(rules, messages, units, budget, costs)
    requires open <= k < |units|
    ensures var rest := Prepend(Open(open, k), PlaceFrom(rules, |units|, open, k, tick));
      match placed
      case Some(pieces) =>
        rest == Prepend(pieces, PackFrom(rules, |units|, if pieces == Open(open, k) then k else k + 1, k + 1, tick))
      case None => rest == Packed(Failure(Hopeless(k)), tick)
  {
    PlaceOutcome(rules, |units|, open, k, tick);
    assert HasSlice(messages, units, k, k + 1);
    var unit := UnitSlice(messages, units, k);
    if open < k {
      var alone := SummaryRequestFits(unit, budget, costs);
      if alone {
        return Some(Open(open, k));
      }
    }
    var projected := ComputeForcedProjection(unit, budget, costs);
    placed := if projected.Some? then Some(Open(open, k) + [Forced(k)]) else None;
    assert |Open(open, k) + [Forced(k)]| > |Open(open, k)|;
  }

  method ComputeUnitChunks(
    messages: seq<Message>, units: seq<Unit>, budget: SummaryBudget, costs: Costs, cancelled: nat -> bool, start: nat)
    returns (chunks: Result<seq<seq<Message>>, ContextError>, tick: nat)
    requires Sliceable(messages, units)
    ensures Chunked(chunks, tick) == UnitChunks(messages, units, budget, costs, cancelled, start)
  {
    UnitRulesFollow(messages, units, budget, costs, cancelled);
    var packed := PackUnits(messages, units, budget, costs, cancelled,
                            UnitRules(messages, units, budget, costs, cancelled), start);
    tick := packed.tick;
    match packed.pieces
    case Success(pieces) =>
      chunks := Success(RenderAll(messages, units, budget, costs, pieces));
    case Failure(Interrupted) =>
      chunks := Failure(Cancelled);
    case Failure(Hopeless(k)) =>
      chunks := Failure(TooLarge(UnitSlice(messages, units, k), budget, costs));
  }

  method ComputeSplit(
    messages: seq<Message>, units: seq<Unit>, start: nat, end: nat, budget: Option<SummaryBudget>,
    costs: Costs, cancelled: nat -> bool, from: nat)
    returns (chunks: Result<seq<seq<Message>>, ContextError>, tick: nat)
    requires start <= end <= |messages| && Sliceable(messages, UnitsWithin(units, start, end))
    ensures Chunked(chunks, tick) == SplitSource(messages, units, start, end, budget, costs, cancelled, from)
  {
    if budget.None? {
      return Success([messages[start..end]]), from;
    }
    var selected := UnitsWithin(units, start, end);
    if selected == [] {
      return Failure(NothingCompressible), from;
    }
    chunks, tick := ComputeUnitChunks(messages, selected, budget.value, costs, cancelled, from);
  }

  // ----- generated summaries -----

  /** The packing rules for generated summaries: there is no last resort. */
  function SummaryRules(messages: seq<Message>, budget: SummaryBudget, costs: Costs, cancelled: nat -> bool): Rules {
    Rules(
      (i: nat, k: nat) => i < k <= |messages| && Fits(messages[i..k], budget, costs),
      (k: nat) => false,
      cancelled)
  }

  function GroupOf(messages: seq<Message>, piece: Piece): seq<Message> {
    match piece
    case Whole(first, last) => if first <= last <= |messages| then messages[first..last] else []
    case Forced(_) => []
  }

  function GroupAll(messages: seq<Message>, pieces: seq<Piece>): (groups: seq<seq<Message>>)
    ensures |groups| == |pieces|
  {
    Map(pieces, piece => GroupOf(messages, piece))
  }

  /** `split_generated_summary_chunks`. */
  function GroupSummaries(
    messages: seq<Message>, budget: SummaryBudget, costs: Costs, cancelled: nat -> bool, tick: nat): Chunked
  {
    var packed := PackFrom(SummaryRules(messages, budget, costs, cancelled), |messages|, 0, 0, tick);
    Chunked(
      match packed.pieces
      case Success(pieces) => Success(GroupAll(messages, pieces))
      case Failure(Interrupted) => Failure(Cancelled)
      case Failure(Hopeless(k)) =>
        Failure(TooLarge(if k < |messages| then [messages[k]] else [], budget, costs)),
      packed.tick)
  }

  /** Rules that say what the fitting test says and know no last resort. */
  ghost predicate FollowsFits(rules: Rules, messages: seq<Message>, budget: SummaryBudget, costs: Costs) {
    (forall i: nat, k: nat {:trigger rules.fits(i, k)} ::
       rules.fits(i, k) == (i < k <= |messages| && Fits(messages[i..k], budget, costs)))
    && forall k: nat :: !rules.forcible(k)
  }

  lemma SummaryRulesFollow(messages: seq<Message>, budget: SummaryBudget, costs: Costs, cancelled: nat -> bool)
    ensures FollowsFits(SummaryRules(messages, budget, costs, cancelled), messages, budget, costs)
  {
  }

  /** The packing loop over generated summaries, which keeps the open group in `current`. */
  method PackSummaries(
    messages: seq<Message>, budget: SummaryBudget, costs: Costs, cancelled: nat -> bool, ghost rules: Rules, start: nat)
    returns (packed: Packed)
    requires FollowsFits(rules, messages, budget, costs) && rules.cancelled == cancelled
    ensures packed == PackFrom(rules, |messages|, 0, 0, start)
  {
    ghost var all := PackFrom(rules, |messages|, 0, 0, start);
    var pieces: seq<Piece> := [];
    var current: seq<Message> := [];
    var open, tick := 0, start;
    PrependNothing(all);
    for k := 0 to |messages|
      invariant 0 <= open <= k && current == messages[open..k]
      invariant Prepend(pieces, PackFrom(rules, |messages|, open, k, tick)) == all
    {
      if cancelled(tick) {
        return Packed(Failure(Interrupted), tick + 1);
      }
      tick := tick + 1;
      var candidate := current + [messages[k]];
      assert candidate == messages[open..k + 1];
      var fits := SummaryRequestFits(candidate, budget, costs);
      if fits {
        current := candidate;
      } else {
        assert [messages[k]] == messages[k..k + 1];
        PlaceOutcome(rules, |messages|, open, k, tick);
        if current == [] {
          return Packed(Failure(Hopeless(k)), tick);
        }
        fits := SummaryRequestFits([messages[k]], budget, costs);
        if !fits {
          return Packed(Failure(Hopeless(k)), tick);
        }
        PrependTwice(pieces, Open(open, k), PackFrom(rules, |messages|, k, k + 1, tick));
        pieces, current, open := pieces + [Whole(open, k)], [messages[k]], k;
      }
    }
    packed := Packed(Success(pieces + Open(open, |messages|)), tick);
  }

  method ComputeGroups(
    messages: seq<Message>, budget: SummaryBudget, costs: Costs, cancelled: nat -> bool, start: nat)
    returns (chunks: Result<seq<seq<Message>>, ContextError>, tick: nat)
    ensures Chunked(chunks, tick) == GroupSummaries(messages, budget, costs, cancelled, start)
  {
    SummaryRulesFollow(messages, budget, costs, cancelled);
    var packed := PackSummaries(messages, budget, costs, cancelled,
                                SummaryRules(messages, budget, costs, cancelled), start);
    tick := packed.tick;
    match packed.pieces
    case Success(pieces) =>
      chunks := Success(GroupAll(messages, pieces));
    case Failure(Interrupted) =>
      chunks := Failure(Cancelled);
    case Failure(Hopeless(k)) =>
      chunks := Failure(TooLarge(if k < |messages| then [messages[k]] else [], budget, costs));
  }
}
