/** Planning and applying the zero-call projection of old tool results. */
module Micro {
  import opened Wrappers
  import opened Words
  import opened Transcript
  import opened Sums
  import opened Units
  import opened Rewriting
  import opened Projection

  const STALE_ROUNDS: nat := 3

  datatype ToolProjection = ToolProjection(slot: Slot, text: string)

  datatype MicroPlan = MicroPlan(projections: seq<ToolProjection>, savedTokens: uint64)

  // ----- the stale window -----

  /** Scans down from `k` for the `remaining`-th assistant message. */
  function StaleFrom(messages: seq<Message>, k: nat, remaining: nat): Option<nat>
    requires k <= |messages| && 1 <= remaining
  {
    if k == 0 then None
    else if messages[k - 1].role != Assistant then StaleFrom(messages, k - 1, remaining)
    else if remaining == 1 then Some(k - 1)
    else StaleFrom(messages, k - 1, remaining - 1)
  }

  /** `micro_stale_window_start`. */
  function StaleWindowStart(messages: seq<Message>): Option<nat> {
    StaleFrom(messages, |messages|, STALE_ROUNDS)
  }

  method ComputeStaleWindowStart(messages: seq<Message>) returns (start: Option<nat>)
    ensures start == StaleWindowStart(messages)
  {
    var remaining: nat := STALE_ROUNDS;
    var k := |messages|;
    while k > 0
      invariant 0 <= k <= |messages| && 1 <= remaining
      invariant StaleFrom(messages, k, remaining) == StaleWindowStart(messages)
    {
      k := k - 1;
      if messages[k].role == Assistant {
        remaining := remaining - 1;
        if remaining == 0 {
          return Some(k);
        }
      }
    }
    start := None;
  }

  function Assistants(messages: seq<Message>, from: nat, limit: nat): nat
    requires from <= limit <= |messages|
    decreases limit - from
  {
    if from == limit then 0
    else (if messages[limit - 1].role == Assistant then 1 else 0) + Assistants(messages, from, limit - 1)
  }

  lemma {:induction false} StaleFromCounts(messages: seq<Message>, k: nat, remaining: nat)
    requires k <= |messages| && 1 <= remaining
    ensures var start := StaleFrom(messages, k, remaining);
      match start
      case Some(s) => s < k && messages[s].role == Assistant && Assistants(messages, s, k) == remaining
      case None => Assistants(messages, 0, k) < remaining
  {
    if k > 0 {
      if messages[k - 1].role != Assistant {
        StaleFromCounts(messages, k - 1, remaining);
      } else if remaining > 1 {
        StaleFromCounts(messages, k - 1, remaining - 1);
      }
    }
  }

  /** The protected window begins at the third assistant message from the end, if there is one. */
  lemma StaleWindowIsThreeRounds(messages: seq<Message>)
    ensures match StaleWindowStart(messages)
      case Some(s) => s < |messages| && messages[s].role == Assistant
                      && Assistants(messages, s, |messages|) == 3
      case None => Assistants(messages, 0, |messages|) < 3
  {
    StaleFromCounts(messages, |messages|, STALE_ROUNDS);
  }

  /** The messages before this index may be projected; `None` when every round is recent. */
  function Scope(messages: seq<Message>, relaxed: bool): Option<nat> {
    if relaxed then Some(|messages|) else StaleWindowStart(messages)
  }

  lemma ScopeInRange(messages: seq<Message>, relaxed: bool)
    ensures Scope(messages, relaxed).Some? ==> Scope(messages, relaxed).value <= |messages|
  {
    StaleFromCounts(messages, |messages|, STALE_ROUNDS);
  }

  // ----- the planner -----

  predicate EligiblePart(part: ResultContent) {
    part.ResultText? && Eligible(part.text)
  }

  /** The projected text of one part, if it is eligible. */
  function PartProjection(part: ResultContent): Option<string> {
    if EligiblePart(part) then Some(Project(part.text)) else None
  }

  function PartProjections(parts: seq<ResultContent>): (texts: seq<Option<string>>)
    ensures |texts| == |parts|
  {
    Map(parts, PartProjection)
  }

  /** The projection to a text that is present. */
  function AtSlot(text: Option<string>, slot: Slot): seq<ToolProjection> {
    match text case Some(t) => [ToolProjection(slot, t)] case None => []
  }

  /** The concatenation of the parts from the `k`-th on. */
  function Join<T>(parts: seq<seq<T>>, k: nat): seq<T>
    requires k <= |parts|
    decreases |parts| - k
  {
    if k == |parts| then [] else parts[k] + Join(parts, k + 1)
  }

  /** For each text that is present, its projection. */
  function PartFinds(texts: seq<Option<string>>, m: nat, b: nat): (finds: seq<seq<ToolProjection>>)
    ensures |finds| == |texts|
  {
    seq(|texts|, c requires 0 <= c < |texts| => AtSlot(texts[c], Slot(m, b, c)))
  }

  function PartCandidates(parts: seq<ResultContent>, m: nat, b: nat, c: nat): seq<ToolProjection>
    requires c <= |parts|
  {
    Join(PartFinds(PartProjections(parts), m, b), c)
  }

  /** What one block contributes. */
  function BlockFinds(block: Block, m: nat, b: nat): seq<ToolProjection> {
    if block.ToolResult? then PartCandidates(block.content, m, b, 0) else []
  }

  function AllBlockFinds(blocks: seq<Block>, m: nat): (finds: seq<seq<ToolProjection>>)
    ensures |finds| == |blocks|
  {
    seq(|blocks|, b requires 0 <= b < |blocks| => BlockFinds(blocks[b], m, b))
  }

  function BlockCandidates(blocks: seq<Block>, m: nat, b: nat): seq<ToolProjection>
    requires b <= |blocks|
  {
    Join(AllBlockFinds(blocks, m), b)
  }

  /** What one message contributes. */
  function MessageFinds(message: Message, m: nat): seq<ToolProjection> {
    if message.role == Tool then BlockCandidates(message.content, m, 0) else []
  }

  function AllMessageFinds(messages: seq<Message>, limit: nat): (finds: seq<seq<ToolProjection>>)
    requires limit <= |messages|
    ensures |finds| == limit
  {
    seq(limit, m requires 0 <= m < limit => MessageFinds(messages[m], m))
  }

  function Candidates(messages: seq<Message>, m: nat, limit: nat): seq<ToolProjection>
    requires m <= limit <= |messages|
  {
    Join(AllMessageFinds(messages, limit), m)
  }

  lemma BlockCandidatesNext(blocks: seq<Block>, m: nat, b: nat)
    requires b < |blocks|
    ensures BlockCandidates(blocks, m, b) == BlockFinds(blocks[b], m, b) + BlockCandidates(blocks, m, b + 1)
  {
    assert AllBlockFinds(blocks, m)[b] == BlockFinds(blocks[b], m, b);
  }

  lemma CandidatesNext(messages: seq<Message>, m: nat, limit: nat)
    requires m < limit <= |messages|
    ensures Candidates(messages, m, limit) == MessageFinds(messages[m], m) + Candidates(messages, m + 1, limit)
  {
    assert AllMessageFinds(messages, limit)[m] == MessageFinds(messages[m], m);
  }

  function PartSaved(part: ResultContent): nat {
    if EligiblePart(part) then Saved(part.text) else 0
  }

  function BlockSaved(block: Block): nat {
    if block.ToolResult? then Total(block.content, PartSaved) else 0
  }

  function MessageSaved(message: Message): nat {
    if message.role == Tool then Total(message.content, BlockSaved) else 0
  }

  /** The bytes all projections before `limit` save. */
  function SavedBytes(messages: seq<Message>, limit: nat): nat
    requires limit <= |messages|
  {
    Total(messages[..limit], MessageSaved)
  }

  /** `plan_micro_compaction`. */
  function PlanMicro(messages: seq<Message>, relaxed: bool): Option<MicroPlan> {
    ScopeInRange(messages, relaxed);
    match Scope(messages, relaxed)
    case None => None
    case Some(limit) =>
      var projections := Candidates(messages, 0, limit);
      if projections == [] then None
      else Some(MicroPlan(projections, Saturate(SavedBytes(messages, limit)) / 4))
  }

  method ComputeMicroPlan(messages: seq<Message>, relaxed: bool) returns (plan: Option<MicroPlan>)
    ensures plan == PlanMicro(messages, relaxed)
  {
    ScopeInRange(messages, relaxed);
    var limit := |messages|;
    if !relaxed {
      var start := ComputeStaleWindowStart(messages);
      if start.None? {
        return None;
      }
      limit := start.value;
    }
    var projections := [];
    var savedBytes: uint64 := 0;
    for m := 0 to limit
      invariant projections + Candidates(messages, m, limit) == Candidates(messages, 0, limit)
      invariant savedBytes == Saturate(SavedBytes(messages, m))
    {
      MessageNext(projections, messages, m, limit);
      SavedBytesNext(messages, m);
      if messages[m].role == Tool {
        var found, saved := CollectMessage(messages[m].content, m);
        projections := projections + found;
        savedBytes := SatAdd(savedBytes, saved);
      } else {
        assert projections + [] == projections;
      }
    }
    assert projections + [] == projections;
    if projections == [] {
      return None;
    }
    plan := Some(MicroPlan(projections, savedBytes / 4));
  }

  /** The candidates of one tool message, in order, and the bytes they save. */
  method CollectMessage(blocks: seq<Block>, m: nat) returns (found: seq<ToolProjection>, saved: uint64)
    ensures found == BlockCandidates(blocks, m, 0)
    ensures saved == Saturate(Total(blocks, BlockSaved))
  {
    found, saved := [], 0;
    for b := 0 to |blocks|
      invariant found + BlockCandidates(blocks, m, b) == BlockCandidates(blocks, m, 0)
      invariant saved == Saturate(Total(blocks[..b], BlockSaved))
    {
      BlockNext(found, blocks, m, b);
      BlockSavedNext(blocks, b);
      if blocks[b].ToolResult? {
        var inBlock, savedInBlock := CollectBlock(blocks[b].content, m, b);
        found := found + inBlock;
        saved := SatAdd(saved, savedInBlock);
      } else {
        assert found + [] == found;
      }
    }
    assert found + [] == found && blocks[..|blocks|] == blocks;
  }

  lemma MessageNext(done: seq<ToolProjection>, messages: seq<Message>, m: nat, limit: nat)
    requires m < limit <= |messages|
    ensures done + Candidates(messages, m, limit)
         == (done + MessageFinds(messages[m], m)) + Candidates(messages, m + 1, limit)
  {
    CandidatesNext(messages, m, limit);
    Assoc(done, MessageFinds(messages[m], m), Candidates(messages, m + 1, limit));
  }

  lemma SavedBytesNext(messages: seq<Message>, m: nat)
    requires m < |messages|
    ensures Saturate(SavedBytes(messages, m + 1))
         == if messages[m].role == Tool
            then SatAdd(Saturate(SavedBytes(messages, m)), Saturate(Total(messages[m].content, BlockSaved)))
            else Saturate(SavedBytes(messages, m))
  {
    TotalNext(messages, m, MessageSaved);
    SaturateTwice(SavedBytes(messages, m), MessageSaved(messages[m]));
  }

  lemma BlockNext(found: seq<ToolProjection>, blocks: seq<Block>, m: nat, b: nat)
    requires b < |blocks|
    ensures found + BlockCandidates(blocks, m, b)
         == (found + BlockFinds(blocks[b], m, b)) + BlockCandidates(blocks, m, b + 1)
  {
    BlockCandidatesNext(blocks, m, b);
    Assoc(found, BlockFinds(blocks[b], m, b), BlockCandidates(blocks, m, b + 1));
  }

  lemma BlockSavedNext(blocks: seq<Block>, b: nat)
    requires b < |blocks|
    ensures Saturate(Total(blocks[..b + 1], BlockSaved))
         == if blocks[b].ToolResult?
            then SatAdd(Saturate(Total(blocks[..b], BlockSaved)), Saturate(Total(blocks[b].content, PartSaved)))
            else Saturate(Total(blocks[..b], BlockSaved))
  {
    TotalNext(blocks, b, BlockSaved);
    SaturateTwice(Total(blocks[..b], BlockSaved), BlockSaved(blocks[b]));
  }

  method CollectBlock(parts: seq<ResultContent>, m: nat, b: nat)
    returns (found: seq<ToolProjection>, saved: uint64)
    ensures found == PartCandidates(parts, m, b, 0)
    ensures saved == Saturate(Total(parts, PartSaved))
  {
    found, saved := [], 0;
    for c := 0 to |parts|
      invariant found + PartCandidates(parts, m, b, c) == PartCandidates(parts, m, b, 0)
      invariant saved == Saturate(Total(parts[..c], PartSaved))
    {
      PartNext(found, parts, m, b, c);
      PartSavedNext(parts, c);
      if EligiblePart(parts[c]) {
        found := found + [ToolProjection(Slot(m, b, c), Project(parts[c].text))];
        saved := SatAdd(saved, Saturate(Saved(parts[c].text)));
      } else {
        assert found + [] == found;
      }
    }
    assert found + [] == found && parts[..|parts|] == parts;
  }

  lemma PartCandidatesNext(parts: seq<ResultContent>, m: nat, b: nat, c: nat)
    requires c < |parts|
    ensures PartCandidates(parts, m, b, c)
         == AtSlot(PartProjection(parts[c]), Slot(m, b, c)) + PartCandidates(parts, m, b, c + 1)
  {
    assert PartFinds(PartProjections(parts), m, b)[c] == AtSlot(PartProjection(parts[c]), Slot(m, b, c));
  }

  lemma PartNext(found: seq<ToolProjection>, parts: seq<ResultContent>, m: nat, b: nat, c: nat)
    requires c < |parts|
    ensures found + PartCandidates(parts, m, b, c)
         == (found + AtSlot(PartProjection(parts[c]), Slot(m, b, c))) + PartCandidates(parts, m, b, c + 1)
  {
    PartCandidatesNext(parts, m, b, c);
    Assoc(found, AtSlot(PartProjection(parts[c]), Slot(m, b, c)), PartCandidates(parts, m, b, c + 1));
  }

  lemma PartSavedNext(parts: seq<ResultContent>, c: nat)
    requires c < |parts|
    ensures Saturate(Total(parts[..c + 1], PartSaved))
         == if EligiblePart(parts[c])
            then SatAdd(Saturate(Total(parts[..c], PartSaved)), Saturate(Saved(parts[c].text)))
            else Saturate(Total(parts[..c], PartSaved))
  {
    TotalNext(parts, c, PartSaved);
    SaturateTwice(Total(parts[..c], PartSaved), PartSaved(parts[c]));
  }

  lemma Assoc<T>(a: seq<T>, b: seq<T>, c: seq<T>)
    ensures a + (b + c) == (a + b) + c
  {
  }

  // ----- what the planner selects -----

  /** The planner's choice at one slot of a transcript. */
  ghost predicate Selects(messages: seq<Message>, limit: nat, p: ToolProjection) {
    p.slot.message < limit && HasToolText(messages, p.slot)
    && Eligible(TextAt(messages, p.slot)) && p.text == Project(TextAt(messages, p.slot))
  }

  lemma InConcat<T>(x: T, a: seq<T>, b: seq<T>)
    ensures x in a + b <==> x in a || x in b
  {
  }

  lemma AtSlotIs(text: Option<string>, slot: Slot, p: ToolProjection)
    ensures p in AtSlot(text, slot) <==> p.slot == slot && text == Some(p.text)
  {
  }

  lemma {:induction false} InJoin<T>(x: T, parts: seq<seq<T>>, k: nat)
    requires k <= |parts|
    ensures x in Join(parts, k) <==> exists i | k <= i < |parts| :: x in parts[i]
    decreases |parts| - k
  {
    if k < |parts| {
      InJoin(x, parts, k + 1);
      InConcat(x, parts[k], Join(parts, k + 1));
    }
  }

  lemma PartFindsAre(parts: seq<ResultContent>, m: nat, b: nat, c: nat, p: ToolProjection)
    requires c < |parts|
    ensures p in PartFinds(PartProjections(parts), m, b)[c] <==>
      p.slot == Slot(m, b, c) && EligiblePart(parts[c]) && p.text == Project(parts[c].text)
  {
    assert PartProjections(parts)[c] == PartProjection(parts[c]);
    AtSlotIs(PartProjection(parts[c]), Slot(m, b, c), p);
  }

  lemma PartCandidatesAre(parts: seq<ResultContent>, m: nat, b: nat, c: nat, p: ToolProjection)
    requires c <= |parts|
    ensures p in PartCandidates(parts, m, b, c) <==>
      p.slot.message == m && p.slot.block == b && c <= p.slot.part < |parts|
      && EligiblePart(parts[p.slot.part]) && p.text == Project(parts[p.slot.part].text)
  {
    var finds := PartFinds(PartProjections(parts), m, b);
    InJoin(p, finds, c);
    if p.slot.part < |parts| {
      PartFindsAre(parts, m, b, p.slot.part, p);
    }
    forall k | c <= k < |parts| && p in finds[k] ensures p.slot == Slot(m, b, k) {
      PartFindsAre(parts, m, b, k, p);
    }
  }

  lemma BlockFindsAre(blocks: seq<Block>, m: nat, b: nat, p: ToolProjection)
    requires b < |blocks|
    ensures p in AllBlockFinds(blocks, m)[b] <==>
      blocks[b].ToolResult? && p.slot.message == m && p.slot.block == b && p.slot.part < |blocks[b].content|
      && EligiblePart(blocks[b].content[p.slot.part])
      && p.text == Project(blocks[b].content[p.slot.part].text)
  {
    assert AllBlockFinds(blocks, m)[b] == BlockFinds(blocks[b], m, b);
    if blocks[b].ToolResult? {
      PartCandidatesAre(blocks[b].content, m, b, 0, p);
    }
  }

  /** A candidate of a message addresses an eligible part of one of its tool results. */
  ghost predicate Addresses(blocks: seq<Block>, p: ToolProjection) {
    p.slot.block < |blocks| && blocks[p.slot.block].ToolResult?
    && p.slot.part < |blocks[p.slot.block].content|
    && EligiblePart(blocks[p.slot.block].content[p.slot.part])
    && p.text == Project(blocks[p.slot.block].content[p.slot.part].text)
  }

  lemma BlockCandidatesAre(blocks: seq<Block>, m: nat, p: ToolProjection)
    ensures p in BlockCandidates(blocks, m, 0) <==> p.slot.message == m && Addresses(blocks, p)
  {
    InJoin(p, AllBlockFinds(blocks, m), 0);
    if p.slot.block < |blocks| {
      BlockFindsAre(blocks, m, p.slot.block, p);
    }
    forall b | 0 <= b < |blocks| && p in AllBlockFinds(blocks, m)[b] ensures p.slot.block == b {
      BlockFindsAre(blocks, m, b, p);
    }
  }

  lemma MessageFindsAre(messages: seq<Message>, limit: nat, m: nat, p: ToolProjection)
    requires m < limit <= |messages|
    ensures p in AllMessageFinds(messages, limit)[m] <==> p.slot.message == m && Selects(messages, limit, p)
  {
    assert AllMessageFinds(messages, limit)[m] == MessageFinds(messages[m], m);
    BlockCandidatesAre(messages[m].content, m, p);
  }

  lemma CandidatesAre(messages: seq<Message>, m: nat, limit: nat, p: ToolProjection)
    requires m <= limit <= |messages|
    ensures p in Candidates(messages, m, limit) <==> m <= p.slot.message && Selects(messages, limit, p)
  {
    InJoin(p, AllMessageFinds(messages, limit), m);
    if p.slot.message < limit {
      MessageFindsAre(messages, limit, p.slot.message, p);
    }
    forall k | m <= k < limit && p in AllMessageFinds(messages, limit)[k] ensures p.slot.message == k {
      MessageFindsAre(messages, limit, k, p);
    }
  }

  /** Lexicographic order of slots. */
  predicate Before(a: Slot, b: Slot) {
    a.message < b.message
    || (a.message == b.message && (a.block < b.block || (a.block == b.block && a.part < b.part)))
  }

  ghost predicate Ascending(projections: seq<ToolProjection>) {
    forall i, j | 0 <= i < j < |projections| :: Before(projections[i].slot, projections[j].slot)
  }

  lemma AscendingConcat(a: seq<ToolProjection>, b: seq<ToolProjection>)
    requires Ascending(a) && Ascending(b)
    requires forall p, q | p in a && q in b :: Before(p.slot, q.slot)
    ensures Ascending(a + b)
  {
    forall i, j | 0 <= i < j < |a + b|
      ensures Before((a + b)[i].slot, (a + b)[j].slot)
    {
      if i < |a| <= j {
        assert (a + b)[i] in a && (a + b)[j] in b;
      }
    }
  }

  /** What is found in an earlier part lies before what is found in a later one. */
  ghost predicate PartsAscend(parts: seq<seq<ToolProjection>>) {
    forall i, j, p, q | 0 <= i < j < |parts| && p in parts[i] && q in parts[j] :: Before(p.slot, q.slot)
  }

  lemma {:induction false} JoinAscends(parts: seq<seq<ToolProjection>>, k: nat)
    requires k <= |parts| && PartsAscend(parts) && forall i | 0 <= i < |parts| :: Ascending(parts[i])
    ensures Ascending(Join(parts, k))
    decreases |parts| - k
  {
    if k < |parts| {
      JoinAscends(parts, k + 1);
      forall p, q | p in parts[k] && q in Join(parts, k + 1) ensures Before(p.slot, q.slot) {
        InJoin(q, parts, k + 1);
      }
      AscendingConcat(parts[k], Join(parts, k + 1));
    }
  }

  lemma PartCandidatesAscend(parts: seq<ResultContent>, m: nat, b: nat)
    ensures Ascending(PartCandidates(parts, m, b, 0))
  {
    var finds := PartFinds(PartProjections(parts), m, b);
    forall c | 0 <= c < |parts| ensures Ascending(finds[c]) {
      assert finds[c] == AtSlot(PartProjections(parts)[c], Slot(m, b, c));
    }
    forall i, j, p: ToolProjection, q: ToolProjection | 0 <= i < j < |finds| && p in finds[i] && q in finds[j]
      ensures Before(p.slot, q.slot)
    {
      PartFindsAre(parts, m, b, i, p);
      PartFindsAre(parts, m, b, j, q);
    }
    JoinAscends(finds, 0);
  }

  lemma BlockCandidatesAscend(blocks: seq<Block>, m: nat)
    ensures Ascending(BlockCandidates(blocks, m, 0))
  {
    var finds := AllBlockFinds(blocks, m);
    forall b | 0 <= b < |blocks| ensures Ascending(finds[b]) {
      assert finds[b] == BlockFinds(blocks[b], m, b);
      if blocks[b].ToolResult? {
        PartCandidatesAscend(blocks[b].content, m, b);
      }
    }
    forall i, j, p: ToolProjection, q: ToolProjection | 0 <= i < j < |finds| && p in finds[i] && q in finds[j]
      ensures Before(p.slot, q.slot)
    {
      BlockFindsAre(blocks, m, i, p);
      BlockFindsAre(blocks, m, j, q);
    }
    JoinAscends(finds, 0);
  }

  /** Targets are distinct and in lexicographic order. */
  lemma CandidatesAscend(messages: seq<Message>, m: nat, limit: nat)
    requires m <= limit <= |messages|
    ensures Ascending(Candidates(messages, m, limit))
  {
    var finds := AllMessageFinds(messages, limit);
    forall k | 0 <= k < limit ensures Ascending(finds[k]) {
      assert finds[k] == MessageFinds(messages[k], k);
      if messages[k].role == Tool {
        BlockCandidatesAscend(messages[k].content, k);
      }
    }
    forall i, j, p: ToolProjection, q: ToolProjection | 0 <= i < j < |finds| && p in finds[i] && q in finds[j]
      ensures Before(p.slot, q.slot)
    {
      MessageFindsAre(messages, limit, i, p);
      MessageFindsAre(messages, limit, j, q);
    }
    JoinAscends(finds, m);
  }

  // ----- applying a plan -----

  /** One overwrite of `apply_micro_projections`; a target that holds no text is skipped. */
  function ApplyProjection(messages: seq<Message>, p: ToolProjection): seq<Message> {
    if HasText(messages, p.slot) then SetText(messages, p.slot, p.text) else messages
  }

  function ApplyProjections(messages: seq<Message>, projections: seq<ToolProjection>): seq<Message>
    decreases |projections|
  {
    if projections == [] then messages
    else ApplyProjections(ApplyProjection(messages, projections[0]), projections[1..])
  }

  method OverwriteProjections(messages: seq<Message>, projections: seq<ToolProjection>)
    returns (projected: seq<Message>)
    ensures projected == ApplyProjections(messages, projections)
  {
    projected := messages;
    for k := 0 to |projections|
      invariant ApplyProjections(projected, projections[k..]) == ApplyProjections(messages, projections)
    {
      assert projections[k..][1..] == projections[k + 1..];
      var p := projections[k];
      if HasText(projected, p.slot) {
        var message := SetMessageText(projected[p.slot.message], p.slot.block, p.slot.part, p.text);
        projected := projected[p.slot.message := message];
      }
    }
  }

  /** Every target holds a tool text whose compacted form is the projected text. */
  ghost predicate Compacts(messages: seq<Message>, projections: seq<ToolProjection>) {
    forall p | p in projections ::
      HasToolText(messages, p.slot) && p.text == Compacted(TextAt(messages, p.slot))
  }

  lemma CompactsNext(messages: seq<Message>, projections: seq<ToolProjection>)
    requires projections != [] && Compacts(messages, projections)
    ensures Compacts(ApplyProjection(messages, projections[0]), projections[1..])
  {
    var first := projections[0];
    assert first in projections;
    SetTextReads(messages, first.slot, first.text);
    CompactedIsStable(TextAt(messages, first.slot));
    forall p | p in projections[1..]
      ensures HasToolText(ApplyProjection(messages, first), p.slot)
           && p.text == Compacted(TextAt(ApplyProjection(messages, first), p.slot))
    {
      assert p in projections;
    }
  }

  ghost predicate Targets(projections: seq<ToolProjection>, slot: Slot) {
    exists p :: p in projections && p.slot == slot
  }

  lemma TargetsNext(projections: seq<ToolProjection>, slot: Slot)
    requires projections != []
    ensures Targets(projections, slot) <==> projections[0].slot == slot || Targets(projections[1..], slot)
  {
    assert projections == [projections[0]] + projections[1..];
    if projections[0].slot == slot {
      assert projections[0] in projections;
    }
    if Targets(projections[1..], slot) {
      var p :| p in projections[1..] && p.slot == slot;
      assert p in projections;
    }
  }

  /** The outcome of a list of overwrites at one slot, whatever their order. */
  lemma {:induction false} AppliedText(messages: seq<Message>, projections: seq<ToolProjection>, slot: Slot)
    requires Compacts(messages, projections)
    ensures var projected := ApplyProjections(messages, projections);
      (HasText(projected, slot) <==> HasText(messages, slot))
      && (HasText(messages, slot) ==>
            TextAt(projected, slot) == if Targets(projections, slot)
                                       then Compacted(TextAt(messages, slot)) else TextAt(messages, slot))
    decreases |projections|
  {
    if projections != [] {
      var first := projections[0];
      assert first in projections;
      SetTextReads(messages, first.slot, first.text);
      CompactsNext(messages, projections);
      AppliedText(ApplyProjection(messages, first), projections[1..], slot);
      TargetsNext(projections, slot);
      CompactedIsStable(TextAt(messages, first.slot));
    }
  }

  lemma {:induction false} AppliedKeepsShape(messages: seq<Message>, projections: seq<ToolProjection>)
    requires Compacts(messages, projections)
    ensures SameShape(messages, ApplyProjections(messages, projections))
    decreases |projections|
  {
    if projections != [] {
      assert projections[0] in projections;
      SetTextKeepsShape(messages, projections[0].slot, projections[0].text);
      CompactsNext(messages, projections);
      AppliedKeepsShape(ApplyProjection(messages, projections[0]), projections[1..]);
    }
  }

  /** The whole effect of a plan: every tool text before `limit` is compacted in place. */
  function CompactTexts(messages: seq<Message>, limit: nat): (r: seq<Message>)
    requires limit <= |messages|
    ensures |r| == |messages|
  {
    Rewrite(messages[..limit], Compacted) + messages[limit..]
  }

  lemma CompactTextsKeepsShape(messages: seq<Message>, limit: nat)
    requires limit <= |messages|
    ensures SameShape(messages, CompactTexts(messages, limit))
  {
    RewriteKeepsShape(messages[..limit], Compacted);
    var after := CompactTexts(messages, limit);
    forall i | 0 <= i < |messages| ensures Shape(after[i]) == Shape(messages[i]) {
      if i < limit {
        assert after[i] == Rewrite(messages[..limit], Compacted)[i];
        assert messages[..limit][i] == messages[i];
      }
    }
  }

  lemma CompactTextsAt(messages: seq<Message>, limit: nat, m: nat)
    requires m < |messages| && limit <= |messages|
    ensures CompactTexts(messages, limit)[m]
         == if m < limit then RewriteMessage(messages[m], Compacted) else messages[m]
  {
  }

  lemma CompactedText(messages: seq<Message>, limit: nat, slot: Slot)
    requires limit <= |messages|
    ensures var after := CompactTexts(messages, limit);
      (HasText(after, slot) <==> HasText(messages, slot))
      && (HasText(messages, slot) ==>
            TextAt(after, slot) == if slot.message < limit && messages[slot.message].role == Tool
                                   then Compacted(TextAt(messages, slot)) else TextAt(messages, slot))
  {
    if slot.message < |messages| {
      CompactTextsAt(messages, limit, slot.message);
    }
  }

  lemma CandidatesCompact(messages: seq<Message>, limit: nat)
    requires limit <= |messages|
    ensures Compacts(messages, Candidates(messages, 0, limit))
  {
    forall p | p in Candidates(messages, 0, limit)
      ensures HasToolText(messages, p.slot) && p.text == Compacted(TextAt(messages, p.slot))
    {
      CandidatesAre(messages, 0, limit, p);
    }
  }

  lemma CompactsAtSlot(messages: seq<Message>, limit: nat, slot: Slot)
    requires limit <= |messages|
    ensures SameText(CompactTexts(messages, limit), ApplyProjections(messages, Candidates(messages, 0, limit)), slot)
  {
    CandidatesCompact(messages, limit);
    AppliedText(messages, Candidates(messages, 0, limit), slot);
    CompactedText(messages, limit, slot);
    if HasText(messages, slot) {
      CandidateAtSlot(messages, limit, slot);
    }
  }

  /** Overwriting the selected slots one by one compacts exactly the tool texts in scope. */
  lemma PlanCompactsTexts(messages: seq<Message>, limit: nat)
    requires limit <= |messages|
    ensures ApplyProjections(messages, Candidates(messages, 0, limit)) == CompactTexts(messages, limit)
  {
    CandidatesCompact(messages, limit);
    AppliedKeepsShape(messages, Candidates(messages, 0, limit));
    CompactTextsKeepsShape(messages, limit);
    forall slot
      ensures SameText(CompactTexts(messages, limit), ApplyProjections(messages, Candidates(messages, 0, limit)), slot)
    {
      CompactsAtSlot(messages, limit, slot);
    }
    SameTextsFromCommonShape(
      messages, CompactTexts(messages, limit), ApplyProjections(messages, Candidates(messages, 0, limit)));
  }

  lemma SameTextsFromCommonShape(messages: seq<Message>, a: seq<Message>, b: seq<Message>)
    requires SameShape(messages, a) && SameShape(messages, b) && forall slot :: SameText(a, b, slot)
    ensures b == a
  {
    forall i | 0 <= i < |a| ensures Shape(b[i]) == Shape(a[i]) {
      assert Shape(a[i]) == Shape(messages[i]) && Shape(b[i]) == Shape(messages[i]);
    }
    SameTextsSameTranscript(a, b);
  }

  lemma CandidateAtSlot(messages: seq<Message>, limit: nat, slot: Slot)
    requires limit <= |messages| && HasText(messages, slot)
    ensures Targets(Candidates(messages, 0, limit), slot) <==>
      slot.message < limit && messages[slot.message].role == Tool && Eligible(TextAt(messages, slot))
  {
    var projections := Candidates(messages, 0, limit);
    if Targets(projections, slot) {
      var p :| p in projections && p.slot == slot;
      CandidatesAre(messages, 0, limit, p);
    }
    if slot.message < limit && messages[slot.message].role == Tool && Eligible(TextAt(messages, slot)) {
      var p := ToolProjection(slot, Project(TextAt(messages, slot)));
      CandidatesAre(messages, 0, limit, p);
    }
  }
}
