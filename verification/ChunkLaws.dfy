/** What chunking guarantees: coverage, budgets, minimality, and exactly when it fails. */
module ChunkLaws {
  import opened Words
  import opened Transcript
  import opened Sums
  import opened Units
  import opened Rewriting
  import opened Errors
  import opened Packing
  import opened Chunking

  // ----- chains of units -----

  /** Adjacent non-empty units that together cover `[from, limit)`. */
  ghost predicate Chain(units: seq<Unit>, from: nat, limit: nat)
    decreases |units|
  {
    if units == [] then from == limit
    else units[0].start == from && from < units[0].end <= limit && Chain(units[1..], units[0].end, limit)
  }

  lemma {:induction false} ChainOrder(units: seq<Unit>, from: nat, limit: nat, i: nat, j: nat)
    requires Chain(units, from, limit) && i <= j < |units|
    ensures from <= units[i].start <= units[j].start < units[j].end <= limit
    ensures units[i].end <= units[j].end && (i < j ==> units[i].end <= units[j].start)
    ensures i + 1 == j ==> units[i].end == units[j].start
    decreases j
  {
    if i > 0 {
      ChainOrder(units[1..], units[0].end, limit, i - 1, j - 1);
    } else if j > 0 {
      ChainOrder(units[1..], units[0].end, limit, 0, j - 1);
    }
  }

  lemma {:induction false} TilesChain(units: seq<Unit>, n: nat, a: nat, b: nat)
    requires Tiles(units, 0, n) && a < b <= |units|
    ensures Chain(units[a..b], units[a].start, units[b - 1].end)
    decreases b - a
  {
    if a + 1 < b {
      TilesChain(units, n, a + 1, b);
      TilesOrdered(units, 0, n, a, b - 1);
      assert units[a..b][1..] == units[a + 1..b];
    } else {
      assert units[a..b][1..] == [];
    }
  }

  /** The units of a planned range form a chain, and they are the units inside the range. */
  lemma PlannedUnits(messages: seq<Message>, a: nat, b: nat)
    requires a < b <= |TranscriptUnits(messages)|
    ensures var units := TranscriptUnits(messages);
      var start, end := units[a].start, units[b - 1].end;
      end <= |messages| && Chain(units[a..b], start, end)
      && UnitsWithin(units, start, end) == units[a..b] && Sliceable(messages, units[a..b])
  {
    UnitsTile(messages, 0);
    RunOfTiles(TranscriptUnits(messages), |messages|, a, b);
    var units := TranscriptUnits(messages);
    ChainIsSliceable(messages, units[a..b], units[a].start, units[b - 1].end);
  }

  lemma RunOfTiles(units: seq<Unit>, n: nat, a: nat, b: nat)
    requires Tiles(units, 0, n) && a < b <= |units|
    ensures units[b - 1].end <= n && Chain(units[a..b], units[a].start, units[b - 1].end)
    ensures UnitsWithin(units, units[a].start, units[b - 1].end) == units[a..b]
  {
    BeforeRun(units, n, a, b);
    InsideRun(units, n, a, b);
    AfterRun(units, n, a, b);
    WithinThree(units[..a], units[a..b], units[b..], units[a].start, units[b - 1].end);
    ThreeParts(units, a, b);
    TilesChain(units, n, a, b);
  }

  lemma WithinThree(a: seq<Unit>, b: seq<Unit>, c: seq<Unit>, start: nat, end: nat)
    requires UnitsWithin(a, start, end) == [] && UnitsWithin(b, start, end) == b && UnitsWithin(c, start, end) == []
    ensures UnitsWithin((a + b) + c, start, end) == b
  {
    WithinConcat(a + b, c, start, end);
    WithinConcat(a, b, start, end);
  }

  lemma {:induction false} WithinAll(units: seq<Unit>, start: nat, end: nat)
    requires forall unit | unit in units :: start <= unit.start && unit.end <= end
    ensures UnitsWithin(units, start, end) == units
  {
    if units != [] {
      assert units[0] in units;
      WithinAll(units[1..], start, end);
    }
  }

  lemma {:induction false} WithinNone(units: seq<Unit>, start: nat, end: nat)
    requires forall unit | unit in units :: unit.start < start || end < unit.end
    ensures UnitsWithin(units, start, end) == []
  {
    if units != [] {
      assert units[0] in units;
      WithinNone(units[1..], start, end);
    }
  }

  lemma {:induction false} WithinConcat(a: seq<Unit>, b: seq<Unit>, start: nat, end: nat)
    ensures UnitsWithin(a + b, start, end) == UnitsWithin(a, start, end) + UnitsWithin(b, start, end)
  {
    if a == [] {
      assert a + b == b;
    } else {
      assert (a + b)[1..] == a[1..] + b;
      WithinConcat(a[1..], b, start, end);
    }
  }

  lemma BeforeRun(units: seq<Unit>, n: nat, a: nat, b: nat)
    requires Tiles(units, 0, n) && a < b <= |units|
    ensures UnitsWithin(units[..a], units[a].start, units[b - 1].end) == []
  {
    forall unit | unit in units[..a] ensures unit.start < units[a].start {
      var i :| 0 <= i < a && units[i] == unit;
      TilesOrdered(units, 0, n, i, a);
    }
    WithinNone(units[..a], units[a].start, units[b - 1].end);
  }

  lemma InsideRun(units: seq<Unit>, n: nat, a: nat, b: nat)
    requires Tiles(units, 0, n) && a < b <= |units|
    ensures UnitsWithin(units[a..b], units[a].start, units[b - 1].end) == units[a..b]
  {
    forall unit | unit in units[a..b] ensures units[a].start <= unit.start && unit.end <= units[b - 1].end {
      var i :| a <= i < b && units[i] == unit;
      TilesOrdered(units, 0, n, a, i);
      TilesOrdered(units, 0, n, i, b - 1);
    }
    WithinAll(units[a..b], units[a].start, units[b - 1].end);
  }

  lemma AfterRun(units: seq<Unit>, n: nat, a: nat, b: nat)
    requires Tiles(units, 0, n) && a < b <= |units|
    ensures UnitsWithin(units[b..], units[a].start, units[b - 1].end) == []
  {
    forall unit | unit in units[b..] ensures units[b - 1].end < unit.end {
      var i :| b <= i < |units| && units[i] == unit;
      TilesOrdered(units, 0, n, b - 1, i);
    }
    WithinNone(units[b..], units[a].start, units[b - 1].end);
  }

  lemma ThreeParts<T>(xs: seq<T>, a: nat, b: nat)
    requires a <= b <= |xs|
    ensures xs == (xs[..a] + xs[a..b]) + xs[b..]
  {
  }

  /** A slice of a chain: its bounds, its order inside a larger slice, and how two slices join. */
  lemma ChainSlice(messages: seq<Message>, run: seq<Unit>, from: nat, limit: nat, i: nat, k: nat)
    requires Chain(run, from, limit) && limit <= |messages| && i < k <= |run|
    ensures HasSlice(messages, run, i, k) && run[i].start < run[k - 1].end
  {
    ChainOrder(run, from, limit, i, k - 1);
  }

  lemma ChainIsSliceable(messages: seq<Message>, run: seq<Unit>, from: nat, limit: nat)
    requires Chain(run, from, limit) && limit <= |messages|
    ensures Sliceable(messages, run)
  {
    forall i: nat, k: nat | i < k <= |run| ensures HasSlice(messages, run, i, k) {
      ChainSlice(messages, run, from, limit, i, k);
    }
  }

  lemma ChainCut(messages: seq<Message>, run: seq<Unit>, from: nat, limit: nat, i: nat, k: nat)
    returns (start: nat, end: nat)
    requires Chain(run, from, limit) && limit <= |messages| && i < k <= |run|
    ensures start == run[i].start < end == run[k - 1].end <= |messages|
    ensures k < |run| ==> end == run[k].start
    ensures Slice(messages, run, i, k) == messages[start..end]
  {
    ChainSlice(messages, run, from, limit, i, k);
    start, end := run[i].start, run[k - 1].end;
    if k < |run| {
      ChainOrder(run, from, limit, k - 1, k);
    }
  }

  lemma JoinSlices(messages: seq<Message>, run: seq<Unit>, from: nat, limit: nat, i: nat, j: nat, k: nat)
    requires Chain(run, from, limit) && limit <= |messages| && i < j < k <= |run|
    ensures Slice(messages, run, i, j) + Slice(messages, run, j, k) == Slice(messages, run, i, k)
  {
    var a, b := ChainCut(messages, run, from, limit, i, j);
    var c, d := ChainCut(messages, run, from, limit, j, k);
    var e, f := ChainCut(messages, run, from, limit, i, k);
    AdjacentSlices(messages, a, b, d);
  }

  lemma Nested(run: seq<Unit>, from: nat, limit: nat, i: nat, i': nat, k': nat, k: nat)
    requires Chain(run, from, limit) && i <= i' < k' <= k <= |run|
    ensures run[i].start <= run[i'].start < run[k' - 1].end <= run[k - 1].end <= limit
  {
    ChainOrder(run, from, limit, i, i');
    ChainOrder(run, from, limit, i', k' - 1);
    ChainOrder(run, from, limit, k' - 1, k - 1);
  }

  lemma InnerSliceFits(
    messages: seq<Message>, run: seq<Unit>, i: nat, i': nat, k': nat, k: nat, budget: SummaryBudget, costs: Costs)
    requires i <= i' < k' <= k <= |run|
    requires run[i].start <= run[i'].start < run[k' - 1].end <= run[k - 1].end <= |messages|
    requires Fits(Slice(messages, run, i, k), budget, costs)
    ensures Fits(Slice(messages, run, i', k'), budget, costs)
  {
    FitsWithin(messages, run[i].start, run[i'].start, run[k' - 1].end, run[k - 1].end, budget, costs);
  }

  lemma PartFits(
    messages: seq<Message>, run: seq<Unit>, from: nat, limit: nat, i: nat, i': nat, k': nat, k: nat,
    budget: SummaryBudget, costs: Costs)
    requires Chain(run, from, limit) && limit <= |messages| && i <= i' < k' <= k <= |run|
    requires Fits(Slice(messages, run, i, k), budget, costs)
    ensures Fits(Slice(messages, run, i', k'), budget, costs)
  {
    Nested(run, from, limit, i, i', k', k);
    InnerSliceFits(messages, run, i, i', k', k, budget, costs);
  }

  lemma UnitRulesMonotone(
    messages: seq<Message>, run: seq<Unit>, from: nat, limit: nat,
    budget: SummaryBudget, costs: Costs, cancelled: nat -> bool)
    requires Chain(run, from, limit) && limit <= |messages|
    ensures Monotone(UnitRules(messages, run, budget, costs, cancelled), |run|)
  {
    var rules := UnitRules(messages, run, budget, costs, cancelled);
    forall i: nat, i': nat, k': nat, k: nat | i <= i' < k' <= k <= |run| && rules.fits(i, k)
      ensures rules.fits(i', k')
    {
      PartFits(messages, run, from, limit, i, i', k', k, budget, costs);
      ChainSlice(messages, run, from, limit, i', k');
    }
  }

  // ----- coverage and budgets -----

  /** What a summarizer receives: it fits, and only a unit too large by itself is projected. */
  ghost predicate Sendable(
    messages: seq<Message>, units: seq<Unit>, budget: SummaryBudget, costs: Costs, piece: Piece)
  {
    var sent, original := Render(messages, units, budget, costs, piece), Original(messages, units, piece);
    original != [] && SameShape(original, sent) && Fits(sent, budget, costs)
    && (piece.Whole? ==> sent == original)
    && (piece.Forced? ==> !Fits(original, budget, costs))
  }

  lemma AdmissibleIsSendable(
    messages: seq<Message>, run: seq<Unit>, from: nat, limit: nat,
    budget: SummaryBudget, costs: Costs, cancelled: nat -> bool, piece: Piece)
    requires Chain(run, from, limit) && limit <= |messages| && Within(piece, 0, |run|)
    requires Admissible(UnitRules(messages, run, budget, costs, cancelled), piece)
    ensures Sendable(messages, run, budget, costs, piece)
  {
    match piece
    case Whole(first, last) =>
      ChainSlice(messages, run, from, limit, first, last);
    case Forced(k) =>
      ChainSlice(messages, run, from, limit, k, k + 1);
      ForcedFits(Slice(messages, run, k, k + 1), budget, costs);
  }

  lemma SendableIsAdmissible(
    messages: seq<Message>, run: seq<Unit>, from: nat, limit: nat,
    budget: SummaryBudget, costs: Costs, cancelled: nat -> bool, piece: Piece)
    requires Chain(run, from, limit) && limit <= |messages| && Within(piece, 0, |run|) && piece.Whole?
    requires Sendable(messages, run, budget, costs, piece)
    ensures Admissible(UnitRules(messages, run, budget, costs, cancelled), piece)
  {
    ChainSlice(messages, run, from, limit, piece.first, piece.last);
  }

  /**
    The chunks of a chain of units cover it in order, without gap or overlap; every chunk can be
    sent, and a chunk that is not projected is exactly the run of units it stands for.
   */
  lemma ChunksAreSound(
    messages: seq<Message>, run: seq<Unit>, from: nat, limit: nat,
    budget: SummaryBudget, costs: Costs, cancelled: nat -> bool, tick: nat)
    returns (pieces: seq<Piece>)
    requires run != [] && Chain(run, from, limit) && limit <= |messages|
    requires UnitChunks(messages, run, budget, costs, cancelled, tick).chunks.Success?
    ensures UnitChunks(messages, run, budget, costs, cancelled, tick).chunks.value
         == RenderAll(messages, run, budget, costs, pieces)
    ensures Covers(pieces, 0, |run|) && 1 <= |pieces| <= |run|
    ensures forall piece | piece in pieces :: Sendable(messages, run, budget, costs, piece)
  {
    var rules := UnitRules(messages, run, budget, costs, cancelled);
    pieces := PackFrom(rules, |run|, 0, 0, tick).pieces.value;
    PackIsSound(rules, |run|, 0, 0, tick);
    CoversCount(pieces, 0, |run|);
    forall piece | piece in pieces ensures Sendable(messages, run, budget, costs, piece) {
      CoversWithin(pieces, 0, |run|, piece);
      AdmissibleIsSendable(messages, run, from, limit, budget, costs, cancelled, piece);
    }
  }

  ghost predicate AllFit(chunks: seq<seq<Message>>, budget: SummaryBudget, costs: Costs) {
    forall chunk | chunk in chunks :: chunk != [] && Fits(chunk, budget, costs)
  }

  /** Consequently every chunk that is sent fits its budget, and none is empty. */
  lemma EveryChunkFits(
    messages: seq<Message>, run: seq<Unit>, from: nat, limit: nat,
    budget: SummaryBudget, costs: Costs, cancelled: nat -> bool, tick: nat)
    requires run != [] && Chain(run, from, limit) && limit <= |messages|
    requires UnitChunks(messages, run, budget, costs, cancelled, tick).chunks.Success?
    ensures var chunks := UnitChunks(messages, run, budget, costs, cancelled, tick).chunks.value;
      1 <= |chunks| <= |run| && AllFit(chunks, budget, costs)
  {
    var pieces := ChunksAreSound(messages, run, from, limit, budget, costs, cancelled, tick);
    var chunks := RenderAll(messages, run, budget, costs, pieces);
    forall chunk | chunk in chunks ensures chunk != [] && Fits(chunk, budget, costs) {
      var i :| 0 <= i < |chunks| && chunks[i] == chunk;
      assert pieces[i] in pieces;
      assert Sendable(messages, run, budget, costs, pieces[i]);
    }
  }

  function Flatten<T>(chunks: seq<seq<T>>): seq<T> {
    if chunks == [] then [] else chunks[0] + Flatten(chunks[1..])
  }

  /** The messages a list of pieces stands for, joined. */
  function Originals(messages: seq<Message>, units: seq<Unit>, pieces: seq<Piece>): seq<Message> {
    if pieces == [] then [] else Original(messages, units, pieces[0]) + Originals(messages, units, pieces[1..])
  }

  function NextItem(piece: Piece): nat {
    match piece
    case Whole(_, last) => last
    case Forced(k) => k + 1
  }

  lemma {:induction false} OriginalsFrom(
    messages: seq<Message>, run: seq<Unit>, from: nat, limit: nat, pieces: seq<Piece>, i: nat)
    requires Chain(run, from, limit) && limit <= |messages| && i < |run| && Covers(pieces, i, |run|)
    ensures Originals(messages, run, pieces) == Slice(messages, run, i, |run|)
    decreases |pieces|
  {
    var next := NextItem(pieces[0]);
    CoversCount(pieces[1..], next, |run|);
    if next == |run| {
      assert pieces[1..] == [];
      assert Originals(messages, run, pieces) == Original(messages, run, pieces[0]) + [];
    } else {
      OriginalsFrom(messages, run, from, limit, pieces[1..], next);
      JoinSlices(messages, run, from, limit, i, next, |run|);
    }
  }

  /** What the pieces stand for is, joined together, exactly the planned range. */
  lemma PiecesRestoreRange(messages: seq<Message>, run: seq<Unit>, from: nat, limit: nat, pieces: seq<Piece>)
    requires run != [] && Chain(run, from, limit) && limit <= |messages| && Covers(pieces, 0, |run|)
    ensures from <= limit && Originals(messages, run, pieces) == messages[from..limit]
  {
    OriginalsFrom(messages, run, from, limit, pieces, 0);
    ChainSlice(messages, run, from, limit, 0, |run|);
    ChainEnds(run, from, limit);
  }

  lemma {:induction false} ChainEnds(run: seq<Unit>, from: nat, limit: nat)
    requires run != [] && Chain(run, from, limit)
    ensures run[0].start == from && run[|run| - 1].end == limit
  {
    if |run| > 1 {
      ChainEnds(run[1..], run[0].end, limit);
    }
  }

  // ----- failure and minimality -----

  /** A unit that fits neither as it is nor with its tool results projected. */
  predicate HopelessUnit(messages: seq<Message>, run: seq<Unit>, k: nat, budget: SummaryBudget, costs: Costs) {
    var unit := UnitSlice(messages, run, k);
    !Fits(unit, budget, costs) && ForceProjectUnit(unit, budget, costs).None?
  }

  lemma NeverFitsIsHopeless(
    messages: seq<Message>, run: seq<Unit>, from: nat, limit: nat,
    budget: SummaryBudget, costs: Costs, cancelled: nat -> bool, k: nat)
    requires Chain(run, from, limit) && limit <= |messages| && k < |run|
    ensures NeverFits(UnitRules(messages, run, budget, costs, cancelled), k)
      <==> HopelessUnit(messages, run, k, budget, costs)
  {
    ChainSlice(messages, run, from, limit, k, k + 1);
  }

  lemma ChunksFailWithPacking(
    messages: seq<Message>, run: seq<Unit>, budget: SummaryBudget, costs: Costs, cancelled: nat -> bool, tick: nat)
    ensures UnitChunks(messages, run, budget, costs, cancelled, tick).chunks.Failure?
      <==> PackFrom(UnitRules(messages, run, budget, costs, cancelled), |run|, 0, 0, tick).pieces.Failure?
  {
  }

  /** Absent cancellation, a planned range cannot be chunked exactly when one of its units is hopeless. */
  lemma ChunkingFailsExactlyWhen(
    messages: seq<Message>, run: seq<Unit>, from: nat, limit: nat,
    budget: SummaryBudget, costs: Costs, cancelled: nat -> bool, tick: nat)
    requires Chain(run, from, limit) && limit <= |messages|
    requires forall t :: !cancelled(t)
    ensures UnitChunks(messages, run, budget, costs, cancelled, tick).chunks.Failure?
      <==> exists k | 0 <= k < |run| :: HopelessUnit(messages, run, k, budget, costs)
  {
    var rules := UnitRules(messages, run, budget, costs, cancelled);
    UnitRulesMonotone(messages, run, from, limit, budget, costs, cancelled);
    PackFailsExactlyWhen(rules, |run|, 0, 0, tick);
    ChunksFailWithPacking(messages, run, budget, costs, cancelled, tick);
    forall k | 0 <= k < |run| ensures NeverFits(rules, k) <==> HopelessUnit(messages, run, k, budget, costs) {
      NeverFitsIsHopeless(messages, run, from, limit, budget, costs, cancelled, k);
    }
  }

  /** The first unit of the run that is hopeless. */
  ghost predicate FirstHopeless(messages: seq<Message>, run: seq<Unit>, k: nat, budget: SummaryBudget, costs: Costs) {
    k < |run| && HopelessUnit(messages, run, k, budget, costs)
    && forall u | 0 <= u < k :: !HopelessUnit(messages, run, u, budget, costs)
  }

  /**
    Chunking fails when the signal is set at one of its looks, one for each unit, or with the size of a
    request for the first hopeless unit and of its output, and the window.
   */
  lemma ChunkingStops(
    messages: seq<Message>, run: seq<Unit>, from: nat, limit: nat,
    budget: SummaryBudget, costs: Costs, cancelled: nat -> bool, tick: nat)
    requires Chain(run, from, limit) && limit <= |messages|
    ensures var chunked := UnitChunks(messages, run, budget, costs, cancelled, tick);
      match chunked.chunks
      case Success(_) => chunked.tick == tick + |run| && forall t | tick <= t < chunked.tick :: !cancelled(t)
      case Failure(error) =>
        (error == Cancelled && tick < chunked.tick && cancelled(chunked.tick - 1))
        || exists k: nat :: FirstHopeless(messages, run, k, budget, costs)
             && error == CompressionRequestTooLarge(
                  Saturate(costs.request(UnitSlice(messages, run, k)) + budget.maxOutputTokens), budget.maxContextTokens)
  {
    var rules := UnitRules(messages, run, budget, costs, cancelled);
    UnitRulesMonotone(messages, run, from, limit, budget, costs, cancelled);
    PackStops(rules, |run|, 0, 0, tick);
    forall k | 0 <= k < |run| ensures NeverFits(rules, k) <==> HopelessUnit(messages, run, k, budget, costs) {
      NeverFitsIsHopeless(messages, run, from, limit, budget, costs, cancelled, k);
    }
    match PackFrom(rules, |run|, 0, 0, tick).pieces
    case Failure(Hopeless(k)) => assert FirstHopeless(messages, run, k, budget, costs);
    case _ =>
  }

  /** If no unit was projected, no division into fitting runs of units has fewer chunks. */
  lemma ChunkingIsMinimal(
    messages: seq<Message>, run: seq<Unit>, from: nat, limit: nat,
    budget: SummaryBudget, costs: Costs, cancelled: nat -> bool, tick: nat, other: seq<Piece>)
    requires Chain(run, from, limit) && limit <= |messages|
    requires var packed := PackFrom(UnitRules(messages, run, budget, costs, cancelled), |run|, 0, 0, tick);
      packed.pieces.Success? && Unforced(packed.pieces.value)
    requires Covers(other, 0, |run|) && Unforced(other)
    requires forall piece | piece in other :: Sendable(messages, run, budget, costs, piece)
    ensures |UnitChunks(messages, run, budget, costs, cancelled, tick).chunks.value| <= |other|
  {
    var rules := UnitRules(messages, run, budget, costs, cancelled);
    UnitRulesMonotone(messages, run, from, limit, budget, costs, cancelled);
    forall piece | piece in other ensures Admissible(rules, piece) {
      CoversWithin(other, 0, |run|, piece);
      SendableIsAdmissible(messages, run, from, limit, budget, costs, cancelled, piece);
    }
    GreedyIsMinimal(rules, |run|, 0, 0, tick, 0, other);
  }

  // ----- generated summaries -----

  lemma {:induction false} GroupsFrom(messages: seq<Message>, pieces: seq<Piece>, i: nat)
    requires i <= |messages| && Covers(pieces, i, |messages|) && Unforced(pieces)
    ensures Flatten(GroupAll(messages, pieces)) == messages[i..]
    decreases |pieces|
  {
    if pieces != [] {
      assert pieces[0] in pieces;
      var groups := GroupAll(messages, pieces);
      assert groups[1..] == GroupAll(messages, pieces[1..]);
      CoversCount(pieces[1..], pieces[0].last, |messages|);
      GroupsFrom(messages, pieces[1..], pieces[0].last);
      assert messages[i..] == messages[i..pieces[0].last] + messages[pieces[0].last..];
    }
  }

  /** Grouping keeps every summary, in order, in non-empty groups that fit; there are never more groups. */
  lemma GroupingIsSound(messages: seq<Message>, budget: SummaryBudget, costs: Costs, cancelled: nat -> bool, tick: nat)
    ensures var chunks := GroupSummaries(messages, budget, costs, cancelled, tick).chunks;
      chunks.Success? ==>
        Flatten(chunks.value) == messages && AllFit(chunks.value, budget, costs)
        && |chunks.value| <= |messages| && (messages != [] ==> chunks.value != [])
  {
    var rules := SummaryRules(messages, budget, costs, cancelled);
    var packed := PackFrom(rules, |messages|, 0, 0, tick).pieces;
    if packed.Success? {
      var pieces := packed.value;
      PackIsSound(rules, |messages|, 0, 0, tick);
      NothingForced(rules, |messages|, 0, 0, tick);
      CoversCount(pieces, 0, |messages|);
      GroupsFrom(messages, pieces, 0);
      var chunks := GroupAll(messages, pieces);
      forall chunk | chunk in chunks ensures chunk != [] && Fits(chunk, budget, costs) {
        var i :| 0 <= i < |chunks| && chunks[i] == chunk;
        assert pieces[i] in pieces;
        CoversWithin(pieces, 0, |messages|, pieces[i]);
      }
    }
  }

  lemma SummaryRulesMonotone(messages: seq<Message>, budget: SummaryBudget, costs: Costs, cancelled: nat -> bool)
    ensures Monotone(SummaryRules(messages, budget, costs, cancelled), |messages|)
  {
    var rules := SummaryRules(messages, budget, costs, cancelled);
    forall i: nat, i': nat, k': nat, k: nat | i <= i' < k' <= k <= |messages| && rules.fits(i, k)
      ensures rules.fits(i', k')
    {
      FitsWithin(messages, i, i', k', k, budget, costs);
    }
  }

  /** No division of the summaries into fitting groups has fewer of them. */
  lemma GroupingIsMinimal(
    messages: seq<Message>, budget: SummaryBudget, costs: Costs, cancelled: nat -> bool, tick: nat, other: seq<Piece>)
    requires GroupSummaries(messages, budget, costs, cancelled, tick).chunks.Success?
    requires Covers(other, 0, |messages|) && Unforced(other)
    requires forall piece | piece in other :: Fits(GroupOf(messages, piece), budget, costs)
    ensures |GroupSummaries(messages, budget, costs, cancelled, tick).chunks.value| <= |other|
  {
    var rules := SummaryRules(messages, budget, costs, cancelled);
    SummaryRulesMonotone(messages, budget, costs, cancelled);
    NothingForced(rules, |messages|, 0, 0, tick);
    forall piece | piece in other ensures Admissible(rules, piece) {
      CoversWithin(other, 0, |messages|, piece);
    }
    GreedyIsMinimal(rules, |messages|, 0, 0, tick, 0, other);
  }

  predicate FitsAlone(messages: seq<Message>, m: nat, budget: SummaryBudget, costs: Costs)
    requires m < |messages|
  {
    Fits([messages[m]], budget, costs)
  }

  /**
    Grouping fails when the signal is set at one of its looks, one for each summary, or with the size of
    a request for the first summary that does not fit alone and of its output, and the window.
   */
  lemma GroupingStops(messages: seq<Message>, budget: SummaryBudget, costs: Costs, cancelled: nat -> bool, tick: nat)
    ensures var grouped := GroupSummaries(messages, budget, costs, cancelled, tick);
      match grouped.chunks
      case Success(_) => grouped.tick == tick + |messages| && forall t | tick <= t < grouped.tick :: !cancelled(t)
      case Failure(error) =>
        (error == Cancelled && tick < grouped.tick && cancelled(grouped.tick - 1))
        || exists m | 0 <= m < |messages| ::
             !FitsAlone(messages, m, budget, costs) && (forall u | 0 <= u < m :: FitsAlone(messages, u, budget, costs))
             && error == CompressionRequestTooLarge(
                  Saturate(costs.request([messages[m]]) + budget.maxOutputTokens), budget.maxContextTokens)
  {
    var rules := SummaryRules(messages, budget, costs, cancelled);
    SummaryRulesMonotone(messages, budget, costs, cancelled);
    PackStops(rules, |messages|, 0, 0, tick);
    forall m | 0 <= m < |messages| ensures NeverFits(rules, m) <==> !FitsAlone(messages, m, budget, costs) {
      assert messages[m..m + 1] == [messages[m]];
    }
  }

  /** Absent cancellation, grouping fails exactly when a single summary does not fit by itself. */
  lemma GroupingFailsExactlyWhen(
    messages: seq<Message>, budget: SummaryBudget, costs: Costs, cancelled: nat -> bool, tick: nat)
    requires forall t :: !cancelled(t)
    ensures GroupSummaries(messages, budget, costs, cancelled, tick).chunks.Failure?
      <==> exists m | 0 <= m < |messages| :: !FitsAlone(messages, m, budget, costs)
  {
    var rules := SummaryRules(messages, budget, costs, cancelled);
    SummaryRulesMonotone(messages, budget, costs, cancelled);
    PackFailsExactlyWhen(rules, |messages|, 0, 0, tick);
    forall m | 0 <= m < |messages| ensures NeverFits(rules, m) <==> !FitsAlone(messages, m, budget, costs) {
      assert messages[m..m + 1] == [messages[m]];
    }
    if m :| 0 <= m < |messages| && !FitsAlone(messages, m, budget, costs) {
      assert NeverFits(rules, m);
    }
    if u :| 0 <= u < |messages| && NeverFits(rules, u) {
      assert !FitsAlone(messages, u, budget, costs);
    }
  }
}
