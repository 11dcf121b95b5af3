/** What no record can change: instructions, protected units, and the integrity of tool exchanges. */
module Preservation {
  import opened Wrappers
  import opened Transcript
  import opened Sums
  import opened Units
  import opened Rewriting
  import opened Micro
  import opened Errors
  import opened Summarizer
  import opened Replay

  /** A unit without its position, and its messages as far as a view shows them. */
  datatype UnitShape = UnitShape(protected: bool, messages: seq<Message>)

  function UnitMessages(messages: seq<Message>, unit: Unit): seq<Message> {
    if unit.start <= unit.end <= |messages| then messages[unit.start..unit.end] else []
  }

  /** `Shape` hides the texts of tool results, `Verbatim` nothing. */
  type View = Message -> Message

  function Verbatim(message: Message): Message {
    message
  }

  function ShapeOf(messages: seq<Message>, unit: Unit, view: View): UnitShape {
    UnitShape(unit.protected, Map(UnitMessages(messages, unit), view))
  }

  function ShapesOf(messages: seq<Message>, units: seq<Unit>, view: View): (shapes: seq<UnitShape>)
    ensures |shapes| == |units|
  {
    Map(units, unit => ShapeOf(messages, unit, view))
  }

  /** The shapes of a transcript's units, in order. */
  function Outline(messages: seq<Message>, view: View): seq<UnitShape> {
    ShapesOf(messages, TranscriptUnits(messages), view)
  }

  function Filter<T>(xs: seq<T>, keep: T -> bool): seq<T> {
    if xs == [] then [] else (if keep(xs[0]) then [xs[0]] else []) + Filter(xs[1..], keep)
  }

  lemma {:induction false} FilterConcat<T>(a: seq<T>, b: seq<T>, keep: T -> bool)
    ensures Filter(a + b, keep) == Filter(a, keep) + Filter(b, keep)
  {
    if a == [] {
      assert a + b == b;
    } else {
      assert (a + b)[1..] == a[1..] + b;
      FilterConcat(a[1..], b, keep);
      ConsConcat(if keep(a[0]) then [a[0]] else [], Filter(a[1..], keep), Filter(b, keep));
    }
  }

  lemma {:induction false} FilterNone<T>(xs: seq<T>, keep: T -> bool)
    requires forall x | x in xs :: !keep(x)
    ensures Filter(xs, keep) == []
  {
    if xs != [] {
      assert xs[0] in xs;
      FilterNone(xs[1..], keep);
    }
  }

  /** Protected units: every instruction, every incomplete exchange and every stray tool message. */
  predicate Kept(shape: UnitShape) {
    shape.protected
  }

  /** A unit that consists of a call and the results that follow it. */
  predicate IsExchange(shape: UnitShape) {
    shape.messages != [] && OpensExchange(shape.messages[0])
  }

  function ProtectedUnits(messages: seq<Message>, view: View): seq<UnitShape> {
    Filter(Outline(messages, view), Kept)
  }

  function Exchanges(messages: seq<Message>, view: View): seq<UnitShape> {
    Filter(Outline(messages, view), IsExchange)
  }

  // ----- one step -----

  /** The effect of a replacement: a run of unprotected units becomes one user message. */
  ghost predicate Replaces(
    messages: seq<Message>, messages': seq<Message>, a: nat, b: nat, inserted: Message, view: View)
  {
    var outline := Outline(messages, view);
    a < b <= |outline| && (forall i | a <= i < b :: !outline[i].protected)
    && Outline(messages', view) == outline[..a] + [UnitShape(false, [view(inserted)])] + outline[b..]
  }

  lemma PrefixShapes(messages: seq<Message>, messages': seq<Message>, units: seq<Unit>, cut: nat, view: View)
    requires cut <= |messages| && cut <= |messages'| && messages'[..cut] == messages[..cut]
    requires forall unit | unit in units :: unit.end <= cut
    ensures ShapesOf(messages', units, view) == ShapesOf(messages, units, view)
  {
    forall i | 0 <= i < |units| ensures ShapeOf(messages', units[i], view) == ShapeOf(messages, units[i], view) {
      assert units[i] in units;
      if units[i].start <= units[i].end {
        SliceOfPrefix(messages, messages', cut, units[i].start, units[i].end);
      }
    }
  }

  lemma SuffixShape(
    messages: seq<Message>, unit: Unit, from: nat, messages': seq<Message>, unit': Unit, from': nat, view: View)
    requires from <= |messages| && from' <= |messages'| && messages[from..] == messages'[from'..]
    requires from <= unit.start < unit.end <= |messages|
    requires unit'.start == unit.start + from' - from && unit'.end == unit.end + from' - from
    requires unit'.protected == unit.protected
    ensures ShapeOf(messages', unit', view) == ShapeOf(messages, unit, view)
  {
    SliceOfSuffix(messages, from, messages', from', unit.start - from, unit.end - from);
  }

  lemma SuffixShapes(
    messages: seq<Message>, units: seq<Unit>, from: nat, messages': seq<Message>, units': seq<Unit>, from': nat,
    view: View)
    requires SameSuffix(messages, from, messages', from') && Shifted(units, units', from' - from)
    requires forall unit | unit in units :: from <= unit.start < unit.end <= |messages|
    ensures ShapesOf(messages', units', view) == ShapesOf(messages, units, view)
  {
    forall i | 0 <= i < |units| ensures ShapeOf(messages', units'[i], view) == ShapeOf(messages, units[i], view) {
      assert units[i] in units;
      SuffixShape(messages, units[i], from, messages', units'[i], from', view);
    }
  }

  lemma ShapesConcat(messages: seq<Message>, a: seq<Unit>, b: seq<Unit>, view: View)
    ensures ShapesOf(messages, a + b, view) == ShapesOf(messages, a, view) + ShapesOf(messages, b, view)
  {
  }

  lemma ShapesSlice(messages: seq<Message>, units: seq<Unit>, a: nat, b: nat, view: View)
    requires a <= b <= |units|
    ensures ShapesOf(messages, units, view)[a..b] == ShapesOf(messages, units[a..b], view)
  {
  }

  lemma SplitAt<T>(xs: seq<T>, a: nat)
    requires a < |xs|
    ensures xs == xs[..a] + [xs[a]] + xs[a + 1..]
  {
  }

  lemma UnitsBefore(messages: seq<Message>, a: nat)
    requires a < |TranscriptUnits(messages)|
    ensures forall unit | unit in TranscriptUnits(messages)[..a] :: unit.end <= TranscriptUnits(messages)[a].start
  {
    var units := TranscriptUnits(messages);
    forall unit | unit in units[..a] ensures unit.end <= units[a].start {
      var i :| 0 <= i < a && units[i] == unit;
      UnitOrder(messages, i, a);
    }
  }

  lemma UnitsAfter(messages: seq<Message>, b: nat)
    requires 0 < b <= |TranscriptUnits(messages)|
    ensures forall unit | unit in TranscriptUnits(messages)[b..] ::
      TranscriptUnits(messages)[b - 1].end <= unit.start < unit.end <= |messages|
  {
    var units := TranscriptUnits(messages);
    forall unit | unit in units[b..] ensures units[b - 1].end <= unit.start < unit.end <= |messages| {
      var i :| b <= i < |units| && units[i] == unit;
      UnitOrder(messages, b - 1, i);
    }
  }

  /** Splicing a user message over a run of unprotected units replaces exactly their shapes. */
  lemma SpliceReplaces(messages: seq<Message>, a: nat, b: nat, inserted: Message, view: View)
    requires OpenRun(TranscriptUnits(messages), a, b) && inserted.role == User
    ensures var units := TranscriptUnits(messages);
      units[a].start < units[b - 1].end <= |messages|
      && Replaces(messages, Splice(messages, units[a].start, units[b - 1].end, inserted), a, b, inserted, view)
  {
    var units := TranscriptUnits(messages);
    RunBounds(messages, a, b);
    var start, end := units[a].start, units[b - 1].end;
    var messages' := Splice(messages, start, end, inserted);
    var units' := TranscriptUnits(messages');
    ReplacedUnits(messages, a, b, inserted);
    SplicedParts(messages, start, end, inserted);
    UnitsBefore(messages, a);
    PrefixShapes(messages, messages', units[..a], start, view);
    UnitsAfter(messages, b);
    SuffixShapes(messages, units[b..], end, messages', units'[a + 1..], start + 1, view);
    SplitAt(units', a);
    ShapesConcat(messages', units'[..a] + [units'[a]], units'[a + 1..], view);
    ShapesConcat(messages', units'[..a], [units'[a]], view);
    InsertedShape(messages', start, inserted, view);
    ShapesSlice(messages, units, 0, a, view);
    ShapesSlice(messages, units, b, |units|, view);
    assert units[0..a] == units[..a] && units[b..|units|] == units[b..];
    var outline := Outline(messages, view);
    assert outline[0..a] == outline[..a] && outline[b..|units|] == outline[b..];
    forall i | a <= i < b ensures !outline[i].protected {
      assert outline[i] == ShapeOf(messages, units[i], view);
    }
  }

  lemma InsertedShape(messages: seq<Message>, at: nat, inserted: Message, view: View)
    requires at < |messages| && messages[at] == inserted
    ensures ShapesOf(messages, [Unit(at, at + 1, false)], view) == [UnitShape(false, [view(inserted)])]
  {
    assert UnitMessages(messages, Unit(at, at + 1, false)) == [inserted];
    assert Map([inserted], view) == [view(inserted)];
  }

  /** Rewriting tool texts leaves the outline as it is. */
  lemma SameShapeOutline(messages: seq<Message>, messages': seq<Message>)
    requires SameShape(messages, messages')
    ensures Outline(messages', Shape) == Outline(messages, Shape)
  {
    SameShapeUnits(messages, messages', 0);
    var units := TranscriptUnits(messages);
    forall i | 0 <= i < |units| ensures ShapeOf(messages', units[i], Shape) == ShapeOf(messages, units[i], Shape) {
      assert Map(UnitMessages(messages', units[i]), Shape) == Map(UnitMessages(messages, units[i]), Shape);
    }
  }

  lemma {:induction false} ReplayKeepsShape(messages: seq<Message>, projections: seq<ToolProjection>)
    ensures var replayed := ReplayProjections(messages, projections);
      replayed.Success? ==> SameShape(messages, replayed.value)
    decreases |projections|
  {
    if projections != [] && HasToolText(messages, projections[0].slot) {
      SetTextKeepsShape(messages, projections[0].slot, projections[0].text);
      ReplayKeepsShape(SetText(messages, projections[0].slot, projections[0].text), projections[1..]);
    }
  }

  /** `small` arises from `large` by leaving out a contiguous stretch. */
  ghost predicate CutFrom<T>(small: seq<T>, large: seq<T>) {
    exists p: nat, q: nat | p <= q <= |large| :: small == large[..p] + large[q..]
  }

  lemma ReplacedOutlineKeeps(outline: seq<UnitShape>, outline': seq<UnitShape>, a: nat, b: nat, shape: UnitShape)
    requires a <= b <= |outline| && (forall i | a <= i < b :: !outline[i].protected)
    requires outline' == outline[..a] + [shape] + outline[b..] && !shape.protected && !IsExchange(shape)
    ensures Filter(outline', Kept) == Filter(outline, Kept)
    ensures CutFrom(Filter(outline', IsExchange), Filter(outline, IsExchange))
  {
    var head, run, tail := outline[..a], outline[a..b], outline[b..];
    assert outline == head + run + tail;
    assert forall x | x in run :: !Kept(x);
    FilterNone(run, Kept);
    FilterNone([shape], Kept);
    FilterThree(head, run, tail, Kept);
    FilterThree(head, [shape], tail, Kept);
    FilterNone([shape], IsExchange);
    FilterThree(head, run, tail, IsExchange);
    FilterThree(head, [shape], tail, IsExchange);
    CutMiddle(Filter(head, IsExchange), Filter(run, IsExchange), Filter(tail, IsExchange));
  }

  lemma ReplacementKeeps(
    messages: seq<Message>, messages': seq<Message>, a: nat, b: nat, inserted: Message, view: View)
    requires Replaces(messages, messages', a, b, inserted, view) && view(inserted).role == User
    ensures KeepsUnits(messages, messages', view)
  {
    ReplacedOutlineKeeps(Outline(messages, view), Outline(messages', view), a, b, UnitShape(false, [view(inserted)]));
  }

  lemma FilterThree<T>(a: seq<T>, b: seq<T>, c: seq<T>, keep: T -> bool)
    ensures Filter(a + b + c, keep) == Filter(a, keep) + Filter(b, keep) + Filter(c, keep)
  {
    FilterConcat(a + b, c, keep);
    FilterConcat(a, b, keep);
  }

  lemma CutMiddle<T>(a: seq<T>, b: seq<T>, c: seq<T>)
    ensures CutFrom(a + [] + c, a + b + c)
  {
    var large := a + b + c;
    assert a + [] + c == large[..|a|] + large[|a| + |b|..];
  }

  /** As far as a view shows, all protected units stay, and whole exchanges are left out in one stretch. */
  ghost predicate KeepsUnits(messages: seq<Message>, messages': seq<Message>, view: View) {
    ProtectedUnits(messages', view) == ProtectedUnits(messages, view)
    && CutFrom(Exchanges(messages', view), Exchanges(messages, view))
  }

  /**
    Any record that applies to a transcript, whoever made it, keeps every protected unit and removes
    whole tool exchanges only: each exchange that survives keeps its messages, identifiers and verdict.
    A projection may rewrite the texts of tool results; the other records leave what survives verbatim.
   */
  lemma AppliedRecordKeeps(ports: Ports, record: Record, messages: seq<Message>)
    requires Apply(ports, record, messages).Success?
    ensures KeepsUnits(messages, Apply(ports, record, messages).value, Shape)
    ensures record.kind != MicroProjection ==> KeepsUnits(messages, Apply(ports, record, messages).value, Verbatim)
  {
    var messages' := Apply(ports, record, messages).value;
    if record.kind == MicroProjection {
      ReplayKeepsShape(messages, record.projections);
      SameShapeOutline(messages, messages');
      CutNothing(Exchanges(messages, Shape));
    } else {
      var inserted := if record.kind == Summary then SummaryMessage(ports, record.summary) else TruncationMarker(ports);
      var a, b := AcceptedIsRun(messages, record.start, record.end);
      SpliceReplaces(messages, a, b, inserted, Shape);
      ReplacementKeeps(messages, messages', a, b, inserted, Shape);
      SpliceReplaces(messages, a, b, inserted, Verbatim);
      ReplacementKeeps(messages, messages', a, b, inserted, Verbatim);
    }
  }

  lemma CutNothing<T>(xs: seq<T>)
    ensures CutFrom(xs, xs)
  {
    assert xs == xs[..0] + xs[0..];
  }

  // ----- instructions -----

  function Instructions(messages: seq<Message>): seq<Message> {
    Filter(messages, IsInstruction)
  }

  /** The instructions among shapes: single-message units whose shape is the message itself. */
  function ShapeInstructions(shapes: seq<UnitShape>): seq<Message> {
    if shapes == [] then [] else LeadInstruction(shapes[0]) + ShapeInstructions(shapes[1..])
  }

  function LeadInstruction(shape: UnitShape): seq<Message> {
    if shape.messages != [] && IsInstruction(shape.messages[0]) then [shape.messages[0]] else []
  }

  lemma {:induction false} NoInstructionInToolRun(messages: seq<Message>, i: nat)
    requires i <= |messages|
    ensures Filter(messages[i..ToolRunEnd(messages, i)], IsInstruction) == []
    decreases |messages| - i
  {
    var end := ToolRunEnd(messages, i);
    if i < end {
      assert messages[i..end][1..] == messages[i + 1..end];
      NoInstructionInToolRun(messages, i + 1);
    }
  }

  /** Only a unit that is an instruction contains one. */
  lemma UnitInstructions(messages: seq<Message>, i: nat)
    requires i < |messages|
    ensures Filter(messages[i..UnitAt(messages, i).end], IsInstruction)
         == if IsInstruction(messages[i]) then [messages[i]] else []
  {
    var end := UnitAt(messages, i).end;
    assert messages[i..end] == [messages[i]] + messages[i + 1..end];
    FilterConcat([messages[i]], messages[i + 1..end], IsInstruction);
    assert [messages[i]][1..] == [];
    if OpensExchange(messages[i]) {
      NoInstructionInToolRun(messages, i + 1);
    } else {
      assert messages[i + 1..end] == [];
    }
  }

  lemma {:induction false} OutlineInstructions(messages: seq<Message>, i: nat)
    requires i <= |messages|
    ensures ShapeInstructions(Filter(ShapesOf(messages, UnitsFrom(messages, i), Shape), Kept))
         == Filter(messages[i..], IsInstruction)
    decreases |messages| - i
  {
    if i < |messages| {
      var unit := UnitAt(messages, i);
      OutlineInstructions(messages, unit.end);
      UnitInstructions(messages, i);
      AdjacentSlices(messages, i, unit.end, |messages|);
      assert messages[i..|messages|] == messages[i..] && messages[unit.end..|messages|] == messages[unit.end..];
      FilterConcat(messages[i..unit.end], messages[unit.end..], IsInstruction);
      LeadingShape(messages, i);
      NextShapes(messages, i);
      KeptNext(ShapesOf(messages, UnitsFrom(messages, i), Shape));
    }
  }

  lemma NextShapes(messages: seq<Message>, i: nat)
    requires i < |messages|
    ensures var shapes, unit := ShapesOf(messages, UnitsFrom(messages, i), Shape), UnitAt(messages, i);
      shapes != [] && shapes[0] == ShapeOf(messages, unit, Shape)
      && shapes[1..] == ShapesOf(messages, UnitsFrom(messages, unit.end), Shape)
  {
  }

  lemma LeadingShape(messages: seq<Message>, i: nat)
    requires i < |messages|
    ensures var shape := ShapeOf(messages, UnitAt(messages, i), Shape);
      shape.messages != [] && (IsInstruction(shape.messages[0]) <==> IsInstruction(messages[i]))
      && (IsInstruction(messages[i]) ==> shape.protected && shape.messages[0] == messages[i])
  {
    ShapeKeepsIds(messages[i]);
  }

  lemma KeptNext(shapes: seq<UnitShape>)
    requires shapes != []
    ensures ShapeInstructions(Filter(shapes, Kept))
         == (if shapes[0].protected then LeadInstruction(shapes[0]) else [])
            + ShapeInstructions(Filter(shapes[1..], Kept))
  {
    if shapes[0].protected {
      ShapeInstructionsNext(shapes[0], Filter(shapes[1..], Kept));
    } else {
      assert [] + Filter(shapes[1..], Kept) == Filter(shapes[1..], Kept);
    }
  }

  lemma ShapeInstructionsNext(shape: UnitShape, rest: seq<UnitShape>)
    ensures ShapeInstructions([shape] + rest) == LeadInstruction(shape) + ShapeInstructions(rest)
  {
    assert ([shape] + rest)[1..] == rest;
  }

  /** Instructions are determined by the protected units, so records that keep those keep them. */
  lemma ProtectedDetermineInstructions(messages: seq<Message>, messages': seq<Message>)
    requires ProtectedUnits(messages', Shape) == ProtectedUnits(messages, Shape)
    ensures Instructions(messages') == Instructions(messages)
  {
    OutlineInstructions(messages, 0);
    OutlineInstructions(messages', 0);
    assert messages[0..] == messages && messages'[0..] == messages';
  }

  // ----- whole runs of records -----

  function ApplyAll(ports: Ports, records: seq<Record>, messages: seq<Message>): Result<seq<Message>, ContextError>
    decreases |records|
  {
    if records == [] then Success(messages)
    else match Apply(ports, records[0], messages)
      case Failure(error) => Failure(error)
      case Success(next) => ApplyAll(ports, records[1..], next)
  }

  /** `small` arises from `large` by leaving elements out. */
  predicate Subsequence<T(==)>(small: seq<T>, large: seq<T>)
    decreases |large|
  {
    if small == [] then true
    else if large == [] then false
    else if small[0] == large[0] then Subsequence(small[1..], large[1..])
    else Subsequence(small, large[1..])
  }

  lemma {:induction false} SubsequenceSkip<T>(small: seq<T>, x: T, large: seq<T>)
    requires Subsequence(small, large)
    ensures Subsequence(small, [x] + large)
    decreases |large|, 1
  {
    assert ([x] + large)[1..] == large;
    if small != [] && small[0] == x {
      SubsequenceTail(small, large);
    }
  }

  lemma {:induction false} SubsequenceTail<T>(small: seq<T>, large: seq<T>)
    requires Subsequence(small, large) && small != []
    ensures Subsequence(small[1..], large)
    decreases |large|, 0
  {
    if small[0] == large[0] {
      SubsequenceSkip(small[1..], large[0], large[1..]);
      assert [large[0]] + large[1..] == large;
    } else {
      SubsequenceTail(small, large[1..]);
      SubsequenceSkip(small[1..], large[0], large[1..]);
      assert [large[0]] + large[1..] == large;
    }
  }

  lemma {:induction false} SubsequenceTransitive<T>(a: seq<T>, b: seq<T>, c: seq<T>)
    requires Subsequence(a, b) && Subsequence(b, c)
    ensures Subsequence(a, c)
    decreases |c|
  {
    if a != [] && b != [] && c != [] {
      if b[0] == c[0] {
        if a[0] == b[0] {
          SubsequenceTransitive(a[1..], b[1..], c[1..]);
        } else {
          SubsequenceTransitive(a, b[1..], c[1..]);
        }
      } else {
        SubsequenceTransitive(a, b, c[1..]);
        SubsequenceSkip(a, c[0], c[1..]);
        assert [c[0]] + c[1..] == c;
      }
    }
  }

  lemma {:induction false} SubsequenceSelf<T>(xs: seq<T>)
    ensures Subsequence(xs, xs)
  {
    if xs != [] {
      SubsequenceSelf(xs[1..]);
    }
  }

  lemma {:induction false} CutIsSubsequence<T>(large: seq<T>, p: nat, q: nat)
    requires p <= q <= |large|
    ensures Subsequence(large[..p] + large[q..], large)
    decreases |large|
  {
    if p > 0 {
      var small := large[..p] + large[q..];
      assert small[1..] == large[1..][..p - 1] + large[1..][q - 1..];
      CutIsSubsequence(large[1..], p - 1, q - 1);
    } else if q > 0 {
      CutIsSubsequence(large[1..], 0, q - 1);
      assert large[..0] + large[q..] == large[1..][..0] + large[1..][q - 1..];
      SubsequenceSkip(large[..0] + large[q..], large[0], large[1..]);
      assert [large[0]] + large[1..] == large;
    } else {
      assert large[..0] + large[0..] == large;
      SubsequenceSelf(large);
    }
  }

  ghost predicate NoProjection(records: seq<Record>) {
    forall record | record in records :: record.kind != MicroProjection
  }

  function ViewFor(verbatim: bool): View {
    if verbatim then Verbatim else Shape
  }

  lemma {:induction false} RunKeepsUnits(ports: Ports, records: seq<Record>, messages: seq<Message>, verbatim: bool)
    requires ApplyAll(ports, records, messages).Success? && (verbatim ==> NoProjection(records))
    ensures var messages', view := ApplyAll(ports, records, messages).value, ViewFor(verbatim);
      ProtectedUnits(messages', view) == ProtectedUnits(messages, view)
      && Subsequence(Exchanges(messages', view), Exchanges(messages, view))
    decreases |records|
  {
    var view := ViewFor(verbatim);
    if records == [] {
      SubsequenceSelf(Exchanges(messages, view));
    } else {
      assert records[0] in records;
      var next := Apply(ports, records[0], messages).value;
      AppliedRecordKeeps(ports, records[0], messages);
      RunKeepsUnits(ports, records[1..], next, verbatim);
      var large := Exchanges(messages, view);
      var p: nat, q: nat :| p <= q <= |large| && Exchanges(next, view) == large[..p] + large[q..];
      CutIsSubsequence(large, p, q);
      SubsequenceTransitive(Exchanges(ApplyAll(ports, records, messages).value, view), Exchanges(next, view), large);
    }
  }

  /**
    Over any run of records the instructions and all protected units stay as they are, and the tool
    exchanges that remain are, in order, exchanges of the original transcript; without projections
    among the records they are so verbatim.
   */
  lemma RunOfRecordsKeeps(ports: Ports, records: seq<Record>, messages: seq<Message>)
    requires ApplyAll(ports, records, messages).Success?
    ensures var messages' := ApplyAll(ports, records, messages).value;
      Instructions(messages') == Instructions(messages)
      && ProtectedUnits(messages', Shape) == ProtectedUnits(messages, Shape)
      && Subsequence(Exchanges(messages', Shape), Exchanges(messages, Shape))
      && (NoProjection(records) ==>
            ProtectedUnits(messages', Verbatim) == ProtectedUnits(messages, Verbatim)
            && Subsequence(Exchanges(messages', Verbatim), Exchanges(messages, Verbatim)))
  {
    RunKeepsUnits(ports, records, messages, false);
    ProtectedDetermineInstructions(messages, ApplyAll(ports, records, messages).value);
    if NoProjection(records) {
      RunKeepsUnits(ports, records, messages, true);
    }
  }
}
