/** The indivisible units of a transcript and the ranges a compaction may replace. */
module Units {
  import opened Transcript
  import opened Sums

  /** The identifiers of the calls in a list of blocks, in order. */
  function BlockCallIds(blocks: seq<Block>): seq<string> {
    if blocks == [] then []
    else (if blocks[0].ToolCall? then [blocks[0].id] else []) + BlockCallIds(blocks[1..])
  }

  function BlockResultIds(blocks: seq<Block>): seq<string> {
    if blocks == [] then []
    else (if blocks[0].ToolResult? then [blocks[0].callId] else []) + BlockResultIds(blocks[1..])
  }

  /** `assistant_tool_call_ids`: only an assistant message opens an exchange. */
  function CallIds(message: Message): seq<string> {
    if message.role == Assistant then BlockCallIds(message.content) else []
  }

  /** The result identifiers of the messages in `[from, to)`, in order. */
  function ResultIds(messages: seq<Message>, from: nat, limit: nat): seq<string>
    requires from <= limit <= |messages|
    decreases limit - from
  {
    if from == limit then []
    else ResultIds(messages, from, limit - 1) + BlockResultIds(messages[limit - 1].content)
  }

  /** The completeness test of an exchange: same length and mutual inclusion. */
  predicate Complete(calls: seq<string>, results: seq<string>) {
    |calls| == |results|
    && (forall id | id in calls :: id in results)
    && (forall id | id in results :: id in calls)
  }

  predicate IsInstruction(message: Message) {
    message.role == System || message.role == Developer
  }

  /** The end of the run of tool messages that begins at `i`. */
  function ToolRunEnd(messages: seq<Message>, i: nat): (end: nat)
    requires i <= |messages|
    ensures i <= end <= |messages|
    decreases |messages| - i
  {
    if i < |messages| && messages[i].role == Tool then ToolRunEnd(messages, i + 1) else i
  }

  predicate OpensExchange(message: Message) {
    !IsInstruction(message) && CallIds(message) != []
  }

  datatype Unit = Unit(start: nat, end: nat, protected: bool)

  /** The unit that begins at `i`: a single message, or a call with the results that follow it. */
  function UnitAt(messages: seq<Message>, i: nat): (unit: Unit)
    requires i < |messages|
    ensures unit.start == i < unit.end <= |messages|
  {
    if OpensExchange(messages[i]) then
      var end := ToolRunEnd(messages, i + 1);
      Unit(i, end, !Complete(CallIds(messages[i]), ResultIds(messages, i + 1, end)))
    else
      Unit(i, i + 1, IsInstruction(messages[i]) || messages[i].role == Tool)
  }

  function UnitsFrom(messages: seq<Message>, i: nat): seq<Unit>
    requires i <= |messages|
    decreases |messages| - i
  {
    if i == |messages| then []
    else [UnitAt(messages, i)] + UnitsFrom(messages, UnitAt(messages, i).end)
  }

  /** `transcript_units`. */
  function TranscriptUnits(messages: seq<Message>): seq<Unit> {
    UnitsFrom(messages, 0)
  }

  method ComputeTranscriptUnits(messages: seq<Message>) returns (units: seq<Unit>)
    ensures units == TranscriptUnits(messages)
  {
    units := [];
    var index := 0;
    while index < |messages|
      invariant 0 <= index <= |messages|
      invariant units + UnitsFrom(messages, index) == TranscriptUnits(messages)
    {
      var message := messages[index];
      var unit;
      if IsInstruction(message) {
        unit := Unit(index, index + 1, true);
      } else {
        var callIds := CallIds(message);
        if callIds == [] {
          unit := Unit(index, index + 1, message.role == Tool);
        } else {
          var end, resultIds := CollectResults(messages, index + 1);
          unit := Unit(index, end, !Complete(callIds, resultIds));
        }
      }
      assert unit == UnitAt(messages, index);
      ConsAppend(units, unit, UnitsFrom(messages, unit.end));
      units := units + [unit];
      index := unit.end;
    }
  }

  lemma ConsAppend<T>(a: seq<T>, x: T, b: seq<T>)
    ensures a + ([x] + b) == (a + [x]) + b
  {
  }

  lemma ConsTake<T>(x: T, xs: seq<T>, k: nat, ys: seq<T>)
    requires 0 < k <= |xs| + 1
    ensures ([x] + xs)[..k] + ys == [x] + (xs[..k - 1] + ys)
  {
    assert ([x] + xs)[..k] == [x] + xs[..k - 1];
  }

  /** The results that follow a call: the longest run of tool messages and its identifiers. */
  method CollectResults(messages: seq<Message>, from: nat) returns (end: nat, ids: seq<string>)
    requires from <= |messages|
    ensures end == ToolRunEnd(messages, from)
    ensures ids == ResultIds(messages, from, end)
  {
    end, ids := from, [];
    while end < |messages| && messages[end].role == Tool
      invariant from <= end <= |messages|
      invariant ToolRunEnd(messages, end) == ToolRunEnd(messages, from)
      invariant ids == ResultIds(messages, from, end)
    {
      ids := ids + BlockResultIds(messages[end].content);
      end := end + 1;
    }
  }

  /** Consecutive units are adjacent and not empty, and together they cover `[from, to)`. */
  ghost predicate Tiles(units: seq<Unit>, from: nat, limit: nat) {
    (forall i | 0 <= i < |units| :: from <= units[i].start < units[i].end <= limit)
    && (forall i | 0 <= i < |units| - 1 :: units[i].end == units[i + 1].start)
    && (if units == [] then from == limit
        else units[0].start == from && units[|units| - 1].end == limit)
  }

  lemma {:induction false} UnitsTile(messages: seq<Message>, i: nat)
    requires i <= |messages|
    ensures Tiles(UnitsFrom(messages, i), i, |messages|)
    decreases |messages| - i
  {
    if i < |messages| {
      var next := UnitAt(messages, i).end;
      UnitsTile(messages, next);
      var units, rest := UnitsFrom(messages, i), UnitsFrom(messages, next);
      assert forall k | 1 <= k < |units| :: units[k] == rest[k - 1];
    }
  }

  /** In a tiling, units are ordered by position. */
  lemma TilesOrdered(units: seq<Unit>, from: nat, limit: nat, i: nat, j: nat)
    requires Tiles(units, from, limit) && i <= j < |units|
    ensures units[i].start <= units[j].start && units[i].end <= units[j].end
    ensures i < j ==> units[i].end <= units[j].start
    decreases j - i
  {
    if i < j {
      TilesOrdered(units, from, limit, i, j - 1);
    }
  }

  lemma UnitOrder(messages: seq<Message>, i: nat, j: nat)
    requires i <= j < |TranscriptUnits(messages)|
    ensures var units := TranscriptUnits(messages);
      units[i].start <= units[j].start < units[j].end <= |messages| && units[i].end <= units[j].end
    ensures i < j ==> TranscriptUnits(messages)[i].end <= TranscriptUnits(messages)[j].start
  {
    UnitsTile(messages, 0);
    TilesOrdered(TranscriptUnits(messages), 0, |messages|, i, j);
  }

  /** The position where the `k`-th unit begins, or the end of the transcript. */
  function StartOf(units: seq<Unit>, k: nat, end: nat): nat
    requires k <= |units|
  {
    if k == |units| then end else units[k].start
  }

  ghost predicate Shifted(units: seq<Unit>, others: seq<Unit>, distance: int) {
    |units| == |others|
    && forall i | 0 <= i < |units| ::
      others[i].start == units[i].start + distance
      && others[i].end == units[i].end + distance
      && others[i].protected == units[i].protected
  }

  lemma ShiftedCons(u: Unit, units: seq<Unit>, u': Unit, units': seq<Unit>, distance: int)
    requires Shifted(units, units', distance)
    requires u'.start == u.start + distance && u'.end == u.end + distance
    requires u'.protected == u.protected
    ensures Shifted([u] + units, [u'] + units', distance)
  {
  }

  /** Two transcripts agree from `i` and `i'` on. */
  ghost predicate SameSuffix(messages: seq<Message>, i: nat, messages': seq<Message>, i': nat) {
    i <= |messages| && i' <= |messages'| && messages[i..] == messages'[i'..]
  }

  lemma SameNext(messages: seq<Message>, i: nat, messages': seq<Message>, i': nat, k: nat)
    requires SameSuffix(messages, i, messages', i') && i + k <= |messages|
    ensures |messages| - i == |messages'| - i'
    ensures SameSuffix(messages, i + k, messages', i' + k)
    ensures i + k < |messages| ==> messages[i + k] == messages'[i' + k]
  {
    assert |messages[i..]| == |messages'[i'..]|;
    assert messages[i..][k..] == messages[i + k..] && messages'[i'..][k..] == messages'[i' + k..];
    if i + k < |messages| {
      assert messages[i..][k] == messages'[i'..][k];
    }
  }

  lemma {:induction false} SameToolRun(messages: seq<Message>, i: nat, messages': seq<Message>, i': nat)
    requires SameSuffix(messages, i, messages', i')
    ensures ToolRunEnd(messages', i') - i' == ToolRunEnd(messages, i) - i
    decreases |messages| - i
  {
    SameNext(messages, i, messages', i', 0);
    if i < |messages| && messages[i].role == Tool {
      SameNext(messages, i, messages', i', 1);
      SameToolRun(messages, i + 1, messages', i' + 1);
    }
  }

  lemma {:induction false} SameResultIds(
    messages: seq<Message>, i: nat, messages': seq<Message>, i': nat, k: nat)
    requires SameSuffix(messages, i, messages', i') && i + k <= |messages| && i' + k <= |messages'|
    ensures ResultIds(messages', i', i' + k) == ResultIds(messages, i, i + k)
    decreases k
  {
    if k > 0 {
      SameElement(messages, i, messages', i', k - 1);
      SameResultIds(messages, i, messages', i', k - 1);
    }
  }

  lemma SameElement(messages: seq<Message>, i: nat, messages': seq<Message>, i': nat, k: nat)
    requires SameSuffix(messages, i, messages', i') && i + k < |messages|
    ensures i' + k < |messages'| && messages'[i' + k] == messages[i + k]
  {
    SameNext(messages, i, messages', i', k);
  }

  /** An exchange has the same results and the same end wherever it stands. */
  lemma SameExchange(messages: seq<Message>, i: nat, messages': seq<Message>, i': nat)
    requires SameSuffix(messages, i, messages', i') && i <= |messages| && i' <= |messages'|
    ensures var end, end' := ToolRunEnd(messages, i), ToolRunEnd(messages', i');
      end' - i' == end - i && ResultIds(messages', i', end') == ResultIds(messages, i, end)
  {
    SameToolRun(messages, i, messages', i');
    SameResultIds(messages, i, messages', i', ToolRunEnd(messages, i) - i);
  }

  lemma SameUnit(messages: seq<Message>, i: nat, messages': seq<Message>, i': nat)
    requires SameSuffix(messages, i, messages', i') && i < |messages| && i' < |messages'|
    ensures var u, u' := UnitAt(messages, i), UnitAt(messages', i');
      u'.end - i' == u.end - i && u'.protected == u.protected
  {
    SameElement(messages, i, messages', i', 0);
    SameNext(messages, i, messages', i', 1);
    SameExchange(messages, i + 1, messages', i' + 1);
  }

  /** Parsing a suffix does not look at what comes before it. */
  lemma {:induction false} SuffixUnits(messages: seq<Message>, i: nat, messages': seq<Message>, i': nat)
    requires SameSuffix(messages, i, messages', i')
    ensures Shifted(UnitsFrom(messages, i), UnitsFrom(messages', i'), i' - i)
    decreases |messages| - i
  {
    SameNext(messages, i, messages', i', 0);
    if i < |messages| {
      SameUnit(messages, i, messages', i');
      var u, u' := UnitAt(messages, i), UnitAt(messages', i');
      SameNext(messages, i, messages', i', u.end - i);
      SuffixUnits(messages, u.end, messages', u'.end);
      ShiftedCons(u, UnitsFrom(messages, u.end), u', UnitsFrom(messages', u'.end), i' - i);
    }
  }

  /** The units after the `k`-th are the units parsed from where it begins. */
  lemma {:induction false} CutAtUnit(messages: seq<Message>, i: nat, k: nat)
    requires i <= |messages| && k <= |UnitsFrom(messages, i)|
    ensures var at := StartOf(UnitsFrom(messages, i), k, |messages|);
      i <= at <= |messages| && UnitsFrom(messages, i)[k..] == UnitsFrom(messages, at)
    decreases |messages| - i
  {
    if k > 0 {
      CutAtUnit(messages, UnitAt(messages, i).end, k - 1);
    }
  }

  /** Two transcripts agree before `cut`, where the second holds no tool message. */
  ghost predicate SamePrefix(messages: seq<Message>, messages': seq<Message>, cut: nat) {
    cut <= |messages| && cut < |messages'| && messages'[cut].role != Tool
    && messages'[..cut] == messages[..cut]
  }

  lemma SameBefore(messages: seq<Message>, messages': seq<Message>, cut: nat, i: nat)
    requires SamePrefix(messages, messages', cut) && i < cut
    ensures messages'[i] == messages[i]
  {
    assert messages'[..cut][i] == messages[..cut][i];
  }

  lemma {:induction false} ToolRunBefore(messages: seq<Message>, messages': seq<Message>, cut: nat, i: nat)
    requires SamePrefix(messages, messages', cut) && i <= |messages|
    requires ToolRunEnd(messages, i) <= cut
    ensures ToolRunEnd(messages', i) == ToolRunEnd(messages, i)
    decreases cut - i
  {
    if i < cut {
      SameBefore(messages, messages', cut, i);
      if messages[i].role == Tool {
        ToolRunBefore(messages, messages', cut, i + 1);
      }
    }
  }

  lemma {:induction false} ResultIdsBefore(
    messages: seq<Message>, messages': seq<Message>, cut: nat, from: nat, limit: nat)
    requires SamePrefix(messages, messages', cut) && from <= limit <= cut
    ensures ResultIds(messages', from, limit) == ResultIds(messages, from, limit)
    decreases limit - from
  {
    if from < limit {
      SameBefore(messages, messages', cut, limit - 1);
      ResultIdsBefore(messages, messages', cut, from, limit - 1);
    }
  }

  lemma UnitBefore(messages: seq<Message>, messages': seq<Message>, cut: nat, i: nat)
    requires SamePrefix(messages, messages', cut) && i < |messages|
    requires UnitAt(messages, i).end <= cut
    ensures UnitAt(messages', i) == UnitAt(messages, i)
  {
    SameBefore(messages, messages', cut, i);
    if OpensExchange(messages[i]) {
      ToolRunBefore(messages, messages', cut, i + 1);
      ResultIdsBefore(messages, messages', cut, i + 1, ToolRunEnd(messages, i + 1));
    }
  }

  /** Parsing up to a unit boundary does not look past it unless a tool message follows. */
  lemma {:induction false} PrefixUnits(messages: seq<Message>, messages': seq<Message>, i: nat, k: nat)
    requires i <= |messages| && k <= |UnitsFrom(messages, i)|
    requires SamePrefix(messages, messages', StartOf(UnitsFrom(messages, i), k, |messages|))
    ensures var at := StartOf(UnitsFrom(messages, i), k, |messages|);
      i <= at && UnitsFrom(messages', i) == UnitsFrom(messages, i)[..k] + UnitsFrom(messages', at)
    decreases |messages| - i
  {
    CutAtUnit(messages, i, k);
    var at := StartOf(UnitsFrom(messages, i), k, |messages|);
    if k > 0 {
      var u := UnitAt(messages, i);
      CutAtUnit(messages, u.end, k - 1);
      UnitBefore(messages, messages', at, i);
      PrefixUnits(messages, messages', u.end, k - 1);
      ConsTake(u, UnitsFrom(messages, u.end), k, UnitsFrom(messages', at));
    }
  }

  /** The unit indices `[a, b)` select a non-empty run of consecutive unprotected units. */
  ghost predicate OpenRun(units: seq<Unit>, a: nat, b: nat) {
    a < b <= |units| && forall i | a <= i < b :: !units[i].protected
  }

  /**
    Replacing a run of whole units by one user message leaves the units before it as they were,
    shifts the units after it, and puts a single unprotected unit between them.
   */
  lemma ReplacedUnits(messages: seq<Message>, a: nat, b: nat, message: Message)
    requires a < b <= |TranscriptUnits(messages)| && message.role == User
    ensures var units := TranscriptUnits(messages);
      var start, end := units[a].start, units[b - 1].end;
      start < end <= |messages|
      && var units' := TranscriptUnits(Splice(messages, start, end, message));
      |units'| == a + 1 + (|units| - b)
      && units'[..a] == units[..a]
      && units'[a] == Unit(start, start + 1, false)
      && Shifted(units[b..], units'[a + 1..], start + 1 - end)
  {
    var units := TranscriptUnits(messages);
    RunBounds(messages, a, b);
    var start, end := units[a].start, units[b - 1].end;
    var messages' := Splice(messages, start, end, message);
    SplicedParts(messages, start, end, message);
    PrefixUnits(messages, messages', 0, a);
    CutAtUnit(messages, 0, b);
    SuffixUnits(messages, end, messages', start + 1);
    var inserted := Unit(start, start + 1, false);
    assert UnitAt(messages', start) == inserted;
    ThreeUnitParts(units[..a], inserted, UnitsFrom(messages', start + 1));
  }

  lemma SplicedParts(messages: seq<Message>, start: nat, end: nat, message: Message)
    requires start < end <= |messages| && message.role == User
    ensures var messages' := Splice(messages, start, end, message);
      SamePrefix(messages, messages', start) && messages'[start] == message
      && SameSuffix(messages, end, messages', start + 1)
  {
    var messages' := Splice(messages, start, end, message);
    assert messages'[..start] == messages[..start];
    assert messages'[start + 1..] == messages[end..];
  }

  lemma ThreeUnitParts(head: seq<Unit>, unit: Unit, tail: seq<Unit>)
    ensures var all := head + ([unit] + tail);
      |all| == |head| + 1 + |tail| && all[..|head|] == head && all[|head|] == unit && all[|head| + 1..] == tail
  {
  }

  lemma RunBounds(messages: seq<Message>, a: nat, b: nat)
    requires a < b <= |TranscriptUnits(messages)|
    ensures var units := TranscriptUnits(messages);
      units[a].start < units[b - 1].end <= |messages|
      && units[b - 1].end == StartOf(units, b, |messages|)
  {
    UnitsTile(messages, 0);
    TilesOrdered(TranscriptUnits(messages), 0, |messages|, a, b - 1);
  }

  /** The loop of `validate_replacement_range` from the `i`-th unit on. */
  predicate AcceptsFrom(units: seq<Unit>, i: nat, start: nat, end: nat, cursor: nat)
    requires i <= |units|
    decreases |units| - i
  {
    if i == |units| then cursor == end
    else if units[i].end > start && units[i].start < end then
      !units[i].protected && units[i].start == cursor && units[i].end <= end
      && AcceptsFrom(units, i + 1, start, end, units[i].end)
    else AcceptsFrom(units, i + 1, start, end, cursor)
  }

  predicate Accepts(messages: seq<Message>, start: nat, end: nat) {
    AcceptsFrom(TranscriptUnits(messages), 0, start, end, start)
  }

  method ValidateReplacementRange(messages: seq<Message>, start: nat, end: nat) returns (ok: bool)
    ensures ok == Accepts(messages, start, end)
  {
    var units := ComputeTranscriptUnits(messages);
    var cursor := start;
    for i := 0 to |units|
      invariant AcceptsFrom(units, i, start, end, cursor) == Accepts(messages, start, end)
    {
      var unit := units[i];
      if unit.end > start && unit.start < end {
        if unit.protected || unit.start != cursor || unit.end > end {
          return false;
        }
        cursor := unit.end;
      }
    }
    ok := cursor == end;
  }

  /** Past the end of the range every unit is skipped. */
  lemma {:induction false} AcceptsAfter(units: seq<Unit>, i: nat, start: nat, end: nat, cursor: nat, limit: nat)
    requires Tiles(units, 0, limit) && i <= |units| && end <= StartOf(units, i, limit)
    ensures AcceptsFrom(units, i, start, end, cursor) == (cursor == end)
    decreases |units| - i
  {
    if i < |units| {
      AcceptsAfter(units, i + 1, start, end, cursor, limit);
    }
  }

  lemma {:induction false} AcceptedInside(units: seq<Unit>, i: nat, start: nat, end: nat, limit: nat) returns (b: nat)
    requires Tiles(units, 0, limit) && i < |units| && start <= units[i].start < end
    requires AcceptsFrom(units, i, start, end, units[i].start)
    ensures OpenRun(units, i, b) && units[b - 1].end == end
    decreases |units| - i
  {
    if units[i].end == end || i + 1 == |units| {
      b := i + 1;
    } else {
      b := AcceptedInside(units, i + 1, start, end, limit);
    }
  }

  lemma {:induction false} AcceptedFrom(units: seq<Unit>, i: nat, start: nat, end: nat, limit: nat)
    returns (a: nat, b: nat)
    requires Tiles(units, 0, limit) && i <= |units| && StartOf(units, i, limit) <= start < end <= limit
    requires AcceptsFrom(units, i, start, end, start)
    ensures OpenRun(units, a, b) && units[a].start == start && units[b - 1].end == end
    decreases |units| - i
  {
    if i < |units| && units[i].start == start {
      a := i;
      b := AcceptedInside(units, i, start, end, limit);
    } else {
      a, b := AcceptedFrom(units, i + 1, start, end, limit);
    }
  }

  lemma {:induction false} RunAcceptedInside(units: seq<Unit>, i: nat, b: nat, start: nat, end: nat, limit: nat)
    requires Tiles(units, 0, limit) && OpenRun(units, i, b)
    requires start <= units[i].start && units[b - 1].end == end
    ensures AcceptsFrom(units, i, start, end, units[i].start)
    decreases b - i
  {
    TilesOrdered(units, 0, limit, i, b - 1);
    if i + 1 == b {
      AcceptsAfter(units, b, start, end, end, limit);
    } else {
      RunAcceptedInside(units, i + 1, b, start, end, limit);
    }
  }

  lemma {:induction false} RunAcceptedFrom(units: seq<Unit>, i: nat, a: nat, b: nat, limit: nat)
    requires Tiles(units, 0, limit) && i <= a && OpenRun(units, a, b)
    ensures AcceptsFrom(units, i, units[a].start, units[b - 1].end, units[a].start)
    decreases a - i
  {
    if i == a {
      RunAcceptedInside(units, a, b, units[a].start, units[b - 1].end, limit);
    } else {
      TilesOrdered(units, 0, limit, i, a);
      RunAcceptedFrom(units, i + 1, a, b, limit);
    }
  }

  /** The validator accepts a run of unprotected units. */
  lemma RunIsAccepted(messages: seq<Message>, a: nat, b: nat)
    requires OpenRun(TranscriptUnits(messages), a, b)
    ensures var units := TranscriptUnits(messages);
      units[a].start < units[b - 1].end <= |messages|
      && Accepts(messages, units[a].start, units[b - 1].end)
  {
    var units := TranscriptUnits(messages);
    UnitsTile(messages, 0);
    TilesOrdered(units, 0, |messages|, a, b - 1);
    RunAcceptedFrom(units, 0, a, b, |messages|);
  }

  /** Everything the validator accepts is a run of unprotected units. */
  lemma AcceptedIsRun(messages: seq<Message>, start: nat, end: nat) returns (a: nat, b: nat)
    requires start < end <= |messages| && Accepts(messages, start, end)
    ensures var units := TranscriptUnits(messages);
      OpenRun(units, a, b) && units[a].start == start && units[b - 1].end == end
  {
    UnitsTile(messages, 0);
    a, b := AcceptedFrom(TranscriptUnits(messages), 0, start, end, |messages|);
  }

  ghost predicate CoversRun(units: seq<Unit>, start: nat, end: nat) {
    exists a: nat, b: nat | OpenRun(units, a, b) :: units[a].start == start && units[b - 1].end == end
  }

  /** `validate_replacement_range` accepts exactly the unions of consecutive unprotected units. */
  lemma AcceptsExactlyOpenRuns(messages: seq<Message>, start: nat, end: nat)
    requires start < end <= |messages|
    ensures Accepts(messages, start, end) <==> CoversRun(TranscriptUnits(messages), start, end)
  {
    var units := TranscriptUnits(messages);
    if Accepts(messages, start, end) {
      var a, b := AcceptedIsRun(messages, start, end);
    }
    if CoversRun(units, start, end) {
      var a: nat, b: nat :| OpenRun(units, a, b) && units[a].start == start && units[b - 1].end == end;
      RunIsAccepted(messages, a, b);
    }
  }
}
