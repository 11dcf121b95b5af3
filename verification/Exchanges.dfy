/** Units and their identifiers in terms of the blocks of the messages. */
module Exchanges {
  import opened Wrappers
  import opened Transcript
  import opened Sums
  import opened Units

  // ----- identifiers -----

  function Called(block: Block): Option<string> {
    if block.ToolCall? then Some(block.id) else None
  }

  function Answered(block: Block): Option<string> {
    if block.ToolResult? then Some(block.callId) else None
  }

  /** The blocks that bear an identifier of their kind. */
  ghost function Bearers(blocks: seq<Block>, naming: Block -> Option<string>): set<nat> {
    set i: nat | i < |blocks| && naming(blocks[i]).Some?
  }

  ghost function Bearing(blocks: seq<Block>, naming: Block -> Option<string>, id: string): set<nat> {
    set i: nat | i < |blocks| && naming(blocks[i]) == Some(id)
  }

  /** At the ascending positions `at`, which leave out no bearer, stand the bearers of `ids`, in order. */
  ghost predicate Lists(blocks: seq<Block>, naming: Block -> Option<string>, ids: seq<string>, at: seq<nat>) {
    |at| == |ids|
    && (forall k | 0 <= k < |at| :: at[k] < |blocks| && naming(blocks[at[k]]) == Some(ids[k]))
    && (forall j, k | 0 <= j < k < |at| :: at[j] < at[k])
    && (forall i | i in Bearers(blocks, naming) :: i in at)
  }

  /** The identifiers of one more block. */
  function Named(block: Block, naming: Block -> Option<string>): seq<string> {
    match naming(block) case Some(id) => [id] case None => []
  }

  lemma ListsNext(
    blocks: seq<Block>, last: Block, naming: Block -> Option<string>, ids: seq<string>, at: seq<nat>)
    requires Lists(blocks, naming, ids, at)
    ensures Lists(blocks + [last], naming, ids + Named(last, naming),
                  if naming(last).Some? then at + [|blocks|] else at)
  {
    var more := blocks + [last];
    forall i | i in Bearers(more, naming) ensures i in at || (i == |blocks| && naming(last).Some?) {
      if i < |blocks| {
        assert i in Bearers(blocks, naming);
      }
    }
  }

  lemma BearingNext(blocks: seq<Block>, last: Block, naming: Block -> Option<string>, id: string)
    ensures |Bearing(blocks + [last], naming, id)|
         == |Bearing(blocks, naming, id)| + multiset(Named(last, naming))[id]
  {
    var more := blocks + [last];
    if naming(last) == Some(id) {
      assert Bearing(more, naming, id) == Bearing(blocks, naming, id) + {|blocks|};
    } else {
      assert Bearing(more, naming, id) == Bearing(blocks, naming, id);
    }
  }

  lemma {:induction false} CallIdsConcat(a: seq<Block>, b: seq<Block>)
    ensures BlockCallIds(a + b) == BlockCallIds(a) + BlockCallIds(b)
  {
    if a == [] {
      assert a + b == b;
    } else {
      assert (a + b)[1..] == a[1..] + b;
      CallIdsConcat(a[1..], b);
      ConsConcat(Named(a[0], Called), BlockCallIds(a[1..]), BlockCallIds(b));
    }
  }

  lemma {:induction false} ResultIdsConcat(a: seq<Block>, b: seq<Block>)
    ensures BlockResultIds(a + b) == BlockResultIds(a) + BlockResultIds(b)
  {
    if a == [] {
      assert a + b == b;
    } else {
      assert (a + b)[1..] == a[1..] + b;
      ResultIdsConcat(a[1..], b);
      ConsConcat(Named(a[0], Answered), BlockResultIds(a[1..]), BlockResultIds(b));
    }
  }

  lemma IdsNext(blocks: seq<Block>, last: Block)
    ensures BlockCallIds(blocks + [last]) == BlockCallIds(blocks) + Named(last, Called)
    ensures BlockResultIds(blocks + [last]) == BlockResultIds(blocks) + Named(last, Answered)
  {
    CallIdsConcat(blocks, [last]);
    ResultIdsConcat(blocks, [last]);
    assert [last][1..] == [];
  }

  /** The identifiers of the calls and of the results are those of their blocks, each once, in order. */
  lemma {:induction false} IdsAreListed(blocks: seq<Block>) returns (calls: seq<nat>, results: seq<nat>)
    ensures Lists(blocks, Called, BlockCallIds(blocks), calls)
    ensures Lists(blocks, Answered, BlockResultIds(blocks), results)
  {
    if blocks == [] {
      calls, results := [], [];
    } else {
      var init, last := blocks[..|blocks| - 1], blocks[|blocks| - 1];
      calls, results := IdsAreListed(init);
      assert blocks == init + [last];
      IdsNext(init, last);
      ListsNext(init, last, Called, BlockCallIds(init), calls);
      ListsNext(init, last, Answered, BlockResultIds(init), results);
      calls := if last.ToolCall? then calls + [|init|] else calls;
      results := if last.ToolResult? then results + [|init|] else results;
    }
  }

  /** An identifier is listed as often as there are calls, or results, that bear it. */
  lemma {:induction false} IdsAreCounted(blocks: seq<Block>, id: string)
    ensures multiset(BlockCallIds(blocks))[id] == |Bearing(blocks, Called, id)|
    ensures multiset(BlockResultIds(blocks))[id] == |Bearing(blocks, Answered, id)|
  {
    if blocks != [] {
      var init, last := blocks[..|blocks| - 1], blocks[|blocks| - 1];
      assert blocks == init + [last];
      IdsAreCounted(init, id);
      IdsNext(init, last);
      BearingNext(init, last, Called, id);
      BearingNext(init, last, Answered, id);
    }
  }

  /** Any of the blocks of a message is a call. */
  predicate HasCall(message: Message) {
    exists b | 0 <= b < |message.content| :: message.content[b].ToolCall?
  }

  lemma {:induction false} AnyCall(blocks: seq<Block>)
    ensures BlockCallIds(blocks) != [] <==> exists b | 0 <= b < |blocks| :: blocks[b].ToolCall?
  {
    if blocks != [] {
      AnyCall(blocks[1..]);
      assert forall b | 0 < b < |blocks| :: blocks[b] == blocks[1..][b - 1];
      if !blocks[0].ToolCall? && BlockCallIds(blocks[1..]) != [] {
        var b :| 0 <= b < |blocks[1..]| && blocks[1..][b].ToolCall?;
        assert blocks[b + 1].ToolCall?;
      }
    }
  }

  /** A message opens an exchange if and only if an assistant wrote it and any of its blocks is a call. */
  lemma OpensExactlyWhen(message: Message)
    ensures OpensExchange(message) <==> message.role == Assistant && HasCall(message)
  {
    AnyCall(message.content);
  }

  /** The identifiers that blocks of this kind bear. */
  ghost function Names(blocks: seq<Block>, naming: Block -> Option<string>): set<string> {
    if blocks == [] then {}
    else
      var rest := Names(blocks[..|blocks| - 1], naming);
      match naming(blocks[|blocks| - 1]) case Some(id) => rest + {id} case None => rest
  }

  lemma {:induction false} NamesAre(blocks: seq<Block>, naming: Block -> Option<string>, id: string)
    ensures id in Names(blocks, naming) <==> exists b | 0 <= b < |blocks| :: naming(blocks[b]) == Some(id)
  {
    if blocks != [] {
      var init, last := blocks[..|blocks| - 1], blocks[|blocks| - 1];
      NamesAre(init, naming, id);
      if naming(last) == Some(id) {
        assert naming(blocks[|blocks| - 1]) == Some(id);
      }
      if b :| 0 <= b < |init| && naming(init[b]) == Some(id) {
        assert naming(blocks[b]) == Some(id);
      }
    }
  }

  /** Identifiers of calls stand only in assistant messages, once for each call block that bears them. */
  lemma CallIdsAre(message: Message, id: string)
    ensures id in CallIds(message) <==> message.role == Assistant && id in Names(message.content, Called)
    ensures message.role == Assistant ==>
      multiset(CallIds(message))[id] == |Bearing(message.content, Called, id)|
  {
    IdsAreCounted(message.content, id);
    if message.role == Assistant {
      assert id in CallIds(message) <==> multiset(CallIds(message))[id] > 0;
      NamesCounted(message.content, Called, id);
    }
  }

  lemma NamesCounted(blocks: seq<Block>, naming: Block -> Option<string>, id: string)
    ensures |Bearing(blocks, naming, id)| > 0 <==> id in Names(blocks, naming)
  {
    var bearing := Bearing(blocks, naming, id);
    NamesAre(blocks, naming, id);
    if |bearing| > 0 {
      var b :| b in bearing;
      assert naming(blocks[b]) == Some(id);
    }
    if id in Names(blocks, naming) {
      var b :| 0 <= b < |blocks| && naming(blocks[b]) == Some(id);
      assert b in bearing;
    }
  }

  // ----- which messages form a unit -----

  /** The messages from `i` to `j` lie in one unit. */
  ghost predicate Together(messages: seq<Message>, i: nat, j: nat) {
    exists unit | unit in TranscriptUnits(messages) :: unit.start <= i && j < unit.end
  }

  /** An assistant message with a call at `s`, and only tool messages after it up to `j`. */
  ghost predicate CallReaches(messages: seq<Message>, s: nat, j: nat) {
    s < j < |messages| && messages[s].role == Assistant && HasCall(messages[s])
    && forall m | s < m <= j :: messages[m].role == Tool
  }

  lemma {:induction false} UnitsAreParsed(messages: seq<Message>, i: nat, unit: Unit)
    requires i <= |messages| && unit in UnitsFrom(messages, i)
    ensures i <= unit.start < |messages| && unit == UnitAt(messages, unit.start)
    decreases |messages| - i
  {
    if unit != UnitAt(messages, i) {
      UnitsAreParsed(messages, UnitAt(messages, i).end, unit);
    }
  }

  lemma {:induction false} SomeUnitHolds(messages: seq<Message>, i: nat, m: nat) returns (unit: Unit)
    requires i <= m < |messages|
    ensures unit in UnitsFrom(messages, i) && unit.start <= m < unit.end
    decreases |messages| - i
  {
    unit := UnitAt(messages, i);
    if unit.end <= m {
      unit := SomeUnitHolds(messages, unit.end, m);
    }
  }

  lemma {:induction false} ToolRunMeans(messages: seq<Message>, i: nat)
    requires i <= |messages|
    ensures var end := ToolRunEnd(messages, i);
      (forall m | i <= m < end :: messages[m].role == Tool)
      && (end < |messages| ==> messages[end].role != Tool)
    decreases |messages| - i
  {
    if i < |messages| && messages[i].role == Tool {
      ToolRunMeans(messages, i + 1);
    }
  }

  /** A unit of several messages is an assistant message with a call and the tool messages after it. */
  lemma UnitReaches(messages: seq<Message>, i: nat, j: nat)
    requires i < |messages|
    ensures i < j < UnitAt(messages, i).end <==> CallReaches(messages, i, j)
  {
    OpensExactlyWhen(messages[i]);
    ToolRunMeans(messages, i + 1);
    if CallReaches(messages, i, j) {
      var end := ToolRunEnd(messages, i + 1);
      assert !(i + 1 <= end <= j && messages[end].role != Tool);
    }
  }

  /**
    Two messages lie in one unit if and only if the earlier of them is, or follows, an assistant message
    with any call block, with nothing but tool messages after that up to the later one.
   */
  lemma TogetherExactlyWhen(messages: seq<Message>, i: nat, j: nat)
    requires i < j < |messages|
    ensures Together(messages, i, j) <==> exists s: nat | s <= i :: CallReaches(messages, s, j)
  {
    if Together(messages, i, j) {
      var unit :| unit in TranscriptUnits(messages) && unit.start <= i && j < unit.end;
      UnitsAreParsed(messages, 0, unit);
      UnitReaches(messages, unit.start, j);
    }
    if s: nat :| s <= i && CallReaches(messages, s, j) {
      var unit := SomeUnitHolds(messages, 0, s);
      UnitsAreParsed(messages, 0, unit);
      UnitReaches(messages, unit.start, s);
      assert unit.start == s;
      UnitReaches(messages, s, j);
    }
  }

  // ----- which units are protected -----

  /** The identifiers that the results in `[from, limit)` bear. */
  ghost function ResultNames(messages: seq<Message>, from: nat, limit: nat): set<string>
    requires from <= limit <= |messages|
    decreases limit - from
  {
    if from == limit then {}
    else ResultNames(messages, from, limit - 1) + Names(messages[limit - 1].content, Answered)
  }

  /** The number of result blocks in `[from, limit)`. */
  ghost function ResultCount(messages: seq<Message>, from: nat, limit: nat): nat
    requires from <= limit <= |messages|
    decreases limit - from
  {
    if from == limit then 0
    else ResultCount(messages, from, limit - 1) + |Bearers(messages[limit - 1].content, Answered)|
  }

  ghost function Elements(at: seq<nat>): set<nat> {
    set i | i in at
  }

  lemma {:induction false} AscendingCount(at: seq<nat>)
    requires forall j, k | 0 <= j < k < |at| :: at[j] < at[k]
    ensures |Elements(at)| == |at|
  {
    if at != [] {
      var init, last := at[..|at| - 1], at[|at| - 1];
      AscendingCount(init);
      ElementsNext(init, last);
      assert at == init + [last];
    }
  }

  lemma ElementsNext(init: seq<nat>, last: nat)
    requires last !in init
    ensures |Elements(init + [last])| == |Elements(init)| + 1
  {
    assert Elements(init + [last]) == Elements(init) + {last};
  }

  lemma ListedCount(blocks: seq<Block>, naming: Block -> Option<string>, ids: seq<string>, at: seq<nat>)
    requires Lists(blocks, naming, ids, at)
    ensures |Bearers(blocks, naming)| == |ids|
  {
    AscendingCount(at);
    assert Elements(at) == Bearers(blocks, naming);
  }

  lemma ResultBlocks(blocks: seq<Block>, id: string)
    ensures id in BlockResultIds(blocks) <==> id in Names(blocks, Answered)
    ensures |BlockResultIds(blocks)| == |Bearers(blocks, Answered)|
  {
    var calls, results := IdsAreListed(blocks);
    ListedCount(blocks, Answered, BlockResultIds(blocks), results);
    IdsAreCounted(blocks, id);
    NamesCounted(blocks, Answered, id);
    assert id in BlockResultIds(blocks) <==> multiset(BlockResultIds(blocks))[id] > 0;
  }

  lemma {:induction false} ResultIdsAre(messages: seq<Message>, from: nat, limit: nat, id: string)
    requires from <= limit <= |messages|
    ensures id in ResultIds(messages, from, limit) <==> id in ResultNames(messages, from, limit)
    ensures |ResultIds(messages, from, limit)| == ResultCount(messages, from, limit)
    decreases limit - from
  {
    if from < limit {
      ResultIdsAre(messages, from, limit - 1, id);
      ResultBlocks(messages[limit - 1].content, id);
    }
  }

  /** As many calls as results, bearing the same identifiers. */
  ghost predicate Settled(messages: seq<Message>, unit: Unit)
    requires unit.start < unit.end <= |messages|
  {
    var call := messages[unit.start].content;
    |Bearers(call, Called)| == ResultCount(messages, unit.start + 1, unit.end)
    && Names(call, Called) == ResultNames(messages, unit.start + 1, unit.end)
  }

  ghost function Listed(ids: seq<string>): set<string> {
    set id | id in ids
  }

  lemma CompleteMeans(calls: seq<string>, results: seq<string>)
    ensures Complete(calls, results) <==> |calls| == |results| && Listed(calls) == Listed(results)
  {
    if |calls| == |results| && Listed(calls) == Listed(results) {
      forall id | id in calls ensures id in results {
        assert id in Listed(calls);
      }
      forall id | id in results ensures id in calls {
        assert id in Listed(results);
      }
    }
  }

  lemma CalledAre(message: Message)
    requires message.role == Assistant
    ensures Listed(CallIds(message)) == Names(message.content, Called)
    ensures |CallIds(message)| == |Bearers(message.content, Called)|
  {
    forall id: string ensures id in CallIds(message) <==> id in Names(message.content, Called) {
      CallIdsAre(message, id);
    }
    var calls, results := IdsAreListed(message.content);
    ListedCount(message.content, Called, BlockCallIds(message.content), calls);
  }

  lemma AnsweredAre(messages: seq<Message>, from: nat, limit: nat)
    requires from <= limit <= |messages|
    ensures Listed(ResultIds(messages, from, limit)) == ResultNames(messages, from, limit)
    ensures |ResultIds(messages, from, limit)| == ResultCount(messages, from, limit)
  {
    ResultIdsAre(messages, from, limit, "");
    forall id: string ensures id in ResultIds(messages, from, limit) <==> id in ResultNames(messages, from, limit) {
      ResultIdsAre(messages, from, limit, id);
    }
  }

  lemma SettledBy(messages: seq<Message>, unit: Unit, calls: seq<string>, results: seq<string>)
    requires unit.start < unit.end <= |messages|
    requires Listed(calls) == Names(messages[unit.start].content, Called)
    requires |calls| == |Bearers(messages[unit.start].content, Called)|
    requires Listed(results) == ResultNames(messages, unit.start + 1, unit.end)
    requires |results| == ResultCount(messages, unit.start + 1, unit.end)
    ensures Complete(calls, results) <==> Settled(messages, unit)
  {
    CompleteMeans(calls, results);
  }

  lemma CompleteIsSettled(messages: seq<Message>, unit: Unit)
    requires unit.start < unit.end <= |messages| && messages[unit.start].role == Assistant
    ensures Complete(CallIds(messages[unit.start]), ResultIds(messages, unit.start + 1, unit.end))
       <==> Settled(messages, unit)
  {
    CalledAre(messages[unit.start]);
    AnsweredAre(messages, unit.start + 1, unit.end);
    SettledBy(messages, unit, CallIds(messages[unit.start]), ResultIds(messages, unit.start + 1, unit.end));
  }

  lemma ParsedProtection(messages: seq<Message>, i: nat)
    requires i < |messages|
    ensures UnitAt(messages, i).protected <==>
      messages[i].role == System || messages[i].role == Developer || messages[i].role == Tool
      || (messages[i].role == Assistant && HasCall(messages[i]) && !Settled(messages, UnitAt(messages, i)))
  {
    OpensExactlyWhen(messages[i]);
    if messages[i].role == Assistant {
      CompleteIsSettled(messages, UnitAt(messages, i));
    }
  }

  /**
    A unit is closed to compaction if and only if it is an instruction, a tool message that follows no
    call, or an exchange that is not settled.
   */
  lemma ProtectedExactlyWhen(messages: seq<Message>, unit: Unit)
    requires unit in TranscriptUnits(messages)
    ensures unit.start < unit.end <= |messages|
    ensures var first := messages[unit.start];
      unit.protected <==>
        first.role == System || first.role == Developer || first.role == Tool
        || (first.role == Assistant && HasCall(first) && !Settled(messages, unit))
  {
    UnitsAreParsed(messages, 0, unit);
    ParsedProtection(messages, unit.start);
  }
}
