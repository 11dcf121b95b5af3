/** Rewriting the texts of tool results in place, and what such rewriting cannot change. */
module Rewriting {
  import opened Transcript
  import opened Units

  /** The position of one text: message, block of the message, content of the tool result. */
  datatype Slot = Slot(message: nat, block: nat, part: nat)

  function Map<A, B>(xs: seq<A>, f: A -> B): (ys: seq<B>)
    ensures |ys| == |xs|
  {
    seq(|xs|, i requires 0 <= i < |xs| => f(xs[i]))
  }

  function RewritePart(part: ResultContent, f: string -> string): ResultContent {
    if part.ResultText? then ResultText(f(part.text)) else part
  }

  function RewriteParts(parts: seq<ResultContent>, f: string -> string): seq<ResultContent> {
    Map(parts, part => RewritePart(part, f))
  }

  function RewriteBlock(block: Block, f: string -> string): Block {
    if block.ToolResult? then block.(content := RewriteParts(block.content, f)) else block
  }

  function RewriteMessage(message: Message, f: string -> string): Message {
    if message.role == Tool
    then message.(content := Map(message.content, block => RewriteBlock(block, f)))
    else message
  }

  /** Applies `f` to every text of every tool result. */
  function Rewrite(messages: seq<Message>, f: string -> string): seq<Message> {
    Map(messages, message => RewriteMessage(message, f))
  }

  function Blank(text: string): string {
    ""
  }

  /** A message without the texts of its tool results. */
  function Shape(message: Message): Message {
    RewriteMessage(message, Blank)
  }

  ghost predicate SameShape(messages: seq<Message>, messages': seq<Message>) {
    |messages| == |messages'|
    && forall i | 0 <= i < |messages| :: Shape(messages'[i]) == Shape(messages[i])
  }

  lemma RewriteKeepsMessageShape(message: Message, f: string -> string)
    ensures Shape(RewriteMessage(message, f)) == Shape(message)
  {
    if message.role == Tool {
      var blocks, blocks' := message.content, RewriteMessage(message, f).content;
      forall i | 0 <= i < |blocks|
        ensures RewriteBlock(blocks'[i], Blank) == RewriteBlock(blocks[i], Blank)
      {
        if blocks[i].ToolResult? {
          assert RewriteParts(blocks'[i].content, Blank) == RewriteParts(blocks[i].content, Blank);
        }
      }
      assert Shape(RewriteMessage(message, f)).content == Shape(message).content;
    }
  }

  lemma RewriteKeepsShape(messages: seq<Message>, f: string -> string)
    ensures SameShape(messages, Rewrite(messages, f))
  {
    forall i | 0 <= i < |messages| ensures Shape(Rewrite(messages, f)[i]) == Shape(messages[i]) {
      RewriteKeepsMessageShape(messages[i], f);
    }
  }

  lemma {:induction false} ShapeKeepsBlockIds(blocks: seq<Block>)
    ensures var blocks' := Map(blocks, block => RewriteBlock(block, Blank));
      BlockCallIds(blocks') == BlockCallIds(blocks) && BlockResultIds(blocks') == BlockResultIds(blocks)
  {
    if blocks != [] {
      var blocks' := Map(blocks, block => RewriteBlock(block, Blank));
      ShapeKeepsBlockIds(blocks[1..]);
      assert blocks'[1..] == Map(blocks[1..], block => RewriteBlock(block, Blank));
    }
  }

  lemma ShapeKeepsIds(message: Message)
    ensures Shape(message).role == message.role
    ensures CallIds(Shape(message)) == CallIds(message)
    ensures BlockResultIds(Shape(message).content) == BlockResultIds(message.content)
  {
    ShapeKeepsBlockIds(message.content);
  }

  /** What unit parsing reads of a message is determined by its shape. */
  lemma SameShapeSameIds(message: Message, message': Message)
    requires Shape(message') == Shape(message)
    ensures message'.role == message.role && CallIds(message') == CallIds(message)
    ensures BlockResultIds(message'.content) == BlockResultIds(message.content)
  {
    ShapeKeepsIds(message);
    ShapeKeepsIds(message');
  }

  lemma {:induction false} SameShapeToolRun(messages: seq<Message>, messages': seq<Message>, i: nat)
    requires SameShape(messages, messages') && i <= |messages|
    ensures ToolRunEnd(messages', i) == ToolRunEnd(messages, i)
    decreases |messages| - i
  {
    if i < |messages| {
      SameShapeSameIds(messages[i], messages'[i]);
      if messages[i].role == Tool {
        SameShapeToolRun(messages, messages', i + 1);
      }
    }
  }

  lemma {:induction false} SameShapeResultIds(
    messages: seq<Message>, messages': seq<Message>, from: nat, limit: nat)
    requires SameShape(messages, messages') && from <= limit <= |messages|
    ensures ResultIds(messages', from, limit) == ResultIds(messages, from, limit)
    decreases limit - from
  {
    if from < limit {
      SameShapeSameIds(messages[limit - 1], messages'[limit - 1]);
      SameShapeResultIds(messages, messages', from, limit - 1);
    }
  }

  lemma SameShapeUnit(messages: seq<Message>, messages': seq<Message>, i: nat)
    requires SameShape(messages, messages') && i < |messages|
    ensures UnitAt(messages', i) == UnitAt(messages, i)
  {
    SameShapeSameIds(messages[i], messages'[i]);
    SameShapeToolRun(messages, messages', i + 1);
    SameShapeResultIds(messages, messages', i + 1, ToolRunEnd(messages, i + 1));
  }

  /** Rewriting texts moves no unit boundary and changes no completeness verdict. */
  lemma {:induction false} SameShapeUnits(messages: seq<Message>, messages': seq<Message>, i: nat)
    requires SameShape(messages, messages') && i <= |messages|
    ensures UnitsFrom(messages', i) == UnitsFrom(messages, i)
    decreases |messages| - i
  {
    if i < |messages| {
      SameShapeUnit(messages, messages', i);
      SameShapeUnits(messages, messages', UnitAt(messages, i).end);
    }
  }

  predicate HasText(messages: seq<Message>, slot: Slot) {
    slot.message < |messages|
    && slot.block < |messages[slot.message].content|
    && messages[slot.message].content[slot.block].ToolResult?
    && slot.part < |messages[slot.message].content[slot.block].content|
    && messages[slot.message].content[slot.block].content[slot.part].ResultText?
  }

  /** A text of a tool result in a message of role `Tool`. */
  predicate HasToolText(messages: seq<Message>, slot: Slot) {
    HasText(messages, slot) && messages[slot.message].role == Tool
  }

  function TextAt(messages: seq<Message>, slot: Slot): string
    requires HasText(messages, slot)
  {
    messages[slot.message].content[slot.block].content[slot.part].text
  }

  function SetMessageText(message: Message, block: nat, part: nat, text: string): Message
    requires block < |message.content| && message.content[block].ToolResult?
    requires part < |message.content[block].content|
  {
    var result := message.content[block];
    message.(content :=
      message.content[block := result.(content := result.content[part := ResultText(text)])])
  }

  function SetText(messages: seq<Message>, slot: Slot, text: string): seq<Message>
    requires HasText(messages, slot)
  {
    messages[slot.message := SetMessageText(messages[slot.message], slot.block, slot.part, text)]
  }

  lemma SetTextReads(messages: seq<Message>, slot: Slot, text: string)
    requires HasText(messages, slot)
    ensures var messages' := SetText(messages, slot, text);
      forall other :: (HasText(messages', other) <==> HasText(messages, other))
        && (HasToolText(messages', other) <==> HasToolText(messages, other))
        && (HasText(messages, other) ==>
              TextAt(messages', other) == if other == slot then text else TextAt(messages, other))
  {
  }

  lemma SetTextKeepsShape(messages: seq<Message>, slot: Slot, text: string)
    requires HasToolText(messages, slot)
    ensures SameShape(messages, SetText(messages, slot, text))
  {
    var message := messages[slot.message];
    var message' := SetMessageText(message, slot.block, slot.part, text);
    var parts, parts' := message.content[slot.block].content, message'.content[slot.block].content;
    assert RewriteParts(parts', Blank) == RewriteParts(parts, Blank);
    assert Shape(message').content == Shape(message).content;
  }

  lemma SameParts(parts: seq<ResultContent>, parts': seq<ResultContent>)
    requires RewriteParts(parts', Blank) == RewriteParts(parts, Blank)
    requires |parts'| == |parts|
    requires forall i | 0 <= i < |parts| && parts[i].ResultText? :: parts'[i] == parts[i]
    ensures parts' == parts
  {
    forall i | 0 <= i < |parts| ensures parts'[i] == parts[i] {
      assert RewriteParts(parts', Blank)[i] == RewriteParts(parts, Blank)[i];
    }
  }

  /** Slots where two transcripts of the same shape hold the same text. */
  ghost predicate SameText(messages: seq<Message>, messages': seq<Message>, slot: Slot) {
    HasText(messages, slot) ==>
      HasText(messages', slot) && TextAt(messages', slot) == TextAt(messages, slot)
  }

  lemma SameTextsSameMessage(messages: seq<Message>, messages': seq<Message>, m: nat)
    requires m < |messages| && m < |messages'| && Shape(messages'[m]) == Shape(messages[m])
    requires forall b: nat, c: nat :: SameText(messages, messages', Slot(m, b, c))
    ensures messages'[m] == messages[m]
  {
    var message, message' := messages[m], messages'[m];
    SameShapeSameIds(message, message');
    if message.role == Tool {
      var blocks, blocks' := message.content, message'.content;
      assert |Shape(message).content| == |blocks| && |Shape(message').content| == |blocks'|;
      forall b | 0 <= b < |blocks| ensures blocks'[b] == blocks[b] {
        assert Shape(message').content[b] == RewriteBlock(blocks'[b], Blank);
        assert Shape(message).content[b] == RewriteBlock(blocks[b], Blank);
        if blocks[b].ToolResult? {
          var parts, parts' := blocks[b].content, blocks'[b].content;
          assert |RewriteParts(parts, Blank)| == |parts| && |RewriteParts(parts', Blank)| == |parts'|;
          forall c | 0 <= c < |parts| && parts[c].ResultText? ensures parts'[c] == parts[c] {
            assert SameText(messages, messages', Slot(m, b, c));
          }
          SameParts(parts, parts');
        }
      }
      assert blocks' == blocks;
      assert Shape(message') == message'.(content := Shape(message').content);
    }
  }

  /** A transcript is its shape together with its texts. */
  lemma SameTextsSameTranscript(messages: seq<Message>, messages': seq<Message>)
    requires SameShape(messages, messages')
    requires forall slot :: SameText(messages, messages', slot)
    ensures messages' == messages
  {
    forall m | 0 <= m < |messages| ensures messages'[m] == messages[m] {
      SameTextsSameMessage(messages, messages', m);
    }
  }
}
