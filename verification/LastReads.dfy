/** The read hints in terms of the blocks of a transcript. */
module LastReads {
  import opened Wrappers
  import opened Transcript
  import opened ReadHints

  // ----- one block -----

  /** The word `read`, each letter small or capital. */
  predicate SpellsRead(name: string) {
    |name| == 4 && forall i | 0 <= i < 4 :: name[i] == "read"[i] || name[i] == "READ"[i]
  }

  /** A call of the read tool for this path, offset and limit. */
  predicate IsReadCall(block: Block, target: Target) {
    block.ToolCall? && SpellsRead(block.name) && target.path != ""
    && block.arguments.filePath == Some(target.path)
    && block.arguments.offset == target.offset && block.arguments.limit == target.limit
  }

  lemma LowerIs(c: char, small: char, capital: char)
    requires 'a' <= small <= 'z' && capital as int + 32 == small as int
    ensures LowerAscii(c) == small <==> c == small || c == capital
  {
  }

  lemma ReadNameExactlyWhen(name: string)
    ensures IsRead(name) <==> SpellsRead(name)
  {
    if |name| == 4 {
      LowerIs(name[0], 'r', 'R');
      LowerIs(name[1], 'e', 'E');
      LowerIs(name[2], 'a', 'A');
      LowerIs(name[3], 'd', 'D');
      assert "read"[0] == 'r' && "read"[1] == 'e' && "read"[2] == 'a' && "read"[3] == 'd';
      assert "READ"[0] == 'R' && "READ"[1] == 'E' && "READ"[2] == 'A' && "READ"[3] == 'D';
    }
  }

  lemma ReadExactlyWhen(block: Block, target: Target)
    ensures BlockRead(block) == Some(target) <==> IsReadCall(block, target)
  {
    if block.ToolCall? {
      ReadNameExactlyWhen(block.name);
    }
  }

  // ----- last reads -----

  /** Any of the blocks reads the path. */
  ghost predicate ReadsPath(blocks: seq<Block>, path: string) {
    exists b | 0 <= b < |blocks| :: BlockReadsPath(blocks[b], path)
  }

  ghost predicate BlockReadsPath(block: Block, path: string) {
    exists target :: IsReadCall(block, target) && target.path == path
  }

  /** A block is this read, and none after it reads the same path. */
  ghost predicate LastIn(blocks: seq<Block>, target: Target) {
    exists b | 0 <= b < |blocks| :: IsReadCall(blocks[b], target) && !ReadsPath(blocks[b + 1..], target.path)
  }

  /** An assistant made this read in its message, and no assistant read the path again. */
  ghost predicate IsLastRead(messages: seq<Message>, from: nat, entry: Seen) {
    from <= entry.index < |messages| && messages[entry.index].role == Assistant
    && LastIn(messages[entry.index].content, entry.target)
    && !ReadLater(messages, entry.index + 1, entry.target.path)
  }

  ghost predicate ReadLater(messages: seq<Message>, from: nat, path: string) {
    exists m | from <= m < |messages| :: messages[m].role == Assistant && ReadsPath(messages[m].content, path)
  }

  predicate Holds(found: seq<Seen>, path: string) {
    found != [] && (found[0].target.path == path || Holds(found[1..], path))
  }

  /** The list holds this read and no later one of its path. */
  predicate LastOf(found: seq<Seen>, entry: Seen) {
    found != []
    && ((found[0] == entry && !Holds(found[1..], entry.target.path)) || LastOf(found[1..], entry))
  }

  lemma {:induction false} LastOfConcat(a: seq<Seen>, b: seq<Seen>, entry: Seen)
    ensures Holds(a + b, entry.target.path) <==> Holds(a, entry.target.path) || Holds(b, entry.target.path)
    ensures LastOf(a + b, entry) <==> LastOf(b, entry) || (LastOf(a, entry) && !Holds(b, entry.target.path))
  {
    if a == [] {
      assert a + b == b;
    } else {
      assert (a + b)[1..] == a[1..] + b;
      LastOfConcat(a[1..], b, entry);
    }
  }

  /** Remembering read after read keeps the last one of each path. */
  lemma {:induction false} RememberKeepsLast(seen: map<string, Seen>, found: seq<Seen>, entry: Seen)
    ensures var later := Remember(seen, found);
      entry.target.path in later && later[entry.target.path] == entry
      <==> LastOf(found, entry)
           || (!Holds(found, entry.target.path) && entry.target.path in seen && seen[entry.target.path] == entry)
    decreases |found|
  {
    if found != [] {
      RememberKeepsLast(seen[found[0].target.path := found[0]], found[1..], entry);
    }
  }

  lemma ReadsPathNext(head: Block, rest: seq<Block>, path: string)
    ensures ReadsPath([head] + rest, path) <==> BlockReadsPath(head, path) || ReadsPath(rest, path)
  {
    var blocks := [head] + rest;
    if ReadsPath(rest, path) {
      var b :| 0 <= b < |rest| && BlockReadsPath(rest[b], path);
      assert BlockReadsPath(blocks[b + 1], path);
    }
    if BlockReadsPath(head, path) {
      assert BlockReadsPath(blocks[0], path);
    }
  }

  lemma LastInNext(head: Block, rest: seq<Block>, target: Target)
    ensures LastIn([head] + rest, target) <==>
      LastIn(rest, target) || (IsReadCall(head, target) && !ReadsPath(rest, target.path))
  {
    var blocks := [head] + rest;
    assert blocks[1..] == rest;
    if LastIn(rest, target) {
      var b :| 0 <= b < |rest| && IsReadCall(rest[b], target) && !ReadsPath(rest[b + 1..], target.path);
      assert blocks[b + 1] == rest[b] && blocks[b + 2..] == rest[b + 1..];
    }
    if IsReadCall(head, target) && !ReadsPath(rest, target.path) {
      assert blocks[0] == head && blocks[0 + 1..] == rest;
    }
    if LastIn(blocks, target) {
      var b :| 0 <= b < |blocks| && IsReadCall(blocks[b], target) && !ReadsPath(blocks[b + 1..], target.path);
      if b > 0 {
        assert blocks[b] == rest[b - 1] && blocks[b + 1..] == rest[b..];
        assert rest[(b - 1) + 1..] == rest[b..];
      }
    }
  }

  lemma BlockReadsAre(block: Block, m: nat, entry: Seen)
    ensures var found := match BlockRead(block) case Some(target) => [Seen(m, target)] case None => [];
      (Holds(found, entry.target.path) <==> BlockReadsPath(block, entry.target.path))
      && (LastOf(found, entry) <==> entry.index == m && IsReadCall(block, entry.target))
  {
    ReadExactlyWhen(block, entry.target);
    match BlockRead(block)
    case None =>
      if BlockReadsPath(block, entry.target.path) {
        var target :| IsReadCall(block, target) && target.path == entry.target.path;
        ReadExactlyWhen(block, target);
        assert false;
      }
    case Some(target) =>
      ReadExactlyWhen(block, target);
      assert [Seen(m, target)][1..] == [];
      if BlockReadsPath(block, entry.target.path) {
        var other :| IsReadCall(block, other) && other.path == entry.target.path;
        ReadExactlyWhen(block, other);
      }
  }

  lemma {:induction false} MessageReadsAre(blocks: seq<Block>, m: nat, entry: Seen)
    ensures Holds(BlockReads(blocks, m), entry.target.path) <==> ReadsPath(blocks, entry.target.path)
    ensures LastOf(BlockReads(blocks, m), entry) <==> entry.index == m && LastIn(blocks, entry.target)
  {
    if blocks != [] {
      var head, rest := blocks[0], blocks[1..];
      var found := match BlockRead(head) case Some(target) => [Seen(m, target)] case None => [];
      assert blocks == [head] + rest;
      BlockReadsAre(head, m, entry);
      MessageReadsAre(rest, m, entry);
      LastOfConcat(found, BlockReads(rest, m), entry);
      ReadsPathNext(head, rest, entry.target.path);
      LastInNext(head, rest, entry.target);
    }
  }

  lemma ReadLaterNext(messages: seq<Message>, m: nat, path: string)
    requires m < |messages|
    ensures ReadLater(messages, m, path) <==>
      (messages[m].role == Assistant && ReadsPath(messages[m].content, path)) || ReadLater(messages, m + 1, path)
  {
  }

  /** The last reads that are listed are the last reads there are. */
  lemma {:induction false} LastReadsAre(messages: seq<Message>, m: nat, entry: Seen)
    requires m <= |messages|
    ensures Holds(Reads(messages, m), entry.target.path) <==> ReadLater(messages, m, entry.target.path)
    ensures LastOf(Reads(messages, m), entry) <==> IsLastRead(messages, m, entry)
    decreases |messages| - m
  {
    if m < |messages| {
      LastReadsAre(messages, m + 1, entry);
      ReadLaterNext(messages, m, entry.target.path);
      if messages[m].role == Assistant {
        MessageReadsAre(messages[m].content, m, entry);
        LastOfConcat(BlockReads(messages[m].content, m), Reads(messages, m + 1), entry);
      } else {
        assert [] + Reads(messages, m + 1) == Reads(messages, m + 1);
      }
    }
  }

  /** The map holds a read if and only if an assistant made it and the path was never read again. */
  lemma RememberedExactlyWhen(messages: seq<Message>, entry: Seen)
    ensures entry.target.path in LastSeen(messages) && LastSeen(messages)[entry.target.path] == entry
       <==> IsLastRead(messages, 0, entry)
  {
    RememberKeepsLast(map[], Reads(messages, 0), entry);
    LastReadsAre(messages, 0, entry);
  }

  // ----- the order of paths and of hints -----

  /** The first difference decides, and a proper prefix comes first. */
  ghost predicate Precedes(p: string, q: string) {
    exists k: nat :: k <= |p| && k < |q| && p[..k] == q[..k] && (k == |p| || p[k] < q[k])
  }

  lemma {:induction false} LessPrecedes(p: string, q: string)
    requires PathLess(p, q)
    ensures Precedes(p, q)
    decreases |q|
  {
    if p == "" || p[0] < q[0] {
      assert p[..0] == q[..0];
    } else {
      LessPrecedes(p[1..], q[1..]);
      var k: nat :| k <= |p[1..]| && k < |q[1..]| && p[1..][..k] == q[1..][..k]
                    && (k == |p[1..]| || p[1..][k] < q[1..][k]);
      assert p[..k + 1] == [p[0]] + p[1..][..k] && q[..k + 1] == [q[0]] + q[1..][..k];
    }
  }

  lemma {:induction false} PrecedesLess(p: string, q: string, k: nat)
    requires k <= |p| && k < |q| && p[..k] == q[..k] && (k == |p| || p[k] < q[k])
    ensures PathLess(p, q)
    decreases |q|
  {
    if k > 0 {
      assert p[0] == p[..k][0] && q[0] == q[..k][0];
      assert p[1..][..k - 1] == p[..k][1..] && q[1..][..k - 1] == q[..k][1..];
      PrecedesLess(p[1..], q[1..], k - 1);
    }
  }

  lemma PathLessExactlyWhen(p: string, q: string)
    ensures PathLess(p, q) <==> Precedes(p, q)
  {
    if PathLess(p, q) {
      LessPrecedes(p, q);
    }
    if k: nat :| k <= |p| && k < |q| && p[..k] == q[..k] && (k == |p| || p[k] < q[k]) {
      PrecedesLess(p, q, k);
    }
  }

  /**
    Every hint is the last read of its path, made inside the range; hints go from the newest message to
    the oldest, and by path inside a message. A last read that is left out is not newer than any hint.
   */
  lemma HintsAreLastReads(messages: seq<Message>, entries: seq<Seen>, start: nat, end: nat)
    requires Enumerates(entries, LastSeen(messages))
    ensures var hints := Hints(entries, start, end);
      (forall hint | hint in hints :: IsLastRead(messages, 0, hint) && start <= hint.index < end)
      && (forall i, j | 0 <= i < j < |hints| ::
            hints[i].index > hints[j].index
            || (hints[i].index == hints[j].index && Precedes(hints[i].target.path, hints[j].target.path)))
      && forall entry, hint |
           IsLastRead(messages, 0, entry) && start <= entry.index < end && entry !in hints && hint in hints ::
           entry.index <= hint.index
  {
    HintsAre(messages, entries, start, end);
    var hints := Hints(entries, start, end);
    forall entry: Seen ensures Qualifies(messages, start, end, entry) <==>
      IsLastRead(messages, 0, entry) && start <= entry.index < end
    {
      RememberedIsLast(map[], Reads(messages, 0), entry);
      RememberedExactlyWhen(messages, entry);
    }
    forall i, j | 0 <= i < j < |hints|
      ensures hints[i].index > hints[j].index
        || (hints[i].index == hints[j].index && Precedes(hints[i].target.path, hints[j].target.path))
    {
      assert Newer(hints[i], hints[j]);
      PathLessExactlyWhen(hints[i].target.path, hints[j].target.path);
    }
  }
}
