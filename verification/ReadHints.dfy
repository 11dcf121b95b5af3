/** The hint that lists the files whose last read a summary replaced. */
module ReadHints {
  import opened Wrappers
  import opened Words
  import opened Text
  import opened Sums
  import opened Transcript

  const MAX_FILES: nat := 5
  const MAX_LIST_BYTES: nat := 4_096

  datatype Target = Target(path: string, offset: Option<uint64>, limit: Option<uint64>)

  /** A read, and the index of the message that made it. */
  datatype Seen = Seen(index: nat, target: Target)

  /** One line of the list. */
  function Render(target: Target): string {
    var region := match (target.offset, target.limit)
      case (Some(o), Some(l)) => "（上次读取：offset=" + Decimal(o) + ", limit=" + Decimal(l) + "）"
      case (Some(o), None) => "（上次读取：offset=" + Decimal(o) + "）"
      case (None, Some(l)) => "（上次读取：limit=" + Decimal(l) + "）"
      case (None, None) => "";
    "- " + target.path + region + "\n"
  }

  function LowerAscii(c: char): char {
    if 'A' <= c <= 'Z' then (c as int + 32) as char else c
  }

  /** `eq_ignore_ascii_case("read")`. */
  predicate IsRead(name: string) {
    |name| == 4 && LowerAscii(name[0]) == 'r' && LowerAscii(name[1]) == 'e'
    && LowerAscii(name[2]) == 'a' && LowerAscii(name[3]) == 'd'
  }

  function BlockRead(block: Block): Option<Target> {
    if block.ToolCall? && IsRead(block.name) && block.arguments.filePath.Some? && block.arguments.filePath.value != ""
    then Some(Target(block.arguments.filePath.value, block.arguments.offset, block.arguments.limit))
    else None
  }

  /** The reads among the blocks of the `m`-th message, in order. */
  function BlockReads(blocks: seq<Block>, m: nat): seq<Seen> {
    if blocks == [] then []
    else
      (match BlockRead(blocks[0]) case Some(target) => [Seen(m, target)] case None => [])
      + BlockReads(blocks[1..], m)
  }

  /** All reads from the `m`-th message on, in order. */
  function Reads(messages: seq<Message>, m: nat): seq<Seen>
    requires m <= |messages|
    decreases |messages| - m
  {
    if m == |messages| then []
    else (if messages[m].role == Assistant then BlockReads(messages[m].content, m) else []) + Reads(messages, m + 1)
  }

  /** Later reads of a path overwrite earlier ones. */
  function Remember(seen: map<string, Seen>, found: seq<Seen>): map<string, Seen>
    decreases |found|
  {
    if found == [] then seen else Remember(seen[found[0].target.path := found[0]], found[1..])
  }

  function LastSeen(messages: seq<Message>): map<string, Seen> {
    Remember(map[], Reads(messages, 0))
  }

  lemma {:induction false} RememberConcat(seen: map<string, Seen>, a: seq<Seen>, b: seq<Seen>)
    ensures Remember(seen, a + b) == Remember(Remember(seen, a), b)
    decreases |a|
  {
    if a == [] {
      assert a + b == b;
    } else {
      assert (a + b)[1..] == a[1..] + b;
      RememberConcat(seen[a[0].target.path := a[0]], a[1..], b);
    }
  }

  /** The loop that fills the hash map. */
  method ComputeLastSeen(messages: seq<Message>) returns (seen: map<string, Seen>)
    ensures seen == LastSeen(messages)
  {
    seen := map[];
    for m := 0 to |messages|
      invariant Remember(seen, Reads(messages, m)) == LastSeen(messages)
    {
      if messages[m].role == Assistant {
        var blocks := messages[m].content;
        RememberConcat(seen, BlockReads(blocks, m), Reads(messages, m + 1));
        seen := RememberBlocks(seen, blocks, m);
      } else {
        assert [] + Reads(messages, m + 1) == Reads(messages, m + 1);
      }
    }
  }

  method RememberBlocks(before: map<string, Seen>, blocks: seq<Block>, m: nat) returns (seen: map<string, Seen>)
    ensures seen == Remember(before, BlockReads(blocks, m))
  {
    seen := before;
    for b := 0 to |blocks|
      invariant Remember(seen, BlockReads(blocks[b..], m)) == Remember(before, BlockReads(blocks, m))
    {
      assert blocks[b..][1..] == blocks[b + 1..];
      var target := BlockRead(blocks[b]);
      match target
      case Some(t) =>
        assert ([Seen(m, t)] + BlockReads(blocks[b + 1..], m))[1..] == BlockReads(blocks[b + 1..], m);
        seen := seen[t.path := Seen(m, t)];
      case None =>
        assert [] + BlockReads(blocks[b + 1..], m) == BlockReads(blocks[b + 1..], m);
    }
  }

  // ----- order and selection -----

  /** Code point order, which is the byte order of UTF-8. */
  predicate PathLess(p: string, q: string)
    decreases |q|
  {
    if q == "" then false
    else if p == "" then true
    else p[0] < q[0] || (p[0] == q[0] && PathLess(p[1..], q[1..]))
  }

  /** Newest first, by path where the message is the same. */
  predicate Newer(a: Seen, b: Seen) {
    a.index > b.index || (a.index == b.index && PathLess(a.target.path, b.target.path))
  }

  function InRange(entries: seq<Seen>, start: nat, end: nat): seq<Seen> {
    if entries == [] then []
    else (if start <= entries[0].index < end then [entries[0]] else []) + InRange(entries[1..], start, end)
  }

  function Insert(x: Seen, sorted: seq<Seen>): seq<Seen> {
    if sorted == [] then [x]
    else if Newer(sorted[0], x) then [sorted[0]] + Insert(x, sorted[1..])
    else [x] + sorted
  }

  /** `sort_by`. */
  function Sort(entries: seq<Seen>): seq<Seen> {
    if entries == [] then [] else Insert(entries[0], Sort(entries[1..]))
  }

  function LineBytes(entry: Seen): nat {
    Utf8Len(Render(entry.target))
  }

  /** How many entries are taken: the loop stops at the first one that does not fit. */
  function Taken(ordered: seq<Seen>, weight: Seen -> nat, k: nat, bytes: nat): (n: nat)
    requires k <= |ordered|
    ensures k <= n <= |ordered|
    decreases |ordered| - k
  {
    if k == |ordered| || k >= MAX_FILES then k
    else if bytes + weight(ordered[k]) > MAX_LIST_BYTES then k
    else Taken(ordered, weight, k + 1, bytes + weight(ordered[k]))
  }

  lemma {:induction false} TakenFrom(ordered: seq<Seen>, weight: Seen -> nat, k: nat)
    requires k <= |ordered| && k <= MAX_FILES && Total(ordered[..k], weight) <= MAX_LIST_BYTES
    ensures var n := Taken(ordered, weight, k, Total(ordered[..k], weight));
      n <= MAX_FILES && Total(ordered[..n], weight) <= MAX_LIST_BYTES
      && (n < |ordered| && n < MAX_FILES ==> Total(ordered[..n + 1], weight) > MAX_LIST_BYTES)
    decreases |ordered| - k
  {
    if k < |ordered| {
      TotalNext(ordered, k, weight);
      if k < MAX_FILES && Total(ordered[..k + 1], weight) <= MAX_LIST_BYTES {
        TakenFrom(ordered, weight, k + 1);
      }
    }
  }

  /** The longest prefix within both limits. */
  lemma TakenPrefix(ordered: seq<Seen>, weight: Seen -> nat)
    ensures var n := Taken(ordered, weight, 0, 0);
      n <= MAX_FILES && Total(ordered[..n], weight) <= MAX_LIST_BYTES
      && (n < |ordered| && n < MAX_FILES ==> Total(ordered[..n + 1], weight) > MAX_LIST_BYTES)
  {
    assert Total(ordered[..0], weight) == 0;
    TakenFrom(ordered, weight, 0);
  }

  /** `recent_read_targets`, for one iteration order of the hash map. */
  function Hints(entries: seq<Seen>, start: nat, end: nat): seq<Seen> {
    var ordered := Sort(InRange(entries, start, end));
    ordered[..Taken(ordered, LineBytes, 0, 0)]
  }

  /** An iteration order: every entry of the map, once. */
  ghost predicate Enumerates(entries: seq<Seen>, seen: map<string, Seen>) {
    DistinctPaths(entries)
    && forall entry :: entry in entries <==> entry.target.path in seen && seen[entry.target.path] == entry
  }

  ghost predicate DistinctPaths(entries: seq<Seen>) {
    forall i, j | 0 <= i < j < |entries| :: entries[i].target.path != entries[j].target.path
  }

  /** The selection loop over the ordered entries. */
  method SelectHints(ordered: seq<Seen>) returns (selected: seq<Seen>)
    ensures selected == ordered[..Taken(ordered, LineBytes, 0, 0)]
  {
    selected := [];
    var bytes: nat := 0;
    for k := 0 to |ordered|
      invariant selected == ordered[..k]
      invariant Taken(ordered, LineBytes, k, bytes) == Taken(ordered, LineBytes, 0, 0)
    {
      if |selected| >= MAX_FILES {
        return;
      }
      var line := LineBytes(ordered[k]);
      if bytes + line > MAX_LIST_BYTES {
        return;
      }
      bytes := bytes + line;
      selected := selected + [ordered[k]];
    }
  }

  // ----- what is listed -----

  ghost predicate Ordered(entries: seq<Seen>) {
    forall i, j | 0 <= i < j < |entries| :: Newer(entries[i], entries[j])
  }

  lemma {:induction false} PathTrichotomy(p: string, q: string)
    ensures p == q || PathLess(p, q) || PathLess(q, p)
    ensures !(PathLess(p, q) && PathLess(q, p)) && !PathLess(p, p)
    decreases |q|
  {
    PathIrreflexive(p);
    if p != "" && q != "" {
      PathTrichotomy(p[1..], q[1..]);
      assert p == [p[0]] + p[1..] && q == [q[0]] + q[1..];
    }
  }

  lemma {:induction false} PathIrreflexive(p: string)
    ensures !PathLess(p, p)
  {
    if p != "" {
      PathIrreflexive(p[1..]);
    }
  }

  lemma {:induction false} PathTransitive(p: string, q: string, r: string)
    requires PathLess(p, q) && PathLess(q, r)
    ensures PathLess(p, r)
    decreases |r|
  {
    if p != "" && p[0] == q[0] && q[0] == r[0] {
      PathTransitive(p[1..], q[1..], r[1..]);
    }
  }

  lemma NewerTransitive(a: Seen, b: Seen, c: Seen)
    requires Newer(a, b) && Newer(b, c)
    ensures Newer(a, c)
  {
    if a.index == b.index == c.index {
      PathTransitive(a.target.path, b.target.path, c.target.path);
    }
  }

  lemma NewerTotal(a: Seen, b: Seen)
    ensures a.target.path != b.target.path ==> Newer(a, b) || Newer(b, a)
    ensures !(Newer(a, b) && Newer(b, a))
  {
    PathTrichotomy(a.target.path, b.target.path);
  }

  /** Only one order is sorted: entries that agree as a set and are sorted agree as lists. */
  lemma {:induction false} OrderIsUnique(a: seq<Seen>, b: seq<Seen>)
    requires Ordered(a) && Ordered(b) && forall entry :: entry in a <==> entry in b
    ensures a == b
  {
    SameMembersSameEmptiness(a, b);
    if a != [] {
      HeadsAgree(a, b);
      forall entry ensures entry in a[1..] <==> entry in b[1..] {
        TailMembers(a, entry);
        TailMembers(b, entry);
      }
      OrderIsUnique(a[1..], b[1..]);
      assert a == [a[0]] + a[1..] && b == [b[0]] + b[1..];
    }
  }

  lemma SameMembersSameEmptiness(a: seq<Seen>, b: seq<Seen>)
    requires forall entry :: entry in a <==> entry in b
    ensures a == [] <==> b == []
  {
    if a != [] {
      assert a[0] in a;
    }
    if b != [] {
      assert b[0] in b;
    }
  }

  lemma PrefixMember(entries: seq<Seen>, n: nat, j: nat)
    requires j < |entries| && n <= |entries|
    ensures j < n ==> entries[j] in entries[..n]
  {
    if j < n {
      assert entries[..n][j] == entries[j];
    }
  }

  lemma HeadsAgree(a: seq<Seen>, b: seq<Seen>)
    requires Ordered(a) && Ordered(b) && a != [] && b != [] && forall entry :: entry in a <==> entry in b
    ensures a[0] == b[0]
  {
    assert a[0] in b && b[0] in a;
    NewerTotal(a[0], b[0]);
  }

  lemma TailMembers(entries: seq<Seen>, entry: Seen)
    requires Ordered(entries) && entries != []
    ensures entry in entries[1..] <==> entry in entries && entry != entries[0]
  {
    assert entries == [entries[0]] + entries[1..];
    if entries[0] in entries[1..] {
      var k :| 0 <= k < |entries[1..]| && entries[1..][k] == entries[0];
      assert Newer(entries[0], entries[k + 1]);
      NewerTotal(entries[0], entries[k + 1]);
    }
  }

  lemma {:induction false} InsertKeeps(x: Seen, sorted: seq<Seen>)
    requires Ordered(sorted) && forall entry | entry in sorted :: entry.target.path != x.target.path
    ensures Ordered(Insert(x, sorted)) && forall entry :: entry in Insert(x, sorted) <==> entry == x || entry in sorted
  {
    if sorted != [] {
      var head, rest := sorted[0], sorted[1..];
      assert sorted == [head] + rest && head in sorted;
      NewerTotal(head, x);
      if Newer(head, x) {
        InsertKeeps(x, rest);
        ConsOrdered(head, Insert(x, rest));
      } else {
        forall entry | entry in sorted ensures Newer(x, entry) {
          if entry != head {
            var k :| 0 < k < |sorted| && sorted[k] == entry;
            NewerTransitive(x, head, entry);
          }
        }
        ConsOrdered(x, sorted);
      }
    }
  }

  lemma ConsOrdered(x: Seen, sorted: seq<Seen>)
    requires Ordered(sorted) && forall entry | entry in sorted :: Newer(x, entry)
    ensures Ordered([x] + sorted)
  {
  }

  lemma {:induction false} SortOrders(entries: seq<Seen>)
    requires DistinctPaths(entries)
    ensures Ordered(Sort(entries)) && forall entry :: entry in Sort(entries) <==> entry in entries
  {
    if entries != [] {
      assert entries == [entries[0]] + entries[1..];
      SortOrders(entries[1..]);
      InsertKeeps(entries[0], Sort(entries[1..]));
    }
  }

  lemma {:induction false} InRangeKeeps(entries: seq<Seen>, start: nat, end: nat)
    requires DistinctPaths(entries)
    ensures DistinctPaths(InRange(entries, start, end))
    ensures forall entry :: entry in InRange(entries, start, end) <==> entry in entries && start <= entry.index < end
  {
    if entries != [] {
      assert entries == [entries[0]] + entries[1..];
      InRangeKeeps(entries[1..], start, end);
    }
  }

  /** The hints do not depend on the order in which the hash map is iterated. */
  lemma HintsIgnoreHashOrder(seen: map<string, Seen>, a: seq<Seen>, b: seq<Seen>, start: nat, end: nat)
    requires Enumerates(a, seen) && Enumerates(b, seen)
    ensures Hints(a, start, end) == Hints(b, start, end)
  {
    InRangeKeeps(a, start, end);
    InRangeKeeps(b, start, end);
    SortOrders(InRange(a, start, end));
    SortOrders(InRange(b, start, end));
    OrderIsUnique(Sort(InRange(a, start, end)), Sort(InRange(b, start, end)));
  }

  /** `found[k]` is the last read of its path. */
  ghost predicate IsLast(found: seq<Seen>, k: nat) {
    k < |found| && forall j | k < j < |found| :: found[j].target.path != found[k].target.path
  }

  /** The map holds, for each path read, its last read in the whole transcript. */
  lemma {:induction false} RememberedIsLast(seen: map<string, Seen>, found: seq<Seen>, entry: Seen)
    requires forall path | path in seen :: seen[path].target.path == path
    ensures var later := Remember(seen, found);
      entry.target.path in later && later[entry.target.path] == entry
      <==> (exists k: nat :: IsLast(found, k) && found[k] == entry)
           || (entry.target.path in seen && seen[entry.target.path] == entry
               && forall read | read in found :: read.target.path != entry.target.path)
    decreases |found|
  {
    if found != [] {
      var head, rest := found[0], found[1..];
      assert found == [head] + rest;
      RememberedIsLast(seen[head.target.path := head], rest, entry);
      assert forall k: nat :: k > 0 ==> (IsLast(found, k) <==> IsLast(rest, k - 1));
      assert forall k: nat :: IsLast(rest, k) ==> IsLast(found, k + 1) && found[k + 1] == rest[k];
      assert IsLast(found, 0) <==> forall read | read in rest :: read.target.path != head.target.path;
    }
  }

  /** An entry that qualifies: the last read of its path anywhere, made inside the range. */
  ghost predicate Qualifies(messages: seq<Message>, start: nat, end: nat, entry: Seen) {
    start <= entry.index < end
    && exists k: nat :: IsLast(Reads(messages, 0), k) && Reads(messages, 0)[k] == entry
  }

  /**
    What is listed: entries that qualify, newest first, within both limits; and an entry that
    qualifies but is not listed is older than all that are, and stays out because of a limit.
   */
  lemma HintsAre(messages: seq<Message>, entries: seq<Seen>, start: nat, end: nat)
    requires Enumerates(entries, LastSeen(messages))
    ensures var hints := Hints(entries, start, end);
      Ordered(hints) && |hints| <= MAX_FILES && Total(hints, LineBytes) <= MAX_LIST_BYTES
      && (forall entry | entry in hints :: Qualifies(messages, start, end, entry))
      && forall entry | Qualifies(messages, start, end, entry) && entry !in hints ::
        forall listed | listed in hints :: Newer(listed, entry)
  {
    InRangeKeeps(entries, start, end);
    SortOrders(InRange(entries, start, end));
    var ordered := Sort(InRange(entries, start, end));
    TakenPrefix(ordered, LineBytes);
    var n := Taken(ordered, LineBytes, 0, 0);
    forall entry ensures entry in ordered <==> Qualifies(messages, start, end, entry) {
      RememberedIsLast(map[], Reads(messages, 0), entry);
    }
    forall entry, listed | Qualifies(messages, start, end, entry) && entry !in ordered[..n] && listed in ordered[..n]
      ensures Newer(listed, entry)
    {
      assert entry in ordered;
      var i :| 0 <= i < n && ordered[i] == listed;
      var j :| 0 <= j < |ordered| && ordered[j] == entry;
      PrefixMember(ordered, n, j);
    }
  }

  /** The list is as long as the limits allow: one more entry would break one of them. */
  lemma HintsAreLongest(entries: seq<Seen>, start: nat, end: nat)
    ensures var ordered, n := Sort(InRange(entries, start, end)), |Hints(entries, start, end)|;
      n <= |ordered| && Hints(entries, start, end) == ordered[..n]
      && (n < |ordered| ==> n == MAX_FILES || Total(ordered[..n + 1], LineBytes) > MAX_LIST_BYTES)
  {
    TakenPrefix(Sort(InRange(entries, start, end)), LineBytes);
  }
}
