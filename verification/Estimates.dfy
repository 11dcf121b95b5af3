/** The built-in estimate in terms of the texts and images that go over the wire. */
module Estimates {
  import opened Wrappers
  import opened Words
  import opened Text
  import opened Sums
  import opened Transcript
  import opened Rewriting
  import opened ChunkLaws
  import opened MicroGains

  /** A quarter of the bytes, rounded up. */
  function Quarter(text: string): nat {
    (Utf8Len(text) + 3) / 4
  }

  function PartTexts(part: ResultContent): seq<string> {
    match part
    case ResultText(text) => [text]
    case ResultImage(Url(url)) => [url]
    case ResultImage(Base64(_, _)) => []
  }

  /** The texts a block sends; reasoning that cannot be continued is not sent at all. */
  function BlockTexts(block: Block): seq<string> {
    match block
    case TextBlock(text) => [text]
    case Reasoning(text, _, Some(state)) => [text, state.encoded]
    case Reasoning(_, _, None) => []
    case Image(Url(url)) => [url]
    case Image(Base64(_, _)) => []
    case ToolCall(_, name, arguments) => [name, arguments.encoded]
    case ToolResult(_, content, _) => Flatten(Map(content, PartTexts))
  }

  function PartImages(part: ResultContent): nat {
    if part.ResultImage? && part.source.Base64? then 1 else 0
  }

  /** The encoded images a block sends. */
  function BlockImages(block: Block): nat {
    match block
    case Image(source) => if source.Base64? then 1 else 0
    case ToolResult(_, content, _) => Total(content, PartImages)
    case _ => 0
  }

  /** The texts of a message, and last the resources it refers to. */
  function MessageTexts(message: Message): seq<string> {
    Flatten(Map(message.content, BlockTexts)) + (if message.references == "" then [] else [message.references])
  }

  function MessageImages(message: Message): nat {
    Total(message.content, BlockImages)
  }

  function ToolTexts(tool: ToolDefinition): seq<string> {
    [tool.name, tool.description, tool.inputSchema.encoded]
  }

  function SchemaTexts(structured: Option<Json>): seq<string> {
    match structured case Some(schema) => [schema.encoded] case None => []
  }

  /** All the texts a request sends. */
  function RequestTexts(request: Request): seq<string> {
    Flatten(Map(request.messages, MessageTexts)) + Flatten(Map(request.tools, ToolTexts))
    + SchemaTexts(request.structuredOutput)
  }

  function Images(messages: seq<Message>): nat {
    Total(messages, MessageImages)
  }

  /** Every text can be held in memory, as every Rust string is. */
  predicate Fit(texts: seq<string>) {
    texts == [] || (Utf8Len(texts[0]) <= ISIZE_MAX && Fit(texts[1..]))
  }

  // ----- sums -----

  lemma {:induction false} TotalFlatten<A, B>(xs: seq<A>, f: A -> seq<B>, weight: B -> nat, inner: A -> nat)
    requires forall x | x in xs :: inner(x) == Total(f(x), weight)
    ensures Total(Flatten(Map(xs, f)), weight) == Total(xs, inner)
  {
    if xs != [] {
      assert xs[0] in xs && Map(xs, f)[1..] == Map(xs[1..], f);
      TotalFlatten(xs[1..], f, weight, inner);
      TotalConcat(f(xs[0]), Flatten(Map(xs[1..], f)), weight);
    }
  }

  /** Summands may be saturated one by one. */
  lemma {:induction false} SaturateTotal<T>(xs: seq<T>, weight: T -> nat, exact: T -> nat)
    requires forall x | x in xs :: Saturate(weight(x)) == Saturate(exact(x))
    ensures Saturate(Total(xs, weight)) == Saturate(Total(xs, exact))
  {
    if xs != [] {
      assert xs[0] in xs;
      SaturateTotal(xs[1..], weight, exact);
    }
  }

  lemma {:induction false} TotalSum<T>(xs: seq<T>, a: T -> nat, b: T -> nat, both: T -> nat)
    requires forall x | x in xs :: both(x) == a(x) + b(x)
    ensures Total(xs, both) == Total(xs, a) + Total(xs, b)
  {
    if xs != [] {
      assert xs[0] in xs;
      TotalSum(xs[1..], a, b, both);
    }
  }

  lemma {:induction false} TotalTimes<T>(xs: seq<T>, factor: nat, weight: T -> nat, times: T -> nat)
    requires forall x | x in xs :: times(x) == factor * weight(x)
    ensures Total(xs, times) == factor * Total(xs, weight)
  {
    if xs != [] {
      assert xs[0] in xs;
      TotalTimes(xs[1..], factor, weight, times);
      assert factor * (weight(xs[0]) + Total(xs[1..], weight))
          == factor * weight(xs[0]) + factor * Total(xs[1..], weight);
    }
  }

  lemma {:induction false} FitAt(texts: seq<string>, k: nat)
    requires Fit(texts) && k < |texts|
    ensures Utf8Len(texts[k]) <= ISIZE_MAX
  {
    if k > 0 {
      FitAt(texts[1..], k - 1);
    }
  }

  lemma {:induction false} FitConcat(a: seq<string>, b: seq<string>)
    requires Fit(a + b)
    ensures Fit(a) && Fit(b)
  {
    if a == [] {
      assert a + b == b;
    } else {
      assert (a + b)[1..] == a[1..] + b;
      FitConcat(a[1..], b);
    }
  }

  lemma {:induction false} FitInside<T>(xs: seq<T>, texts: T -> seq<string>, x: T)
    requires Fit(Flatten(Map(xs, texts))) && x in xs
    ensures Fit(texts(x))
  {
    assert Map(xs, texts)[1..] == Map(xs[1..], texts);
    FitConcat(texts(xs[0]), Flatten(Map(xs[1..], texts)));
    if x != xs[0] {
      FitInside(xs[1..], texts, x);
    }
  }

  // ----- what is counted -----

  lemma TextIsQuarter(text: string)
    requires Utf8Len(text) <= ISIZE_MAX
    ensures TextTokens(text) == Quarter(text) <= U64_MAX / 4
  {
  }

  /** Two thousand tokens for each encoded image, and a quarter of each text. */
  function Weight(images: nat, texts: seq<string>): nat {
    2_000 * images + Total(texts, Quarter)
  }

  function PartWeight(part: ResultContent): nat {
    Weight(PartImages(part), PartTexts(part))
  }

  lemma PartCounts(part: ResultContent)
    requires Fit(PartTexts(part))
    ensures PartTokens(part) == PartWeight(part)
  {
    match part
    case ResultText(text) =>
      FitAt(PartTexts(part), 0);
      TotalOne(text, Quarter);
    case ResultImage(Url(url)) =>
      FitAt(PartTexts(part), 0);
      TotalOne(url, Quarter);
    case ResultImage(Base64(_, _)) =>
  }

  lemma PartsCount(content: seq<ResultContent>)
    requires Fit(Flatten(Map(content, PartTexts)))
    ensures PartsTokens(content) == Weight(Total(content, PartImages), Flatten(Map(content, PartTexts)))
  {
    forall part | part in content ensures PartTokens(part) == PartWeight(part) {
      FitInside(content, PartTexts, part);
      PartCounts(part);
    }
    SumOfWeights(content, PartImages, PartTexts, PartTokens);
  }

  /** Weights add up: the weight of all is that of all images and all texts. */
  lemma SumOfWeights<T>(xs: seq<T>, images: T -> nat, texts: T -> seq<string>, weight: T -> nat)
    requires forall x | x in xs :: weight(x) == Weight(images(x), texts(x))
    ensures Total(xs, weight) == Weight(Total(xs, images), Flatten(Map(xs, texts)))
  {
    var scaled := x => 2_000 * images(x);
    var read := x => Total(texts(x), Quarter);
    TotalTimes(xs, 2_000, images, scaled);
    TotalFlatten(xs, texts, Quarter, read);
    TotalSum(xs, scaled, read, weight);
  }

  function BlockWeight(block: Block): nat {
    Weight(BlockImages(block), BlockTexts(block))
  }

  lemma TwoTexts(a: string, b: string)
    ensures Total([a, b], Quarter) == Quarter(a) + Quarter(b)
  {
    assert [a, b] == [a] + [b];
    TotalConcat([a], [b], Quarter);
    TotalOne(a, Quarter);
    TotalOne(b, Quarter);
  }

  lemma PairCounts(a: string, b: string)
    requires Utf8Len(a) <= ISIZE_MAX && Utf8Len(b) <= ISIZE_MAX
    ensures SatAdd(TextTokens(a), TextTokens(b)) == Total([a, b], Quarter)
  {
    TextIsQuarter(a);
    TextIsQuarter(b);
    TwoTexts(a, b);
  }

  lemma BlockCounts(block: Block)
    requires Fit(BlockTexts(block))
    ensures Saturate(BlockTokens(block)) == Saturate(BlockWeight(block))
  {
    match block
    case TextBlock(text) =>
      FitAt(BlockTexts(block), 0);
      TotalOne(text, Quarter);
    case Reasoning(text, _, Some(state)) =>
      FitAt(BlockTexts(block), 0);
      FitAt(BlockTexts(block), 1);
      PairCounts(text, state.encoded);
    case Reasoning(_, _, None) =>
    case Image(source) =>
      PartCounts(ResultImage(source));
    case ToolCall(_, name, arguments) =>
      FitAt(BlockTexts(block), 0);
      FitAt(BlockTexts(block), 1);
      PairCounts(name, arguments.encoded);
    case ToolResult(_, content, _) =>
      PartsCount(content);
  }

  lemma BlocksCount(blocks: seq<Block>)
    requires Fit(Flatten(Map(blocks, BlockTexts)))
    ensures Saturate(BlocksTokens(blocks))
         == Saturate(Weight(Total(blocks, BlockImages), Flatten(Map(blocks, BlockTexts))))
  {
    forall block | block in blocks ensures Saturate(BlockTokens(block)) == Saturate(BlockWeight(block)) {
      FitInside(blocks, BlockTexts, block);
      BlockCounts(block);
    }
    SaturateTotal(blocks, BlockTokens, BlockWeight);
    SumOfWeights(blocks, BlockImages, BlockTexts, BlockWeight);
  }

  function MessageWeight(message: Message): nat {
    4 + Weight(MessageImages(message), MessageTexts(message))
  }

  lemma MessageCounts(message: Message)
    requires Fit(MessageTexts(message))
    ensures Saturate(MessageTokens(message)) == Saturate(MessageWeight(message))
  {
    var inner := Flatten(Map(message.content, BlockTexts));
    var last := if message.references == "" then [] else [message.references];
    FitConcat(inner, last);
    BlocksCount(message.content);
    TotalConcat(inner, last, Quarter);
    if message.references != "" {
      FitAt(last, 0);
      TotalOne(message.references, Quarter);
      TotalConcat(message.content, [TextBlock(message.references)], BlockTokens);
      TotalOne(TextBlock(message.references), BlockTokens);
    }
  }

  lemma {:induction false} MessagesSaturate(messages: seq<Message>)
    requires Fit(Flatten(Map(messages, MessageTexts)))
    ensures Saturate(Tokens(messages)) == Saturate(Total(messages, MessageWeight))
  {
    if messages != [] {
      assert Map(messages, MessageTexts)[1..] == Map(messages[1..], MessageTexts);
      FitConcat(MessageTexts(messages[0]), Flatten(Map(messages[1..], MessageTexts)));
      MessageCounts(messages[0]);
      MessagesSaturate(messages[1..]);
    }
  }

  lemma MessageWeights(messages: seq<Message>)
    ensures Total(messages, MessageWeight)
         == 4 * |messages| + Weight(Images(messages), Flatten(Map(messages, MessageTexts)))
  {
    var four := (message: Message) => 4;
    var rest := (message: Message) => Weight(MessageImages(message), MessageTexts(message));
    SumOfWeights(messages, MessageImages, MessageTexts, rest);
    TotalSum(messages, four, rest, MessageWeight);
    TotalConstant(messages, 4, four);
  }

  lemma MessagesCount(messages: seq<Message>)
    requires Fit(Flatten(Map(messages, MessageTexts)))
    ensures EstimateMessages(messages)
         == Saturate(4 * |messages| + Weight(Images(messages), Flatten(Map(messages, MessageTexts))))
  {
    MessagesSaturate(messages);
    MessageWeights(messages);
  }

  lemma {:induction false} TotalConstant<T>(xs: seq<T>, each: nat, weight: T -> nat)
    requires forall x | x in xs :: weight(x) == each
    ensures Total(xs, weight) == each * |xs|
  {
    if xs != [] {
      assert xs[0] in xs;
      TotalConstant(xs[1..], each, weight);
      assert each * |xs| == each + each * (|xs| - 1);
    }
  }

  lemma ToolCounts(tool: ToolDefinition)
    requires Fit(ToolTexts(tool))
    ensures ToolTokens(tool) == Total(ToolTexts(tool), Quarter)
  {
    FitAt(ToolTexts(tool), 0);
    FitAt(ToolTexts(tool), 1);
    FitAt(ToolTexts(tool), 2);
    TextIsQuarter(tool.name);
    TextIsQuarter(tool.description);
    TextIsQuarter(tool.inputSchema.encoded);
    TotalOf3(tool.name, tool.description, tool.inputSchema.encoded, Quarter);
  }

  lemma ToolsCount(tools: seq<ToolDefinition>)
    requires Fit(Flatten(Map(tools, ToolTexts)))
    ensures ToolsTokens(tools) == Total(Flatten(Map(tools, ToolTexts)), Quarter)
  {
    forall tool | tool in tools ensures ToolTokens(tool) == Total(ToolTexts(tool), Quarter) {
      FitInside(tools, ToolTexts, tool);
      ToolCounts(tool);
    }
    TotalFlatten(tools, ToolTexts, Quarter, ToolTokens);
  }

  /**
    The built-in estimate of a request, whatever saturates on the way: sixteen tokens, four for each
    message, two thousand for each encoded image, and a quarter of the bytes, rounded up, of every text
    that is sent, each counted once.
   */
  lemma EstimateCountsTexts(request: Request)
    requires Fit(RequestTexts(request))
    ensures EstimateRequest(request)
         == Saturate(16 + 4 * |request.messages| + Weight(Images(request.messages), RequestTexts(request)))
  {
    var inner := Flatten(Map(request.messages, MessageTexts));
    var tools := Flatten(Map(request.tools, ToolTexts));
    TextsOfRequest(request);
    MessagesCount(request.messages);
    ToolsCount(request.tools);
    SchemaCounts(request.structuredOutput);
    ThreeTotals(Images(request.messages), inner, tools, SchemaTexts(request.structuredOutput));
    AddUp(request, 4 * |request.messages| + Weight(Images(request.messages), inner));
  }

  lemma TextsOfRequest(request: Request)
    requires Fit(RequestTexts(request))
    ensures Fit(Flatten(Map(request.messages, MessageTexts))) && Fit(Flatten(Map(request.tools, ToolTexts)))
    ensures Fit(SchemaTexts(request.structuredOutput))
  {
    var inner := Flatten(Map(request.messages, MessageTexts));
    var tools := Flatten(Map(request.tools, ToolTexts));
    FitConcat(inner + tools, SchemaTexts(request.structuredOutput));
    FitConcat(inner, tools);
  }

  lemma SchemaCounts(structured: Option<Json>)
    requires Fit(SchemaTexts(structured))
    ensures StructuredOutputTokens(structured) == Total(SchemaTexts(structured), Quarter)
  {
    if structured.Some? {
      FitAt(SchemaTexts(structured), 0);
      TextIsQuarter(structured.value.encoded);
      TotalOne(structured.value.encoded, Quarter);
    }
  }

  lemma ThreeTotals(images: nat, a: seq<string>, b: seq<string>, c: seq<string>)
    ensures Weight(images, a + b + c) == Weight(images, a) + Total(b, Quarter) + Total(c, Quarter)
  {
    TotalConcat(a + b, c, Quarter);
    TotalConcat(a, b, Quarter);
  }

  lemma AddUp(request: Request, exact: nat)
    requires EstimateMessages(request.messages) == Saturate(exact)
    ensures EstimateRequest(request)
         == Saturate(16 + exact + ToolsTokens(request.tools) + StructuredOutputTokens(request.structuredOutput))
  {
  }
}
