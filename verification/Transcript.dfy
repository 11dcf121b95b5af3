/** Provider-neutral messages and the per-block estimate of the tokens they occupy. */
module Transcript {
  import opened Wrappers
  import opened Words
  import opened Text
  import opened Sums

  datatype Role = System | Developer | User | Assistant | Tool

  /** A JSON value, represented by its canonical encoding. */
  datatype Json = Json(encoded: string)

  /** The arguments of a tool call: their encoding and the keys a file read is recognised by. */
  datatype Arguments = Arguments(
    encoded: string, filePath: Option<string>, offset: Option<uint64>, limit: Option<uint64>)

  datatype ImageSource = Url(url: string) | Base64(mediaType: string, data: string)

  datatype ResultContent = ResultText(text: string) | ResultImage(source: ImageSource)

  datatype Block =
    | TextBlock(text: string)
    | Reasoning(text: string, summary: Option<string>, continuation: Option<Json>)
    | Image(source: ImageSource)
    | ToolCall(id: string, name: string, arguments: Arguments)
    | ToolResult(callId: string, content: seq<ResultContent>, isError: bool)

  /** `references` is the text block the selected resources add on the wire; empty for none. */
  datatype Message = Message(isMeta: bool, references: string, role: Role, content: seq<Block>)

  function TextMessage(role: Role, text: string): Message {
    Message(false, "", role, [TextBlock(text)])
  }

  datatype ToolDefinition = ToolDefinition(name: string, description: string, inputSchema: Json)

  datatype Request = Request(
    model: string, messages: seq<Message>, tools: seq<ToolDefinition>,
    structuredOutput: Option<Json>, maxOutputTokens: Option<uint32>)

  const BASE64_IMAGE_ESTIMATED_TOKENS: nat := 2_000
  const PER_MESSAGE_OVERHEAD_TOKENS: nat := 4
  const PER_REQUEST_OVERHEAD_TOKENS: nat := 16

  function ImageTokens(source: ImageSource): uint64 {
    match source
    case Url(url) => TextTokens(url)
    case Base64(_, _) => BASE64_IMAGE_ESTIMATED_TOKENS
  }

  function PartTokens(part: ResultContent): (n: nat)
    ensures n <= U64_MAX
  {
    match part
    case ResultText(text) => TextTokens(text)
    case ResultImage(source) => ImageTokens(source)
  }

  /** Unbounded sum over the contents of one tool result. */
  function PartsTokens(parts: seq<ResultContent>): nat {
    Total(parts, PartTokens)
  }

  function BlockTokens(block: Block): (n: nat)
    ensures n <= U64_MAX
  {
    match block
    case TextBlock(text) => TextTokens(text)
    case Reasoning(text, _, continuation) =>
      (match continuation
       case Some(state) => SatAdd(TextTokens(text), TextTokens(state.encoded))
       case None => 0)
    case Image(source) => ImageTokens(source)
    case ToolCall(_, name, arguments) => SatAdd(TextTokens(name), TextTokens(arguments.encoded))
    case ToolResult(_, content, _) => Saturate(PartsTokens(content))
  }

  function BlocksTokens(blocks: seq<Block>): nat {
    Total(blocks, BlockTokens)
  }

  /** The content a protocol adapter sends: the blocks and, last, the selected resources. */
  function WireContent(message: Message): seq<Block> {
    if message.references == "" then message.content
    else message.content + [TextBlock(message.references)]
  }

  function MessageTokens(message: Message): nat {
    PER_MESSAGE_OVERHEAD_TOKENS + BlocksTokens(WireContent(message))
  }

  /** Unbounded sum over a transcript. */
  function Tokens(messages: seq<Message>): nat {
    Total(messages, MessageTokens)
  }

  function EstimateMessages(messages: seq<Message>): uint64 {
    Saturate(Tokens(messages))
  }

  function ToolTokens(tool: ToolDefinition): nat {
    TextTokens(tool.name) + TextTokens(tool.description) + TextTokens(tool.inputSchema.encoded)
  }

  function ToolsTokens(tools: seq<ToolDefinition>): nat {
    Total(tools, ToolTokens)
  }

  function StructuredOutputTokens(structured: Option<Json>): uint64 {
    match structured
    case Some(schema) => TextTokens(schema.encoded)
    case None => 0
  }

  /** The share of a request's estimate that does not depend on its messages. */
  function FixedTokens(request: Request): nat {
    Saturate(ToolsTokens(request.tools)) + StructuredOutputTokens(request.structuredOutput)
    + PER_REQUEST_OVERHEAD_TOKENS
  }

  function RequestTokens(request: Request): nat {
    Tokens(request.messages) + FixedTokens(request)
  }

  function EstimateRequest(request: Request): uint64 {
    Saturate(RequestTokens(request))
  }

  /** `estimate_request` of the built-in estimator, saturating at every addition. */
  method ComputeRequestEstimate(request: Request) returns (total: uint64)
    ensures total == EstimateRequest(request)
  {
    var messages := ComputeMessagesEstimate(request.messages);
    var tools := ComputeToolsEstimate(request.tools);
    var structured := StructuredOutputTokens(request.structuredOutput);
    total := SatAdd(SatAdd(SatAdd(messages, tools), structured), PER_REQUEST_OVERHEAD_TOKENS);
    SaturateTwice(Tokens(request.messages), tools);
  }

  method ComputeToolsEstimate(tools: seq<ToolDefinition>) returns (total: uint64)
    ensures total == Saturate(ToolsTokens(tools))
  {
    total := 0;
    for i := 0 to |tools|
      invariant total == Saturate(ToolsTokens(tools[..i]))
    {
      TotalNext(tools, i, ToolTokens);
      ghost var seen := ToolsTokens(tools[..i]);
      var name, description := TextTokens(tools[i].name), TextTokens(tools[i].description);
      var schema := TextTokens(tools[i].inputSchema.encoded);
      total := SatAdd(SatAdd(SatAdd(total, name), description), schema);
      SaturateChain(seen, name, description, schema);
    }
    assert tools[..|tools|] == tools;
  }

  /** `estimate_message_tokens`: the loop over blocks saturates at every addition. */
  method ComputeMessagesEstimate(messages: seq<Message>) returns (total: uint64)
    ensures total == EstimateMessages(messages)
  {
    total := 0;
    for i := 0 to |messages|
      invariant total == Saturate(Tokens(messages[..i]))
    {
      ghost var seen := Tokens(messages[..i]);
      total := SatAdd(total, PER_MESSAGE_OVERHEAD_TOKENS);
      var blocks := WireContent(messages[i]);
      for b := 0 to |blocks|
        invariant total == Saturate(seen + PER_MESSAGE_OVERHEAD_TOKENS + BlocksTokens(blocks[..b]))
      {
        TotalNext(blocks, b, BlockTokens);
        total := SatAdd(total, BlockTokens(blocks[b]));
      }
      assert blocks[..|blocks|] == blocks;
      TotalNext(messages, i, MessageTokens);
    }
    assert messages[..|messages|] == messages;
  }
}
