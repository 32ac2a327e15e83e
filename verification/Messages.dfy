/** Conversation messages as the language-model layer exchanges them. */
module Messages {
  import opened Common

  datatype Item =
    | TextItem(text: string, signature: Option<string>)
    | ImageItem(data: string, mimeType: string)

  datatype Block =
    | TextBlock(text: string, signature: Option<string>)
    | Thinking(thinking: string, signature: Option<string>, redacted: bool)
    | ToolCall(id: string, name: string, arguments: string, thoughtSignature: Option<string>)

  datatype StopReason = Stop | Length | ToolUse | Error | Aborted

  datatype UserContent = Plain(text: string) | Items(items: seq<Item>)

  datatype Message =
    | User(userContent: UserContent)
    | Assistant(content: seq<Block>, api: string, provider: string, model: string, stop: StopReason)
    | ToolResult(toolCallId: string, toolName: string, resultContent: seq<Item>, isError: bool)

  datatype Model = Model(api: string, provider: string, id: string, vision: bool)

  /** The characters that `trim` removes. */
  const WHITESPACE := {
    '\t', '\n', '\U{0B}', '\U{0C}', '\r', ' ', '\U{A0}', '\U{1680}', '\U{2000}', '\U{2001}', '\U{2002}', '\U{2003}',
    '\U{2004}', '\U{2005}', '\U{2006}', '\U{2007}', '\U{2008}', '\U{2009}', '\U{200A}', '\U{2028}', '\U{2029}',
    '\U{202F}', '\U{205F}', '\U{3000}', '\U{FEFF}'}

  /** Whether trimming leaves nothing. */
  predicate Blank(s: string) { forall k :: 0 <= k < |s| ==> s[k] in WHITESPACE }

  /** An optional string that is present and not empty. */
  predicate Truthy(s: Option<string>) { s.Some? && s.value != "" }

  /** The tool calls of a message; none for users and tool results. */
  function Calls(m: Message): (r: seq<Block>)
    ensures forall c <- r :: c.ToolCall?
    ensures m.Assistant? ==> forall c :: c in r <==> c in m.content && c.ToolCall?
  {
    if m.Assistant? then CallBlocks(m.content) else []
  }

  function CallBlocks(blocks: seq<Block>): (r: seq<Block>)
    ensures forall c :: c in r <==> c in blocks && c.ToolCall?
  {
    if blocks == [] then []
    else
      var n := |blocks| - 1;
      if blocks[n].ToolCall? then CallBlocks(blocks[..n]) + [blocks[n]] else CallBlocks(blocks[..n])
  }
}
