/** Conversion of a history into the messages of an Anthropic request. */
module Anthropic {
  import opened Common
  import opened Messages
  import opened Transform
  import opened TransformTheorems
  import opened TransformWords
  import opened AnthropicRequest
  import opened RequestContents

  method ConvertUser(content: UserContent) returns (params: seq<Param>)
    ensures params == UserParam(content)
  {
    match content
    case Plain(text) =>
      params := if Blank(text) then [] else [UserText(text)];
    case Items(items) =>
      var filteredBlocks: seq<ParamBlock> := [];
      for i := 0 to |items|
        invariant filteredBlocks == UserBlockList(items[..i])
      {
        assert items[..i + 1][..i] == items[..i];
        var block := UserBlock(items[i]);
        if !(block.PText? && Blank(block.text)) {
          filteredBlocks := filteredBlocks + [block];
        }
      }
      assert items[..|items|] == items;
      params := if filteredBlocks == [] then [] else [UserBlocks(filteredBlocks)];
  }

  method ConvertAssistant(content: seq<Block>, settings: Settings) returns (params: seq<Param>)
    ensures params == AssistantParam(content, settings)
  {
    var blocks: seq<ParamBlock> := [];
    for i := 0 to |content|
      invariant blocks == AssistantBlockList(content[..i], settings)
    {
      assert content[..i + 1][..i] == content[..i];
      match content[i]
      case TextBlock(text, _) =>
        if Blank(text) { continue; }
        blocks := blocks + [PText(text)];
      case Thinking(thinking, signature, redacted) =>
        if redacted {
          blocks := blocks + [PRedacted(signature)];
          continue;
        }
        if Blank(thinking) { continue; }
        if signature.None? || Blank(signature.value) {
          blocks := blocks + [if settings.allowEmptySignature then PThinking(thinking, "") else PText(thinking)];
        } else {
          blocks := blocks + [PThinking(thinking, signature.value)];
        }
      case ToolCall(id, name, arguments, _) =>
        blocks := blocks + [PToolUse(id, settings.toolName(name), arguments)];
    }
    assert content[..|content|] == content;
    params := if blocks == [] then [] else [AssistantBlocks(blocks)];
  }

  /** The tool results from message `i` on, and the index behind them. */
  method CollectResults(ms: seq<Message>, i: nat) returns (toolResults: seq<ParamBlock>, j: nat)
    requires i < |ms| && ms[i].ToolResult?
    ensures j == RunEnd(ms, i) && i < j && toolResults == ResultBlocks(ms[i..j])
  {
    toolResults := [ResultBlock(ms[i])];
    j := i + 1;
    while j < |ms| && ms[j].ToolResult?
      invariant i < j <= |ms| && RunEnd(ms, j) == RunEnd(ms, i)
      invariant forall k :: i <= k < j ==> ms[k].ToolResult?
      invariant toolResults == ResultBlocks(ms[i..j])
    {
      toolResults := toolResults + [ResultBlock(ms[j])];
      j := j + 1;
    }
  }

  /** Whatever the history, every tool use in the request is answered in the very next message, and what the request
      says is what the normalised history means, in order and under the same roles. */
  method ConvertMessages(messages: seq<Message>, model: Model, settings: Settings) returns (params: seq<Param>)
    ensures params == Request(messages, model, settings)
    ensures ProviderContract(params)
    ensures Heard(params) == Audible(Meant(Transformed(messages, model, NORMALIZE), settings))
    ensures WordsHeard(Heard(params)) == Words(WithoutFailed(DowngradedAll(messages, model)))
  {
    var transformedMessages := TransformMessages(messages, model, NORMALIZE);
    SecondPassPairs(FirstPass(DowngradedAll(messages, model), model, NORMALIZE));
    PairedMeetsContract(transformedMessages, 0, settings);
    RequestKeepsWords(messages, model, settings);
    params := ConvertTransformed(transformedMessages, settings);
  }

  /** The loop over the normalised messages. */
  method ConvertTransformed(ms: seq<Message>, settings: Settings) returns (params: seq<Param>)
    ensures params == ParamsFrom(ms, 0, settings)
  {
    params := [];
    var i := 0;
    while i < |ms|
      invariant i <= |ms|
      invariant params + ParamsFrom(ms, i, settings) == ParamsFrom(ms, 0, settings)
    {
      var more, next := ConvertNext(ms, i, settings);
      Associate(params, more, ParamsFrom(ms, next, settings));
      params := params + more;
      i := next;
    }
  }

  /** What message `i` becomes, with the tool results behind it if it is one, and the index behind. */
  method ConvertNext(ms: seq<Message>, i: nat, settings: Settings) returns (more: seq<Param>, next: nat)
    requires i < |ms|
    ensures i < next <= |ms| && ParamsFrom(ms, i, settings) == more + ParamsFrom(ms, next, settings)
  {
    match ms[i]
    case User(content) =>
      more := ConvertUser(content);
      next := i + 1;
    case Assistant(content, _, _, _, _) =>
      more := ConvertAssistant(content, settings);
      next := i + 1;
    case ToolResult(_, _, _, _) =>
      var toolResults;
      toolResults, next := CollectResults(ms, i);
      more := [UserBlocks(toolResults)];
  }
}
