/** The messages of an Anthropic request, as a function of the normalised history. */
module AnthropicRequest {
  import opened Common
  import opened Messages
  import opened Transform
  import opened TransformTheorems

  // ---- call ids ----

  const ID_LENGTH := 64

  predicate IdChar(c: char) { 'a' <= c <= 'z' || 'A' <= c <= 'Z' || '0' <= c <= '9' || c == '_' || c == '-' }

  /** Ids the provider accepts: up to 64 letters, digits, underscores and hyphens. */
  predicate ValidId(id: string) {
    && |id| <= 64
    && forall k :: 0 <= k < |id| ==>
         'a' <= id[k] <= 'z' || 'A' <= id[k] <= 'Z' || '0' <= id[k] <= '9' || id[k] == '_' || id[k] == '-'
  }

  /** Each UTF-16 code unit that is not allowed becomes an underscore; a character beyond the basic
      plane is two code units. */
  function Underscored(id: string): string {
    if id == "" then ""
    else
      var n := |id| - 1;
      Underscored(id[..n]) + (if IdChar(id[n]) then [id[n]] else if id[n] as int < 0x10000 then "_" else "__")
  }

  function NormalizeToolCallId(id: string): string {
    var s := Underscored(id);
    if |s| <= ID_LENGTH then s else s[..ID_LENGTH]
  }

  lemma {:induction false} UnderscoredIsValid(id: string)
    ensures forall k :: 0 <= k < |Underscored(id)| ==> IdChar(Underscored(id)[k])
    ensures |Underscored(id)| >= |id|
    ensures (forall k :: 0 <= k < |id| ==> IdChar(id[k])) ==> Underscored(id) == id
    decreases |id|
  {
    if id != "" { UnderscoredIsValid(id[..|id| - 1]); }
  }

  /** Normalised ids are valid, valid ids are left alone (so normalising twice is normalising once),
      and only the empty id becomes empty. */
  lemma NormalizedIdIsValid(id: string)
    ensures ValidId(NormalizeToolCallId(id))
    ensures NormalizeToolCallId(id) == id <==> ValidId(id)
    ensures NormalizeToolCallId(NormalizeToolCallId(id)) == NormalizeToolCallId(id)
    ensures NormalizeToolCallId(id) == "" <==> id == ""
  {
    UnderscoredIsValid(id);
    UnderscoredIsValid(NormalizeToolCallId(id));
  }

  const NORMALIZE: Normalizer := (id, m) => NormalizeToolCallId(id)

  lemma NormalizeIsIdempotent()
    ensures Idempotent(NORMALIZE)
  {
    forall id, m, m' ensures NORMALIZE(NORMALIZE(id, m), m') == NORMALIZE(id, m) {
      NormalizedIdIsValid(id);
    }
  }

  // ---- request messages ----

  datatype Content = Joined(text: string) | Blocks(items: seq<Item>)

  datatype ParamBlock =
    | PText(text: string)
    | PImage(data: string, mimeType: string)
    | PThinking(thinking: string, signature: string)
    | PRedacted(payload: Option<string>)
    | PToolUse(id: string, name: string, input: string)
    | PToolResult(toolUseId: string, content: Content, isError: bool)

  datatype Param =
    | UserText(text: string)
    | UserBlocks(blocks: seq<ParamBlock>)
    | AssistantBlocks(blocks: seq<ParamBlock>)

  /** Settings of one conversion: the tool names of the account, and whether empty thinking
      signatures are accepted. */
  datatype Settings = Settings(toolName: string -> string, allowEmptySignature: bool)

  function JoinLines(content: seq<Item>): string
    requires NoImages(content)
  {
    if content == [] then ""
    else if |content| == 1 then content[0].text
    else JoinLines(content[..|content| - 1]) + "\n" + content[|content| - 1].text
  }

  lemma {:induction false} LinesJoin(a: seq<Item>, b: seq<Item>)
    requires NoImages(a) && NoImages(b) && a != [] && b != []
    ensures JoinLines(a + b) == JoinLines(a) + "\n" + JoinLines(b)
    decreases |b|
  {
    var n := |b| - 1;
    assert (a + b)[..|a + b| - 1] == a + b[..n];
    if n == 0 {
      assert a + b[..0] == a;
    } else {
      LinesJoin(a, b[..n]);
      Regrouped(JoinLines(a), "\n", JoinLines(b[..n]), "\n", b[n].text);
    }
  }

  lemma Regrouped(a: string, b: string, c: string, d: string, e: string)
    ensures a + b + c + d + e == a + b + (c + d + e)
  {
    Associate(a + b, c, d);
    Associate(a + b, c + d, e);
  }

  const SEE_IMAGE := TextItem("(see attached image)", None)

  /** Text alone is joined; content with images stays blocks and always has a text block. */
  function ResultContent(content: seq<Item>): (r: Content)
    ensures r.Joined? <==> NoImages(content)
    ensures r.Blocks? ==> exists k :: 0 <= k < |r.items| && r.items[k].TextItem?
    ensures r.Blocks? ==>
        content <= r.items || (r.items == [SEE_IMAGE] + content && forall x <- content :: x.ImageItem?)
  {
    if NoImages(content) then Joined(JoinLines(content))
    else if exists k :: 0 <= k < |content| && content[k].TextItem? then Blocks(content)
    else
      var items := [SEE_IMAGE] + content;
      assert items[0].TextItem?;
      Blocks(items)
  }

  function UserBlock(item: Item): ParamBlock {
    match item
    case TextItem(text, _) => PText(text)
    case ImageItem(data, mimeType) => PImage(data, mimeType)
  }

  function UserBlockList(items: seq<Item>): seq<ParamBlock> {
    if items == [] then []
    else
      var n := |items| - 1;
      var front := UserBlockList(items[..n]);
      if items[n].TextItem? && Blank(items[n].text) then front else front + [UserBlock(items[n])]
  }

  function UserParam(content: UserContent): seq<Param> {
    match content
    case Plain(text) => if Blank(text) then [] else [UserText(text)]
    case Items(items) => if UserBlockList(items) == [] then [] else [UserBlocks(UserBlockList(items))]
  }

  function AssistantBlock(b: Block, settings: Settings): seq<ParamBlock> {
    match b
    case TextBlock(text, _) => if Blank(text) then [] else [PText(text)]
    case Thinking(thinking, signature, redacted) =>
      if redacted then [PRedacted(signature)]
      else if Blank(thinking) then []
      else if signature.None? || Blank(signature.value) then
        [if settings.allowEmptySignature then PThinking(thinking, "") else PText(thinking)]
      else [PThinking(thinking, signature.value)]
    case ToolCall(id, name, arguments, _) => [PToolUse(id, settings.toolName(name), arguments)]
  }

  function AssistantBlockList(blocks: seq<Block>, settings: Settings): seq<ParamBlock> {
    if blocks == [] then []
    else
      var n := |blocks| - 1;
      AssistantBlockList(blocks[..n], settings) + AssistantBlock(blocks[n], settings)
  }

  function AssistantParam(content: seq<Block>, settings: Settings): seq<Param> {
    var blocks := AssistantBlockList(content, settings);
    if blocks == [] then [] else [AssistantBlocks(blocks)]
  }

  function ResultBlock(m: Message): ParamBlock
    requires m.ToolResult?
  {
    PToolResult(m.toolCallId, ResultContent(m.resultContent), m.isError)
  }

  function ResultBlocks(ms: seq<Message>): (r: seq<ParamBlock>)
    requires forall k :: 0 <= k < |ms| ==> ms[k].ToolResult?
    ensures |r| == |ms| && forall k :: 0 <= k < |r| ==> r[k] == ResultBlock(ms[k])
  {
    seq(|ms|, k requires 0 <= k < |ms| => ResultBlock(ms[k]))
  }

  /** The request messages for the history from message `i` on. A run of tool results is one message. */
  function ParamsFrom(ms: seq<Message>, i: nat, settings: Settings): seq<Param>
    requires i <= |ms|
    decreases |ms| - i
  {
    if i == |ms| then []
    else match ms[i]
      case User(content) => UserParam(content) + ParamsFrom(ms, i + 1, settings)
      case Assistant(content, _, _, _, _) => AssistantParam(content, settings) + ParamsFrom(ms, i + 1, settings)
      case ToolResult(_, _, _, _) =>
        var j := RunEnd(ms, i);
        [UserBlocks(ResultBlocks(ms[i..j]))] + ParamsFrom(ms, j, settings)
  }

  // ---- the provider contract ----

  predicate UsesTool(p: Param, id: string) {
    p.AssistantBlocks? && exists k :: 0 <= k < |p.blocks| && p.blocks[k].PToolUse? && p.blocks[k].id == id
  }

  predicate HasResult(p: Param, id: string) {
    p.UserBlocks? && exists k :: 0 <= k < |p.blocks| && p.blocks[k].PToolResult? && p.blocks[k].toolUseId == id
  }

  /** Every assistant message is followed at once by one user message with results for all its tool
      uses. */
  ghost predicate ProviderContract(params: seq<Param>) {
    forall k, id :: 0 <= k < |params| && UsesTool(params[k], id) ==> k + 1 < |params| && HasResult(params[k + 1], id)
  }

  lemma {:induction false} ToolUsesAreCalls(blocks: seq<Block>, settings: Settings, b: ParamBlock)
    requires b in AssistantBlockList(blocks, settings) && b.PToolUse?
    ensures exists c :: c in blocks && c.ToolCall? && c.id == b.id
    decreases |blocks|
  {
    var n := |blocks| - 1;
    if b in AssistantBlock(blocks[n], settings) {
      assert blocks[n] in blocks && blocks[n].ToolCall? && blocks[n].id == b.id;
    } else {
      ToolUsesAreCalls(blocks[..n], settings, b);
    }
  }

  /** The first request message for a run of tool results has a result for each id in the run. */
  lemma RunHasResults(ms: seq<Message>, i: nat, settings: Settings, k: nat)
    requires i <= k < |ms| && k < RunEnd(ms, i)
    ensures ParamsFrom(ms, i, settings) != [] && HasResult(ParamsFrom(ms, i, settings)[0], ms[k].toolCallId)
  {
    var j := RunEnd(ms, i);
    assert ms[i].ToolResult?;
    var blocks := ResultBlocks(ms[i..j]);
    assert ParamsFrom(ms, i, settings)[0] == UserBlocks(blocks);
    assert blocks[k - i] == ResultBlock(ms[k]);
  }

  lemma HeadKeepsContract(head: seq<Param>, rest: seq<Param>)
    requires |head| <= 1 && ProviderContract(rest)
    requires head != [] ==> forall id :: UsesTool(head[0], id) ==> rest != [] && HasResult(rest[0], id)
    ensures ProviderContract(head + rest)
  {
    var all := head + rest;
    forall k, id | 0 <= k < |all| && UsesTool(all[k], id) ensures k + 1 < |all| && HasResult(all[k + 1], id) {
      if k >= |head| {
        assert UsesTool(rest[k - |head|], id);
        assert all[k + 1] == rest[k - |head| + 1];
      }
    }
  }

  lemma AssistantIsAnswered(ms: seq<Message>, i: nat, settings: Settings, id: string)
    requires i < |ms| && ms[i].Assistant? && WellPaired(ms)
    requires UsesTool(AssistantBlocks(AssistantBlockList(ms[i].content, settings)), id)
    ensures ParamsFrom(ms, i + 1, settings) != [] && HasResult(ParamsFrom(ms, i + 1, settings)[0], id)
  {
    var blocks := AssistantBlockList(ms[i].content, settings);
    var b :| b in blocks && b.PToolUse? && b.id == id;
    ToolUsesAreCalls(ms[i].content, settings, b);
    var c :| c in ms[i].content && c.ToolCall? && c.id == id;
    assert AllAnswered(ms, i) && c in Calls(ms[i]);
    assert Answered(ms, i, id);
    var k :| i < k < RunEnd(ms, i + 1) && ms[k].toolCallId == id;
    RunHasResults(ms, i + 1, settings, k);
  }

  /** A well-paired history converts to a request that meets the contract. */
  lemma {:induction false} PairedMeetsContract(ms: seq<Message>, i: nat, settings: Settings)
    requires i <= |ms| && WellPaired(ms)
    ensures ProviderContract(ParamsFrom(ms, i, settings))
    decreases |ms| - i
  {
    if i < |ms| {
      match ms[i]
      case User(content) =>
        PairedMeetsContract(ms, i + 1, settings);
        HeadKeepsContract(UserParam(content), ParamsFrom(ms, i + 1, settings));
      case ToolResult(_, _, _, _) =>
        var j := RunEnd(ms, i);
        PairedMeetsContract(ms, j, settings);
        HeadKeepsContract([UserBlocks(ResultBlocks(ms[i..j]))], ParamsFrom(ms, j, settings));
      case Assistant(content, _, _, _, _) =>
        var rest := ParamsFrom(ms, i + 1, settings);
        PairedMeetsContract(ms, i + 1, settings);
        forall id | UsesTool(AssistantBlocks(AssistantBlockList(content, settings)), id)
          ensures rest != [] && HasResult(rest[0], id)
        {
          AssistantIsAnswered(ms, i, settings, id);
        }
        HeadKeepsContract(AssistantParam(content, settings), rest);
    }
  }

  function Request(messages: seq<Message>, model: Model, settings: Settings): seq<Param> {
    ParamsFrom(Transformed(messages, model, NORMALIZE), 0, settings)
  }
}
