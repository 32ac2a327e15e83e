/** Message normalisation for a target model: image downgrade, cross-model blocks and call ids, then
    pairing of tool calls with results. */
module Transform {
  import opened Common
  import opened Messages

  /** A call-id normaliser; it also sees the message that makes the call. */
  type Normalizer = (string, Message) -> string

  const USER_IMAGE := "(image omitted: model does not support images)"
  const TOOL_IMAGE := "(tool image omitted: model does not support images)"

  // ---- images ----

  predicate StandsForImage(item: Item, placeholder: string) { item.ImageItem? || item.text == placeholder }

  /** Content without images: an image leaves a placeholder unless an image or a placeholder text is
      right before it. */
  function Replaced(content: seq<Item>, placeholder: string): seq<Item> {
    if content == [] then []
    else
      var n := |content| - 1;
      var front := Replaced(content[..n], placeholder);
      if content[n].TextItem? then front + [content[n]]
      else if n > 0 && StandsForImage(content[n - 1], placeholder) then front
      else front + [TextItem(placeholder, None)]
  }

  method ReplaceImages(content: seq<Item>, placeholder: string) returns (result: seq<Item>)
    ensures result == Replaced(content, placeholder)
  {
    result := [];
    var previousWasPlaceholder := false;
    for i := 0 to |content|
      invariant result == Replaced(content[..i], placeholder)
      invariant previousWasPlaceholder == (i > 0 && StandsForImage(content[i - 1], placeholder))
    {
      var block := content[i];
      assert content[..i + 1][..i] == content[..i];
      if block.ImageItem? {
        if !previousWasPlaceholder {
          result := result + [TextItem(placeholder, None)];
        }
        previousWasPlaceholder := true;
      } else {
        result := result + [block];
        previousWasPlaceholder := block.text == placeholder;
      }
    }
    assert content[..|content|] == content;
  }

  predicate NoImages(content: seq<Item>) { forall k :: 0 <= k < |content| ==> content[k].TextItem? }

  function OtherTexts(content: seq<Item>, placeholder: string): seq<Item> {
    if content == [] then []
    else
      var n := |content| - 1;
      var front := OtherTexts(content[..n], placeholder);
      if StandsForImage(content[n], placeholder) then front else front + [content[n]]
  }

  lemma OtherTextsAppend(content: seq<Item>, item: Item, placeholder: string)
    ensures OtherTexts(content + [item], placeholder)
         == if StandsForImage(item, placeholder) then OtherTexts(content, placeholder)
            else OtherTexts(content, placeholder) + [item]
  {
    assert (content + [item])[..|content|] == content;
  }

  /** Downgrading leaves no image and keeps every text in order. */
  lemma {:induction false} ReplacedKeepsTexts(content: seq<Item>, placeholder: string)
    ensures NoImages(Replaced(content, placeholder))
    ensures OtherTexts(Replaced(content, placeholder), placeholder) == OtherTexts(content, placeholder)
  {
    if content != [] {
      var n := |content| - 1;
      ReplacedKeepsTexts(content[..n], placeholder);
      var front := Replaced(content[..n], placeholder);
      if content[n].TextItem? {
        OtherTextsAppend(front, content[n], placeholder);
      } else if !(n > 0 && StandsForImage(content[n - 1], placeholder)) {
        OtherTextsAppend(front, TextItem(placeholder, None), placeholder);
      }
    }
  }

  /** Text-only content is left alone. */
  lemma {:induction false} TextsStay(content: seq<Item>, placeholder: string)
    requires NoImages(content)
    ensures Replaced(content, placeholder) == content
  {
    if content != [] {
      var n := |content| - 1;
      TextsStay(content[..n], placeholder);
      assert content[..n] + [content[n]] == content;
    }
  }

  function Downgraded(m: Message, model: Model): Message {
    if model.vision then m
    else if m.User? && m.userContent.Items? then User(Items(Replaced(m.userContent.items, USER_IMAGE)))
    else if m.ToolResult? then m.(resultContent := Replaced(m.resultContent, TOOL_IMAGE))
    else m
  }

  method DowngradeUnsupportedImages(messages: seq<Message>, model: Model) returns (r: seq<Message>)
    ensures |r| == |messages| && forall k :: 0 <= k < |r| ==> r[k] == Downgraded(messages[k], model)
  {
    if model.vision {
      return messages;
    }
    r := [];
    for i := 0 to |messages|
      invariant |r| == i && forall k :: 0 <= k < i ==> r[k] == Downgraded(messages[k], model)
    {
      var msg := messages[i];
      if msg.User? && msg.userContent.Items? {
        var content := ReplaceImages(msg.userContent.items, USER_IMAGE);
        msg := User(Items(content));
      } else if msg.ToolResult? {
        var content := ReplaceImages(msg.resultContent, TOOL_IMAGE);
        msg := msg.(resultContent := content);
      }
      r := r + [msg];
    }
  }

  // ---- first pass: blocks and call ids ----

  predicate SameModel(m: Message, model: Model)
    requires m.Assistant?
  {
    m.provider == model.provider && m.api == model.api && m.model == model.id
  }

  /** What becomes of a block of assistant message `m`; nothing or one block. */
  function BlockFor(b: Block, m: Message, same: bool, normalize: Normalizer): seq<Block> {
    match b
    case Thinking(thinking, signature, redacted) =>
      if redacted then (if same then [b] else [])
      else if same && Truthy(signature) then [b]
      else if Blank(thinking) then []
      else if same then [b] else [TextBlock(thinking, None)]
    case TextBlock(text, _) => if same then [b] else [TextBlock(text, None)]
    case ToolCall(id, name, arguments, signature) =>
      [ToolCall(NewId(id, m, same, normalize), name, arguments, if !same && Truthy(signature) then None else signature)]
  }

  function NewId(id: string, m: Message, same: bool, normalize: Normalizer): string {
    if same then id else normalize(id, m)
  }

  function BlocksFor(blocks: seq<Block>, m: Message, same: bool, normalize: Normalizer): seq<Block> {
    if blocks == [] then []
    else
      var n := |blocks| - 1;
      BlocksFor(blocks[..n], m, same, normalize) + BlockFor(blocks[n], m, same, normalize)
  }

  /** The id table after some blocks: the original ids of renamed calls. */
  function IdsAfterBlocks(ids: map<string, string>, blocks: seq<Block>, m: Message, same: bool,
                          normalize: Normalizer): map<string, string>
  {
    if blocks == [] then ids
    else
      var n, b := |blocks| - 1, blocks[|blocks| - 1];
      var before := IdsAfterBlocks(ids, blocks[..n], m, same, normalize);
      if b.ToolCall? && NewId(b.id, m, same, normalize) != b.id then before[b.id := NewId(b.id, m, same, normalize)]
      else before
  }

  function IdsAfter(messages: seq<Message>, model: Model, normalize: Normalizer): map<string, string> {
    if messages == [] then map[]
    else
      var n, m := |messages| - 1, messages[|messages| - 1];
      var before := IdsAfter(messages[..n], model, normalize);
      if m.Assistant? then IdsAfterBlocks(before, m.content, m, SameModel(m, model), normalize) else before
  }

  function Lookup(id: string, ids: map<string, string>): string {
    if id in ids && ids[id] != "" then ids[id] else id
  }

  function MessageFor(m: Message, ids: map<string, string>, model: Model, normalize: Normalizer): Message {
    match m
    case User(_) => m
    case ToolResult(id, _, _, _) => m.(toolCallId := Lookup(id, ids))
    case Assistant(content, _, _, _, _) => m.(content := BlocksFor(content, m, SameModel(m, model), normalize))
  }

  /** The first pass, on messages whose images were already dealt with. */
  function FirstPass(messages: seq<Message>, model: Model, normalize: Normalizer): (r: seq<Message>)
    ensures |r| == |messages|
  {
    if messages == [] then []
    else
      var n := |messages| - 1;
      FirstPass(messages[..n], model, normalize)
      + [MessageFor(messages[n], IdsAfter(messages[..n], model, normalize), model, normalize)]
  }

  method TransformBlocks(m: Message, model: Model, normalize: Normalizer, toolCallIdMap: map<string, string>)
    returns (content: seq<Block>, ids: map<string, string>)
    requires m.Assistant?
    ensures content == BlocksFor(m.content, m, SameModel(m, model), normalize)
    ensures ids == IdsAfterBlocks(toolCallIdMap, m.content, m, SameModel(m, model), normalize)
  {
    var isSameModel := SameModel(m, model);
    content, ids := [], toolCallIdMap;
    for i := 0 to |m.content|
      invariant content == BlocksFor(m.content[..i], m, isSameModel, normalize)
      invariant ids == IdsAfterBlocks(toolCallIdMap, m.content[..i], m, isSameModel, normalize)
    {
      var block := m.content[i];
      assert m.content[..i + 1][..i] == m.content[..i];
      match block
      case Thinking(thinking, signature, redacted) =>
        if redacted {
          if isSameModel { content := content + [block]; }
        } else if isSameModel && Truthy(signature) {
          content := content + [block];
        } else if !Blank(thinking) {
          content := content + [if isSameModel then block else TextBlock(thinking, None)];
        }
      case TextBlock(text, _) =>
        content := content + [if isSameModel then block else TextBlock(text, None)];
      case ToolCall(id, _, _, thoughtSignature) =>
        var normalizedToolCall := block;
        if !isSameModel && Truthy(thoughtSignature) {
          normalizedToolCall := normalizedToolCall.(thoughtSignature := None);
        }
        if !isSameModel {
          var normalizedId := normalize(id, m);
          if normalizedId != id {
            ids := ids[id := normalizedId];
            normalizedToolCall := normalizedToolCall.(id := normalizedId);
          }
        }
        content := content + [normalizedToolCall];
    }
    assert m.content[..|m.content|] == m.content;
  }

  method TransformEach(messages: seq<Message>, model: Model, normalize: Normalizer) returns (transformed: seq<Message>)
    ensures transformed == FirstPass(messages, model, normalize)
  {
    var toolCallIdMap: map<string, string> := map[];
    transformed := [];
    for i := 0 to |messages|
      invariant transformed == FirstPass(messages[..i], model, normalize)
      invariant toolCallIdMap == IdsAfter(messages[..i], model, normalize)
    {
      var msg := messages[i];
      assert messages[..i + 1][..i] == messages[..i];
      match msg
      case User(_) => transformed := transformed + [msg];
      case ToolResult(toolCallId, _, _, _) =>
        var renamed := msg;
        if toolCallId in toolCallIdMap && toolCallIdMap[toolCallId] != "" && toolCallIdMap[toolCallId] != toolCallId {
          renamed := msg.(toolCallId := toolCallIdMap[toolCallId]);
        }
        transformed := transformed + [renamed];
      case Assistant(_, _, _, _, _) =>
        var content, ids := TransformBlocks(msg, model, normalize, toolCallIdMap);
        toolCallIdMap := ids;
        transformed := transformed + [msg.(content := content)];
    }
    assert messages[..|messages|] == messages;
  }

  // ---- second pass: pairing calls with results ----

  const NO_RESULT := [TextItem("No result provided", None)]

  function Synthetic(call: Block): Message
    requires call.ToolCall?
  {
    ToolResult(call.id, call.name, NO_RESULT, true)
  }

  /** Results for the calls that have none, in call order. */
  function Missing(calls: seq<Block>, answered: set<string>): seq<Message>
    requires forall c <- calls :: c.ToolCall?
  {
    if calls == [] then []
    else
      var n := |calls| - 1;
      var front := Missing(calls[..n], answered);
      if calls[n].id in answered then front else front + [Synthetic(calls[n])]
  }

  predicate Failed(m: Message) { m.Assistant? && m.stop in {Error, Aborted} }

  /** The second pass part way: messages out, calls waiting for results and ids with one. */
  datatype Pairing = Pairing(out: seq<Message>, pending: seq<Block>, answered: set<string>)

  predicate PendingCalls(p: Pairing) { forall c <- p.pending :: c.ToolCall? }

  function Settle(p: Pairing): (r: Pairing)
    requires PendingCalls(p)
    ensures r.pending == []
  {
    if p.pending == [] then p else Pairing(p.out + Missing(p.pending, p.answered), [], {})
  }

  function PairNext(p: Pairing, m: Message): (r: Pairing)
    requires PendingCalls(p)
    ensures PendingCalls(r)
  {
    match m
    case ToolResult(id, _, _, _) => Pairing(p.out + [m], p.pending, p.answered + {id})
    case User(_) => var q := Settle(p); q.(out := q.out + [m])
    case Assistant(_, _, _, _, _) =>
      var q := Settle(p);
      if Failed(m) then q
      else if Calls(m) != [] then Pairing(q.out + [m], Calls(m), {})
      else q.(out := q.out + [m])
  }

  function PairAll(messages: seq<Message>): (r: Pairing)
    ensures PendingCalls(r)
  {
    if messages == [] then Pairing([], [], {})
    else PairNext(PairAll(messages[..|messages| - 1]), messages[|messages| - 1])
  }

  function SecondPass(messages: seq<Message>): seq<Message> { Settle(PairAll(messages)).out }

  method InsertSyntheticToolResults(result: seq<Message>, pendingToolCalls: seq<Block>,
                                    existingToolResultIds: set<string>)
    returns (newResult: seq<Message>, newPending: seq<Block>, newExisting: set<string>)
    requires forall c <- pendingToolCalls :: c.ToolCall?
    ensures Pairing(newResult, newPending, newExisting)
        == Settle(Pairing(result, pendingToolCalls, existingToolResultIds))
  {
    newResult, newPending, newExisting := result, pendingToolCalls, existingToolResultIds;
    if |pendingToolCalls| > 0 {
      for i := 0 to |pendingToolCalls|
        invariant newResult == result + Missing(pendingToolCalls[..i], existingToolResultIds)
      {
        var tc := pendingToolCalls[i];
        assert pendingToolCalls[..i + 1][..i] == pendingToolCalls[..i];
        if tc.id !in existingToolResultIds {
          newResult := newResult + [ToolResult(tc.id, tc.name, NO_RESULT, true)];
        }
      }
      assert pendingToolCalls[..|pendingToolCalls|] == pendingToolCalls;
      newPending := [];
      newExisting := {};
    }
  }

  method PairResults(transformed: seq<Message>) returns (result: seq<Message>)
    ensures result == SecondPass(transformed)
  {
    result := [];
    var pendingToolCalls: seq<Block> := [];
    var existingToolResultIds: set<string> := {};
    for i := 0 to |transformed|
      invariant Pairing(result, pendingToolCalls, existingToolResultIds) == PairAll(transformed[..i])
    {
      var msg := transformed[i];
      assert transformed[..i + 1][..i] == transformed[..i];
      if msg.Assistant? {
        result, pendingToolCalls, existingToolResultIds :=
          InsertSyntheticToolResults(result, pendingToolCalls, existingToolResultIds);
        if msg.stop == Error || msg.stop == Aborted {
          continue;
        }
        var toolCalls := Calls(msg);
        if |toolCalls| > 0 {
          pendingToolCalls := toolCalls;
          existingToolResultIds := {};
        }
        result := result + [msg];
      } else if msg.ToolResult? {
        existingToolResultIds := existingToolResultIds + {msg.toolCallId};
        result := result + [msg];
      } else {
        result, pendingToolCalls, existingToolResultIds :=
          InsertSyntheticToolResults(result, pendingToolCalls, existingToolResultIds);
        result := result + [msg];
      }
    }
    assert transformed[..|transformed|] == transformed;
    result, pendingToolCalls, existingToolResultIds :=
      InsertSyntheticToolResults(result, pendingToolCalls, existingToolResultIds);
  }

  // ---- the whole transformation ----

  function DowngradedAll(messages: seq<Message>, model: Model): (r: seq<Message>)
    ensures |r| == |messages| && forall k :: 0 <= k < |r| ==> r[k] == Downgraded(messages[k], model)
  {
    seq(|messages|, k requires 0 <= k < |messages| => Downgraded(messages[k], model))
  }

  function Transformed(messages: seq<Message>, model: Model, normalize: Normalizer): seq<Message> {
    SecondPass(FirstPass(DowngradedAll(messages, model), model, normalize))
  }

  method TransformMessages(messages: seq<Message>, model: Model, normalize: Normalizer) returns (result: seq<Message>)
    ensures result == Transformed(messages, model, normalize)
  {
    var imageAwareMessages := DowngradeUnsupportedImages(messages, model);
    assert imageAwareMessages == DowngradedAll(messages, model);
    var transformed := TransformEach(imageAwareMessages, model, normalize);
    result := PairResults(transformed);
  }
}
