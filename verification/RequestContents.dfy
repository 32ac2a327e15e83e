/** What an Anthropic request says, against what the history it was made from means. */
module RequestContents {
  import opened Common
  import opened Messages
  import opened Transform
  import opened TransformTheorems
  import opened TransformWords
  import opened AnthropicRequest

  /** One thing that is said, shown, thought, called or answered. */
  datatype Utterance =
    | Says(speaker: Speaker, text: string)
    | Shows(data: string, mimeType: string)
    | Thinks(thought: string, signature: string)
    | Hides(payload: Option<string>)
    | Uses(id: string, name: string, input: string)
    | Answers(callId: string, content: Content, isError: bool)

  // ---- requests ----

  function HeardBlock(speaker: Speaker, b: ParamBlock): Utterance {
    match b
    case PText(text) => Says(speaker, text)
    case PImage(data, mimeType) => Shows(data, mimeType)
    case PThinking(thinking, signature) => Thinks(thinking, signature)
    case PRedacted(payload) => Hides(payload)
    case PToolUse(id, name, input) => Uses(id, name, input)
    case PToolResult(id, content, isError) => Answers(id, content, isError)
  }

  function HeardBlocks(speaker: Speaker, blocks: seq<ParamBlock>): seq<Utterance> {
    if blocks == [] then []
    else HeardBlocks(speaker, blocks[..|blocks| - 1]) + [HeardBlock(speaker, blocks[|blocks| - 1])]
  }

  function HeardParam(p: Param): seq<Utterance> {
    match p
    case UserText(text) => [Says(TheUser, text)]
    case UserBlocks(blocks) => HeardBlocks(TheUser, blocks)
    case AssistantBlocks(blocks) => HeardBlocks(TheAssistant, blocks)
  }

  /** What the provider hears of a request, in order. */
  function Heard(params: seq<Param>): seq<Utterance> {
    if params == [] then [] else HeardParam(params[0]) + Heard(params[1..])
  }

  // ---- histories ----

  function MeantItems(items: seq<Item>): seq<Utterance> {
    if items == [] then []
    else
      var front, last := MeantItems(items[..|items| - 1]), items[|items| - 1];
      front + [if last.TextItem? then Says(TheUser, last.text) else Shows(last.data, last.mimeType)]
  }

  /** A thought without a signature is said aloud, unless empty signatures are accepted. */
  function MeantBlock(b: Block, settings: Settings): Utterance {
    match b
    case TextBlock(text, _) => Says(TheAssistant, text)
    case Thinking(thought, signature, redacted) =>
      if redacted then Hides(signature)
      else if signature.Some? && !Blank(signature.value) then Thinks(thought, signature.value)
      else if settings.allowEmptySignature then Thinks(thought, "")
      else Says(TheAssistant, thought)
    case ToolCall(id, name, arguments, _) => Uses(id, settings.toolName(name), arguments)
  }

  function MeantBlocks(blocks: seq<Block>, settings: Settings): seq<Utterance> {
    if blocks == [] then []
    else MeantBlocks(blocks[..|blocks| - 1], settings) + [MeantBlock(blocks[|blocks| - 1], settings)]
  }

  /** What a message means, element by element. */
  function MeantMessage(m: Message, settings: Settings): seq<Utterance> {
    match m
    case User(Plain(text)) => [Says(TheUser, text)]
    case User(Items(items)) => MeantItems(items)
    case Assistant(content, _, _, _, _) => MeantBlocks(content, settings)
    case ToolResult(id, _, content, isError) => [Answers(id, ResultContent(content), isError)]
  }

  function Meant(ms: seq<Message>, settings: Settings): seq<Utterance> {
    if ms == [] then [] else MeantMessage(ms[0], settings) + Meant(ms[1..], settings)
  }

  /** A blank text or thought. */
  predicate Vacant(u: Utterance) { (u.Says? && Blank(u.text)) || (u.Thinks? && Blank(u.thought)) }

  /** All but the vacant ones. */
  function Audible(us: seq<Utterance>): seq<Utterance> {
    if us == [] then []
    else
      var front, last := Audible(us[..|us| - 1]), us[|us| - 1];
      if Vacant(last) then front else front + [last]
  }

  lemma {:induction false} AudibleConcat(a: seq<Utterance>, b: seq<Utterance>)
    ensures Audible(a + b) == Audible(a) + Audible(b)
    decreases |b|
  {
    if b == [] {
      assert a + b == a;
    } else {
      assert (a + b)[..|a + b| - 1] == a + b[..|b| - 1];
      AudibleConcat(a, b[..|b| - 1]);
    }
  }

  lemma AudibleAppend(us: seq<Utterance>, u: Utterance)
    ensures Audible(us + [u]) == if Vacant(u) then Audible(us) else Audible(us) + [u]
  {
    assert (us + [u])[..|us|] == us;
  }

  lemma HeardAppend(speaker: Speaker, blocks: seq<ParamBlock>, b: ParamBlock)
    ensures HeardBlocks(speaker, blocks + [b]) == HeardBlocks(speaker, blocks) + [HeardBlock(speaker, b)]
  {
    assert (blocks + [b])[..|blocks|] == blocks;
  }

  lemma {:induction false} HeardConcat(a: seq<Param>, b: seq<Param>)
    ensures Heard(a + b) == Heard(a) + Heard(b)
  {
    if a == [] {
      assert a + b == b;
    } else {
      assert (a + b)[1..] == a[1..] + b && (a + b)[0] == a[0];
      HeardConcat(a[1..], b);
      Associate(HeardParam(a[0]), Heard(a[1..]), Heard(b));
    }
  }

  lemma HeardOne(p: Param)
    ensures Heard([p]) == HeardParam(p)
  {
    assert [p][1..] == [] && HeardParam(p) + [] == HeardParam(p);
  }

  // ---- message by message ----

  lemma {:induction false} ItemsAreHeard(items: seq<Item>)
    ensures HeardBlocks(TheUser, UserBlockList(items)) == Audible(MeantItems(items))
  {
    if items != [] {
      var n := |items| - 1;
      ItemsAreHeard(items[..n]);
      HeardAppend(TheUser, UserBlockList(items[..n]), UserBlock(items[n]));
      AudibleAppend(MeantItems(items[..n]), HeardBlock(TheUser, UserBlock(items[n])));
    }
  }

  lemma UserIsHeard(content: UserContent, settings: Settings)
    ensures Heard(UserParam(content)) == Audible(MeantMessage(User(content), settings))
  {
    match content
    case Plain(text) =>
      AudibleAppend([], Says(TheUser, text));
      assert [] + [Says(TheUser, text)] == [Says(TheUser, text)];
      HeardOne(UserText(text));
    case Items(items) =>
      ItemsAreHeard(items);
      HeardOne(UserBlocks(UserBlockList(items)));
  }

  lemma {:induction false} BlocksAreHeard(blocks: seq<Block>, settings: Settings)
    ensures HeardBlocks(TheAssistant, AssistantBlockList(blocks, settings)) == Audible(MeantBlocks(blocks, settings))
    decreases |blocks|
  {
    if blocks != [] {
      var n := |blocks| - 1;
      BlocksAreHeard(blocks[..n], settings);
      BlockIsHeard(AssistantBlockList(blocks[..n], settings), blocks[n], settings);
      AudibleAppend(MeantBlocks(blocks[..n], settings), MeantBlock(blocks[n], settings));
    }
  }

  lemma BlockIsHeard(front: seq<ParamBlock>, b: Block, settings: Settings)
    ensures var said := HeardBlocks(TheAssistant, front);
            HeardBlocks(TheAssistant, front + AssistantBlock(b, settings))
            == if Vacant(MeantBlock(b, settings)) then said else said + [MeantBlock(b, settings)]
  {
    var next := AssistantBlock(b, settings);
    if next == [] {
      assert front + next == front;
    } else {
      assert next == [next[0]];
      HeardAppend(TheAssistant, front, next[0]);
    }
  }

  lemma AssistantIsHeard(content: seq<Block>, settings: Settings)
    ensures Heard(AssistantParam(content, settings)) == Audible(MeantBlocks(content, settings))
  {
    BlocksAreHeard(content, settings);
    HeardOne(AssistantBlocks(AssistantBlockList(content, settings)));
  }

  lemma {:induction false} MeantConcat(a: seq<Message>, b: seq<Message>, settings: Settings)
    ensures Meant(a + b, settings) == Meant(a, settings) + Meant(b, settings)
  {
    if a == [] {
      assert a + b == b;
    } else {
      assert (a + b)[1..] == a[1..] + b && (a + b)[0] == a[0];
      MeantConcat(a[1..], b, settings);
      Associate(MeantMessage(a[0], settings), Meant(a[1..], settings), Meant(b, settings));
    }
  }

  lemma MeantAppend(ms: seq<Message>, m: Message, settings: Settings)
    ensures Meant(ms + [m], settings) == Meant(ms, settings) + MeantMessage(m, settings)
  {
    MeantConcat(ms, [m], settings);
    assert [m][1..] == [] && MeantMessage(m, settings) + [] == MeantMessage(m, settings);
  }

  /** A run of results is answered one by one. */
  lemma {:induction false} ResultsAreHeard(ms: seq<Message>, settings: Settings)
    requires forall k :: 0 <= k < |ms| ==> ms[k].ToolResult?
    ensures HeardBlocks(TheUser, ResultBlocks(ms)) == Audible(Meant(ms, settings))
    decreases |ms|
  {
    if ms != [] {
      var front, last := ms[..|ms| - 1], ms[|ms| - 1];
      ResultsAreHeard(front, settings);
      ResultIsHeard(front, last, settings);
      assert front + [last] == ms;
    }
  }

  lemma ResultIsHeard(front: seq<Message>, last: Message, settings: Settings)
    requires last.ToolResult? && forall k :: 0 <= k < |front| ==> front[k].ToolResult?
    requires HeardBlocks(TheUser, ResultBlocks(front)) == Audible(Meant(front, settings))
    ensures HeardBlocks(TheUser, ResultBlocks(front + [last])) == Audible(Meant(front + [last], settings))
  {
    ResultBlocksAppend(front, last);
    MeantAppend(front, last, settings);
    OneMoreHeard(ResultBlocks(front), ResultBlock(last), Meant(front, settings));
  }

  lemma OneMoreHeard(blocks: seq<ParamBlock>, b: ParamBlock, meant: seq<Utterance>)
    requires HeardBlocks(TheUser, blocks) == Audible(meant) && !Vacant(HeardBlock(TheUser, b))
    ensures HeardBlocks(TheUser, blocks + [b]) == Audible(meant + [HeardBlock(TheUser, b)])
  {
    HeardAppend(TheUser, blocks, b);
    AudibleAppend(meant, HeardBlock(TheUser, b));
  }

  lemma ResultBlocksAppend(front: seq<Message>, last: Message)
    requires last.ToolResult? && forall k :: 0 <= k < |front| ==> front[k].ToolResult?
    ensures ResultBlocks(front + [last]) == ResultBlocks(front) + [ResultBlock(last)]
  {
  }

  /** What is heard of two parts of a request is heard of the whole. */
  lemma HeardBoth(front: seq<Param>, a: seq<Message>, back: seq<Param>, b: seq<Message>, settings: Settings)
    requires Heard(front) == Audible(Meant(a, settings)) && Heard(back) == Audible(Meant(b, settings))
    ensures Heard(front + back) == Audible(Meant(a + b, settings))
  {
    HeardConcat(front, back);
    MeantConcat(a, b, settings);
    AudibleConcat(Meant(a, settings), Meant(b, settings));
  }

  lemma Behind(ms: seq<Message>, i: nat, j: nat)
    requires i <= j <= |ms|
    ensures ms[i..] == ms[i..j] + ms[j..]
  {
  }

  lemma MeantOne(ms: seq<Message>, i: nat, settings: Settings)
    requires i < |ms|
    ensures Meant(ms[i..i + 1], settings) == MeantMessage(ms[i], settings)
  {
    assert ms[i..i + 1] == [ms[i]] && [ms[i]][1..] == [];
    assert MeantMessage(ms[i], settings) + [] == MeantMessage(ms[i], settings);
  }

  /** What the provider hears of a request is what its history means, in order and under the same role, without blank
      texts and thoughts. */
  lemma {:induction false} RequestIsHeard(ms: seq<Message>, i: nat, settings: Settings)
    requires i <= |ms|
    ensures Heard(ParamsFrom(ms, i, settings)) == Audible(Meant(ms[i..], settings))
    decreases |ms| - i
  {
    if i < |ms| {
      MeantOne(ms, i, settings);
      match ms[i]
      case User(content) =>
        RequestIsHeard(ms, i + 1, settings);
        UserIsHeard(content, settings);
        Behind(ms, i, i + 1);
        HeardBoth(UserParam(content), ms[i..i + 1], ParamsFrom(ms, i + 1, settings), ms[i + 1..], settings);
      case Assistant(content, _, _, _, _) =>
        RequestIsHeard(ms, i + 1, settings);
        AssistantIsHeard(content, settings);
        Behind(ms, i, i + 1);
        HeardBoth(AssistantParam(content, settings), ms[i..i + 1], ParamsFrom(ms, i + 1, settings), ms[i + 1..],
                  settings);
      case ToolResult(_, _, _, _) =>
        var j := RunEnd(ms, i);
        RequestIsHeard(ms, j, settings);
        ResultsAreHeard(ms[i..j], settings);
        HeardOne(UserBlocks(ResultBlocks(ms[i..j])));
        Behind(ms, i, j);
        HeardBoth([UserBlocks(ResultBlocks(ms[i..j]))], ms[i..j], ParamsFrom(ms, j, settings), ms[j..], settings);
    }
  }

  // ---- words ----

  /** What is said or thought in some utterances. */
  function WordsHeard(us: seq<Utterance>): seq<Saying> {
    if us == [] then []
    else
      var front, last := WordsHeard(us[..|us| - 1]), us[|us| - 1];
      if Vacant(last) then front
      else if last.Says? then front + [Saying(last.speaker, last.text)]
      else if last.Thinks? then front + [Saying(TheAssistant, last.thought)]
      else front
  }

  lemma {:induction false} WordsAreAudible(us: seq<Utterance>)
    ensures WordsHeard(Audible(us)) == WordsHeard(us)
  {
    if us != [] {
      var front, last := us[..|us| - 1], us[|us| - 1];
      WordsAreAudible(front);
      if !Vacant(last) {
        assert (Audible(front) + [last])[..|Audible(front)|] == Audible(front);
      }
    }
  }

  lemma {:induction false} WordsHeardConcat(a: seq<Utterance>, b: seq<Utterance>)
    ensures WordsHeard(a + b) == WordsHeard(a) + WordsHeard(b)
    decreases |b|
  {
    if b == [] {
      assert a + b == a;
    } else {
      assert (a + b)[..|a + b| - 1] == a + b[..|b| - 1];
      WordsHeardConcat(a, b[..|b| - 1]);
    }
  }

  lemma OneWordHeard(u: Utterance)
    ensures WordsHeard([u]) == if Vacant(u) then [] else if u.Says? then [Saying(u.speaker, u.text)]
                               else if u.Thinks? then [Saying(TheAssistant, u.thought)] else []
  {
    assert [u][..0] == [];
  }

  lemma {:induction false} ItemWordsConcat(a: seq<Item>, b: seq<Item>)
    ensures ItemWords(a + b) == ItemWords(a) + ItemWords(b)
  {
    if a == [] {
      assert a + b == b;
    } else {
      assert (a + b)[1..] == a[1..] + b && (a + b)[0] == a[0];
      ItemWordsConcat(a[1..], b);
      if a[0].TextItem? { Associate(Said(TheUser, a[0].text), ItemWords(a[1..]), ItemWords(b)); }
    }
  }

  lemma {:induction false} ItemWordsMeant(items: seq<Item>)
    ensures WordsHeard(MeantItems(items)) == ItemWords(items)
  {
    if items != [] {
      var front, last := items[..|items| - 1], items[|items| - 1];
      ItemWordsMeant(front);
      OneMoreItemMeant(front, last);
      assert front + [last] == items;
    }
  }

  lemma OneMoreItemMeant(front: seq<Item>, last: Item)
    requires WordsHeard(MeantItems(front)) == ItemWords(front)
    ensures WordsHeard(MeantItems(front + [last])) == ItemWords(front + [last])
  {
    ItemWordsConcat(front, [last]);
    assert [last][1..] == [] && (front + [last])[..|front|] == front;
    var u := if last.TextItem? then Says(TheUser, last.text) else Shows(last.data, last.mimeType);
    WordsHeardConcat(MeantItems(front), [u]);
    OneWordHeard(u);
  }

  lemma {:induction false} BlockWordsMeant(blocks: seq<Block>, settings: Settings)
    ensures WordsHeard(MeantBlocks(blocks, settings)) == BlockWords(blocks)
    decreases |blocks|
  {
    if blocks != [] {
      var n := |blocks| - 1;
      BlockWordsMeant(blocks[..n], settings);
      BlockWordsConcat(blocks[..n], [blocks[n]]);
      assert blocks[..n] + [blocks[n]] == blocks;
      OneBlockWords(blocks[n]);
      WordsHeardConcat(MeantBlocks(blocks[..n], settings), [MeantBlock(blocks[n], settings)]);
      OneWordHeard(MeantBlock(blocks[n], settings));
    }
  }

  lemma MessageWordsMeant(m: Message, settings: Settings)
    ensures WordsHeard(MeantMessage(m, settings)) == MessageWords(m)
  {
    match m
    case User(Plain(text)) => OneWordHeard(Says(TheUser, text));
    case User(Items(items)) => ItemWordsMeant(items);
    case Assistant(content, _, _, _, _) => BlockWordsMeant(content, settings);
    case ToolResult(id, _, content, isError) => OneWordHeard(Answers(id, ResultContent(content), isError));
  }

  lemma {:induction false} WordsMeant(ms: seq<Message>, settings: Settings)
    ensures WordsHeard(Meant(ms, settings)) == Words(ms)
  {
    if ms != [] {
      var n := |ms| - 1;
      WordsMeant(ms[..n], settings);
      MeantAppend(ms[..n], ms[n], settings);
      assert ms[..n] + [ms[n]] == ms;
      WordsHeardConcat(Meant(ms[..n], settings), MeantMessage(ms[n], settings));
      MessageWordsMeant(ms[n], settings);
    }
  }

  /** From the history to the request: every word that is not blank, of users and of turns that did not fail, reaches
      the provider in order and under its role, and no others do but the placeholders of images. */
  lemma RequestKeepsWords(messages: seq<Message>, model: Model, settings: Settings)
    ensures Heard(Request(messages, model, settings))
         == Audible(Meant(Transformed(messages, model, NORMALIZE), settings))
    ensures WordsHeard(Heard(Request(messages, model, settings)))
         == Words(WithoutFailed(DowngradedAll(messages, model)))
  {
    var ms := Transformed(messages, model, NORMALIZE);
    RequestIsHeard(ms, 0, settings);
    assert ms[0..] == ms;
    WordsAreAudible(Meant(ms, settings));
    WordsMeant(ms, settings);
    NormalisationKeepsWords(messages, model, NORMALIZE);
  }
}
