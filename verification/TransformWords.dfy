/** What message normalisation keeps of what was said: every word of users and of turns that did not
    fail, and for the model that wrote it every block as it was. */
module TransformWords {
  import opened Common
  import opened Messages
  import opened Transform
  import opened TransformTheorems

  datatype Speaker = TheUser | TheAssistant

  /** Something said or thought, by whom. */
  datatype Saying = Saying(speaker: Speaker, text: string)

  function Said(speaker: Speaker, text: string): seq<Saying> { if Blank(text) then [] else [Saying(speaker, text)] }

  function ItemWords(items: seq<Item>): seq<Saying> {
    if items == [] then []
    else if items[0].TextItem? then Said(TheUser, items[0].text) + ItemWords(items[1..])
    else ItemWords(items[1..])
  }

  /** Texts and thoughts of an assistant; redacted thinking has none. */
  function BlockWords(blocks: seq<Block>): seq<Saying> {
    if blocks == [] then []
    else
      var rest := BlockWords(blocks[1..]);
      match blocks[0]
      case TextBlock(text, _) => Said(TheAssistant, text) + rest
      case Thinking(thinking, _, redacted) => if redacted then rest else Said(TheAssistant, thinking) + rest
      case ToolCall(_, _, _, _) => rest
  }

  /** What a message says that is not blank; tool results say nothing themselves. */
  function MessageWords(m: Message): seq<Saying> {
    match m
    case User(Plain(text)) => Said(TheUser, text)
    case User(Items(items)) => ItemWords(items)
    case Assistant(content, _, _, _, _) => BlockWords(content)
    case ToolResult(_, _, _, _) => []
  }

  function Words(ms: seq<Message>): seq<Saying> {
    if ms == [] then [] else Words(ms[..|ms| - 1]) + MessageWords(ms[|ms| - 1])
  }

  lemma {:induction false} BlockWordsConcat(a: seq<Block>, b: seq<Block>)
    ensures BlockWords(a + b) == BlockWords(a) + BlockWords(b)
  {
    if a == [] {
      assert a + b == b;
    } else {
      assert (a + b)[1..] == a[1..] + b && (a + b)[0] == a[0];
      BlockWordsConcat(a[1..], b);
      var first := if a[0].TextBlock? then Said(TheAssistant, a[0].text)
                   else if a[0].Thinking? && !a[0].redacted then Said(TheAssistant, a[0].thinking) else [];
      Associate(first, BlockWords(a[1..]), BlockWords(b));
      assert [] + BlockWords(a[1..]) == BlockWords(a[1..]);
      assert [] + BlockWords(a[1..] + b) == BlockWords(a[1..] + b);
    }
  }

  lemma OneBlockWords(b: Block)
    ensures BlockWords([b]) == if b.TextBlock? then Said(TheAssistant, b.text)
                               else if b.Thinking? && !b.redacted then Said(TheAssistant, b.thinking) else []
  {
    assert [b][1..] == [];
  }

  lemma BlockForKeepsWords(b: Block, m: Message, same: bool, normalize: Normalizer)
    ensures BlockWords(BlockFor(b, m, same, normalize)) == BlockWords([b])
  {
    OneBlockWords(b);
    var blocks := BlockFor(b, m, same, normalize);
    if blocks != [] {
      assert blocks == [blocks[0]];
      OneBlockWords(blocks[0]);
    }
  }

  lemma {:induction false} BlocksKeepWords(blocks: seq<Block>, m: Message, same: bool, normalize: Normalizer)
    ensures BlockWords(BlocksFor(blocks, m, same, normalize)) == BlockWords(blocks)
    decreases |blocks|
  {
    if blocks != [] {
      var n := |blocks| - 1;
      BlocksKeepWords(blocks[..n], m, same, normalize);
      BlockForKeepsWords(blocks[n], m, same, normalize);
      BlockWordsConcat(BlocksFor(blocks[..n], m, same, normalize), BlockFor(blocks[n], m, same, normalize));
      BlockWordsConcat(blocks[..n], [blocks[n]]);
      assert blocks[..n] + [blocks[n]] == blocks;
    }
  }

  /** A thought that says nothing and has no signature is dropped even for its own model. */
  predicate Vacuous(b: Block) { b.Thinking? && !b.redacted && Blank(b.thinking) && !Truthy(b.signature) }

  function WithoutVacuous(blocks: seq<Block>): seq<Block> {
    if blocks == [] then []
    else (if Vacuous(blocks[0]) then [] else [blocks[0]]) + WithoutVacuous(blocks[1..])
  }

  lemma {:induction false} VacuousConcat(a: seq<Block>, b: seq<Block>)
    ensures WithoutVacuous(a + b) == WithoutVacuous(a) + WithoutVacuous(b)
  {
    if a == [] {
      assert a + b == b;
    } else {
      assert (a + b)[1..] == a[1..] + b && (a + b)[0] == a[0];
      VacuousConcat(a[1..], b);
      Associate(if Vacuous(a[0]) then [] else [a[0]], WithoutVacuous(a[1..]), WithoutVacuous(b));
    }
  }

  /** The model that wrote a message gets its blocks back: texts, signed and redacted thoughts and calls, unchanged
      and in order. */
  lemma {:induction false} OwnBlocksStay(blocks: seq<Block>, m: Message, normalize: Normalizer)
    ensures BlocksFor(blocks, m, true, normalize) == WithoutVacuous(blocks)
    decreases |blocks|
  {
    if blocks != [] {
      var n := |blocks| - 1;
      OwnBlocksStay(blocks[..n], m, normalize);
      VacuousConcat(blocks[..n], [blocks[n]]);
      assert blocks[..n] + [blocks[n]] == blocks;
      assert [blocks[n]][1..] == [];
      assert BlockFor(blocks[n], m, true, normalize) == WithoutVacuous([blocks[n]]);
    }
  }

  /** Another model gets nothing that only the writer can read: no thoughts, no signatures. */
  lemma {:induction false} NothingPrivateCrosses(blocks: seq<Block>, m: Message, normalize: Normalizer)
    ensures forall b <- BlocksFor(blocks, m, false, normalize) ::
              && !b.Thinking? && (b.TextBlock? ==> b.signature.None?)
              && (b.ToolCall? ==> !Truthy(b.thoughtSignature))
    decreases |blocks|
  {
    if blocks != [] {
      NothingPrivateCrosses(blocks[..|blocks| - 1], m, normalize);
    }
  }

  /** The calls of a message, but for their ids and signatures. */
  function CallTexts(blocks: seq<Block>): seq<(string, string)> {
    if blocks == [] then []
    else if blocks[0].ToolCall? then [(blocks[0].name, blocks[0].arguments)] + CallTexts(blocks[1..])
    else CallTexts(blocks[1..])
  }

  lemma {:induction false} CallTextsConcat(a: seq<Block>, b: seq<Block>)
    ensures CallTexts(a + b) == CallTexts(a) + CallTexts(b)
  {
    if a == [] {
      assert a + b == b;
    } else {
      assert (a + b)[1..] == a[1..] + b && (a + b)[0] == a[0];
      CallTextsConcat(a[1..], b);
      if a[0].ToolCall? { Associate([(a[0].name, a[0].arguments)], CallTexts(a[1..]), CallTexts(b)); }
    }
  }

  /** Whatever the model, the same tools are called with the same arguments, in order. */
  lemma {:induction false} CallsStay(blocks: seq<Block>, m: Message, same: bool, normalize: Normalizer)
    ensures CallTexts(BlocksFor(blocks, m, same, normalize)) == CallTexts(blocks)
    decreases |blocks|
  {
    if blocks != [] {
      var n := |blocks| - 1;
      var next := BlockFor(blocks[n], m, same, normalize);
      CallsStay(blocks[..n], m, same, normalize);
      CallTextsConcat(BlocksFor(blocks[..n], m, same, normalize), next);
      CallTextsConcat(blocks[..n], [blocks[n]]);
      assert blocks[..n] + [blocks[n]] == blocks;
      assert [blocks[n]][1..] == [] && (next != [] ==> next[1..] == []);
      assert CallTexts(next) == CallTexts([blocks[n]]);
    }
  }

  // ---- whole histories ----

  lemma WordsAppend(ms: seq<Message>, m: Message)
    ensures Words(ms + [m]) == Words(ms) + MessageWords(m)
  {
    assert (ms + [m])[..|ms|] == ms;
  }

  /** The first pass changes no word, and no turn fails by it. */
  lemma {:induction false} FirstPassKeepsWords(ms: seq<Message>, model: Model, normalize: Normalizer)
    ensures Words(WithoutFailed(FirstPass(ms, model, normalize))) == Words(WithoutFailed(ms))
    decreases |ms|
  {
    if ms != [] {
      var front, m := ms[..|ms| - 1], ms[|ms| - 1];
      FirstPassKeepsWords(front, model, normalize);
      OneMoreKeepsWords(front, m, model, normalize);
      assert front + [m] == ms;
    }
  }

  lemma OneMoreKeepsWords(front: seq<Message>, m: Message, model: Model, normalize: Normalizer)
    requires Words(WithoutFailed(FirstPass(front, model, normalize))) == Words(WithoutFailed(front))
    ensures Words(WithoutFailed(FirstPass(front + [m], model, normalize))) == Words(WithoutFailed(front + [m]))
  {
    var ids := IdsAfter(front, model, normalize);
    MessageKeepsWords(m, ids, model, normalize);
    SaysTheSame(FirstPass(front, model, normalize), front, MessageFor(m, ids, model, normalize), m);
    assert (front + [m])[..|front|] == front;
  }

  lemma MessageKeepsWords(m: Message, ids: map<string, string>, model: Model, normalize: Normalizer)
    ensures MessageWords(MessageFor(m, ids, model, normalize)) == MessageWords(m)
    ensures Failed(MessageFor(m, ids, model, normalize)) == Failed(m)
  {
    if m.Assistant? { BlocksKeepWords(m.content, m, SameModel(m, model), normalize); }
  }

  lemma SaysTheSame(a: seq<Message>, b: seq<Message>, x: Message, y: Message)
    requires Words(WithoutFailed(a)) == Words(WithoutFailed(b))
    requires MessageWords(x) == MessageWords(y) && Failed(x) == Failed(y)
    ensures Words(WithoutFailed(a + [x])) == Words(WithoutFailed(b + [y]))
  {
    OneMoreTurn(a, x);
    OneMoreTurn(b, y);
  }

  lemma OneMoreTurn(ms: seq<Message>, m: Message)
    ensures Words(WithoutFailed(ms + [m])) == if Failed(m) then Words(WithoutFailed(ms))
                                             else Words(WithoutFailed(ms)) + MessageWords(m)
  {
    assert (ms + [m])[..|ms|] == ms;
    if !Failed(m) { WordsAppend(WithoutFailed(ms), m); }
  }

  lemma {:induction false} AddedSayNothing(kept: seq<Message>, out: seq<Message>)
    requires OnlyAdds(kept, out)
    ensures Words(out) == Words(kept)
    decreases |out|
  {
    if out != [] {
      var n := |out| - 1;
      if kept != [] && kept[|kept| - 1] == out[n] && OnlyAdds(kept[..|kept| - 1], out[..n]) {
        AddedSayNothing(kept[..|kept| - 1], out[..n]);
      } else {
        AddedSayNothing(kept, out[..n]);
        assert MessageWords(out[n]) == [];
      }
    }
  }

  /** Normalisation keeps every word of users and of turns that did not fail, in order, and adds none but the
      placeholders of images. */
  lemma NormalisationKeepsWords(messages: seq<Message>, model: Model, normalize: Normalizer)
    ensures Words(Transformed(messages, model, normalize)) == Words(WithoutFailed(DowngradedAll(messages, model)))
  {
    var ds := DowngradedAll(messages, model);
    FirstPassKeepsWords(ds, model, normalize);
    SecondPassKeepsTheRest(FirstPass(ds, model, normalize));
    AddedSayNothing(WithoutFailed(FirstPass(ds, model, normalize)), Transformed(messages, model, normalize));
  }

  /** The first pass leaves users alone, renames at most the call of a result, and keeps who wrote a turn and how
      it stopped. */
  lemma FirstPassKeepsTheRest(ms: seq<Message>, model: Model, normalize: Normalizer, j: nat)
    requires j < |ms|
    ensures var m, out := ms[j], FirstPass(ms, model, normalize)[j];
            && (m.User? ==> out == m)
            && (m.ToolResult? ==> out.ToolResult? && out.(toolCallId := m.toolCallId) == m)
            && (m.Assistant? ==> out.Assistant? && out.(content := m.content) == m)
            && (m.Assistant? && m.provider == model.provider && m.api == model.api && m.model == model.id ==>
                  out.content == WithoutVacuous(m.content))
            && (m.Assistant? && (m.provider != model.provider || m.api != model.api || m.model != model.id) ==>
                  forall b <- out.content :: !b.Thinking?)
  {
    assert ms[..|ms|] == ms;
    FirstPassAt(ms, |ms|, model, normalize, j);
    if ms[j].Assistant? {
      OwnBlocksStay(ms[j].content, ms[j], normalize);
      NothingPrivateCrosses(ms[j].content, ms[j], normalize);
    }
  }

  // ---- images that a model cannot see ----

  /** Neither users nor results show an image. */
  predicate ImageFree(m: Message) {
    && (m.User? && m.userContent.Items? ==> NoImages(m.userContent.items))
    && (m.ToolResult? ==> NoImages(m.resultContent))
  }

  lemma {:induction false} MissingAreImageFree(calls: seq<Block>, answered: set<string>)
    requires forall c <- calls :: c.ToolCall?
    ensures forall m <- Missing(calls, answered) :: ImageFree(m)
    decreases |calls|
  {
    if calls != [] {
      MissingAreImageFree(calls[..|calls| - 1], answered);
    }
  }

  lemma {:induction false} PairingIsImageFree(ms: seq<Message>)
    requires forall m <- ms :: ImageFree(m)
    ensures forall m <- PairAll(ms).out :: ImageFree(m)
    ensures forall m <- SecondPass(ms) :: ImageFree(m)
    decreases |ms|
  {
    var p := PairAll(ms);
    if ms != [] {
      PairingIsImageFree(ms[..|ms| - 1]);
    }
    MissingAreImageFree(p.pending, p.answered);
  }

  /** A model without image input is sent none; for any other, images stay. */
  lemma ImagesReachOnlySeeingModels(messages: seq<Message>, model: Model, normalize: Normalizer)
    ensures !model.vision ==> forall m <- Transformed(messages, model, normalize) :: ImageFree(m)
    ensures model.vision ==> DowngradedAll(messages, model) == messages
  {
    var ds := DowngradedAll(messages, model);
    var first := FirstPass(ds, model, normalize);
    if !model.vision {
      forall j | 0 <= j < |first| ensures ImageFree(first[j]) {
        FirstPassKeepsTheRest(ds, model, normalize, j);
        var m := messages[j];
        if m.User? && m.userContent.Items? { ReplacedKeepsTexts(m.userContent.items, USER_IMAGE); }
        if m.ToolResult? { ReplacedKeepsTexts(m.resultContent, TOOL_IMAGE); }
      }
      PairingIsImageFree(first);
    }
  }

  /** Each image is followed up by a placeholder in its place; one right behind another adds nothing. */
  lemma {:induction false} ImageIsMarked(content: seq<Item>, k: nat, placeholder: string)
    requires k < |content| && StandsForImage(content[k], placeholder)
    ensures var shown := Replaced(content[..k + 1], placeholder);
            && shown != [] && shown[|shown| - 1].TextItem? && shown[|shown| - 1].text == placeholder
            && (k > 0 && content[k].ImageItem? && content[k - 1].ImageItem? ==>
                  shown == Replaced(content[..k], placeholder))
  {
    assert content[..k + 1][..k] == content[..k];
    if k > 0 && StandsForImage(content[k - 1], placeholder) {
      ImageIsMarked(content, k - 1, placeholder);
    }
  }
}
