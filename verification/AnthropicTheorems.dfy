/** The other half of call pairing: when every tool result in a request belongs to the tool uses right
    before it. The code does not ensure this; it holds exactly for anchored histories. */
module AnthropicTheorems {
  import opened Common
  import opened Messages
  import opened Transform
  import opened TransformTheorems
  import opened AnthropicRequest

  function CallIds(calls: seq<Block>): set<string>
    requires forall c <- calls :: c.ToolCall?
  {
    set c | c in calls :: c.id
  }

  /** Ids called by the last message that is neither a tool result nor a failed turn. */
  function TalkIds(ms: seq<Message>): set<string> {
    if ms == [] then {}
    else
      var m := ms[|ms| - 1];
      if m.ToolResult? || Failed(m) then TalkIds(ms[..|ms| - 1]) else CallIds(Calls(m))
  }

  /** Every tool result is for a call of the last message that is neither a result nor a failed turn. */
  predicate Anchored(ms: seq<Message>) {
    ms == [] ||
    var front, m := ms[..|ms| - 1], ms[|ms| - 1];
    Anchored(front) && (m.ToolResult? ==> m.toolCallId in TalkIds(front))
  }

  lemma TalkAppend(ms: seq<Message>, m: Message)
    ensures TalkIds(ms + [m]) == if m.ToolResult? || Failed(m) then TalkIds(ms) else CallIds(Calls(m))
    ensures Anchored(ms + [m]) <==> Anchored(ms) && (m.ToolResult? ==> m.toolCallId in TalkIds(ms))
  {
    assert (ms + [m])[..|ms|] == ms;
  }

  // ---- the second pass neither anchors nor loosens results ----

  lemma {:induction false} MissingAreAnchored(out: seq<Message>, calls: seq<Block>, answered: set<string>)
    requires (forall c <- calls :: c.ToolCall?) && CallIds(calls) <= TalkIds(out)
    ensures TalkIds(out + Missing(calls, answered)) == TalkIds(out)
    ensures Anchored(out + Missing(calls, answered)) <==> Anchored(out)
    decreases |calls|
  {
    if calls == [] {
      assert out + [] == out;
    } else {
      var n := |calls| - 1;
      var front := Missing(calls[..n], answered);
      assert CallIds(calls[..n]) <= CallIds(calls);
      MissingAreAnchored(out, calls[..n], answered);
      if calls[n].id !in answered {
        assert calls[n].id in CallIds(calls);
        Associate(out, front, [Synthetic(calls[n])]);
        TalkAppend(out + front, Synthetic(calls[n]));
      }
    }
  }

  ghost predicate SameAnchors(ms: seq<Message>, p: Pairing) {
    && PendingCalls(p) && CallIds(p.pending) <= TalkIds(p.out)
    && TalkIds(p.out) == TalkIds(ms) && (Anchored(p.out) <==> Anchored(ms))
  }

  lemma SettleKeepsAnchors(ms: seq<Message>, p: Pairing)
    requires SameAnchors(ms, p)
    ensures SameAnchors(ms, Settle(p))
  {
    MissingAreAnchored(p.out, p.pending, p.answered);
  }

  lemma NextKeepsAnchors(ms: seq<Message>, p: Pairing, m: Message)
    requires SameAnchors(ms, p)
    ensures SameAnchors(ms + [m], PairNext(p, m))
  {
    TalkAppend(ms, m);
    if m.ToolResult? {
      TalkAppend(p.out, m);
    } else {
      SettleKeepsAnchors(ms, p);
      TalkAppend(Settle(p).out, m);
    }
  }

  lemma {:induction false} PairingKeepsAnchors(ms: seq<Message>)
    ensures SameAnchors(ms, PairAll(ms))
    decreases |ms|
  {
    if ms != [] {
      var front, m := ms[..|ms| - 1], ms[|ms| - 1];
      PairingKeepsAnchors(front);
      NextKeepsAnchors(front, PairAll(front), m);
      assert ms == front + [m];
    }
  }

  // ---- request messages ----

  function UsedIds(blocks: seq<ParamBlock>): set<string> {
    set b | b in blocks && b.PToolUse? :: b.id
  }

  /** Tool ids used by the request message before; none at the start. */
  function UsedBy(params: seq<Param>): set<string> {
    if params != [] && params[|params| - 1].AssistantBlocks? then UsedIds(params[|params| - 1].blocks) else {}
  }

  predicate ResultsIn(p: Param, ids: set<string>) {
    p.UserBlocks? ==> forall b <- p.blocks :: b.PToolResult? ==> b.toolUseId in ids
  }

  /** Every tool result in the request is for a tool use of the message right before it. */
  predicate ResultsHaveUses(params: seq<Param>) {
    params == [] ||
    var front := params[..|params| - 1];
    ResultsHaveUses(front) && ResultsIn(params[|params| - 1], UsedBy(front))
  }

  lemma UsesAppend(params: seq<Param>, p: Param)
    ensures ResultsHaveUses(params + [p]) <==> ResultsHaveUses(params) && ResultsIn(p, UsedBy(params))
    ensures UsedBy(params + [p]) == if p.AssistantBlocks? then UsedIds(p.blocks) else {}
  {
    assert (params + [p])[..|params|] == params;
  }

  lemma {:induction false} UsedAreCalled(blocks: seq<Block>, settings: Settings)
    ensures UsedIds(AssistantBlockList(blocks, settings)) == CallIds(CallBlocks(blocks))
    decreases |blocks|
  {
    if blocks != [] {
      var n := |blocks| - 1;
      UsedAreCalled(blocks[..n], settings);
      var front := AssistantBlockList(blocks[..n], settings);
      var last := AssistantBlock(blocks[n], settings);
      assert UsedIds(front + last) == UsedIds(front) + UsedIds(last);
      var calls := CallBlocks(blocks[..n]);
      if blocks[n].ToolCall? {
        assert UsedIds(last) == {blocks[n].id} by { assert last[0] in last; }
        CallIdsAppend(calls, blocks[n]);
      } else {
        assert UsedIds(last) == {};
      }
    }
  }

  lemma CallIdsAppend(calls: seq<Block>, c: Block)
    requires (forall x <- calls :: x.ToolCall?) && c.ToolCall?
    ensures CallIds(calls + [c]) == CallIds(calls) + {c.id}
  {
    assert c in calls + [c];
    forall x | x in calls ensures x in calls + [c] {}
  }

  lemma {:induction false} UserListHasNoResults(items: seq<Item>)
    ensures forall b <- UserBlockList(items) :: !b.PToolResult?
  {
    if items != [] { UserListHasNoResults(items[..|items| - 1]); }
  }

  // ---- conversion neither anchors nor loosens results ----

  /** The request so far and the history read so far agree; between runs, the last request message
      uses the ids that the last talk calls. */
  ghost predicate Agrees(ms: seq<Message>, i: nat, params: seq<Param>)
    requires i <= |ms|
  {
    && (ResultsHaveUses(params) <==> Anchored(ms[..i]))
    && UsedBy(params) == if i > 0 && ms[i - 1].ToolResult? then {} else TalkIds(ms[..i])
  }

  /** A message with calls is followed by a result, so nothing else meets unanswered calls. */
  lemma NothingUsed(ms: seq<Message>, i: nat, params: seq<Param>)
    requires i < |ms| && Agrees(ms, i, params) && WellPaired(ms) && NoneFailed(ms) && !ms[i].ToolResult?
    ensures UsedBy(params) == {}
  {
    if i > 0 && !ms[i - 1].ToolResult? {
      assert AllAnswered(ms, i - 1);
      assert ms[..i][..i - 1] == ms[..i - 1];
      assert RunEnd(ms, i) == i;
      if Calls(ms[i - 1]) != [] {
        HasRun(ms, i - 1, Calls(ms[i - 1])[0]);
        assert false;
      }
    }
  }

  lemma HasRun(ms: seq<Message>, i: nat, c: Block)
    requires i < |ms| && AllAnswered(ms, i) && c in Calls(ms[i])
    ensures i + 1 < RunEnd(ms, i + 1)
  {
    assert Answered(ms, i, c.id);
  }

  lemma TalkAgrees(ms: seq<Message>, i: nat, params: seq<Param>, more: seq<Param>)
    requires i < |ms| && Agrees(ms, i, params) && WellPaired(ms) && NoneFailed(ms) && !ms[i].ToolResult?
    requires |more| <= 1 && (more != [] ==> ResultsIn(more[0], {}))
    requires if more != [] && more[0].AssistantBlocks? then UsedIds(more[0].blocks) == CallIds(Calls(ms[i]))
             else Calls(ms[i]) == []
    ensures Agrees(ms, i + 1, params + more)
  {
    NothingUsed(ms, i, params);
    assert ms[..i + 1] == ms[..i] + [ms[i]];
    TalkAppend(ms[..i], ms[i]);
    if more == [] {
      assert params + more == params;
    } else {
      assert more == [more[0]];
      UsesAppend(params, more[0]);
    }
  }

  /** The results of a run are for ids that were called. */
  predicate AllFor(ms: seq<Message>, i: nat, j: nat, ids: set<string>)
    requires i <= j <= |ms| && forall k :: i <= k < j ==> ms[k].ToolResult?
  {
    forall k :: i <= k < j ==> ms[k].toolCallId in ids
  }

  lemma {:induction false} RunAnchors(ms: seq<Message>, i: nat, j: nat, ids: set<string>)
    requires i <= j <= |ms| && (forall k :: i <= k < j ==> ms[k].ToolResult?) && ids == TalkIds(ms[..i])
    ensures TalkIds(ms[..j]) == ids
    ensures Anchored(ms[..j]) <==> Anchored(ms[..i]) && AllFor(ms, i, j, ids)
    decreases j
  {
    if i < j {
      RunAnchors(ms, i, j - 1, ids);
      assert ms[..j] == ms[..j - 1] + [ms[j - 1]];
      TalkAppend(ms[..j - 1], ms[j - 1]);
    }
  }

  lemma RunBlocksFor(ms: seq<Message>, i: nat, j: nat, ids: set<string>)
    requires i <= j <= |ms| && forall k :: i <= k < j ==> ms[k].ToolResult?
    ensures ResultsIn(UserBlocks(ResultBlocks(ms[i..j])), ids) <==> AllFor(ms, i, j, ids)
  {
    var blocks := ResultBlocks(ms[i..j]);
    if ResultsIn(UserBlocks(blocks), ids) {
      forall k | i <= k < j ensures ms[k].toolCallId in ids { assert blocks[k - i] in blocks; }
    }
  }

  lemma RunAgrees(ms: seq<Message>, i: nat, params: seq<Param>)
    requires i < |ms| && Agrees(ms, i, params) && ms[i].ToolResult? && (i > 0 ==> !ms[i - 1].ToolResult?)
    ensures Agrees(ms, RunEnd(ms, i), params + [UserBlocks(ResultBlocks(ms[i..RunEnd(ms, i)]))])
  {
    var j, ids := RunEnd(ms, i), TalkIds(ms[..i]);
    RunAnchors(ms, i, j, ids);
    RunBlocksFor(ms, i, j, ids);
    UsesAppend(params, UserBlocks(ResultBlocks(ms[i..j])));
  }

  lemma {:induction false} ConversionAgrees(ms: seq<Message>, i: nat, params: seq<Param>, settings: Settings)
    requires i <= |ms| && Agrees(ms, i, params) && WellPaired(ms) && NoneFailed(ms)
    requires 0 < i < |ms| && ms[i].ToolResult? ==> !ms[i - 1].ToolResult?
    ensures ResultsHaveUses(params + ParamsFrom(ms, i, settings)) <==> Anchored(ms)
    decreases |ms| - i
  {
    if i == |ms| {
      assert ms[..i] == ms && params + [] == params;
    } else {
      match ms[i]
      case User(content) =>
        if content.Items? { UserListHasNoResults(content.items); }
        TalkAgrees(ms, i, params, UserParam(content));
        ConversionAgrees(ms, i + 1, params + UserParam(content), settings);
        Associate(params, UserParam(content), ParamsFrom(ms, i + 1, settings));
      case Assistant(content, _, _, _, _) =>
        UsedAreCalled(content, settings);
        NoBlocksNoCalls(content, settings);
        TalkAgrees(ms, i, params, AssistantParam(content, settings));
        ConversionAgrees(ms, i + 1, params + AssistantParam(content, settings), settings);
        Associate(params, AssistantParam(content, settings), ParamsFrom(ms, i + 1, settings));
      case ToolResult(_, _, _, _) =>
        var j := RunEnd(ms, i);
        var group := [UserBlocks(ResultBlocks(ms[i..j]))];
        RunAgrees(ms, i, params);
        ConversionAgrees(ms, j, params + group, settings);
        Associate(params, group, ParamsFrom(ms, j, settings));
    }
  }

  lemma {:induction false} NoBlocksNoCalls(content: seq<Block>, settings: Settings)
    ensures AssistantBlockList(content, settings) == [] ==> CallBlocks(content) == []
  {
    if content != [] { NoBlocksNoCalls(content[..|content| - 1], settings); }
  }

  /** Every tool result of the request belongs to a tool use of the message right before it, exactly
      when the history, once ids are renamed, is anchored. */
  lemma ResultsHaveUsesExactlyWhen(messages: seq<Message>, model: Model, settings: Settings)
    ensures ResultsHaveUses(Request(messages, model, settings))
       <==> Anchored(FirstPass(DowngradedAll(messages, model), model, NORMALIZE))
  {
    var first := FirstPass(DowngradedAll(messages, model), model, NORMALIZE);
    var ms := SecondPass(first);
    SecondPassPairs(first);
    PairingKeepsAnchors(first);
    SettleKeepsAnchors(first, PairAll(first));
    ConversionAgrees(ms, 0, [], settings);
    assert [] + ParamsFrom(ms, 0, settings) == ParamsFrom(ms, 0, settings);
  }

  // ---- a condition on the history itself ----

  /** Result `j` is behind its call: the call is made once, by a turn that did not fail, and only results
      are in between. */
  ghost predicate BehindItsCall(ms: seq<Message>, j: nat)
    requires j < |ms| && ms[j].ToolResult?
  {
    exists i: nat, k: nat ::
      i < j && OnlyCall(ms, i, k, ms[j].toolCallId) && !Failed(ms[i]) && forall x :: i < x < j ==> ms[x].ToolResult?
  }

  ghost predicate ResultsBehindCalls(ms: seq<Message>) {
    forall j :: 0 <= j < |ms| && ms[j].ToolResult? ==> BehindItsCall(ms, j)
  }

  /** The image downgrade changes no call, no id and no role. */
  lemma DowngradedKeepsCalls(messages: seq<Message>, model: Model)
    requires ResultsBehindCalls(messages)
    ensures ResultsBehindCalls(DowngradedAll(messages, model))
  {
    var ds := DowngradedAll(messages, model);
    forall j | 0 <= j < |ds| && ds[j].ToolResult? ensures BehindItsCall(ds, j) {
      assert messages[j].ToolResult? && BehindItsCall(messages, j);
      var i: nat, k: nat :|
        i < j && OnlyCall(messages, i, k, messages[j].toolCallId) && !Failed(messages[i])
        && forall x :: i < x < j ==> messages[x].ToolResult?;
      SameCalls(messages, model, i, k, messages[j].toolCallId);
    }
  }

  lemma SameCalls(messages: seq<Message>, model: Model, i: nat, k: nat, id: string)
    requires OnlyCall(messages, i, k, id)
    ensures OnlyCall(DowngradedAll(messages, model), i, k, id)
  {
    var ds := DowngradedAll(messages, model);
    forall i', k' | CallAt(ds, i', k', id) ensures i' == i && k' == k {
      assert CallAt(messages, i', k', id);
    }
  }

  /** After the first pass the result is still for a call of the last talk. */
  lemma ResultIsForTalk(ms: seq<Message>, model: Model, j: nat)
    requires j < |ms| && ms[j].ToolResult? && BehindItsCall(ms, j)
    ensures var out := FirstPass(ms, model, NORMALIZE); out[j].ToolResult? && out[j].toolCallId in TalkIds(out[..j])
  {
    var out := FirstPass(ms, model, NORMALIZE);
    var i: nat, k: nat :|
      i < j && OnlyCall(ms, i, k, ms[j].toolCallId) && !Failed(ms[i]) && forall x :: i < x < j ==> ms[x].ToolResult?;
    ResultsNameTheirCalls(ms, model, i, k, j, ms[j].toolCallId);
    assert ms[..|ms|] == ms;
    forall x | i <= x < j ensures if x == i then !Failed(out[x]) else out[x].ToolResult? {
      FirstPassAt(ms, |ms|, model, NORMALIZE, x);
    }
    RunAnchors(out, i + 1, j, TalkIds(out[..i + 1]));
    assert out[..i + 1] == out[..i] + [out[i]];
    TalkAppend(out[..i], out[i]);
  }

  lemma {:induction false} AnchoredWhenBehind(ms: seq<Message>, model: Model, n: nat)
    requires n <= |ms| && ResultsBehindCalls(ms)
    ensures Anchored(FirstPass(ms, model, NORMALIZE)[..n])
  {
    if n > 0 {
      AnchoredWhenBehind(ms, model, n - 1);
      var out := FirstPass(ms, model, NORMALIZE);
      assert out[..n] == out[..n - 1] + [out[n - 1]];
      TalkAppend(out[..n - 1], out[n - 1]);
      assert ms[..|ms|] == ms;
      FirstPassAt(ms, |ms|, model, NORMALIZE, n - 1);
      if ms[n - 1].ToolResult? {
        ResultIsForTalk(ms, model, n - 1);
      }
    }
  }

  /** A history whose results are behind their calls gives a request whose results have their tool uses. */
  lemma ResultsHaveUsesWhenBehind(messages: seq<Message>, model: Model, settings: Settings)
    requires ResultsBehindCalls(messages)
    ensures ResultsHaveUses(Request(messages, model, settings))
  {
    var ds := DowngradedAll(messages, model);
    var first := FirstPass(ds, model, NORMALIZE);
    DowngradedKeepsCalls(messages, model);
    AnchoredWhenBehind(ds, model, |ds|);
    assert first[..|ds|] == first;
    ResultsHaveUsesExactlyWhen(messages, model, settings);
  }

  /** A history that went through the normalisation once gives the same request. */
  lemma RequestOfNormalized(messages: seq<Message>, model: Model, settings: Settings)
    ensures var once := Transformed(messages, model, NORMALIZE);
            Transformed(once, model, NORMALIZE) == once
                && Request(once, model, settings) == Request(messages, model, settings)
  {
    NormalizeIsIdempotent();
    TransformIsIdempotent(messages, model, NORMALIZE);
  }

  /** With this provider's ids, a later result of a call made once always names the call: no id becomes
      empty. */
  lemma ResultsNameTheirCalls(ms: seq<Message>, model: Model, i: nat, k: nat, j: nat, id: string)
    requires OnlyCall(ms, i, k, id)
    requires i < j < |ms| && ms[j].ToolResult? && ms[j].toolCallId == id
    ensures var newId, out := NewId(id, ms[i], SameModel(ms[i], model), NORMALIZE), FirstPass(ms, model, NORMALIZE);
            && out[i].Assistant? && (exists c :: c in out[i].content && c.ToolCall? && c.id == newId)
            && out[j].ToolResult? && out[j].toolCallId == newId
  {
    ResultsFollowTheirCalls(ms, model, NORMALIZE, i, k, j, id);
    NormalizedIdIsValid(id);
  }

  /** A failed turn is dropped but its results stay: the request then has a result without a use. */
  lemma FailedTurnLeavesItsResult(model: Model, settings: Settings, call: Block, result: Message)
    requires call.ToolCall? && result.ToolResult? && result.toolCallId == call.id
    ensures var turn := Assistant([call], model.api, model.provider, model.id, Error);
            !ResultsHaveUses(Request([turn, result], model, settings))
  {
    var turn := Assistant([call], model.api, model.provider, model.id, Error);
    var ds := DowngradedAll([turn, result], model);
    var first := FirstPass(ds, model, NORMALIZE);
    assert ds[..2] == ds;
    FirstPassAt(ds, 2, model, NORMALIZE, 0);
    FirstPassAt(ds, 2, model, NORMALIZE, 1);
    assert ds[..1][..0] == [] && ds[0] == turn;
    assert IdsAfterBlocks(map[], turn.content, turn, true, NORMALIZE) == map[] by { assert turn.content[..0] == []; }
    assert IdsAfter(ds[..1], model, NORMALIZE) == map[];
    assert first[1].toolCallId == call.id;
    assert first[..1][..0] == [] && TalkIds(first[..1]) == {};
    ResultsHaveUsesExactlyWhen([turn, result], model, settings);
  }
}
