/** What message normalisation promises: every call answered at once, nothing lost but failed turns,
    results still naming their calls, and a second normalisation that changes nothing. */
module TransformTheorems {
  import opened Common
  import opened Messages
  import opened Transform

  // ---- runs of tool results ----

  /** End of the run of tool results that starts at `i`. */
  function RunEnd(ms: seq<Message>, i: nat): (r: nat)
    requires i <= |ms|
    ensures i <= r <= |ms|
    ensures forall k :: i <= k < r ==> ms[k].ToolResult?
    ensures r < |ms| ==> !ms[r].ToolResult?
    decreases |ms| - i
  {
    if i < |ms| && ms[i].ToolResult? then RunEnd(ms, i + 1) else i
  }

  /** A result for `id` in the run of tool results right behind message `i`. */
  predicate Answered(ms: seq<Message>, i: nat, id: string)
    requires i < |ms|
  {
    exists k :: i < k < RunEnd(ms, i + 1) && ms[k].toolCallId == id
  }

  predicate AllAnswered(ms: seq<Message>, i: nat)
    requires i < |ms|
  {
    forall c <- Calls(ms[i]) :: c.ToolCall? && Answered(ms, i, c.id)
  }

  /** Every call has a result in the run right behind its message. */
  predicate WellPaired(ms: seq<Message>) { forall i :: 0 <= i < |ms| ==> AllAnswered(ms, i) }

  predicate NoneFailed(ms: seq<Message>) { forall i :: 0 <= i < |ms| ==> !Failed(ms[i]) }

  lemma AnsweredGrows(ms: seq<Message>, more: seq<Message>, i: nat)
    requires i < |ms| && AllAnswered(ms, i)
    ensures AllAnswered(ms + more, i)
  {
    var all := ms + more;
    forall c <- Calls(ms[i]) ensures Answered(all, i, c.id) {
      var k :| i < k < RunEnd(ms, i + 1) && ms[k].toolCallId == c.id;
      RunGrows(ms, more, i + 1);
      assert all[k].toolCallId == c.id;
    }
  }

  lemma {:induction false} RunReaches(ms: seq<Message>, i: nat, r: nat)
    requires i <= r <= |ms| && forall k :: i <= k < r ==> ms[k].ToolResult?
    ensures r <= RunEnd(ms, i)
    decreases r - i
  {
    if i < r { RunReaches(ms, i + 1, r); }
  }

  /** Tool results pushed behind a history leave every answered message answered. */
  lemma ResultsKeepAnswered(out: seq<Message>, results: seq<Message>, q: int)
    requires forall m <- results :: m.ToolResult?
    requires forall i :: 0 <= i < |out| && i != q ==> AllAnswered(out, i)
    ensures forall i :: 0 <= i < |out + results| && i != q ==> AllAnswered(out + results, i)
  {
    var all := out + results;
    forall i | 0 <= i < |all| && i != q ensures AllAnswered(all, i) {
      if i < |out| {
        AnsweredGrows(out, results, i);
      } else {
        assert all[i] == results[i - |out|] && results[i - |out|] in results;
      }
    }
  }

  lemma RunGrows(ms: seq<Message>, more: seq<Message>, i: nat)
    requires i <= |ms|
    ensures RunEnd(ms, i) <= RunEnd(ms + more, i)
  {
    RunReaches(ms + more, i, RunEnd(ms, i));
  }

  lemma PairedGrows(ms: seq<Message>, m: Message)
    requires WellPaired(ms) && Calls(m) == []
    ensures WellPaired(ms + [m])
  {
    var all := ms + [m];
    forall i | 0 <= i < |all| ensures AllAnswered(all, i) {
      if i < |ms| { AnsweredGrows(ms, [m], i); }
    }
  }

  // ---- the second pass pairs ----

  function ResultIds(ms: seq<Message>): set<string> {
    if ms == [] then {}
    else
      var n := |ms| - 1;
      ResultIds(ms[..n]) + (if ms[n].ToolResult? then {ms[n].toolCallId} else {})
  }

  lemma {:induction false} ResultIdsOf(ms: seq<Message>, id: string)
    ensures id in ResultIds(ms) <==> exists k :: 0 <= k < |ms| && ms[k].ToolResult? && ms[k].toolCallId == id
  {
    if ms != [] {
      var n := |ms| - 1;
      ResultIdsOf(ms[..n], id);
      if id in ResultIds(ms[..n]) {
        var k :| 0 <= k < n && ms[..n][k].ToolResult? && ms[..n][k].toolCallId == id;
        assert ms[k].toolCallId == id;
      }
      if k :| 0 <= k < |ms| && ms[k].ToolResult? && ms[k].toolCallId == id {
        if k < n { assert ms[..n][k].toolCallId == id; }
      }
    }
  }

  lemma ResultIdsAppend(ms: seq<Message>, m: Message)
    ensures ResultIds(ms + [m]) == ResultIds(ms) + (if m.ToolResult? then {m.toolCallId} else {})
  {
    assert (ms + [m])[..|ms|] == ms;
  }

  /** Message `q` makes the pending calls and only tool results follow it, for the ids answered. */
  ghost predicate OpenAt(p: Pairing, q: nat) {
    && q < |p.out| && Calls(p.out[q]) == p.pending
    && (forall k :: q < k < |p.out| ==> p.out[k].ToolResult?)
    && p.answered == ResultIds(p.out[q + 1..])
    && forall i :: 0 <= i < |p.out| && i != q ==> AllAnswered(p.out, i)
  }

  ghost predicate PairingInv(p: Pairing) {
    && PendingCalls(p) && NoneFailed(p.out)
    && if p.pending == [] then WellPaired(p.out) else exists q :: OpenAt(p, q)
  }

  lemma {:induction false} MissingAnswers(calls: seq<Block>, answered: set<string>, c: Block)
    requires (forall x <- calls :: x.ToolCall?) && c in calls
    ensures forall m <- Missing(calls, answered) :: m.ToolResult?
    ensures c.id in answered || exists k ::
              0 <= k < |Missing(calls, answered)| && Missing(calls, answered)[k].toolCallId == c.id
    decreases |calls|
  {
    var n := |calls| - 1;
    var front := Missing(calls[..n], answered);
    MissingAreResults(calls, answered);
    if c in calls[..n] {
      MissingAnswers(calls[..n], answered, c);
      if c.id !in answered {
        var k :| 0 <= k < |front| && front[k].toolCallId == c.id;
        assert Missing(calls, answered)[k].toolCallId == c.id;
      }
    } else if c.id !in answered {
      assert Missing(calls, answered)[|front|].toolCallId == c.id;
    }
  }

  lemma {:induction false} MissingAreResults(calls: seq<Block>, answered: set<string>)
    requires forall x <- calls :: x.ToolCall?
    ensures forall m <- Missing(calls, answered) :: m.ToolResult?
    decreases |calls|
  {
    if calls != [] { MissingAreResults(calls[..|calls| - 1], answered); }
  }

  /** With the missing results, the open message is answered too. */
  lemma OpenIsAnswered(p: Pairing, q: nat)
    requires PendingCalls(p) && OpenAt(p, q)
    ensures AllAnswered(p.out + Missing(p.pending, p.answered), q)
  {
    var missing := Missing(p.pending, p.answered);
    var all := p.out + missing;
    MissingAreResults(p.pending, p.answered);
    assert forall k :: q < k < |all| ==> all[k].ToolResult?;
    assert RunEnd(all, q + 1) == |all|;
    forall c <- Calls(p.out[q]) ensures Answered(all, q, c.id) {
      MissingAnswers(p.pending, p.answered, c);
      if c.id in p.answered {
        ResultIdsOf(p.out[q + 1..], c.id);
        var k :| 0 <= k < |p.out[q + 1..]| && p.out[q + 1..][k].toolCallId == c.id;
        assert all[q + 1 + k].toolCallId == c.id;
      } else {
        var k :| 0 <= k < |missing| && missing[k].toolCallId == c.id;
        assert all[|p.out| + k].toolCallId == c.id;
      }
    }
  }

  lemma ResultsNeverFailed(out: seq<Message>, results: seq<Message>)
    requires NoneFailed(out) && forall m <- results :: m.ToolResult?
    ensures NoneFailed(out + results)
  {
    forall i | 0 <= i < |out + results| ensures !Failed((out + results)[i]) {
      if i >= |out| { assert results[i - |out|] in results; }
    }
  }

  lemma SettlePairs(p: Pairing)
    requires PairingInv(p)
    ensures WellPaired(Settle(p).out) && NoneFailed(Settle(p).out)
  {
    if p.pending != [] {
      var q: nat :| OpenAt(p, q);
      var missing := Missing(p.pending, p.answered);
      var all := p.out + missing;
      MissingAreResults(p.pending, p.answered);
      OpenIsAnswered(p, q);
      ResultsKeepAnswered(p.out, missing, q);
      ResultsNeverFailed(p.out, missing);
    }
  }

  lemma ResultKeepsPairing(p: Pairing, m: Message)
    requires PairingInv(p) && m.ToolResult?
    ensures PairingInv(PairNext(p, m))
  {
    if p.pending == [] {
      PairedGrows(p.out, m);
    } else {
      var q: nat :| OpenAt(p, q);
      StaysOpen(p, m, q);
    }
  }

  lemma StaysOpen(p: Pairing, m: Message, q: nat)
    requires PendingCalls(p) && OpenAt(p, q) && m.ToolResult?
    ensures OpenAt(PairNext(p, m), q)
  {
    assert (p.out + [m])[q + 1..] == p.out[q + 1..] + [m];
    ResultIdsAppend(p.out[q + 1..], m);
    ResultsKeepAnswered(p.out, [m], q);
  }

  lemma CallsOpen(out: seq<Message>, m: Message)
    requires WellPaired(out) && m.Assistant? && Calls(m) != []
    ensures OpenAt(Pairing(out + [m], Calls(m), {}), |out|)
  {
    var all := out + [m];
    assert all[|out| + 1..] == [];
    forall i | 0 <= i < |all| && i != |out| ensures AllAnswered(all, i) {
      AnsweredGrows(out, [m], i);
    }
  }

  lemma NextKeepsPairing(p: Pairing, m: Message)
    requires PairingInv(p)
    ensures PairingInv(PairNext(p, m))
  {
    if m.ToolResult? {
      ResultKeepsPairing(p, m);
    } else {
      SettlePairs(p);
      var q := Settle(p);
      if !Failed(m) {
        if Calls(m) == [] { PairedGrows(q.out, m); } else { CallsOpen(q.out, m); }
      }
    }
  }

  lemma {:induction false} PairingHolds(ms: seq<Message>)
    ensures PairingInv(PairAll(ms))
    decreases |ms|
  {
    if ms != [] {
      PairingHolds(ms[..|ms| - 1]);
      NextKeepsPairing(PairAll(ms[..|ms| - 1]), ms[|ms| - 1]);
    }
  }

  /** Whatever the history, the second pass leaves no call without a result right behind it and no
      failed turn. */
  lemma SecondPassPairs(ms: seq<Message>)
    ensures WellPaired(SecondPass(ms)) && NoneFailed(SecondPass(ms))
    ensures forall m <- SecondPass(ms) :: m.Assistant? ==> m.stop != Error && m.stop != Aborted
  {
    PairingHolds(ms);
    SettlePairs(PairAll(ms));
  }

  // ---- the second pass leaves paired histories alone ----

  /** Part way through a paired history: all of it is out, and the open message is the last talk. */
  ghost predicate Unaltered(ms: seq<Message>, n: nat, p: Pairing)
    requires n <= |ms|
  {
    && PendingCalls(p) && p.out == ms[..n]
    && (p.pending == [] || exists q :: OpenIn(ms, n, p, q))
  }

  ghost predicate OpenIn(ms: seq<Message>, n: nat, p: Pairing, q: nat)
    requires n <= |ms|
  {
    && q < n && Calls(ms[q]) == p.pending
    && (forall k :: q < k < n ==> ms[k].ToolResult?)
    && p.answered == ResultIds(ms[q + 1..n])
  }

  lemma {:induction false} NothingMissing(calls: seq<Block>, answered: set<string>)
    requires forall c <- calls :: c.ToolCall? && c.id in answered
    ensures Missing(calls, answered) == []
    decreases |calls|
  {
    if calls != [] { NothingMissing(calls[..|calls| - 1], answered); }
  }

  lemma SettleAddsNothing(ms: seq<Message>, n: nat, p: Pairing)
    requires n <= |ms| && WellPaired(ms) && Unaltered(ms, n, p)
    requires n < |ms| ==> !ms[n].ToolResult?
    ensures Settle(p).out == ms[..n]
  {
    if p.pending != [] {
      var q: nat :| OpenIn(ms, n, p, q);
      forall c <- p.pending ensures c.id in p.answered {
        assert AllAnswered(ms, q);
        assert Answered(ms, q, c.id);
        var k :| q < k < RunEnd(ms, q + 1) && ms[k].toolCallId == c.id;
        assert n < |ms| ==> k != n;
        ResultIdsOf(ms[q + 1..n], c.id);
        assert ms[q + 1..n][k - q - 1].toolCallId == c.id;
      }
      NothingMissing(p.pending, p.answered);
    }
  }

  lemma StaysOpenIn(ms: seq<Message>, n: nat, p: Pairing, q: nat)
    requires 0 < n <= |ms| && PendingCalls(p) && OpenIn(ms, n - 1, p, q) && ms[n - 1].ToolResult?
    ensures OpenIn(ms, n, PairNext(p, ms[n - 1]), q)
  {
    assert ms[q + 1..n] == ms[q + 1..n - 1] + [ms[n - 1]];
    ResultIdsAppend(ms[q + 1..n - 1], ms[n - 1]);
  }

  lemma CallsOpenIn(ms: seq<Message>, n: nat, p: Pairing)
    requires 0 < n <= |ms| && p.pending == Calls(ms[n - 1]) && p.answered == {}
    ensures OpenIn(ms, n, p, n - 1)
  {
    assert ms[n..n] == [];
  }

  lemma {:induction false} PairedIsUnaltered(ms: seq<Message>, n: nat)
    requires n <= |ms| && WellPaired(ms) && NoneFailed(ms)
    ensures Unaltered(ms, n, PairAll(ms[..n]))
  {
    if n > 0 {
      PairedIsUnaltered(ms, n - 1);
      var p, m := PairAll(ms[..n - 1]), ms[n - 1];
      assert ms[..n][..n - 1] == ms[..n - 1] && ms[..n] == ms[..n - 1] + [m];
      var next := PairNext(p, m);
      if m.ToolResult? {
        if p.pending != [] {
          var q: nat :| OpenIn(ms, n - 1, p, q);
          StaysOpenIn(ms, n, p, q);
        }
      } else {
        SettleAddsNothing(ms, n - 1, p);
        if Calls(m) != [] {
          CallsOpenIn(ms, n, next);
        }
      }
    }
  }

  /** The second pass changes nothing exactly when every call is answered and no turn failed. */
  lemma SecondPassFixesExactly(ms: seq<Message>)
    ensures SecondPass(ms) == ms <==> WellPaired(ms) && NoneFailed(ms)
  {
    SecondPassPairs(ms);
    if WellPaired(ms) && NoneFailed(ms) {
      PairedIsUnaltered(ms, |ms|);
      assert ms[..|ms|] == ms;
      SettleAddsNothing(ms, |ms|, PairAll(ms));
    }
  }

  // ---- nothing else is lost or added ----

  function WithoutFailed(ms: seq<Message>): seq<Message> {
    if ms == [] then []
    else
      var front, m := WithoutFailed(ms[..|ms| - 1]), ms[|ms| - 1];
      if m.Assistant? && (m.stop == Error || m.stop == Aborted) then front else front + [m]
  }

  /** An error that says there is no result, for a call. */
  ghost predicate IsSynthetic(m: Message) {
    && m.ToolResult? && m.isError && m.resultContent == [TextItem("No result provided", None)]
    && exists call: Block :: call.ToolCall? && call.id == m.toolCallId && call.name == m.toolName
  }

  /** The longer list is the other one, message by message, with synthetic results put in. */
  ghost predicate OnlyAdds(kept: seq<Message>, out: seq<Message>)
    decreases |out|
  {
    if out == [] then kept == []
    else
      var n := |out| - 1;
      || (kept != [] && kept[|kept| - 1] == out[n] && OnlyAdds(kept[..|kept| - 1], out[..n]))
      || (IsSynthetic(out[n]) && OnlyAdds(kept, out[..n]))
  }

  lemma AddsAppend(kept: seq<Message>, out: seq<Message>, m: Message)
    requires OnlyAdds(kept, out)
    ensures OnlyAdds(kept + [m], out + [m])
    ensures IsSynthetic(m) ==> OnlyAdds(kept, out + [m])
  {
    assert (out + [m])[..|out|] == out && (kept + [m])[..|kept|] == kept;
  }

  lemma {:induction false} AddsMissing(kept: seq<Message>, out: seq<Message>, calls: seq<Block>, answered: set<string>)
    requires OnlyAdds(kept, out) && forall c <- calls :: c.ToolCall?
    ensures OnlyAdds(kept, out + Missing(calls, answered))
    decreases |calls|
  {
    if calls == [] {
      assert out + [] == out;
    } else {
      var n := |calls| - 1;
      var front := Missing(calls[..n], answered);
      AddsMissing(kept, out, calls[..n], answered);
      if calls[n].id !in answered {
        Associate(out, front, [Synthetic(calls[n])]);
        AddsAppend(kept, out + front, Synthetic(calls[n]));
      }
    }
  }

  lemma {:induction false} PairAllOnlyAdds(ms: seq<Message>)
    ensures OnlyAdds(WithoutFailed(ms), PairAll(ms).out)
    decreases |ms|
  {
    if ms != [] {
      var n := |ms| - 1;
      PairAllOnlyAdds(ms[..n]);
      var p := PairAll(ms[..n]);
      AddsMissing(WithoutFailed(ms[..n]), p.out, p.pending, p.answered);
      AddsAppend(WithoutFailed(ms[..n]), p.out, ms[n]);
      AddsAppend(WithoutFailed(ms[..n]), Settle(p).out, ms[n]);
    }
  }

  /** The second pass drops only failed turns, keeps every other message in its order, and adds only
      synthetic results. */
  lemma SecondPassKeepsTheRest(ms: seq<Message>)
    ensures OnlyAdds(WithoutFailed(ms), SecondPass(ms))
  {
    PairAllOnlyAdds(ms);
    var p := PairAll(ms);
    AddsMissing(WithoutFailed(ms), p.out, p.pending, p.answered);
  }

  // ---- results still name their calls ----

  predicate CallAt(ms: seq<Message>, i: int, k: int, id: string) {
    0 <= i < |ms| && ms[i].Assistant? && 0 <= k < |ms[i].content| && ms[i].content[k].ToolCall?
        && ms[i].content[k].id == id
  }

  /** The id is called once in the whole history. */
  ghost predicate OnlyCall(ms: seq<Message>, i: nat, k: nat, id: string) {
    CallAt(ms, i, k, id) && forall i', k' :: CallAt(ms, i', k', id) ==> i' == i && k' == k
  }

  /** What the id table says about an id after blocks that call it once, at `k`, or not at all. */
  lemma {:induction false} BlockTable(ids: map<string, string>, blocks: seq<Block>, m: Message, same: bool,
                                      normalize: Normalizer, id: string, k: int)
    requires forall k' :: 0 <= k' < |blocks| && blocks[k'].ToolCall? && blocks[k'].id == id ==> k' == k
    requires 0 <= k < |blocks| ==> blocks[k].ToolCall? && blocks[k].id == id && id !in ids
    ensures var after := IdsAfterBlocks(ids, blocks, m, same, normalize);
            if 0 <= k < |blocks| && NewId(id, m, same, normalize) != id then
              id in after && after[id] == NewId(id, m, same, normalize)
            else
              (id in after <==> id in ids) && (id in ids ==> after[id] == ids[id])
    decreases |blocks|
  {
    if blocks != [] {
      BlockTable(ids, blocks[..|blocks| - 1], m, same, normalize, id, k);
    }
  }

  lemma {:induction false} TableEntry(ms: seq<Message>, n: nat, model: Model, normalize: Normalizer, i: nat, k: nat,
                                      id: string)
    requires n <= |ms| && OnlyCall(ms, i, k, id)
    ensures var newId, after := NewId(id, ms[i], SameModel(ms[i], model), normalize),
        IdsAfter(ms[..n], model, normalize);
            if i < n && newId != id then id in after && after[id] == newId else id !in after
  {
    if n > 0 {
      TableEntry(ms, n - 1, model, normalize, i, k, id);
      var m := ms[n - 1];
      assert ms[..n][..n - 1] == ms[..n - 1];
      if m.Assistant? {
        forall k' | 0 <= k' < |m.content| && m.content[k'].ToolCall? && m.content[k'].id == id ensures n - 1 == i
            && k' == k {
          assert CallAt(ms, n - 1, k', id);
        }
        BlockTable(IdsAfter(ms[..n - 1], model, normalize), m.content, m, SameModel(m, model), normalize, id,
                   if n - 1 == i then k else -1);
      }
    }
  }

  lemma {:induction false} FirstPassAt(ms: seq<Message>, n: nat, model: Model, normalize: Normalizer, j: nat)
    requires j < n <= |ms|
    ensures FirstPass(ms[..n], model, normalize)[j]
         == MessageFor(ms[j], IdsAfter(ms[..j], model, normalize), model, normalize)
  {
    assert ms[..n][..n - 1] == ms[..n - 1];
    if j < n - 1 { FirstPassAt(ms, n - 1, model, normalize, j); }
  }

  lemma {:induction false} CallKept(blocks: seq<Block>, m: Message, same: bool, normalize: Normalizer, k: nat)
    requires k < |blocks| && blocks[k].ToolCall?
    ensures exists c ::
              c in BlocksFor(blocks, m, same, normalize) && c.ToolCall?
              && c.id == NewId(blocks[k].id, m, same, normalize)
    decreases |blocks|
  {
    var n := |blocks| - 1;
    if k == n {
      var c := BlockFor(blocks[n], m, same, normalize)[0];
      assert c in BlocksFor(blocks, m, same, normalize) && c.ToolCall?;
    } else {
      CallKept(blocks[..n], m, same, normalize, k);
    }
  }

  /** When an id is called once, a later result for it still names the call after renaming: always,
      unless the normaliser turns a non-empty id of another model's call into the empty string. */
  lemma ResultsFollowTheirCalls(ms: seq<Message>, model: Model, normalize: Normalizer, i: nat, k: nat, j: nat,
                                id: string)
    requires OnlyCall(ms, i, k, id)
    requires i < j < |ms| && ms[j].ToolResult? && ms[j].toolCallId == id
    ensures var newId, out := NewId(id, ms[i], SameModel(ms[i], model), normalize), FirstPass(ms, model, normalize);
            && out[i].Assistant? && (exists c :: c in out[i].content && c.ToolCall? && c.id == newId)
            && out[j].ToolResult?
            && (out[j].toolCallId == newId <==> (newId != "" || id == ""))
  {
    assert ms[..|ms|] == ms;
    FirstPassAt(ms, |ms|, model, normalize, i);
    FirstPassAt(ms, |ms|, model, normalize, j);
    TableEntry(ms, j, model, normalize, i, k, id);
    CallKept(ms[i].content, ms[i], SameModel(ms[i], model), normalize, k);
  }

  // ---- a second normalisation changes nothing ----

  ghost predicate Idempotent(normalize: Normalizer) {
    forall id, m, m' :: normalize(normalize(id, m), m') == normalize(id, m)
  }

  predicate BlockSettled(b: Block, m: Message, same: bool, normalize: Normalizer)
  {
    BlockFor(b, m, same, normalize) == [b]
  }

  predicate Settled(m: Message, model: Model, normalize: Normalizer) {
    && Downgraded(m, model) == m
    && (m.Assistant? ==> forall b <- m.content :: BlockSettled(b, m, SameModel(m, model), normalize))
  }

  lemma {:induction false} SettledBlocks(blocks: seq<Block>, m: Message, same: bool, normalize: Normalizer,
                                         ids: map<string, string>)
    requires forall b <- blocks :: BlockSettled(b, m, same, normalize)
    ensures BlocksFor(blocks, m, same, normalize) == blocks
    ensures IdsAfterBlocks(ids, blocks, m, same, normalize) == ids
    decreases |blocks|
  {
    if blocks != [] {
      var n := |blocks| - 1;
      SettledBlocks(blocks[..n], m, same, normalize, ids);
      assert BlockSettled(blocks[n], m, same, normalize);
    }
  }

  lemma {:induction false} FirstPassLeavesSettled(ms: seq<Message>, model: Model, normalize: Normalizer)
    requires forall m <- ms :: Settled(m, model, normalize)
    ensures FirstPass(ms, model, normalize) == ms
    ensures IdsAfter(ms, model, normalize) == map[]
    decreases |ms|
  {
    if ms != [] {
      var n := |ms| - 1;
      FirstPassLeavesSettled(ms[..n], model, normalize);
      assert Settled(ms[n], model, normalize);
      if ms[n].Assistant? {
        SettledBlocks(ms[n].content, ms[n], SameModel(ms[n], model), normalize, map[]);
      }
    }
  }

  lemma BlockBecomesSettled(b: Block, m: Message, m': Message, same: bool, normalize: Normalizer)
    requires Idempotent(normalize)
    ensures forall x <- BlockFor(b, m, same, normalize) :: BlockSettled(x, m', same, normalize)
  {
    if b.ToolCall? && !same {
      assert normalize(normalize(b.id, m), m') == normalize(b.id, m);
    }
  }

  lemma {:induction false} BlocksBecomeSettled(blocks: seq<Block>, m: Message, m': Message, same: bool,
                                               normalize: Normalizer)
    requires Idempotent(normalize)
    ensures forall x <- BlocksFor(blocks, m, same, normalize) :: BlockSettled(x, m', same, normalize)
    decreases |blocks|
  {
    if blocks != [] {
      var n := |blocks| - 1;
      BlocksBecomeSettled(blocks[..n], m, m', same, normalize);
      BlockBecomesSettled(blocks[n], m, m', same, normalize);
    }
  }

  lemma MessageBecomesSettled(m: Message, ids: map<string, string>, model: Model, normalize: Normalizer)
    requires Idempotent(normalize)
    ensures Settled(MessageFor(Downgraded(m, model), ids, model, normalize), model, normalize)
  {
    var d := Downgraded(m, model);
    var out := MessageFor(d, ids, model, normalize);
    match m
    case User(content) =>
      if content.Items? {
        ReplacedKeepsTexts(content.items, USER_IMAGE);
        TextsStay(Replaced(content.items, USER_IMAGE), USER_IMAGE);
      }
    case ToolResult(_, _, content, _) =>
      ReplacedKeepsTexts(content, TOOL_IMAGE);
      TextsStay(Replaced(content, TOOL_IMAGE), TOOL_IMAGE);
    case Assistant(content, _, _, _, _) =>
      BlocksBecomeSettled(content, m, out, SameModel(m, model), normalize);
  }

  lemma FirstPassSettles(messages: seq<Message>, model: Model, normalize: Normalizer)
    requires Idempotent(normalize)
    ensures forall m <- FirstPass(DowngradedAll(messages, model), model, normalize) :: Settled(m, model, normalize)
  {
    var ds := DowngradedAll(messages, model);
    var out := FirstPass(ds, model, normalize);
    forall j | 0 <= j < |out| ensures Settled(out[j], model, normalize) {
      assert ds[..|ds|] == ds;
      FirstPassAt(ds, |ds|, model, normalize, j);
      MessageBecomesSettled(messages[j], IdsAfter(ds[..j], model, normalize), model, normalize);
    }
  }

  lemma SyntheticIsSettled(call: Block, model: Model, normalize: Normalizer)
    requires call.ToolCall?
    ensures Settled(Synthetic(call), model, normalize)
  {
    TextsStay(NO_RESULT, TOOL_IMAGE);
  }

  lemma {:induction false} MissingAreSettled(calls: seq<Block>, answered: set<string>, model: Model,
                                             normalize: Normalizer)
    requires forall c <- calls :: c.ToolCall?
    ensures forall m <- Missing(calls, answered) :: Settled(m, model, normalize)
    decreases |calls|
  {
    if calls != [] {
      var n := |calls| - 1;
      MissingAreSettled(calls[..n], answered, model, normalize);
      SyntheticIsSettled(calls[n], model, normalize);
    }
  }

  lemma {:induction false} PairingSettled(ms: seq<Message>, model: Model, normalize: Normalizer)
    requires forall m <- ms :: Settled(m, model, normalize)
    ensures forall m <- PairAll(ms).out :: Settled(m, model, normalize)
    ensures forall m <- SecondPass(ms) :: Settled(m, model, normalize)
    decreases |ms|
  {
    var p := PairAll(ms);
    if ms != [] {
      var n := |ms| - 1;
      PairingSettled(ms[..n], model, normalize);
      assert Settled(ms[n], model, normalize);
    }
    MissingAreSettled(p.pending, p.answered, model, normalize);
  }

  /** Normalising twice for a model is normalising once. */
  lemma TransformIsIdempotent(messages: seq<Message>, model: Model, normalize: Normalizer)
    requires Idempotent(normalize)
    ensures var once := Transformed(messages, model, normalize); Transformed(once, model, normalize) == once
  {
    var first := FirstPass(DowngradedAll(messages, model), model, normalize);
    var once := SecondPass(first);
    FirstPassSettles(messages, model, normalize);
    PairingSettled(first, model, normalize);
    assert DowngradedAll(once, model) == once by {
      forall j | 0 <= j < |once| ensures Downgraded(once[j], model) == once[j]
      {
        assert Settled(once[j], model, normalize);
      }
    }
    FirstPassLeavesSettled(once, model, normalize);
    SecondPassPairs(first);
    SecondPassFixesExactly(once);
  }
}
