/** What every run of the agent loop promises. */
module AgentTheorems {
  import opened Common
  import opened AgentTypes
  import opened ToolCalls
  import opened ToolExecution
  import opened AgentLoop

  // ---- what a list of turns looks like through each projection ----

  lemma {:induction false} AnnouncedAllBatch(messages: seq<Message>)
    ensures BatchEvents(AnnouncedAll(messages), [], messages)
    decreases |messages|
  {
    if messages != [] {
      var front, last := messages[..|messages| - 1], messages[|messages| - 1];
      AnnouncedAllBatch(front);
      AnnouncedBatch(last);
      BatchConcat(AnnouncedAll(front), [], front, Announced(last), [], [last]);
      assert front + [last] == messages;
    }
  }

  /** Counts of tool starts and ends match, never run ahead, and the completed messages and the
      life cycle are as given; no message is left unfinished. */
  ghost predicate Looks(trace: seq<Event>, messages: seq<Message>, cycle: seq<Event>) {
    && Starts(trace) == Ends(trace) && Balanced(trace)
    && Completed(trace) == messages
    && Lifecycle(trace) == cycle
    && StreamingAfter(trace) == None
  }

  lemma LooksConcat(a: seq<Event>, ms: seq<Message>, c: seq<Event>, b: seq<Event>, ns: seq<Message>, d: seq<Event>)
    requires Looks(a, ms, c) && Looks(b, ns, d)
    ensures Looks(a + b, ms + ns, c + d)
  {
    ToolCountsConcat(a, b);
    BalancedAppend(a, b);
    CompletedConcat(a, b);
    LifecycleConcat(a, b);
    StreamingConcat(a, b);
  }

  lemma CycleEventLooks(e: Event)
    requires IsLifecycle(e)
    ensures Looks([e], [], [e])
  {
    var none: seq<Event> := [];
    Append(none, e);
    assert none + [e] == [e];
  }

  lemma TurnLooks(t: Turn, s: TurnScript)
    requires TurnFollows(t, s)
    ensures Looks(TurnEvents(t), TurnMessages(t), [TurnEnd(t.reply, t.results)])
  {
    var injected := Untagged(t.injected);
    AnnouncedAllBatch(injected);
    assert Looks(t.toolEvents, t.results, []);
    LooksConcat(AnnouncedAll(injected), injected, [], t.streamed, [t.reply], []);
    LooksConcat(AnnouncedAll(injected) + t.streamed, injected + [t.reply], [], t.toolEvents, t.results, []);
    CycleEventLooks(TurnEnd(t.reply, t.results));
    LooksConcat(AnnouncedAll(injected) + t.streamed + t.toolEvents, TurnMessages(t), [],
                [TurnEnd(t.reply, t.results)], [], [TurnEnd(t.reply, t.results)]);
    assert TurnMessages(t) + [] == TurnMessages(t);
    assert [] + [TurnEnd(t.reply, t.results)] == [TurnEnd(t.reply, t.results)];
  }

  /** turn_start and turn_end strictly alternate; the first turn_start belongs to the opening. */
  function Cycle(turns: seq<Turn>): seq<Event> {
    if turns == [] then []
    else
      var t := turns[|turns| - 1];
      Cycle(turns[..|turns| - 1]) + (if |turns| > 1 then [TurnStart] else []) + [TurnEnd(t.reply, t.results)]
  }

  lemma FrontFollows(script: seq<TurnScript>, turns: seq<Turn>, n: nat)
    requires Follows(script, turns) && n <= |turns|
    ensures Follows(script, turns[..n])
  {
    forall k | 0 <= k < n ensures FollowsAt(script, turns[..n], k) {
      assert FollowsAt(script, turns, k);
    }
  }

  lemma {:induction false} BodyLooks(turns: seq<Turn>, script: seq<TurnScript>)
    requires Follows(script, turns)
    ensures Looks(Body(turns), Added(turns), Cycle(turns))
    decreases |turns|
  {
    if turns != [] {
      var front, t := turns[..|turns| - 1], turns[|turns| - 1];
      FrontFollows(script, turns, |turns| - 1);
      BodyLooks(front, script);
      var opening := if |turns| > 1 then [TurnStart] else [];
      CycleEventLooks(TurnStart);
      assert Looks([], [], []);
      LooksConcat(Body(front), Added(front), Cycle(front), opening, [], opening);
      assert FollowsAt(script, turns, |turns| - 1);
      TurnLooks(t, script[|turns| - 1]);
      LooksConcat(Body(front) + opening, Added(front) + [], Cycle(front) + opening,
                  TurnEvents(t), TurnMessages(t), [TurnEnd(t.reply, t.results)]);
      assert Added(front) + [] == Added(front);
    }
  }

  lemma TraceLooks(prompts: seq<Message>, turns: seq<Turn>, script: seq<TurnScript>)
    requires Follows(script, turns)
    ensures Looks(TraceOf(prompts, turns), prompts + Added(turns), [AgentStart, TurnStart] + Cycle(turns))
  {
    CycleEventLooks(AgentStart);
    CycleEventLooks(TurnStart);
    LooksConcat([AgentStart], [], [AgentStart], [TurnStart], [], [TurnStart]);
    assert [AgentStart] + [TurnStart] == [AgentStart, TurnStart];
    AnnouncedAllBatch(prompts);
    LooksConcat([AgentStart, TurnStart], [] + [], [AgentStart, TurnStart], AnnouncedAll(prompts), prompts, []);
    assert [] + [] + prompts == prompts;
    assert [AgentStart, TurnStart] + [] == [AgentStart, TurnStart];
    BodyLooks(turns, script);
    LooksConcat(Prelude(prompts), prompts, [AgentStart, TurnStart], Body(turns), Added(turns), Cycle(turns));
  }

  // ---- the promises ----

  lemma Totals(start: Start, script: seq<TurnScript>, r: Run)
    requires Core(start, script, r)
    ensures Follows(script, r.turns) && r.newMessages == start.prompts + Added(r.turns)
  {
    assert RecordedAt(start, script, r.turns, r.contexts, r.newMessages, r.context, |r.turns|);
    assert r.turns[..|r.turns|] == r.turns;
  }

  /** A finished run starts once, alternates turn_start and turn_end, and ends once, last; the
      completed messages in order are those carried by agent_end. */
  lemma RunGrammar(start: Start, script: seq<TurnScript>, r: Run)
    requires Over(start, script, r)
    ensures Lifecycle(r.trace) == [AgentStart, TurnStart] + Cycle(r.turns) + [AgentEnd(r.newMessages)]
    ensures |Cycle(r.turns)| == 2 * |r.turns| - 1
    ensures forall i :: 0 <= i < |Cycle(r.turns)| ==>
        if i % 2 == 0 then Cycle(r.turns)[i].TurnEnd? else Cycle(r.turns)[i].TurnStart?
    ensures Completed(r.trace) == r.newMessages
  {
    var last := AgentEnd(r.newMessages);
    Totals(start, script, r);
    TraceLooks(start.prompts, r.turns, script);
    CycleEventLooks(last);
    LooksConcat(TraceOf(start.prompts, r.turns), r.newMessages, [AgentStart, TurnStart] + Cycle(r.turns), [last], [],
                [last]);
    assert r.newMessages + [] == r.newMessages;
    CycleAlternates(r.turns);
  }

  /** The same holds of a run that is not over: up to a turn boundary the life cycle has alternated, and
      the completed messages are the prompts and the turns so far; a cut anywhere shows a prefix. */
  lemma UnfinishedGrammar(start: Start, script: seq<TurnScript>, r: Run, k: nat)
    requires Between(start, script, r) && k <= |r.trace|
    ensures Lifecycle(r.trace) == [AgentStart, TurnStart] + Cycle(r.turns)
    ensures Completed(r.trace) == start.prompts + Added(r.turns)
    ensures Lifecycle(r.trace[..k]) <= [AgentStart, TurnStart] + Cycle(r.turns)
    ensures Completed(r.trace[..k]) <= start.prompts + Added(r.turns)
  {
    ShowsTrace(start.prompts, r.turns, r.trace);
    TraceLooks(start.prompts, r.turns, script);
    PrefixOfRun(r.trace, k);
  }

  lemma {:induction false} CycleAlternates(turns: seq<Turn>)
    ensures |Cycle(turns)| == if turns == [] then 0 else 2 * |turns| - 1
    ensures Alternates(Cycle(turns))
    decreases |turns|
  {
    if turns != [] {
      var front, t := Cycle(turns[..|turns| - 1]), turns[|turns| - 1];
      CycleAlternates(turns[..|turns| - 1]);
      if |turns| > 1 { AlternatesNext(front, TurnEnd(t.reply, t.results)); }
    }
  }

  predicate Alternates(cycle: seq<Event>) {
    forall i :: 0 <= i < |cycle| ==> if i % 2 == 0 then cycle[i].TurnEnd? else cycle[i].TurnStart?
  }

  lemma AlternatesNext(front: seq<Event>, end: Event)
    requires Alternates(front) && |front| % 2 == 1 && end.TurnEnd?
    ensures Alternates(front + [TurnStart] + [end])
  {
  }

  /** Whatever prefix of a trace has been seen, its life cycle and its completed messages are
      prefixes of the whole run's. */
  lemma PrefixOfRun(trace: seq<Event>, k: nat)
    requires k <= |trace|
    ensures Lifecycle(trace[..k]) <= Lifecycle(trace)
    ensures Completed(trace[..k]) <= Completed(trace)
  {
    assert trace == trace[..k] + trace[k..];
    LifecycleConcat(trace[..k], trace[k..]);
    CompletedConcat(trace[..k], trace[k..]);
  }

  lemma {:induction false} NoSurplus(script: seq<TurnScript>, n: nat)
    requires n <= |script|
    ensures Surpluses(script, n) == 0 <==> forall k :: 0 <= k < n ==> Begins(script[k].stream.events) <= 1
  {
    if n > 0 {
      NoSurplus(script, n - 1);
    }
  }

  lemma LastOfTrace(prompts: seq<Message>, turns: seq<Turn>)
    requires turns != []
    ensures var trace, t := TraceOf(prompts, turns), turns[|turns| - 1];
            trace != [] && trace[|trace| - 1] == TurnEnd(t.reply, t.results)
  {
    var t := turns[|turns| - 1];
    assert TurnEvents(t)[|TurnEvents(t)| - 1] == TurnEnd(t.reply, t.results);
    assert Body(turns)[|Body(turns)| - 1] == TurnEnd(t.reply, t.results);
  }

  lemma ReducedSoFar(start: Start, script: seq<TurnScript>, turns: seq<Turn>, s: AgentState)
    requires Follows(script, turns) && turns != [] && s.messages == start.base && s.pendingToolCalls == {}
    ensures var soFar, t := TraceOf(start.prompts, turns), turns[|turns| - 1];
            && soFar != [] && soFar[|soFar| - 1] == TurnEnd(t.reply, t.results)
            && ReduceAll(s, soFar).messages == start.base + (start.prompts + Added(turns))
            && ReduceAll(s, soFar).pendingToolCalls == {}
            && (s.streaming == None ==> ReduceAll(s, soFar).streaming == None)
  {
    TraceLooks(start.prompts, turns, script);
    SameStreaming(s.(streaming := None), IDLE, TraceOf(start.prompts, turns));
    ReducedMessages(s, TraceOf(start.prompts, turns));
    NothingPending(s, TraceOf(start.prompts, turns));
    LastOfTrace(start.prompts, turns);
  }

  /** At each turn_end the agent's reduced transcript is the old one, the prompts and the turns so
      far, and no tool is pending. The loop's own context is that same transcript exactly when no
      stream so far began a message twice. */
  lemma TranscriptsAgreeExactlyWhen(start: Start, script: seq<TurnScript>, r: Run, n: nat, s: AgentState)
    requires Core(start, script, r) && TraceOf(start.prompts, r.turns) <= r.trace
    requires 0 < n <= |r.turns|
    requires s.messages == start.base && s.pendingToolCalls == {}
    ensures var soFar := TraceOf(start.prompts, r.turns[..n]);
            var reduced := ReduceAll(s, soFar);
            && soFar <= r.trace
            && soFar != [] && soFar[|soFar| - 1] == TurnEnd(r.turns[n - 1].reply, r.turns[n - 1].results)
            && reduced.messages == start.base + (start.prompts + Added(r.turns[..n]))
            && reduced.pendingToolCalls == {} && (s.streaming == None ==> reduced.streaming == None)
            && (r.contexts[n - 1] == reduced.messages
                <==> forall k :: 0 <= k < n ==> Begins(script[k].stream.events) <= 1)
  {
    FrontFollows(script, r.turns, n);
    TracePrefix(start.prompts, r.turns, n);
    ReducedSoFar(start, script, r.turns[..n], s);
    NoSurplus(script, n);
    assert r.turns[..n][n - 1] == r.turns[n - 1];
    assert RecordedAt(start, script, r.turns, r.contexts, r.newMessages, r.context, n);
  }

  // ---- what a stream shows ----

  /** The last partial message in the context. */
  function LastPartial(events: seq<StreamEvent>, n: nat): Option<Message>
    requires n <= |events|
  {
    var partials := Partials(events, n);
    if partials == [] then None else Some(partials[|partials| - 1])
  }

  /** After each event of a stream the agent shows the last partial message in the context. */
  lemma {:induction false} StreamedIsLastPartial(events: seq<StreamEvent>, n: nat)
    requires n <= |events|
    ensures StreamingAfter(StreamEvents(events, n)) == LastPartial(events, n)
  {
    if n > 0 {
      StreamedIsLastPartial(events, n - 1);
      match events[n - 1] {
        case Begin(partial) => ReduceLast(IDLE, StreamEvents(events, n - 1), MessageStart(partial));
        case Delta(partial) => ReduceLast(IDLE, StreamEvents(events, n - 1), MessageUpdate(partial));
        case Finish =>
      }
    }
  }

  /** The number of events in front of the first start. */
  function Unopened(events: seq<StreamEvent>): (n: nat)
    ensures n <= |events| && (n < |events| ==> events[n].Begin?)
    ensures forall k :: 0 <= k < n ==> !events[k].Begin?
  {
    if events == [] || events[0].Begin? then 0 else 1 + Unopened(events[1..])
  }

  /** The event that shows one event of a stream. */
  function Shown(e: StreamEvent): Event
    requires !e.Finish?
  {
    match e case Begin(partial) => MessageStart(partial) case Delta(partial) => MessageUpdate(partial)
  }

  /** Event `j` of what is shown is that of the stream, counted from its first start. */
  predicate ShownAt(events: seq<StreamEvent>, first: nat, shown: seq<Event>, j: nat) {
    && j < |shown| && first + j < |events| && !events[first + j].Finish?
    && shown[j] == Shown(events[first + j])
  }

  /** What is shown of the first `n` events. */
  ghost predicate ShowsEach(events: seq<StreamEvent>, first: nat, n: nat, shown: seq<Event>) {
    && |shown| == (if n <= first then 0 else n - first)
    && forall j :: 0 <= j < |shown| ==> ShownAt(events, first, shown, j)
  }

  lemma ShowsNext(events: seq<StreamEvent>, first: nat, n: nat, shown: seq<Event>, e: Event)
    requires ShowsEach(events, first, n, shown) && first <= n < |events|
    requires !events[n].Finish? && e == Shown(events[n])
    ensures ShowsEach(events, first, n + 1, shown + [e])
  {
    forall j | 0 <= j < |shown + [e]| ensures ShownAt(events, first, shown + [e], j) {
      if j < |shown| { assert ShownAt(events, first, shown, j); }
    }
  }

  /** Nothing is shown up to the first start; from there on each event of the stream shows in one event. */
  lemma {:induction false} ShownOneByOne(events: seq<StreamEvent>, n: nat)
    requires n <= Unfinished(events)
    ensures Partials(events, n) == [] <==> n <= Unopened(events)
    ensures ShowsEach(events, Unopened(events), n, StreamEvents(events, n))
  {
    if n > 0 {
      ShownOneByOne(events, n - 1);
      if Unopened(events) < n {
        ShowsNext(events, Unopened(events), n - 1, StreamEvents(events, n - 1), Shown(events[n - 1]));
      }
    }
  }

  lemma {:induction false} BeginsAfterOpening(events: seq<StreamEvent>)
    ensures Begins(events) == 0 <==> Unfinished(events) <= Unopened(events)
  {
    if events != [] && !events[0].Finish? && !events[0].Begin? {
      BeginsAfterOpening(events[1..]);
    }
  }

  /** A reply that begins is started where it begins and updated by everything behind that, in order; one that never
      begins is started once, complete. Either way it is ended once, last. */
  lemma ReplyIsShown(s: StreamScript)
    ensures var first, shown := Unopened(s.events), ReplyEvents(s);
            && (Begins(s.events) == 0 ==> shown == [MessageStart(s.final), MessageEnd(s.final)])
            && (Begins(s.events) > 0 ==>
                  && first + |shown| == Unfinished(s.events) + 1 && shown[|shown| - 1] == MessageEnd(s.final)
                  && forall j :: 0 <= j < |shown| - 1 ==> ShownAt(s.events, first, shown, j))
  {
    BeginsAfterOpening(s.events);
    ShownOneByOne(s.events, Unfinished(s.events));
    var streamed := StreamEvents(s.events, Unfinished(s.events));
    forall j | 0 <= j < |streamed| ensures ShownAt(s.events, Unopened(s.events), ReplyEvents(s), j) {
      assert ShownAt(s.events, Unopened(s.events), streamed, j);
    }
  }

  /** What has been emitted when turn `n` begins to stream. */
  function BeforeStream(prompts: seq<Message>, turns: seq<Turn>, n: nat): seq<Event>
    requires n < |turns|
  {
    TraceOf(prompts, turns[..n]) + Opening(turns[..n]) + AnnouncedAll(Untagged(turns[n].injected))
  }

  lemma BeforeStreamLooks(prompts: seq<Message>, turns: seq<Turn>, script: seq<TurnScript>, n: nat)
    requires Follows(script, turns) && n < |turns|
    ensures var before := BeforeStream(prompts, turns, n);
            && StreamingAfter(before) == None
            && Completed(before) == prompts + Added(turns[..n]) + Untagged(turns[n].injected)
  {
    var injected := Untagged(turns[n].injected);
    FrontFollows(script, turns, n);
    TraceLooks(prompts, turns[..n], script);
    CycleEventLooks(TurnStart);
    assert Looks([], [], []);
    var cycle := [AgentStart, TurnStart] + Cycle(turns[..n]);
    LooksConcat(TraceOf(prompts, turns[..n]), prompts + Added(turns[..n]), cycle, Opening(turns[..n]), [],
                Opening(turns[..n]));
    AnnouncedAllBatch(injected);
    LooksConcat(TraceOf(prompts, turns[..n]) + Opening(turns[..n]), prompts + Added(turns[..n]) + [],
                cycle + Opening(turns[..n]), AnnouncedAll(injected), injected, []);
    assert prompts + Added(turns[..n]) + [] == prompts + Added(turns[..n]);
  }

  lemma {:induction false} StreamIsInTrace(prompts: seq<Message>, turns: seq<Turn>, n: nat, streamed: seq<Event>)
    requires n < |turns| && streamed <= turns[n].streamed
    ensures BeforeStream(prompts, turns, n) + streamed <= TraceOf(prompts, turns)
  {
    var t := turns[n];
    var injected := AnnouncedAll(Untagged(t.injected));
    TraceGrows(prompts, turns[..n], t);
    assert turns[..n + 1] == turns[..n] + [t];
    TracePrefix(prompts, turns, n + 1);
    Associate(TraceOf(prompts, turns[..n]) + Opening(turns[..n]), injected, streamed);
    assert injected + streamed <= TurnEvents(t);
  }

  lemma {:induction false} StreamedSoFar(s: StreamScript, k: nat, n: nat)
    requires k <= n <= |s.events|
    ensures StreamEvents(s.events, k) <= StreamEvents(s.events, n)
    decreases n
  {
    if k < n {
      StreamedSoFar(s, k, n - 1);
    }
  }

  /** In the middle of turn `n`, when `k` events of its stream have come: what the agent shows as streaming is the last
      partial message in the loop's context, and its messages are those completed before. */
  lemma PartialsAreShown(start: Start, script: seq<TurnScript>, r: Run, n: nat, k: nat, s: AgentState)
    requires Core(start, script, r) && TraceOf(start.prompts, r.turns) <= r.trace
    requires n < |r.turns| && k <= Unfinished(script[n].stream.events)
    requires s.messages == start.base && s.streaming == None
    ensures var soFar := BeforeStream(start.prompts, r.turns, n) + StreamEvents(script[n].stream.events, k);
            && soFar <= r.trace
            && ReduceAll(s, soFar).streaming == LastPartial(script[n].stream.events, k)
            && ReduceAll(s, soFar).messages
               == start.base + (start.prompts + Added(r.turns[..n]) + Untagged(r.turns[n].injected))
  {
    var stream := script[n].stream;
    var before, streamed := BeforeStream(start.prompts, r.turns, n), StreamEvents(stream.events, k);
    assert FollowsAt(script, r.turns, n);
    StreamedSoFar(stream, k, Unfinished(stream.events));
    StreamIsInTrace(start.prompts, r.turns, n, streamed);
    BeforeStreamLooks(start.prompts, r.turns, script, n);
    StreamingConcat(before, streamed);
    StreamedIsLastPartial(stream.events, k);
    SameStreaming(s, IDLE, before + streamed);
    ReducedMessages(s, before + streamed);
    CompletedConcat(before, streamed);
    NothingCompleted(stream.events, k);
  }

  lemma {:induction false} NothingCompleted(events: seq<StreamEvent>, n: nat)
    requires n <= |events|
    ensures Completed(StreamEvents(events, n)) == []
  {
    if n > 0 {
      NothingCompleted(events, n - 1);
      var front := StreamEvents(events, n - 1);
      match events[n - 1] {
        case Begin(partial) => CompletedNext(front, MessageStart(partial), front + [MessageStart(partial)]);
        case Delta(partial) => CompletedNext(front, MessageUpdate(partial), front + [MessageUpdate(partial)]);
        case Finish =>
      }
    }
  }

  /** A stream that starts a message twice: the context keeps the first partial message in front of the
      reply, the reduced transcript does not. */
  method SecondStartLeavesAPartial(user: Message, first: Message, second: Message, reply: Message, s: AgentState)
    returns (context: seq<Message>, reduced: AgentState)
    requires s.messages == [user]
    ensures context == [user, first, reply] && reduced.messages == [user, reply]
  {
    var script := StreamScript([Begin(first), Begin(second), Finish], reply);
    var events, message;
    context, events, message := StreamAssistantResponse([user], script);
    reduced := ReduceAll(s, events);
    ReducedMessages(s, events);
    assert script.events[1..][1..] == [Finish];
    assert Unfinished(script.events[1..]) == 1;
    assert Partials(script.events, 1) == [] + [first];
  }

  /** Over a whole run the reduced transcript is the old one followed by the returned messages. */
  lemma ReducedAtEnd(start: Start, script: seq<TurnScript>, r: Run, s: AgentState)
    requires Over(start, script, r)
    requires s.messages == start.base && s.pendingToolCalls == {}
    ensures ReduceAll(s, r.trace).messages == start.base + r.newMessages
    ensures ReduceAll(s, r.trace).pendingToolCalls == {}
    ensures ReduceAll(s, r.trace).streaming == None
  {
    Totals(start, script, r);
    TraceLooks(start.prompts, r.turns, script);
    EndOfTrace(s, TraceOf(start.prompts, r.turns), r.newMessages, [AgentStart, TurnStart] + Cycle(r.turns));
  }

  lemma EndOfTrace(s: AgentState, front: seq<Event>, newMessages: seq<Message>, cycle: seq<Event>)
    requires Looks(front, newMessages, cycle) && s.pendingToolCalls == {}
    ensures var end := ReduceAll(s, front + [AgentEnd(newMessages)]);
            end.messages == s.messages + newMessages && end.pendingToolCalls == {} && end.streaming == None
  {
    ReducedMessages(s, front);
    NothingPending(s, front);
    ReduceLast(s, front, AgentEnd(newMessages));
  }

  lemma ReduceLast(s: AgentState, front: seq<Event>, last: Event)
    ensures ReduceAll(s, front + [last]) == Reduce(ReduceAll(s, front), last)
  {
    assert (front + [last])[..|front|] == front;
  }

  /** Everything injected, in order. */
  function Injected(turns: seq<Turn>): seq<Queued> {
    if turns == [] then [] else Injected(turns[..|turns| - 1]) + turns[|turns| - 1].injected
  }

  lemma {:induction false} FromConcat(source: Source, a: seq<Queued>, b: seq<Queued>)
    ensures From(source, a + b) == From(source, a) + From(source, b)
    decreases |b|
  {
    if b == [] {
      assert a + b == a;
    } else {
      assert (a + b)[..|a + b| - 1] == a + b[..|b| - 1];
      FromConcat(source, a, b[..|b| - 1]);
    }
  }

  lemma {:induction false} InjectedInOrder(source: Source, turns: seq<Turn>)
    ensures From(source, Injected(turns)) == InjectedFrom(source, turns)
    decreases |turns|
  {
    if turns != [] {
      InjectedInOrder(source, turns[..|turns| - 1]);
      FromConcat(source, Injected(turns[..|turns| - 1]), turns[|turns| - 1].injected);
    }
  }

  /** All messages of the two queues in order: injected, about to be injected, or left in the queue. */
  function Carried(r: Run, left: Arrivals): Arrivals {
    Arrivals(From(Steering, Injected(r.turns)) + (From(Steering, r.pending) + left.steering),
             From(FollowUp, Injected(r.turns)) + (From(FollowUp, r.pending) + left.followUps))
  }

  /** Every message that was ever queued, before the run or while it was on, has been injected, is about
      to be, or is still queued: in the order in which it was queued, and once. */
  lemma QueuesAreFifo(start: Start, script: seq<TurnScript>, r: Run)
    requires RanFrom(start, script, r)
    ensures Carried(r, Left(r)) == AllArrived(start, script, r.turns)
    ensures Over(start, script, r) ==> r.pending == []
  {
    InjectedInOrder(Steering, r.turns);
    InjectedInOrder(FollowUp, r.turns);
    assert Kept(Steering, r.turns, r.pending, Left(r), r.arrived);
    assert Kept(FollowUp, r.turns, r.pending, Left(r), r.arrived);
  }

  /** A run whose first poll is skipped injects nothing before its first reply. */
  lemma SkippedPoll(start: Start, script: seq<TurnScript>, r: Run)
    requires RanFrom(start, script, r) && start.skipInitialPoll
    ensures r.turns != [] ==> r.turns[0].injected == []
  {
    if r.turns != [] {
      assert TimelyAt(start, script, r.turns, 0);
    }
  }

  /** Messages queued in front of a run come first among all that arrive. */
  lemma {:induction false} QueuedFirst(start: Start, script: seq<TurnScript>, turns: seq<Turn>, queued: Start,
                                       front: Arrivals)
    requires |turns| <= |script|
    requires queued.steering == front.steering + start.steering && queued.followUps == front.followUps + start.followUps
    ensures ArrivedBy(queued, script, turns) == Plus(front, ArrivedBy(start, script, turns))
    ensures AllArrived(queued, script, turns) == Plus(front, AllArrived(start, script, turns))
    decreases |turns|
  {
    if turns != [] {
      var n := |turns| - 1;
      QueuedFirst(start, script, turns[..n], queued, front);
      var before := AllArrived(start, script, turns[..n]);
      PlusAssociates(front, before, Preparing(script, n));
      PlusAssociates(front, Plus(before, Preparing(script, n)), script[n].duringTurn);
      PlusAssociates(front, ArrivedBy(start, script, turns), script[n].beforeFollowUpPoll);
    }
  }

  lemma PlusAssociates(a: Arrivals, b: Arrivals, c: Arrivals)
    ensures Plus(Plus(a, b), c) == Plus(a, Plus(b, c))
  {
    Associate(a.steering, b.steering, c.steering);
    Associate(a.followUps, b.followUps, c.followUps);
  }

  lemma PollIsSingle(start: Start, source: Source, turns: seq<Turn>, arrived: Arrivals, q: Queued)
    requires q in PollOf(start, source, turns, arrived)
    ensures q.source == source && (ModeOf(start, source).OneAtATime? ==> PollOf(start, source, turns, arrived) == [q])
  {
  }

  /** A follow-up is injected only after a turn whose tools ask for nothing more and whose steering
      poll was empty; a message of a queue in one-at-a-time mode comes alone. */
  lemma FollowUpsWait(start: Start, script: seq<TurnScript>, r: Run, k: nat, q: Queued)
    requires RanFrom(start, script, r)
    requires k < |r.turns| && q in r.turns[k].injected
    ensures q.source == FollowUp ==> k > 0 && !r.turns[k - 1].continues && r.turns[k - 1].polled == []
    ensures ModeOf(start, q.source).OneAtATime? ==> r.turns[k].injected == [q]
  {
    InjectedIsSingle(start, script, r.turns, k, q);
  }

  lemma InjectedIsSingle(start: Start, script: seq<TurnScript>, turns: seq<Turn>, k: nat, q: Queued)
    requires Timely(start, script, turns) && k < |turns| && q in turns[k].injected
    ensures q.source == FollowUp ==> k > 0 && !turns[k - 1].continues && turns[k - 1].polled == []
    ensures ModeOf(start, q.source).OneAtATime? ==> turns[k].injected == [q]
  {
    assert TimelyAt(start, script, turns, k);
    var before := turns[..k];
    if k > 0 {
      assert TimelyAt(start, script, turns, k - 1);
      assert before[k - 1] == turns[k - 1];
    }
    NextIsSingle(start, script, before, q);
  }

  lemma NextIsSingle(start: Start, script: seq<TurnScript>, turns: seq<Turn>, q: Queued)
    requires |turns| < |script| && q in NextInjected(start, script, turns)
    requires turns != [] && turns[|turns| - 1].polled != [] ==>
               turns[|turns| - 1].polled == PollOf(start, Steering, turns, ArrivedBy(start, script, turns))
    ensures q.source == FollowUp ==>
              turns != [] && !turns[|turns| - 1].continues && turns[|turns| - 1].polled == []
    ensures ModeOf(start, q.source).OneAtATime? ==> NextInjected(start, script, turns) == [q]
  {
    if turns == [] {
      FirstIsSingle(start, q);
    } else if turns[|turns| - 1].polled != [] {
      PollIsSingle(start, Steering, turns, ArrivedBy(start, script, turns), q);
    } else if Awaited(start, script, turns) != [] {
      PollIsSingle(start, FollowUp, turns, AllArrived(start, script, turns), q);
    } else {
      PollIsSingle(start, Steering, turns, Plus(AllArrived(start, script, turns), script[|turns|].duringPreparation),
                   q);
    }
  }

  lemma FirstIsSingle(start: Start, q: Queued)
    requires q in FirstPoll(start)
    ensures q.source == Steering && (start.steeringMode.OneAtATime? ==> FirstPoll(start) == [q])
  {
  }

  /** Steering does not wait: what is queued when a turn is over is injected into the next one. */
  lemma SteeringIsPrompt(start: Start, script: seq<TurnScript>, r: Run, k: nat)
    requires RanFrom(start, script, r) && k + 1 < |r.turns|
    ensures var soFar := r.turns[..k + 1];
            var queue := QueueOf(Steering, soFar, ArrivedBy(start, script, soFar));
            && (queue != [] ==> r.turns[k + 1].injected == Tagged(Steering, Drain(start.steeringMode, queue).0))
            && (queue != [] && start.steeringMode.All? ==> r.turns[k + 1].injected == Tagged(Steering, queue))
  {
    var soFar := r.turns[..k + 1];
    var queue := QueueOf(Steering, soFar, ArrivedBy(start, script, soFar));
    assert TimelyAt(start, script, r.turns, k) && TimelyAt(start, script, r.turns, k + 1);
    assert r.turns[k].polled == Tagged(Steering, Drain(start.steeringMode, queue).0);
  }

  /** A reply that failed or was aborted runs no tools; it ends the run, and so does a request to stop. */
  lemma FailureEndsTheRun(start: Start, script: seq<TurnScript>, r: Run, k: nat)
    requires RanFrom(start, script, r) && k < |r.turns| <= |script|
    ensures var reply := r.turns[k].reply;
            var failed := reply.Assistant? && (reply.stopReason == Error || reply.stopReason == Aborted);
            && (failed ==> r.turns[k].results == [] && r.turns[k].toolEvents == [])
            && (failed || script[k].stopAfterTurn ==> k == |r.turns| - 1 && Over(start, script, r))
  {
    FailedTurn(script, r.turns, k);
    if k + 1 < |r.turns| {
      OnlyBehindSuccess(start, script, r.turns, k);
    }
  }

  lemma FailedTurn(script: seq<TurnScript>, turns: seq<Turn>, k: nat)
    requires Follows(script, turns) && k < |turns|
    ensures Failed(turns[k].reply) ==> turns[k].results == [] && turns[k].toolEvents == []
  {
    assert FollowsAt(script, turns, k);
  }

  lemma OnlyBehindSuccess(start: Start, script: seq<TurnScript>, turns: seq<Turn>, k: nat)
    requires Timely(start, script, turns) && k + 1 < |turns|
    ensures !Failed(turns[k].reply) && !script[k].stopAfterTurn
  {
    assert TimelyAt(start, script, turns, k + 1);
    assert turns[..k + 1][k] == turns[k];
  }

  /** A run that ends on its own leaves nothing in the queues but steering messages that came after its last
      steering poll. */
  lemma NothingIsLeft(start: Start, script: seq<TurnScript>, r: Run)
    requires Over(start, script, r)
    requires !Failed(r.turns[|r.turns| - 1].reply) && !script[|r.turns| - 1].stopAfterTurn
    ensures r.followUps == [] && r.steering == script[|r.turns| - 1].beforeFollowUpPoll.steering
    ensures From(FollowUp, Injected(r.turns)) == AllArrived(start, script, r.turns).followUps
    ensures From(Steering, Injected(r.turns)) == ArrivedBy(start, script, r.turns).steering
  {
    QueuesAreFifo(start, script, r);
    var steering, followUps := From(Steering, Injected(r.turns)), From(FollowUp, Injected(r.turns));
    assert steering + ([] + r.steering) == ArrivedBy(start, script, r.turns).steering + r.steering;
    assert followUps + ([] + []) == followUps;
    SameFront(steering, ArrivedBy(start, script, r.turns).steering, r.steering);
  }

  lemma SameFront<T>(a: seq<T>, b: seq<T>, c: seq<T>)
    requires a + ([] + c) == b + c
    ensures a == b
  {
    assert [] + c == c && |a| == |b|;
    assert a == (a + c)[..|a|] && b == (b + c)[..|b|];
  }
}
