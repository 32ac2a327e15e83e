/** The agent loop: turns of one assistant reply and its tool calls, with messages injected
    between them from a steering and a follow-up queue. */
module AgentLoop {
  import opened Common
  import opened AgentTypes
  import opened ToolCalls
  import opened ToolExecution

  // ---- queues ----

  datatype QueueMode = All | OneAtATime

  /** What a poll takes from a queue, and what it leaves. */
  function Drain(mode: QueueMode, queue: seq<Message>): (r: (seq<Message>, seq<Message>))
    ensures r.0 + r.1 == queue
    ensures mode.OneAtATime? ==> |r.0| <= 1
    ensures mode.All? ==> r.1 == []
    ensures r.0 == [] ==> queue == []
  {
    if mode.All? then (queue, [])
    else if queue == [] then ([], [])
    else ([queue[0]], queue[1..])
  }

  datatype Source = Steering | FollowUp

  /** A queued message together with the queue it came from. */
  datatype Queued = Queued(source: Source, message: Message)

  function Tagged(source: Source, messages: seq<Message>): (r: seq<Queued>)
    ensures |r| == |messages|
  {
    seq(|messages|, k requires 0 <= k < |messages| => Queued(source, messages[k]))
  }

  function Untagged(queued: seq<Queued>): (r: seq<Message>)
    ensures |r| == |queued|
  {
    seq(|queued|, k requires 0 <= k < |queued| => queued[k].message)
  }

  /** The messages of one queue, in order. */
  function From(source: Source, queued: seq<Queued>): seq<Message> {
    if queued == [] then []
    else
      var front, last := From(source, queued[..|queued| - 1]), queued[|queued| - 1];
      if last.source == source then front + [last.message] else front
  }

  lemma {:induction false} FromTagged(source: Source, tag: Source, messages: seq<Message>)
    ensures From(source, Tagged(tag, messages)) == if source == tag then messages else []
    decreases |messages|
  {
    if messages != [] {
      var front := messages[..|messages| - 1];
      FromTagged(source, tag, front);
      assert Tagged(tag, messages)[..|messages| - 1] == Tagged(tag, front);
    }
  }

  // ---- streaming one reply ----

  datatype StreamEvent = Begin(partial: Message) | Delta(partial: Message) | Finish

  datatype StreamScript = StreamScript(events: seq<StreamEvent>, final: Message)

  /** How often a partial message is started before the stream finishes. */
  function Begins(events: seq<StreamEvent>): nat {
    if events == [] || events[0].Finish? then 0
    else (if events[0].Begin? then 1 else 0) + Begins(events[1..])
  }

  /** The partial messages in the context after `n` events of a stream: each start adds one, and an update
      replaces the last. */
  function Partials(events: seq<StreamEvent>, n: nat): seq<Message>
    requires n <= |events|
  {
    if n == 0 then []
    else
      var partials := Partials(events, n - 1);
      match events[n - 1]
      case Begin(partial) => partials + [partial]
      case Delta(partial) => if partials == [] then [] else partials[..|partials| - 1] + [partial]
      case Finish => partials
  }

  /** The number of events before the stream finishes. */
  function Unfinished(events: seq<StreamEvent>): (n: nat)
    ensures n <= |events| && forall k :: 0 <= k < n ==> !events[k].Finish?
  {
    if events == [] || events[0].Finish? then 0 else 1 + Unfinished(events[1..])
  }

  /** What is left of the partial messages when the last of them has become the reply. */
  function LeftBehind(s: StreamScript): seq<Message> {
    var partials := Partials(s.events, Unfinished(s.events));
    if partials == [] then [] else partials[..|partials| - 1]
  }

  /** The events that show the first `n` events of a stream: a start is announced, an update only behind a start. */
  function StreamEvents(events: seq<StreamEvent>, n: nat): seq<Event>
    requires n <= |events|
  {
    if n == 0 then []
    else
      var shown := StreamEvents(events, n - 1);
      match events[n - 1]
      case Begin(partial) => shown + [MessageStart(partial)]
      case Delta(partial) => if Partials(events, n - 1) == [] then shown else shown + [MessageUpdate(partial)]
      case Finish => shown
  }

  /** All events of a reply; one that never began is started when it is complete. */
  function ReplyEvents(s: StreamScript): seq<Event> {
    var n := Unfinished(s.events);
    var shown := StreamEvents(s.events, n);
    (if Partials(s.events, n) == [] then shown + [MessageStart(s.final)] else shown) + [MessageEnd(s.final)]
  }

  lemma SilentAppend(events: seq<Event>, e: Event)
    requires Silent(events) && (e.MessageStart? || e.MessageUpdate?)
    ensures Silent(events + [e])
  {
    Append(events, e);
  }

  lemma SilentThenCompleted(events: seq<Event>, m: Message)
    requires Silent(events)
    ensures BatchEvents(events + [MessageEnd(m)], [], [m])
  {
    Append(events, MessageEnd(m));
  }

  /** The context after `i` events of a stream. */
  ghost predicate Streaming(context: seq<Message>, events: seq<StreamEvent>, i: nat, newContext: seq<Message>,
                            addedPartial: bool) {
    && i <= |events|
    && |Partials(events, i)| + Begins(events[i..]) == Begins(events)
    && i + Unfinished(events[i..]) == Unfinished(events)
    && addedPartial == (Partials(events, i) != [])
    && newContext == context + Partials(events, i)
  }

  /** The context with its partial message, if there is one, updated. */
  function Updated(context: seq<Message>, partial: Message, addedPartial: bool): seq<Message> {
    if addedPartial && context != [] then context[|context| - 1 := partial] else context
  }

  lemma StreamOpens(context: seq<Message>, events: seq<StreamEvent>)
    ensures Streaming(context, events, 0, context, false)
  {
    assert events[0..] == events && context + [] == context;
  }

  lemma StreamGoesOn(context: seq<Message>, events: seq<StreamEvent>, i: nat, newContext: seq<Message>,
                     addedPartial: bool)
    requires Streaming(context, events, i, newContext, addedPartial) && i < |events| && !events[i].Finish?
    ensures addedPartial ==> newContext != []
    ensures events[i].Begin? ==> Streaming(context, events, i + 1, newContext + [events[i].partial], true)
    ensures events[i].Delta? ==>
              Streaming(context, events, i + 1, Updated(newContext, events[i].partial, addedPartial), addedPartial)
  {
    assert events[i..][1..] == events[i + 1..];
    var partials := Partials(events, i);
    if events[i].Begin? {
      Associate(context, partials, [events[i].partial]);
    } else if addedPartial {
      ReplaceLast(context, partials, events[i].partial);
    }
  }

  lemma StreamCloses(context: seq<Message>, s: StreamScript, i: nat, newContext: seq<Message>, addedPartial: bool)
    requires Streaming(context, s.events, i, newContext, addedPartial) && (i == |s.events| || s.events[i].Finish?)
    ensures |LeftBehind(s)| == Surplus(s)
    ensures addedPartial ==> newContext != []
    ensures (if addedPartial then Updated(newContext, s.final, true) else newContext + [s.final])
         == context + LeftBehind(s) + [s.final]
  {
    if addedPartial {
      ReplaceLast(context, Partials(s.events, i), s.final);
    }
  }

  lemma ReplaceLast(context: seq<Message>, partials: seq<Message>, m: Message)
    requires partials != []
    ensures var whole := context + partials;
            && whole[|whole| - 1 := m] == context + (partials[..|partials| - 1] + [m])
            && whole[|whole| - 1 := m] == context + partials[..|partials| - 1] + [m]
  {
  }

  /** One event of a stream before it finishes. */
  method TakeStreamEvent(ghost context: seq<Message>, ghost stream: seq<StreamEvent>, ghost i: nat, e: StreamEvent,
                         current: seq<Message>, events: seq<Event>, addedPartial: bool)
    returns (newContext: seq<Message>, newEvents: seq<Event>, added: bool)
    requires i < |stream| && e == stream[i] && !e.Finish?
    requires Streaming(context, stream, i, current, addedPartial)
    requires Silent(events) && events == StreamEvents(stream, i)
    ensures Streaming(context, stream, i + 1, newContext, added)
    ensures Silent(newEvents) && newEvents == StreamEvents(stream, i + 1)
  {
    StreamGoesOn(context, stream, i, current, addedPartial);
    newContext, newEvents, added := current, events, addedPartial;
    match e {
      case Begin(partial) =>
        newContext := newContext + [partial];
        added := true;
        SilentAppend(events, MessageStart(partial));
        newEvents := newEvents + [MessageStart(partial)];
      case Delta(partial) =>
        if addedPartial {
          newContext := newContext[|newContext| - 1 := partial];
          SilentAppend(events, MessageUpdate(partial));
          newEvents := newEvents + [MessageUpdate(partial)];
        }
    }
  }

  /** The stream has finished: the reply takes the place of the partial message, or comes last. */
  method CloseStream(ghost context: seq<Message>, s: StreamScript, ghost i: nat, current: seq<Message>,
                     events: seq<Event>, addedPartial: bool)
    returns (newContext: seq<Message>, newEvents: seq<Event>)
    requires Streaming(context, s.events, i, current, addedPartial)
    requires Silent(events) && events == StreamEvents(s.events, i)
    requires i == |s.events| || s.events[i].Finish?
    ensures |LeftBehind(s)| == Surplus(s) && newContext == context + LeftBehind(s) + [s.final]
    ensures BatchEvents(newEvents, [], [s.final]) && newEvents == ReplyEvents(s)
  {
    StreamCloses(context, s, i, current, addedPartial);
    newContext, newEvents := current, events;
    if addedPartial {
      newContext := newContext[|newContext| - 1 := s.final];
    } else {
      newContext := newContext + [s.final];
      SilentAppend(events, MessageStart(s.final));
      newEvents := newEvents + [MessageStart(s.final)];
    }
    SilentThenCompleted(newEvents, s.final);
    newEvents := newEvents + [MessageEnd(s.final)];
  }

  /** The reply is appended to the context and completed once. The context grows by exactly the
      reply if and only if the stream begins a message at most once; otherwise all partial messages but
      the last stay in front of it. */
  method StreamAssistantResponse(context: seq<Message>, s: StreamScript)
    returns (newContext: seq<Message>, events: seq<Event>, message: Message)
    ensures message == s.final
    ensures BatchEvents(events, [], [message]) && events == ReplyEvents(s)
    ensures |LeftBehind(s)| == Surplus(s) && newContext == context + LeftBehind(s) + [message]
    ensures newContext == context + [message] <==> Begins(s.events) <= 1
  {
    newContext, events, message := context, [], s.final;
    var addedPartial := false;
    var i := 0;
    StreamOpens(context, s.events);
    while i < |s.events| && !s.events[i].Finish?
      invariant Streaming(context, s.events, i, newContext, addedPartial)
      invariant Silent(events) && events == StreamEvents(s.events, i)
    {
      newContext, events, addedPartial :=
        TakeStreamEvent(context, s.events, i, s.events[i], newContext, events, addedPartial);
      i := i + 1;
    }
    newContext, events := CloseStream(context, s, i, newContext, events, addedPartial);
  }

  /** Partial messages a stream leaves behind in the context. */
  function Surplus(s: StreamScript): nat { if Begins(s.events) <= 1 then 0 else Begins(s.events) - 1 }

  // ---- turns ----

  datatype Arrivals = Arrivals(steering: seq<Message>, followUps: seq<Message>)

  /** Everything outside the loop's control in one turn: what streams in, how the tools behave,
      whether the run is stopped, and which messages are queued before each poll. */
  datatype TurnScript = TurnScript(
    duringPreparation: Arrivals,
    stream: StreamScript,
    sequentialMode: bool,
    calls: CallScripts,
    duringTurn: Arrivals,
    stopAfterTurn: bool,
    beforeFollowUpPoll: Arrivals)

  datatype Turn = Turn(
    injected: seq<Queued>,
    streamed: seq<Event>,
    reply: Message,
    toolEvents: seq<Event>,
    results: seq<Message>,
    continues: bool,            // the tool batch asks for another turn
    polled: seq<Queued>)        // what the steering poll after the turn returned

  function AnnouncedAll(messages: seq<Message>): seq<Event> {
    if messages == [] then []
    else AnnouncedAll(messages[..|messages| - 1]) + Announced(messages[|messages| - 1])
  }

  function TurnEvents(t: Turn): seq<Event> {
    AnnouncedAll(Untagged(t.injected)) + t.streamed + t.toolEvents + [TurnEnd(t.reply, t.results)]
  }

  function TurnMessages(t: Turn): seq<Message> { Untagged(t.injected) + [t.reply] + t.results }

  function Body(turns: seq<Turn>): seq<Event> {
    if turns == [] then []
    else if |turns| == 1 then TurnEvents(turns[0])
    else Body(turns[..|turns| - 1]) + [TurnStart] + TurnEvents(turns[|turns| - 1])
  }

  function Added(turns: seq<Turn>): seq<Message> {
    if turns == [] then [] else Added(turns[..|turns| - 1]) + TurnMessages(turns[|turns| - 1])
  }

  /** The messages of one queue that the turns have injected, in order. */
  function InjectedFrom(source: Source, turns: seq<Turn>): seq<Message> {
    if turns == [] then []
    else InjectedFrom(source, turns[..|turns| - 1]) + From(source, turns[|turns| - 1].injected)
  }

  function Prelude(prompts: seq<Message>): seq<Event> { [AgentStart, TurnStart] + AnnouncedAll(prompts) }

  /** The events of a run whose turns so far are `turns`. */
  function TraceOf(prompts: seq<Message>, turns: seq<Turn>): seq<Event> { Prelude(prompts) + Body(turns) }

  lemma TurnsAppend(turns: seq<Turn>, t: Turn)
    ensures Body(turns + [t]) == Body(turns) + (if turns != [] then [TurnStart] else []) + TurnEvents(t)
    ensures Added(turns + [t]) == Added(turns) + TurnMessages(t)
    ensures forall source :: InjectedFrom(source, turns + [t]) == InjectedFrom(source, turns) + From(source, t.injected)
  {
    assert (turns + [t])[..|turns|] == turns;
  }

  predicate Failed(m: Message) { m.Assistant? && m.stopReason in {Error, Aborted} }

  function CallsOf(m: Message): seq<ToolCall> { if m.Assistant? then Calls(m.content) else [] }

  /** The events of a reply's tool calls: started in order, one at a time or all before any result, and each ended with
      what its result message says. */
  ghost predicate ToolsRan(events: seq<Event>, calls: seq<ToolCall>, s: TurnScript, results: seq<Message>) {
    var n := Reached(s.calls, 0, |calls|);
    && BatchEvents(events, calls[..n], results)
    && ToolEvents(events, calls, s.calls, n, results)
    && Ordered(events, calls, s.calls, n, s.sequentialMode)
  }

  /** What a turn owes to its script. A failed reply runs no tools and polls no queue. */
  ghost predicate TurnFollows(t: Turn, s: TurnScript) {
    var calls := CallsOf(t.reply);
    && t.reply == s.stream.final
    && BatchEvents(t.streamed, [], [t.reply]) && t.streamed == ReplyEvents(s.stream)
    && (Failed(t.reply) || calls == [] ==> t.results == [] && t.toolEvents == [] && !t.continues)
    && (!Failed(t.reply) && calls != [] ==>
          && t.results == Result(calls, s.calls).messages
          && t.continues == !Result(calls, s.calls).terminate
          && ToolsRan(t.toolEvents, calls, s, t.results))
    && (Failed(t.reply) ==> t.polled == [])
  }

  // ---- a run ----

  datatype Start = Start(
    base: seq<Message>,            // the transcript before the run
    prompts: seq<Message>,
    steeringMode: QueueMode,
    followUpMode: QueueMode,
    steering: seq<Message>,        // queued before the first poll
    followUps: seq<Message>,
    skipInitialPoll: bool)

  datatype Run = Run(
    context: seq<Message>,
    newMessages: seq<Message>,
    trace: seq<Event>,
    pending: seq<Queued>,
    steering: seq<Message>,
    followUps: seq<Message>,
    arrived: Arrivals,             // everything ever queued
    turns: seq<Turn>,
    contexts: seq<seq<Message>>)   // the context at each turn_end

  const NO_ARRIVALS := Arrivals([], [])

  function Plus(a: Arrivals, b: Arrivals): Arrivals { Arrivals(a.steering + b.steering, a.followUps + b.followUps) }

  function Enqueue(r: Run, a: Arrivals): Run {
    r.(steering := r.steering + a.steering, followUps := r.followUps + a.followUps, arrived := Plus(r.arrived, a))
  }

  /** After this turn the agent would stop, so it polls the follow-up queue. */
  predicate Idled(t: Turn, s: TurnScript) {
    !Failed(t.reply) && !s.stopAfterTurn && !t.continues && t.polled == []
  }

  /** What arrives while turn `n` is prepared; the first turn is begun with the run. */
  function Preparing(script: seq<TurnScript>, n: nat): Arrivals
    requires n < |script|
  {
    if n == 0 then NO_ARRIVALS else script[n].duringPreparation
  }

  /** All that is enqueued up to the poll after the last turn: what was queued when it began, then what
      arrives before each poll. */
  function ArrivedBy(start: Start, script: seq<TurnScript>, turns: seq<Turn>): Arrivals
    requires |turns| <= |script|
    decreases |turns|, 0
  {
    if turns == [] then Arrivals(start.steering, start.followUps)
    else
      var n := |turns| - 1;
      Plus(Plus(AllArrived(start, script, turns[..n]), Preparing(script, n)), script[n].duringTurn)
  }

  /** The same with what arrives before the follow-up poll, if there is one. */
  function AllArrived(start: Start, script: seq<TurnScript>, turns: seq<Turn>): Arrivals
    requires |turns| <= |script|
    decreases |turns|, 1
  {
    var polled := ArrivedBy(start, script, turns);
    if turns != [] && Idled(turns[|turns| - 1], script[|turns| - 1])
    then Plus(polled, script[|turns| - 1].beforeFollowUpPoll) else polled
  }

  /** What the poll before the first turn gives. It can be skipped. */
  function FirstPoll(start: Start): seq<Queued> {
    if start.skipInitialPoll then []
    else Tagged(Steering, Drain(start.steeringMode, start.steering).0)
  }

  function ModeOf(start: Start, source: Source): QueueMode {
    if source.Steering? then start.steeringMode else start.followUpMode
  }

  function PollSteering(mode: QueueMode, r: Run): Run {
    var (taken, left) := Drain(mode, r.steering);
    r.(pending := Tagged(Steering, taken), steering := left)
  }

  function PollFollowUps(mode: QueueMode, r: Run): Run {
    var (taken, left) := Drain(mode, r.followUps);
    r.(pending := Tagged(FollowUp, taken), followUps := left)
  }

  // ---- what every run keeps ----

  function Of(source: Source, a: Arrivals): seq<Message> { if source.Steering? then a.steering else a.followUps }

  /** The messages of one queue: those injected, then those about to be injected, then those still queued,
      are all that ever arrived. */
  ghost predicate Kept(source: Source, turns: seq<Turn>, pending: seq<Queued>, left: Arrivals, arrived: Arrivals) {
    InjectedFrom(source, turns) + (From(source, pending) + Of(source, left)) == Of(source, arrived)
  }

  /** Queued messages are delivered in order and none is lost. */
  ghost predicate Delivered(turns: seq<Turn>, pending: seq<Queued>, left: Arrivals, arrived: Arrivals) {
    forall source :: Kept(source, turns, pending, left, arrived)
  }

  function Left(r: Run): Arrivals { Arrivals(r.steering, r.followUps) }

  /** What is left in a queue of all that arrived when `turns` have injected their part. */
  function QueueOf(source: Source, turns: seq<Turn>, arrived: Arrivals): seq<Message> {
    var n := |InjectedFrom(source, turns)|;
    if n <= |Of(source, arrived)| then Of(source, arrived)[n..] else []
  }

  lemma KeptIsQueue(source: Source, turns: seq<Turn>, left: Arrivals, arrived: Arrivals)
    requires Kept(source, turns, [], left, arrived)
    ensures QueueOf(source, turns, arrived) == Of(source, left)
  {
    assert From(source, []) + Of(source, left) == Of(source, left);
  }

  /** What a poll of a queue gives. */
  function PollOf(start: Start, source: Source, turns: seq<Turn>, arrived: Arrivals): seq<Queued> {
    Tagged(source, Drain(ModeOf(start, source), QueueOf(source, turns, arrived)).0)
  }

  /** What is pending between two turns: the follow-ups polled where the agent would stop, or else what the
      steering poll gave. */
  function Awaited(start: Start, script: seq<TurnScript>, turns: seq<Turn>): seq<Queued>
    requires |turns| <= |script|
  {
    if turns == [] then FirstPoll(start)
    else if Idled(turns[|turns| - 1], script[|turns| - 1])
    then PollOf(start, FollowUp, turns, AllArrived(start, script, turns))
    else turns[|turns| - 1].polled
  }

  /** What the next turn injects: what is pending, or what one more steering poll gives. */
  function NextInjected(start: Start, script: seq<TurnScript>, turns: seq<Turn>): seq<Queued>
    requires |turns| < |script|
  {
    var pending := Awaited(start, script, turns);
    if turns == [] || pending != [] then pending
    else PollOf(start, Steering, turns, Plus(AllArrived(start, script, turns), script[|turns|].duringPreparation))
  }

  /** Why a turn may follow the turns so far. */
  ghost predicate MayFollow(script: seq<TurnScript>, turns: seq<Turn>, injected: seq<Queued>)
    requires |turns| <= |script|
  {
    turns == [] ||
    var n := |turns| - 1;
    !Failed(turns[n].reply) && !script[n].stopAfterTurn && (turns[n].continues || injected != [])
  }

  /** Turn `k` injects at once what the polls before it gave, and its own poll gives what is queued by then. */
  ghost predicate TimelyAt(start: Start, script: seq<TurnScript>, turns: seq<Turn>, k: nat)
    requires k < |turns| <= |script|
  {
    && turns[k].injected == NextInjected(start, script, turns[..k])
    && MayFollow(script, turns[..k], turns[k].injected)
    && (!Failed(turns[k].reply) && !script[k].stopAfterTurn ==>
          turns[k].polled == PollOf(start, Steering, turns[..k + 1], ArrivedBy(start, script, turns[..k + 1])))
  }

  ghost predicate Timely(start: Start, script: seq<TurnScript>, turns: seq<Turn>) {
    |turns| <= |script| && forall k :: 0 <= k < |turns| ==> TimelyAt(start, script, turns, k)
  }

  lemma TimelyNext(start: Start, script: seq<TurnScript>, turns: seq<Turn>, t: Turn)
    requires Timely(start, script, turns) && |turns| < |script| && NextTurn(start, script, turns, t)
    requires !Failed(t.reply) && !script[|turns|].stopAfterTurn ==>
               t.polled == PollOf(start, Steering, turns + [t], ArrivedBy(start, script, turns + [t]))
    ensures Timely(start, script, turns + [t])
  {
    var all := turns + [t];
    forall k | 0 <= k < |all| ensures TimelyAt(start, script, all, k) {
      assert all[..k] == turns[..k];
      if k < |turns| {
        assert TimelyAt(start, script, turns, k) && all[..k + 1] == turns[..k + 1];
      } else {
        assert turns[..k] == turns && all[..k + 1] == all;
      }
    }
  }

  /** A turn that may follow, with what it must inject. */
  ghost predicate NextTurn(start: Start, script: seq<TurnScript>, turns: seq<Turn>, t: Turn)
    requires |turns| < |script|
  {
    t.injected == NextInjected(start, script, turns) && MayFollow(script, turns, t.injected)
  }

  lemma EnqueueDelivers(turns: seq<Turn>, pending: seq<Queued>, left: Arrivals, arrived: Arrivals, more: Arrivals)
    requires Delivered(turns, pending, left, arrived)
    ensures Delivered(turns, pending, Plus(left, more), Plus(arrived, more))
  {
    forall source ensures Kept(source, turns, pending, Plus(left, more), Plus(arrived, more)) {
      assert Kept(source, turns, pending, left, arrived);
      Associate(InjectedFrom(source, turns), From(source, pending) + Of(source, left), Of(source, more));
      Associate(From(source, pending), Of(source, left), Of(source, more));
    }
  }

  /** Moving the front of a queue to the pending messages. */
  lemma PollKeeps(source: Source, turns: seq<Turn>, tag: Source, taken: seq<Message>, left: Arrivals, next: Arrivals,
                  arrived: Arrivals)
    requires Kept(source, turns, [], left, arrived)
    requires Of(source, left) == if source == tag then taken + Of(source, next) else Of(source, next)
    ensures Kept(source, turns, Tagged(tag, taken), next, arrived)
  {
    FromTagged(source, tag, taken);
    assert [] + Of(source, left) == Of(source, left) && [] + Of(source, next) == Of(source, next);
  }

  lemma PollDelivers(mode: QueueMode, r: Run, arrived: Arrivals)
    requires Delivered(r.turns, [], Left(r), arrived)
    ensures var next := PollSteering(mode, r); Delivered(r.turns, next.pending, Left(next), arrived)
  {
    var next := PollSteering(mode, r);
    forall source ensures Kept(source, r.turns, next.pending, Left(next), arrived) {
      assert Kept(source, r.turns, [], Left(r), arrived);
      PollKeeps(source, r.turns, Steering, Drain(mode, r.steering).0, Left(r), Left(next), arrived);
    }
  }

  lemma FollowUpPollDelivers(mode: QueueMode, r: Run, arrived: Arrivals)
    requires Delivered(r.turns, [], Left(r), arrived)
    ensures var next := PollFollowUps(mode, r); Delivered(r.turns, next.pending, Left(next), arrived)
  {
    var next := PollFollowUps(mode, r);
    forall source ensures Kept(source, r.turns, next.pending, Left(next), arrived) {
      assert Kept(source, r.turns, [], Left(r), arrived);
      PollKeeps(source, r.turns, FollowUp, Drain(mode, r.followUps).0, Left(r), Left(next), arrived);
    }
  }

  lemma InjectionDelivers(turns: seq<Turn>, t: Turn, left: Arrivals, arrived: Arrivals)
    requires Delivered(turns, t.injected, left, arrived)
    ensures Delivered(turns + [t], [], left, arrived)
  {
    forall source ensures Kept(source, turns + [t], [], left, arrived) {
      assert Kept(source, turns, t.injected, left, arrived);
      TurnsAppend(turns, t);
      Associate(InjectedFrom(source, turns), From(source, t.injected), Of(source, left));
      assert [] + Of(source, left) == Of(source, left);
    }
  }

  lemma SameDelivered(front: seq<Turn>, t: Turn, polled: seq<Queued>, pending: seq<Queued>, left: Arrivals,
                      arrived: Arrivals)
    requires Delivered(front + [t], pending, left, arrived)
    ensures Delivered(front + [t.(polled := polled)], pending, left, arrived)
  {
    forall source ensures Kept(source, front + [t.(polled := polled)], pending, left, arrived) {
      assert Kept(source, front + [t], pending, left, arrived);
      TurnsAppend(front, t);
      TurnsAppend(front, t.(polled := polled));
    }
  }

  /** Surplus partial messages of the first n streams. */
  function Surpluses(script: seq<TurnScript>, n: nat): nat
    requires n <= |script|
  {
    if n == 0 then 0 else Surpluses(script, n - 1) + Surplus(script[n - 1].stream)
  }

  /** A context is the old transcript and the new messages, except for surplus partial messages. */
  ghost predicate ContextHolds(context: seq<Message>, transcript: seq<Message>, surplus: nat) {
    |context| == |transcript| + surplus && (surplus == 0 ==> context == transcript)
  }

  /** What is recorded after `n` turns; after the last of them that is also the present state. */
  ghost predicate RecordedAt(start: Start, script: seq<TurnScript>, turns: seq<Turn>, contexts: seq<seq<Message>>,
                             newMessages: seq<Message>, context: seq<Message>, n: nat)
    requires n <= |turns| <= |script| && |contexts| == |turns|
  {
    var transcript := start.prompts + Added(turns[..n]);
    && (n > 0 ==> ContextHolds(contexts[n - 1], start.base + transcript, Surpluses(script, n)))
    && (n == |turns| ==>
          newMessages == transcript && ContextHolds(context, start.base + transcript, Surpluses(script, n)))
  }

  ghost predicate FollowsAt(script: seq<TurnScript>, turns: seq<Turn>, k: nat)
    requires k < |turns| <= |script|
  {
    TurnFollows(turns[k], script[k])
  }

  ghost predicate Follows(script: seq<TurnScript>, turns: seq<Turn>) {
    |turns| <= |script| && forall k :: 0 <= k < |turns| ==> FollowsAt(script, turns, k)
  }

  /** The transcripts are those of the turns so far, and every turn follows its script. */
  ghost predicate Recorded(start: Start, script: seq<TurnScript>, turns: seq<Turn>, contexts: seq<seq<Message>>,
                           newMessages: seq<Message>, context: seq<Message>) {
    && Follows(script, turns) && |contexts| == |turns|
    && forall n :: 0 <= n <= |turns| ==> RecordedAt(start, script, turns, contexts, newMessages, context, n)
  }

  /** What holds at the start of every turn and after it. */
  ghost predicate Core(start: Start, script: seq<TurnScript>, r: Run) {
    && Recorded(start, script, r.turns, r.contexts, r.newMessages, r.context)
    && Delivered(r.turns, r.pending, Left(r), r.arrived)
  }

  /** The event that opens the next turn; the first turn is begun with the run. */
  function Opening(turns: seq<Turn>): seq<Event> { if turns == [] then [] else [TurnStart] }

  method Inject(start: seq<Event>, pending: seq<Queued>) returns (trace: seq<Event>)
    ensures trace == start + AnnouncedAll(Untagged(pending))
  {
    trace := start;
    for i := 0 to |pending|
      invariant trace == start + AnnouncedAll(Untagged(pending[..i]))
    {
      assert Untagged(pending[..i + 1])[..i] == Untagged(pending[..i]);
      trace := trace + Announced(pending[i].message);
    }
    assert pending[..|pending|] == pending;
  }

  /** One turn: inject what is pending, stream the reply, run its tools. */
  method PerformTurn(r: Run, s: TurnScript) returns (next: Run, t: Turn)
    ensures Performed(r, s, next, t)
  {
    var injected := Untagged(r.pending);
    var trace := Inject(r.trace, r.pending);
    var context, streamed, message := StreamAssistantResponse(r.context + injected, s.stream);
    trace := trace + streamed;
    var toolEvents, results, continues := RunTools(message, s);
    trace := trace + toolEvents;
    trace := trace + [TurnEnd(message, results)];
    t := Turn(r.pending, streamed, message, toolEvents, results, continues, []);
    AssociateFive(r.trace, AnnouncedAll(injected), streamed, toolEvents, [TurnEnd(message, results)]);
    AssociateFive(r.newMessages, injected, [message], results, []);
    assert TurnMessages(t) + [] == TurnMessages(t);
    Associate(r.context, injected, [message]);
    Associate(r.context, injected + [message], results);
    next := r.(context := context + results, newMessages := r.newMessages + injected + [message] + results,
               trace := trace,
               pending := [], turns := r.turns + [t], contexts := r.contexts + [context + results]);
    assert next.newMessages == r.newMessages + TurnMessages(t);
  }

  /** Run the tools of a reply, unless it failed or calls none. */
  method RunTools(message: Message, s: TurnScript) returns (events: seq<Event>, results: seq<Message>, continues: bool)
    ensures var calls := CallsOf(message);
            if Failed(message) || calls == [] then events == [] && results == [] && !continues
            else && results == Result(calls, s.calls).messages
                 && continues == !Result(calls, s.calls).terminate
                 && ToolsRan(events, calls, s, results)
  {
    events, results, continues := [], [], false;
    if !Failed(message) && CallsOf(message) != [] {
      var batch;
      events, batch := ExecuteToolCalls(CallsOf(message), s.calls, s.sequentialMode);
      results, continues := batch.messages, !batch.terminate;
    }
  }

  lemma AssociateFive<T>(a: seq<T>, b: seq<T>, c: seq<T>, d: seq<T>, e: seq<T>)
    ensures a + b + c + d + e == a + (b + c + d + e)
  {
    Associate(a, b, c);
    Associate(a, b + c, d);
    Associate(a, b + c + d, e);
  }

  // ---- one turn keeps the invariant ----

  lemma ContextGrows(context: seq<Message>, transcript: seq<Message>, surplus: nat,
                     next: seq<Message>, more: seq<Message>, extra: nat)
    requires ContextHolds(context, transcript, surplus)
    requires |next| == |context| + |more| + extra && (extra == 0 ==> next == context + more)
    ensures ContextHolds(next, transcript + more, surplus + extra)
  {
  }

  lemma TraceGrows(prompts: seq<Message>, turns: seq<Turn>, t: Turn)
    ensures TraceOf(prompts, turns) + Opening(turns) + TurnEvents(t) == TraceOf(prompts, turns + [t])
  {
    TurnsAppend(turns, t);
  }

  lemma TranscriptGrows(base: seq<Message>, prompts: seq<Message>, turns: seq<Turn>, t: Turn)
    ensures prompts + Added(turns) + TurnMessages(t) == prompts + Added(turns + [t])
    ensures base + (prompts + Added(turns)) + TurnMessages(t) == base + (prompts + Added(turns + [t]))
  {
    TurnsAppend(turns, t);
  }

  /** What performing a turn changes. */
  ghost predicate Performed(r: Run, s: TurnScript, next: Run, t: Turn) {
    && t.injected == r.pending && TurnFollows(t, s) && t.polled == []
    && next == r.(context := next.context, newMessages := r.newMessages + TurnMessages(t),
                  trace := r.trace + TurnEvents(t), pending := [], turns := r.turns + [t],
                  contexts := r.contexts + [next.context])
    && |next.context| == |r.context| + |TurnMessages(t)| + Surplus(s.stream)
    && (Surplus(s.stream) == 0 ==> next.context == r.context + TurnMessages(t))
  }

  lemma TurnKeepsRecord(start: Start, script: seq<TurnScript>, r: Run, next: Run, t: Turn)
    requires Recorded(start, script, r.turns, r.contexts, r.newMessages, r.context) && |r.turns| < |script|
    requires Performed(r, script[|r.turns|], next, t)
    ensures Recorded(start, script, next.turns, next.contexts, next.newMessages, next.context)
  {
    var turns, m := r.turns, |r.turns|;
    FollowsGrows(script, turns, t);
    assert RecordedAt(start, script, turns, r.contexts, r.newMessages, r.context, m);
    assert turns[..m] == turns && next.turns[..m + 1] == next.turns;
    TranscriptGrows(start.base, start.prompts, turns, t);
    ContextGrows(r.context, start.base + r.newMessages, Surpluses(script, m), next.context, TurnMessages(t),
                 Surplus(script[m].stream));
    forall n | 0 <= n <= m + 1
      ensures RecordedAt(start, script, next.turns, next.contexts, next.newMessages, next.context, n)
    {
      if n <= m {
        assert RecordedAt(start, script, turns, r.contexts, r.newMessages, r.context, n);
        assert next.turns[..n] == turns[..n];
      }
    }
  }

  lemma FollowsGrows(script: seq<TurnScript>, turns: seq<Turn>, t: Turn)
    requires Follows(script, turns) && |turns| < |script| && TurnFollows(t, script[|turns|])
    ensures Follows(script, turns + [t])
  {
    forall k | 0 <= k <= |turns| ensures FollowsAt(script, turns + [t], k) {
      if k < |turns| { assert FollowsAt(script, turns, k); }
    }
  }

  lemma TurnKeepsCore(start: Start, script: seq<TurnScript>, r: Run, next: Run, t: Turn)
    requires Core(start, script, r) && |r.turns| < |script|
    requires Performed(r, script[|r.turns|], next, t)
    ensures Core(start, script, next)
  {
    TurnKeepsRecord(start, script, r, next, t);
    InjectionDelivers(r.turns, t, Left(r), r.arrived);
  }

  /** Recording what the poll after a turn returned changes nothing the run has done. */
  lemma SameTurn(front: seq<Turn>, t: Turn, polled: seq<Queued>)
    ensures var u := t.(polled := polled);
            && TurnEvents(u) == TurnEvents(t) && TurnMessages(u) == TurnMessages(t)
            && Body(front + [u]) == Body(front + [t])
            && Added(front + [u]) == Added(front + [t])
  {
    TurnsAppend(front, t);
    TurnsAppend(front, t.(polled := polled));
  }

  /** The run with the poll's result entered into its last turn. */
  function WithPoll(turns: seq<Turn>, polled: seq<Queued>): (r: seq<Turn>)
    requires turns != []
    ensures |r| == |turns| && r[|r| - 1] == turns[|turns| - 1].(polled := polled)
  {
    turns[..|turns| - 1] + [turns[|turns| - 1].(polled := polled)]
  }

  lemma SamePrefixes(front: seq<Turn>, t: Turn, polled: seq<Queued>, m: nat)
    requires m <= |front| + 1
    ensures Added((front + [t.(polled := polled)])[..m]) == Added((front + [t])[..m])
  {
    SameTurn(front, t, polled);
    var u := t.(polled := polled);
    if m <= |front| {
      assert (front + [u])[..m] == front[..m] == (front + [t])[..m];
    } else {
      assert (front + [u])[..m] == front + [u] && (front + [t])[..m] == front + [t];
    }
  }

  lemma PollKeepsFollowing(script: seq<TurnScript>, turns: seq<Turn>, polled: seq<Queued>)
    requires turns != [] && Follows(script, turns) && !Failed(turns[|turns| - 1].reply)
    ensures Follows(script, WithPoll(turns, polled))
  {
    forall k | 0 <= k < |turns| ensures FollowsAt(script, WithPoll(turns, polled), k) {
      assert FollowsAt(script, turns, k);
    }
  }

  lemma PollKeepsRecord(start: Start, script: seq<TurnScript>, turns: seq<Turn>, contexts: seq<seq<Message>>,
                        newMessages: seq<Message>, context: seq<Message>, polled: seq<Queued>)
    requires turns != [] && !Failed(turns[|turns| - 1].reply)
    requires Recorded(start, script, turns, contexts, newMessages, context)
    ensures Recorded(start, script, WithPoll(turns, polled), contexts, newMessages, context)
  {
    var front, t := turns[..|turns| - 1], turns[|turns| - 1];
    var recorded := WithPoll(turns, polled);
    assert turns == front + [t];
    PollKeepsFollowing(script, turns, polled);
    forall n | 0 <= n <= |turns| ensures RecordedAt(start, script, recorded, contexts, newMessages, context, n) {
      assert RecordedAt(start, script, turns, contexts, newMessages, context, n);
      SamePrefixes(front, t, polled, n);
    }
  }

  lemma RecordPoll(start: Start, script: seq<TurnScript>, r: Run, polled: seq<Queued>)
    requires Core(start, script, r) && r.turns != []
    requires !Failed(r.turns[|r.turns| - 1].reply)
    ensures Core(start, script, r.(turns := WithPoll(r.turns, polled)))
    ensures TraceOf(start.prompts, WithPoll(r.turns, polled)) == TraceOf(start.prompts, r.turns)
  {
    assert r.turns == r.turns[..|r.turns| - 1] + [r.turns[|r.turns| - 1]];
    SameTurn(r.turns[..|r.turns| - 1], r.turns[|r.turns| - 1], polled);
    SameDelivered(r.turns[..|r.turns| - 1], r.turns[|r.turns| - 1], polled, r.pending, Left(r), r.arrived);
    PollKeepsRecord(start, script, r.turns, r.contexts, r.newMessages, r.context, polled);
  }

  // ---- the loop ----

  lemma {:induction false} TracePrefix(prompts: seq<Message>, turns: seq<Turn>, n: nat)
    requires n <= |turns|
    ensures TraceOf(prompts, turns[..n]) <= TraceOf(prompts, turns)
    decreases |turns|
  {
    if n < |turns| {
      var front := turns[..|turns| - 1];
      TracePrefix(prompts, front, n);
      assert front[..n] == turns[..n];
      assert TraceOf(prompts, front) <= TraceOf(prompts, turns);
    } else {
      assert turns[..n] == turns;
    }
  }

  /** When `n` turns were over their trace had been emitted, and no more when all were. */
  ghost predicate ShowsAt(prompts: seq<Message>, turns: seq<Turn>, trace: seq<Event>, n: nat)
    requires n <= |turns|
  {
    var soFar := TraceOf(prompts, turns[..n]);
    soFar <= trace && (n == |turns| ==> |trace| == |soFar|)
  }

  ghost predicate Shows(prompts: seq<Message>, turns: seq<Turn>, trace: seq<Event>) {
    forall n :: 0 <= n <= |turns| ==> ShowsAt(prompts, turns, trace, n)
  }

  lemma ShowsTrace(prompts: seq<Message>, turns: seq<Turn>, trace: seq<Event>)
    ensures Shows(prompts, turns, trace) <==> trace == TraceOf(prompts, turns)
  {
    assert turns[..|turns|] == turns;
    if Shows(prompts, turns, trace) {
      assert ShowsAt(prompts, turns, trace, |turns|);
    }
    if trace == TraceOf(prompts, turns) {
      forall n | 0 <= n <= |turns| ensures ShowsAt(prompts, turns, trace, n) {
        TracePrefix(prompts, turns, n);
      }
    }
  }

  /** The life cycle so far, before the next turn or the end. */
  ghost predicate Between(start: Start, script: seq<TurnScript>, r: Run) {
    Core(start, script, r) && Shows(start.prompts, r.turns, r.trace)
  }

  /** Why a run ended: a failed reply, a request to stop, or nothing left to do. */
  ghost predicate EndedRightly(script: seq<TurnScript>, r: Run) {
    && r.turns != [] && |r.turns| <= |script|
    && var last := r.turns[|r.turns| - 1];
       || Failed(last.reply)
       || script[|r.turns| - 1].stopAfterTurn
       || (!last.continues && last.polled == [] && r.followUps == []
           && r.steering == script[|r.turns| - 1].beforeFollowUpPoll.steering)
  }

  method EnqueueArrivals(start: Start, ghost script: seq<TurnScript>, r: Run, arrivals: Arrivals) returns (next: Run)
    requires Core(start, script, r)
    ensures Core(start, script, next) && next.turns == r.turns && next.trace == r.trace && next.pending == r.pending
    ensures next.arrived == Plus(r.arrived, arrivals)
  {
    EnqueueDelivers(r.turns, r.pending, Left(r), r.arrived, arrivals);
    next := Enqueue(r, arrivals);
    SameRun(start, script, r, next);
  }

  /** A steering poll gives what is queued by then. */
  lemma SteeringPoll(start: Start, script: seq<TurnScript>, r: Run)
    requires Core(start, script, r) && r.pending == []
    ensures PollSteering(start.steeringMode, r).pending == PollOf(start, Steering, r.turns, r.arrived)
  {
    assert Kept(Steering, r.turns, r.pending, Left(r), r.arrived);
    KeptIsQueue(Steering, r.turns, Left(r), r.arrived);
  }

  lemma SteeringIsPolled(start: Start, script: seq<TurnScript>, r: Run)
    requires Core(start, script, r) && r.pending == []
    ensures Core(start, script, PollSteering(start.steeringMode, r))
    ensures PollSteering(start.steeringMode, r).pending == PollOf(start, Steering, r.turns, r.arrived)
  {
    SteeringPoll(start, script, r);
    PollDelivers(start.steeringMode, r, r.arrived);
    SameRun(start, script, r, PollSteering(start.steeringMode, r));
  }

  /** Prepare the next turn: arrivals, a poll if nothing is pending, and the opening event. */
  method BeginTurn(start: Start, ghost script: seq<TurnScript>, r: Run, s: TurnScript) returns (next: Run)
    requires Waiting(start, script, r) && |r.turns| < |script| && s == script[|r.turns|]
    requires r.turns == [] || r.turns[|r.turns| - 1].continues || r.pending != []
    ensures Core(start, script, next) && next.pending == NextInjected(start, script, r.turns)
    ensures MayFollow(script, r.turns, next.pending)
    ensures next.turns == r.turns && next.trace == TraceOf(start.prompts, r.turns) + Opening(r.turns)
    ensures next.arrived == Plus(r.arrived, if r.turns == [] then NO_ARRIVALS else s.duringPreparation)
  {
    next := r;
    ShowsTrace(start.prompts, r.turns, r.trace);
    if r.turns == [] {
      NothingArrives(r.arrived);
    } else {
      next := EnqueueArrivals(start, script, r, s.duringPreparation);
      if next.pending == [] {
        SteeringIsPolled(start, script, next);
        next := PollSteering(start.steeringMode, next);
      }
      next := next.(trace := next.trace + [TurnStart]);
    }
  }

  lemma NothingArrives(a: Arrivals)
    ensures Plus(a, NO_ARRIVALS) == a
  {
    assert a.steering + [] == a.steering && a.followUps + [] == a.followUps;
  }

  /** After a completed turn: arrivals, then the steering poll, whose result is entered into the turn. */
  method PollAfterTurn(start: Start, ghost script: seq<TurnScript>, r: Run) returns (next: Run)
    requires Core(start, script, r) && r.turns != [] && r.pending == []
    requires r.trace == TraceOf(start.prompts, r.turns)
    requires !Failed(r.turns[|r.turns| - 1].reply) && r.turns[|r.turns| - 1].polled == []
    ensures Between(start, script, next)
    ensures next.turns == WithPoll(r.turns, next.pending) && next.arrived == r.arrived
    ensures next.pending == PollOf(start, Steering, r.turns, r.arrived) && (next.pending == [] ==> next.steering == [])
  {
    SteeringIsPolled(start, script, r);
    next := PollSteering(start.steeringMode, r);
    RecordPoll(start, script, next, next.pending);
    next := next.(turns := WithPoll(next.turns, next.pending));
    ShowsTrace(start.prompts, next.turns, next.trace);
  }

  /** Poll the follow-up queue when the agent would otherwise stop. */
  method PollWhenIdle(start: Start, ghost script: seq<TurnScript>, r: Run, s: TurnScript) returns (next: Run)
    requires Polled(start, script, r) && r.pending == [] && !r.turns[|r.turns| - 1].continues
    requires s == script[|r.turns| - 1]
    ensures Waiting(start, script, next) && next.turns == r.turns
    ensures next.pending == [] ==> EndedRightly(script, next)
  {
    EnqueueDelivers(r.turns, [], Left(r), r.arrived, s.beforeFollowUpPoll);
    next := Enqueue(r, s.beforeFollowUpPoll);
    FollowUpPollDelivers(start.followUpMode, next, next.arrived);
    next := PollFollowUps(start.followUpMode, next);
    FollowUpPoll(start, r.turns, r.followUps, s.beforeFollowUpPoll, r, next);
    IdlePolled(start, script, r, next);
  }

  lemma IdlePolled(start: Start, script: seq<TurnScript>, r: Run, next: Run)
    requires Polled(start, script, r) && r.pending == [] && !r.turns[|r.turns| - 1].continues
    requires next == r.(pending := next.pending, steering := next.steering, followUps := next.followUps,
                        arrived := next.arrived)
    requires Delivered(next.turns, next.pending, Left(next), next.arrived)
    requires next.arrived == Plus(r.arrived, script[|r.turns| - 1].beforeFollowUpPoll)
    requires next.pending == PollOf(start, FollowUp, r.turns, next.arrived)
    requires next.steering == r.steering + script[|r.turns| - 1].beforeFollowUpPoll.steering
    requires next.pending == [] ==> next.followUps == []
    ensures Waiting(start, script, next)
    ensures next.pending == [] ==> EndedRightly(script, next)
  {
    SameRun(start, script, r, next);
    IdleArrivals(start, script, r.turns);
    OnlyLater(r.steering, script[|r.turns| - 1].beforeFollowUpPoll.steering);
  }

  lemma IdleArrivals(start: Start, script: seq<TurnScript>, turns: seq<Turn>)
    requires turns != [] && |turns| <= |script| && Idled(turns[|turns| - 1], script[|turns| - 1])
    ensures AllArrived(start, script, turns)
         == Plus(ArrivedBy(start, script, turns), script[|turns| - 1].beforeFollowUpPoll)
    ensures Awaited(start, script, turns) == PollOf(start, FollowUp, turns, AllArrived(start, script, turns))
  {
  }

  lemma OnlyLater(queue: seq<Message>, more: seq<Message>)
    requires queue == []
    ensures queue + more == more
  {
  }

  /** The follow-up poll gives what is queued by then. */
  lemma FollowUpPoll(start: Start, turns: seq<Turn>, followUps: seq<Message>, more: Arrivals, r: Run, next: Run)
    requires Delivered(turns, [], Left(r), r.arrived) && followUps == r.followUps
    requires next.pending == Tagged(FollowUp, Drain(start.followUpMode, followUps + more.followUps).0)
    ensures next.pending == PollOf(start, FollowUp, turns, Plus(r.arrived, more))
  {
    EnqueueDelivers(turns, [], Left(r), r.arrived, more);
    assert Kept(FollowUp, turns, [], Plus(Left(r), more), Plus(r.arrived, more));
    KeptIsQueue(FollowUp, turns, Plus(Left(r), more), Plus(r.arrived, more));
  }

  /** Queues and pending messages do not matter for the rest of the invariant. */
  lemma SameRun(start: Start, script: seq<TurnScript>, r: Run, next: Run)
    requires Core(start, script, r) && Delivered(next.turns, next.pending, Left(next), next.arrived)
    requires next.turns == r.turns && next.newMessages == r.newMessages && next.context == r.context
        && next.contexts == r.contexts
    ensures Core(start, script, next)
  {
  }

  /** A run that is over. */
  ghost predicate Over(start: Start, script: seq<TurnScript>, r: Run) {
    && Core(start, script, r)
    && r.trace == TraceOf(start.prompts, r.turns) + [AgentEnd(r.newMessages)]
    && r.pending == []
    && EndedRightly(script, r)
    && r.arrived == AllArrived(start, script, r.turns) && Timely(start, script, r.turns)
  }

  method EndRun(start: Start, ghost script: seq<TurnScript>, r: Run) returns (next: Run)
    requires Core(start, script, r) && r.trace == TraceOf(start.prompts, r.turns) && r.pending == []
        && EndedRightly(script, r)
    requires r.arrived == AllArrived(start, script, r.turns) && Timely(start, script, r.turns)
    ensures Over(start, script, next) && |next.turns| == |r.turns|
  {
    next := r.(trace := r.trace + [AgentEnd(r.newMessages)]);
  }

  /** A run between turns, after at least one, that has just polled for steering messages. */
  ghost predicate Polled(start: Start, script: seq<TurnScript>, r: Run) {
    && Between(start, script, r) && r.turns != []
    && r.turns[|r.turns| - 1].polled == r.pending
    && !Failed(r.turns[|r.turns| - 1].reply) && !script[|r.turns| - 1].stopAfterTurn
    && r.arrived == ArrivedBy(start, script, r.turns) && Timely(start, script, r.turns)
    && (r.pending == [] ==> r.steering == [])
  }

  /** Open a turn and perform it. */
  method PlayTurn(start: Start, ghost script: seq<TurnScript>, r: Run, s: TurnScript) returns (next: Run, t: Turn)
    requires Waiting(start, script, r) && |r.turns| < |script| && s == script[|r.turns|]
    requires r.turns == [] || r.turns[|r.turns| - 1].continues || r.pending != []
    ensures Core(start, script, next) && next.turns == r.turns + [t] && next.pending == [] && t.polled == []
    ensures NextTurn(start, script, r.turns, t)
    ensures next.trace == TraceOf(start.prompts, next.turns)
    ensures next.arrived == Plus(r.arrived, Preparing(script, |r.turns|))
  {
    var ready := BeginTurn(start, script, r, s);
    next, t := PerformTurn(ready, s);
    TurnPlayed(start, script, r.turns, ready, next, t);
  }

  lemma TurnPlayed(start: Start, script: seq<TurnScript>, turns: seq<Turn>, ready: Run, next: Run, t: Turn)
    requires Core(start, script, ready) && |turns| < |script| && ready.turns == turns
    requires ready.trace == TraceOf(start.prompts, turns) + Opening(turns)
    requires Performed(ready, script[|turns|], next, t)
    ensures Core(start, script, next) && next.turns == turns + [t] && next.pending == [] && t.polled == []
    ensures next.trace == TraceOf(start.prompts, turns + [t])
  {
    TurnKeepsCore(start, script, ready, next, t);
    TraceGrows(start.prompts, turns, t);
  }

  /** A turn whose reply failed, or after which the run is asked to stop, is the last. */
  method EndAfterTurn(start: Start, ghost script: seq<TurnScript>, ghost turns: seq<Turn>, t: Turn, r: Run)
    returns (next: Run)
    requires |turns| < |script| && r.turns == turns + [t] && (Failed(t.reply) || script[|turns|].stopAfterTurn)
    requires Core(start, script, r) && r.trace == TraceOf(start.prompts, r.turns) && r.pending == []
    requires r.arrived == ArrivedBy(start, script, r.turns)
    requires Timely(start, script, turns) && NextTurn(start, script, turns, t)
    ensures Over(start, script, next) && |next.turns| == |turns| + 1
  {
    TimelyNext(start, script, turns, t);
    next := EndRun(start, script, r);
  }

  lemma TurnIsPolled(start: Start, script: seq<TurnScript>, turns: seq<Turn>, t: Turn, r: Run)
    requires |turns| < |script| && !Failed(t.reply) && !script[|turns|].stopAfterTurn
    requires Between(start, script, r) && r.turns == WithPoll(turns + [t], r.pending)
    requires r.arrived == ArrivedBy(start, script, turns + [t])
    requires Timely(start, script, turns) && NextTurn(start, script, turns, t)
    requires r.pending == PollOf(start, Steering, turns + [t], r.arrived) && (r.pending == [] ==> r.steering == [])
    ensures Polled(start, script, r) && r.turns[|turns|].continues == t.continues
  {
    PollAndArrivals(start, script, turns, t, r.pending);
    TimelyNext(start, script, turns, t.(polled := r.pending));
  }

  /** What follows a turn: the end of the run, or a poll. */
  method AfterTurn(start: Start, ghost script: seq<TurnScript>, ghost turns: seq<Turn>, r: Run, t: Turn, s: TurnScript)
    returns (next: Run, hasMoreToolCalls: bool, over: bool)
    requires |turns| < |script| && s == script[|turns|] && r.turns == turns + [t]
    requires Core(start, script, r) && r.trace == TraceOf(start.prompts, r.turns) && r.pending == [] && t.polled == []
    requires r.arrived == Plus(AllArrived(start, script, turns), Preparing(script, |turns|))
    requires Timely(start, script, turns) && NextTurn(start, script, turns, t)
    ensures |next.turns| == |turns| + 1
    ensures over ==> Over(start, script, next)
    ensures !over ==> Polled(start, script, next) && hasMoreToolCalls == next.turns[|turns|].continues
  {
    ArrivedNext(start, script, turns, t);
    next := EnqueueArrivals(start, script, r, s.duringTurn);
    if Failed(t.reply) {
      next := EndAfterTurn(start, script, turns, t, next);
      return next, false, true;
    }
    hasMoreToolCalls := t.continues;
    if s.stopAfterTurn {
      next := EndAfterTurn(start, script, turns, t, next);
      return next, hasMoreToolCalls, true;
    }
    next := PollAfterTurn(start, script, next);
    TurnIsPolled(start, script, turns, t, next);
    over := false;
  }

  /** What has arrived up to the poll after one more turn. */
  lemma ArrivedNext(start: Start, script: seq<TurnScript>, turns: seq<Turn>, t: Turn)
    requires |turns| < |script|
    ensures ArrivedBy(start, script, turns + [t])
         == Plus(Plus(AllArrived(start, script, turns), Preparing(script, |turns|)), script[|turns|].duringTurn)
  {
    assert (turns + [t])[..|turns|] == turns;
  }

  /** Entering the poll's result into the turn does not change what has arrived. */
  lemma PollAndArrivals(start: Start, script: seq<TurnScript>, turns: seq<Turn>, t: Turn, polled: seq<Queued>)
    requires |turns| < |script|
    ensures WithPoll(turns + [t], polled) == turns + [t.(polled := polled)]
    ensures ArrivedBy(start, script, WithPoll(turns + [t], polled)) == ArrivedBy(start, script, turns + [t])
    ensures forall a :: PollOf(start, Steering, turns + [t.(polled := polled)], a)
                     == PollOf(start, Steering, turns + [t], a)
  {
    TurnsAppend(turns, t);
    TurnsAppend(turns, t.(polled := polled));
    assert (turns + [t])[..|turns|] == turns;
    ArrivedNext(start, script, turns, t);
    ArrivedNext(start, script, turns, t.(polled := polled));
  }

  /** One pass through the inner loop. */
  method RunTurn(start: Start, ghost script: seq<TurnScript>, r: Run, s: TurnScript)
    returns (next: Run, hasMoreToolCalls: bool, over: bool)
    requires Waiting(start, script, r) && |r.turns| < |script| && s == script[|r.turns|]
    requires r.turns == [] || r.turns[|r.turns| - 1].continues || r.pending != []
    ensures |next.turns| == |r.turns| + 1
    ensures over ==> Over(start, script, next)
    ensures !over ==> Polled(start, script, next) && hasMoreToolCalls == next.turns[|r.turns|].continues
  {
    var t;
    next, t := PlayTurn(start, script, r, s);
    next, hasMoreToolCalls, over := AfterTurn(start, script, r.turns, next, t, s);
  }

  /** A run between turns whose next step is a turn. */
  ghost predicate Waiting(start: Start, script: seq<TurnScript>, r: Run) {
    && Between(start, script, r) && r.arrived == AllArrived(start, script, r.turns) && Timely(start, script, r.turns)
    && r.pending == Awaited(start, script, r.turns)
    && (r.turns != [] ==> !Failed(r.turns[|r.turns| - 1].reply) && !script[|r.turns| - 1].stopAfterTurn)
  }

  /** A run that is over, or between two turns. */
  ghost predicate RanFrom(start: Start, script: seq<TurnScript>, r: Run) {
    Over(start, script, r) || Waiting(start, script, r)
  }

  /** A run that is over, or one that has played its whole script and waits. */
  ghost predicate RanAs(start: Start, script: seq<TurnScript>, r: Run, finished: bool) {
    if finished then Over(start, script, r) else Waiting(start, script, r) && |r.turns| == |script|
  }

  /** The head of the inner loop, entered after `outer` turns. */
  ghost predicate Looping(start: Start, script: seq<TurnScript>, r: Run, outer: nat, hasMoreToolCalls: bool) {
    && outer <= |r.turns| <= |script|
    && if outer == |r.turns| then Waiting(start, script, r) && hasMoreToolCalls && (r.turns == [] || r.pending != [])
       else Polled(start, script, r) && hasMoreToolCalls == r.turns[|r.turns| - 1].continues
  }

  /** Another turn follows, so no follow-ups are polled. */
  lemma AnotherTurn(start: Start, script: seq<TurnScript>, r: Run, outer: nat, hasMoreToolCalls: bool)
    requires Looping(start, script, r, outer, hasMoreToolCalls) && (hasMoreToolCalls || r.pending != [])
    ensures Waiting(start, script, r) && (r.turns == [] || r.turns[|r.turns| - 1].continues || r.pending != [])
  {
  }

  lemma NoOtherTurn(start: Start, script: seq<TurnScript>, r: Run, outer: nat, hasMoreToolCalls: bool)
    requires Looping(start, script, r, outer, hasMoreToolCalls) && !hasMoreToolCalls && r.pending == []
    ensures outer < |r.turns| && Polled(start, script, r) && !r.turns[|r.turns| - 1].continues
  {
  }

  /** One pass through the inner loop, at its head. */
  method LoopTurn(start: Start, ghost script: seq<TurnScript>, ghost outer: nat, r: Run, hasMoreToolCalls: bool,
                  s: TurnScript) returns (next: Run, more: bool, over: bool)
    requires Looping(start, script, r, outer, hasMoreToolCalls) && (hasMoreToolCalls || r.pending != [])
    requires |r.turns| < |script| && s == script[|r.turns|]
    ensures |next.turns| == |r.turns| + 1
    ensures over ==> Over(start, script, next)
    ensures !over ==> Looping(start, script, next, outer, more)
  {
    AnotherTurn(start, script, r, outer, hasMoreToolCalls);
    next, more, over := RunTurn(start, script, r, s);
    if !over {
      LoopsOn(start, script, next, outer, more);
    }
  }

  lemma LoopsOn(start: Start, script: seq<TurnScript>, r: Run, outer: nat, hasMoreToolCalls: bool)
    requires outer < |r.turns| && Polled(start, script, r) && hasMoreToolCalls == r.turns[|r.turns| - 1].continues
    ensures Looping(start, script, r, outer, hasMoreToolCalls)
  {
  }

  /** The agent would stop: it goes on with follow-ups, or the run ends. */
  method LoopIdle(start: Start, script: seq<TurnScript>, ghost outer: nat, r: Run, hasMoreToolCalls: bool)
    returns (next: Run, over: bool)
    requires Looping(start, script, r, outer, hasMoreToolCalls) && !hasMoreToolCalls && r.pending == []
    ensures |next.turns| == |r.turns| && outer < |next.turns|
    ensures if over then Over(start, script, next) else Looping(start, script, next, |next.turns|, true)
  {
    NoOtherTurn(start, script, r, outer, hasMoreToolCalls);
    next := PollWhenIdle(start, script, r, script[|r.turns| - 1]);
    over := |next.pending| == 0;
    if over {
      ShowsTrace(start.prompts, next.turns, next.trace);
      next := EndRun(start, script, next);
    }
  }

  /** The loop. It is suspended, unfinished, when the script ends: that gives every prefix of a run
      at a turn boundary. */
  method RunLoop(start: Start, script: seq<TurnScript>, r0: Run) returns (r: Run, finished: bool)
    requires Waiting(start, script, r0) && r0.turns == []
    ensures RanAs(start, script, r, finished)
  {
    r, finished := r0, false;
    while true
      invariant Looping(start, script, r, |r.turns|, true)
      decreases |script| - |r.turns|
    {
      var hasMoreToolCalls := true;
      ghost var outer := |r.turns|;
      while hasMoreToolCalls || |r.pending| > 0
        invariant Looping(start, script, r, outer, hasMoreToolCalls)
        decreases |script| - |r.turns|
      {
        if |r.turns| == |script| {
          AnotherTurn(start, script, r, outer, hasMoreToolCalls);
          return r, false;
        }
        var over;
        r, hasMoreToolCalls, over := LoopTurn(start, script, outer, r, hasMoreToolCalls, script[|r.turns|]);
        if over {
          return r, true;
        }
      }
      var over;
      r, over := LoopIdle(start, script, outer, r, hasMoreToolCalls);
      if over {
        return r, true;
      }
    }
  }

  // ---- entry points ----

  function Fresh(start: Start): Run {
    Run(start.base + start.prompts, start.prompts, TraceOf(start.prompts, []), [], start.steering, start.followUps,
        Arrivals(start.steering, start.followUps), [], [])
  }

  lemma FreshIsCore(start: Start, script: seq<TurnScript>)
    ensures Core(start, script, Fresh(start))
  {
    assert start.prompts + [] == start.prompts;
    assert start.base + start.prompts + [] == start.base + start.prompts;
  }

  /** Announce the prompts and run. The first steering poll may be skipped once. */
  method RunAgentLoop(start: Start, script: seq<TurnScript>) returns (r: Run, finished: bool)
    ensures RanAs(start, script, r, finished)
  {
    FreshIsCore(start, script);
    var trace := [AgentStart] + [TurnStart];
    for i := 0 to |start.prompts|
      invariant trace == [AgentStart, TurnStart] + AnnouncedAll(start.prompts[..i])
    {
      assert start.prompts[..i + 1][..i] == start.prompts[..i];
      trace := trace + Announced(start.prompts[i]);
    }
    assert start.prompts[..|start.prompts|] == start.prompts;
    var ready := Fresh(start).(trace := trace);
    ShowsTrace(start.prompts, [], trace);
    if !start.skipInitialPoll {
      SteeringIsPolled(start, script, ready);
      ready := PollSteering(start.steeringMode, ready);
    }
    r, finished := RunLoop(start, script, ready);
  }

  datatype ContinueError = NoMessages | LastIsAssistant

  /** Continue from the transcript without a new message. */
  method RunAgentLoopContinue(start: Start, script: seq<TurnScript>)
    returns (error: Option<ContinueError>, r: Run, finished: bool)
    requires start.prompts == []
    ensures error == if start.base == [] then Some(NoMessages)
                     else if start.base[|start.base| - 1].Assistant? then Some(LastIsAssistant) else None
    ensures error.Some? ==> r == Fresh(start) && !finished
    ensures error.None? && finished ==> Over(start, script, r)
    ensures error.None? && !finished ==> Waiting(start, script, r) && |r.turns| == |script|
  {
    if |start.base| == 0 {
      return Some(NoMessages), Fresh(start), false;
    }
    if start.base[|start.base| - 1].Assistant? {
      return Some(LastIsAssistant), Fresh(start), false;
    }
    error := None;
    r, finished := RunAgentLoop(start, script);
  }
}
