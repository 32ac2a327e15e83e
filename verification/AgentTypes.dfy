/** Messages and events of the agent loop, and the reducer that keeps the agent's own transcript. */
module AgentTypes {
  import opened Common

  datatype StopReason = Stop | Length | ToolUse | Error | Aborted

  datatype ToolCall = ToolCall(id: string, name: string, args: string)

  datatype Block = Text(text: string) | Thinking(text: string) | Call(call: ToolCall)

  datatype ToolOutput = ToolOutput(content: string, details: string, terminate: Option<bool>)

  datatype Message =
    | User(text: string)
    | Assistant(content: seq<Block>, stopReason: StopReason, errorMessage: Option<string>)
    | ToolResult(callId: string, toolName: string, output: string, details: string, isError: bool)
    | Custom(text: string)

  datatype Event =
    | AgentStart
    | TurnStart
    | MessageStart(message: Message)
    | MessageUpdate(message: Message)
    | MessageEnd(message: Message)
    | ToolStart(call: ToolCall)
    | ToolUpdate(call: ToolCall, partial: string)
    | ToolEnd(callId: string, toolName: string, result: ToolOutput, isError: bool)
    | TurnEnd(message: Message, results: seq<Message>)
    | AgentEnd(messages: seq<Message>)

  function Calls(content: seq<Block>): seq<ToolCall> {
    if content == [] then []
    else (if content[0].Call? then [content[0].call] else []) + Calls(content[1..])
  }

  lemma {:induction false} CallsConcat(a: seq<Block>, b: seq<Block>)
    ensures Calls(a + b) == Calls(a) + Calls(b)
  {
    if a == [] {
      assert a + b == b;
    } else {
      assert (a + b)[1..] == a[1..] + b && (a + b)[0] == a[0];
      CallsConcat(a[1..], b);
      Associate(if a[0].Call? then [a[0].call] else [], Calls(a[1..]), Calls(b));
    }
  }

  /** A call between other blocks is called between their calls. */
  lemma CallInPlace(a: seq<Block>, block: Block, b: seq<Block>)
    ensures Calls(a + [block] + b) == if block.Call? then Calls(a) + [block.call] + Calls(b) else Calls(a) + Calls(b)
  {
    CallsConcat(a + [block], b);
    CallsConcat(a, [block]);
    OneBlock(block);
  }

  lemma OneBlock(block: Block)
    ensures Calls([block]) == if block.Call? then [block.call] else []
  {
    assert [block][1..] == [];
  }

  // ---- projections of a trace ----

  /** Payloads of the completed messages, in order. */
  function Completed(trace: seq<Event>): seq<Message> {
    if trace == [] then []
    else if trace[0].MessageEnd? then [trace[0].message] + Completed(trace[1..])
    else Completed(trace[1..])
  }

  /** The events by which a failed run is reported. */
  function FailureEvents(m: Message): seq<Event> {
    [MessageStart(m), MessageEnd(m), TurnEnd(m, []), AgentEnd([m])]
  }

  predicate IsLifecycle(e: Event) { e.AgentStart? || e.TurnStart? || e.TurnEnd? || e.AgentEnd? }

  function Lifecycle(trace: seq<Event>): seq<Event> {
    if trace == [] then []
    else if IsLifecycle(trace[0]) then [trace[0]] + Lifecycle(trace[1..])
    else Lifecycle(trace[1..])
  }

  function Starts(trace: seq<Event>): multiset<string> {
    if trace == [] then multiset{}
    else Starts(trace[..|trace| - 1])
         + (if trace[|trace| - 1].ToolStart? then multiset{trace[|trace| - 1].call.id} else multiset{})
  }

  function Ends(trace: seq<Event>): multiset<string> {
    if trace == [] then multiset{}
    else Ends(trace[..|trace| - 1])
         + (if trace[|trace| - 1].ToolEnd? then multiset{trace[|trace| - 1].callId} else multiset{})
  }

  /** No prefix ends more executions of an id than it starts. */
  predicate Balanced(trace: seq<Event>) {
    trace == [] || (Balanced(trace[..|trace| - 1]) && Ends(trace) <= Starts(trace))
  }

  // ---- the agent's transcript ----

  datatype AgentState = AgentState(
    messages: seq<Message>,
    streaming: Option<Message>,
    pendingToolCalls: set<string>,
    errorMessage: Option<string>)

  function Reduce(s: AgentState, e: Event): AgentState {
    match e
    case MessageStart(m) => s.(streaming := Some(m))
    case MessageUpdate(m) => s.(streaming := Some(m))
    case MessageEnd(m) => s.(streaming := None, messages := s.messages + [m])
    case ToolStart(call) => s.(pendingToolCalls := s.pendingToolCalls + {call.id})
    case ToolEnd(id, _, _, _) => s.(pendingToolCalls := s.pendingToolCalls - {id})
    case TurnEnd(m, _) =>
      // an absent or empty error message leaves the state alone
      if m.Assistant? && m.errorMessage.Some? && m.errorMessage.value != "" then s.(errorMessage := m.errorMessage)
      else s
    case AgentEnd(_) => s.(streaming := None)
    case _ => s
  }

  function ReduceAll(s: AgentState, trace: seq<Event>): AgentState
    decreases |trace|
  {
    if trace == [] then s else Reduce(ReduceAll(s, trace[..|trace| - 1]), trace[|trace| - 1])
  }

  const IDLE := AgentState([], None, {}, None)

  /** The message that is being streamed after a trace, if there is one. */
  function StreamingAfter(trace: seq<Event>): Option<Message> { ReduceAll(IDLE, trace).streaming }

  // ---- projections distribute over concatenation ----

  lemma {:induction false} ReduceConcat(s: AgentState, a: seq<Event>, b: seq<Event>)
    ensures ReduceAll(s, a + b) == ReduceAll(ReduceAll(s, a), b)
    decreases |b|
  {
    if b == [] {
      assert a + b == a;
    } else {
      assert (a + b)[..|a + b| - 1] == a + b[..|b| - 1];
      ReduceConcat(s, a, b[..|b| - 1]);
    }
  }

  /** What is being streamed does not depend on the rest of the state. */
  lemma {:induction false} SameStreaming(s: AgentState, t: AgentState, trace: seq<Event>)
    requires s.streaming == t.streaming
    ensures ReduceAll(s, trace).streaming == ReduceAll(t, trace).streaming
    decreases |trace|
  {
    if trace != [] {
      SameStreaming(s, t, trace[..|trace| - 1]);
    }
  }

  lemma StreamingConcat(a: seq<Event>, b: seq<Event>)
    requires StreamingAfter(a) == None
    ensures StreamingAfter(a + b) == StreamingAfter(b)
  {
    ReduceConcat(IDLE, a, b);
    SameStreaming(ReduceAll(IDLE, a), IDLE, b);
  }

  lemma {:induction false} CompletedConcat(a: seq<Event>, b: seq<Event>)
    ensures Completed(a + b) == Completed(a) + Completed(b)
  {
    if a == [] {
      assert a + b == b;
    } else {
      assert (a + b)[1..] == a[1..] + b && (a + b)[0] == a[0];
      CompletedConcat(a[1..], b);
      if a[0].MessageEnd? {
        Associate([a[0].message], Completed(a[1..]), Completed(b));
      }
    }
  }

  lemma {:induction false} LifecycleConcat(a: seq<Event>, b: seq<Event>)
    ensures Lifecycle(a + b) == Lifecycle(a) + Lifecycle(b)
  {
    if a == [] {
      assert a + b == b;
    } else {
      assert (a + b)[1..] == a[1..] + b && (a + b)[0] == a[0];
      LifecycleConcat(a[1..], b);
      if IsLifecycle(a[0]) {
        Associate([a[0]], Lifecycle(a[1..]), Lifecycle(b));
      }
    }
  }

  lemma {:induction false} ToolCountsConcat(a: seq<Event>, b: seq<Event>)
    ensures Starts(a + b) == Starts(a) + Starts(b)
    ensures Ends(a + b) == Ends(a) + Ends(b)
    decreases |b|
  {
    if b == [] {
      assert a + b == a;
    } else {
      assert (a + b)[..|a + b| - 1] == a + b[..|b| - 1];
      ToolCountsConcat(a, b[..|b| - 1]);
    }
  }

  /** The reduced transcript is the old one followed by the completed messages. */
  lemma {:induction false} ReducedMessages(s: AgentState, trace: seq<Event>)
    ensures ReduceAll(s, trace).messages == s.messages + Completed(trace)
    decreases |trace|
  {
    if trace != [] {
      var front, last := trace[..|trace| - 1], trace[|trace| - 1];
      ReducedMessages(s, front);
      CompletedNext(front, last, trace);
      if last.MessageEnd? {
        Associate(s.messages, Completed(front), [last.message]);
      }
    }
  }

  lemma CompletedNext(front: seq<Event>, e: Event, trace: seq<Event>)
    requires trace == front + [e]
    ensures Completed(trace) == if e.MessageEnd? then Completed(front) + [e.message] else Completed(front)
  {
    CompletedConcat(front, [e]);
    assert [e][1..] == [];
    assert Completed([e]) == if e.MessageEnd? then [e.message] else [];
  }

  lemma StaysOpen(s: AgentState, e: Event, starts: multiset<string>, ends: multiset<string>, id: string)
    requires ends <= starts && (id in s.pendingToolCalls ==> ends[id] < starts[id])
    requires id in Reduce(s, e).pendingToolCalls
    ensures (ends + (if e.ToolEnd? then multiset{e.callId} else multiset{}))[id]
          < (starts + (if e.ToolStart? then multiset{e.call.id} else multiset{}))[id]
  {
  }

  /** The set of running tools holds exactly the ids whose last event is a start. With balanced
      counts that are equal at the end it is empty, however often an id repeats. */
  lemma {:induction false} PendingWithinOpen(s: AgentState, trace: seq<Event>)
    requires s.pendingToolCalls == {} && Balanced(trace)
    ensures forall id :: id in ReduceAll(s, trace).pendingToolCalls ==> Ends(trace)[id] < Starts(trace)[id]
    decreases |trace|
  {
    if trace != [] {
      var front, last := trace[..|trace| - 1], trace[|trace| - 1];
      PendingWithinOpen(s, front);
      forall id | id in ReduceAll(s, trace).pendingToolCalls ensures Ends(trace)[id] < Starts(trace)[id] {
        StaysOpen(ReduceAll(s, front), last, Starts(front), Ends(front), id);
      }
    }
  }

  /** Tool `id` was started and has not ended since. */
  ghost predicate IsRunning(trace: seq<Event>, id: string) {
    exists i :: 0 <= i < |trace| && trace[i].ToolStart? && trace[i].call.id == id && NoEndBehind(trace, i, id)
  }

  predicate NoEndBehind(trace: seq<Event>, i: nat, id: string) {
    forall j :: i < j < |trace| && trace[j].ToolEnd? ==> trace[j].callId != id
  }

  lemma RunningNext(front: seq<Event>, e: Event, id: string)
    ensures IsRunning(front + [e], id) <==>
              (e.ToolStart? && e.call.id == id) || (IsRunning(front, id) && !(e.ToolEnd? && e.callId == id))
  {
    var all, n := front + [e], |front|;
    if e.ToolStart? && e.call.id == id {
      assert all[n] == e && NoEndBehind(all, n, id);
    }
    if IsRunning(front, id) && !(e.ToolEnd? && e.callId == id) {
      var i :| 0 <= i < n && front[i].ToolStart? && front[i].call.id == id && NoEndBehind(front, i, id);
      assert all[i] == front[i] && NoEndBehind(all, i, id);
    }
    if IsRunning(all, id) {
      var i :| 0 <= i <= n && all[i].ToolStart? && all[i].call.id == id && NoEndBehind(all, i, id);
      if i < n {
        assert all[n] == e && front[i] == all[i];
        assert NoEndBehind(front, i, id) by { assert forall j :: i < j < n ==> front[j] == all[j]; }
      }
    }
  }

  /** The pending tool calls are exactly those that are running. */
  lemma {:induction false} PendingAreRunning(s: AgentState, trace: seq<Event>, id: string)
    requires s.pendingToolCalls == {}
    ensures id in ReduceAll(s, trace).pendingToolCalls <==> IsRunning(trace, id)
    decreases |trace|
  {
    if trace != [] {
      var front, last := trace[..|trace| - 1], trace[|trace| - 1];
      PendingAreRunning(s, front, id);
      RunningNext(front, last, id);
      assert front + [last] == trace;
    }
  }

  /** A turn ends with an error message. */
  predicate Errs(e: Event) {
    e.TurnEnd? && e.message.Assistant? && e.message.errorMessage.Some? && e.message.errorMessage.value != ""
  }

  /** The error the agent shows is that of the last turn that ended with one, here event `i`, or what it was. */
  lemma {:induction false} ErrorIsTheLast(s: AgentState, trace: seq<Event>, i: int)
    requires -1 <= i < |trace| && (i >= 0 ==> Errs(trace[i])) && forall k :: i < k < |trace| ==> !Errs(trace[k])
    ensures ReduceAll(s, trace).errorMessage == if i >= 0 then trace[i].message.errorMessage else s.errorMessage
    decreases |trace|
  {
    if i < |trace| - 1 {
      ErrorIsTheLast(s, trace[..|trace| - 1], i);
    }
  }

  lemma NothingPending(s: AgentState, trace: seq<Event>)
    requires s.pendingToolCalls == {} && Balanced(trace) && Ends(trace) == Starts(trace)
    ensures ReduceAll(s, trace).pendingToolCalls == {}
  {
    PendingWithinOpen(s, trace);
  }
}
