/** The stateful agent around the loop: its queues, its transcript, and the life cycle of a run. */
module Agent {
  import opened Common
  import opened AgentTypes
  import opened ToolCalls
  import opened ToolExecution
  import opened AgentLoop
  import opened AgentTheorems

  class PendingMessageQueue {
    var messages: seq<Message>
    var mode: QueueMode

    constructor (mode: QueueMode)
      ensures this.mode == mode && messages == []
    {
      this.mode, messages := mode, [];
    }

    method Enqueue(message: Message)
      modifies this`messages
      ensures messages == old(messages) + [message]
    {
      messages := messages + [message];
    }

    method HasItems() returns (b: bool)
      ensures b <==> messages != []
    {
      b := |messages| > 0;
    }

    /** Takes the front of the queue and leaves the rest: all of it, or at most one message. */
    method Drain() returns (drained: seq<Message>)
      modifies this`messages
      ensures (drained, messages) == AgentLoop.Drain(mode, old(messages))
      ensures drained + messages == old(messages)
    {
      if mode == All {
        drained := messages;
        messages := [];
        return;
      }
      if messages == [] {
        return [];
      }
      drained := [messages[0]];
      messages := messages[1..];
    }

    method Clear()
      modifies this`messages
      ensures messages == []
    {
      messages := [];
    }
  }

  datatype AgentError = Busy | NothingToContinue | CannotContinueFromAssistant

  /** A run that throws does so after some of its events, with the queues as they are then. */
  datatype Thrown = Thrown(after: nat, error: string, aborted: bool, steering: seq<Message>, followUps: seq<Message>)

  function FailureMessage(error: string, aborted: bool): Message {
    Assistant([Text("")], if aborted then Aborted else Error, Some(error))
  }

  /** The events emitted before a throw. */
  function Emitted(events: seq<Event>, t: Thrown): seq<Event> {
    events[..if t.after < |events| then t.after else |events|]
  }

  /** What a run adds to the transcript: its completed messages, and a failure message after a throw. */
  function GrownBy(events: seq<Event>, thrown: Option<Thrown>): seq<Message> {
    match thrown
    case None => Completed(events)
    case Some(t) => Completed(Emitted(events, t)) + [FailureMessage(t.error, t.aborted)]
  }

  class Agent {
    var messages: seq<Message>
    var isStreaming: bool
    var streamingMessage: Option<Message>
    var pendingToolCalls: set<string>
    var errorMessage: Option<string>
    var active: bool
    const steeringQueue: PendingMessageQueue
    const followUpQueue: PendingMessageQueue

    constructor (messages: seq<Message>, steeringMode: QueueMode, followUpMode: QueueMode)
      ensures Idle() && this.messages == messages
      ensures fresh(steeringQueue) && fresh(followUpQueue) && steeringQueue != followUpQueue
      ensures steeringQueue.mode == steeringMode && followUpQueue.mode == followUpMode
    {
      this.messages, isStreaming, streamingMessage, pendingToolCalls, errorMessage := messages, false, None, {}, None;
      active := false;
      steeringQueue := new PendingMessageQueue(steeringMode);
      followUpQueue := new PendingMessageQueue(followUpMode);
    }

    function State(): AgentState
      reads this
    {
      AgentState(messages, streamingMessage, pendingToolCalls, errorMessage)
    }

    predicate Idle()
      reads this
    {
      !active && !isStreaming && streamingMessage == None && pendingToolCalls == {}
    }

    /** Reduce one loop event into the state. */
    method ProcessEvent(event: Event)
      modifies this`messages, this`streamingMessage, this`pendingToolCalls, this`errorMessage
      ensures State() == Reduce(old(State()), event)
    {
      match event {
        case MessageStart(m) => streamingMessage := Some(m);
        case MessageUpdate(m) => streamingMessage := Some(m);
        case MessageEnd(m) =>
          streamingMessage := None;
          messages := messages + [m];
        case ToolStart(call) => pendingToolCalls := pendingToolCalls + {call.id};
        case ToolEnd(id, _, _, _) => pendingToolCalls := pendingToolCalls - {id};
        case TurnEnd(m, _) =>
          if m.Assistant? && m.errorMessage.Some? && m.errorMessage.value != "" {
            errorMessage := m.errorMessage;
          }
        case AgentEnd(_) => streamingMessage := None;
        case _ =>
      }
    }

    method ProcessEvents(events: seq<Event>)
      modifies this`messages, this`streamingMessage, this`pendingToolCalls, this`errorMessage
      ensures State() == ReduceAll(old(State()), events)
    {
      for i := 0 to |events|
        invariant State() == ReduceAll(old(State()), events[..i])
      {
        assert events[..i + 1][..i] == events[..i];
        ProcessEvent(events[i]);
      }
      assert events[..|events|] == events;
    }

    method FinishRun()
      modifies this`isStreaming, this`streamingMessage, this`pendingToolCalls, this`active
      ensures Idle()
    {
      isStreaming := false;
      streamingMessage := None;
      pendingToolCalls := {};
      active := false;
    }

    /** Run the executor's events with the agent marked active; report a throw; finish. Once the executor
        is done, whatever happened, the agent is idle again. The transcript has grown by the completed
        messages, also while the run is still on. */
    method RunWithLifecycle(events: seq<Event>, finished: bool, thrown: Option<Thrown>)
      requires !active
      modifies this
      ensures if finished || thrown.Some? then Idle() else active && isStreaming
      ensures messages == old(messages) + GrownBy(events, thrown)
    {
      active := true;
      isStreaming := true;
      streamingMessage := None;
      errorMessage := None;
      ghost var before := State();
      match thrown {
        case None =>
          ProcessEvents(events);
          ReducedMessages(before, events);
        case Some(t) =>
          var emitted := Emitted(events, t);
          ProcessEvents(emitted);
          ReducedMessages(before, emitted);
          ghost var atThrow := State();
          var m := FailureMessage(t.error, t.aborted);
          ProcessEvents(FailureEvents(m));
          ReducedMessages(atThrow, FailureEvents(m));
          FailureCompletes(m);
      }
      if finished || thrown.Some? {
        FinishRun();
      }
    }

    /** The start of a run; some messages may still be queued before its first poll. */
    function StartFor(prompts: seq<Message>, skipInitialPoll: bool, beforeFirstPoll: Arrivals): Start
      reads this, steeringQueue, followUpQueue
    {
      Start(messages, prompts, steeringQueue.mode, followUpQueue.mode,
            steeringQueue.messages + beforeFirstPoll.steering, followUpQueue.messages + beforeFirstPoll.followUps,
            skipInitialPoll)
    }

    function Queues(): Arrivals
      reads this, steeringQueue, followUpQueue
    {
      Arrivals(steeringQueue.messages, followUpQueue.messages)
    }

    /** Run the loop on prompts. Without a throw, a finished run leaves the old transcript followed by
        the messages the loop returned, and each queue what was not delivered. */
    method RunPromptMessages(prompts: seq<Message>, skipInitialPoll: bool, beforeFirstPoll: Arrivals,
                             script: seq<TurnScript>, thrown: Option<Thrown>)
      returns (r: Run, finished: bool)
      requires !active && steeringQueue != followUpQueue
      modifies this, steeringQueue`messages, followUpQueue`messages
      ensures RanAs(old(StartFor(prompts, skipInitialPoll, beforeFirstPoll)), script, r, finished)
      ensures thrown.None? ==>
                Carried(r, Queues())
                    == AllArrived(old(StartFor(prompts, skipInitialPoll, beforeFirstPoll)), script, r.turns)
      ensures Ran(old(messages), r, finished, thrown)
      ensures finished && thrown.None? ==> messages == old(messages) + r.newMessages
    {
      var start := StartFor(prompts, skipInitialPoll, beforeFirstPoll);
      r, finished := RunAgentLoop(start, script);
      if finished {
        RunGrammar(start, script, r);
      }
      QueuesAreFifo(start, script, r);
      RunWithLifecycle(r.trace, finished, thrown);
      KeepQueues(r, thrown);
    }

    /** Continue the loop without a new message. */
    method RunContinuation(beforeFirstPoll: Arrivals, script: seq<TurnScript>, thrown: Option<Thrown>)
      returns (r: Run, finished: bool)
      requires !active && steeringQueue != followUpQueue
      requires messages != [] && !messages[|messages| - 1].Assistant?
      modifies this, steeringQueue`messages, followUpQueue`messages
      ensures RanAs(old(StartFor([], false, beforeFirstPoll)), script, r, finished)
      ensures thrown.None? ==>
                Carried(r, Queues()) == AllArrived(old(StartFor([], false, beforeFirstPoll)), script, r.turns)
      ensures Ran(old(messages), r, finished, thrown)
    {
      var error;
      var start := StartFor([], false, beforeFirstPoll);
      error, r, finished := RunAgentLoopContinue(start, script);
      QueuesAreFifo(start, script, r);
      RunWithLifecycle(r.trace, finished, thrown);
      KeepQueues(r, thrown);
    }

    /** The transcript has grown by what the run completed, and the queues are those it left; the agent
        is idle when the run is over, and only then. */
    predicate Ran(before: seq<Message>, r: Run, finished: bool, thrown: Option<Thrown>)
      reads this, steeringQueue, followUpQueue
    {
      && (if finished || thrown.Some? then Idle() else active && isStreaming)
      && messages == before + GrownBy(r.trace, thrown)
      && steeringQueue.messages == (match thrown case None => r.steering case Some(t) => t.steering)
      && followUpQueue.messages == (match thrown case None => r.followUps case Some(t) => t.followUps)
    }

    method KeepQueues(r: Run, thrown: Option<Thrown>)
      requires steeringQueue != followUpQueue
      modifies steeringQueue`messages, followUpQueue`messages
      ensures steeringQueue.messages == (match thrown case None => r.steering case Some(t) => t.steering)
      ensures followUpQueue.messages == (match thrown case None => r.followUps case Some(t) => t.followUps)
    {
      match thrown {
        case None => steeringQueue.messages, followUpQueue.messages := r.steering, r.followUps;
        case Some(t) => steeringQueue.messages, followUpQueue.messages := t.steering, t.followUps;
      }
    }

    method Prompt(prompts: seq<Message>, beforeFirstPoll: Arrivals, script: seq<TurnScript>, thrown: Option<Thrown>)
      returns (error: Option<AgentError>, r: Run, finished: bool)
      requires steeringQueue != followUpQueue
      modifies this, steeringQueue`messages, followUpQueue`messages
      ensures error == if old(active) then Some(Busy) else None
      ensures error.Some? ==> State() == old(State()) && active == old(active)
      ensures error.None? ==> Ran(old(messages), r, finished, thrown)
      ensures error.None? ==> RanAs(old(StartFor(prompts, false, beforeFirstPoll)), script, r, finished)
      ensures error.None? && thrown.None? ==>
                Carried(r, Queues()) == AllArrived(old(StartFor(prompts, false, beforeFirstPoll)), script, r.turns)
    {
      if active {
        return Some(Busy), Fresh(StartFor(prompts, false, beforeFirstPoll)), false;
      }
      error := None;
      r, finished := RunPromptMessages(prompts, false, beforeFirstPoll, script, thrown);
    }

    /** How a continued run starts. After an assistant message it starts with what is queued: steering
        messages first, and then the first poll of the run is skipped so that one-at-a-time mode does
        not deliver two. */
    function ContinuedFrom(beforeFirstPoll: Arrivals): Start
      requires messages != []
      reads this, steeringQueue, followUpQueue
    {
      var taken := TakenToContinue();
      if taken.steering != [] then
        StartFor(taken.steering, true, beforeFirstPoll)
          .(steering := AgentLoop.Drain(steeringQueue.mode, steeringQueue.messages).1 + beforeFirstPoll.steering)
      else if taken.followUps != [] then
        StartFor(taken.followUps, false, beforeFirstPoll)
          .(followUps := AgentLoop.Drain(followUpQueue.mode, followUpQueue.messages).1 + beforeFirstPoll.followUps)
      else StartFor([], false, beforeFirstPoll)
    }

    /** What a continued run takes from the queues for its prompts. */
    function TakenToContinue(): Arrivals
      requires messages != []
      reads this, steeringQueue, followUpQueue
    {
      if !messages[|messages| - 1].Assistant? then NO_ARRIVALS
      else if steeringQueue.messages != [] then
        Arrivals(AgentLoop.Drain(steeringQueue.mode, steeringQueue.messages).0, [])
      else Arrivals([], AgentLoop.Drain(followUpQueue.mode, followUpQueue.messages).0)
    }

    /** Continue from the transcript. After an assistant message there must be something queued. */
    method Continue(beforeFirstPoll: Arrivals, script: seq<TurnScript>, thrown: Option<Thrown>)
      returns (error: Option<AgentError>, r: Run, finished: bool)
      requires steeringQueue != followUpQueue
      modifies this, steeringQueue`messages, followUpQueue`messages
      ensures error == if old(active) then Some(Busy)
                       else if old(messages) == [] then Some(NothingToContinue)
                       else if old(messages)[|old(messages)| - 1].Assistant?
                               && old(steeringQueue.messages) == [] && old(followUpQueue.messages) == []
                            then Some(CannotContinueFromAssistant)
                       else None
      ensures error.Some? ==>
                State() == old(State()) && active == old(active)
                && steeringQueue.messages == old(steeringQueue.messages)
                && followUpQueue.messages == old(followUpQueue.messages)
      ensures error.None? ==> Ran(old(messages), r, finished, thrown)
      ensures error.None? ==> RanAs(old(ContinuedFrom(beforeFirstPoll)), script, r, finished)
      ensures error.None? && thrown.None? ==>
                Plus(old(TakenToContinue()), Carried(r, Queues()))
                == AllArrived(old(StartFor([], false, beforeFirstPoll)), script, r.turns)
      ensures error.None? && r.turns != [] && old(TakenToContinue()).steering != [] ==> r.turns[0].injected == []
    {
      error, r, finished := None, Fresh(StartFor([], false, beforeFirstPoll)), false;
      if active {
        return Some(Busy), r, false;
      }
      if |messages| == 0 {
        return Some(NothingToContinue), r, false;
      }
      ghost var all, taken := StartFor([], false, beforeFirstPoll), TakenToContinue();
      ghost var start := ContinuedFrom(beforeFirstPoll);
      if messages[|messages| - 1].Assistant? {
        var queuedSteering := steeringQueue.Drain();
        if |queuedSteering| > 0 {
          assert StartFor(queuedSteering, true, beforeFirstPoll) == start;
          Associate(queuedSteering, steeringQueue.messages, beforeFirstPoll.steering);
          r, finished := RunPromptMessages(queuedSteering, true, beforeFirstPoll, script, thrown);
          QueuedFirst(start, script, r.turns, all, taken);
          SkippedPoll(start, script, r);
          return;
        }
        var queuedFollowUps := followUpQueue.Drain();
        if |queuedFollowUps| > 0 {
          assert StartFor(queuedFollowUps, false, beforeFirstPoll) == start;
          Associate(queuedFollowUps, followUpQueue.messages, beforeFirstPoll.followUps);
          r, finished := RunPromptMessages(queuedFollowUps, false, beforeFirstPoll, script, thrown);
          QueuedFirst(start, script, r.turns, all, taken);
          return;
        }
        return Some(CannotContinueFromAssistant), r, false;
      }
      r, finished := RunContinuation(beforeFirstPoll, script, thrown);
      QueuedFirst(start, script, r.turns, all, taken);
    }
  }

  lemma FailureCompletes(m: Message)
    ensures Completed(FailureEvents(m)) == [m]
  {
    var none: seq<Event> := [];
    Append(none, MessageStart(m));
    Append(none + [MessageStart(m)], MessageEnd(m));
    Append(none + [MessageStart(m)] + [MessageEnd(m)], TurnEnd(m, []));
    Append(none + [MessageStart(m)] + [MessageEnd(m)] + [TurnEnd(m, [])], AgentEnd([m]));
    assert FailureEvents(m) == none + [MessageStart(m)] + [MessageEnd(m)] + [TurnEnd(m, [])] + [AgentEnd([m])];
  }
}
