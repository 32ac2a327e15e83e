/** The session side of the agent harness: writes that are put off while a run is on, and queues whose
    drains can fail. The methods do to the fields what `HarnessSpec` says; the laws are in
    `HarnessTheorems`. */
module Harness {
  import opened Common
  import opened AgentTypes
  import opened AgentLoop
  import opened AgentTheorems
  import opened HarnessSpec
  import opened HarnessTheorems

  // ---- queues ----

  class MessageQueue {
    var items: seq<Message>

    constructor ()
      ensures items == []
    {
      items := [];
    }

    /** Take messages and announce it. While the announcement is awaited others may push; if it fails
        the messages go back in front. No message is lost or overtaken either way. */
    method DrainQueuedMessages(mode: QueueMode, arrivals: seq<Message>, fails: bool) returns (r: Option<seq<Message>>)
      modifies this
      ensures old(items) == [] ==> r == Some([]) && items == []
      ensures old(items) != [] && !fails ==>
                r == Some(Drain(mode, old(items)).0) && r.value != [] && r.value + items == old(items) + arrivals
      ensures old(items) != [] && fails ==> r == None && items == old(items) + arrivals
    {
      var messages := if mode.All? then items else if items == [] then [] else [items[0]];
      items := items[|messages|..];
      if |messages| == 0 {
        return Some(messages);
      }
      items := items + arrivals;
      if fails {
        items := messages + items;
        return None;
      }
      r := Some(messages);
    }
  }

  // ---- the harness ----

  class AgentHarness {
    var phase: Phase
    var pendingSessionWrites: seq<Write>
    var log: seq<LogEntry>

    function State(): Store
      reads this
    {
      Store(phase, pendingSessionWrites, log)
    }

    /** A step left what the specification says, and threw if that says so. */
    predicate Did(o: Outcome, thrown: bool)
      reads this
    {
      State() == o.store && thrown == o.thrown
    }

    constructor ()
      ensures State() == Store(Idle, [], [])
    {
      phase, pendingSessionWrites, log := Idle, [], [];
    }

    /** A setter or `appendMessage`: written at once while idle, else put off. A write made while idle
        keeps the order of all writes exactly when nothing else is pending but copies of itself. */
    method RequestWrite(write: Write, appendFails: bool) returns (thrown: bool)
      modifies this`pendingSessionWrites, this`log
      ensures thrown == (phase == Idle && appendFails)
      ensures State() == if thrown then old(State()) else Receive(old(State()), [write])
      ensures !thrown ==>
                (WritesIn(log) + pendingSessionWrites == old(WritesIn(log) + pendingSessionWrites) + [write]
                 <==> phase == InTurn || forall p <- pendingSessionWrites :: p == write)
    {
      if phase == Idle {
        if appendFails {
          return true;
        }
        DirectWriteKeepsOrderExactlyWhen(log, pendingSessionWrites, write);
        assert AllDirect([write]) == [Direct(write)];
        log := log + [Direct(write)];
      } else {
        Associate(WritesIn(log), pendingSessionWrites, [write]);
        pendingSessionWrites := pendingSessionWrites + [write];
      }
      thrown := false;
    }

    /** Others ask for writes while something is awaited. */
    method Arrive(arrivals: seq<Write>)
      modifies this`pendingSessionWrites, this`log
      ensures State() == Receive(old(State()), arrivals)
    {
      ReceiveNothing(State());
      for i := 0 to |arrivals|
        invariant State() == Receive(old(State()), arrivals[..i])
      {
        ReceiveMore(old(State()), arrivals, i);
        var _ := RequestWrite(arrivals[i], false);
      }
      assert arrivals[..|arrivals|] == arrivals;
    }

    /** Listeners are told; they ask for writes and may throw. */
    method Emit(arrivals: seq<Write>, throws: bool) returns (thrown: bool)
      modifies this`pendingSessionWrites, this`log
      ensures Did(Heard(old(State()), arrivals, throws), thrown)
    {
      Arrive(arrivals);
      thrown := throws;
    }

    /** Pending writes go to the log in order; one that fails stays first. */
    method FlushPendingSessionWrites(awaits: seq<Await>) returns (thrown: bool)
      modifies this`pendingSessionWrites, this`log
      ensures Did(Flush(old(State()), awaits), thrown)
    {
      var step := 0;
      while |pendingSessionWrites| > 0
        invariant step <= |awaits|
        invariant SameEnd(Flush(State(), awaits[step..]), Flush(old(State()), awaits))
        decreases |awaits| - step, |pendingSessionWrites|
      {
        ghost var before := State();
        var write := pendingSessionWrites[0];
        if step < |awaits| {
          FlushNext(before, awaits, step);
          Arrive(awaits[step].arrivals);
          step := step + 1;
          if awaits[step - 1].fails {
            return true;
          }
        }
        log := log + [Deferred(write)];
        pendingSessionWrites := pendingSessionWrites[1..];
      }
      thrown := false;
    }

    /** One event of a run. */
    method HandleAgentEvent(event: Event, h: Handling) returns (thrown: bool)
      modifies this
      ensures Did(Handle(old(State()), event, h), thrown)
    {
      match event
      case MessageEnd(m) => thrown := OnMessageEnd(m, h);
      case TurnEnd(_, _) => thrown := OnTurnEnd(h);
      case AgentEnd(_) => thrown := OnAgentEnd(h);
      case _ => thrown := Emit(h.listenerArrivals, h.listenerThrows);
    }

    method OnMessageEnd(m: Message, h: Handling) returns (thrown: bool)
      modifies this`pendingSessionWrites, this`log
      ensures Did(MessageEnded(old(State()), m, h), thrown)
    {
      if h.appendFails {
        return true;
      }
      log := log + [RunMessage(m)];
      thrown := Emit(h.listenerArrivals, h.listenerThrows);
    }

    /** An event handler that throws does not keep the pending writes from the log. */
    method OnTurnEnd(h: Handling) returns (thrown: bool)
      modifies this`pendingSessionWrites, this`log
      ensures Did(TurnEnded(old(State()), h), thrown)
    {
      var eventError := Emit(h.listenerArrivals, h.listenerThrows);
      thrown := FlushPendingSessionWrites(h.awaits);
      if thrown || eventError {
        return true;
      }
      thrown := Emit(h.lateArrivals, h.lateListenerThrows);
    }

    method OnAgentEnd(h: Handling) returns (thrown: bool)
      modifies this
      ensures Did(RunEnded(old(State()), h), thrown)
    {
      thrown := FlushPendingSessionWrites(h.awaits);
      if thrown {
        return;
      }
      phase := Idle;
      thrown := Emit(h.listenerArrivals, h.listenerThrows);
      if thrown {
        return;
      }
      thrown := Emit(h.lateArrivals, h.lateListenerThrows);
    }

    /** `prepareNextTurn`: the next turn starts with nothing pending. */
    method PrepareNextTurn(awaits: seq<Await>) returns (thrown: bool)
      modifies this`pendingSessionWrites, this`log
      ensures Did(Flush(old(State()), awaits), thrown)
      ensures old(phase) == InTurn ==> (thrown <==> pendingSessionWrites != [])
    {
      if phase == InTurn {
        FlushAccounted(State(), awaits);
      }
      thrown := FlushPendingSessionWrites(awaits);
    }

    /** One event of a run. A turn that follows another is prepared before its first event. */
    method HandleNext(ghost before: Outcome, events: seq<Event>, i: nat, h: Handling) returns (thrown: bool)
      requires i < |events| && before.store == State() && !before.thrown
      modifies this
      ensures Did(Step(before, events, i, h).outcome, thrown)
      ensures Prepared(events, i) && old(phase) == InTurn && !thrown ==> pendingSessionWrites == h.listenerArrivals
    {
      if Prepared(events, i) && phase == InTurn {
        StartsClean(before, events, i, h);
      }
      if i > 0 && events[i - 1].TurnEnd? && events[i].TurnStart? {
        thrown := PrepareNextTurn(h.preparing);
        if thrown {
          return;
        }
      }
      thrown := HandleAgentEvent(events[i], h);
    }

    /** The events of a run, up to the first that throws. */
    method HandleRun(events: seq<Event>, handlings: nat -> Handling) returns (thrown: bool)
      modifies this
      ensures Did(Play(old(State()), events, handlings, |events|).outcome, thrown)
    {
      thrown := false;
      for i := 0 to |events|
        invariant !thrown && Did(Play(old(State()), events, handlings, i).outcome, false)
      {
        ghost var before := Play(old(State()), events, handlings, i).outcome;
        PlayNext(old(State()), events, handlings, i);
        thrown := HandleNext(before, events, i, handlings(i));
        if thrown {
          StoppedPlay(old(State()), events, handlings, i + 1, |events|);
          return;
        }
      }
    }

    /** `emitRunFailure`: the failure is reported as a turn of its own, up to the first event that
        throws. */
    method EmitRunFailure(message: Message, handlings: nat -> Handling) returns (thrown: bool)
      modifies this
      ensures Did(Play(old(State()), FailureEvents(message), handlings, 4).outcome, thrown)
    {
      ghost var s := State();
      FailurePlay(s, message, handlings);
      thrown := HandleAgentEvent(MessageStart(message), handlings(0));
      if thrown {
        return;
      }
      thrown := HandleAgentEvent(MessageEnd(message), handlings(1));
      if thrown {
        return;
      }
      thrown := HandleAgentEvent(TurnEnd(message, []), handlings(2));
      if thrown {
        return;
      }
      thrown := HandleAgentEvent(AgentEnd([message]), handlings(3));
    }

    method StartPrompt() returns (busy: bool)
      modifies this`phase
      ensures busy == (old(phase) != Idle) && State() == old(State()).(phase := InTurn)
    {
      busy := phase != Idle;
      if !busy {
        phase := InTurn;
      }
    }

    /** The end of a prompt: what is still pending is flushed, and if reporting the failure or the flush
        throws the harness is idle all the same. That alone can leave writes pending while idle. */
    method EndPrompt(thrown: bool, awaits: seq<Await>) returns (failed: bool)
      modifies this
      ensures Did(Ended(Outcome(old(State()), thrown, []), awaits), failed)
    {
      var flushThrown := FlushPendingSessionWrites(awaits);
      failed := thrown || flushThrown;
      if failed {
        phase := Idle;
      }
    }

    /** The run of a prompt: the loop, which may throw after some of its events or at an event that
        cannot be handled. A script that ends early ends in a throw. Every turn whose end was handled has
        its reply and its tool results side by side in the log. */
    method PlayRun(start: Start, script: seq<TurnScript>, throwsAfter: Option<nat>, handlings: nat -> Handling)
      returns (thrown: bool, r: Run, finished: bool)
      requires phase == InTurn
      modifies this
      ensures RanAs(start, script, r, finished)
      ensures var events := CutAt(r.trace, throwsAfter);
              var p := Play(old(State()), events, handlings, |events|);
              && State() == p.outcome.store && thrown == (p.outcome.thrown || throwsAfter.Some? || !finished)
              && Accounted(old(State()), p.outcome) && RunInLog(old(log), log, start.prompts, r, p.took)
              && (!thrown ==> p.took == |r.trace| && phase == Idle)
      ensures throwsAfter.None? && finished && AllCalm(handlings, |r.trace|) ==> !thrown
    {
      r, finished := RunAgentLoop(start, script);
      ghost var s := State();
      var cut := if throwsAfter.Some? && throwsAfter.value < |r.trace| then throwsAfter.value else |r.trace|;
      thrown := HandleRun(r.trace[..cut], handlings);
      RunHandled(s, start, script, r, finished, throwsAfter, handlings);
      thrown := thrown || throwsAfter.Some? || !finished;
    }

    /** A prompt: its run, the report of a failure, and the end. All writes are kept in the order asked for,
        those put off in the order put off, and turns stay whole in the log, however the run went on. The
        messages logged are those of the events that were handled, and then the report of a failure. It
        fails exactly when a failure cannot be reported. */
    method Prompt(start: Start, script: seq<TurnScript>, throwsAfter: Option<nat>, handlings: nat -> Handling,
                  failure: Message, reporting: nat -> Handling, awaits: seq<Await>)
      returns (busy: bool, failed: bool, r: Run, finished: bool, ghost p: Prompted)
      modifies this
      ensures busy == (old(phase) != Idle)
      ensures busy ==> State() == old(State())
      ensures !busy ==>
                && RanAs(start, script, r, finished)
                && p == PromptOf(old(State()), CutAt(r.trace, throwsAfter), throwsAfter.Some? || !finished, handlings,
                                 failure, reporting, awaits)
                && State() == p.end.store && failed == p.end.thrown
      ensures !busy ==>
                && WritesIn(log) + pendingSessionWrites
                   == old(WritesIn(log) + pendingSessionWrites) + WritesIn(p.end.asked)
                && DeferredIn(log) + pendingSessionWrites
                   == old(DeferredIn(log) + pendingSessionWrites) + DeferredIn(p.end.asked)
      ensures !busy ==> old(log) <= log && TurnsHold(log, start.prompts, r.turns, p.ran.took)
      ensures !busy ==>
                p.ran.took <= |r.trace|
                && MessagesIn(log) == MessagesIn(old(log)) + Completed(r.trace[..p.ran.took])
                                      + (if p.told.took >= 2 then [failure] else [])
      ensures !busy ==>
                && phase == Idle && (failed <==> p.told.outcome.thrown)
                && (pendingSessionWrites != [] ==> failed && exists a <- awaits :: a.fails)
      ensures !busy && ((throwsAfter.None? && finished && AllCalm(handlings, |r.trace|)) || AllCalm(reporting, 4)) ==>
                !failed
    {
      busy := StartPrompt();
      failed, r, finished := false, Fresh(start), false;
      p := Prompted(Nothing(State()), Nothing(State()), Nothing(State()).outcome);
      if busy {
        return;
      }
      ghost var s := old(State());
      var thrown;
      thrown, r, finished := PlayRun(start, script, throwsAfter, handlings);
      p := PromptOf(s, CutAt(r.trace, throwsAfter), throwsAfter.Some? || !finished, handlings, failure, reporting,
                    awaits);
      ghost var handled := log;
      if thrown {
        thrown := EmitRunFailure(failure, reporting);
      }
      failed := EndPrompt(thrown, awaits);
      PromptKeeps(s, start, script, r, finished, throwsAfter, handlings, failure, reporting, awaits);
      LaterLogHolds(handled, log, start.prompts, r.turns, p.ran.took);
    }
  }

  /** The events handled before the loop throws. */
  function CutAt(trace: seq<Event>, throwsAfter: Option<nat>): seq<Event> {
    trace[..if throwsAfter.Some? && throwsAfter.value < |trace| then throwsAfter.value else |trace|]
  }

  function Nothing(s: Store): Progress { Progress(Outcome(s, false, []), 0) }

  predicate SameEnd(a: Outcome, b: Outcome) { a.store == b.store && a.thrown == b.thrown }

  lemma ReceiveNothing(s: Store)
    ensures Receive(s, []) == s
  {
    assert s.pending + [] == s.pending && s.log + AllDirect([]) == s.log;
  }

  lemma ReceiveMore(s: Store, writes: seq<Write>, i: nat)
    requires i < |writes|
    ensures Receive(s, writes[..i + 1]) == Receive(Receive(s, writes[..i]), [writes[i]])
  {
    var front, last := writes[..i], [writes[i]];
    assert writes[..i + 1] == front + last;
    Associate(s.pending, front, last);
    assert AllDirect(front + last) == AllDirect(front) + AllDirect(last);
    Associate(s.log, AllDirect(front), AllDirect(last));
  }

  lemma FlushNext(s: Store, awaits: seq<Await>, step: nat)
    requires s.pending != [] && step < |awaits|
    ensures var met := Heard(s, awaits[step].arrivals, awaits[step].fails);
            SameEnd(Flush(s, awaits[step..]),
                    if met.thrown then met else Flush(LogFirst(met.store), awaits[step + 1..]))
  {
    assert awaits[step..][1..] == awaits[step + 1..];
  }

  lemma PlayNext(s: Store, events: seq<Event>, handlings: nat -> Handling, i: nat)
    requires i < |events| && !Play(s, events, handlings, i).outcome.thrown
    ensures Play(s, events, handlings, i + 1)
         == Step(Play(s, events, handlings, i).outcome, events, i, handlings(i))
  {
  }

  /** After an event that throws no other is handled. */
  lemma {:induction false} StoppedPlay(s: Store, events: seq<Event>, handlings: nat -> Handling, n: nat, m: nat)
    requires n <= m <= |events| && Play(s, events, handlings, n).outcome.thrown
    ensures Play(s, events, handlings, m) == Play(s, events, handlings, n)
    decreases m
  {
    if n < m { StoppedPlay(s, events, handlings, n, m - 1); }
  }

  /** The events of a failure are handled one after the other. */
  lemma FailurePlay(s: Store, m: Message, handlings: nat -> Handling)
    ensures var events := FailureEvents(m);
            var o0 := Handle(s, events[0], handlings(0));
            var o1 := Handle(o0.store, events[1], handlings(1));
            var o2 := Handle(o1.store, events[2], handlings(2));
            var o3 := Handle(o2.store, events[3], handlings(3));
            SameEnd(Play(s, events, handlings, 4).outcome,
                    if o0.thrown then o0 else if o1.thrown then o1 else if o2.thrown then o2 else o3)
  {
    var events := FailureEvents(m);
    var p1 := Play(s, events, handlings, 1).outcome;
    var p2 := Play(s, events, handlings, 2).outcome;
    var p3 := Play(s, events, handlings, 3).outcome;
    assert Play(s, events, handlings, 0).outcome.store == s;
    assert SameEnd(p1, Handle(s, events[0], handlings(0)));
    assert !p1.thrown ==> SameEnd(p2, Handle(p1.store, events[1], handlings(1)));
    assert !p2.thrown ==> SameEnd(p3, Handle(p2.store, events[2], handlings(2)));
  }

  /** What the run of a prompt keeps. */
  lemma RunHandled(s: Store, start: Start, script: seq<TurnScript>, r: Run, finished: bool, throwsAfter: Option<nat>,
                   handlings: nat -> Handling)
    requires RanAs(start, script, r, finished) && s.phase == InTurn
    ensures var events := CutAt(r.trace, throwsAfter);
            var p := Play(s, events, handlings, |events|);
            && InSegments(s, events, |events|, p) && RunInLog(s.log, p.outcome.store.log, start.prompts, r, p.took)
            && EndsOnce(events) && (throwsAfter.None? && finished ==> EndsWithRun(events))
            && (throwsAfter.None? ==> events == r.trace)
    ensures throwsAfter.None? && AllCalm(handlings, |r.trace|) ==>
              !Play(s, r.trace, handlings, |r.trace|).outcome.thrown
  {
    var events := CutAt(r.trace, throwsAfter);
    RunEndsOnce(start, script, r, finished);
    CutOfRun(r.trace, |events|);
    PlayInSegments(s, events, handlings, |events|);
    RunIsInLog(s.log, Play(s, events, handlings, |events|).outcome.store.log, start.prompts, script, r, |events|,
               Play(s, events, handlings, |events|).took);
    if throwsAfter.None? && AllCalm(handlings, |r.trace|) {
      CalmPlay(s, r.trace, handlings, |r.trace|);
    }
  }

  /** What a prompt keeps. */
  lemma PromptKeeps(s: Store, start: Start, script: seq<TurnScript>, r: Run, finished: bool, throwsAfter: Option<nat>,
                    handlings: nat -> Handling, failure: Message, reporting: nat -> Handling, awaits: seq<Await>)
    requires RanAs(start, script, r, finished)
    ensures var breaks := throwsAfter.Some? || !finished;
            var p := PromptOf(s, CutAt(r.trace, throwsAfter), breaks, handlings, failure, reporting, awaits);
            var end := p.end.store;
            && WritesIn(end.log) + end.pending == WritesIn(s.log) + s.pending + WritesIn(p.end.asked)
            && DeferredIn(end.log) + end.pending == DeferredIn(s.log) + s.pending + DeferredIn(p.end.asked)
            && p.ran.took <= |r.trace| && s.log <= p.ran.outcome.store.log <= end.log
            && RunInLog(s.log, p.ran.outcome.store.log, start.prompts, r, p.ran.took)
            && MessagesIn(end.log) == MessagesIn(s.log) + Completed(r.trace[..p.ran.took])
                                      + (if p.told.took >= 2 then [failure] else [])
            && end.phase == Idle && (p.end.thrown <==> p.told.outcome.thrown)
            && (end.pending != [] ==> p.end.thrown && exists a <- awaits :: a.fails)
            && ((!breaks && AllCalm(handlings, |r.trace|)) || AllCalm(reporting, 4) ==> !p.end.thrown)
  {
    var breaks, events := throwsAfter.Some? || !finished, CutAt(r.trace, throwsAfter);
    RunHandled(s.(phase := InTurn), start, script, r, finished, throwsAfter, handlings);
    PromptHolds(s, events, breaks, handlings, failure, reporting, awaits);
    var p := PromptOf(s, events, breaks, handlings, failure, reporting, awaits);
    LedgerSays(s, p.end.store, p.end.asked);
    assert events[..p.ran.took] == r.trace[..p.ran.took];
    if (!breaks && AllCalm(handlings, |r.trace|)) || AllCalm(reporting, 4) {
      CalmPrompt(s, events, breaks, handlings, failure, reporting, awaits);
    }
  }

  /** A run whose failure cannot be reported and whose last flush fails leaves a write pending while
      idle. */
  method PendingWhileIdle(w: Write, failure: Message) returns (h: AgentHarness)
    ensures fresh(h) && h.State() == Store(Idle, [w], [])
  {
    h := new AgentHarness();
    var busy := h.StartPrompt();
    var thrown := h.HandleAgentEvent(AgentStart, Handling([], false, [w], false, [], [], false));
    assert h.State() == Store(InTurn, [w], []);
    // the run throws here, and so does the first event that reports it
    thrown := h.HandleAgentEvent(MessageStart(failure), Handling([], false, [], true, [], [], false));
    assert thrown && h.State() == Store(InTurn, [w], []);
    var failed := h.EndPrompt(thrown, [Await([], true)]);
    ReceiveNothing(Store(InTurn, [w], []));
  }

  /** There the next write overtakes the pending one, which was asked for before it. */
  method PendingWriteIsOvertaken(w: Write, v: Write, failure: Message) returns (h: AgentHarness)
    requires w != v
    ensures h.State() == Store(Idle, [w], [Direct(v)])
    ensures WritesIn(h.log) + h.pendingSessionWrites == [v, w]
  {
    h := PendingWhileIdle(w, failure);
    var _ := h.RequestWrite(v, false);
    assert [] + AllDirect([v]) == [Direct(v)];
    assert [Direct(v)][..0] == [];
  }

  /** A write made while idle keeps the order of all writes exactly when nothing else is pending but
      copies of itself; a flush that failed in an earlier run can leave something pending. */
  lemma DirectWriteKeepsOrderExactlyWhen(log: seq<LogEntry>, pending: seq<Write>, w: Write)
    ensures WritesIn(log + [Direct(w)]) + pending == WritesIn(log) + pending + [w] <==> forall p <- pending :: p == w
  {
    assert (log + [Direct(w)])[..|log|] == log;
    var a := WritesIn(log);
    Associate(a, [w], pending);
    Associate(a, pending, [w]);
    Cancel(a, [w] + pending, pending + [w]);
    RotationFixes(pending, w);
  }

  lemma {:induction false} RotationFixes(pending: seq<Write>, w: Write)
    ensures [w] + pending == pending + [w] <==> forall p <- pending :: p == w
    decreases |pending|
  {
    if pending != [] {
      var rest := pending[1..];
      assert pending == [pending[0]] + rest;
      RotationFixes(rest, w);
      if [w] + pending == pending + [w] {
        assert ([w] + pending)[0] == w == pending[0];
        assert ([w] + pending)[1..] == pending && (pending + [w])[1..] == rest + [w];
      }
      if forall p <- pending :: p == w {
        forall k | 0 <= k <= |pending| ensures ([w] + pending)[k] == (pending + [w])[k] {
          if k < |pending| { assert pending[k] in pending; }
          if k > 0 { assert pending[k - 1] in pending; }
        }
      }
    }
  }
}
