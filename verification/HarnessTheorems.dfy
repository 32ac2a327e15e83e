/** What the session keeps: no write is lost or overtaken, a turn stays whole in the log, and only a failure
    makes a prompt fail. */
module HarnessTheorems {
  import opened Common
  import opened AgentTypes
  import opened AgentLoop
  import opened AgentTheorems
  import opened HarnessSpec

  // ---- projections of the log ----

  lemma {:induction false} EntriesConcat(a: seq<LogEntry>, b: seq<LogEntry>)
    ensures EntriesIn(a + b) == EntriesIn(a) + EntriesIn(b)
    decreases |b|
  {
    if b == [] {
      assert a + b == a;
    } else {
      var front := b[..|b| - 1];
      assert (a + b)[..|a + b| - 1] == a + front;
      EntriesConcat(a, front);
      if !b[|b| - 1].RunMessage? {
        Associate(EntriesIn(a), EntriesIn(front), [b[|b| - 1]]);
      }
    }
  }

  lemma {:induction false} EntriesOfWrites(log: seq<LogEntry>)
    requires forall k :: 0 <= k < |log| ==> !log[k].RunMessage?
    ensures EntriesIn(log) == log
    decreases |log|
  {
    if log != [] {
      EntriesOfWrites(log[..|log| - 1]);
    }
  }

  lemma {:induction false} WritesConcat(a: seq<LogEntry>, b: seq<LogEntry>)
    ensures WritesIn(a + b) == WritesIn(a) + WritesIn(b)
    ensures DeferredIn(a + b) == DeferredIn(a) + DeferredIn(b)
    decreases |b|
  {
    if b == [] {
      assert a + b == a;
    } else {
      var front, e := b[..|b| - 1], b[|b| - 1];
      assert (a + b)[..|a + b| - 1] == a + front;
      WritesConcat(a, front);
      if !e.RunMessage? {
        Associate(WritesIn(a), WritesIn(front), [e.write]);
        Associate(DeferredIn(a), DeferredIn(front), [e.write]);
      }
    }
  }

  lemma {:induction false} WritesOfEntries(log: seq<LogEntry>)
    ensures WritesIn(EntriesIn(log)) == WritesIn(log) && DeferredIn(EntriesIn(log)) == DeferredIn(log)
    decreases |log|
  {
    if log != [] {
      var front, e := log[..|log| - 1], log[|log| - 1];
      WritesOfEntries(front);
      assert e.RunMessage? || (EntriesIn(front) + [e])[..|EntriesIn(front)|] == EntriesIn(front);
    }
  }

  lemma {:induction false} WritesOfDeferred(writes: seq<Write>)
    ensures WritesIn(AllDeferred(writes)) == writes && DeferredIn(AllDeferred(writes)) == writes
    decreases |writes|
  {
    if writes != [] {
      var front := writes[..|writes| - 1];
      WritesOfDeferred(front);
      assert AllDeferred(writes)[..|writes| - 1] == AllDeferred(front);
      assert front + [writes[|writes| - 1]] == writes;
    }
  }

  lemma {:induction false} WritesAddNoMessages(before: seq<LogEntry>, after: seq<LogEntry>)
    requires Grows(before, after)
    ensures MessagesIn(after) == MessagesIn(before)
    decreases |after|
  {
    if |after| > |before| {
      var front := after[..|after| - 1];
      assert before <= front;
      WritesAddNoMessages(before, front);
    } else {
      assert after == before;
    }
  }

  lemma {:induction false} MessagesConcat(a: seq<LogEntry>, b: seq<LogEntry>)
    ensures MessagesIn(a + b) == MessagesIn(a) + MessagesIn(b)
    decreases |b|
  {
    if b == [] {
      assert a + b == a;
    } else {
      var front := b[..|b| - 1];
      assert (a + b)[..|a + b| - 1] == a + front;
      MessagesConcat(a, front);
      if b[|b| - 1].RunMessage? {
        Associate(MessagesIn(a), MessagesIn(front), [b[|b| - 1].message]);
      }
    }
  }

  /** Only writes were added. */
  predicate Grows(before: seq<LogEntry>, after: seq<LogEntry>) {
    before <= after && forall k :: |before| <= k < |after| ==> !after[k].RunMessage?
  }

  lemma GrowsOn(a: seq<LogEntry>, b: seq<LogEntry>, c: seq<LogEntry>)
    requires Grows(a, b) && Grows(b, c)
    ensures Grows(a, c)
  {
    forall k | |a| <= k < |c| ensures !c[k].RunMessage? {
      if k < |b| { assert c[k] == b[k]; }
    }
  }

  // ---- no write is lost or overtaken ----

  /** All writes of the session in order: those logged, then those pending. */
  function Ledger(s: Store): seq<LogEntry> { EntriesIn(s.log) + AllDeferred(s.pending) }

  /** Nothing waits while idle. */
  predicate Quiet(s: Store) { s.phase == Idle ==> s.pending == [] }

  /** What a step adds to the session's writes is what was asked for meanwhile. */
  ghost predicate Accounted(s: Store, o: Outcome) {
    Ledger(o.store) == Ledger(s) + o.asked && Quiet(o.store) && s.log <= o.store.log
  }

  /** Writes in the order asked for, and writes put off in the order put off: each logged, then pending. */
  lemma LedgerSays(s: Store, t: Store, asked: seq<LogEntry>)
    requires Ledger(t) == Ledger(s) + asked
    ensures WritesIn(t.log) + t.pending == WritesIn(s.log) + s.pending + WritesIn(asked)
    ensures DeferredIn(t.log) + t.pending == DeferredIn(s.log) + s.pending + DeferredIn(asked)
  {
    WritesConcat(Ledger(s), asked);
    LedgerWrites(s);
    LedgerWrites(t);
  }

  lemma LedgerWrites(s: Store)
    ensures WritesIn(Ledger(s)) == WritesIn(s.log) + s.pending
    ensures DeferredIn(Ledger(s)) == DeferredIn(s.log) + s.pending
  {
    WritesConcat(EntriesIn(s.log), AllDeferred(s.pending));
    WritesOfEntries(s.log);
    WritesOfDeferred(s.pending);
  }

  lemma DeferredConcat(a: seq<Write>, b: seq<Write>)
    ensures AllDeferred(a + b) == AllDeferred(a) + AllDeferred(b)
  {
  }

  lemma HeardAccounted(s: Store, writes: seq<Write>, throws: bool)
    requires Quiet(s)
    ensures Accounted(s, Heard(s, writes, throws))
    ensures Grows(s.log, Receive(s, writes).log) && Receive(s, writes).phase == s.phase
  {
    if s.phase.InTurn? {
      DeferredConcat(s.pending, writes);
      Associate(EntriesIn(s.log), AllDeferred(s.pending), AllDeferred(writes));
    } else {
      EntriesConcat(s.log, AllDirect(writes));
      EntriesOfWrites(AllDirect(writes));
      assert AllDeferred([]) == [];
      assert EntriesIn(s.log) + [] == EntriesIn(s.log);
      assert EntriesIn(s.log) + AllDirect(writes) + [] == EntriesIn(s.log) + AllDirect(writes);
    }
  }

  lemma JoinAccounted(s: Store, a: Outcome, b: Outcome)
    requires Accounted(s, a) && Accounted(a.store, b)
    ensures Accounted(s, Join(a, b))
  {
    Associate(Ledger(s), a.asked, b.asked);
  }

  lemma NothingAccounted(s: Store, o: Outcome)
    requires Quiet(s) && o.store == s && o.asked == []
    ensures Accounted(s, o)
  {
    assert Ledger(s) + [] == Ledger(s);
  }

  /** Moving the first pending write to the log changes no order. */
  lemma LogFirstKeeps(s: Store)
    requires s.pending != []
    ensures Ledger(LogFirst(s)) == Ledger(s) && Grows(s.log, LogFirst(s).log)
    ensures Quiet(s) ==> Quiet(LogFirst(s))
  {
    var first, rest := Deferred(s.pending[0]), s.pending[1..];
    EntriesConcat(s.log, [first]);
    EntriesOfWrites([first]);
    assert AllDeferred(s.pending) == [first] + AllDeferred(rest);
    Associate(EntriesIn(s.log), [first], AllDeferred(rest));
  }

  lemma LogFirstAccounted(s: Store, o: Outcome)
    requires s.pending != [] && Accounted(LogFirst(s), o)
    ensures Accounted(s, o)
  {
    LogFirstKeeps(s);
  }

  /** A flush logs all that is pending unless an append fails, and loses nothing if one does. */
  lemma {:induction false} FlushAccounted(s: Store, awaits: seq<Await>)
    requires Quiet(s)
    ensures var o := Flush(s, awaits);
            && Accounted(s, o) && o.store.phase == s.phase && Grows(s.log, o.store.log)
            && (o.thrown <==> o.store.pending != [])
            && (o.thrown ==> exists a <- awaits :: a.fails)
    decreases |awaits|, |s.pending|
  {
    if s.pending == [] {
      NothingAccounted(s, Flush(s, awaits));
    } else if awaits == [] {
      LogFirstKeeps(s);
      FlushAccounted(LogFirst(s), []);
      GrowsOn(s.log, LogFirst(s).log, Flush(s, []).store.log);
    } else {
      FlushOneAccounted(s, awaits);
    }
  }

  lemma FlushOneAccounted(s: Store, awaits: seq<Await>)
    requires Quiet(s) && s.pending != [] && awaits != []
    ensures var o := Flush(s, awaits);
            && Accounted(s, o) && o.store.phase == s.phase && Grows(s.log, o.store.log)
            && (o.thrown <==> o.store.pending != [])
            && (o.thrown ==> exists a <- awaits :: a.fails)
    decreases |awaits|, 0
  {
    var a := awaits[0];
    var met := Heard(s, a.arrivals, a.fails);
    HeardAccounted(s, a.arrivals, a.fails);
    if a.fails {
      assert a in awaits;
    } else {
      LogFirstKeeps(met.store);
      FlushAccounted(LogFirst(met.store), awaits[1..]);
      var rest := Flush(LogFirst(met.store), awaits[1..]);
      LogFirstAccounted(met.store, rest);
      JoinAccounted(s, met, rest);
      GrowsOn(s.log, LogFirst(met.store).log, rest.store.log);
      if rest.thrown {
        var b :| b in awaits[1..] && b.fails;
        assert b in awaits;
      }
    }
  }

  /** Pending writes and those asked for during the flush move to the log in order, up to the first append
      that fails. */
  lemma {:induction false} FlushMoves(s: Store, awaits: seq<Await>) returns (moved: seq<Write>, used: nat)
    requires s.phase == InTurn
    ensures var o := Flush(s, awaits);
            && used <= |awaits| && o.asked == AllDeferred(Arrived(awaits[..used]))
            && o.store.log == s.log + AllDeferred(moved)
            && moved + o.store.pending == s.pending + Arrived(awaits[..used])
            && (if o.thrown then used == |moved| + 1 && awaits[|moved|].fails else o.store.pending == [])
            && forall k :: 0 <= k < used && k < |moved| ==> !awaits[k].fails
    decreases |awaits|, |s.pending|
  {
    if s.pending == [] {
      moved, used := [], 0;
      assert s.log + AllDeferred([]) == s.log;
    } else if awaits == [] {
      var rest;
      rest, used := FlushMoves(LogFirst(s), []);
      moved := [s.pending[0]] + rest;
      MovedFirst(s.log, s.pending[0], rest);
      assert awaits[..0] == [] && s.pending == [s.pending[0]] + s.pending[1..];
      assert rest + [] == rest && s.pending[1..] + [] == s.pending[1..];
    } else {
      moved, used := FlushOneMoves(s, awaits);
    }
  }

  lemma MovedFirst(log: seq<LogEntry>, first: Write, rest: seq<Write>)
    ensures log + [Deferred(first)] + AllDeferred(rest) == log + AllDeferred([first] + rest)
  {
    assert AllDeferred([first] + rest) == [Deferred(first)] + AllDeferred(rest);
  }

  lemma FlushOneMoves(s: Store, awaits: seq<Await>) returns (moved: seq<Write>, used: nat)
    requires s.phase == InTurn && s.pending != [] && awaits != []
    ensures var o := Flush(s, awaits);
            && used <= |awaits| && o.asked == AllDeferred(Arrived(awaits[..used]))
            && o.store.log == s.log + AllDeferred(moved)
            && moved + o.store.pending == s.pending + Arrived(awaits[..used])
            && (if o.thrown then used == |moved| + 1 && awaits[|moved|].fails else o.store.pending == [])
            && forall k :: 0 <= k < used && k < |moved| ==> !awaits[k].fails
    decreases |awaits|, 0
  {
    var a := awaits[0];
    var met := Receive(s, a.arrivals);
    if a.fails {
      moved, used := [], 1;
      assert s.log + AllDeferred([]) == s.log;
      ArrivedNext(awaits, 0);
      assert a.arrivals + Arrived([]) == a.arrivals;
    } else {
      var rest, more := FlushMoves(LogFirst(met), awaits[1..]);
      moved, used := [s.pending[0]] + rest, more + 1;
      MovedFirst(s.log, s.pending[0], rest);
      ArrivedNext(awaits, more);
      DeferredConcat(a.arrivals, Arrived(awaits[1..][..more]));
      MovedAll(s.pending, a.arrivals, Arrived(awaits[1..][..more]), rest,
               Flush(LogFirst(met), awaits[1..]).store.pending);
      forall k | 0 <= k < used && k < |moved| ensures !awaits[k].fails {
        if k > 0 { assert !awaits[1..][k - 1].fails; }
      }
    }
  }

  lemma ArrivedNext(awaits: seq<Await>, more: nat)
    requires more < |awaits|
    ensures Arrived(awaits[..more + 1]) == awaits[0].arrivals + Arrived(awaits[1..][..more])
  {
    assert awaits[..more + 1][1..] == awaits[1..][..more];
  }

  lemma MovedAll(pending: seq<Write>, now: seq<Write>, later: seq<Write>, rest: seq<Write>, left: seq<Write>)
    requires pending != [] && rest + left == (pending + now)[1..] + later
    ensures [pending[0]] + rest + left == pending + (now + later)
  {
    assert pending + now == [pending[0]] + (pending + now)[1..];
    Associate([pending[0]], rest, left);
    Associate([pending[0]], (pending + now)[1..], later);
    Associate(pending, now, later);
  }

  // ---- one event ----

  /** What one event adds to the log while a turn is on. */
  ghost predicate TurnLog(event: Event, before: seq<LogEntry>, after: seq<LogEntry>, took: bool) {
    match event
    case MessageEnd(m) => after == if took then before + [RunMessage(m)] else before
    case TurnEnd(_, _) => took && Grows(before, after)
    case AgentEnd(_) => took && Grows(before, after)
    case _ => took && after == before
  }

  /** What handling an event keeps; a message that could be logged has been. */
  ghost predicate Handled(s: Store, event: Event, took: bool, o: Outcome) {
    && Accounted(s, o)
    && (s.phase == InTurn ==> TurnLog(event, s.log, o.store.log, took))
    && MessagesIn(o.store.log)
       == (if event.MessageEnd? && took then MessagesIn(s.log) + [event.message] else MessagesIn(s.log))
    && (if event.AgentEnd? then !o.thrown ==> o.store.phase == Idle else o.store.phase == s.phase)
  }

  lemma MessageHandled(s: Store, m: Message, h: Handling)
    requires Quiet(s)
    ensures Handled(s, MessageEnd(m), !h.appendFails, MessageEnded(s, m, h))
  {
    if h.appendFails {
      NothingAccounted(s, MessageEnded(s, m, h));
    } else {
      var logged := s.(log := s.log + [RunMessage(m)]);
      assert logged.log[..|s.log|] == s.log;
      HeardAccounted(logged, h.listenerArrivals, h.listenerThrows);
      WritesAddNoMessages(logged.log, Receive(logged, h.listenerArrivals).log);
    }
  }

  lemma TurnEndHandled(s: Store, event: Event, h: Handling)
    requires Quiet(s) && event.TurnEnd?
    ensures Handled(s, event, true, TurnEnded(s, h)) && Grows(s.log, TurnEnded(s, h).store.log)
    ensures !TurnEnded(s, h).thrown && s.phase == InTurn ==> TurnEnded(s, h).store.pending == h.lateArrivals
  {
    var heard := Heard(s, h.listenerArrivals, false);
    HeardAccounted(s, h.listenerArrivals, false);
    FlushAccounted(heard.store, h.awaits);
    var flush := Flush(heard.store, h.awaits);
    JoinAccounted(s, heard, flush);
    GrowsOn(s.log, heard.store.log, flush.store.log);
    if !flush.thrown && !h.listenerThrows {
      HeardAccounted(flush.store, h.lateArrivals, h.lateListenerThrows);
      JoinAccounted(s, Join(heard, flush), Heard(flush.store, h.lateArrivals, h.lateListenerThrows));
      GrowsOn(s.log, flush.store.log, Receive(flush.store, h.lateArrivals).log);
      assert [] + h.lateArrivals == h.lateArrivals;
    }
    WritesAddNoMessages(s.log, TurnEnded(s, h).store.log);
  }

  lemma AgentEndHandled(s: Store, event: Event, h: Handling)
    requires Quiet(s) && event.AgentEnd?
    ensures Handled(s, event, true, RunEnded(s, h)) && Grows(s.log, RunEnded(s, h).store.log)
  {
    var flush := Flush(s, h.awaits);
    FlushAccounted(s, h.awaits);
    if !flush.thrown {
      var idle := flush.store.(phase := Idle);
      var heard := Heard(idle, h.listenerArrivals, h.listenerThrows);
      IdleAccounted(s, flush);
      HeardAccounted(idle, h.listenerArrivals, h.listenerThrows);
      JoinAccounted(s, flush.(store := idle), heard);
      GrowsOn(s.log, flush.store.log, heard.store.log);
      if !h.listenerThrows {
        HeardAccounted(heard.store, h.lateArrivals, h.lateListenerThrows);
        JoinAccounted(s, Join(flush, heard), Heard(heard.store, h.lateArrivals, h.lateListenerThrows));
        GrowsOn(s.log, heard.store.log, Receive(heard.store, h.lateArrivals).log);
      }
    }
    WritesAddNoMessages(s.log, RunEnded(s, h).store.log);
  }

  lemma IdleAccounted(s: Store, o: Outcome)
    requires Accounted(s, o) && o.store.pending == []
    ensures Accounted(s, o.(store := o.store.(phase := Idle)))
  {
  }

  lemma PassingHandled(s: Store, event: Event, h: Handling)
    requires Quiet(s) && !event.MessageEnd? && !event.TurnEnd? && !event.AgentEnd?
    ensures Handled(s, event, true, Heard(s, h.listenerArrivals, h.listenerThrows))
  {
    HeardAccounted(s, h.listenerArrivals, h.listenerThrows);
    WritesAddNoMessages(s.log, Receive(s, h.listenerArrivals).log);
  }

  lemma EventHandled(s: Store, event: Event, h: Handling)
    requires Quiet(s)
    ensures Handled(s, event, Takes(event, h), Handle(s, event, h))
  {
    match event
    case MessageEnd(m) => MessageHandled(s, m, h);
    case TurnEnd(_, _) => TurnEndHandled(s, event, h);
    case AgentEnd(_) => AgentEndHandled(s, event, h);
    case _ => PassingHandled(s, event, h);
  }

  /** While a turn is on, the writes asked for are those the handling brings, up to where it throws. */
  lemma AskedByEvent(s: Store, event: Event, h: Handling) returns (used: nat)
    requires s.phase == InTurn && !event.AgentEnd?
    ensures used <= |h.awaits|
    ensures var o := Handle(s, event, h);
            if !Takes(event, h) then o.asked == []
            else if event.TurnEnd? then
              o.asked == AllDeferred(h.listenerArrivals + Arrived(h.awaits[..used])
                                     + (if Announces(s, h) then h.lateArrivals else []))
            else o.asked == AllDeferred(h.listenerArrivals)
  {
    used := 0;
    if event.TurnEnd? {
      var heard := Receive(s, h.listenerArrivals);
      var moved;
      moved, used := FlushMoves(heard, h.awaits);
      var arrived := Arrived(h.awaits[..used]);
      DeferredConcat(h.listenerArrivals, arrived);
      DeferredConcat(h.listenerArrivals + arrived, h.lateArrivals);
      FlushAccounted(heard, h.awaits);
      assert h.listenerArrivals + arrived + [] == h.listenerArrivals + arrived;
    }
  }

  /** At the end of a run what arrives during the flush is put off; what is asked for then, idle, is not. */
  lemma AskedAtEnd(s: Store, h: Handling) returns (used: nat)
    requires s.phase == InTurn
    ensures used <= |h.awaits|
    ensures var flushed, o := AllDeferred(Arrived(h.awaits[..used])), RunEnded(s, h);
            o.asked == if Flush(s, h.awaits).thrown then flushed
                       else flushed + AllDirect(h.listenerArrivals)
                            + (if h.listenerThrows then [] else AllDirect(h.lateArrivals))
  {
    var moved;
    moved, used := FlushMoves(s, h.awaits);
    var flushed := AllDeferred(Arrived(h.awaits[..used]));
    assert flushed + AllDirect(h.listenerArrivals) + [] == flushed + AllDirect(h.listenerArrivals);
  }

  /** The end of the turn is announced to the listeners that come last. */
  predicate Announces(s: Store, h: Handling) {
    !h.listenerThrows && !Flush(Receive(s, h.listenerArrivals), h.awaits).thrown
  }

  // ---- events of a run ----

  /** The run ends at its last event or not at all. */
  predicate EndsOnce(events: seq<Event>) { forall k :: 0 <= k < |events| - 1 ==> !events[k].AgentEnd? }

  /** A log that run events can leave: each completed message is logged at its event, and other writes
      only where a turn or the run ends. */
  ghost predicate Segmented(log: seq<LogEntry>, events: seq<Event>)
    decreases |events|, 0
  {
    if events == [] then log == []
    else
      var front, e := events[..|events| - 1], events[|events| - 1];
      match e
      case MessageEnd(m) => log != [] && log[|log| - 1] == RunMessage(m) && Segmented(log[..|log| - 1], front)
      case TurnEnd(_, _) => EndsInWrites(log, front)
      case AgentEnd(_) => EndsInWrites(log, front)
      case _ => Segmented(log, front)
  }

  ghost predicate EndsInWrites(log: seq<LogEntry>, front: seq<Event>)
    decreases |front|, 1
  {
    exists n :: 0 <= n <= |log| && Segmented(log[..n], front) && forall k :: n <= k < |log| ==> !log[k].RunMessage?
  }

  lemma SegmentedNext(log: seq<LogEntry>, events: seq<Event>, e: Event, more: seq<LogEntry>)
    requires Segmented(log, events)
    requires match e
             case MessageEnd(m) => more == [RunMessage(m)]
             case TurnEnd(_, _) => forall k :: 0 <= k < |more| ==> !more[k].RunMessage?
             case AgentEnd(_) => forall k :: 0 <= k < |more| ==> !more[k].RunMessage?
             case _ => more == []
    ensures Segmented(log + more, events + [e])
  {
    assert (events + [e])[..|events|] == events;
    assert (log + more)[..|log|] == log;
    if more == [] { assert log + more == log; }
  }

  /** The messages logged are those the events completed. */
  lemma {:induction false} LoggedMessages(log: seq<LogEntry>, events: seq<Event>)
    requires Segmented(log, events)
    ensures MessagesIn(log) == Completed(events)
    decreases |events|
  {
    if events != [] {
      var front, e := events[..|events| - 1], events[|events| - 1];
      assert events == front + [e];
      CompletedConcat(front, [e]);
      assert [e][..0] == [];
      if e.MessageEnd? {
        LoggedMessages(log[..|log| - 1], front);
      } else if e.TurnEnd? || e.AgentEnd? {
        var n :| 0 <= n <= |log| && Segmented(log[..n], front) && forall k :: n <= k < |log| ==> !log[k].RunMessage?;
        LoggedMessages(log[..n], front);
        WritesAddNoMessages(log[..n], log);
      } else {
        LoggedMessages(log, front);
      }
    }
  }

  lemma LastOfStretch(log: seq<LogEntry>, n: nat, messages: seq<Message>, m: Message)
    requires log != [] && n < |log| && log[|log| - 1] == RunMessage(m)
    requires log[..|log| - 1][n..] == RunMessages(messages)
    ensures log[n..] == RunMessages(messages + [m]) && log[..|log| - 1][..n] == log[..n]
  {
    assert log[n..] == log[..|log| - 1][n..] + [log[|log| - 1]];
  }

  /** Between ends of turns the log holds the completed messages and nothing else. */
  lemma {:induction false} QuietStretch(log: seq<LogEntry>, a: seq<Event>, b: seq<Event>) returns (n: nat)
    requires Segmented(log, a + b) && Lifecycle(b) == []
    ensures n <= |log| && Segmented(log[..n], a) && log[n..] == RunMessages(Completed(b))
    decreases |b|
  {
    if b == [] {
      assert a + b == a;
      n := |log|;
      assert log[..n] == log;
    } else {
      var front, e := b[..|b| - 1], b[|b| - 1];
      assert b == front + [e] && (a + b)[..|a + b| - 1] == a + front;
      LifecycleConcat(front, [e]);
      CompletedConcat(front, [e]);
      assert [e][1..] == [];
      if e.MessageEnd? {
        n := QuietStretch(log[..|log| - 1], a, front);
        LastOfStretch(log, n, Completed(front), e.message);
      } else {
        n := QuietStretch(log, a, front);
      }
    }
  }

  lemma {:induction false} EarlierStretch(log: seq<LogEntry>, a: seq<Event>, b: seq<Event>) returns (n: nat)
    requires Segmented(log, a + b)
    ensures n <= |log| && Segmented(log[..n], a)
    decreases |b|
  {
    if b == [] {
      assert a + b == a;
      n := |log|;
      assert log[..n] == log;
    } else {
      var front, e := b[..|b| - 1], b[|b| - 1];
      assert (a + b)[..|a + b| - 1] == a + front;
      var m := |log|;
      if e.MessageEnd? {
        m := |log| - 1;
      } else if e.TurnEnd? || e.AgentEnd? {
        m :| 0 <= m <= |log| && Segmented(log[..m], a + front) && forall k :: m <= k < |log| ==> !log[k].RunMessage?;
      } else {
        assert log[..m] == log;
      }
      n := EarlierStretch(log[..m], a, front);
      assert log[..m][..n] == log[..n];
    }
  }

  predicate HoldsAt(log: seq<LogEntry>, i: nat, part: seq<LogEntry>)
  {
    i + |part| <= |log| && log[i..i + |part|] == part
  }

  /** No write lands inside a stretch of events without an end of a turn, whatever comes before and
      after: its completed messages are together in the log. */
  lemma StretchIsWhole(log: seq<LogEntry>, a: seq<Event>, b: seq<Event>, c: seq<Event>)
    requires Segmented(log, a + b + c) && Lifecycle(b) == []
    ensures exists i: nat :: HoldsAt(log, i, RunMessages(Completed(b)))
  {
    var m := EarlierStretch(log, a + b, c);
    var n := QuietStretch(log[..m], a, b);
    assert log[..m][n..] == log[n..m];
    assert HoldsAt(log, n, RunMessages(Completed(b)));
  }

  lemma {:induction false} BodyUpTo(turns: seq<Turn>, k: nat)
    requires k < |turns|
    ensures exists a, c :: Body(turns) == a + (turns[k].streamed + turns[k].toolEvents) + c
    decreases |turns|
  {
    var n := |turns| - 1;
    var front, t := turns[..n], turns[n];
    var opening := Body(front) + (if |turns| > 1 then [TurnStart] else []);
    if k == n {
      var injected, last := AnnouncedAll(Untagged(t.injected)), [TurnEnd(t.reply, t.results)];
      RegroupTurn(opening, injected, t.streamed, t.toolEvents, last);
      assert Body(turns) == (opening + injected) + (t.streamed + t.toolEvents) + last;
    } else {
      BodyUpTo(front, k);
      var a, c :| Body(front) == a + (turns[k].streamed + turns[k].toolEvents) + c;
      var rest := (if |turns| > 1 then [TurnStart] else []) + TurnEvents(t);
      Associate(Body(front), if |turns| > 1 then [TurnStart] else [], TurnEvents(t));
      Associate(a + (turns[k].streamed + turns[k].toolEvents), c, rest);
      assert Body(turns) == a + (turns[k].streamed + turns[k].toolEvents) + (c + rest);
    }
  }

  lemma RegroupTurn(a: seq<Event>, b: seq<Event>, c: seq<Event>, d: seq<Event>, e: seq<Event>)
    ensures a + (b + c + d + e) == (a + b) + (c + d) + e
  {
    Associate(a, b + c + d, e);
    Associate(a, b + c, d);
    Associate(a, b, c);
    Associate(a + b, c, d);
  }

  /** Over any run, and even when it breaks off later, no deferred write lands between a reply and its
      tool results: the log holds them together. */
  lemma NoWriteSplitsATurn(log: seq<LogEntry>, prompts: seq<Message>, turns: seq<Turn>, script: seq<TurnScript>,
                           rest: seq<Event>, k: nat)
    requires k < |turns| && Follows(script, turns)
    requires Segmented(log, TraceOf(prompts, turns) + rest)
    ensures exists i: nat :: HoldsAt(log, i, RunMessages([turns[k].reply] + turns[k].results))
  {
    var t := turns[k];
    BodyUpTo(turns, k);
    var a, c :| Body(turns) == a + (t.streamed + t.toolEvents) + c;
    Associate(Prelude(prompts), a + (t.streamed + t.toolEvents), c);
    Associate(Prelude(prompts), a, t.streamed + t.toolEvents);
    Associate(Prelude(prompts) + a + (t.streamed + t.toolEvents), c, rest);
    TurnCompletes(turns, script, k);
    StretchIsWhole(log, Prelude(prompts) + a, t.streamed + t.toolEvents, c + rest);
  }

  lemma TurnCompletes(turns: seq<Turn>, script: seq<TurnScript>, k: nat)
    requires k < |turns| && Follows(script, turns)
    ensures Completed(turns[k].streamed + turns[k].toolEvents) == [turns[k].reply] + turns[k].results
    ensures Lifecycle(turns[k].streamed + turns[k].toolEvents) == []
  {
    var t := turns[k];
    assert FollowsAt(script, turns, k);
    CompletedConcat(t.streamed, t.toolEvents);
    LifecycleConcat(t.streamed, t.toolEvents);
  }

  lemma LogGoesOn(start: seq<LogEntry>, before: seq<LogEntry>, after: seq<LogEntry>, events: seq<Event>, e: Event)
    requires start <= before && Segmented(before[|start|..], events) && TurnLog(e, before, after, true)
    ensures start <= after && Segmented(after[|start|..], events + [e])
  {
    var more := after[|before|..];
    assert after == before + more && after[|start|..] == before[|start|..] + more;
    SegmentedNext(before[|start|..], events, e, more);
  }

  /** What is logged while the next turn is prepared follows the end of the turn before. */
  lemma PreparedLog(start: seq<LogEntry>, before: seq<LogEntry>, after: seq<LogEntry>, events: seq<Event>)
    requires events != [] && events[|events| - 1].TurnEnd?
    requires start <= before && Segmented(before[|start|..], events) && Grows(before, after)
    ensures start <= after && Segmented(after[|start|..], events)
  {
    var part, front := before[|start|..], events[..|events| - 1];
    var n :| 0 <= n <= |part| && Segmented(part[..n], front) && forall k :: n <= k < |part| ==> !part[k].RunMessage?;
    var longer := after[|start|..];
    assert longer[..n] == part[..n];
    forall k | n <= k < |longer| ensures !longer[k].RunMessage? {
      if k < |part| { assert longer[k] == part[k]; }
    }
  }

  /** The messages a run has added to the log are those completed by the events it handled. */
  lemma RunLogged(before: seq<LogEntry>, log: seq<LogEntry>, events: seq<Event>)
    requires before <= log && Segmented(log[|before|..], events)
    ensures MessagesIn(log) == MessagesIn(before) + Completed(events)
  {
    LoggedMessages(log[|before|..], events);
    MessagesConcat(before, log[|before|..]);
    assert before + log[|before|..] == log;
  }

  /** What handling the first `n` events keeps: the writes, and the messages logged. */
  ghost predicate Progresses(s: Store, events: seq<Event>, n: nat, p: Progress)
    requires n <= |events|
  {
    && Accounted(s, p.outcome) && p.took <= n && (!p.outcome.thrown ==> p.took == n)
    && MessagesIn(p.outcome.store.log) == MessagesIn(s.log) + Completed(events[..p.took])
  }

  lemma MessagesGoOn(messages: seq<Message>, events: seq<Event>, i: nat)
    requires i < |events|
    ensures messages + Completed(events[..i + 1])
         == (if events[i].MessageEnd? then messages + Completed(events[..i]) + [events[i].message]
             else messages + Completed(events[..i]))
  {
    CompletedNext(events[..i], events[i], events[..i + 1]);
    if events[i].MessageEnd? {
      Associate(messages, Completed(events[..i]), [events[i].message]);
    }
  }

  /** A prepared turn starts with nothing pending but what is asked for as it starts. */
  lemma StartsClean(before: Outcome, events: seq<Event>, i: nat, h: Handling)
    requires i < |events| && Prepared(events, i) && before.store.phase == InTurn
    ensures var o := Step(before, events, i, h).outcome; !o.thrown ==> o.store.pending == h.listenerArrivals
  {
    FlushAccounted(before.store, h.preparing);
    assert [] + h.listenerArrivals == h.listenerArrivals;
  }

  lemma StepProgresses(s: Store, events: seq<Event>, i: nat, before: Outcome, h: Handling)
    requires i < |events| && !before.thrown && Progresses(s, events, i, Progress(before, i))
    ensures Progresses(s, events, i + 1, Step(before, events, i, h))
  {
    var flush := Flush(before.store, h.preparing);
    FlushAccounted(before.store, h.preparing);
    JoinAccounted(s, before, flush);
    WritesAddNoMessages(before.store.log, flush.store.log);
    var ready := if Prepared(events, i) then Join(before, flush) else before;
    if !ready.thrown {
      EventHandled(ready.store, events[i], h);
      JoinAccounted(s, ready, Handle(ready.store, events[i], h));
      MessagesGoOn(MessagesIn(s.log), events, i);
    }
  }

  lemma {:induction false} PlayProgresses(s: Store, events: seq<Event>, handlings: nat -> Handling, n: nat)
    requires n <= |events| && Quiet(s)
    ensures Progresses(s, events, n, Play(s, events, handlings, n))
  {
    if n == 0 {
      NothingAccounted(s, Play(s, events, handlings, 0).outcome);
      assert events[..0] == [] && MessagesIn(s.log) + [] == MessagesIn(s.log);
    } else {
      PlayProgresses(s, events, handlings, n - 1);
      var before := Play(s, events, handlings, n - 1);
      if !before.outcome.thrown {
        StepProgresses(s, events, n - 1, before.outcome, handlings(n - 1));
      }
    }
  }

  /** In a run the log grows in segments, and the harness is idle once the run has ended. */
  ghost predicate InSegments(s: Store, events: seq<Event>, n: nat, p: Progress)
    requires n <= |events|
  {
    && Progresses(s, events, n, p) && Segmented(p.outcome.store.log[|s.log|..], events[..p.took])
    && (!p.outcome.thrown ==> p.outcome.store.phase == if n > 0 && events[n - 1].AgentEnd? then Idle else InTurn)
  }

  lemma ReadyInSegments(s: Store, events: seq<Event>, i: nat, before: Outcome, h: Handling)
    requires i < |events| && EndsOnce(events) && InSegments(s, events, i, Progress(before, i)) && !before.thrown
    requires Prepared(events, i)
    ensures var ready := Flush(before.store, h.preparing).store;
            && ready.phase == InTurn && s.log <= ready.log && Segmented(ready.log[|s.log|..], events[..i])
            && Quiet(ready)
  {
    FlushAccounted(before.store, h.preparing);
    PreparedLog(s.log, before.store.log, Flush(before.store, h.preparing).store.log, events[..i]);
  }

  lemma HandledInSegments(s: Store, events: seq<Event>, i: nat, ready: Store, h: Handling)
    requires i < |events| && ready.phase == InTurn
    requires s.log <= ready.log && Segmented(ready.log[|s.log|..], events[..i])
    ensures var o, took := Handle(ready, events[i], h), if Takes(events[i], h) then i + 1 else i;
            && s.log <= o.store.log && Segmented(o.store.log[|s.log|..], events[..took])
            && (!o.thrown ==> o.store.phase == if events[i].AgentEnd? then Idle else InTurn)
  {
    EventHandled(ready, events[i], h);
    assert events[..i + 1] == events[..i] + [events[i]];
    if Takes(events[i], h) {
      LogGoesOn(s.log, ready.log, Handle(ready, events[i], h).store.log, events[..i], events[i]);
    }
  }

  lemma StepInSegments(s: Store, events: seq<Event>, i: nat, before: Outcome, h: Handling)
    requires i < |events| && EndsOnce(events) && !before.thrown && InSegments(s, events, i, Progress(before, i))
    ensures InSegments(s, events, i + 1, Step(before, events, i, h))
  {
    StepProgresses(s, events, i, before, h);
    if Prepared(events, i) {
      ReadyInSegments(s, events, i, before, h);
    }
    HandledInSegments(s, events, i, if Prepared(events, i) then Flush(before.store, h.preparing).store
                      else before.store,
                      h);
  }

  lemma {:induction false} PlayInSegments(s: Store, events: seq<Event>, handlings: nat -> Handling, n: nat)
    requires n <= |events| && EndsOnce(events) && s.phase == InTurn
    ensures InSegments(s, events, n, Play(s, events, handlings, n))
  {
    if n == 0 {
      PlayProgresses(s, events, handlings, 0);
      assert s.log[|s.log|..] == [] && events[..0] == [];
    } else {
      PlayInSegments(s, events, handlings, n - 1);
      var before := Play(s, events, handlings, n - 1);
      if !before.outcome.thrown {
        StepInSegments(s, events, n - 1, before.outcome, handlings(n - 1));
      }
    }
  }

  // ---- what was asked for ----

  lemma {:induction false} AskedGrows(s: Store, events: seq<Event>, handlings: nat -> Handling, n: nat, m: nat)
    requires n <= m <= |events|
    ensures Play(s, events, handlings, n).outcome.asked <= Play(s, events, handlings, m).outcome.asked
    decreases m
  {
    if n < m { AskedGrows(s, events, handlings, n, m - 1); }
  }

  lemma {:induction false} TookAll(s: Store, events: seq<Event>, handlings: nat -> Handling, n: nat, i: nat)
    requires i < n <= |events| && i < Play(s, events, handlings, n).took
    ensures !Play(s, events, handlings, i).outcome.thrown
    ensures Play(s, events, handlings, i + 1).took == i + 1
  {
    TookSoFar(s, events, handlings, n - 1);
    if i < n - 1 {
      TookAll(s, events, handlings, n - 1, i);
    }
  }

  lemma {:induction false} TookSoFar(s: Store, events: seq<Event>, handlings: nat -> Handling, n: nat)
    requires n <= |events|
    ensures Play(s, events, handlings, n).took <= n
    ensures !Play(s, events, handlings, n).outcome.thrown ==> Play(s, events, handlings, n).took == n
  {
    if n > 0 { TookSoFar(s, events, handlings, n - 1); }
  }

  /** What the listeners of an event ask for is asked for, whether they throw or not. */
  lemma ListenersAsk(s: Store, event: Event, h: Handling) returns (j: nat)
    requires Takes(event, h) && !event.AgentEnd? && s.phase == InTurn
    ensures HoldsAt(Handle(s, event, h).asked, j, AllDeferred(h.listenerArrivals))
  {
    j := 0;
    var asked := Handle(s, event, h).asked;
    assert AllDeferred(h.listenerArrivals) <= asked;
  }

  /** No write is forgotten: what the listeners of a handled event asked for is, as one piece, among the
      writes the session accounts for. */
  lemma ListenersAreHeard(s: Store, events: seq<Event>, handlings: nat -> Handling, n: nat, i: nat)
    requires i < n <= |events| && EndsOnce(events) && s.phase == InTurn
    requires i < Play(s, events, handlings, n).took && !events[i].AgentEnd?
    ensures var o := Play(s, events, handlings, n).outcome;
            && Ledger(o.store) == Ledger(s) + o.asked
            && exists j: nat :: HoldsAt(o.asked, j, AllDeferred(handlings(i).listenerArrivals))
  {
    PlayInSegments(s, events, handlings, n);
    TookAll(s, events, handlings, n, i);
    PlayInSegments(s, events, handlings, i);
    var before, h := Play(s, events, handlings, i).outcome, handlings(i);
    var flush := Flush(before.store, h.preparing);
    FlushAccounted(before.store, h.preparing);
    var ready := if Prepared(events, i) then Join(before, flush) else before;
    var j := ListenersAsk(ready.store, events[i], h);
    var now := Play(s, events, handlings, i + 1).outcome.asked;
    AskedGrows(s, events, handlings, i + 1, n);
    HoldsLater(ready.asked, Handle(ready.store, events[i], h).asked, Play(s, events, handlings, n).outcome.asked, j,
               AllDeferred(h.listenerArrivals));
  }

  lemma HoldsLater(front: seq<LogEntry>, log: seq<LogEntry>, all: seq<LogEntry>, i: nat, part: seq<LogEntry>)
    requires HoldsAt(log, i, part) && front + log <= all
    ensures exists j: nat :: HoldsAt(all, j, part)
  {
    HoldsBehind(front, log, all[|front + log|..], i, part);
    assert front + log + all[|front + log|..] == all;
    assert HoldsAt(all, |front| + i, part);
  }

  // ---- only a failure makes a run fail ----

  predicate Succeed(awaits: seq<Await>) { forall a <- awaits :: !a.fails }

  /** No append fails and no listener throws. */
  predicate Calm(h: Handling) {
    !h.appendFails && !h.listenerThrows && !h.lateListenerThrows && Succeed(h.awaits) && Succeed(h.preparing)
  }

  ghost predicate AllCalm(handlings: nat -> Handling, n: nat) { forall k: nat :: k < n ==> Calm(handlings(k)) }

  lemma {:induction false} CalmFlush(s: Store, awaits: seq<Await>)
    requires Succeed(awaits)
    ensures !Flush(s, awaits).thrown
    decreases |awaits|, |s.pending|
  {
    if s.pending != [] {
      if awaits == [] {
        CalmFlush(LogFirst(s), []);
      } else {
        assert awaits[0] in awaits;
        CalmFlush(LogFirst(Receive(s, awaits[0].arrivals)), awaits[1..]);
      }
    }
  }

  lemma CalmHandle(s: Store, event: Event, h: Handling)
    requires Calm(h)
    ensures !Handle(s, event, h).thrown && Takes(event, h)
  {
    CalmFlush(s, h.awaits);
    CalmFlush(Receive(s, h.listenerArrivals), h.awaits);
  }

  /** A run whose appends succeed and whose listeners do not throw is handled to its end. */
  lemma {:induction false} CalmPlay(s: Store, events: seq<Event>, handlings: nat -> Handling, n: nat)
    requires n <= |events| && AllCalm(handlings, n)
    ensures !Play(s, events, handlings, n).outcome.thrown
  {
    if n > 0 {
      assert AllCalm(handlings, n - 1);
      CalmPlay(s, events, handlings, n - 1);
      var before := Play(s, events, handlings, n - 1).outcome;
      var h := handlings(n - 1);
      CalmFlush(before.store, h.preparing);
      CalmHandle(before.store, events[n - 1], h);
      CalmHandle(Flush(before.store, h.preparing).store, events[n - 1], h);
    }
  }

  // ---- turns of a run ----

  lemma {:induction false} LifecycleHolds(events: seq<Event>, k: nat)
    requires k < |events| && IsLifecycle(events[k])
    ensures events[k] in Lifecycle(events)
    decreases |events|
  {
    var n := |events| - 1;
    assert events == events[..n] + [events[n]];
    LifecycleConcat(events[..n], [events[n]]);
    assert [events[n]][..0] == [] && Lifecycle([events[n]]) == if IsLifecycle(events[n]) then [events[n]] else [];
    if k < n { LifecycleHolds(events[..n], k); }
  }

  /** Before its end a run does not end. */
  lemma NoEarlyEnd(trace: seq<Event>, ms: seq<Message>, turns: seq<Turn>)
    requires Looks(trace, ms, [AgentStart, TurnStart] + Cycle(turns))
    ensures forall k :: 0 <= k < |trace| ==> !trace[k].AgentEnd?
  {
    CycleAlternates(turns);
    forall k | 0 <= k < |trace| ensures !trace[k].AgentEnd? {
      if IsLifecycle(trace[k]) { LifecycleHolds(trace, k); }
    }
  }

  predicate EndsWithRun(trace: seq<Event>) { trace != [] && trace[|trace| - 1].AgentEnd? }

  lemma TraceEndsOnce(prompts: seq<Message>, turns: seq<Turn>, script: seq<TurnScript>, trace: seq<Event>, end: Event)
    requires Follows(script, turns) && (trace == TraceOf(prompts, turns) || trace == TraceOf(prompts, turns) + [end])
    ensures EndsOnce(trace) && TraceOf(prompts, turns) <= trace && !EndsWithRun(TraceOf(prompts, turns))
  {
    TraceLooks(prompts, turns, script);
    NoEarlyEnd(TraceOf(prompts, turns), prompts + Added(turns), turns);
  }

  /** The trace of a run ends it at most once, at its end. */
  lemma RunEndsOnce(start: Start, script: seq<TurnScript>, r: Run, finished: bool)
    requires if finished then Over(start, script, r) else Waiting(start, script, r)
    ensures EndsOnce(r.trace) && TraceOf(start.prompts, r.turns) <= r.trace && Follows(script, r.turns)
    ensures finished <==> EndsWithRun(r.trace)
  {
    ShowsTrace(start.prompts, r.turns, r.trace);
    TraceEndsOnce(start.prompts, r.turns, script, r.trace, AgentEnd(r.newMessages));
  }

  lemma CutOfRun(trace: seq<Event>, cut: nat)
    requires EndsOnce(trace) && cut <= |trace|
    ensures EndsOnce(trace[..cut]) && |trace[..cut]| == cut && (cut == |trace| ==> trace[..cut] == trace)
  {
  }

  /** Once turn `k` has been handled to its end, the log holds its reply and its results together. */
  ghost predicate TurnHolds(log: seq<LogEntry>, prompts: seq<Message>, turns: seq<Turn>, took: nat, k: nat)
    requires k < |turns|
  {
    |TraceOf(prompts, turns[..k + 1])| <= took
    ==> exists i: nat :: HoldsAt(log, i, RunMessages([turns[k].reply] + turns[k].results))
  }

  ghost predicate TurnsHold(log: seq<LogEntry>, prompts: seq<Message>, turns: seq<Turn>, took: nat) {
    forall k :: 0 <= k < |turns| ==> TurnHolds(log, prompts, turns, took, k)
  }

  lemma HoldsBehind(front: seq<LogEntry>, log: seq<LogEntry>, rest: seq<LogEntry>, i: nat, part: seq<LogEntry>)
    requires HoldsAt(log, i, part)
    ensures HoldsAt(front + log + rest, |front| + i, part)
  {
    assert (front + log + rest)[|front| + i..|front| + i + |part|] == log[i..i + |part|];
  }

  /** The log holds the part of a run that was handled: its messages, with writes only between turns, and
      every turn handled to its end in one piece. */
  ghost predicate RunInLog(before: seq<LogEntry>, log: seq<LogEntry>, prompts: seq<Message>, r: Run, took: nat) {
    && took <= |r.trace| && before <= log && Segmented(log[|before|..], r.trace[..took])
    && MessagesIn(log) == MessagesIn(before) + Completed(r.trace[..took])
    && TurnsHold(log, prompts, r.turns, took)
  }

  lemma RunIsInLog(before: seq<LogEntry>, log: seq<LogEntry>, prompts: seq<Message>, script: seq<TurnScript>,
                   r: Run, cut: nat, took: nat)
    requires TraceOf(prompts, r.turns) <= r.trace && Follows(script, r.turns) && took <= cut <= |r.trace|
    requires before <= log && Segmented(log[|before|..], r.trace[..cut][..took])
    ensures RunInLog(before, log, prompts, r, took)
  {
    assert r.trace[..cut][..took] == r.trace[..took];
    RunLogged(before, log, r.trace[..took]);
    RunKeepsTurns(before, log, prompts, script, r, took);
  }

  lemma RunKeepsTurns(before: seq<LogEntry>, log: seq<LogEntry>, prompts: seq<Message>, script: seq<TurnScript>,
                      r: Run, took: nat)
    requires TraceOf(prompts, r.turns) <= r.trace && Follows(script, r.turns) && took <= |r.trace|
    requires before <= log && Segmented(log[|before|..], r.trace[..took])
    ensures TurnsHold(log, prompts, r.turns, took)
  {
    forall k | 0 <= k < |r.turns| ensures TurnHolds(log, prompts, r.turns, took, k) {
      if |TraceOf(prompts, r.turns[..k + 1])| <= took {
        HandledTurnHolds(before, log, prompts, script, r, took, k);
      }
    }
  }

  lemma HandledTurnHolds(before: seq<LogEntry>, log: seq<LogEntry>, prompts: seq<Message>, script: seq<TurnScript>,
                         r: Run, took: nat, k: nat)
    requires TraceOf(prompts, r.turns) <= r.trace && Follows(script, r.turns) && took <= |r.trace| && k < |r.turns|
    requires before <= log && Segmented(log[|before|..], r.trace[..took])
    requires |TraceOf(prompts, r.turns[..k + 1])| <= took
    ensures exists i: nat :: HoldsAt(log, i, RunMessages([r.turns[k].reply] + r.turns[k].results))
  {
    var turns, part := r.turns[..k + 1], log[|before|..];
    TracePrefix(prompts, r.turns, k + 1);
    FrontFollows(script, r.turns, k + 1);
    SplitPrefix(TraceOf(prompts, turns), TraceOf(prompts, r.turns), r.trace, took);
    NoWriteSplitsATurn(part, prompts, turns, script, r.trace[..took][|TraceOf(prompts, turns)|..], k);
    var together := RunMessages([r.turns[k].reply] + r.turns[k].results);
    var i: nat :| HoldsAt(part, i, together);
    HoldsBehind(before, part, [], i, together);
    assert before + part + [] == log;
  }

  lemma SplitPrefix<T>(a: seq<T>, b: seq<T>, c: seq<T>, n: nat)
    requires a <= b <= c && |a| <= n <= |c|
    ensures c[..n] == a + c[..n][|a|..]
  {
    assert a == c[..|a|];
  }

  /** What the log holds it keeps. */
  lemma LaterLogHolds(before: seq<LogEntry>, log: seq<LogEntry>, prompts: seq<Message>, turns: seq<Turn>, took: nat)
    requires before <= log && TurnsHold(before, prompts, turns, took)
    ensures TurnsHold(log, prompts, turns, took)
  {
    forall k | 0 <= k < |turns| ensures TurnHolds(log, prompts, turns, took, k) {
      if |TraceOf(prompts, turns[..k + 1])| <= took {
        assert TurnHolds(before, prompts, turns, took, k);
        var together := RunMessages([turns[k].reply] + turns[k].results);
        var i: nat :| HoldsAt(before, i, together);
        HoldsBehind([], before, log[|before|..], i, together);
        assert [] + before + log[|before|..] == log;
      }
    }
  }

  // ---- prompts ----

  lemma FailureCompleted(m: Message, took: nat)
    requires took <= 4
    ensures Completed(FailureEvents(m)[..took]) == if took >= 2 then [m] else []
  {
    var events := FailureEvents(m);
    assert events[..0] == [];
    if took >= 1 { CompletedNext(events[..0], events[0], events[..1]); }
    if took >= 2 { CompletedNext(events[..1], events[1], events[..2]); }
    if took >= 3 { CompletedNext(events[..2], events[2], events[..3]); }
    if took >= 4 { CompletedNext(events[..3], events[3], events[..4]); }
  }

  /** Reporting a failure logs its message unless an event throws before, and ends idle unless it throws. */
  lemma FailureTold(s: Store, m: Message, reporting: nat -> Handling)
    requires Quiet(s)
    ensures var p := Play(s, FailureEvents(m), reporting, 4);
            && Accounted(s, p.outcome) && p.took <= 4
            && MessagesIn(p.outcome.store.log) == MessagesIn(s.log) + (if p.took >= 2 then [m] else [])
            && (!p.outcome.thrown ==> p.took == 4 && p.outcome.store.phase == Idle && p.outcome.store.pending == [])
  {
    var events := FailureEvents(m);
    PlayProgresses(s, events, reporting, 4);
    var p := Play(s, events, reporting, 4);
    FailureCompleted(m, p.took);
    var before := Play(s, events, reporting, 3);
    PlayProgresses(s, events, reporting, 3);
    if !before.outcome.thrown {
      EventHandled(before.outcome.store, events[3], reporting(3));
    }
  }

  lemma RanAndTold(s: Store, events: seq<Event>, breaks: bool, handlings: nat -> Handling, failure: Message,
                   reporting: nat -> Handling, ran: Progress, told: Progress)
    requires s.phase == InTurn && EndsOnce(events) && (breaks || EndsWithRun(events))
    requires ran == Play(s, events, handlings, |events|) && told == Told(ran.outcome, breaks, failure, reporting)
    ensures InSegments(s, events, |events|, ran) && Accounted(ran.outcome.store, told.outcome)
    ensures MessagesIn(told.outcome.store.log)
         == MessagesIn(s.log) + Completed(events[..ran.took]) + (if told.took >= 2 then [failure] else [])
    ensures !told.outcome.thrown ==> told.outcome.store.phase == Idle && told.outcome.store.pending == []
  {
    PlayInSegments(s, events, handlings, |events|);
    if ran.outcome.thrown || breaks {
      FailureTold(ran.outcome.store, failure, reporting);
    } else {
      NothingAccounted(ran.outcome.store, told.outcome);
      assert MessagesIn(ran.outcome.store.log) + [] == MessagesIn(ran.outcome.store.log);
    }
  }

  lemma EndAccounted(told: Outcome, awaits: seq<Await>)
    requires Quiet(told.store) && (!told.thrown ==> told.store.phase == Idle)
    ensures var end := Ended(told, awaits);
            && Ledger(end.store) == Ledger(told.store) + end.asked && Grows(told.store.log, end.store.log)
            && end.store.phase == Idle && (end.thrown <==> told.thrown)
            && (end.store.pending != [] ==> exists a <- awaits :: a.fails)
  {
    FlushAccounted(told.store, awaits);
  }

  /** A prompt loses no write and overtakes none, logs the messages handled and the failure reported, ends
      idle, and fails exactly when it has a failure to report and cannot report it. */
  lemma PromptHolds(s: Store, events: seq<Event>, breaks: bool, handlings: nat -> Handling, failure: Message,
                    reporting: nat -> Handling, awaits: seq<Await>)
    requires EndsOnce(events) && (breaks || EndsWithRun(events))
    ensures var p := PromptOf(s, events, breaks, handlings, failure, reporting, awaits);
            && Ledger(p.end.store) == Ledger(s) + p.end.asked
            && InSegments(s.(phase := InTurn), events, |events|, p.ran)
            && s.log <= p.ran.outcome.store.log <= p.end.store.log
            && MessagesIn(p.end.store.log)
               == MessagesIn(s.log) + Completed(events[..p.ran.took]) + (if p.told.took >= 2 then [failure] else [])
            && p.end.store.phase == Idle && (p.end.thrown <==> p.told.outcome.thrown)
            && (p.end.store.pending != [] ==> p.end.thrown && exists a <- awaits :: a.fails)
  {
    var p := PromptOf(s, events, breaks, handlings, failure, reporting, awaits);
    var started, ran, told := s.(phase := InTurn), p.ran.outcome, p.told.outcome;
    RanAndTold(started, events, breaks, handlings, failure, reporting, p.ran, p.told);
    EndAccounted(told, awaits);
    var end := Ended(told, awaits);
    WritesAddNoMessages(told.store.log, end.store.log);
    Associate(Ledger(s), ran.asked, told.asked);
    Associate(Ledger(s), ran.asked + told.asked, end.asked);
    FlushAccounted(told.store, awaits);
  }

  /** A prompt whose run is neither broken off nor disturbed does not fail; nor does one whose failure can be
      reported. */
  lemma CalmPrompt(s: Store, events: seq<Event>, breaks: bool, handlings: nat -> Handling, failure: Message,
                   reporting: nat -> Handling, awaits: seq<Await>)
    requires EndsOnce(events) && (breaks || EndsWithRun(events))
    requires (!breaks && AllCalm(handlings, |events|)) || AllCalm(reporting, 4)
    ensures !PromptOf(s, events, breaks, handlings, failure, reporting, awaits).end.thrown
  {
    PromptHolds(s, events, breaks, handlings, failure, reporting, awaits);
    var ran := Play(s.(phase := InTurn), events, handlings, |events|).outcome;
    if !breaks && AllCalm(handlings, |events|) {
      CalmPlay(s.(phase := InTurn), events, handlings, |events|);
    } else {
      CalmPlay(ran.store, FailureEvents(failure), reporting, 4);
    }
  }
}
