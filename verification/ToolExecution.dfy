/** Executing one assistant message's tool calls, one after the other or concurrently. */
module ToolExecution {
  import opened Common
  import opened AgentTypes
  import opened ToolCalls

  // ---- one call after the other ----

  /** Start, run and finish one call. */
  method ExecuteOne(toolCall: ToolCall, c: CallScript) returns (events: seq<Event>, finalized: Finalized)
    ensures finalized == Outcome(toolCall, c)
    ensures events == CallEvents(toolCall, c)
  {
    var preparation := Prepare(toolCall, c);
    var updates := [];
    if preparation.Immediate? {
      finalized := Finalized(toolCall, preparation.result, preparation.isError);
    } else {
      updates := UpdateEvents(toolCall, c.updates);
      finalized := Finalize(toolCall, c);
    }
    events := [ToolStart(toolCall)] + updates + [EndEvent(finalized)] + Announced(ResultMessage(finalized));
  }

  /** The first `i` calls have run one after the other. */
  ghost predicate RanInTurn(events: seq<Event>, calls: seq<ToolCall>, cs: CallScripts, i: nat, messages: seq<Message>)
    requires i <= |calls|
  {
    && |messages| == i
    && BatchEvents(events, calls[..i], messages) && ToolEvents(events, calls, cs, i, messages) && OneByOne(events)
  }

  lemma CallRuns(events: seq<Event>, calls: seq<ToolCall>, cs: CallScripts, i: nat, messages: seq<Message>)
    requires i < |calls| && RanInTurn(events, calls, cs, i, messages)
    ensures RanInTurn(events + CallEvents(calls[i], cs(i)), calls, cs, i + 1,
                      messages + [ResultMessage(Outcome(calls[i], cs(i)))])
  {
    CallFollows(events, calls, cs, i, messages);
    CallEventsOfOne(calls[i], cs(i));
    BatchConcat(events, calls[..i], messages, CallEvents(calls[i], cs(i)), [calls[i]],
                [ResultMessage(Outcome(calls[i], cs(i)))]);
    assert calls[..i + 1] == calls[..i] + [calls[i]];
  }

  method ExecuteSequential(calls: seq<ToolCall>, cs: CallScripts) returns (events: seq<Event>, batch: Batch)
    ensures batch == Result(calls, cs)
    ensures BatchEvents(events, calls[..Reached(cs, 0, |calls|)], batch.messages)
    ensures ToolEvents(events, calls, cs, Reached(cs, 0, |calls|), batch.messages) && OneByOne(events)
  {
    NoToolEvents(calls, cs);
    events := [];
    var finalizedCalls: seq<Finalized> := [];
    var messages: seq<Message> := [];
    var i := 0;
    while i < |calls|
      invariant 0 <= i <= |calls|
      invariant finalizedCalls == Outcomes(calls, cs, i)
      invariant messages == Messages(finalizedCalls)
      invariant RanInTurn(events, calls, cs, i, messages)
      invariant Reached(cs, 0, |calls|) == Reached(cs, i, |calls|)
      decreases |calls| - i
    {
      var callEvents, finalized := ExecuteOne(calls[i], cs(i));
      CallRuns(events, calls, cs, i, messages);
      events := events + callEvents;
      finalizedCalls := finalizedCalls + [finalized];
      messages := messages + [ResultMessage(finalized)];
      assert finalizedCalls == Outcomes(calls, cs, i + 1);
      if cs(i).abortedAfterwards {
        i := i + 1;
        break;
      }
      i := i + 1;
    }
    batch := Batch(messages, ShouldTerminate(finalizedCalls));
  }

  // ---- concurrently ----

  /** A call that is settled, or one still running with partial results to come. */
  datatype Entry =
    | Settled(finalized: Finalized)
    | Running(call: ToolCall, script: CallScript, remaining: seq<string>)

  function Open(entries: seq<Entry>): multiset<string> {
    if entries == [] then multiset{}
    else Open(entries[..|entries| - 1])
         + (if entries[|entries| - 1].Running? then multiset{entries[|entries| - 1].call.id} else multiset{})
  }

  function Work(entries: seq<Entry>): nat {
    if entries == [] then 0
    else Work(entries[..|entries| - 1])
         + (if entries[|entries| - 1].Running? then 1 + |entries[|entries| - 1].remaining| else 0)
  }

  /** What one entry adds to the calls that are open, and to the work left. */
  function OpenId(e: Entry): multiset<string> { if e.Running? then multiset{e.call.id} else multiset{} }

  function WorkOf(e: Entry): nat { if e.Running? then 1 + |e.remaining| else 0 }

  lemma OpenAppend(front: seq<Entry>, e: Entry)
    ensures Open(front + [e]) == Open(front) + OpenId(e)
  {
    assert (front + [e])[..|front|] == front;
  }

  lemma IdsAppend(calls: seq<ToolCall>, call: ToolCall)
    ensures Ids(calls + [call]) == Ids(calls) + multiset{call.id}
  {
    assert (calls + [call])[..|calls|] == calls;
  }

  /** Replacing an entry replaces its share. */
  lemma {:induction false} OpenReplaced(entries: seq<Entry>, k: nat, e: Entry, id: string)
    requires k < |entries|
    ensures Open(entries[k := e])[id] + OpenId(entries[k])[id] == Open(entries)[id] + OpenId(e)[id]
    decreases |entries|
  {
    var n := |entries| - 1;
    assert entries == entries[..n] + [entries[n]];
    OpenAppend(entries[..n], entries[n]);
    if k == n {
      assert entries[k := e] == entries[..n] + [e];
      OpenAppend(entries[..n], e);
    } else {
      assert entries[k := e] == entries[..n][k := e] + [entries[n]];
      OpenAppend(entries[..n][k := e], entries[n]);
      OpenReplaced(entries[..n], k, e, id);
    }
  }

  lemma {:induction false} WorkReplaced(entries: seq<Entry>, k: nat, e: Entry)
    requires k < |entries|
    ensures Work(entries[k := e]) + WorkOf(entries[k]) == Work(entries) + WorkOf(e)
    decreases |entries|
  {
    var n := |entries| - 1;
    if k == n {
      assert entries[k := e][..n] == entries[..n];
    } else {
      assert entries[k := e][..n] == entries[..n][k := e];
      WorkReplaced(entries[..n], k, e);
    }
  }

  lemma CallGoesOn(entries: seq<Entry>, k: nat, e: Entry)
    requires k < |entries| && entries[k].Running?
    requires e.Running? && e.call == entries[k].call && |e.remaining| < |entries[k].remaining|
    ensures Open(entries[k := e]) == Open(entries) && Work(entries[k := e]) < Work(entries)
  {
    WorkReplaced(entries, k, e);
    forall id: string ensures Open(entries[k := e])[id] == Open(entries)[id] { OpenReplaced(entries, k, e, id); }
  }

  lemma CallSettles(entries: seq<Entry>, k: nat, e: Entry)
    requires k < |entries| && entries[k].Running? && e.Settled?
    ensures Open(entries) == Open(entries[k := e]) + multiset{entries[k].call.id}
        && Work(entries[k := e]) < Work(entries)
  {
    WorkReplaced(entries, k, e);
    forall id: string
      ensures Open(entries)[id] == Open(entries[k := e])[id] + multiset{entries[k].call.id}[id]
    {
      OpenReplaced(entries, k, e, id);
    }
  }

  /** Each entry is, or is on the way to, the outcome of its call. */
  ghost predicate Tracks(entries: seq<Entry>, calls: seq<ToolCall>, cs: CallScripts)
    requires |entries| <= |calls|
  {
    forall k :: 0 <= k < |entries| ==> TracksOne(entries[k], calls[k], cs(k))
  }

  /** The state of a concurrent batch: everything started that has not ended is still running. */
  ghost predicate Running(events: seq<Event>, entries: seq<Entry>, started: seq<ToolCall>) {
    && Starts(events) == Ids(started) == Ends(events) + Open(entries)
    && Balanced(events)
    && Completed(events) == [] && Lifecycle(events) == [] && StreamingAfter(events) == None
  }

  /** What call `k` has still to report. */
  function Coming(entries: seq<Entry>, cs: CallScripts, k: nat): seq<string> {
    if k >= |entries| then Given(cs(k)) else if entries[k].Running? then entries[k].remaining else []
  }

  /** What the settled calls ended with. */
  function SettledWith(entries: seq<Entry>): multiset<Message> {
    if entries == [] then multiset{}
    else SettledWith(entries[..|entries| - 1]) + ShareOf(entries[|entries| - 1])
  }

  function ShareOf(e: Entry): multiset<Message> {
    if e.Settled? then multiset{ResultMessage(e.finalized)} else multiset{}
  }

  lemma SettledAppend(front: seq<Entry>, e: Entry)
    ensures SettledWith(front + [e]) == SettledWith(front) + ShareOf(e)
  {
    assert (front + [e])[..|front|] == front;
  }

  lemma {:induction false} SettledReplaced(entries: seq<Entry>, k: nat, e: Entry)
    requires k < |entries| && entries[k].Running?
    ensures SettledWith(entries[k := e]) == SettledWith(entries) + ShareOf(e)
    decreases |entries|
  {
    var n := |entries| - 1;
    var front, last := entries[..n], entries[n];
    assert entries == front + [last];
    SettledAppend(front, last);
    if k == n {
      assert entries[k := e] == front + [e];
      SettledAppend(front, e);
    } else {
      assert entries[k := e] == front[k := e] + [last];
      SettledAppend(front[k := e], last);
      SettledReplaced(front, k, e);
      SharesCommute(SettledWith(front), ShareOf(e), ShareOf(last));
    }
  }

  lemma SharesCommute(a: multiset<Message>, b: multiset<Message>, c: multiset<Message>)
    ensures a + b + c == a + c + b
  {
  }

  lemma {:induction false} AllSettledWith(entries: seq<Entry>, finalized: seq<Finalized>)
    requires |finalized| == |entries| && AllSettled(entries)
    requires forall k :: 0 <= k < |entries| ==> entries[k].finalized == finalized[k]
    ensures SettledWith(entries) == multiset(Messages(finalized))
    decreases |entries|
  {
    if entries != [] {
      var n := |entries| - 1;
      AllSettledWith(entries[..n], finalized[..n]);
      assert Messages(finalized) == Messages(finalized[..n]) + [ResultMessage(finalized[n])];
    }
  }

  /** What has been reported of a concurrent batch, in which `n` calls are started in all. */
  ghost predicate Reporting(events: seq<Event>, calls: seq<ToolCall>, cs: CallScripts, n: nat, entries: seq<Entry>) {
    && |entries| <= n <= |calls|
    && StartedCalls(events) == calls[..|entries|]
    && EndedWith(events) == SettledWith(entries)
    && StartsFirst(events, calls, cs, n)
    && Reported(events, calls, cs, entries)
  }

  /** What the running calls have reported and what is still to come is all they report. */
  ghost predicate Reported(events: seq<Event>, calls: seq<ToolCall>, cs: CallScripts, entries: seq<Entry>) {
    forall k :: 0 <= k < |calls| ==> ReportsAt(events, calls, cs, k, Coming(entries, cs, k))
  }

  lemma ReportedStill(events: seq<Event>, e: Event, calls: seq<ToolCall>, cs: CallScripts, entries: seq<Entry>,
                      next: seq<Entry>)
    requires Reported(events, calls, cs, entries) && !e.ToolUpdate?
    requires forall k :: 0 <= k < |calls| ==> Coming(next, cs, k) == Coming(entries, cs, k)
    ensures Reported(events + [e], calls, cs, next)
  {
    forall k | 0 <= k < |calls| ensures ReportsAt(events + [e], calls, cs, k, Coming(next, cs, k)) {
      assert ReportsAt(events, calls, cs, k, Coming(entries, cs, k));
      UpdatesAppend(events, e, calls[k].id);
    }
  }

  lemma ReportedMore(events: seq<Event>, calls: seq<ToolCall>, cs: CallScripts, entries: seq<Entry>, k: nat,
                     partial: string, next: Entry)
    requires Reported(events, calls, cs, entries) && k < |entries| <= |calls| && entries[k].Running?
    requires next.Running? && entries[k].remaining == [partial] + next.remaining
    ensures Reported(events + [ToolUpdate(calls[k], partial)], calls, cs, entries[k := next])
  {
    var e, all := ToolUpdate(calls[k], partial), entries[k := next];
    forall j | 0 <= j < |calls| ensures ReportsAt(events + [e], calls, cs, j, Coming(all, cs, j)) {
      assert ReportsAt(events, calls, cs, j, Coming(entries, cs, j));
      UpdatesAppend(events, e, calls[j].id);
      if j == k { Associate(UpdatesOf(events, calls[k].id), [partial], next.remaining); }
    }
  }

  lemma StartIsReported(events: seq<Event>, calls: seq<ToolCall>, cs: CallScripts, n: nat, entries: seq<Entry>,
                        entry: Entry)
    requires Reporting(events, calls, cs, n, entries) && |entries| < n
    requires entry.Running? && entry.remaining == Given(cs(|entries|))
    ensures Reporting(events + [ToolStart(calls[|entries|])], calls, cs, n, entries + [entry])
  {
    StartsNext(events, calls, cs, n, |entries|);
    SettledAppend(entries, entry);
    ReportAppend(events, ToolStart(calls[|entries|]));
    ReportedStill(events, ToolStart(calls[|entries|]), calls, cs, entries, entries + [entry]);
  }

  /** A call starts that needs no execution, and ends at once. */
  lemma EndAtOnceIsReported(events: seq<Event>, calls: seq<ToolCall>, cs: CallScripts, n: nat, entries: seq<Entry>,
                            f: Finalized)
    requires Reporting(events, calls, cs, n, entries) && |entries| < n
    requires f.call == calls[|entries|] && !Executes(cs(|entries|))
    ensures Reporting(events + [ToolStart(calls[|entries|])] + [EndEvent(f)], calls, cs, n, entries + [Settled(f)])
  {
    var running := Entry.Running(f.call, cs(|entries|), []);
    StartIsReported(events, calls, cs, n, entries, running);
    StartsNext(events, calls, cs, n, |entries|);
    EndIsReported(events + [ToolStart(calls[|entries|])], calls, cs, n, entries + [running], |entries|, f);
    assert (entries + [running])[|entries| := Settled(f)] == entries + [Settled(f)];
  }

  lemma UpdateIsReported(events: seq<Event>, calls: seq<ToolCall>, cs: CallScripts, entries: seq<Entry>, k: nat,
                         partial: string, next: Entry)
    requires Reporting(events, calls, cs, |entries|, entries) && k < |entries| && entries[k].Running?
    requires next.Running? && entries[k].remaining == [partial] + next.remaining
    ensures Reporting(events + [ToolUpdate(calls[k], partial)], calls, cs, |entries|, entries[k := next])
  {
    SettledReplaced(entries, k, next);
    ReportAppend(events, ToolUpdate(calls[k], partial));
    AllHaveStarted(events, ToolUpdate(calls[k], partial), calls, cs, |entries|);
    ReportedMore(events, calls, cs, entries, k, partial, next);
  }

  lemma EndIsReported(events: seq<Event>, calls: seq<ToolCall>, cs: CallScripts, n: nat, entries: seq<Entry>, k: nat,
                      f: Finalized)
    requires Reporting(events, calls, cs, n, entries) && k < |entries| && entries[k].Running?
    requires entries[k].remaining == [] && StartsFirst(events + [EndEvent(f)], calls, cs, n)
    ensures Reporting(events + [EndEvent(f)], calls, cs, n, entries[k := Settled(f)])
  {
    EndIsAccounted(events, entries, k, f);
    NothingMoreComes(entries, cs, k, f);
    ReportedStill(events, EndEvent(f), calls, cs, entries, entries[k := Settled(f)]);
  }

  lemma EndIsAccounted(events: seq<Event>, entries: seq<Entry>, k: nat, f: Finalized)
    requires k < |entries| && entries[k].Running? && EndedWith(events) == SettledWith(entries)
    ensures EndedWith(events + [EndEvent(f)]) == SettledWith(entries[k := Settled(f)])
    ensures StartedCalls(events + [EndEvent(f)]) == StartedCalls(events)
  {
    SettledReplaced(entries, k, Settled(f));
    ReportAppend(events, EndEvent(f));
  }

  lemma NothingMoreComes(entries: seq<Entry>, cs: CallScripts, k: nat, f: Finalized)
    requires k < |entries| && entries[k].Running? && entries[k].remaining == []
    ensures forall j :: 0 <= j ==> Coming(entries[k := Settled(f)], cs, j) == Coming(entries, cs, j)
  {
  }

  predicate AllSettled(entries: seq<Entry>) { forall k :: 0 <= k < |entries| ==> entries[k].Settled? }

  lemma {:induction false} NothingOpen(entries: seq<Entry>)
    requires AllSettled(entries)
    ensures Open(entries) == multiset{}
    decreases |entries|
  {
    if entries != [] {
      NothingOpen(entries[..|entries| - 1]);
    }
  }

  lemma UpdateStep(events: seq<Event>, entries: seq<Entry>, started: seq<ToolCall>, k: nat, partial: string, e: Entry)
    requires Running(events, entries, started)
    requires k < |entries| && entries[k].Running?
    requires e.Running? && e.call == entries[k].call && |e.remaining| < |entries[k].remaining|
    ensures Running(events + [ToolUpdate(e.call, partial)], entries[k := e], started)
    ensures Work(entries[k := e]) < Work(entries)
  {
    Append(events, ToolUpdate(e.call, partial));
    CallGoesOn(entries, k, e);
    EndsWithinStarts(events);
  }

  lemma EndStep(events: seq<Event>, entries: seq<Entry>, started: seq<ToolCall>, k: nat, f: Finalized)
    requires Running(events, entries, started)
    requires k < |entries| && entries[k].Running? && f.call == entries[k].call
    ensures Running(events + [EndEvent(f)], entries[k := Settled(f)], started)
    ensures Work(entries[k := Settled(f)]) < Work(entries)
  {
    Append(events, EndEvent(f));
    CallSettles(entries, k, Settled(f));
  }

  lemma StartRunning(events: seq<Event>, entries: seq<Entry>, started: seq<ToolCall>, e: Entry)
    requires Running(events, entries, started) && e.Running?
    ensures Running(events + [ToolStart(e.call)], entries + [e], started + [e.call])
  {
    OpenAppend(entries, e);
    IdsAppend(started, e.call);
    Append(events, ToolStart(e.call));
    OneMoreOpen(Starts(events), Ends(events), Open(entries), multiset{e.call.id});
  }

  lemma OneMoreOpen(starts: multiset<string>, ends: multiset<string>, open: multiset<string>, id: multiset<string>)
    requires starts == ends + open
    ensures starts + id == ends + (open + id) && ends <= starts + id
  {
  }

  lemma StartSettled(events: seq<Event>, entries: seq<Entry>, started: seq<ToolCall>, f: Finalized, c: CallScript)
    requires Running(events, entries, started)
    ensures Running(events + [ToolStart(f.call)] + [EndEvent(f)], entries + [Settled(f)], started + [f.call])
  {
    var running := Entry.Running(f.call, c, []);
    var k := |entries|;
    StartRunning(events, entries, started, running);
    EndStep(events + [ToolStart(f.call)], entries + [running], started + [f.call], k, f);
    assert (entries + [running])[k := Settled(f)] == entries + [Settled(f)];
  }

  /** The entry is, or is on the way to, the outcome of the call. */
  predicate TracksOne(entry: Entry, call: ToolCall, c: CallScript) {
    if entry.Settled? then entry.finalized == Outcome(call, c)
    else entry.call == call && entry.script == c && Prepare(call, c).Prepared?
  }

  lemma TracksNext(entries: seq<Entry>, calls: seq<ToolCall>, cs: CallScripts, entry: Entry)
    requires |entries| < |calls| && Tracks(entries, calls, cs) && TracksOne(entry, calls[|entries|], cs(|entries|))
    ensures Tracks(entries + [entry], calls, cs)
  {
  }

  lemma TracksStill(entries: seq<Entry>, calls: seq<ToolCall>, cs: CallScripts, k: nat, entry: Entry)
    requires k < |entries| <= |calls| && Tracks(entries, calls, cs) && entries[k].Running?
    requires if entry.Settled? then entry.finalized == Finalize(entries[k].call, entries[k].script)
             else entry.call == entries[k].call && entry.script == entries[k].script
    ensures Tracks(entries[k := entry], calls, cs)
  {
    assert TracksOne(entries[k], calls[k], cs(k));
  }

  /** The state of a concurrent batch in which `n` calls are started in all. */
  ghost predicate Tracked(events: seq<Event>, calls: seq<ToolCall>, cs: CallScripts, n: nat, entries: seq<Entry>) {
    && |entries| <= n <= |calls| && Tracks(entries, calls, cs)
    && Running(events, entries, calls[..|entries|]) && Reporting(events, calls, cs, n, entries)
  }

  lemma NothingTracked(calls: seq<ToolCall>, cs: CallScripts, n: nat)
    requires n <= |calls|
    ensures Tracked([], calls, cs, n, [])
  {
    assert calls[..0] == [];
    forall k | 0 <= k < |calls| ensures ReportsAt([], calls, cs, k, Coming([], cs, k)) {}
  }

  /** A call that is executed. */
  lemma CallStarts(before: seq<Event>, calls: seq<ToolCall>, cs: CallScripts, n: nat, entries: seq<Entry>, entry: Entry)
    requires Tracked(before, calls, cs, n, entries) && |entries| < n
    requires entry == Entry.Running(calls[|entries|], cs(|entries|), cs(|entries|).updates)
    requires TracksOne(entry, calls[|entries|], cs(|entries|))
    ensures Tracked(before + [ToolStart(calls[|entries|])], calls, cs, n, entries + [entry])
  {
    PreparedExecutes(calls[|entries|], cs(|entries|));
    assert calls[..|entries| + 1] == calls[..|entries|] + [calls[|entries|]];
    StartRunning(before, entries, calls[..|entries|], entry);
    StartIsReported(before, calls, cs, n, entries, entry);
    TracksNext(entries, calls, cs, entry);
  }

  /** A call that its preparation settles. */
  lemma CallSettlesAtOnce(before: seq<Event>, calls: seq<ToolCall>, cs: CallScripts, n: nat, entries: seq<Entry>,
                          f: Finalized)
    requires Tracked(before, calls, cs, n, entries) && |entries| < n
    requires f == Outcome(calls[|entries|], cs(|entries|)) && !Executes(cs(|entries|))
    ensures Tracked(before + [ToolStart(calls[|entries|])] + [EndEvent(f)], calls, cs, n, entries + [Settled(f)])
  {
    OutcomeIsOfCall(calls[|entries|], cs(|entries|));
    assert calls[..|entries| + 1] == calls[..|entries|] + [calls[|entries|]];
    StartSettled(before, entries, calls[..|entries|], f, cs(|entries|));
    EndAtOnceIsReported(before, calls, cs, n, entries, f);
    TracksNext(entries, calls, cs, Settled(f));
  }

  /** Prepare one call. */
  method StartCall(toolCall: ToolCall, c: CallScript, before: seq<Event>, ghost entries: seq<Entry>,
                   ghost calls: seq<ToolCall>, ghost cs: CallScripts, ghost n: nat)
    returns (events: seq<Event>, entry: Entry)
    requires Tracked(before, calls, cs, n, entries) && |entries| < n
    requires toolCall == calls[|entries|] && c == cs(|entries|)
    ensures Tracked(events, calls, cs, n, entries + [entry])
  {
    PreparedExecutes(toolCall, c);
    var preparation := Prepare(toolCall, c);
    events := before + [ToolStart(toolCall)];
    if preparation.Immediate? {
      var finalized := Finalized(toolCall, preparation.result, preparation.isError);
      CallSettlesAtOnce(before, calls, cs, n, entries, finalized);
      events := events + [EndEvent(finalized)];
      entry := Settled(finalized);
    } else {
      entry := Entry.Running(toolCall, c, c.updates);
      CallStarts(before, calls, cs, n, entries, entry);
    }
  }

  /** Prepare the calls in order; those that settle at once end at once. */
  method StartCalls(calls: seq<ToolCall>, cs: CallScripts) returns (events: seq<Event>, entries: seq<Entry>)
    ensures |entries| == Reached(cs, 0, |calls|)
    ensures Tracked(events, calls, cs, |entries|, entries)
  {
    NothingTracked(calls, cs, Reached(cs, 0, |calls|));
    events, entries := [], [];
    var i := 0;
    while i < |calls|
      invariant 0 <= i == |entries| <= |calls|
      invariant Tracked(events, calls, cs, Reached(cs, 0, |calls|), entries)
      invariant Reached(cs, 0, |calls|) == Reached(cs, i, |calls|)
      decreases |calls| - i
    {
      var entry;
      events, entry := StartCall(calls[i], cs(i), events, entries, calls, cs, Reached(cs, 0, |calls|));
      entries := entries + [entry];
      i := i + 1;
      if cs(i - 1).abortedAfterwards {
        break;
      }
    }
  }

  lemma UpdateTracked(events: seq<Event>, calls: seq<ToolCall>, cs: CallScripts, entries: seq<Entry>, k: nat,
                      partial: string, next: Entry)
    requires Tracked(events, calls, cs, |entries|, entries) && k < |entries| && entries[k].Running?
    requires entries[k].remaining != [] && partial == entries[k].remaining[0]
    requires next == entries[k].(remaining := entries[k].remaining[1..])
    ensures Tracked(events + [ToolUpdate(entries[k].call, partial)], calls, cs, |entries|, entries[k := next])
    ensures Work(entries[k := next]) < Work(entries)
  {
    assert TracksOne(entries[k], calls[k], cs(k));
    UpdateStep(events, entries, calls[..|entries|], k, partial, next);
    UpdateIsReported(events, calls, cs, entries, k, partial, next);
    TracksStill(entries, calls, cs, k, next);
  }

  lemma EndTracked(events: seq<Event>, calls: seq<ToolCall>, cs: CallScripts, entries: seq<Entry>, k: nat, f: Finalized)
    requires Tracked(events, calls, cs, |entries|, entries) && k < |entries| && entries[k].Running?
    requires entries[k].remaining == [] && f == Finalize(entries[k].call, entries[k].script)
    ensures Tracked(events + [EndEvent(f)], calls, cs, |entries|, entries[k := Settled(f)])
    ensures Work(entries[k := Settled(f)]) < Work(entries)
  {
    assert TracksOne(entries[k], calls[k], cs(k));
    EndStep(events, entries, calls[..|entries|], k, f);
    AllHaveStarted(events, EndEvent(f), calls, cs, |entries|);
    EndIsReported(events, calls, cs, |entries|, entries, k, f);
    TracksStill(entries, calls, cs, k, Settled(f));
  }

  /** Let the running calls progress in any order until all are settled. */
  method AwaitAll(started: seq<Event>, starting: seq<Entry>, calls: seq<ToolCall>, cs: CallScripts)
    returns (events: seq<Event>, entries: seq<Entry>)
    requires Tracked(started, calls, cs, |starting|, starting)
    ensures |entries| == |starting| && AllSettled(entries) && Tracked(events, calls, cs, |entries|, entries)
  {
    events, entries := started, starting;
    while !AllSettled(entries)
      invariant |entries| == |starting| && Tracked(events, calls, cs, |entries|, entries)
      decreases Work(entries)
    {
      // whichever running call the scheduler lets go on
      var k :| 0 <= k < |entries| && entries[k].Running?;
      var running := entries[k];
      if running.remaining != [] {
        var partial, next := running.remaining[0], running.(remaining := running.remaining[1..]);
        UpdateTracked(events, calls, cs, entries, k, partial, next);
        events := events + [ToolUpdate(running.call, partial)];
        entries := entries[k := next];
      } else {
        var finalized := Finalize(running.call, running.script);
        EndTracked(events, calls, cs, entries, k, finalized);
        events := events + [EndEvent(finalized)];
        entries := entries[k := Settled(finalized)];
      }
    }
  }

  /** All calls of a batch have settled, and the result messages of the first `i` are completed. */
  ghost predicate ResultsOut(events: seq<Event>, calls: seq<ToolCall>, cs: CallScripts, n: nat, messages: seq<Message>,
                          i: nat)
    requires n <= |calls| && i <= |messages|
  {
    && BatchEvents(events, calls[..n], messages[..i])
    && ToolEvents(events, calls, cs, n, messages) && StartsFirst(events, calls, cs, n)
  }

  lemma SettledIsOut(events: seq<Event>, calls: seq<ToolCall>, cs: CallScripts, entries: seq<Entry>,
                         finalized: seq<Finalized>)
    requires Tracked(events, calls, cs, |entries|, entries) && AllSettled(entries) && |finalized| == |entries|
    requires forall k :: 0 <= k < |entries| ==> entries[k].finalized == finalized[k]
    ensures finalized == Outcomes(calls, cs, |entries|)
    ensures ResultsOut(events, calls, cs, |entries|, Messages(finalized), 0)
  {
    NothingOpen(entries);
    AllSettledWith(entries, finalized);
    forall k | 0 <= k < |entries| ensures finalized[k] == Outcome(calls[k], cs(k)) {
      assert TracksOne(entries[k], calls[k], cs(k));
    }
    forall k | 0 <= k < |calls| ensures ReportsAt(events, calls, cs, k, Missing(cs, |entries|, k)) {
      assert ReportsAt(events, calls, cs, k, Coming(entries, cs, k));
    }
  }

  lemma ResultOut(events: seq<Event>, calls: seq<ToolCall>, cs: CallScripts, n: nat, messages: seq<Message>, i: nat)
    requires n <= |calls| && i < |messages| && ResultsOut(events, calls, cs, n, messages, i)
    ensures ResultsOut(events + Announced(messages[i]), calls, cs, n, messages, i + 1)
  {
    var m := messages[i];
    AnnouncedBatch(m);
    BatchConcat(events, calls[..n], messages[..i], Announced(m), [], [m]);
    assert calls[..n] + [] == calls[..n] && messages[..i] + [m] == messages[..i + 1];
    AnnouncedIsNoReport(events, calls, cs, n, m);
  }

  lemma AnnouncedIsNoReport(events: seq<Event>, calls: seq<ToolCall>, cs: CallScripts, n: nat, m: Message)
    requires n <= |calls| && Reports(events, calls, cs, n) && StartsFirst(events, calls, cs, n)
    ensures var all := events + Announced(m);
            Reports(all, calls, cs, n) && StartsFirst(all, calls, cs, n) && EndedWith(all) == EndedWith(events)
  {
    var begun, all := events + [MessageStart(m)], events + Announced(m);
    assert all == begun + [MessageEnd(m)];
    ReportAppend(events, MessageStart(m));
    ReportAppend(begun, MessageEnd(m));
    AllHaveStarted(events, MessageStart(m), calls, cs, n);
    AllHaveStarted(begun, MessageEnd(m), calls, cs, n);
    forall k | 0 <= k < |calls| ensures ReportsAt(all, calls, cs, k, Missing(cs, n, k)) {
      assert ReportsAt(events, calls, cs, k, Missing(cs, n, k));
      UpdatesAppend(events, MessageStart(m), calls[k].id);
      UpdatesAppend(begun, MessageEnd(m), calls[k].id);
    }
  }

  method ExecuteParallel(calls: seq<ToolCall>, cs: CallScripts) returns (events: seq<Event>, batch: Batch)
    ensures batch == Result(calls, cs)
    ensures BatchEvents(events, calls[..Reached(cs, 0, |calls|)], batch.messages)
    ensures ToolEvents(events, calls, cs, Reached(cs, 0, |calls|), batch.messages)
    ensures StartsFirst(events, calls, cs, Reached(cs, 0, |calls|))
  {
    var entries;
    events, entries := StartCalls(calls, cs);
    events, entries := AwaitAll(events, entries, calls, cs);
    var finalized := seq(|entries|, k requires 0 <= k < |entries| && entries[k].Settled? => entries[k].finalized);
    SettledIsOut(events, calls, cs, entries, finalized);
    var messages;
    events, messages := EmitResults(events, finalized, calls, cs, |entries|);
    batch := Batch(messages, ShouldTerminate(finalized));
  }

  /** The result messages, in source order, once every call has settled. */
  method EmitResults(settled: seq<Event>, finalized: seq<Finalized>, ghost calls: seq<ToolCall>, ghost cs: CallScripts,
                     ghost n: nat)
    returns (events: seq<Event>, messages: seq<Message>)
    requires n <= |calls| && ResultsOut(settled, calls, cs, n, Messages(finalized), 0)
    ensures messages == Messages(finalized)
    ensures ResultsOut(events, calls, cs, n, messages, |messages|)
  {
    events, messages := settled, [];
    for i := 0 to |finalized|
      invariant messages == Messages(finalized)[..i]
      invariant ResultsOut(events, calls, cs, n, Messages(finalized), i)
    {
      ResultOut(events, calls, cs, n, Messages(finalized), i);
      events := events + Announced(ResultMessage(finalized[i]));
      messages := messages + [ResultMessage(finalized[i])];
    }
  }

  // ---- the two executors agree ----

  lemma {:induction false} ReachedAll(cs: CallScripts, i: nat, n: nat)
    requires i <= n
    ensures Reached(cs, i, n) == n <==> forall k :: i <= k < n - 1 ==> !cs(k).abortedAfterwards
    decreases n - i
  {
    if i < n {
      ReachedAll(cs, i + 1, n);
    }
  }

  /** The part of a result that the tool's author sets, unless the hook behind it puts another in its place. */
  predicate IsFinal(reported: string, patched: Option<string>, tools: string) {
    reported == if patched.Some? then patched.value else tools
  }

  /** A result is an error exactly if the call was refused, a hook or the tool threw, or the hook behind it says so. It
      reports why the call was refused, what was thrown, or what the tool returned as far as that hook lets it. */
  ghost predicate ReportsOutcome(m: Message, call: ToolCall, c: CallScript) {
    && m.ToolResult? && m.callId == call.id && m.toolName == call.name
    && (m.isError <==>
          || !Executes(c) || c.after.Threw?
          || (if c.after.value.Patch? && c.after.value.isError.Some? then c.after.value.isError.value
              else c.execution.Threw?))
    && (!Executes(c) ==> ReportsRefusal(m, call, c))
    && (Executes(c) && c.after.Threw? ==> m.output == c.after.error)
    && (Executes(c) && c.after.Returned? ==>
          var patch := c.after.value;
          && IsFinal(m.output, if patch.Patch? then patch.content else None,
                     if c.execution.Threw? then c.execution.error else c.execution.value.content)
          && IsFinal(m.details, if patch.Patch? then patch.details else None,
                     if c.execution.Threw? then "{}" else c.execution.value.details))
  }

  /** The first thing that stands in the way of a call. */
  predicate ReportsRefusal(m: Message, call: ToolCall, c: CallScript)
    requires m.ToolResult? && !Executes(c)
  {
    m.details == "{}" && m.output ==
      if !c.toolFound then "Tool " + call.name + " not found"
      else if c.arguments.Threw? then c.arguments.error
      else if c.before.Threw? then c.before.error
      else if c.abortedInPreparation then "Operation aborted"
      else if c.before.value.reason != "" then c.before.value.reason
      else "Tool execution was blocked"
  }

  /** The outcome of a call asks to stop: the hook that blocks it does, or the hook behind the tool, or the tool
      itself when that hook does not decide. */
  predicate AsksToStop(c: CallScript) {
    if Executes(c) then
      && c.after.Returned?
      && if c.after.value.Patch? && c.after.value.terminate.Some? then c.after.value.terminate.value
         else c.execution.Returned? && c.execution.value.terminate == Some(true)
    else
      && c.toolFound && c.arguments.Returned? && c.before.Returned? && !c.abortedInPreparation
      && c.before.value.terminate == Some(true)
  }

  lemma OutcomeIsReported(call: ToolCall, c: CallScript)
    ensures ReportsOutcome(ResultMessage(Outcome(call, c)), call, c)
    ensures Outcome(call, c).result.terminate == Some(true) <==> AsksToStop(c)
  {
    PreparedExecutes(call, c);
  }

  /** Without an abort every call gets its result, in source order, whatever the interleaving; another turn is not
      needed exactly if every call asks to stop. */
  lemma UnabortedBatch(calls: seq<ToolCall>, cs: CallScripts)
    requires forall k :: 0 <= k < |calls| ==> !cs(k).abortedAfterwards
    ensures |Result(calls, cs).messages| == |calls|
    ensures forall k :: 0 <= k < |calls| ==> ReportsOutcome(Result(calls, cs).messages[k], calls[k], cs(k))
    ensures Result(calls, cs).terminate <==> calls != [] && forall k :: 0 <= k < |calls| ==> AsksToStop(cs(k))
  {
    ReachedAll(cs, 0, |calls|);
    var finalized := Outcomes(calls, cs, |calls|);
    forall k | 0 <= k < |calls|
      ensures finalized[k] == Outcome(calls[k], cs(k)) && ReportsOutcome(ResultMessage(finalized[k]), calls[k], cs(k))
      ensures finalized[k].result.terminate == Some(true) <==> AsksToStop(cs(k))
    {
      OutcomeIsReported(calls[k], cs(k));
    }
  }

  /** With an abort the results are those of a prefix of the calls. */
  lemma AbortedBatch(calls: seq<ToolCall>, cs: CallScripts)
    ensures var ms := Result(calls, cs).messages;
            && |ms| <= |calls|
            && (|ms| < |calls| <==> exists k :: 0 <= k < |calls| - 1 && cs(k).abortedAfterwards)
            && forall k :: 0 <= k < |ms| ==> ReportsOutcome(ms[k], calls[k], cs(k))
  {
    ReachedAll(cs, 0, |calls|);
    var n := Reached(cs, 0, |calls|);
    forall k | 0 <= k < n ensures ReportsOutcome(Result(calls, cs).messages[k], calls[k], cs(k)) {
      OutcomeIsReported(calls[k], cs(k));
      assert Outcomes(calls, cs, n)[k] == Outcome(calls[k], cs(k));
    }
  }

  method ExecuteToolCalls(calls: seq<ToolCall>, cs: CallScripts, sequentialMode: bool)
    returns (events: seq<Event>, batch: Batch)
    ensures batch == Result(calls, cs)
    ensures BatchEvents(events, calls[..Reached(cs, 0, |calls|)], batch.messages)
    ensures ToolEvents(events, calls, cs, Reached(cs, 0, |calls|), batch.messages)
    ensures Ordered(events, calls, cs, Reached(cs, 0, |calls|), sequentialMode)
  {
    var hasSequentialToolCall := exists k :: 0 <= k < |calls| && cs(k).toolFound && cs(k).sequentialTool;
    if sequentialMode || hasSequentialToolCall {
      events, batch := ExecuteSequential(calls, cs);
    } else {
      events, batch := ExecuteParallel(calls, cs);
    }
  }
}
