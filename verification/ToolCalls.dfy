/** One tool call, how it turns out, and what the events of a batch of calls have in common. */
module ToolCalls {
  import opened Common
  import opened AgentTypes

  // ---- what the tools and hooks do: inputs of the model ----

  datatype HookResult =
    | NoHook
    | NoAnswer
    | Answer(block: bool, reason: string, terminate: Option<bool>)

  datatype Patch = NoPatch | Patch(content: Option<string>, details: Option<string>, terminate: Option<bool>,
                                   isError: Option<bool>)

  datatype Attempt<T> = Returned(value: T) | Threw(error: string)

  /** Everything outside the loop's control that happens to one call. */
  datatype CallScript = CallScript(
    toolFound: bool,
    sequentialTool: bool,
    arguments: Attempt<string>,        // preparing and validating the arguments
    before: Attempt<HookResult>,       // beforeToolCall
    abortedInPreparation: bool,
    updates: seq<string>,              // partial results, in order
    execution: Attempt<ToolOutput>,
    after: Attempt<Patch>,             // afterToolCall
    abortedAfterwards: bool)

  type CallScripts = nat -> CallScript

  // ---- one call ----

  datatype Preparation =
    | Immediate(result: ToolOutput, isError: bool)
    | Prepared(call: ToolCall, args: string)

  datatype Finalized = Finalized(call: ToolCall, result: ToolOutput, isError: bool)

  function ErrorOutput(message: string): ToolOutput { ToolOutput(message, "{}", None) }

  function Prepare(call: ToolCall, c: CallScript): Preparation {
    if !c.toolFound then Immediate(ErrorOutput("Tool " + call.name + " not found"), true)
    else if c.arguments.Threw? then Immediate(ErrorOutput(c.arguments.error), true)
    else if c.before.Threw? then Immediate(ErrorOutput(c.before.error), true)
    else if c.abortedInPreparation then Immediate(ErrorOutput("Operation aborted"), true)
    else if c.before.value.Answer? && c.before.value.block then
      var reason := if c.before.value.reason == "" then "Tool execution was blocked" else c.before.value.reason;
      var output := ErrorOutput(reason);
      Immediate(if c.before.value.terminate == Some(true) then output.(terminate := Some(true)) else output, true)
    else Prepared(call, c.arguments.value)
  }

  function Finalize(call: ToolCall, c: CallScript): Finalized {
    var (result, isError) := match c.execution
      case Returned(output) => (output, false)
      case Threw(error) => (ErrorOutput(error), true);
    match c.after
    case Threw(error) => Finalized(call, ErrorOutput(error), true)
    case Returned(NoPatch) => Finalized(call, result, isError)
    case Returned(Patch(content, details, terminate, patchedError)) =>
      Finalized(call,
                ToolOutput(if content.Some? then content.value else result.content,
                           if details.Some? then details.value else result.details,
                           if terminate.Some? then terminate else result.terminate),
                if patchedError.Some? then patchedError.value else isError)
  }

  /** How a call turns out. */
  function Outcome(call: ToolCall, c: CallScript): Finalized {
    match Prepare(call, c)
    case Immediate(result, isError) => Finalized(call, result, isError)
    case Prepared(_, _) => Finalize(call, c)
  }

  function EndEvent(f: Finalized): Event { ToolEnd(f.call.id, f.call.name, f.result, f.isError) }

  function ResultMessage(f: Finalized): Message {
    ToolResult(f.call.id, f.call.name, f.result.content, f.result.details, f.isError)
  }

  function Announced(m: Message): seq<Event> { [MessageStart(m), MessageEnd(m)] }

  function ShouldTerminate(finalized: seq<Finalized>): bool {
    |finalized| > 0 && forall k :: 0 <= k < |finalized| ==> finalized[k].result.terminate == Some(true)
  }

  // ---- a batch ----

  datatype Batch = Batch(messages: seq<Message>, terminate: bool)

  /** Outcomes of the first n calls, in source order. */
  function Outcomes(calls: seq<ToolCall>, cs: CallScripts, n: nat): (r: seq<Finalized>)
    requires n <= |calls|
    ensures |r| == n
  {
    seq(n, k requires 0 <= k < n => Outcome(calls[k], cs(k)))
  }

  function Messages(finalized: seq<Finalized>): (r: seq<Message>)
    ensures |r| == |finalized|
  {
    seq(|finalized|, k requires 0 <= k < |finalized| => ResultMessage(finalized[k]))
  }

  /** How many calls are started: all, or up to and including the first after which the run was aborted. */
  function Reached(cs: CallScripts, i: nat, n: nat): (r: nat)
    requires i <= n
    ensures i <= r <= n
    decreases n - i
  {
    if i == n then n else if cs(i).abortedAfterwards then i + 1 else Reached(cs, i + 1, n)
  }

  function Result(calls: seq<ToolCall>, cs: CallScripts): Batch {
    var finalized := Outcomes(calls, cs, Reached(cs, 0, |calls|));
    Batch(Messages(finalized), ShouldTerminate(finalized))
  }

  function Ids(calls: seq<ToolCall>): multiset<string> {
    if calls == [] then multiset{} else Ids(calls[..|calls| - 1]) + multiset{calls[|calls| - 1].id}
  }

  /** What holds of the events of a batch, however its calls interleave: each started call ends
      exactly once and never before it started, only the result messages are completed, in order,
      nothing else of the run's life cycle happens, and no message is left unfinished. */
  ghost predicate BatchEvents(events: seq<Event>, calls: seq<ToolCall>, messages: seq<Message>) {
    && Starts(events) == Ends(events) == Ids(calls)
    && Balanced(events)
    && Completed(events) == messages
    && Lifecycle(events) == []
    && StreamingAfter(events) == None
  }

  // ---- appending single events ----

  /** Counts, completions and life cycle of a trace extended by one event. */
  lemma Append(events: seq<Event>, e: Event)
    ensures var t := events + [e];
            && Starts(t) == Starts(events) + (if e.ToolStart? then multiset{e.call.id} else multiset{})
            && Ends(t) == Ends(events) + (if e.ToolEnd? then multiset{e.callId} else multiset{})
            && Completed(t) == Completed(events) + (if e.MessageEnd? then [e.message] else [])
            && Lifecycle(t) == Lifecycle(events) + (if IsLifecycle(e) then [e] else [])
            && (Balanced(t) <==> Balanced(events) && Ends(t) <= Starts(t))
            && StreamingAfter(t) == (match e
                                     case MessageStart(m) => Some(m)
                                     case MessageUpdate(m) => Some(m)
                                     case MessageEnd(_) => None
                                     case AgentEnd(_) => None
                                     case _ => StreamingAfter(events))
  {
    var t := events + [e];
    assert t[..|t| - 1] == events;
    CompletedConcat(events, [e]);
    LifecycleConcat(events, [e]);
    assert [e][1..] == [];
  }

  function UpdateEvents(call: ToolCall, updates: seq<string>): (r: seq<Event>)
    ensures |r| == |updates|
  {
    seq(|updates|, k requires 0 <= k < |updates| => ToolUpdate(call, updates[k]))
  }

  /** Events that touch none of the projections. */
  ghost predicate Silent(events: seq<Event>) {
    Starts(events) == Ends(events) == multiset{} && Completed(events) == [] && Lifecycle(events) == []
        && Balanced(events)
  }

  lemma {:induction false} UpdatesSilent(call: ToolCall, updates: seq<string>)
    ensures Silent(UpdateEvents(call, updates)) && StreamingAfter(UpdateEvents(call, updates)) == None
    decreases |updates|
  {
    if updates != [] {
      var front, last := updates[..|updates| - 1], updates[|updates| - 1];
      UpdatesSilent(call, front);
      assert UpdateEvents(call, updates) == UpdateEvents(call, front) + [ToolUpdate(call, last)];
      Append(UpdateEvents(call, front), ToolUpdate(call, last));
    }
  }

  /** Everything that happens to one call when calls run one after the other. */
  function CallEvents(call: ToolCall, c: CallScript): seq<Event> {
    [ToolStart(call)]
    + (if Prepare(call, c).Prepared? then UpdateEvents(call, c.updates) else [])
    + [EndEvent(Outcome(call, c))]
    + Announced(ResultMessage(Outcome(call, c)))
  }

  lemma StartToEnd(call: ToolCall, c: CallScript, updates: seq<Event>)
    requires Silent(updates) && StreamingAfter(updates) == None
    ensures BatchEvents([ToolStart(call)] + updates + [EndEvent(Outcome(call, c))], [call], [])
  {
    var none: seq<Event> := [];
    Append(none, ToolStart(call));
    assert none + [ToolStart(call)] == [ToolStart(call)];
    QuietConcat([ToolStart(call)], updates);
    StreamingConcat([ToolStart(call)], updates);
    Append([ToolStart(call)] + updates, EndEvent(Outcome(call, c)));
    assert [call][..0] == [];
  }

  lemma CallEventsOfOne(call: ToolCall, c: CallScript)
    ensures BatchEvents(CallEvents(call, c), [call], [ResultMessage(Outcome(call, c))])
  {
    var updates := if Prepare(call, c).Prepared? then UpdateEvents(call, c.updates) else [];
    UpdatesSilent(call, c.updates);
    assert Silent([]);
    StartToEnd(call, c, updates);
    AnnouncedBatch(ResultMessage(Outcome(call, c)));
    BatchConcat([ToolStart(call)] + updates + [EndEvent(Outcome(call, c))], [call], [],
                Announced(ResultMessage(Outcome(call, c))), [], [ResultMessage(Outcome(call, c))]);
    assert [call] + [] == [call];
  }

  lemma {:induction false} QuietConcat(a: seq<Event>, b: seq<Event>)
    requires Silent(b) && Balanced(a)
    ensures Starts(a + b) == Starts(a) && Ends(a + b) == Ends(a) && Completed(a + b) == Completed(a)
    ensures Lifecycle(a + b) == Lifecycle(a) && Balanced(a + b)
    decreases |b|
  {
    ToolCountsConcat(a, b);
    CompletedConcat(a, b);
    LifecycleConcat(a, b);
    BalancedAppend(a, b);
  }

  /** Balance survives appending a balanced trace that opens nothing of its own. */
  lemma {:induction false} BalancedAppend(a: seq<Event>, b: seq<Event>)
    requires Balanced(a) && Balanced(b)
    ensures Balanced(a + b)
    decreases |b|
  {
    if b == [] {
      assert a + b == a;
    } else {
      assert (a + b)[..|a + b| - 1] == a + b[..|b| - 1];
      BalancedAppend(a, b[..|b| - 1]);
      ToolCountsConcat(a, b);
      EndsWithinStarts(a);
    }
  }

  lemma EndsWithinStarts(a: seq<Event>)
    requires Balanced(a)
    ensures Ends(a) <= Starts(a)
  {
  }

  lemma {:induction false} IdsConcat(xs: seq<ToolCall>, ys: seq<ToolCall>)
    ensures Ids(xs + ys) == Ids(xs) + Ids(ys)
    decreases |ys|
  {
    if ys == [] {
      assert xs + ys == xs;
    } else {
      assert (xs + ys)[..|xs + ys| - 1] == xs + ys[..|ys| - 1];
      IdsConcat(xs, ys[..|ys| - 1]);
    }
  }

  lemma BatchConcat(a: seq<Event>, xs: seq<ToolCall>, ms: seq<Message>, b: seq<Event>, ys: seq<ToolCall>,
                    ns: seq<Message>)
    requires BatchEvents(a, xs, ms) && BatchEvents(b, ys, ns)
    ensures BatchEvents(a + b, xs + ys, ms + ns)
  {
    ToolCountsConcat(a, b);
    CompletedConcat(a, b);
    LifecycleConcat(a, b);
    BalancedAppend(a, b);
    IdsConcat(xs, ys);
    StreamingConcat(a, b);
  }

  lemma AnnouncedBatch(m: Message)
    ensures BatchEvents(Announced(m), [], [m])
  {
    var none: seq<Event> := [];
    Append(none, MessageStart(m));
    Append(none + [MessageStart(m)], MessageEnd(m));
    assert Announced(m) == none + [MessageStart(m)] + [MessageEnd(m)];
  }

  // ---- what the tool events of a batch say, and in which order ----

  /** The calls that were started, in order. */
  function StartedCalls(events: seq<Event>): seq<ToolCall> {
    if events == [] then []
    else
      var front, last := StartedCalls(events[..|events| - 1]), events[|events| - 1];
      if last.ToolStart? then front + [last.call] else front
  }

  /** What the executions ended with, written as result messages. */
  function EndedWith(events: seq<Event>): multiset<Message> {
    if events == [] then multiset{}
    else
      var front, last := EndedWith(events[..|events| - 1]), events[|events| - 1];
      if last.ToolEnd? then
        front + multiset{ToolResult(last.callId, last.toolName, last.result.content, last.result.details, last.isError)}
      else front
  }

  /** The partial results reported for an id, in order. */
  function UpdatesOf(events: seq<Event>, id: string): seq<string> {
    if events == [] then []
    else
      var front, last := UpdatesOf(events[..|events| - 1], id), events[|events| - 1];
      if last.ToolUpdate? && last.call.id == id then front + [last.partial] else front
  }

  lemma {:induction false} StartedConcat(a: seq<Event>, b: seq<Event>)
    ensures StartedCalls(a + b) == StartedCalls(a) + StartedCalls(b)
    decreases |b|
  {
    if b == [] {
      assert a + b == a;
    } else {
      assert (a + b)[..|a + b| - 1] == a + b[..|b| - 1];
      StartedConcat(a, b[..|b| - 1]);
      if b[|b| - 1].ToolStart? {
        Associate(StartedCalls(a), StartedCalls(b[..|b| - 1]), [b[|b| - 1].call]);
      }
    }
  }

  lemma {:induction false} EndedConcat(a: seq<Event>, b: seq<Event>)
    ensures EndedWith(a + b) == EndedWith(a) + EndedWith(b)
    decreases |b|
  {
    if b == [] {
      assert a + b == a;
    } else {
      assert (a + b)[..|a + b| - 1] == a + b[..|b| - 1];
      EndedConcat(a, b[..|b| - 1]);
    }
  }

  lemma {:induction false} UpdatesConcat(a: seq<Event>, b: seq<Event>, id: string)
    ensures UpdatesOf(a + b, id) == UpdatesOf(a, id) + UpdatesOf(b, id)
    decreases |b|
  {
    if b == [] {
      assert a + b == a;
    } else {
      assert (a + b)[..|a + b| - 1] == a + b[..|b| - 1];
      UpdatesConcat(a, b[..|b| - 1], id);
      if b[|b| - 1].ToolUpdate? && b[|b| - 1].call.id == id {
        Associate(UpdatesOf(a, id), UpdatesOf(b[..|b| - 1], id), [b[|b| - 1].partial]);
      }
    }
  }

  /** The same of a trace extended by one event. */
  lemma ReportAppend(events: seq<Event>, e: Event)
    ensures StartedCalls(events + [e]) == if e.ToolStart? then StartedCalls(events) + [e.call] else StartedCalls(events)
    ensures EndedWith(events + [e]) == if e.ToolEnd? then EndedWith(events)
              + multiset{ToolResult(e.callId, e.toolName, e.result.content, e.result.details, e.isError)}
            else EndedWith(events)
  {
    assert (events + [e])[..|events|] == events;
  }

  lemma UpdatesAppend(events: seq<Event>, e: Event, id: string)
    ensures UpdatesOf(events + [e], id)
         == if e.ToolUpdate? && e.call.id == id then UpdatesOf(events, id) + [e.partial] else UpdatesOf(events, id)
  {
    assert (events + [e])[..|events|] == events;
  }

  /** No other call has the id of call `k`. */
  ghost predicate Alone(calls: seq<ToolCall>, k: nat)
    requires k < |calls|
  {
    forall j :: 0 <= j < |calls| && j != k ==> calls[j].id != calls[k].id
  }

  /** A call is executed unless its preparation already settles it. */
  predicate Executes(c: CallScript) {
    && c.toolFound && c.arguments.Returned? && c.before.Returned? && !c.abortedInPreparation
    && !(c.before.value.Answer? && c.before.value.block)
  }

  /** The partial results a call reports. */
  function Given(c: CallScript): seq<string> { if Executes(c) then c.updates else [] }

  /** What call `k` has still to report when `n` calls have run. */
  function Missing(cs: CallScripts, n: nat, k: nat): seq<string> { if k < n then [] else Given(cs(k)) }

  /** What has been reported for call `k`, and what is still to come. */
  ghost predicate ReportsAt(events: seq<Event>, calls: seq<ToolCall>, cs: CallScripts, k: nat, left: seq<string>)
    requires k < |calls|
  {
    Alone(calls, k) ==> UpdatesOf(events, calls[k].id) + left == Given(cs(k))
  }

  /** The first `n` calls have started in order and reported all their partial results; the rest nothing. */
  ghost predicate Reports(events: seq<Event>, calls: seq<ToolCall>, cs: CallScripts, n: nat)
    requires n <= |calls|
  {
    && StartedCalls(events) == calls[..n]
    && forall k :: 0 <= k < |calls| ==> ReportsAt(events, calls, cs, k, Missing(cs, n, k))
  }

  /** What the tool events of a batch say: the calls start in source order, the partial results of each come in
      order, and the executions end with what the result messages report. */
  ghost predicate ToolEvents(events: seq<Event>, calls: seq<ToolCall>, cs: CallScripts, n: nat, messages: seq<Message>)
    requires n <= |calls|
  {
    Reports(events, calls, cs, n) && EndedWith(events) == multiset(messages)
  }

  // ---- one after the other ----

  /** At most one execution is running, and when a call starts the result of every call before it is completed. */
  ghost predicate OneByOneAt(events: seq<Event>, k: nat)
    requires k <= |events|
  {
    var soFar := events[..k];
    && |Starts(soFar)| <= |Ends(soFar)| + 1
    && (k < |events| && events[k].ToolStart? ==> |Completed(soFar)| == |Starts(soFar)| == |Ends(soFar)|)
  }

  ghost predicate OneByOne(events: seq<Event>) {
    forall k :: 0 <= k <= |events| ==> OneByOneAt(events, k)
  }

  lemma OneByOneConcat(a: seq<Event>, b: seq<Event>)
    requires OneByOne(a) && OneByOne(b) && |Starts(a)| == |Ends(a)| == |Completed(a)|
    ensures OneByOne(a + b)
  {
    var c := a + b;
    forall k | 0 <= k <= |c| ensures OneByOneAt(c, k) {
      if k < |a| {
        assert OneByOneAt(a, k) && c[..k] == a[..k];
      } else {
        var j := k - |a|;
        assert OneByOneAt(b, j) && c[..k] == a + b[..j];
        ToolCountsConcat(a, b[..j]);
        CompletedConcat(a, b[..j]);
      }
    }
  }

  lemma OneStart(call: ToolCall, rest: seq<Event>)
    requires forall k :: 0 <= k < |rest| ==> !rest[k].ToolStart?
    ensures |Starts([ToolStart(call)] + rest)| == 1
  {
    var first := [ToolStart(call)];
    ToolCountsConcat(first, rest);
    NoStarts(rest);
    assert first[..0] == [];
  }

  /** The events of one call: it starts first, and nothing else starts. */
  lemma OneCallAtATime(events: seq<Event>, call: ToolCall, rest: seq<Event>)
    requires events == [ToolStart(call)] + rest
    requires forall k :: 0 <= k < |rest| ==> !rest[k].ToolStart?
    ensures OneByOne(events)
  {
    forall k | 0 <= k <= |events| ensures OneByOneAt(events, k) {
      if k > 0 {
        OneStart(call, rest[..k - 1]);
        assert events[..k] == [ToolStart(call)] + rest[..k - 1];
      }
    }
  }

  lemma {:induction false} NoStarts(events: seq<Event>)
    requires forall k :: 0 <= k < |events| ==> !events[k].ToolStart?
    ensures Starts(events) == multiset{} && StartedCalls(events) == []
  {
    if events != [] {
      NoStarts(events[..|events| - 1]);
    }
  }

  // ---- concurrently ----

  /** While not all calls have started nothing is reported or completed, and the only execution that may end is that of
      the call that has just started and needs no execution. */
  ghost predicate StartsFirstAt(events: seq<Event>, calls: seq<ToolCall>, cs: CallScripts, n: nat, k: nat)
    requires n <= |calls| && k < |events|
  {
    var e, started := events[k], |StartedCalls(events[..k])|;
    started < n ==>
      && !e.MessageStart? && !e.MessageEnd? && !e.ToolUpdate?
      && (e.ToolEnd? ==>
            && 0 < started <= k && events[k - 1] == ToolStart(calls[started - 1]) && e.callId == calls[started - 1].id
            && !Executes(cs(started - 1)))
  }

  ghost predicate StartsFirst(events: seq<Event>, calls: seq<ToolCall>, cs: CallScripts, n: nat)
    requires n <= |calls|
  {
    forall k :: 0 <= k < |events| ==> StartsFirstAt(events, calls, cs, n, k)
  }

  lemma StartsFirstAppend(events: seq<Event>, e: Event, calls: seq<ToolCall>, cs: CallScripts, n: nat)
    requires n <= |calls| && StartsFirst(events, calls, cs, n)
    requires StartsFirstAt(events + [e], calls, cs, n, |events|)
    ensures StartsFirst(events + [e], calls, cs, n)
  {
    var all := events + [e];
    forall k | 0 <= k < |all| ensures StartsFirstAt(all, calls, cs, n, k) {
      if k < |events| {
        assert StartsFirstAt(events, calls, cs, n, k) && all[..k] == events[..k];
      }
    }
  }

  /** When all calls have started anything may come. */
  lemma AllHaveStarted(events: seq<Event>, e: Event, calls: seq<ToolCall>, cs: CallScripts, n: nat)
    requires n <= |calls| && StartsFirst(events, calls, cs, n) && StartedCalls(events) == calls[..n]
    ensures StartsFirst(events + [e], calls, cs, n)
  {
    assert (events + [e])[..|events|] == events;
    StartsFirstAppend(events, e, calls, cs, n);
  }

  /** A call starts, and ends at once if it needs no execution. */
  lemma StartsNext(events: seq<Event>, calls: seq<ToolCall>, cs: CallScripts, n: nat, i: nat)
    requires i < n <= |calls| && StartsFirst(events, calls, cs, n) && StartedCalls(events) == calls[..i]
    ensures StartsFirst(events + [ToolStart(calls[i])], calls, cs, n)
    ensures StartedCalls(events + [ToolStart(calls[i])]) == calls[..i + 1]
    ensures forall f: Finalized :: f.call == calls[i] && !Executes(cs(i)) ==>
              StartsFirst(events + [ToolStart(calls[i])] + [EndEvent(f)], calls, cs, n)
  {
    var all := events + [ToolStart(calls[i])];
    assert all[..|events|] == events;
    ReportAppend(events, ToolStart(calls[i]));
    StartsFirstAppend(events, ToolStart(calls[i]), calls, cs, n);
    assert calls[..i] + [calls[i]] == calls[..i + 1];
    forall f: Finalized | f.call == calls[i] && !Executes(cs(i))
      ensures StartsFirst(all + [EndEvent(f)], calls, cs, n)
    {
      assert (all + [EndEvent(f)])[..|all|] == all;
      assert StartedCalls(all) == calls[..i + 1];
      StartedWithin(events);
      StartsFirstAppend(all, EndEvent(f), calls, cs, n);
    }
  }

  lemma {:induction false} StartedWithin(events: seq<Event>)
    ensures |StartedCalls(events)| <= |events|
  {
    if events != [] {
      StartedWithin(events[..|events| - 1]);
    }
  }

  // ---- the order of a batch ----

  /** One tool at a time in sequential mode or if a tool that is called asks for it; otherwise all calls start before
      anything else. */
  ghost predicate Ordered(events: seq<Event>, calls: seq<ToolCall>, cs: CallScripts, n: nat, sequentialMode: bool)
    requires n <= |calls|
  {
    var oneByOne := sequentialMode || exists k :: 0 <= k < |calls| && cs(k).toolFound && cs(k).sequentialTool;
    && (oneByOne ==> OneByOne(events))
    && (!oneByOne ==> StartsFirst(events, calls, cs, n))
  }

  // ---- the events of one call ----

  lemma PreparedExecutes(call: ToolCall, c: CallScript)
    ensures Prepare(call, c).Prepared? <==> Executes(c)
  {
  }

  lemma {:induction false} UpdateEventsReport(call: ToolCall, updates: seq<string>, id: string)
    ensures var events := UpdateEvents(call, updates);
            && StartedCalls(events) == [] && EndedWith(events) == multiset{}
            && UpdatesOf(events, id) == if id == call.id then updates else []
    decreases |updates|
  {
    if updates != [] {
      var front, last := updates[..|updates| - 1], updates[|updates| - 1];
      UpdateEventsReport(call, front, id);
      assert UpdateEvents(call, updates)[..|updates| - 1] == UpdateEvents(call, front);
      assert front + [last] == updates;
    }
  }

  lemma AnnouncedReports(m: Message, id: string)
    ensures StartedCalls(Announced(m)) == [] && EndedWith(Announced(m)) == multiset{}
        && UpdatesOf(Announced(m), id) == []
  {
    OneEventReports(MessageStart(m), id);
    assert Announced(m)[..1] == [MessageStart(m)];
  }

  lemma OneEventReports(e: Event, id: string)
    ensures StartedCalls([e]) == if e.ToolStart? then [e.call] else []
    ensures EndedWith([e]) == if e.ToolEnd? then
              multiset{ToolResult(e.callId, e.toolName, e.result.content, e.result.details, e.isError)} else multiset{}
    ensures UpdatesOf([e], id) == if e.ToolUpdate? && e.call.id == id then [e.partial] else []
  {
    assert [e][..0] == [];
  }

  /** What the events of one call report. */
  lemma CallReports(call: ToolCall, c: CallScript, id: string)
    ensures var events := CallEvents(call, c);
            && StartedCalls(events) == [call]
            && EndedWith(events) == multiset{ResultMessage(Outcome(call, c))}
            && UpdatesOf(events, id) == if id == call.id then Given(c) else []
  {
    var updates := if Prepare(call, c).Prepared? then UpdateEvents(call, c.updates) else [];
    var f := Outcome(call, c);
    var last := Announced(ResultMessage(f));
    PreparedExecutes(call, c);
    UpdateEventsReport(call, c.updates, id);
    OneEventReports(ToolStart(call), id);
    OneEventReports(EndEvent(f), id);
    AnnouncedReports(ResultMessage(f), id);
    FourReport([ToolStart(call)], updates, [EndEvent(f)], last, id);
    OutcomeIsOfCall(call, c);
  }

  lemma OutcomeIsOfCall(call: ToolCall, c: CallScript)
    ensures Outcome(call, c).call == call
  {
  }

  lemma FourReport(a: seq<Event>, b: seq<Event>, c: seq<Event>, d: seq<Event>, id: string)
    ensures var all := a + b + c + d;
            && StartedCalls(all) == StartedCalls(a) + StartedCalls(b) + StartedCalls(c) + StartedCalls(d)
            && EndedWith(all) == EndedWith(a) + EndedWith(b) + EndedWith(c) + EndedWith(d)
            && UpdatesOf(all, id) == UpdatesOf(a, id) + UpdatesOf(b, id) + UpdatesOf(c, id) + UpdatesOf(d, id)
  {
    StartedConcat(a, b);
    StartedConcat(a + b, c);
    StartedConcat(a + b + c, d);
    EndedConcat(a, b);
    EndedConcat(a + b, c);
    EndedConcat(a + b + c, d);
    UpdatesConcat(a, b, id);
    UpdatesConcat(a + b, c, id);
    UpdatesConcat(a + b + c, d, id);
  }

  lemma CallRunsAlone(call: ToolCall, c: CallScript)
    ensures OneByOne(CallEvents(call, c))
  {
    var updates := if Prepare(call, c).Prepared? then UpdateEvents(call, c.updates) else [];
    var rest := updates + [EndEvent(Outcome(call, c))] + Announced(ResultMessage(Outcome(call, c)));
    Associate([ToolStart(call)], updates, [EndEvent(Outcome(call, c))]);
    Associate([ToolStart(call)], updates + [EndEvent(Outcome(call, c))], Announced(ResultMessage(Outcome(call, c))));
    OneCallAtATime(CallEvents(call, c), call, rest);
  }

  // ---- batches that go call by call ----

  lemma ReportsNext(events: seq<Event>, calls: seq<ToolCall>, cs: CallScripts, i: nat)
    requires i < |calls| && Reports(events, calls, cs, i)
    ensures Reports(events + CallEvents(calls[i], cs(i)), calls, cs, i + 1)
  {
    var more, next := CallEvents(calls[i], cs(i)), i + 1;
    CallReports(calls[i], cs(i), calls[i].id);
    StartedConcat(events, more);
    assert calls[..i] + [calls[i]] == calls[..next];
    forall k | 0 <= k < |calls|
      ensures ReportsAt(events + more, calls, cs, k, Missing(cs, next, k))
    {
      assert ReportsAt(events, calls, cs, k, Missing(cs, i, k));
      CallReports(calls[i], cs(i), calls[k].id);
      UpdatesConcat(events, more, calls[k].id);
      if Alone(calls, k) { ReportGrows(UpdatesOf(events, calls[k].id), Given(cs(k)), k, i); }
    }
  }

  lemma ReportGrows(soFar: seq<string>, given: seq<string>, k: nat, i: nat)
    requires soFar + (if k < i then [] else given) == given
    ensures soFar + (if k == i then given else []) + (if k < i + 1 then [] else given) == given
  {
    assert |soFar + (if k < i then [] else given)| == |given|;
    assert soFar + [] == soFar && given + [] == given && [] + given == given;
  }

  lemma {:induction false} IdsCount(calls: seq<ToolCall>)
    ensures |Ids(calls)| == |calls|
  {
    if calls != [] {
      IdsCount(calls[..|calls| - 1]);
    }
  }

  /** One more call, after the results of all before it. */
  lemma CallFollows(events: seq<Event>, calls: seq<ToolCall>, cs: CallScripts, i: nat, messages: seq<Message>)
    requires i < |calls| && |messages| == i
    requires BatchEvents(events, calls[..i], messages) && ToolEvents(events, calls, cs, i, messages) && OneByOne(events)
    ensures var m := ResultMessage(Outcome(calls[i], cs(i)));
            && ToolEvents(events + CallEvents(calls[i], cs(i)), calls, cs, i + 1, messages + [m])
            && OneByOne(events + CallEvents(calls[i], cs(i)))
  {
    var more := CallEvents(calls[i], cs(i));
    ReportsNext(events, calls, cs, i);
    CallReports(calls[i], cs(i), calls[i].id);
    EndedConcat(events, more);
    IdsCount(calls[..i]);
    CallRunsAlone(calls[i], cs(i));
    OneByOneConcat(events, more);
  }

  lemma NoToolEvents(calls: seq<ToolCall>, cs: CallScripts)
    ensures ToolEvents([], calls, cs, 0, []) && OneByOne([]) && StartsFirst([], calls, cs, 0)
  {
    forall k | 0 <= k < |calls| ensures ReportsAt([], calls, cs, k, Missing(cs, 0, k)) {}
    assert OneByOneAt([], 0);
  }
}
