/** What the agent harness does to its session, on values: writes are put off while a run is on, flushed
    where turns and runs end, and may fail to be logged. Await points let other callers in; what they do
    is an input. */
module HarnessSpec {
  import opened Common
  import opened AgentTypes

  datatype Phase = Idle | InTurn

  datatype Write =
    | MessageWrite(message: Message)
    | ModelChange(provider: string, modelId: string)
    | ThinkingLevelChange(level: string)
    | ActiveToolsChange(names: seq<string>)
    | CustomEntry(customType: string, data: string)
    | CustomMessage(customType: string, content: string, display: bool, details: string)
    | Label(targetId: string, text: string)
    | SessionInfo(name: string)
    | Leaf(targetId: string)

  /** The session log: messages of the run, writes put off, and writes made while idle. */
  datatype LogEntry = RunMessage(message: Message) | Deferred(write: Write) | Direct(write: Write)

  /** What happens while one append is awaited: writes requested meanwhile, and whether it fails. */
  datatype Await = Await(arrivals: seq<Write>, fails: bool)

  function Arrived(awaits: seq<Await>): seq<Write> {
    if awaits == [] then [] else awaits[0].arrivals + Arrived(awaits[1..])
  }

  function DeferredIn(log: seq<LogEntry>): seq<Write> {
    if log == [] then []
    else
      var front, e := DeferredIn(log[..|log| - 1]), log[|log| - 1];
      if e.Deferred? then front + [e.write] else front
  }

  function WritesIn(log: seq<LogEntry>): seq<Write> {
    if log == [] then []
    else
      var front, e := WritesIn(log[..|log| - 1]), log[|log| - 1];
      if e.RunMessage? then front else front + [e.write]
  }

  function MessagesIn(log: seq<LogEntry>): seq<Message> {
    if log == [] then []
    else
      var front, e := MessagesIn(log[..|log| - 1]), log[|log| - 1];
      if e.RunMessage? then front + [e.message] else front
  }

  /** The log without the messages of runs. */
  function EntriesIn(log: seq<LogEntry>): seq<LogEntry> {
    if log == [] then []
    else
      var front, e := EntriesIn(log[..|log| - 1]), log[|log| - 1];
      if e.RunMessage? then front else front + [e]
  }

  function AllDeferred(writes: seq<Write>): (r: seq<LogEntry>)
    ensures |r| == |writes| && forall k :: 0 <= k < |r| ==> r[k] == Deferred(writes[k])
  {
    seq(|writes|, k requires 0 <= k < |writes| => Deferred(writes[k]))
  }

  function AllDirect(writes: seq<Write>): (r: seq<LogEntry>)
    ensures |r| == |writes| && forall k :: 0 <= k < |r| ==> r[k] == Direct(writes[k])
  {
    seq(|writes|, k requires 0 <= k < |writes| => Direct(writes[k]))
  }

  function RunMessages(messages: seq<Message>): (r: seq<LogEntry>)
    ensures |r| == |messages| && forall k :: 0 <= k < |r| ==> r[k] == RunMessage(messages[k])
  {
    seq(|messages|, k requires 0 <= k < |messages| => RunMessage(messages[k]))
  }

  // ---- the session ----

  datatype Store = Store(phase: Phase, pending: seq<Write>, log: seq<LogEntry>)

  /** What a step leaves, whether it threw, and the writes asked for meanwhile: those asked for while a run
      is on are to be deferred. */
  datatype Outcome = Outcome(store: Store, thrown: bool, asked: seq<LogEntry>)

  function Asked(phase: Phase, writes: seq<Write>): seq<LogEntry> {
    if phase.InTurn? then AllDeferred(writes) else AllDirect(writes)
  }

  /** Writes others ask for: put off while a run is on, else logged at once. */
  function Receive(s: Store, writes: seq<Write>): Store {
    if s.phase.InTurn? then s.(pending := s.pending + writes) else s.(log := s.log + AllDirect(writes))
  }

  /** Listeners ask for writes and may throw. */
  function Heard(s: Store, writes: seq<Write>, throws: bool): Outcome {
    Outcome(Receive(s, writes), throws, Asked(s.phase, writes))
  }

  /** A step and the one after it. */
  function Join(before: Outcome, next: Outcome): Outcome {
    Outcome(next.store, next.thrown, before.asked + next.asked)
  }

  /** The first pending write is logged. */
  function LogFirst(s: Store): Store
    requires s.pending != []
  {
    s.(log := s.log + [Deferred(s.pending[0])], pending := s.pending[1..])
  }

  /** Pending writes are logged, one append after the other, until none is left or one fails. The first
      appends take the awaits given, the others neither fail nor let anyone in. */
  function Flush(s: Store, awaits: seq<Await>): Outcome
    decreases |awaits|, |s.pending|
  {
    if s.pending == [] then Outcome(s, false, [])
    else if awaits == [] then Flush(LogFirst(s), [])
    else
      var met := Heard(s, awaits[0].arrivals, awaits[0].fails);
      if met.thrown then met else Join(met, Flush(LogFirst(met.store), awaits[1..]))
  }

  /** What happens while one event is handled; before a turn after the first, `preparing` is what happens
      while that turn is prepared. */
  datatype Handling = Handling(
    preparing: seq<Await>, appendFails: bool, listenerArrivals: seq<Write>, listenerThrows: bool, awaits: seq<Await>,
    lateArrivals: seq<Write>, lateListenerThrows: bool)

  function MessageEnded(s: Store, m: Message, h: Handling): Outcome {
    if h.appendFails then Outcome(s, true, [])
    else Heard(s.(log := s.log + [RunMessage(m)]), h.listenerArrivals, h.listenerThrows)
  }

  /** A listener that throws does not keep the pending writes from the log. */
  function TurnEnded(s: Store, h: Handling): Outcome {
    var heard := Heard(s, h.listenerArrivals, false);
    var flushed := Join(heard, Flush(heard.store, h.awaits));
    if flushed.thrown || h.listenerThrows then flushed.(thrown := true)
    else Join(flushed, Heard(flushed.store, h.lateArrivals, h.lateListenerThrows))
  }

  function RunEnded(s: Store, h: Handling): Outcome {
    var flushed := Flush(s, h.awaits);
    if flushed.thrown then flushed
    else
      var heard := Join(flushed, Heard(flushed.store.(phase := Idle), h.listenerArrivals, h.listenerThrows));
      if heard.thrown then heard else Join(heard, Heard(heard.store, h.lateArrivals, h.lateListenerThrows))
  }

  function Handle(s: Store, event: Event, h: Handling): Outcome {
    match event
    case MessageEnd(m) => MessageEnded(s, m, h)
    case TurnEnd(_, _) => TurnEnded(s, h)
    case AgentEnd(_) => RunEnded(s, h)
    case _ => Heard(s, h.listenerArrivals, h.listenerThrows)
  }

  /** A message that cannot be logged is not taken. */
  predicate Takes(event: Event, h: Handling) { event.MessageEnd? ==> !h.appendFails }

  // ---- runs of events ----

  /** Some events handled: the outcome, and how many events were taken. */
  datatype Progress = Progress(outcome: Outcome, took: nat)

  /** A turn that follows another is prepared before it starts. */
  predicate Prepared(events: seq<Event>, i: nat)
    requires i < |events|
  {
    i > 0 && events[i - 1].TurnEnd? && events[i].TurnStart?
  }

  function Step(before: Outcome, events: seq<Event>, i: nat, h: Handling): Progress
    requires i < |events|
  {
    var ready := if Prepared(events, i) then Join(before, Flush(before.store, h.preparing)) else before;
    if ready.thrown then Progress(ready, i)
    else Progress(Join(ready, Handle(ready.store, events[i], h)), if Takes(events[i], h) then i + 1 else i)
  }

  /** The first `n` events, up to the first that throws. */
  function Play(s: Store, events: seq<Event>, handlings: nat -> Handling, n: nat): Progress
    requires n <= |events|
  {
    if n == 0 then Progress(Outcome(s, false, []), 0)
    else
      var before := Play(s, events, handlings, n - 1);
      if before.outcome.thrown then before else Step(before.outcome, events, n - 1, handlings(n - 1))
  }

  /** A prompt: the events of its run, the report if the run threw, and the last flush. It ends idle. */
  datatype Prompted = Prompted(ran: Progress, told: Progress, end: Outcome)

  function Told(ran: Outcome, breaks: bool, failure: Message, reporting: nat -> Handling): Progress {
    if ran.thrown || breaks then Play(ran.store, FailureEvents(failure), reporting, 4)
    else Progress(Outcome(ran.store, false, []), 0)
  }

  function Ended(told: Outcome, awaits: seq<Await>): Outcome {
    var flushed := Flush(told.store, awaits);
    var failed := told.thrown || flushed.thrown;
    Outcome(if failed then flushed.store.(phase := Idle) else flushed.store, failed, flushed.asked)
  }

  function PromptOf(s: Store, events: seq<Event>, breaks: bool, handlings: nat -> Handling, failure: Message,
                    reporting: nat -> Handling, awaits: seq<Await>): Prompted
  {
    var ran := Play(s.(phase := InTurn), events, handlings, |events|);
    var told := Told(ran.outcome, breaks, failure, reporting);
    Prompted(ran, told, Join(Join(ran.outcome, told.outcome), Ended(told.outcome, awaits)))
  }
}
