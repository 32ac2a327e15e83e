/** The input buffer: sequences out of chunks, pastes between markers, and the duplicate that some
    terminals send behind a Kitty key report. Timers fire as explicit steps. */
module StdinEvents {
  import opened Common
  import opened StdinBuffer
  import Ansi

  datatype Event = Data(text: string) | Paste(content: string)

  // ---- Kitty duplicates ----

  /** Digits, then at most two colon groups: the first may be empty, the last may not. */
  predicate KittyParameters(s: string) {
    || Digits(s)
    || (exists i :: 0 < i < |s| && s[i] == ':' && Digits(s[..i]) && (s[i + 1..] == "" || Digits(s[i + 1..])))
    || (exists i, j :: 0 < i < j < |s| && s[i] == ':' && s[j] == ':' && Digits(s[..i])
          && (s[i + 1..j] == "" || Digits(s[i + 1..j])) && Digits(s[j + 1..]))
  }

  function LeadingDigits(s: string): (r: string)
    ensures r <= s && forall k :: 0 <= k < |r| ==> IsDigit(r[k])
  {
    if s != "" && IsDigit(s[0]) then [s[0]] + LeadingDigits(s[1..]) else ""
  }

  /** The code point of an unmodified printable key reported as `ESC [ code u`. */
  function KittyPrintable(sequence: string): (r: Option<int>)
    ensures r.Some? ==> r.value >= 32
    ensures r.Some? ==> |sequence| > 1 && sequence[0] == ESC
  {
    if |sequence| >= 4 && sequence[0] == ESC && sequence[1] == '[' && sequence[|sequence| - 1] == 'u'
       && KittyParameters(sequence[2..|sequence| - 1])
    then
      var codepoint := Ansi.Number(LeadingDigits(sequence[2..|sequence| - 1]));
      if codepoint >= 32 then Some(codepoint) else None
    else None
  }

  predicate Duplicate(sequence: string, pending: Option<int>) {
    |sequence| == 1 && pending == Some(sequence[0] as int)
  }

  function PendingAfter(sequence: string, pending: Option<int>): Option<int> {
    if Duplicate(sequence, pending) then None else KittyPrintable(sequence)
  }

  function Emitted(sequences: seq<string>, pending: Option<int>): seq<Event> {
    if sequences == [] then []
    else if Duplicate(sequences[0], pending) then Emitted(sequences[1..], None)
    else [Data(sequences[0])] + Emitted(sequences[1..], PendingAfter(sequences[0], pending))
  }

  function PendingAfterAll(sequences: seq<string>, pending: Option<int>): Option<int> {
    if sequences == [] then pending else PendingAfterAll(sequences[1..], PendingAfter(sequences[0], pending))
  }

  /** Only the sequence right before decides what counts as a duplicate. */
  lemma {:induction false} PendingIsLastReport(sequences: seq<string>, pending: Option<int>)
    requires sequences != []
    ensures PendingAfterAll(sequences, pending) == KittyPrintable(sequences[|sequences| - 1])
  {
    if |sequences| > 1 {
      PendingIsLastReport(sequences[1..], PendingAfter(sequences[0], pending));
    } else {
      assert sequences[1..] == [];
    }
  }

  lemma {:induction false} EmittedConcat(a: seq<string>, b: seq<string>, pending: Option<int>)
    ensures Emitted(a + b, pending) == Emitted(a, pending) + Emitted(b, PendingAfterAll(a, pending))
    ensures PendingAfterAll(a + b, pending) == PendingAfterAll(b, PendingAfterAll(a, pending))
  {
    if a == [] {
      assert a + b == b;
    } else {
      var next := PendingAfter(a[0], pending);
      assert (a + b)[1..] == a[1..] + b;
      EmittedConcat(a[1..], b, next);
      Associate([Data(a[0])], Emitted(a[1..], next), Emitted(b, PendingAfterAll(a[1..], next)));
    }
  }

  // ---- finding markers ----

  predicate MatchAt(s: string, pattern: string, i: nat) { i + |pattern| <= |s| && s[i..i + |pattern|] == pattern }

  function FindFrom(s: string, pattern: string, i: nat): (r: Option<nat>)
    requires i <= |s|
    ensures r.Some? ==> i <= r.value && MatchAt(s, pattern, r.value) && forall j :: i <= j < r.value ==>
        !MatchAt(s, pattern, j)
    ensures r.None? ==> forall j :: i <= j <= |s| ==> !MatchAt(s, pattern, j)
    decreases |s| - i
  {
    if MatchAt(s, pattern, i) then Some(i)
    else if i < |s| then FindFrom(s, pattern, i + 1)
    else None
  }

  /** `indexOf`. */
  function Find(s: string, pattern: string): Option<nat> { FindFrom(s, pattern, 0) }

  // ---- the buffer as a state machine ----

  datatype State = State(buffer: string, pasteMode: bool, pasteBuffer: string, pending: Option<int>)

  datatype Outcome = Outcome(state: State, events: seq<Event>)

  function Then(events: seq<Event>, o: Outcome): Outcome { Outcome(o.state, events + o.events) }

  const MARKER_LENGTH := 6

  /** Input without a paste marker. */
  function Typed(buffer: string, pasteBuffer: string, pending: Option<int>): Outcome {
    var e := Extract(buffer);
    Outcome(State(e.remainder, false, pasteBuffer, PendingAfterAll(e.sequences, pending)),
            Emitted(e.sequences, pending))
  }

  /** One chunk. What stands unfinished before a paste marker is dropped. */
  function Chunk(s: State, str: string): Outcome
    decreases |s.buffer| + |s.pasteBuffer| + |str|, 1
  {
    if str == "" && s.buffer == "" then Outcome(s.(pending := PendingAfter("", s.pending)), Emitted([""], s.pending))
    else
      var buffer := s.buffer + str;
      if s.pasteMode then Pasting(s.pasteBuffer + buffer, s.pending)
      else match Find(buffer, PASTE_START)
        case None => Typed(buffer, s.pasteBuffer, s.pending)
        case Some(i) => Then(Emitted(Extract(buffer[..i]).sequences, s.pending),
                             Pasting(buffer[i + MARKER_LENGTH..], None))
  }

  /** Paste mode with this paste buffer. */
  function Pasting(pasteBuffer: string, pending: Option<int>): Outcome
    decreases |pasteBuffer|, 0
  {
    match Find(pasteBuffer, PASTE_END)
    case None => Outcome(State("", true, pasteBuffer, pending), [])
    case Some(i) =>
      var remaining, clean := pasteBuffer[i + MARKER_LENGTH..], State("", false, "", None);
      if remaining == "" then Outcome(clean, [Paste(pasteBuffer[..i])])
      else Then([Paste(pasteBuffer[..i])], Chunk(clean, remaining))
  }

  /** What the flush timer does: the unfinished input goes out as it is. */
  function TimedOut(s: State): Outcome {
    if s.buffer == "" then Outcome(s, [])
    else Outcome(s.(buffer := "", pending := PendingAfter(s.buffer, None)), Emitted([s.buffer], None))
  }

  function Chunks(s: State, chunks: seq<string>): Outcome
    decreases |chunks|
  {
    if chunks == [] then Outcome(s, [])
    else
      var o := Chunk(s, chunks[0]);
      Then(o.events, Chunks(o.state, chunks[1..]))
  }

  // ---- the class ----

  class InputBuffer {
    var buffer: string
    var pasteMode: bool
    var pasteBuffer: string
    var pendingKittyPrintableCodepoint: Option<int>
    var events: seq<Event>          // everything emitted so far

    ghost function View(): State
      reads this
    {
      State(buffer, pasteMode, pasteBuffer, pendingKittyPrintableCodepoint)
    }

    constructor ()
      ensures View() == State("", false, "", None) && events == []
    {
      buffer, pasteMode, pasteBuffer, pendingKittyPrintableCodepoint, events := "", false, "", None, [];
    }

    method EmitDataSequence(sequence: string)
      modifies this`pendingKittyPrintableCodepoint, this`events
      ensures events == old(events) + Emitted([sequence], old(pendingKittyPrintableCodepoint))
      ensures pendingKittyPrintableCodepoint == PendingAfter(sequence, old(pendingKittyPrintableCodepoint))
    {
      assert [sequence][1..] == [];
      var pending := pendingKittyPrintableCodepoint;
      if |sequence| == 1 && pending.Some? && sequence[0] as int == pending.value {
        pendingKittyPrintableCodepoint := None;
        return;
      }
      pendingKittyPrintableCodepoint := KittyPrintable(sequence);
      events := events + [Data(sequence)];
    }

    method EmitAll(sequences: seq<string>)
      modifies this`pendingKittyPrintableCodepoint, this`events
      ensures events == old(events) + Emitted(sequences, old(pendingKittyPrintableCodepoint))
      ensures pendingKittyPrintableCodepoint == PendingAfterAll(sequences, old(pendingKittyPrintableCodepoint))
    {
      ghost var pending := pendingKittyPrintableCodepoint;
      for i := 0 to |sequences|
        invariant events == old(events) + Emitted(sequences[..i], pending)
        invariant pendingKittyPrintableCodepoint == PendingAfterAll(sequences[..i], pending)
      {
        assert sequences[..i + 1] == sequences[..i] + [sequences[i]];
        EmittedConcat(sequences[..i], [sequences[i]], pending);
        assert [sequences[i]][1..] == [];
        EmitDataSequence(sequences[i]);
      }
      assert sequences[..|sequences|] == sequences;
    }

    /** Look for the end of the paste, and go on with what follows it. */
    method FinishPaste()
      requires pasteMode && buffer == ""
      modifies this
      ensures View() == Pasting(old(pasteBuffer), old(pendingKittyPrintableCodepoint)).state
      ensures events == old(events) + Pasting(old(pasteBuffer), old(pendingKittyPrintableCodepoint)).events
      decreases |pasteBuffer|, 0
    {
      var endIndex := Find(pasteBuffer, PASTE_END);
      if endIndex.Some? {
        var pastedContent := pasteBuffer[..endIndex.value];
        var remaining := pasteBuffer[endIndex.value + |PASTE_END|..];
        pasteMode := false;
        pasteBuffer := "";
        pendingKittyPrintableCodepoint := None;
        events := events + [Paste(pastedContent)];
        if |remaining| > 0 {
          Process(remaining);
        }
      }
    }

    method Process(str: string)
      modifies this
      ensures View() == Chunk(old(View()), str).state
      ensures events == old(events) + Chunk(old(View()), str).events
      decreases |buffer| + |pasteBuffer| + |str|, 2
    {
      if |str| == 0 && |buffer| == 0 {
        EmitDataSequence("");
        return;
      }
      buffer := buffer + str;
      if pasteMode {
        pasteBuffer := pasteBuffer + buffer;
        buffer := "";
        FinishPaste();
        return;
      }
      var startIndex := Find(buffer, PASTE_START);
      if startIndex.Some? {
        StartPaste(startIndex.value);
      } else {
        EmitTyped();
      }
    }

    method EmitTyped()
      requires !pasteMode
      modifies this
      ensures View() == Typed(old(buffer), old(pasteBuffer), old(pendingKittyPrintableCodepoint)).state
      ensures events == old(events) + Typed(old(buffer), old(pasteBuffer), old(pendingKittyPrintableCodepoint)).events
    {
      var sequences, remainder := ExtractCompleteSequences(buffer);
      buffer := remainder;
      EmitAll(sequences);
    }

    /** A paste starts at `startIndex`; sequences before it go out, an unfinished one is dropped. */
    method StartPaste(startIndex: nat)
      requires MatchAt(buffer, PASTE_START, startIndex)
      modifies this
      ensures var pasted := Pasting(old(buffer)[startIndex + MARKER_LENGTH..], None);
              && View() == pasted.state
              && events == old(events)
                 + (Emitted(Extract(old(buffer)[..startIndex]).sequences, old(pendingKittyPrintableCodepoint))
                    + pasted.events)
      decreases |buffer|, 1
    {
      if startIndex > 0 {
        var sequences, _ := ExtractCompleteSequences(buffer[..startIndex]);
        EmitAll(sequences);
      }
      pendingKittyPrintableCodepoint := None;
      buffer := buffer[startIndex + |PASTE_START|..];
      pasteMode := true;
      pasteBuffer := buffer;
      buffer := "";
      Associate(old(events), Emitted(Extract(old(buffer)[..startIndex]).sequences, old(pendingKittyPrintableCodepoint)),
                Pasting(pasteBuffer, None).events);
      FinishPaste();
    }

    method Flush() returns (sequences: seq<string>)
      modifies this
      ensures sequences == if old(buffer) == "" then [] else [old(buffer)]
      ensures buffer == "" && pasteMode == old(pasteMode) && pasteBuffer == old(pasteBuffer) && events == old(events)
      ensures pendingKittyPrintableCodepoint == if old(buffer) == "" then old(pendingKittyPrintableCodepoint) else None
    {
      if |buffer| == 0 {
        return [];
      }
      sequences := [buffer];
      buffer := "";
      pendingKittyPrintableCodepoint := None;
    }

    /** The flush timer fires. */
    method OnTimeout()
      modifies this
      ensures View() == TimedOut(old(View())).state
      ensures events == old(events) + TimedOut(old(View())).events
    {
      var flushed := Flush();
      EmitAll(flushed);
      assert old(buffer) != "" ==> flushed[1..] == [];
    }

    method Clear()
      modifies this
      ensures View() == State("", false, "", None) && events == old(events)
    {
      buffer, pasteMode, pasteBuffer, pendingKittyPrintableCodepoint := "", false, "", None;
    }
  }
}
