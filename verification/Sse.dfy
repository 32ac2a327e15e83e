/** The server-sent event decoder: lines out of chunks of decoded text, events out of lines. */
module Sse {
  import opened Common

  const CR := '\r'
  const LF := '\n'

  // ---- lines ----

  datatype Consumed = Consumed(line: string, rest: string)

  predicate IsBreak(c: char) { c == CR || c == LF }

  predicate NoBreaks(s: string) { forall k :: 0 <= k < |s| ==> !IsBreak(s[k]) }

  /** Index of the first CR or LF; |text| if there is none. */
  function NextLineBreak(text: string): (r: nat)
    ensures r <= |text| && NoBreaks(text[..r]) && (r < |text| ==> IsBreak(text[r]))
  {
    if text == "" || IsBreak(text[0]) then 0
    else
      var r := NextLineBreak(text[1..]);
      assert text[..1 + r] == [text[0]] + text[1..][..r];
      1 + r
  }

  /** The first line and what follows its CR, LF or CR LF. */
  function ConsumeLine(text: string): (r: Option<Consumed>)
    ensures r.Some? ==> |r.value.rest| < |text|
    ensures r.None? <==> NoBreaks(text)
  {
    var i := NextLineBreak(text);
    if i == |text| then
      assert text[..i] == text;
      None
    else
      var next := if text[i] == CR && i + 1 < |text| && text[i + 1] == LF then i + 2 else i + 1;
      Some(Consumed(text[..i], text[next..]))
  }

  datatype Split = Split(lines: seq<string>, rest: string)

  /** The finished lines of a text and the unfinished rest. */
  function LinesOf(text: string): Split
    decreases |text|
  {
    match ConsumeLine(text)
    case None => Split([], text)
    case Some(c) => var s := LinesOf(c.rest); Split([c.line] + s.lines, s.rest)
  }

  // ---- events ----

  datatype SseEvent = SseEvent(event: Option<string>, data: string, raw: seq<string>)

  datatype State = State(event: Option<string>, data: seq<string>, raw: seq<string>)

  const INITIAL := State(None, [], [])

  datatype Step = Step(state: State, yielded: seq<SseEvent>)

  function JoinData(data: seq<string>): string {
    if data == [] then ""
    else if |data| == 1 then data[0]
    else JoinData(data[..|data| - 1]) + [LF] + data[|data| - 1]
  }

  /** Whether a blank line dispatches an event. */
  predicate Pending(s: State) { (s.event.Some? && s.event.value != "") || s.data != [] }

  function Dispatched(s: State): SseEvent { SseEvent(s.event, JoinData(s.data), s.raw) }

  function Flush(s: State): Step {
    if Pending(s) then Step(INITIAL, [Dispatched(s)]) else Step(s, [])
  }

  function IndexOf(s: string, c: char): (r: nat)
    ensures r <= |s| && c !in s[..r] && (r < |s| ==> s[r] == c)
  {
    if s == "" || s[0] == c then 0
    else
      var r := IndexOf(s[1..], c);
      assert s[..1 + r] == [s[0]] + s[1..][..r];
      1 + r
  }

  function FieldName(line: string): string { line[..IndexOf(line, ':')] }

  function FieldValue(line: string): string {
    var i := IndexOf(line, ':');
    if i == |line| then ""
    else if i + 1 < |line| && line[i + 1] == ' ' then line[i + 2..]
    else line[i + 1..]
  }

  function DecodeLine(s: State, line: string): Step {
    if line == "" then Flush(s)
    else
      var t := s.(raw := s.raw + [line]);
      if line[0] == ':' then Step(t, [])
      else if FieldName(line) == "event" then Step(t.(event := Some(FieldValue(line))), [])
      else if FieldName(line) == "data" then Step(t.(data := t.data + [FieldValue(line)]), [])
      else Step(t, [])
  }

  function Decode(s: State, lines: seq<string>): Step
    decreases |lines|
  {
    if lines == [] then Step(s, [])
    else
      var one := DecodeLine(s, lines[0]);
      var rest := Decode(one.state, lines[1..]);
      Step(rest.state, one.yielded + rest.yielded)
  }

  /** End of the stream: an unfinished line counts, and a pending event is dispatched. */
  function End(s: State, rest: string): seq<SseEvent> {
    var last := if rest == "" then Step(s, []) else DecodeLine(s, rest);
    last.yielded + Flush(last.state).yielded
  }

  /** All events of a text that arrives at once. */
  function Whole(s: State, text: string): seq<SseEvent> {
    var split := LinesOf(text);
    var step := Decode(s, split.lines);
    step.yielded + End(step.state, split.rest)
  }

  /** All events of a text that arrives in chunks behind an unfinished line. */
  function Stream(s: State, buffer: string, chunks: seq<string>): seq<SseEvent>
    decreases |chunks|
  {
    if chunks == [] then End(s, buffer)
    else
      var split := LinesOf(buffer + chunks[0]);
      var step := Decode(s, split.lines);
      step.yielded + Stream(step.state, split.rest, chunks[1..])
  }

  // ---- the decoder ----

  class Decoder {
    var event: Option<string>
    var data: seq<string>
    var raw: seq<string>

    ghost function View(): State
      reads this
    {
      State(event, data, raw)
    }

    constructor ()
      ensures View() == INITIAL
    {
      event, data, raw := None, [], [];
    }

    method FlushSseEvent() returns (flushed: Option<SseEvent>)
      modifies this
      ensures Step(View(), if flushed.Some? then [flushed.value] else []) == Flush(old(View()))
    {
      if (event.None? || event.value == "") && |data| == 0 {
        return None;
      }
      flushed := Some(SseEvent(event, JoinData(data), raw));
      event, data, raw := None, [], [];
    }

    method DecodeSseLine(line: string) returns (yielded: Option<SseEvent>)
      modifies this
      ensures Step(View(), if yielded.Some? then [yielded.value] else []) == DecodeLine(old(View()), line)
    {
      if line == "" {
        yielded := FlushSseEvent();
        return;
      }
      raw := raw + [line];
      if line[0] == ':' {
        return None;
      }
      var delimiterIndex := IndexOf(line, ':');
      var fieldName, value := line[..delimiterIndex], if delimiterIndex == |line| then ""
                                                      else line[delimiterIndex + 1..];
      if value != "" && value[0] == ' ' {
        value := value[1..];
      }
      assert value == FieldValue(line) by {
        if delimiterIndex + 1 < |line| { assert line[delimiterIndex + 1..][1..] == line[delimiterIndex + 2..]; }
      }
      if fieldName == "event" {
        event := Some(value);
      } else if fieldName == "data" {
        data := data + [value];
      }
      return None;
    }

    /** Decode the finished lines in the buffer. */
    method DecodeBuffer(buffer: string) returns (rest: string, events: seq<SseEvent>)
      modifies this
      ensures rest == LinesOf(buffer).rest
      ensures Step(View(), events) == Decode(old(View()), LinesOf(buffer).lines)
    {
      rest, events := buffer, [];
      ghost var start, lines := View(), LinesOf(buffer).lines;
      ghost var done := 0;
      var consumed := ConsumeLine(rest);
      while consumed.Some?
        invariant consumed == ConsumeLine(rest)
        invariant done <= |lines| && LinesOf(rest) == Split(lines[done..], LinesOf(buffer).rest)
        invariant Step(View(), events) == Decode(start, lines[..done])
        decreases |rest|
      {
        rest := consumed.value.rest;
        DecodeAppend(start, lines[..done], consumed.value.line);
        assert lines[..done + 1] == lines[..done] + [consumed.value.line];
        var event := DecodeSseLine(consumed.value.line);
        if event.Some? {
          events := events + [event.value];
        }
        done := done + 1;
        consumed := ConsumeLine(rest);
      }
      assert lines[..done] == lines;
    }

    /** The unfinished line counts as a line, and a pending event goes out. */
    method FinishStream(rest: string) returns (events: seq<SseEvent>)
      modifies this
      ensures events == End(old(View()), rest)
    {
      events := [];
      if |rest| > 0 {
        var event := DecodeSseLine(rest);
        if event.Some? {
          events := events + [event.value];
        }
      }
      var trailingEvent := FlushSseEvent();
      if trailingEvent.Some? {
        events := events + [trailingEvent.value];
      }
    }
  }

  lemma {:induction false} DecodeConcat(s: State, a: seq<string>, b: seq<string>)
    ensures Decode(s, a + b) == var front := Decode(s, a); var back := Decode(front.state, b);
                                Step(back.state, front.yielded + back.yielded)
    decreases |a|
  {
    if a == [] {
      assert a + b == b;
    } else {
      assert (a + b)[1..] == a[1..] + b;
      DecodeConcat(DecodeLine(s, a[0]).state, a[1..], b);
    }
  }

  lemma DecodeAppend(s: State, lines: seq<string>, line: string)
    ensures Decode(s, lines + [line]) == var front := Decode(s, lines); var last := DecodeLine(front.state, line);
                                         Step(last.state, front.yielded + last.yielded)
  {
    DecodeConcat(s, lines, [line]);
    assert [line][1..] == [];
  }

  /** The events of a response body: its decoded chunks, then what the text decoder still held. */
  method IterateSseMessages(chunks: seq<string>, held: string) returns (events: seq<SseEvent>)
    ensures events == Stream(INITIAL, "", chunks + [held])
  {
    var state := new Decoder();
    var buffer := "";
    events := [];
    for i := 0 to |chunks|
      invariant fresh(state)
      invariant events + Stream(state.View(), buffer, chunks[i..] + [held]) == Stream(INITIAL, "", chunks + [held])
    {
      ghost var todo := chunks[i..] + [held];
      assert todo[0] == chunks[i] && todo[1..] == chunks[i + 1..] + [held];
      var rest, more := state.DecodeBuffer(buffer + chunks[i]);
      Associate(events, more, Stream(state.View(), rest, todo[1..]));
      buffer := rest;
      events := events + more;
    }
    assert chunks[|chunks|..] + [held] == [held] && [held][1..] == [];
    var rest, more := state.DecodeBuffer(buffer + held);
    Associate(events, more, End(state.View(), rest));
    events := events + more;
    var last := state.FinishStream(rest);
    events := events + last;
  }
}
