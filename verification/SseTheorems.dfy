/** What the event decoder promises: chunk boundaries do not matter, except between the CR and LF of a
    line end in one situation, and a printed event decodes to itself. */
module SseTheorems {
  import opened Common
  import opened Sse

  // ---- lines and chunks ----

  /** The cut falls between a CR and the LF that belongs to it. */
  predicate CutsLineEnd(a: string, b: string) { a != "" && a[|a| - 1] == CR && b != "" && b[0] == LF }

  lemma {:induction false} FirstBreak(text: string, i: nat)
    requires i <= |text| && NoBreaks(text[..i]) && (i < |text| ==> IsBreak(text[i]))
    ensures NextLineBreak(text) == i
  {
    if i > 0 {
      assert text[0] == text[..i][0];
      assert text[1..][..i - 1] == text[..i][1..];
      FirstBreak(text[1..], i - 1);
    }
  }

  /** More text does not change the first line, unless it brings the LF of its CR. */
  lemma ConsumeGrows(a: string, b: string)
    requires ConsumeLine(a).Some?
    ensures ConsumeLine(a + b).Some? && ConsumeLine(a + b).value.line == ConsumeLine(a).value.line
    ensures !(CutsLineEnd(a, b) && ConsumeLine(a).value.rest == "") ==>
              ConsumeLine(a + b).value.rest == ConsumeLine(a).value.rest + b
    ensures CutsLineEnd(a, b) && ConsumeLine(a).value.rest == "" ==> ConsumeLine(a + b).value.rest == b[1..]
  {
    var i := NextLineBreak(a);
    assert (a + b)[..i] == a[..i];
    FirstBreak(a + b, i);
    var next := if a[i] == CR && i + 1 < |a| && a[i + 1] == LF then i + 2 else i + 1;
    if CutsLineEnd(a, b) && a[next..] == "" {
      LineEndIsCut(a, b, i);
    } else {
      DropFront(a, b, next);
    }
  }

  lemma DropFront(a: string, b: string, n: nat)
    requires n <= |a|
    ensures (a + b)[n..] == a[n..] + b
  {
  }

  lemma LineEndIsCut(a: string, b: string, i: nat)
    requires CutsLineEnd(a, b) && i < |a| && IsBreak(a[i])
    requires (if a[i] == CR && i + 1 < |a| && a[i + 1] == LF then i + 2 else i + 1) == |a|
    ensures i + 1 == |a| && (a + b)[i] == CR && (a + b)[i + 1] == LF && (a + b)[i + 2..] == b[1..]
  {
  }

  /** The lines of a text read in two parts: the same, or with one empty line more where the cut falls
      between CR and LF. */
  lemma {:induction false} LinesInParts(a: string, b: string)
    ensures var first, once := LinesOf(a), LinesOf(a + b);
            if CutsLineEnd(a, b) then
              && first.rest == "" && var behind := LinesOf(b[1..]);
              once == Split(first.lines + behind.lines, behind.rest)
                  && LinesOf(b) == Split([""] + behind.lines, behind.rest)
            else
              var second := LinesOf(first.rest + b);
              once == Split(first.lines + second.lines, second.rest)
    decreases |a|
  {
    if CutsLineEnd(a, b) { LoneLf(b); }
    var c := ConsumeLine(a);
    if c.None? {
      NoLineEnd(a, b);
      assert [] + LinesOf(a + b).lines == LinesOf(a + b).lines;
    } else {
      ConsumeGrows(a, b);
      LinesInParts(c.value.rest, b);
      RestEnds(a);
      if CutsLineEnd(a, b) {
        Associate([c.value.line], LinesOf(c.value.rest).lines, LinesOf(b[1..]).lines);
      } else {
        var first := LinesOf(c.value.rest);
        Associate([c.value.line], first.lines, LinesOf(first.rest + b).lines);
      }
    }
  }

  lemma NoLineEnd(a: string, b: string)
    requires ConsumeLine(a).None?
    ensures !CutsLineEnd(a, b)
  {
    if a != "" { assert !IsBreak(a[|a| - 1]); }
  }

  lemma LoneLf(b: string)
    requires b != "" && b[0] == LF
    ensures LinesOf(b) == Split([""] + LinesOf(b[1..]).lines, LinesOf(b[1..]).rest)
  {
    assert b[..0] == "";
    FirstBreak(b, 0);
  }

  /** What follows the first line ends as the text does. */
  lemma RestEnds(a: string)
    requires ConsumeLine(a).Some?
    ensures var rest := ConsumeLine(a).value.rest; rest != "" ==> rest[|rest| - 1] == a[|a| - 1]
    ensures ConsumeLine(a).value.rest == "" ==> LinesOf(a) == Split([ConsumeLine(a).value.line], "")
  {
  }

  /** The extra empty line dispatches early, and what comes next is not a line end that would have
      dispatched anyway. */
  predicate DispatchesEarly(s: State, a: string, b: string) {
    CutsLineEnd(a, b) && Pending(Decode(s, LinesOf(a).lines).state) && |b| > 1 && !IsBreak(b[1])
  }

  ghost predicate CleanCuts(s: State, buffer: string, chunks: seq<string>)
    decreases |chunks|
  {
    |chunks| <= 1 ||
    var a, rest := buffer + chunks[0], chunks[1..];
    && !DispatchesEarly(s, a, Concat(rest))
    && CleanCuts(Decode(s, LinesOf(a).lines).state, LinesOf(a).rest, rest)
  }

  // ---- a pending event and what is added to it ----

  /** The next event, if any, carries these raw lines first. */
  predicate NextCarries(events: seq<SseEvent>, raw: seq<string>) { events != [] ==> raw <= events[0].raw }

  lemma {:induction false} RawCarries(s: State, lines: seq<string>, rest: string, raw: seq<string>)
    requires raw <= s.raw
    ensures NextCarries(Decode(s, lines).yielded + End(Decode(s, lines).state, rest), raw)
    decreases |lines|
  {
    if lines == [] {
      EndCarries(s, rest, raw);
    } else {
      var one := DecodeLine(s, lines[0]);
      if one.yielded == [] {
        RawCarries(one.state, lines[1..], rest, raw);
        var back := Decode(one.state, lines[1..]);
        assert [] + back.yielded == back.yielded;
      } else {
        assert one.yielded[0].raw == s.raw;
      }
    }
  }

  lemma EndCarries(s: State, rest: string, raw: seq<string>)
    requires raw <= s.raw
    ensures NextCarries(End(s, rest), raw)
  {
  }

  /** With more text that does not start with a line end, the next event carries one raw line more. */
  lemma NextLineIsCarried(s: State, text: string)
    requires text != "" && !IsBreak(text[0])
    ensures exists line :: NextCarries(Whole(s, text), s.raw + [line])
  {
    var split := LinesOf(text);
    if split.lines == [] {
      EndCarries(DecodeLine(s, text).state, "", s.raw + [text]);
      assert NextCarries(Whole(s, text), s.raw + [text]);
    } else {
      var line := split.lines[0];
      assert line != "" by { if NextLineBreak(text) == 0 { assert false; } }
      var t := DecodeLine(s, line);
      assert t.state.raw == s.raw + [line] && t.yielded == [];
      RawCarries(t.state, split.lines[1..], split.rest, s.raw + [line]);
      var back := Decode(t.state, split.lines[1..]);
      assert [] + back.yielded == back.yielded;
      assert NextCarries(Whole(s, text), s.raw + [line]);
    }
  }

  lemma OneMoreLine(raw: seq<string>, line: string)
    ensures !(raw + [line] <= raw)
  {
  }

  /** An empty line before a text leaves the events as they are, exactly when nothing is pending or the
      text is empty or starts with a line end. */
  lemma BlankLineMatters(s: State, text: string)
    ensures Flush(s).yielded + Whole(Flush(s).state, text) == Whole(s, text)
       <==> !(Pending(s) && text != "" && !IsBreak(text[0]))
  {
    var w := Whole(s, text);
    if !Pending(s) {
      assert [] + w == w;
    } else if text == "" {
      BlankBeforeNothing(s);
    } else if IsBreak(text[0]) {
      BlankBeforeBlank(s, text);
    } else {
      BlankBeforeLine(s, text);
    }
  }

  lemma BlankBeforeNothing(s: State)
    requires Pending(s)
    ensures [Dispatched(s)] + Whole(INITIAL, "") == Whole(s, "")
  {
    assert LinesOf("") == Split([], "");
    assert Decode(s, []) == Step(s, []) && Decode(INITIAL, []) == Step(INITIAL, []);
  }

  lemma BlankBeforeBlank(s: State, text: string)
    requires Pending(s) && text != "" && IsBreak(text[0])
    ensures [Dispatched(s)] + Whole(INITIAL, text) == Whole(s, text)
  {
    assert text[..0] == "";
    FirstBreak(text, 0);
    var behind := LinesOf(ConsumeLine(text).value.rest);
    assert LinesOf(text).lines == [""] + behind.lines && LinesOf(text).rest == behind.rest;
    assert ([""] + behind.lines)[1..] == behind.lines;
    var t := Decode(INITIAL, behind.lines);
    Associate([Dispatched(s)], t.yielded, End(t.state, behind.rest));
    assert [] + t.yielded == t.yielded;
  }

  lemma BlankBeforeLine(s: State, text: string)
    requires Pending(s) && text != "" && !IsBreak(text[0])
    ensures [Dispatched(s)] + Whole(INITIAL, text) != Whole(s, text)
  {
    var w := Whole(s, text);
    NextLineIsCarried(s, text);
    var line :| NextCarries(w, s.raw + [line]);
    OneMoreLine(s.raw, line);
    assert Dispatched(s).raw == s.raw;
  }

  // ---- whole texts in chunks ----

  lemma WholeInParts(s: State, a: string, b: string)
    ensures var first := LinesOf(a); var step := Decode(s, first.lines);
            step.yielded + Whole(step.state, first.rest + b) == Whole(s, a + b) <==> !DispatchesEarly(s, a, b)
  {
    var first := LinesOf(a);
    var step := Decode(s, first.lines);
    LinesInParts(a, b);
    if CutsLineEnd(a, b) {
      var behind, flush := LinesOf(b[1..]), Flush(step.state);
      WholeBehind(s, first.lines, b[1..]);
      assert "" + b == b;
      assert ([""] + behind.lines)[1..] == behind.lines;
      var back := Decode(flush.state, behind.lines);
      Associate(flush.yielded, back.yielded, End(back.state, behind.rest));
      BlankLineMatters(step.state, b[1..]);
      Cancel(step.yielded, flush.yielded + Whole(flush.state, b[1..]), Whole(step.state, b[1..]));
    } else {
      WholeBehind(s, first.lines, first.rest + b);
    }
  }

  lemma WholeBehind(s: State, lines: seq<string>, text: string)
    ensures var step, split := Decode(s, lines), LinesOf(text);
            var all := Decode(s, lines + split.lines);
            all.yielded + End(all.state, split.rest) == step.yielded + Whole(step.state, text)
  {
    var step, split := Decode(s, lines), LinesOf(text);
    DecodeConcat(s, lines, split.lines);
    var back := Decode(step.state, split.lines);
    Associate(step.yielded, back.yielded, End(back.state, split.rest));
  }

  // The cut that dispatches early shows in the events whatever the later cuts do.
  lemma {:induction false} StreamStarts(s: State, buffer: string, chunks: seq<string>)
    requires Concat(chunks) != "" && Concat(chunks)[0] == LF && buffer == "" && Pending(s)
    ensures Stream(s, buffer, chunks) != [] && Stream(s, buffer, chunks)[0] == Dispatched(s)
    decreases |chunks|
  {
    var c := chunks[0];
    assert "" + c == c;
    if c == "" {
      assert LinesOf("") == Split([], "");
      assert Concat(chunks) == Concat(chunks[1..]);
      StreamStarts(s, "", chunks[1..]);
      var rest := Stream(s, "", chunks[1..]);
      assert [] + rest == rest;
    } else {
      assert c[0] == LF;
      LoneLf(c);
      var lines := LinesOf(c).lines;
      assert lines[0] == "";
    }
  }

  lemma EarlyShows(s: State, a: string, chunks: seq<string>)
    requires DispatchesEarly(s, a, Concat(chunks))
    ensures var step := Decode(s, LinesOf(a).lines);
            step.yielded + Stream(step.state, LinesOf(a).rest, chunks) != Whole(s, a + Concat(chunks))
  {
    var b := Concat(chunks);
    var first, behind := LinesOf(a), LinesOf(b[1..]);
    var step := Decode(s, first.lines);
    LinesInParts(a, b);
    WholeBehind(s, first.lines, b[1..]);
    StreamStarts(step.state, "", chunks);
    var w := Whole(step.state, b[1..]);
    NextLineIsCarried(step.state, b[1..]);
    var line :| NextCarries(w, step.state.raw + [line]);
    OneMoreLine(step.state.raw, line);
    Cancel(step.yielded, Stream(step.state, "", chunks), w);
  }

  /** Cutting a body into chunks gives the events of the uncut body exactly when no cut makes a CR
      dispatch a pending event before the LF that belongs to it, with more than a line end behind. */
  lemma {:induction false} CutsDoNotMatterExactlyWhen(s: State, buffer: string, chunks: seq<string>)
    requires chunks != []
    ensures Stream(s, buffer, chunks) == Whole(s, buffer + Concat(chunks)) <==> CleanCuts(s, buffer, chunks)
    decreases |chunks|
  {
    var a, rest := buffer + chunks[0], chunks[1..];
    var split := LinesOf(a);
    var step := Decode(s, split.lines);
    if rest == [] {
      assert Concat(chunks) == chunks[0] + "" == chunks[0];
    } else {
      Associate(buffer, chunks[0], Concat(rest));
      CutsDoNotMatterExactlyWhen(step.state, split.rest, rest);
      WholeInParts(s, a, Concat(rest));
      if DispatchesEarly(s, a, Concat(rest)) {
        EarlyShows(s, a, rest);
      } else {
        Cancel(step.yielded, Stream(step.state, split.rest, rest), Whole(step.state, split.rest + Concat(rest)));
      }
    }
  }

  /** Input whose line ends are never cut is safe. */
  ghost predicate KeepsLineEnds(buffer: string, chunks: seq<string>)
    decreases |chunks|
  {
    |chunks| <= 1 ||
    (!CutsLineEnd(buffer + chunks[0], Concat(chunks[1..]))
     && KeepsLineEnds(LinesOf(buffer + chunks[0]).rest, chunks[1..]))
  }

  lemma {:induction false} KeptLineEndsAreClean(s: State, buffer: string, chunks: seq<string>)
    requires KeepsLineEnds(buffer, chunks)
    ensures CleanCuts(s, buffer, chunks)
    decreases |chunks|
  {
    if |chunks| > 1 {
      var split := LinesOf(buffer + chunks[0]);
      KeptLineEndsAreClean(Decode(s, split.lines).state, split.rest, chunks[1..]);
    }
  }

  // ---- printed events ----

  /** The space behind the colon of a field is optional. */
  datatype Printed = Printed(event: Option<string>, data: seq<string>, spaced: bool)

  /** A value that one line can hold; without the optional space it must not start with one. */
  predicate Fits(value: string, spaced: bool) {
    NoBreaks(value) && (spaced || value == "" || value[0] != ' ')
  }

  /** Names and data lines that one line can hold; something to dispatch. */
  predicate Printable(p: Printed) {
    && (p.event.Some? ==> p.event.value != "" && Fits(p.event.value, p.spaced))
    && (forall d <- p.data :: Fits(d, p.spaced))
    && (p.event.Some? || p.data != [])
  }

  function Field(name: string, value: string, spaced: bool): string {
    name + (if spaced then ": " else ":") + value
  }

  function DataLines(data: seq<string>, spaced: bool): (r: seq<string>)
    ensures |r| == |data|
  {
    if data == [] then []
    else DataLines(data[..|data| - 1], spaced) + [Field("data", data[|data| - 1], spaced)]
  }

  function FieldLines(p: Printed): seq<string> {
    (if p.event.Some? then [Field("event", p.event.value, p.spaced)] else []) + DataLines(p.data, p.spaced)
  }

  predicate LineEnd(end: string) { end == [CR] || end == [LF] || end == [CR, LF] }

  function Ended(lines: seq<string>, end: string): string {
    if lines == [] then "" else lines[0] + end + Ended(lines[1..], end)
  }

  /** Field lines, then a blank line. */
  function Print(p: Printed, end: string): string { Ended(FieldLines(p) + [""], end) }

  function PrintAll(ps: seq<Printed>, end: string): string {
    if ps == [] then "" else Print(ps[0], end) + PrintAll(ps[1..], end)
  }

  function Read(p: Printed): SseEvent { SseEvent(p.event, JoinData(p.data), FieldLines(p)) }

  function ReadAll(ps: seq<Printed>): (r: seq<SseEvent>)
    ensures |r| == |ps|
  {
    if ps == [] then [] else [Read(ps[0])] + ReadAll(ps[1..])
  }

  lemma OneEndedLine(line: string, end: string, more: string)
    requires NoBreaks(line) && LineEnd(end) && (end == [CR] ==> (more == "" || more[0] != LF))
    ensures LinesOf(line + end + more) == Split([line] + LinesOf(more).lines, LinesOf(more).rest)
  {
    var text := line + end + more;
    assert text[..|line|] == line && text[|line|] == end[0];
    FirstBreak(text, |line|);
    assert text[|line| + |end|..] == more;
    if |end| == 1 && |line| + 1 < |text| { assert text[|line| + 1] == more[0]; }
    if |end| == 2 { assert text[|line| + 1] == LF; }
  }

  lemma EndedStart(lines: seq<string>, end: string)
    requires (forall line <- lines :: NoBreaks(line)) && end == [CR]
    ensures Ended(lines, end) == "" || Ended(lines, end)[0] != LF
  {
    if lines != [] {
      assert NoBreaks(lines[0]);
    }
  }

  lemma {:induction false} EndedLines(lines: seq<string>, end: string)
    requires (forall line <- lines :: NoBreaks(line)) && LineEnd(end)
    ensures LinesOf(Ended(lines, end)) == Split(lines, "")
  {
    if lines != [] {
      EndedLines(lines[1..], end);
      if end == [CR] { EndedStart(lines[1..], end); }
      OneEndedLine(lines[0], end, Ended(lines[1..], end));
    }
  }

  lemma {:induction false} EndedConcat(a: seq<string>, b: seq<string>, end: string)
    ensures Ended(a + b, end) == Ended(a, end) + Ended(b, end)
  {
    if a == [] {
      assert a + b == b;
    } else {
      assert (a + b)[1..] == a[1..] + b;
      EndedConcat(a[1..], b, end);
      Associate(a[0] + end, Ended(a[1..], end), Ended(b, end));
    }
  }

  function AllLines(ps: seq<Printed>): seq<string> {
    if ps == [] then [] else FieldLines(ps[0]) + [""] + AllLines(ps[1..])
  }

  lemma {:induction false} PrintAllLines(ps: seq<Printed>, end: string)
    ensures PrintAll(ps, end) == Ended(AllLines(ps), end)
  {
    if ps != [] {
      PrintAllLines(ps[1..], end);
      EndedConcat(FieldLines(ps[0]) + [""], AllLines(ps[1..]), end);
    }
  }

  lemma {:induction false} FirstColon(line: string, i: nat)
    requires i < |line| && line[i] == ':' && ':' !in line[..i]
    ensures IndexOf(line, ':') == i
  {
    if i > 0 {
      assert line[0] == line[..i][0];
      assert line[1..][..i - 1] == line[..i][1..];
      FirstColon(line[1..], i - 1);
    }
  }

  function WithField(s: State, name: string, value: string, line: string): State {
    var t := s.(raw := s.raw + [line]);
    if name == "event" then t.(event := Some(value)) else t.(data := t.data + [value])
  }

  /** A field with or without the optional space. */
  lemma FieldLine(s: State, name: string, value: string, spaced: bool)
    requires (name == "event" || name == "data") && Fits(value, spaced)
    ensures DecodeLine(s, Field(name, value, spaced)) == Step(WithField(s, name, value, Field(name, value, spaced)), [])
  {
    var line, skip := Field(name, value, spaced), if spaced then 2 else 1;
    assert line[|name|] == ':' && line[..|name|] == name && line[|name| + skip..] == value;
    assert spaced ==> line[|name| + 1] == ' ';
    assert !spaced && value != "" ==> line[|name| + 1] == value[0];
    assert ':' !in name;
    FirstColon(line, |name|);
    assert "data" != "event" by { assert |"data"| != |"event"|; }
  }

  /** A comment, or a line of another field, changes only what is recorded of the raw lines. */
  lemma OtherLines(s: State, line: string)
    requires line != "" && (line[0] == ':' || FieldName(line) !in {"event", "data"})
    ensures DecodeLine(s, line) == Step(s.(raw := s.raw + [line]), [])
  {
  }

  /** A field name alone has the empty value. */
  lemma BareField(s: State, name: string)
    requires name == "event" || name == "data"
    ensures DecodeLine(s, name) == Step(WithField(s, name, "", name), [])
  {
    assert ':' !in name;
    NoColon(name);
    assert name[..|name|] == name;
    assert "data" != "event" by { assert |"data"| != |"event"|; }
  }

  lemma {:induction false} NoColon(s: string)
    requires ':' !in s
    ensures IndexOf(s, ':') == |s|
  {
    if s != "" {
      NoColon(s[1..]);
    }
  }

  /** Data lines are joined by line feeds. */
  lemma {:induction false} DataIsJoined(a: seq<string>, b: seq<string>)
    requires a != [] && b != []
    ensures JoinData(a + b) == JoinData(a) + [LF] + JoinData(b)
    ensures JoinData(a[..1]) == a[0]
    decreases |b|
  {
    var n := |b| - 1;
    assert (a + b)[..|a + b| - 1] == a + b[..n];
    if n == 0 {
      assert a + b[..0] == a;
    } else {
      DataIsJoined(a, b[..n]);
      Associate(JoinData(a) + [LF], JoinData(b[..n]), [LF]);
      Associate(JoinData(a) + [LF], JoinData(b[..n]) + [LF], b[n]);
    }
  }

  lemma {:induction false} DecodeDataLines(s: State, data: seq<string>, spaced: bool)
    requires forall d <- data :: Fits(d, spaced)
    ensures Decode(s, DataLines(data, spaced))
         == Step(s.(data := s.data + data, raw := s.raw + DataLines(data, spaced)), [])
    decreases |data|
  {
    if data == [] {
      assert s.data + data == s.data;
      assert s.raw + DataLines(data, spaced) == s.raw;
    } else {
      var front, last := data[..|data| - 1], data[|data| - 1];
      DecodeDataLines(s, front, spaced);
      assert Fits(last, spaced);
      DecodeOneMore(s, front, last, spaced);
      assert front + [last] == data;
    }
  }

  lemma DecodeOneMore(s: State, front: seq<string>, last: string, spaced: bool)
    requires Fits(last, spaced)
    requires Decode(s, DataLines(front, spaced))
          == Step(s.(data := s.data + front, raw := s.raw + DataLines(front, spaced)), [])
    ensures Decode(s, DataLines(front + [last], spaced))
         == Step(s.(data := s.data + (front + [last]), raw := s.raw + DataLines(front + [last], spaced)), [])
  {
    var line := Field("data", last, spaced);
    assert (front + [last])[..|front|] == front;
    DecodeAppend(s, DataLines(front, spaced), line);
    assert "data" != "event" by { assert |"data"| != |"event"|; }
    FieldLine(s.(data := s.data + front, raw := s.raw + DataLines(front, spaced)), "data", last, spaced);
    Associate(s.data, front, [last]);
    Associate(s.raw, DataLines(front, spaced), [line]);
  }

  lemma DecodeFieldLines(p: Printed)
    requires Printable(p)
    ensures Decode(INITIAL, FieldLines(p)) == Step(State(p.event, p.data, FieldLines(p)), [])
  {
    var s := INITIAL;
    if p.event.Some? {
      var line := Field("event", p.event.value, p.spaced);
      FieldLine(INITIAL, "event", p.event.value, p.spaced);
      s := State(p.event, [], [line]);
      DecodeConcat(INITIAL, [line], DataLines(p.data, p.spaced));
      assert [line][1..] == [] && [] + [line] == [line];
      assert Decode(INITIAL, [line]) == Step(s, []);
    } else {
      assert [] + DataLines(p.data, p.spaced) == DataLines(p.data, p.spaced);
    }
    DecodeDataLines(s, p.data, p.spaced);
    assert [] + p.data == p.data;
    assert s.raw + DataLines(p.data, p.spaced) == FieldLines(p);
  }

  lemma {:induction false} DecodeAllLines(ps: seq<Printed>)
    requires forall p <- ps :: Printable(p)
    ensures Decode(INITIAL, AllLines(ps)) == Step(INITIAL, ReadAll(ps))
  {
    if ps != [] {
      var p := ps[0];
      assert Printable(p);
      DecodeFieldLines(p);
      DecodeAppend(INITIAL, FieldLines(p), "");
      DecodeConcat(INITIAL, FieldLines(p) + [""], AllLines(ps[1..]));
      DecodeAllLines(ps[1..]);
      assert [] + [Read(p)] == [Read(p)];
    }
  }

  lemma FieldFits(name: string, value: string, spaced: bool)
    requires NoBreaks(name) && NoBreaks(value)
    ensures NoBreaks(Field(name, value, spaced))
  {
    var colon := if spaced then ": " else ":";
    assert NoBreaks(colon);
    NoBreaksConcat(name, colon);
    NoBreaksConcat(name + colon, value);
  }

  lemma {:induction false} DataLinesFit(data: seq<string>, spaced: bool)
    requires forall d <- data :: Fits(d, spaced)
    ensures forall line <- DataLines(data, spaced) :: NoBreaks(line)
    decreases |data|
  {
    if data != [] {
      var n := |data| - 1;
      DataLinesFit(data[..n], spaced);
      assert NoBreaks("data") && Fits(data[n], spaced);
      FieldFits("data", data[n], spaced);
    }
  }

  lemma NoBreaksConcat(a: string, b: string)
    requires NoBreaks(a) && NoBreaks(b)
    ensures NoBreaks(a + b)
  {
  }

  lemma {:induction false} AllLinesFit(ps: seq<Printed>)
    requires forall p <- ps :: Printable(p)
    ensures forall line <- AllLines(ps) :: NoBreaks(line)
  {
    if ps != [] {
      assert Printable(ps[0]);
      FieldLinesFit(ps[0]);
      AllLinesFit(ps[1..]);
    }
  }

  lemma FieldLinesFit(p: Printed)
    requires Printable(p)
    ensures forall line <- FieldLines(p) :: NoBreaks(line)
  {
    DataLinesFit(p.data, p.spaced);
    if p.event.Some? {
      assert NoBreaks("event");
      FieldFits("event", p.event.value, p.spaced);
    }
  }

  /** Decoding printed events gives back their names and data lines, for every kind of line end and with or without
      the optional space behind the colon. */
  lemma PrintedEventsDecode(ps: seq<Printed>, end: string)
    requires (forall p <- ps :: Printable(p)) && LineEnd(end)
    ensures Whole(INITIAL, PrintAll(ps, end)) == ReadAll(ps)
  {
    PrintAllLines(ps, end);
    AllLinesFit(ps);
    EndedLines(AllLines(ps), end);
    DecodeAllLines(ps);
    assert ReadAll(ps) + [] == ReadAll(ps);
  }

  /** An event that the stream leaves without its blank line is dispatched all the same. */
  lemma UnterminatedEventDecodes(p: Printed, end: string)
    requires Printable(p) && LineEnd(end)
    ensures Whole(INITIAL, Ended(FieldLines(p), end)) == [Read(p)]
  {
    var t := State(p.event, p.data, FieldLines(p));
    assert Pending(t) && End(t, "") == [] + [Read(p)];
    FieldLinesFit(p);
    EndedLines(FieldLines(p), end);
    DecodeFieldLines(p);
    assert [] + [Read(p)] == [Read(p)];
  }

  lemma TwoChunks(a: string, b: string)
    ensures Concat([a, b]) == a + b && Concat([b]) == b && [a, b][1..] == [b] && [b][1..] == []
  {
    assert [a, b][1..] == [b] && [b][1..] == [];
    assert Concat([b]) == b + Concat([]) == b;
  }

  lemma FirstDataLine(x: string)
    requires NoBreaks(x)
    ensures DecodeLine(INITIAL, "data: " + x) == Step(State(None, [x], ["data: " + x]), [])
  {
    var line := "data: " + x;
    assert line == Field("data", x, true);
    assert "data" != "event" by { assert |"data"| != |"event"|; }
    FieldLine(INITIAL, "data", x, true);
    assert [] + [line] == [line] && [] + [x] == [x];
  }

  lemma PendingBehindCr(x: string)
    requires NoBreaks(x)
    ensures Pending(Decode(INITIAL, LinesOf("data: " + x + [CR]).lines).state)
  {
    var line := "data: " + x;
    OneEndedLine(line, [CR], "");
    assert line + [CR] + "" == line + [CR];
    assert LinesOf("") == Split([], "") && [line] + [] == [line];
    FirstDataLine(x);
    assert [line][1..] == [];
  }

  /** A cut between CR and LF dispatches the event at the CR; uncut, the two data lines are one event. */
  lemma CrLfCutMatters(x: string, y: string)
    requires NoBreaks(x)
    ensures var chunks := ["data: " + x + [CR], [LF] + "data: " + y + [LF, LF]];
            !CleanCuts(INITIAL, "", chunks) && Stream(INITIAL, "", chunks) != Whole(INITIAL, Concat(chunks))
  {
    var line, b := "data: " + x, [LF] + "data: " + y + [LF, LF];
    var chunks := [line + [CR], b];
    TwoChunks(line + [CR], b);
    PendingBehindCr(x);
    assert "" + chunks[0] == chunks[0];
    assert b[1] == 'd';
    CutsDoNotMatterExactlyWhen(INITIAL, "", chunks);
    assert "" + Concat(chunks) == Concat(chunks);
  }
}
