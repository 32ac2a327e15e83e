/** What the input buffer promises about chunks: how input is cut does not matter, except at one spot,
    and a paste comes out whole for every cut. */
module StdinTheorems {
  import opened Common
  import opened StdinBuffer
  import opened StdinEvents

  predicate AllNonEmpty(chunks: seq<string>) { forall k :: 0 <= k < |chunks| ==> chunks[k] != "" }

  predicate NoMarker(s: string) { forall i :: 0 <= i <= |s| ==> !MatchAt(s, PASTE_START, i) }

  predicate PendingPrintable(pending: Option<int>) { pending.Some? ==> pending.value >= 32 }

  // ---- how input is cut ----

  /** No cut between chunks falls behind an ESC ESC taken as one sequence and before what would start
      an escape sequence. */
  ghost predicate CleanCuts(buffer: string, chunks: seq<string>)
    decreases |chunks|
  {
    |chunks| <= 1 ||
    var first, rest := buffer + chunks[0], chunks[1..];
    !SplitsAnEscape(first, Concat(rest)) && CleanCuts(Extract(first).remainder, rest)
  }

  lemma MarkerInPart(a: string, b: string, c: string, i: nat)
    requires MatchAt(b, PASTE_START, i)
    ensures MatchAt(a + b + c, PASTE_START, |a| + i)
  {
    var n := |PASTE_START|;
    assert (a + b + c)[|a| + i..|a| + i + n] == b[i..i + n];
  }

  lemma PartsHaveNoMarker(a: string, b: string, c: string)
    requires NoMarker(a + b + c)
    ensures NoMarker(b)
  {
    if i :| 0 <= i <= |b| && MatchAt(b, PASTE_START, i) {
      MarkerInPart(a, b, c, i);
      assert false;
    }
  }

  lemma ChunkWithoutMarker(s: State, str: string)
    requires !s.pasteMode && str != "" && NoMarker(s.buffer + str)
    ensures Chunk(s, str) == Typed(s.buffer + str, s.pasteBuffer, s.pending)
  {
  }

  lemma {:induction false} PendingStaysPrintable(sequences: seq<string>, pending: Option<int>)
    requires PendingPrintable(pending)
    ensures PendingPrintable(PendingAfterAll(sequences, pending))
  {
    if sequences != [] { PendingStaysPrintable(sequences[1..], PendingAfter(sequences[0], pending)); }
  }

  /** A clean cut: two steps give what one step gives. */
  lemma TypedTwice(a: string, b: string, pasteBuffer: string, pending: Option<int>)
    requires !SplitsAnEscape(a, b)
    ensures var first := Typed(a, pasteBuffer, pending);
            Then(first.events, Typed(first.state.buffer + b, pasteBuffer, first.state.pending))
                == Typed(a + b, pasteBuffer, pending)
  {
    ExtractInChunks(a, b);
    var e := Extract(a);
    EmittedConcat(e.sequences, Extract(e.remainder + b).sequences, pending);
  }

  /** An escape is not a duplicate: it goes out. */
  lemma EscapeGoesOut(x: string, rest: seq<string>, pending: Option<int>)
    requires PendingPrintable(pending) && (x == [ESC] || x == ESC_ESC)
    ensures Emitted([x] + rest, pending) != [] && Emitted([x] + rest, pending)[0] == Data(x)
  {
    assert ([x] + rest)[0] == x;
  }

  /** A cut that splits an escape shows: the event in that place differs. */
  lemma SplitShows(a: string, b: string, pasteBuffer: string, pending: Option<int>)
    requires SplitsAnEscape(a, b) && PendingPrintable(pending)
    ensures var first, once := Typed(a, pasteBuffer, pending).events, Typed(a + b, pasteBuffer, pending).events;
            exists k :: 0 <= k < |first| && k < |once| && first[k] != once[k]
  {
    ExtractInChunks(a, b);
    var xs, ys := Extract(a).sequences, Extract(a + b).sequences;
    var k := |xs| - 1;
    var front := xs[..k];
    assert xs == front + ([ESC_ESC] + []) && ys == front + ([[ESC]] + ys[k + 1..]);
    EmittedConcat(front, [ESC_ESC] + [], pending);
    EmittedConcat(front, [[ESC]] + ys[k + 1..], pending);
    PendingStaysPrintable(front, pending);
    EscapeGoesOut(ESC_ESC, [], PendingAfterAll(front, pending));
    EscapeGoesOut([ESC], ys[k + 1..], PendingAfterAll(front, pending));
    var n := |Emitted(front, pending)|;
    assert Typed(a, pasteBuffer, pending).events[n] == Data(ESC_ESC);
    assert Typed(a + b, pasteBuffer, pending).events[n] == Data([ESC]);
  }

  lemma OneChunk(s: State, chunks: seq<string>)
    requires |chunks| == 1
    ensures Chunks(s, chunks) == Chunk(s, chunks[0]) && Concat(chunks) == chunks[0]
  {
    assert chunks[1..] == [];
    var o := Chunk(s, chunks[0]);
    assert o.events + [] == o.events;
    assert chunks[0] + "" == chunks[0];
  }

  /** For typed input, cutting it into chunks gives the events of the uncut input exactly when no cut
      splits an escape; then the state behind is the same as well. */
  lemma {:induction false} CutsDoNotMatterExactlyWhen(s: State, chunks: seq<string>)
    requires chunks != [] && AllNonEmpty(chunks) && !s.pasteMode && PendingPrintable(s.pending)
    requires NoMarker(s.buffer + Concat(chunks))
    ensures Chunks(s, chunks).events == Chunk(s, Concat(chunks)).events <==> CleanCuts(s.buffer, chunks)
    ensures CleanCuts(s.buffer, chunks) ==> Chunks(s, chunks) == Chunk(s, Concat(chunks))
    decreases |chunks|
  {
    if |chunks| == 1 {
      OneChunk(s, chunks);
    } else {
      var c, rest := chunks[0], chunks[1..];
      var a, b := s.buffer + c, Concat(rest);
      assert rest[0] != "" by { assert chunks[1] != ""; }
      Associate(s.buffer, c, b);
      FirstChunk(s, c, b);
      var o := Chunk(s, c);
      CutsDoNotMatterExactlyWhen(o.state, rest);
      if SplitsAnEscape(a, b) {
        SplitShows(a, b, s.pasteBuffer, s.pending);
      } else {
        TypedTwice(a, b, s.pasteBuffer, s.pending);
        Cancel(o.events, Chunks(o.state, rest).events, Chunk(o.state, b).events);
      }
    }
  }

  /** The first chunk of typed input and the uncut input are both read as typed. */
  lemma FirstChunk(s: State, c: string, b: string)
    requires !s.pasteMode && c != "" && b != "" && PendingPrintable(s.pending) && NoMarker(s.buffer + c + b)
    ensures Chunk(s, c) == Typed(s.buffer + c, s.pasteBuffer, s.pending)
    ensures Chunk(s, c + b) == Typed(s.buffer + c + b, s.pasteBuffer, s.pending)
    ensures var o := Chunk(s, c).state;
            && NoMarker(o.buffer + b) && PendingPrintable(o.pending) && !o.pasteMode
            && Chunk(o, b) == Typed(o.buffer + b, s.pasteBuffer, o.pending)
  {
    var a := s.buffer + c;
    var e := Extract(a);
    assert [] + a + b == a + b;
    PartsHaveNoMarker("", a, b);
    ChunkWithoutMarker(s, c);
    Associate(s.buffer, c, b);
    ChunkWithoutMarker(s, c + b);
    ExtractConserves(a);
    Associate(Concat(e.sequences), e.remainder, b);
    assert Concat(e.sequences) + (e.remainder + b) + "" == a + b;
    PartsHaveNoMarker(Concat(e.sequences), e.remainder + b, "");
    PendingStaysPrintable(e.sequences, s.pending);
    ChunkWithoutMarker(Chunk(s, c).state, b);
  }

  // ---- pastes ----

  /** The start of a paste marker is unfinished input. */
  lemma MarkerStartIsUnfinished(p: string)
    requires p < PASTE_START && p != ""
    ensures Extract(p) == Extracted([], p) && NoMarker(p)
  {
    forall k | 1 <= k <= |p| ensures IsCompleteSequence(p[..k]) == Incomplete {
      assert p[..k] == PASTE_START[..k];
      MarkerPrefix(k);
    }
    assert FirstEnd(p, 1) == |p| + 1;
  }

  lemma MarkerPrefix(k: nat)
    requires 1 <= k < |PASTE_START|
    ensures IsCompleteSequence(PASTE_START[..k]) == Incomplete
  {
    var p := PASTE_START[..k];
    if k >= 3 {
      assert p[2..][|p[2..]| - 1] == PASTE_START[k - 1];
    }
  }

  /** A marker starts with the only ESC it holds, so two of them cannot overlap. */
  lemma MarkerAlone(c: string, t: string, i: nat)
    requires i < |c| && !MatchAt(c, PASTE_END, i)
    ensures !MatchAt(c + PASTE_END + t, PASTE_END, i)
  {
    var s, n := c + PASTE_END + t, |PASTE_END|;
    var slice := s[i..i + n];
    if i + n <= |c| {
      assert c[i..i + n] == slice;
    } else {
      assert slice[|c| - i] == s[|c|] == PASTE_END[0] != PASTE_END[|c| - i];
    }
  }

  predicate NoEnd(s: string) { forall i :: 0 <= i <= |s| ==> !MatchAt(s, PASTE_END, i) }

  /** The end marker is found right behind content that does not hold one. */
  lemma FindsTheEnd(c: string, y: string)
    requires NoEnd(c)
    ensures Find(c + PASTE_END + y, PASTE_END) == Some(|c|)
  {
    var s := c + PASTE_END + y;
    assert s[|c|..|c| + |PASTE_END|] == PASTE_END;
    assert MatchAt(s, PASTE_END, |c|);
    forall i | 0 <= i < |c| ensures !MatchAt(s, PASTE_END, i) { MarkerAlone(c, y, i); }
  }

  /** Before the whole end marker is in, none is found. */
  lemma EndNotIn(c: string, q: string)
    requires NoEnd(c) && q <= c + PASTE_END && |q| < |c| + |PASTE_END|
    ensures Find(q, PASTE_END) == None
  {
    var s, n := c + PASTE_END + "", |PASTE_END|;
    forall i | 0 <= i <= |q| ensures !MatchAt(q, PASTE_END, i) {
      if i + n <= |q| {
        assert q[i..i + n] == s[i..i + n];
        MarkerAlone(c, "", i);
      }
    }
  }

  /** What is left of the chunks once the paste is out. */
  predicate Leaves(chunks: seq<string>, t: string) { AllNonEmpty(chunks) && Concat(chunks) == t }

  const CLEAN := State("", false, "", None)

  /** The paste comes out first, and the rest is handled from a clean buffer. */
  ghost predicate PastedThen(o: Outcome, c: string, t: string) {
    exists tail :: Leaves(tail, t) && o == Then([Paste(c)], Chunks(CLEAN, tail))
  }

  lemma PasteEnds(c: string, t: string, y: string, rest: seq<string>, pending: Option<int>)
    requires NoEnd(c) && y + Concat(rest) == t && AllNonEmpty(rest)
    ensures var o := Pasting(c + PASTE_END + y, pending); PastedThen(Then(o.events, Chunks(o.state, rest)), c, t)
  {
    var pb := c + PASTE_END + y;
    FindsTheEnd(c, y);
    assert pb[..|c|] == c && pb[|c| + MARKER_LENGTH..] == y;
    if y == "" {
      assert Leaves(rest, t);
    } else {
      var tail := [y] + rest;
      assert tail[0] == y && tail[1..] == rest && Leaves(tail, t);
      var o := Chunk(CLEAN, y);
      Associate([Paste(c)], o.events, Chunks(o.state, rest).events);
    }
  }

  /** In paste mode, with `q` of the content and the end marker in, whatever the cut of the rest. */
  lemma {:induction false} PasteGoesOn(q: string, chunks: seq<string>, c: string, t: string, pending: Option<int>)
    requires NoEnd(c) && AllNonEmpty(chunks)
    requires q <= c + PASTE_END && |q| < |c| + |PASTE_END| && q + Concat(chunks) == c + PASTE_END + t
    ensures PastedThen(Chunks(State("", true, q, pending), chunks), c, t)
    decreases |chunks|, 0
  {
    assert |q + Concat(chunks)| > |q|;
    var d, rest := chunks[0], chunks[1..];
    var s := State("", true, q, pending);
    assert "" + d == d;
    Associate(q, d, Concat(rest));
    assert Chunk(s, d) == Pasting(q + d, pending);
    PasteContinues(q + d, rest, c, t, pending);
  }

  lemma PasteContinues(x: string, rest: seq<string>, c: string, t: string, pending: Option<int>)
    requires NoEnd(c) && AllNonEmpty(rest) && x + Concat(rest) == c + PASTE_END + t
    ensures var o := Pasting(x, pending); PastedThen(Then(o.events, Chunks(o.state, rest)), c, t)
    decreases |rest|, 1
  {
    var whole := c + PASTE_END;
    if |x| < |whole| {
      assert x == (whole + t)[..|x|] == whole[..|x|];
      EndNotIn(c, x);
      PasteGoesOn(x, rest, c, t, pending);
      NothingYet(Pasting(x, pending), rest);
    } else {
      CutBehind(x, whole, Concat(rest), t);
      PasteEnds(c, t, x[|whole|..], rest, pending);
    }
  }

  /** With `p` of the start marker in, whatever the cut of the rest. */
  lemma {:induction false} MarkerGoesOn(p: string, chunks: seq<string>, c: string, t: string, pending: Option<int>)
    requires NoEnd(c) && AllNonEmpty(chunks)
    requires p < PASTE_START && p + Concat(chunks) == PASTE_START + (c + PASTE_END + t)
    ensures PastedThen(Chunks(State(p, false, "", pending), chunks), c, t)
    decreases |chunks|, 0
  {
    assert |p + Concat(chunks)| > |p|;
    Associate(p, chunks[0], Concat(chunks[1..]));
    MarkerContinues(p, chunks[0], chunks[1..], c, t, pending);
  }

  lemma MarkerContinues(p: string, d: string, rest: seq<string>, c: string, t: string, pending: Option<int>)
    requires NoEnd(c) && AllNonEmpty(rest) && d != "" && p < PASTE_START
    requires p + d + Concat(rest) == PASTE_START + (c + PASTE_END + t)
    ensures var o := Chunk(State(p, false, "", pending), d); PastedThen(Then(o.events, Chunks(o.state, rest)), c, t)
    decreases |rest|, 1
  {
    var x, body := p + d, c + PASTE_END + t;
    var s := State(p, false, "", pending);
    if |x| < |PASTE_START| {
      assert x == (PASTE_START + body)[..|x|] == PASTE_START[..|x|];
      MarkerStartIsUnfinished(x);
      ChunkWithoutMarker(s, d);
      MarkerGoesOn(x, rest, c, t, pending);
      NothingYet(Chunk(s, d), rest);
    } else {
      CutBehind(x, PASTE_START, Concat(rest), body);
      var y := x[|PASTE_START|..];
      MarkerIsIn(s, d, y);
      PasteContinues(y, rest, c, t, None);
    }
  }

  lemma NothingYet(o: Outcome, rest: seq<string>)
    requires o.events == []
    ensures Then(o.events, Chunks(o.state, rest)) == Chunks(o.state, rest)
  {
  }

  /** A text cut at two places: the part between belongs to both sides. */
  lemma CutBehind(x: string, head: string, rest: string, body: string)
    requires x + rest == head + body && |head| <= |x|
    ensures x == head + x[|head|..] && x[|head|..] + rest == body
  {
    assert x[..|head|] == (x + rest)[..|head|] == head;
    assert x[|head|..] + rest == (x + rest)[|head|..] == body;
  }

  lemma MarkerIsIn(s: State, d: string, y: string)
    requires !s.pasteMode && d != "" && s.buffer + d == PASTE_START + y
    ensures Chunk(s, d) == Pasting(y, None)
  {
    var x := s.buffer + d;
    assert x[0..|PASTE_START|] == PASTE_START && MatchAt(x, PASTE_START, 0);
    assert Find(x, PASTE_START) == Some(0);
    assert x[..0] == "" && x[MARKER_LENGTH..] == y;
    var o := Pasting(y, None);
    assert [] + o.events == o.events;
  }

  /** Two Escapes at the end of a chunk are a sequence of their own; uncut, the second one starts a
      sequence with what follows. */
  lemma EscEscCutMatters()
    ensures !CleanCuts("", [ESC_ESC, "[A"])
    ensures Chunks(CLEAN, [ESC_ESC, "[A"]).events != Chunk(CLEAN, ESC_ESC + "[A").events
  {
    var chunks := [ESC_ESC, "[A"];
    EscEscIsWhole();
    assert chunks[1..] == ["[A"] && Concat(["[A"]) == "[A" && Concat(chunks) == ESC_ESC + "[A";
    assert "" + ESC_ESC == ESC_ESC;
    NoMarkerIn(ESC_ESC + "[A");
    CutsDoNotMatterExactlyWhen(CLEAN, chunks);
  }

  lemma NoMarkerIn(s: string)
    requires |s| < |PASTE_START|
    ensures NoMarker(s)
  {
  }

  /** A paste comes out as one event with its exact content, before anything behind it, however the
      input is cut; what follows is handled as from a fresh buffer. */
  lemma PasteRoundTrip(chunks: seq<string>, c: string, t: string, pending: Option<int>)
    requires AllNonEmpty(chunks) && NoEnd(c)
    requires Concat(chunks) == PASTE_START + c + PASTE_END + t
    ensures PastedThen(Chunks(State("", false, "", pending), chunks), c, t)
  {
    assert "" + Concat(chunks) == PASTE_START + (c + PASTE_END + t);
    MarkerGoesOn("", chunks, c, t, pending);
  }

  // ---- input in front of a paste ----

  /** The texts that events carry as typed input. */
  function Texts(events: seq<Event>): seq<string> {
    if events == [] then []
    else if events[0].Data? then [events[0].text] + Texts(events[1..])
    else Texts(events[1..])
  }

  /** How many sequences are held back as duplicates. */
  function Duplicates(sequences: seq<string>, pending: Option<int>): nat {
    if sequences == [] then 0
    else if Duplicate(sequences[0], pending) then 1 + Duplicates(sequences[1..], None)
    else Duplicates(sequences[1..], PendingAfter(sequences[0], pending))
  }

  lemma {:induction false} TextsAndDuplicates(sequences: seq<string>, pending: Option<int>)
    ensures |Concat(Texts(Emitted(sequences, pending)))| + Duplicates(sequences, pending) == |Concat(sequences)|
    ensures Duplicates(sequences, pending) == 0 ==> Texts(Emitted(sequences, pending)) == sequences
  {
    if sequences != [] {
      var rest, next := sequences[1..], PendingAfter(sequences[0], pending);
      TextsAndDuplicates(rest, next);
      if !Duplicate(sequences[0], pending) {
        var event := Data(sequences[0]);
        assert ([event] + Emitted(rest, next))[1..] == Emitted(rest, next);
        assert ([event.text] + Texts(Emitted(rest, next)))[1..] == Texts(Emitted(rest, next));
        assert sequences == [sequences[0]] + rest;
      }
    }
  }

  /** A chunk that starts a paste: the sequences in front of the marker hold all the input there exactly
      when none of it is unfinished, and the events carry all of it exactly when in addition none of the
      sequences is a duplicate. */
  lemma InputBeforePasteSurvivesExactlyWhen(s: State, str: string, i: nat)
    requires !s.pasteMode && Find(s.buffer + str, PASTE_START) == Some(i)
    ensures var typed, rest := (s.buffer + str)[..i], (s.buffer + str)[i + MARKER_LENGTH..];
            var e := Extract(typed);
            && Chunk(s, str) == Then(Emitted(e.sequences, s.pending), Pasting(rest, None))
            && (Concat(e.sequences) == typed <==> e.remainder == "")
            && (Concat(Texts(Emitted(e.sequences, s.pending))) == typed
                <==> e.remainder == "" && Duplicates(e.sequences, s.pending) == 0)
  {
    var typed := (s.buffer + str)[..i];
    var e := Extract(typed);
    ExtractConserves(typed);
    AllTyped(Concat(e.sequences), e.remainder, typed);
    TextsSurvive(e.sequences, e.remainder, s.pending, typed);
  }

  lemma AllTyped(text: string, remainder: string, typed: string)
    requires text + remainder == typed
    ensures text == typed <==> remainder == ""
    ensures |text| + |remainder| == |typed|
  {
    if remainder == "" { assert text + "" == text; }
  }

  lemma TextsSurvive(sequences: seq<string>, remainder: string, pending: Option<int>, typed: string)
    requires Concat(sequences) + remainder == typed
    ensures Concat(Texts(Emitted(sequences, pending))) == typed
        <==> remainder == "" && Duplicates(sequences, pending) == 0
  {
    TextsAndDuplicates(sequences, pending);
    AllTyped(Concat(sequences), remainder, typed);
  }

  /** An Escape key press that arrives in one chunk with a paste behind it is lost: unfinished input
      before a paste marker is dropped. */
  lemma EscapeBeforePasteIsLost(c: string)
    requires NoEnd(c)
    ensures Chunk(CLEAN, [ESC] + PASTE_START + c + PASTE_END) == Outcome(CLEAN, [Paste(c)])
  {
    var rest := c + PASTE_END;
    var s := [ESC] + (PASTE_START + rest);
    assert s == [ESC] + PASTE_START + c + PASTE_END && "" + s == s;
    MarkerBehindEscape(rest);
    assert [ESC][..1] == [ESC] && FirstEnd([ESC], 1) == 2 && Extract([ESC]) == Extracted([], [ESC]);
    PasteOnly(c);
    assert Chunk(CLEAN, s) == Then(Emitted([], None), Pasting(rest, None));
  }

  lemma MarkerBehindEscape(rest: string)
    ensures var s := [ESC] + (PASTE_START + rest);
            Find(s, PASTE_START) == Some(1) && s[..1] == [ESC] && s[1 + MARKER_LENGTH..] == rest
  {
    var s, n := [ESC] + (PASTE_START + rest), |PASTE_START|;
    assert s[0..n][1] == s[1] == PASTE_START[0] != PASTE_START[1];
    assert s[1..1 + n] == PASTE_START;
    assert MatchAt(s, PASTE_START, 1) && !MatchAt(s, PASTE_START, 0);
  }

  lemma PasteOnly(c: string)
    requires NoEnd(c)
    ensures Pasting(c + PASTE_END, None) == Outcome(CLEAN, [Paste(c)])
    ensures Then([], Pasting(c + PASTE_END, None)) == Outcome(CLEAN, [Paste(c)])
  {
    var pb := c + PASTE_END;
    assert pb == c + PASTE_END + "";
    FindsTheEnd(c, "");
    assert pb[..|c|] == c && pb[|c| + MARKER_LENGTH..] == "";
  }
}
