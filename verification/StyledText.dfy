/** Text as escape codes and grapheme clusters, and what a reader of it sees. */
module StyledText {
  import opened Common
  import opened Ansi

  /** A grapheme cluster. `blank` marks clusters that trimming removes, `space` the plain space. */
  datatype Grapheme = Grapheme(text: string, width: nat, blank: bool, space: bool, cjk: bool)

  datatype Piece = Escape(code: Code) | Cluster(g: Grapheme) | Newline

  type Text = seq<Piece>

  /** A cluster in the style it is shown in. */
  datatype Shown = Shown(g: Grapheme, style: Style)

  function StyleAfter(s: Style, text: Text): Style
    decreases |text|
  {
    if text == [] then s
    else
      var last := text[|text| - 1];
      var before := StyleAfter(s, text[..|text| - 1]);
      if last.Escape? then Process(before, last.code) else before
  }

  /** The visible clusters of a text, each in its style, when the text is read from style `s`. */
  function Visible(s: Style, text: Text): seq<Shown>
    decreases |text|
  {
    if text == [] then []
    else
      var front, last := text[..|text| - 1], text[|text| - 1];
      if last.Cluster? then Visible(s, front) + [Shown(last.g, StyleAfter(s, front))] else Visible(s, front)
  }

  /** Lines are each read from the plain style. */
  function VisibleLines(lines: seq<Text>): seq<Shown> {
    if lines == [] then [] else VisibleLines(lines[..|lines| - 1]) + Visible(PLAIN, lines[|lines| - 1])
  }

  function TextWidth(text: Text): nat {
    if text == [] then 0
    else TextWidth(text[..|text| - 1]) + (if text[|text| - 1].Cluster? then text[|text| - 1].g.width else 0)
  }

  function Escapes(codes: seq<Code>): (r: Text)
    ensures |r| == |codes|
  {
    seq(|codes|, k requires 0 <= k < |codes| => Escape(codes[k]))
  }

  lemma {:induction false} ReadConcat(s: Style, a: Text, b: Text)
    ensures StyleAfter(s, a + b) == StyleAfter(StyleAfter(s, a), b)
    ensures Visible(s, a + b) == Visible(s, a) + Visible(StyleAfter(s, a), b)
    ensures TextWidth(a + b) == TextWidth(a) + TextWidth(b)
    decreases |b|
  {
    if b == [] {
      assert a + b == a;
    } else {
      var front, last := b[..|b| - 1], b[|b| - 1];
      assert (a + b)[..|a + b| - 1] == a + front && (a + b)[|a + b| - 1] == last;
      ReadConcat(s, a, front);
      if last.Cluster? { Associate(Visible(s, a), Visible(StyleAfter(s, a), front),
                                   [Shown(last.g, StyleAfter(s, a + front))]); }
    }
  }

  lemma ReadOne(s: Style, p: Piece)
    ensures StyleAfter(s, [p]) == if p.Escape? then Process(s, p.code) else s
    ensures Visible(s, [p]) == if p.Cluster? then [Shown(p.g, s)] else []
    ensures TextWidth([p]) == if p.Cluster? then p.g.width else 0
  {
    assert [p][..0] == [];
  }

  lemma {:induction false} ReadEscapes(s: Style, codes: seq<Code>)
    ensures StyleAfter(s, Escapes(codes)) == ProcessAll(s, codes)
    ensures Visible(s, Escapes(codes)) == []
    ensures TextWidth(Escapes(codes)) == 0
    decreases |codes|
  {
    if codes != [] {
      var rest := Escapes(codes[1..]);
      assert Escapes(codes) == [Escape(codes[0])] + rest;
      ReadOne(s, Escape(codes[0]));
      ReadConcat(s, [Escape(codes[0])], rest);
      ReadEscapes(Process(s, codes[0]), codes[1..]);
    }
  }

  /** A line that starts with the active codes is read as the text was. */
  lemma ReadActive(s: Style)
    requires Reachable(s)
    ensures StyleAfter(PLAIN, Escapes(ActiveCodes(s))) == s
    ensures Visible(PLAIN, Escapes(ActiveCodes(s))) == []
    ensures TextWidth(Escapes(ActiveCodes(s))) == 0
  {
    ReadEscapes(PLAIN, ActiveCodes(s));
    ActiveCodesRoundTrip(s);
  }

  lemma {:induction false} ReadReachable(s: Style, text: Text)
    requires Reachable(s)
    ensures Reachable(StyleAfter(s, text))
    decreases |text|
  {
    if text != [] {
      ReadReachable(s, text[..|text| - 1]);
      if text[|text| - 1].Escape? {
        ProcessReachable(StyleAfter(s, text[..|text| - 1]), text[|text| - 1].code);
      }
    }
  }

  // ---- lines laid out from a text ----

  predicate Blank(shown: seq<Shown>) { forall k :: 0 <= k < |shown| ==> shown[k].g.blank }

  /** What the lines show, with `drops[k]` put back after line k. */
  function Interleaved(lines: seq<Text>, drops: seq<seq<Shown>>): seq<Shown>
    requires |lines| == |drops|
  {
    if lines == [] then []
    else
      var n := |lines| - 1;
      Interleaved(lines[..n], drops[..n]) + Visible(PLAIN, lines[n]) + drops[n]
  }

  predicate AllBlank(drops: seq<seq<Shown>>) { forall k :: 0 <= k < |drops| ==> Blank(drops[k]) }

  /** The lines show `shown`, in order and in style, except for blanks left out at line ends. */
  ghost predicate LaidOut(shown: seq<Shown>, lines: seq<Text>) {
    exists drops: seq<seq<Shown>> :: |drops| == |lines| && AllBlank(drops) && Interleaved(lines, drops) == shown
  }

  lemma InterleavedAppend(lines: seq<Text>, drops: seq<seq<Shown>>, line: Text, d: seq<Shown>)
    requires |lines| == |drops|
    ensures Interleaved(lines + [line], drops + [d]) == Interleaved(lines, drops) + Visible(PLAIN, line) + d
  {
    assert (lines + [line])[..|lines|] == lines && (drops + [d])[..|drops|] == drops;
  }

  lemma LaidAppend(shown: seq<Shown>, lines: seq<Text>, line: Text, d: seq<Shown>)
    requires LaidOut(shown, lines) && Blank(d)
    ensures LaidOut(shown + Visible(PLAIN, line) + d, lines + [line])
  {
    var drops: seq<seq<Shown>> :| |drops| == |lines| && AllBlank(drops) && Interleaved(lines, drops) == shown;
    InterleavedAppend(lines, drops, line, d);
    assert AllBlank(drops + [d]);
  }

  lemma NothingLaid()
    ensures LaidOut([], [])
  {
    assert Interleaved([], []) == [];
  }

  /** What is laid out, taken apart at the last line. */
  lemma LaidLast(shown: seq<Shown>, lines: seq<Text>) returns (front: seq<Shown>, d: seq<Shown>)
    requires LaidOut(shown, lines) && lines != []
    ensures LaidOut(front, lines[..|lines| - 1]) && Blank(d)
    ensures shown == front + Visible(PLAIN, lines[|lines| - 1]) + d
  {
    var n := |lines| - 1;
    var drops: seq<seq<Shown>> :| |drops| == |lines| && AllBlank(drops) && Interleaved(lines, drops) == shown;
    front, d := Interleaved(lines[..n], drops[..n]), drops[n];
    assert LaidOut(front, lines[..n]);
  }

  /** Concatenation is associative, for three and four sequences. */
  lemma Regroup<T>(a: seq<T>, b: seq<T>, c: seq<T>, d: seq<T>)
    ensures a + (b + c) == a + b + c
    ensures a + (b + c + d) == a + b + c + d
  {
    assert a + (b + c) == a + b + c;
  }

  /** One more line, its drop included, behind lines laid out in front of it. */
  lemma LaidBehind(a: seq<Shown>, xs: seq<Text>, front: seq<Shown>, line: Text, d: seq<Shown>)
    requires LaidOut(a + front, xs) && Blank(d)
    ensures LaidOut(a + (front + Visible(PLAIN, line) + d), xs + [line])
  {
    LaidAppend(a + front, xs, line, d);
    Regroup(a, front, Visible(PLAIN, line), d);
  }

  lemma {:induction false} LaidConcat(a: seq<Shown>, xs: seq<Text>, b: seq<Shown>, ys: seq<Text>)
    requires LaidOut(a, xs) && LaidOut(b, ys)
    ensures LaidOut(a + b, xs + ys)
    decreases |ys|
  {
    if ys == [] {
      assert a + b == a && xs + ys == xs;
    } else {
      var n := |ys| - 1;
      var front, d := LaidLast(b, ys);
      LaidConcat(a, xs, front, ys[..n]);
      LaidBehind(a, xs + ys[..n], front, ys[n], d);
      assert xs + ys[..n] + [ys[n]] == xs + ys;
    }
  }

  function NonBlank(a: seq<Shown>): seq<Shown> {
    if a == [] then [] else (if a[0].g.blank then [] else [a[0]]) + NonBlank(a[1..])
  }

  lemma {:induction false} NonBlankConcat(a: seq<Shown>, b: seq<Shown>)
    ensures NonBlank(a + b) == NonBlank(a) + NonBlank(b)
  {
    if a == [] {
      assert a + b == b;
    } else {
      assert (a + b)[1..] == a[1..] + b;
      NonBlankConcat(a[1..], b);
    }
  }

  lemma {:induction false} BlankHasNoNonBlank(d: seq<Shown>)
    requires Blank(d)
    ensures NonBlank(d) == []
  {
    if d != [] { BlankHasNoNonBlank(d[1..]); }
  }

  /** Every non-blank cluster is shown, in order and in its style. */
  lemma {:induction false} LaidKeepsNonBlank(shown: seq<Shown>, lines: seq<Text>)
    requires LaidOut(shown, lines)
    ensures NonBlank(shown) == NonBlank(VisibleLines(lines))
    decreases |lines|
  {
    var n := |lines| - 1;
    var drops: seq<seq<Shown>> :| |drops| == |lines| && AllBlank(drops) && Interleaved(lines, drops) == shown;
    if lines != [] {
      var front := Interleaved(lines[..n], drops[..n]);
      assert LaidOut(front, lines[..n]);
      LaidKeepsNonBlank(front, lines[..n]);
      NonBlankConcat(front + Visible(PLAIN, lines[n]), drops[n]);
      NonBlankConcat(front, Visible(PLAIN, lines[n]));
      NonBlankConcat(VisibleLines(lines[..n]), Visible(PLAIN, lines[n]));
      BlankHasNoNonBlank(drops[n]);
    }
  }

  // ---- trimming ----

  function TrimEnd(text: Text): (r: Text)
    ensures r <= text
  {
    if text != [] && text[|text| - 1].Cluster? && text[|text| - 1].g.blank then TrimEnd(text[..|text| - 1]) else text
  }

  /** What trimming removes. */
  function Trimmed(s: Style, text: Text): (r: seq<Shown>)
    ensures Blank(r)
  {
    if text != [] && text[|text| - 1].Cluster? && text[|text| - 1].g.blank then
      Trimmed(s, text[..|text| - 1]) + [Shown(text[|text| - 1].g, StyleAfter(s, text[..|text| - 1]))]
    else []
  }

  lemma {:induction false} TrimKeeps(s: Style, text: Text)
    ensures Visible(s, text) == Visible(s, TrimEnd(text)) + Trimmed(s, text)
    ensures StyleAfter(s, TrimEnd(text)) == StyleAfter(s, text)
    ensures TextWidth(TrimEnd(text)) <= TextWidth(text)
    decreases |text|
  {
    if text != [] && text[|text| - 1].Cluster? && text[|text| - 1].g.blank {
      TrimKeeps(s, text[..|text| - 1]);
    }
  }
}
