/** Lines that are filled: what begins the next line would not have fitted on the line before it, and
    only words that are too long for a line are split. */
module Paragraphs {
  import opened Common
  import opened Ansi
  import opened StyledText

  // ---- the clusters of a text ----

  /** The grapheme clusters of a text, without its codes. */
  function Clusters(text: Text): seq<Grapheme> {
    if text == [] then []
    else
      var front, last := Clusters(text[..|text| - 1]), text[|text| - 1];
      if last.Cluster? then front + [last.g] else front
  }

  function Graphemes(shown: seq<Shown>): (gs: seq<Grapheme>)
    ensures |gs| == |shown| && forall k :: 0 <= k < |gs| ==> gs[k] == shown[k].g
  {
    seq(|shown|, k requires 0 <= k < |shown| => shown[k].g)
  }

  function Columns(gs: seq<Grapheme>): nat {
    if gs == [] then 0 else Columns(gs[..|gs| - 1]) + gs[|gs| - 1].width
  }

  lemma {:induction false} ColumnsConcat(a: seq<Grapheme>, b: seq<Grapheme>)
    ensures Columns(a + b) == Columns(a) + Columns(b)
    decreases |b|
  {
    if b == [] {
      assert a + b == a;
    } else {
      assert (a + b)[..|a + b| - 1] == a + b[..|b| - 1];
      ColumnsConcat(a, b[..|b| - 1]);
    }
  }

  lemma {:induction false} ClustersConcat(a: Text, b: Text)
    ensures Clusters(a + b) == Clusters(a) + Clusters(b)
    decreases |b|
  {
    if b == [] {
      assert a + b == a;
    } else {
      assert (a + b)[..|a + b| - 1] == a + b[..|b| - 1];
      ClustersConcat(a, b[..|b| - 1]);
      if b[|b| - 1].Cluster? { Associate(Clusters(a), Clusters(b[..|b| - 1]), [b[|b| - 1].g]); }
    }
  }

  /** The clusters of a text are what it shows in any style, and its width is theirs. */
  lemma {:induction false} ClustersShown(s: Style, text: Text)
    ensures Graphemes(Visible(s, text)) == Clusters(text)
    ensures Columns(Clusters(text)) == TextWidth(text)
    decreases |text|
  {
    if text != [] {
      var front, last := text[..|text| - 1], text[|text| - 1];
      ClustersShown(s, front);
      if last.Cluster? {
        var next := Shown(last.g, StyleAfter(s, front));
        assert Graphemes(Visible(s, front) + [next]) == Graphemes(Visible(s, front)) + [last.g];
      }
    }
  }

  // ---- words and runs of spaces ----

  predicate InWord(g: Grapheme) { !g.space && !g.cjk }

  /** Neighbours of one word, or of one run of spaces. */
  predicate Together(a: Grapheme, b: Grapheme) { (a.space && b.space) || (InWord(a) && InWord(b)) }

  /** Columns of the word or run of spaces from position `p` on. */
  function RunFrom(gs: seq<Grapheme>, p: nat): nat
    decreases |gs| - p
  {
    if p >= |gs| then 0
    else gs[p].width + if p + 1 < |gs| && Together(gs[p], gs[p + 1]) then RunFrom(gs, p + 1) else 0
  }

  /** Columns of the word or run of spaces in front of position `p`. */
  function RunTo(gs: seq<Grapheme>, p: nat): nat
    requires p <= |gs|
  {
    if p == 0 then 0
    else gs[p - 1].width + if p > 1 && Together(gs[p - 2], gs[p - 1]) then RunTo(gs, p - 1) else 0
  }

  predicate OneRun(gs: seq<Grapheme>) { forall k :: 0 < k < |gs| ==> Joins(gs, k) }

  predicate Joins(gs: seq<Grapheme>, k: nat)
    requires 0 < k < |gs|
  {
    Together(gs[k - 1], gs[k])
  }

  /** Part `part` of `gs` begins at `p`. */
  predicate PartAt(gs: seq<Grapheme>, p: nat, part: seq<Grapheme>) {
    p + |part| <= |gs| && forall k :: 0 <= k < |part| ==> SameAt(gs, p, part, k)
  }

  predicate SameAt(gs: seq<Grapheme>, p: nat, part: seq<Grapheme>, k: nat)
    requires k < |part| && p + |part| <= |gs|
  {
    gs[p + k] == part[k]
  }

  lemma PartBetween(gs: seq<Grapheme>, front: seq<Grapheme>, part: seq<Grapheme>, rest: seq<Grapheme>)
    requires gs == front + part + rest
    ensures PartAt(gs, |front|, part)
  {
    forall k | 0 <= k < |part| ensures SameAt(gs, |front|, part, k) {
    }
  }

  lemma PartOfPart(gs: seq<Grapheme>, p: nat, part: seq<Grapheme>, a: seq<Grapheme>, b: seq<Grapheme>)
    requires PartAt(gs, p, part) && part == a + b
    ensures PartAt(gs, p, a) && PartAt(gs, p + |a|, b)
    ensures OneRun(part) ==> OneRun(a) && OneRun(b)
  {
    forall k | 0 <= k < |a| ensures SameAt(gs, p, a, k) {
      assert SameAt(gs, p, part, k);
    }
    var q := p + |a|;
    forall k | 0 <= k < |b| ensures SameAt(gs, q, b, k) {
      assert SameAt(gs, p, part, |a| + k) && part[|a| + k] == b[k];
    }
    if OneRun(part) {
      forall k | 0 < k < |a| ensures Joins(a, k) {
        assert Joins(part, k);
      }
      forall k | 0 < k < |b| ensures Joins(b, k) {
        var j := |a| + k;
        assert Joins(part, j) && part[j] == b[k] && part[j - 1] == b[k - 1];
      }
    }
  }

  lemma {:induction false} RunCovers(gs: seq<Grapheme>, p: nat, part: seq<Grapheme>)
    requires PartAt(gs, p, part) && OneRun(part)
    ensures Columns(part) <= RunFrom(gs, p)
    decreases |part|
  {
    if part != [] {
      var first, rest := [part[0]], part[1..];
      assert part == first + rest;
      assert SameAt(gs, p, part, 0);
      ColumnsConcat(first, rest);
      PartOfPart(gs, p, part, first, rest);
      RunCovers(gs, p + 1, rest);
      assert first[..0] == [];
      if rest != [] {
        assert Joins(part, 1) && SameAt(gs, p, part, 1);
      }
    }
  }

  lemma {:induction false} RunCoversBack(gs: seq<Grapheme>, p: nat, part: seq<Grapheme>)
    requires PartAt(gs, p, part) && OneRun(part)
    ensures Columns(part) <= RunTo(gs, p + |part|)
    decreases |part|
  {
    if part != [] {
      var n := |part| - 1;
      var front, last := part[..n], [part[n]];
      assert part == front + last;
      assert SameAt(gs, p, part, n);
      PartOfPart(gs, p, part, front, last);
      RunCoversBack(gs, p, front);
      if n > 0 {
        assert Joins(part, n) && SameAt(gs, p, part, n - 1);
      }
    }
  }

  predicate SplitsWord(gs: seq<Grapheme>, p: nat) { 0 < p < |gs| && InWord(gs[p - 1]) && InWord(gs[p]) }

  // ---- filled lines ----

  /** What is to be wrapped. */
  datatype Paragraph = Paragraph(gs: seq<Grapheme>, width: nat)

  /** A line of `used` columns, blanks dropped at its end included, may end in front of cluster `p`: the word or run
      of spaces that starts there does not fit on it too, and if that is in the middle of a word then the whole word
      is too long for a line. */
  ghost predicate MayBreak(par: Paragraph, p: nat, used: nat) {
    && p <= |par.gs|
    && used + RunFrom(par.gs, p) > par.width
    && (SplitsWord(par.gs, p) ==> RunTo(par.gs, p) + RunFrom(par.gs, p) > par.width)
  }

  /** A line and the blanks dropped behind it, when `before` has been shown in front of it and `shown` up to its end. */
  ghost predicate FilledLine(par: Paragraph, before: seq<Shown>, line: Text, dropped: seq<Shown>, shown: seq<Shown>) {
    && Blank(dropped) && shown == before + Visible(PLAIN, line) + dropped
    && MayBreak(par, |shown|, TextWidth(line) + Columns(Graphemes(dropped)))
  }

  /** The lines show `shown` but for blanks dropped at their ends, and each may end where it does. */
  ghost predicate Filled(par: Paragraph, shown: seq<Shown>, lines: seq<Text>)
    decreases |lines|, 0
  {
    if lines == [] then shown == [] else FilledUpTo(par, shown, lines[..|lines| - 1], lines[|lines| - 1])
  }

  ghost predicate FilledUpTo(par: Paragraph, shown: seq<Shown>, front: seq<Text>, line: Text)
    decreases |front|, 1
  {
    exists before, dropped :: FilledLine(par, before, line, dropped, shown) && Filled(par, before, front)
  }

  /** All lines of a text; the last ends with the text. */
  ghost predicate Wrapped(shown: seq<Shown>, lines: seq<Text>, width: nat) {
    lines != [] && EndsWith(shown, lines[..|lines| - 1], lines[|lines| - 1], width)
  }

  ghost predicate EndsWith(shown: seq<Shown>, front: seq<Text>, line: Text, width: nat) {
    exists before, dropped ::
      LastLine(before, line, dropped, shown) && Filled(Paragraph(Graphemes(shown), width), before, front)
  }

  ghost predicate LastLine(before: seq<Shown>, line: Text, dropped: seq<Shown>, shown: seq<Shown>) {
    Blank(dropped) && shown == before + Visible(PLAIN, line) + dropped
  }

  lemma FilledAppend(par: Paragraph, before: seq<Shown>, lines: seq<Text>, line: Text, dropped: seq<Shown>,
                     shown: seq<Shown>)
    requires Filled(par, before, lines) && FilledLine(par, before, line, dropped, shown)
    ensures Filled(par, shown, lines + [line])
  {
    assert (lines + [line])[..|lines|] == lines;
  }

  lemma {:induction false} FilledIsLaid(par: Paragraph, shown: seq<Shown>, lines: seq<Text>)
    requires Filled(par, shown, lines)
    ensures LaidOut(shown, lines)
    decreases |lines|
  {
    if lines == [] {
      NothingLaid();
    } else {
      var n := |lines| - 1;
      var before, dropped :| FilledLine(par, before, lines[n], dropped, shown) && Filled(par, before, lines[..n]);
      FilledIsLaid(par, before, lines[..n]);
      LaidAppend(before, lines[..n], lines[n], dropped);
      assert lines[..n] + [lines[n]] == lines;
    }
  }

  lemma WrappedIsLaid(shown: seq<Shown>, lines: seq<Text>, width: nat)
    requires Wrapped(shown, lines, width)
    ensures LaidOut(shown, lines)
  {
    var n := |lines| - 1;
    var before, dropped :| LastLine(before, lines[n], dropped, shown)
        && Filled(Paragraph(Graphemes(shown), width), before, lines[..n]);
    FilledIsLaid(Paragraph(Graphemes(shown), width), before, lines[..n]);
    LaidAppend(before, lines[..n], lines[n], dropped);
    assert lines[..n] + [lines[n]] == lines;
  }

  /** Trimming moves blanks from the end of a line to what is dropped behind it. */
  lemma TrimmedLine(line: Text, dropped: seq<Shown>)
    requires Blank(dropped)
    ensures var more := Trimmed(PLAIN, line) + dropped;
            && Blank(more)
            && Visible(PLAIN, TrimEnd(line)) + more == Visible(PLAIN, line) + dropped
            && TextWidth(TrimEnd(line)) + Columns(Graphemes(more)) == TextWidth(line) + Columns(Graphemes(dropped))
  {
    TrimKeeps(PLAIN, line);
    var kept, cut := Visible(PLAIN, TrimEnd(line)), Trimmed(PLAIN, line);
    Associate(kept, cut, dropped);
    ClustersShown(PLAIN, line);
    ClustersShown(PLAIN, TrimEnd(line));
    ColumnsOf(kept, cut);
    ColumnsOf(cut, dropped);
  }

  lemma ColumnsOf(a: seq<Shown>, b: seq<Shown>)
    ensures Columns(Graphemes(a + b)) == Columns(Graphemes(a)) + Columns(Graphemes(b))
  {
    assert Graphemes(a + b) == Graphemes(a) + Graphemes(b);
    ColumnsConcat(Graphemes(a), Graphemes(b));
  }

  lemma {:induction false} FilledTrimmed(par: Paragraph, shown: seq<Shown>, lines: seq<Text>, trimmed: seq<Text>)
    requires Filled(par, shown, lines) && |trimmed| == |lines|
    requires forall k :: 0 <= k < |lines| ==> trimmed[k] == TrimEnd(lines[k])
    ensures Filled(par, shown, trimmed)
    decreases |lines|
  {
    if lines != [] {
      var n := |lines| - 1;
      var before, dropped :| FilledLine(par, before, lines[n], dropped, shown) && Filled(par, before, lines[..n]);
      FilledTrimmed(par, before, lines[..n], trimmed[..n]);
      TrimmedLine(lines[n], dropped);
      Associate(before, Visible(PLAIN, lines[n]), dropped);
      Associate(before, Visible(PLAIN, trimmed[n]), Trimmed(PLAIN, lines[n]) + dropped);
      assert FilledLine(par, before, trimmed[n], Trimmed(PLAIN, lines[n]) + dropped, shown);
    }
  }

  lemma WrappedTrimmed(shown: seq<Shown>, lines: seq<Text>, trimmed: seq<Text>, width: nat)
    requires Wrapped(shown, lines, width) && |trimmed| == |lines|
    requires forall k :: 0 <= k < |lines| ==> trimmed[k] == TrimEnd(lines[k])
    ensures Wrapped(shown, trimmed, width)
  {
    var n := |lines| - 1;
    var before, dropped :| LastLine(before, lines[n], dropped, shown)
        && Filled(Paragraph(Graphemes(shown), width), before, lines[..n]);
    FilledTrimmed(Paragraph(Graphemes(shown), width), before, lines[..n], trimmed[..n]);
    TrimmedLine(lines[n], dropped);
    Associate(before, Visible(PLAIN, lines[n]), dropped);
    Associate(before, Visible(PLAIN, trimmed[n]), Trimmed(PLAIN, lines[n]) + dropped);
    assert LastLine(before, trimmed[n], Trimmed(PLAIN, lines[n]) + dropped, shown);
  }

  /** All lines may end where they do; then the last may also end with the text. */
  lemma FilledIsWrapped(shown: seq<Shown>, lines: seq<Text>, width: nat)
    requires lines != [] && Filled(Paragraph(Graphemes(shown), width), shown, lines)
    ensures Wrapped(shown, lines, width)
  {
    var n := |lines| - 1;
    var before, dropped :| FilledLine(Paragraph(Graphemes(shown), width), before, lines[n], dropped, shown)
        && Filled(Paragraph(Graphemes(shown), width), before, lines[..n]);
    assert LastLine(before, lines[n], dropped, shown);
  }

  lemma WrappedLast(before: seq<Shown>, lines: seq<Text>, line: Text, shown: seq<Shown>, width: nat)
    requires Filled(Paragraph(Graphemes(shown), width), before, lines) && shown == before + Visible(PLAIN, line)
    ensures Wrapped(shown, lines + [line], width)
  {
    assert (lines + [line])[..|lines|] == lines;
    assert shown + [] == shown;
    assert LastLine(before, line, [], shown);
  }

  // ---- tokens ----

  /** Where a token lies in the paragraph: neither end is inside a word, and it is one word, one run of spaces or one
      cluster. */
  ghost predicate TokenAt(par: Paragraph, p: nat, gs: seq<Grapheme>) {
    PartAt(par.gs, p, gs) && OneRun(gs) && !SplitsWord(par.gs, p) && !SplitsWord(par.gs, p + |gs|)
  }

  /** A line may end in front of a token that does not fit on it. */
  lemma BreaksBefore(par: Paragraph, p: nat, gs: seq<Grapheme>, used: nat)
    requires TokenAt(par, p, gs) && used + Columns(gs) > par.width
    ensures MayBreak(par, p, used) && MayBreak(par, p + |gs|, used + Columns(gs))
  {
    RunCovers(par.gs, p, gs);
  }

  lemma FirstColumns(gs: seq<Grapheme>)
    requires gs != []
    ensures gs[0].width <= Columns(gs)
  {
    assert gs == gs[..1] + gs[1..];
    ColumnsConcat(gs[..1], gs[1..]);
    assert gs[..1][..0] == [];
  }

  /** A line may end inside a token that is too long, in front of a cluster that does not fit on it. */
  lemma BreaksInside(par: Paragraph, p: nat, front: seq<Grapheme>, back: seq<Grapheme>, used: nat)
    requires TokenAt(par, p, front + back) && Columns(front + back) > par.width
    requires back != [] && used + back[0].width > par.width
    ensures MayBreak(par, p + |front|, used)
  {
    PartOfPart(par.gs, p, front + back, front, back);
    RunCovers(par.gs, p + |front|, back);
    RunCoversBack(par.gs, p, front);
    ColumnsConcat(front, back);
    FirstColumns(back);
  }

  lemma BreaksAt(par: Paragraph, p: nat, gs: seq<Grapheme>, q: nat, used: nat)
    requires TokenAt(par, p, gs) && Columns(gs) > par.width
    requires q < |gs| && used + gs[q].width > par.width
    ensures MayBreak(par, p + q, used)
  {
    var front, back := SplitAt(gs, q);
    BreaksInside(par, p, front, back, used);
  }

  lemma SplitAt(gs: seq<Grapheme>, q: nat) returns (front: seq<Grapheme>, back: seq<Grapheme>)
    requires q < |gs|
    ensures gs == front + back && |front| == q && back != [] && back[0] == gs[q]
  {
    front, back := gs[..q], gs[q..];
  }

  /** The lines a token is broken into: line `k` ends in front of a cluster that does not fit on it. */
  ghost predicate BrokenAt(gs: seq<Grapheme>, lines: seq<Text>, k: nat, width: nat)
    requires k < |lines|
  {
    var q := |VisibleLines(lines[..k + 1])|;
    q < |gs| && TextWidth(lines[k]) + gs[q].width > width
  }

  ghost predicate Broken(gs: seq<Grapheme>, lines: seq<Text>, width: nat) {
    forall k :: 0 <= k < |lines| ==> BrokenAt(gs, lines, k, width)
  }

  lemma BrokenAppend(gs: seq<Grapheme>, lines: seq<Text>, line: Text, width: nat)
    requires Broken(gs, lines, width)
    requires var q := |VisibleLines(lines) + Visible(PLAIN, line)|;
             q < |gs| && TextWidth(line) + gs[q].width > width
    ensures Broken(gs, lines + [line], width)
  {
    var all := lines + [line];
    forall k | 0 <= k < |all| ensures BrokenAt(gs, all, k, width) {
      if k < |lines| {
        assert BrokenAt(gs, lines, k, width) && all[..k + 1] == lines[..k + 1];
      } else {
        assert all[..k + 1] == all && all[..|lines|] == lines;
      }
    }
  }

  /** A line behind which nothing is dropped. */
  lemma FilledWhole(par: Paragraph, before: seq<Shown>, lines: seq<Text>, line: Text, shown: seq<Shown>)
    requires Filled(par, before, lines) && shown == before + Visible(PLAIN, line)
    requires MayBreak(par, |shown|, TextWidth(line))
    ensures Filled(par, shown, lines + [line])
  {
    assert shown + [] == shown;
    FilledAppend(par, before, lines, line, [], shown);
  }

  /** Lines of a broken token, behind lines filled up to the token. */
  lemma {:induction false} FilledBroken(par: Paragraph, start: seq<Shown>, wrapped: seq<Text>, gs: seq<Grapheme>,
                                        lines: seq<Text>)
    requires Filled(par, start, wrapped) && TokenAt(par, |start|, gs) && Columns(gs) > par.width
    requires Broken(gs, lines, par.width)
    ensures Filled(par, start + VisibleLines(lines), wrapped + lines)
    decreases |lines|
  {
    if lines == [] {
      assert start + VisibleLines(lines) == start && wrapped + lines == wrapped;
    } else {
      var n := |lines| - 1;
      var front := lines[..n];
      forall k | 0 <= k < n ensures BrokenAt(gs, front, k, par.width) {
        assert BrokenAt(gs, lines, k, par.width) && front[..k + 1] == lines[..k + 1];
      }
      FilledBroken(par, start, wrapped, gs, front);
      assert BrokenAt(gs, lines, n, par.width) && lines[..n + 1] == lines;
      BreaksAt(par, |start|, gs, |VisibleLines(lines)|, TextWidth(lines[n]));
      Associate(start, VisibleLines(front), Visible(PLAIN, lines[n]));
      FilledWhole(par, start + VisibleLines(front), wrapped + front, lines[n], start + VisibleLines(lines));
      assert wrapped + front + [lines[n]] == wrapped + lines;
    }
  }
}
