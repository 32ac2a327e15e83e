/** Splicing an overlay line into a base line. */
module Overlay {
  import opened Common
  import opened Ansi
  import opened StyleTracker
  import opened StyledText
  import opened Wrap
  import opened Splice

  // ---- ranges ----

  lemma {:induction false} SliceEndWithin(line: Text, i: nat, endCol: nat)
    requires i <= |line| && Column(line, i) <= endCol
    ensures Column(line, SliceEnd(line, i, endCol, true)) <= endCol
    decreases |line| - i
  {
    if i < |line| && Column(line, i) < endCol {
      ColumnStep(line, i);
      if !(line[i].Cluster? && Column(line, i + 1) > endCol) { SliceEndWithin(line, i + 1, endCol); }
    }
  }

  lemma RangeWidth(line: Text, f: nat, e: nat)
    requires f <= e <= |line|
    ensures TextWidth(Between(line, f, e)) == Column(line, e) - Column(line, f)
  {
    BetweenIs(line, f, e);
    assert line[..e] == line[..f] + Between(line, f, e);
    ReadConcat(PLAIN, line[..f], Between(line, f, e));
  }

  /** The range of a strict slice is no wider than asked for. */
  lemma StrictRangeFits(line: Text, startCol: nat, endCol: nat)
    requires startCol <= endCol
    ensures var f := SliceStart(line, startCol); var e := SliceEnd(line, f, endCol, true);
            TextWidth(Between(line, f, e)) <= endCol - startCol
  {
    var k, f := Reach(line, startCol, 0), SliceStart(line, startCol);
    var e := SliceEnd(line, f, endCol, true);
    if e > f {
      ColumnsGrow(line, k, f);
      SliceEndWithin(line, f, endCol);
      RangeWidth(line, f, e);
    }
  }

  lemma GlueHasNoNewlines(a: Text, b: Text)
    requires NoNewlines(a) && NoNewlines(b)
    ensures NoNewlines(Glue(a, b))
  {
  }

  lemma {:induction false} BetweenHasNoNewlines(line: Text, i: nat, j: nat)
    requires i <= j <= |line| && NoNewlines(line)
    ensures NoNewlines(Between(line, i, j))
    decreases j - i
  {
    if i < j { BetweenHasNoNewlines(line, i, j - 1); }
  }

  // ---- segments before and after ----

  /** Codes that bring plain text into a style. */
  ghost predicate Restores(codes: Text, style: Style) { OnlyEscapes(codes) && StyleAfter(PLAIN, codes) == style }

  /** Style in force in front of a piece. */
  function StyleAt(line: Text, i: nat): Style
    requires i <= |line|
  {
    StyleAfter(PLAIN, line[..i])
  }

  /** The segment before the overlay, in front of piece `i`. */
  ghost predicate BeforePart(line: Text, beforeEnd: nat, i: nat, before: Text, pendingAnsiBefore: Text)
    requires i <= |line|
  {
    var b := Reach(line, beforeEnd, 0);
    && OnlyEscapes(pendingAnsiBefore)
    && (i <= b ==> before + pendingAnsiBefore == line[..i])
    && (Column(line, i) >= beforeEnd ==> before == line[..b] && pendingAnsiBefore == [])
  }

  /** The segment behind the overlay, in front of piece `i`: codes that restore the style in force where
      it starts, then the pieces. */
  ghost predicate AfterPart(line: Text, afterStart: nat, afterLen: int, strictAfter: bool, i: nat,
                            after: Text, afterStarted: bool, codes: Text)
    requires i <= |line|
  {
    var g := SliceStart(line, afterStart);
    if afterLen <= 0 || i <= g then after == [] && !afterStarted
    else
      && afterStarted && Restores(codes, StyleAt(line, g)) && after == Glue(codes, Between(line, g, i))
      && SliceEnd(line, i, afterStart + afterLen, strictAfter) == SliceEnd(line, g, afterStart + afterLen, strictAfter)
  }

  lemma BeforeCode(line: Text, beforeEnd: nat, i: nat, before: Text, pendingAnsiBefore: Text)
    requires i < |line| && line[i].Escape? && BeforePart(line, beforeEnd, i, before, pendingAnsiBefore)
    ensures BeforePart(line, beforeEnd, i + 1, before,
                       if Column(line, i) < beforeEnd then pendingAnsiBefore + [line[i]] else pendingAnsiBefore)
  {
    ColumnStep(line, i);
    InFront(line, beforeEnd, i);
    Associate(before, pendingAnsiBefore, [line[i]]);
    assert line[..i + 1] == line[..i] + [line[i]];
  }

  lemma BeforeCluster(line: Text, beforeEnd: nat, i: nat, before: Text, pendingAnsiBefore: Text)
    requires i < |line| && line[i].Cluster? && BeforePart(line, beforeEnd, i, before, pendingAnsiBefore)
    ensures if Column(line, i) < beforeEnd
        then BeforePart(line, beforeEnd, i + 1, before + pendingAnsiBefore + [line[i]], [])
            else BeforePart(line, beforeEnd, i + 1, before, pendingAnsiBefore)
  {
    ColumnStep(line, i);
    InFront(line, beforeEnd, i);
    assert line[..i + 1] == line[..i] + [line[i]];
    if Column(line, i) < beforeEnd {
      var taken := before + pendingAnsiBefore + [line[i]];
      assert taken + [] == taken;
      if Column(line, i + 1) >= beforeEnd { NextReaches(line, beforeEnd, i); }
    }
  }

  lemma NextReaches(line: Text, col: nat, i: nat)
    requires i < |line| && i < Reach(line, col, 0) && Column(line, i + 1) >= col
    ensures Reach(line, col, 0) == i + 1
  {
  }

  /** At the end of the line, or once its columns are passed, the segment before shows what the line
      shows up to the overlay. */
  lemma BeforeDone(line: Text, beforeEnd: nat, i: nat, before: Text, pendingAnsiBefore: Text)
    requires i <= |line| && BeforePart(line, beforeEnd, i, before, pendingAnsiBefore)
    requires i == |line| || Column(line, i) >= beforeEnd
    ensures var b := Reach(line, beforeEnd, 0);
            Visible(PLAIN, before) == Visible(PLAIN, line[..b]) && TextWidth(before) == Column(line, b)
                && before <= line
  {
    var b := Reach(line, beforeEnd, 0);
    if Column(line, i) < beforeEnd {
      if b < |line| { ColumnsGrow(line, b, i); }
      OnlyCodes(pendingAnsiBefore, StyleAfter(PLAIN, before));
      ReadConcat(PLAIN, before, pendingAnsiBefore);
      EscapesAreWidthless(pendingAnsiBefore);
      assert line[..i] == line && before + pendingAnsiBefore == line;
    }
  }

  lemma {:induction false} EscapesAreWidthless(text: Text)
    requires OnlyEscapes(text)
    ensures TextWidth(text) == 0
    decreases |text|
  {
    if text != [] { EscapesAreWidthless(text[..|text| - 1]); }
  }

  lemma AfterCode(line: Text, afterStart: nat, afterLen: int, strictAfter: bool, i: nat, after: Text,
                  afterStarted: bool, codes: Text)
    requires i < |line| && line[i].Escape?
        && AfterPart(line, afterStart, afterLen, strictAfter, i, after, afterStarted, codes)
    requires afterLen > 0 ==> Column(line, i) < afterStart + afterLen
    ensures AfterPart(line, afterStart, afterLen, strictAfter, i + 1,
                      if afterStarted then after + [line[i]] else after, afterStarted, codes)
  {
    var g := SliceStart(line, afterStart);
    if afterLen > 0 && i > g { OneMore(codes, line, g, i); }
  }

  lemma OneMore(codes: Text, line: Text, g: nat, i: nat)
    requires g <= i < |line|
    ensures Glue(codes, Between(line, g, i)) + [line[i]] == Glue(codes, Between(line, g, i + 1))
  {
    var range := Between(line, g, i);
    GlueIs(codes, range);
    GlueIs(codes, range + [line[i]]);
    Associate(codes, range, [line[i]]);
  }

  /** A cluster behind the overlay that fits is taken, behind restoring codes if it is the first. */
  lemma AfterTake(line: Text, afterStart: nat, afterLen: int, strictAfter: bool, i: nat, after: Text,
                  afterStarted: bool,
                  codes: Text, newCodes: Text)
    requires i < |line| && line[i].Cluster?
        && AfterPart(line, afterStart, afterLen, strictAfter, i, after, afterStarted, codes)
    requires afterStart <= Column(line, i) < afterStart + afterLen
    requires strictAfter ==> Column(line, i + 1) <= afterStart + afterLen
    requires if afterStarted then newCodes == [] else Restores(newCodes, StyleAt(line, i))
    ensures AfterPart(line, afterStart, afterLen, strictAfter, i + 1, after + newCodes + [line[i]], true,
                      if afterStarted then codes else newCodes)
  {
    var g := SliceStart(line, afterStart);
    InFront(line, afterStart, i);
    assert g <= i;
    if i == g {
      assert [] + newCodes + [line[i]] == newCodes + [line[i]];
      OneMore(newCodes, line, g, i);
    } else {
      assert after + [] == after;
      OneMore(codes, line, g, i);
    }
  }

  /** A cluster in front of the range of the segment. */
  lemma AfterPass(line: Text, afterStart: nat, afterLen: int, strictAfter: bool, i: nat, after: Text,
                  afterStarted: bool, codes: Text)
    requires i < |line| && line[i].Cluster?
        && AfterPart(line, afterStart, afterLen, strictAfter, i, after, afterStarted, codes)
    requires afterLen > 0 ==> Column(line, i) < afterStart
    ensures AfterPart(line, afterStart, afterLen, strictAfter, i + 1, after, afterStarted, codes)
  {
    InFront(line, afterStart, i);
  }

  /** The segment behind the overlay shows what the line shows in its columns, and fits if strict. */
  ghost predicate ShowsAfter(line: Text, afterStart: nat, afterLen: int, strictAfter: bool, after: Text) {
    && NoNewlines(after)
    && if afterLen <= 0 then after == [] else ShowsColumns(line, afterStart, afterStart + afterLen, strictAfter, after)
  }

  ghost predicate ShowsColumns(line: Text, startCol: nat, endCol: nat, strict: bool, text: Text)
    requires startCol <= endCol
  {
    Visible(PLAIN, text) == RangeShown(line, startCol, endCol, strict)
        && (strict ==> TextWidth(text) <= endCol - startCol)
  }

  lemma {:induction false} OnlyCodesShown(codes: Text, s: Style)
    requires OnlyEscapes(codes)
    ensures Visible(s, codes) == [] && TextWidth(codes) == 0
    decreases |codes|
  {
    if codes != [] { OnlyCodesShown(codes[..|codes| - 1], s); }
  }

  /** Behind codes that restore a style, a text is shown in that style. */
  lemma RestoredShows(codes: Text, style: Style, range: Text)
    requires Restores(codes, style) && NoNewlines(range)
    ensures Visible(PLAIN, Glue(codes, range)) == Visible(style, range)
    ensures TextWidth(Glue(codes, range)) == TextWidth(range) && NoNewlines(Glue(codes, range))
  {
    GlueIs(codes, range);
    OnlyCodesShown(codes, PLAIN);
    ReadConcat(PLAIN, codes, range);
    assert [] + Visible(style, range) == Visible(style, range);
  }

  /** The pieces of the range, in their style, are what the segment has to show. */
  lemma RangeSettles(line: Text, startCol: nat, endCol: nat, strict: bool, g: nat, e: nat, text: Text)
    requires NoNewlines(line) && startCol < endCol && g == SliceStart(line, startCol)
        && e == SliceEnd(line, g, endCol, strict)
    requires Visible(PLAIN, text) == Visible(StyleAt(line, g), Between(line, g, e))
        && TextWidth(text) == TextWidth(Between(line, g, e))
    ensures ShowsColumns(line, startCol, endCol, strict, text)
  {
    PiecesAreRange(line, startCol, endCol, strict);
    if strict { StrictRangeFits(line, startCol, endCol); }
  }

  lemma AfterSettles(line: Text, afterStart: nat, afterEnd: nat, strictAfter: bool, g: nat, e: nat, after: Text,
                     codes: Text)
    requires NoNewlines(line) && afterStart < afterEnd
    requires g == SliceStart(line, afterStart) && e == SliceEnd(line, g, afterEnd, strictAfter)
    requires if g == e then after == []
             else Restores(codes, StyleAt(line, g)) && after == Glue(codes, Between(line, g, e))
    ensures ShowsColumns(line, afterStart, afterEnd, strictAfter, after) && NoNewlines(after)
  {
    if g == e {
      assert Between(line, g, e) == [];
    } else {
      BetweenHasNoNewlines(line, g, e);
      RestoredShows(codes, StyleAt(line, g), Between(line, g, e));
    }
    RangeSettles(line, afterStart, afterEnd, strictAfter, g, e, after);
  }

  /** Once the columns of the range are passed, or a cluster does not fit, the segment is whole. */
  lemma AfterDone(line: Text, afterStart: nat, afterLen: int, strictAfter: bool, i: nat, after: Text,
                  afterStarted: bool, codes: Text)
    requires i <= |line| && NoNewlines(line)
        && AfterPart(line, afterStart, afterLen, strictAfter, i, after, afterStarted, codes)
    requires afterLen > 0 ==> i == |line| || Ends(line, i, afterStart, afterStart + afterLen, strictAfter)
    ensures ShowsAfter(line, afterStart, afterLen, strictAfter, after)
  {
    if afterLen > 0 {
      var g := SliceStart(line, afterStart);
      EndsThere(line, i, afterStart, afterStart + afterLen, strictAfter, g);
      AfterSettles(line, afterStart, afterStart + afterLen, strictAfter, g,
                   SliceEnd(line, g, afterStart + afterLen, strictAfter), after, codes);
    }
  }

  /** Piece `i` stands behind the columns, or is a cluster in them that does not fit. */
  predicate Ends(line: Text, i: nat, startCol: nat, endCol: nat, strict: bool)
    requires i < |line|
  {
    Column(line, i) >= endCol
        || (line[i].Cluster? && Column(line, i) >= startCol && strict && Column(line, i + 1) > endCol)
  }

  lemma EndsThere(line: Text, i: nat, startCol: nat, endCol: nat, strict: bool, g: nat)
    requires i <= |line| && startCol < endCol && g == SliceStart(line, startCol)
    requires i == |line| || Ends(line, i, startCol, endCol, strict)
    ensures i <= g ==> SliceEnd(line, g, endCol, strict) == g
    ensures SliceEnd(line, i, endCol, strict) == i
  {
    if i < |line| && i <= g {
      ColumnsGrow(line, i, g);
      InFront(line, startCol, i);
    }
  }

  datatype Segments = Segments(before: Text, beforeWidth: nat, after: Text, afterWidth: nat)

  /** The pieces before the overlay, and behind it. */
  ghost predicate Extracted(line: Text, beforeEnd: nat, afterStart: nat, afterLen: int, strictAfter: bool, r: Segments)
  {
    var b := Reach(line, beforeEnd, 0);
    && Visible(PLAIN, r.before) == Visible(PLAIN, line[..b]) && r.before <= line
    && TextWidth(r.before) == Column(line, b) == r.beforeWidth
    && ShowsAfter(line, afterStart, afterLen, strictAfter, r.after) && TextWidth(r.after) == r.afterWidth
  }

  /** Both segments, in front of piece `i`. */
  ghost predicate Extracting(line: Text, beforeEnd: nat, afterStart: nat, afterLen: int, strictAfter: bool, i: nat,
                             r: Segments, pendingAnsiBefore: Text, afterStarted: bool, codes: Text)
    requires i <= |line|
  {
    && BeforePart(line, beforeEnd, i, r.before, pendingAnsiBefore)
    && AfterPart(line, afterStart, afterLen, strictAfter, i, r.after, afterStarted, codes)
    && r.beforeWidth == TextWidth(r.before) && r.afterWidth == TextWidth(r.after)
  }

  lemma ExtractingAtStart(line: Text, beforeEnd: nat, afterStart: nat, afterLen: int, strictAfter: bool, codes: Text)
    ensures Extracting(line, beforeEnd, afterStart, afterLen, strictAfter, 0, Segments([], 0, [], 0), [], false, codes)
    ensures Column(line, 0) == 0 && StyleAt(line, 0) == PLAIN
  {
    assert line[..0] == [] && [] + line[..0] == line[..0];
  }

  lemma ExtractedAt(line: Text, beforeEnd: nat, afterStart: nat, afterLen: int, strictAfter: bool, i: nat,
                    r: Segments, pendingAnsiBefore: Text, afterStarted: bool, codes: Text)
    requires i <= |line| && beforeEnd <= afterStart && NoNewlines(line)
    requires Extracting(line, beforeEnd, afterStart, afterLen, strictAfter, i, r, pendingAnsiBefore, afterStarted,
                        codes)
    requires i == |line|
        || (if afterLen <= 0 then Column(line, i) >= beforeEnd else Column(line, i) >= afterStart + afterLen)
    ensures Extracted(line, beforeEnd, afterStart, afterLen, strictAfter, r)
  {
    BeforeDone(line, beforeEnd, i, r.before, pendingAnsiBefore);
    AfterDone(line, afterStart, afterLen, strictAfter, i, r.after, afterStarted, codes);
  }

  lemma Widths(text: Text, codes: Text, piece: Piece)
    requires OnlyEscapes(codes)
    ensures TextWidth(text + codes + [piece]) == TextWidth(text) + (if piece.Cluster? then piece.g.width else 0)
  {
    EscapesAreWidthless(codes);
    ReadConcat(PLAIN, text, codes);
    ReadConcat(PLAIN, text + codes, [piece]);
    ReadOne(PLAIN, piece);
  }

  lemma TakeCode(line: Text, beforeEnd: nat, afterStart: nat, afterLen: int, strictAfter: bool, i: nat,
        r: Segments, pendingAnsiBefore: Text, afterStarted: bool, codes: Text)
    requires i < |line| && line[i].Escape? && beforeEnd <= afterStart
        && (afterLen > 0 ==> Column(line, i) < afterStart + afterLen)
    requires Extracting(line, beforeEnd, afterStart, afterLen, strictAfter, i, r, pendingAnsiBefore, afterStarted,
                        codes)
    ensures Extracting(line, beforeEnd, afterStart, afterLen, strictAfter, i + 1,
                       if afterStarted then r.(after := r.after + [line[i]]) else r,
                       if Column(line, i) < beforeEnd then pendingAnsiBefore + [line[i]]
                       else pendingAnsiBefore, afterStarted, codes)
  {
    BeforeCode(line, beforeEnd, i, r.before, pendingAnsiBefore);
    AfterCode(line, afterStart, afterLen, strictAfter, i, r.after, afterStarted, codes);
    AddCode(r.after, line[i]);
  }

  /** A code is tracked, and kept in its segment. */
  method ExtractEscape(line: Text, beforeEnd: nat, afterStart: nat, afterLen: int, strictAfter: bool, i: nat,
                       currentCol: nat, r: Segments, pendingAnsiBefore: Text, afterStarted: bool, ghost codes: Text,
                       tracker: AnsiCodeTracker)
    returns (newR: Segments, newPending: Text)
    requires i < |line| && line[i].Escape? && currentCol == Column(line, i) && beforeEnd <= afterStart
    requires Extracting(line, beforeEnd, afterStart, afterLen, strictAfter, i, r, pendingAnsiBefore, afterStarted,
                        codes)
    requires (afterLen > 0 ==> currentCol < afterStart + afterLen) && tracker.State() == StyleAt(line, i)
    modifies tracker
    ensures Extracting(line, beforeEnd, afterStart, afterLen, strictAfter, i + 1, newR, newPending, afterStarted, codes)
    ensures tracker.State() == StyleAt(line, i + 1)
  {
    newR, newPending := r, pendingAnsiBefore;
    assert line[..i + 1][..i] == line[..i];
    tracker.Process(line[i].code);
    TakeCode(line, beforeEnd, afterStart, afterLen, strictAfter, i, r, pendingAnsiBefore, afterStarted, codes);
    StartedBehind(line, beforeEnd, afterStart, afterLen, strictAfter, i, r.after, afterStarted, codes);
    if currentCol < beforeEnd {
      newPending := pendingAnsiBefore + [line[i]];
    } else if currentCol >= afterStart && currentCol < afterStart + afterLen && afterStarted {
      newR := r.(after := r.after + [line[i]]);
    }
  }

  /** The segment behind has only started when its columns are reached. */
  lemma StartedBehind(line: Text, beforeEnd: nat, afterStart: nat, afterLen: int, strictAfter: bool, i: nat,
                      after: Text, afterStarted: bool, codes: Text)
    requires i < |line| && AfterPart(line, afterStart, afterLen, strictAfter, i, after, afterStarted, codes)
        && beforeEnd <= afterStart
    ensures afterStarted ==> afterLen > 0 && Column(line, i) >= afterStart >= beforeEnd
  {
    var k, g := Reach(line, afterStart, 0), SliceStart(line, afterStart);
    if g < i { ColumnsGrow(line, k, i); }
  }

  lemma TakeBefore(line: Text, beforeEnd: nat, afterStart: nat, afterLen: int, strictAfter: bool, i: nat,
        r: Segments, pendingAnsiBefore: Text, afterStarted: bool, codes: Text)
    requires i < |line| && line[i].Cluster? && Column(line, i) < beforeEnd <= afterStart
    requires Extracting(line, beforeEnd, afterStart, afterLen, strictAfter, i, r, pendingAnsiBefore, afterStarted,
                        codes)
    ensures Extracting(line, beforeEnd, afterStart, afterLen, strictAfter, i + 1,
                       r.(before := r.before + pendingAnsiBefore + [line[i]],
                          beforeWidth := r.beforeWidth + line[i].g.width),
                       [], afterStarted, codes)
  {
    BeforeCluster(line, beforeEnd, i, r.before, pendingAnsiBefore);
    Widths(r.before, pendingAnsiBefore, line[i]);
    AfterPass(line, afterStart, afterLen, strictAfter, i, r.after, afterStarted, codes);
  }

  lemma TakeAfter(line: Text, beforeEnd: nat, afterStart: nat, afterLen: int, strictAfter: bool, i: nat,
        r: Segments, pendingAnsiBefore: Text, afterStarted: bool, codes: Text, newCodes: Text)
    requires i < |line| && line[i].Cluster? && beforeEnd <= afterStart <= Column(line, i) < afterStart + afterLen
    requires strictAfter ==> Column(line, i + 1) <= afterStart + afterLen
    requires Extracting(line, beforeEnd, afterStart, afterLen, strictAfter, i, r, pendingAnsiBefore, afterStarted,
                        codes)
    requires if afterStarted then newCodes == [] else Restores(newCodes, StyleAt(line, i))
    ensures Extracting(line, beforeEnd, afterStart, afterLen, strictAfter, i + 1,
                       r.(after := r.after + newCodes + [line[i]], afterWidth := r.afterWidth + line[i].g.width),
                       pendingAnsiBefore, true, if afterStarted then codes else newCodes)
  {
    BeforeCluster(line, beforeEnd, i, r.before, pendingAnsiBefore);
    AfterTake(line, afterStart, afterLen, strictAfter, i, r.after, afterStarted, codes, newCodes);
    Widths(r.after, newCodes, line[i]);
  }

  lemma StopAfter(line: Text, beforeEnd: nat, afterStart: nat, afterLen: int, strictAfter: bool, i: nat,
        r: Segments, pendingAnsiBefore: Text, afterStarted: bool, codes: Text)
    requires i < |line| && line[i].Cluster? && beforeEnd <= afterStart <= Column(line, i) < afterStart + afterLen
    requires strictAfter && Column(line, i + 1) > afterStart + afterLen && NoNewlines(line)
    requires Extracting(line, beforeEnd, afterStart, afterLen, strictAfter, i, r, pendingAnsiBefore, afterStarted,
                        codes)
    ensures Extracted(line, beforeEnd, afterStart, afterLen, strictAfter, r)
  {
    BeforeCluster(line, beforeEnd, i, r.before, pendingAnsiBefore);
    AfterDone(line, afterStart, afterLen, strictAfter, i, r.after, afterStarted, codes);
    BeforeDone(line, beforeEnd, i + 1, r.before, pendingAnsiBefore);
  }

  lemma PassCluster(line: Text, beforeEnd: nat, afterStart: nat, afterLen: int, strictAfter: bool, i: nat,
        r: Segments, pendingAnsiBefore: Text, afterStarted: bool, codes: Text)
    requires i < |line| && line[i].Cluster? && beforeEnd <= Column(line, i)
    requires afterLen > 0 ==> Column(line, i) < afterStart
    requires Extracting(line, beforeEnd, afterStart, afterLen, strictAfter, i, r, pendingAnsiBefore, afterStarted,
                        codes)
    ensures Extracting(line, beforeEnd, afterStart, afterLen, strictAfter, i + 1, r, pendingAnsiBefore, afterStarted,
                       codes)
  {
    BeforeCluster(line, beforeEnd, i, r.before, pendingAnsiBefore);
    AfterPass(line, afterStart, afterLen, strictAfter, i, r.after, afterStarted, codes);
  }

  /** The codes active where the segment starts restore the style there. */
  method RestoringCodes(tracker: AnsiCodeTracker, ghost line: Text, ghost i: nat) returns (codes: Text)
    requires i <= |line| && tracker.State() == StyleAt(line, i)
    ensures Restores(codes, StyleAt(line, i))
  {
    var active := tracker.GetActiveCodes();
    codes := Escapes(active);
    ReadReachable(PLAIN, line[..i]);
    ReadActive(StyleAt(line, i));
  }

  /** The cluster stands behind the overlay and crosses the end of the segment there. */
  predicate Stops(line: Text, beforeEnd: nat, afterStart: nat, afterLen: int, strictAfter: bool, i: nat)
    requires i < |line|
  {
    && beforeEnd <= Column(line, i) && afterStart <= Column(line, i) < afterStart + afterLen
    && strictAfter && Column(line, i + 1) > afterStart + afterLen
  }

  /** A cluster behind the overlay, behind the codes active there if it is the first. */
  method ExtractBehind(line: Text, beforeEnd: nat, afterStart: nat, afterLen: int, strictAfter: bool, i: nat,
                       r: Segments, ghost pendingAnsiBefore: Text, afterStarted: bool, ghost codes: Text,
                       tracker: AnsiCodeTracker)
    returns (newR: Segments, ghost newCodes: Text)
    requires i < |line| && line[i].Cluster? && beforeEnd <= afterStart <= Column(line, i) < afterStart + afterLen
    requires strictAfter ==> Column(line, i + 1) <= afterStart + afterLen
    requires Extracting(line, beforeEnd, afterStart, afterLen, strictAfter, i, r, pendingAnsiBefore, afterStarted,
                        codes)
    requires tracker.State() == StyleAt(line, i)
    ensures newR.before == r.before && r.after < newR.after && newR.after[|newR.after| - 1] == line[i]
    ensures newR.afterWidth == r.afterWidth + line[i].g.width
    ensures Extracting(line, beforeEnd, afterStart, afterLen, strictAfter, i + 1, newR, pendingAnsiBefore, true,
                       newCodes)
  {
    var lead: Text := [];
    newCodes := codes;
    if !afterStarted {
      lead := RestoringCodes(tracker, line, i);
      newCodes := lead;
    }
    TakeAfter(line, beforeEnd, afterStart, afterLen, strictAfter, i, r, pendingAnsiBefore, afterStarted, codes, lead);
    newR := r.(after := r.after + lead + [line[i]], afterWidth := r.afterWidth + line[i].g.width);
  }

  /** A cluster goes to the segment its column belongs to. One that would cross the end stops the
      segment behind. */
  method ExtractCluster(line: Text, beforeEnd: nat, afterStart: nat, afterLen: int, strictAfter: bool, i: nat,
                        currentCol: nat, r: Segments, pendingAnsiBefore: Text, afterStarted: bool, ghost codes: Text,
                        tracker: AnsiCodeTracker)
    returns (newR: Segments, newPending: Text, newStarted: bool, ghost newCodes: Text, stopped: bool)
    requires i < |line| && line[i].Cluster? && NoNewlines(line) && currentCol == Column(line, i)
        && beforeEnd <= afterStart
    requires Extracting(line, beforeEnd, afterStart, afterLen, strictAfter, i, r, pendingAnsiBefore, afterStarted,
                        codes)
    requires (afterLen > 0 ==> currentCol < afterStart + afterLen) && tracker.State() == StyleAt(line, i)
    ensures tracker.State() == StyleAt(line, i + 1)
    ensures stopped <==> Stops(line, beforeEnd, afterStart, afterLen, strictAfter, i)
    ensures stopped ==> newR == r && Extracted(line, beforeEnd, afterStart, afterLen, strictAfter, newR)
    ensures !stopped ==>
        Extracting(line, beforeEnd, afterStart, afterLen, strictAfter, i + 1, newR, newPending, newStarted, newCodes)
  {
    newR, newPending, newStarted, newCodes, stopped := r, pendingAnsiBefore, afterStarted, codes, false;
    var w := line[i].g.width;
    assert line[..i + 1][..i] == line[..i];
    ColumnStep(line, i);
    if currentCol < beforeEnd {
      TakeBefore(line, beforeEnd, afterStart, afterLen, strictAfter, i, r, pendingAnsiBefore, afterStarted, codes);
      newR := r.(before := r.before + pendingAnsiBefore + [line[i]], beforeWidth := r.beforeWidth + w);
      newPending := [];
    } else if currentCol >= afterStart && currentCol < afterStart + afterLen {
      var fits := !strictAfter || currentCol + w <= afterStart + afterLen;
      if fits {
        newR, newCodes := ExtractBehind(line, beforeEnd, afterStart, afterLen, strictAfter, i,
                                        r, pendingAnsiBefore, afterStarted, codes, tracker);
        newStarted := true;
      } else {
        StopAfter(line, beforeEnd, afterStart, afterLen, strictAfter, i, r, pendingAnsiBefore, afterStarted, codes);
        stopped := true;
      }
    } else {
      PassCluster(line, beforeEnd, afterStart, afterLen, strictAfter, i, r, pendingAnsiBefore, afterStarted, codes);
    }
  }

  /** One piece; `done` once the columns of both segments are passed. */
  method ExtractPiece(line: Text, beforeEnd: nat, afterStart: nat, afterLen: int, strictAfter: bool, i: nat,
                      currentCol: nat, r: Segments, pendingAnsiBefore: Text, afterStarted: bool, ghost codes: Text,
                      tracker: AnsiCodeTracker)
    returns (newR: Segments, newPending: Text, newStarted: bool, ghost newCodes: Text, newCol: nat, done: bool)
    requires i < |line| && NoNewlines(line) && currentCol == Column(line, i) && beforeEnd <= afterStart
    requires Extracting(line, beforeEnd, afterStart, afterLen, strictAfter, i, r, pendingAnsiBefore, afterStarted,
                        codes)
    requires (afterLen > 0 ==> currentCol < afterStart + afterLen) && tracker.State() == StyleAt(line, i)
    modifies tracker
    ensures tracker.State() == StyleAt(line, i + 1) && newCol == Column(line, i + 1)
    ensures done <==> line[i].Cluster?
                      && if afterLen <= 0 then newCol >= beforeEnd else newCol >= afterStart + afterLen
    ensures done ==> Extracted(line, beforeEnd, afterStart, afterLen, strictAfter, newR)
    ensures !done ==>
        Extracting(line, beforeEnd, afterStart, afterLen, strictAfter, i + 1, newR, newPending, newStarted, newCodes)
    ensures !done && afterLen > 0 ==> newCol < afterStart + afterLen
  {
    ColumnStep(line, i);
    newStarted, newCodes, newCol, done := afterStarted, codes, currentCol, false;
    if line[i].Escape? {
      newR, newPending := ExtractEscape(line, beforeEnd, afterStart, afterLen, strictAfter, i, currentCol,
                                        r, pendingAnsiBefore, afterStarted, codes, tracker);
    } else {
      var stopped;
      newR, newPending, newStarted, newCodes, stopped :=
        ExtractCluster(line, beforeEnd, afterStart, afterLen, strictAfter, i, currentCol,
                       r, pendingAnsiBefore, afterStarted, codes, tracker);
      newCol := currentCol + line[i].g.width;
      done := if afterLen <= 0 then newCol >= beforeEnd else newCol >= afterStart + afterLen;
      if done && !stopped {
        ExtractedAt(line, beforeEnd, afterStart, afterLen, strictAfter, i + 1, newR, newPending, newStarted, newCodes);
      }
    }
  }

  method ExtractSegments(line: Text, beforeEnd: nat, afterStart: nat, afterLen: int, strictAfter: bool)
      returns (r: Segments)
    requires NoNewlines(line) && beforeEnd <= afterStart
    ensures Extracted(line, beforeEnd, afterStart, afterLen, strictAfter, r)
  {
    r := Segments([], 0, [], 0);
    var currentCol := 0;
    var pendingAnsiBefore: Text := [];
    var afterStarted := false;
    var tracker := new AnsiCodeTracker();
    ghost var codes: Text := [];
    ExtractingAtStart(line, beforeEnd, afterStart, afterLen, strictAfter, codes);
    for i := 0 to |line|
      invariant fresh(tracker) && tracker.State() == StyleAt(line, i)
      invariant currentCol == Column(line, i) && (afterLen > 0 ==> currentCol < afterStart + afterLen)
      invariant Extracting(line, beforeEnd, afterStart, afterLen, strictAfter, i, r, pendingAnsiBefore, afterStarted,
                           codes)
    {
      var done;
      r, pendingAnsiBefore, afterStarted, codes, currentCol, done :=
        ExtractPiece(line, beforeEnd, afterStart, afterLen, strictAfter, i, currentCol,
                     r, pendingAnsiBefore, afterStarted, codes, tracker);
      if done {
        return;
      }
    }
    ExtractedAt(line, beforeEnd, afterStart, afterLen, strictAfter, |line|, r, pendingAnsiBefore, afterStarted, codes);
  }
}
