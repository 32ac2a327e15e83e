/** One line of an overlay put into one line of the screen. */
module Composite {
  import opened Common
  import opened Ansi
  import opened StyledText
  import opened Wrap
  import opened Splice
  import opened Overlay

  const SPACE := Grapheme(" ", 1, true, true, false)

  const SEGMENT_RESET: Text := [Escape(Sgr(["0"])), Escape(Osc8("", "", "\U{07}"))]

  function Spaces(n: nat): (r: Text)
    ensures |r| == n && forall k :: 0 <= k < n ==> r[k] == Cluster(SPACE)
  {
    seq(n, k => Cluster(SPACE))
  }

  /** Spaces shown in one style. */
  function Gap(n: nat, style: Style): (r: seq<Shown>)
    ensures |r| == n && forall k :: 0 <= k < n ==> r[k] == Shown(SPACE, style)
  {
    seq(n, k => Shown(SPACE, style))
  }

  lemma {:induction false} SpacesShow(n: nat, s: Style)
    ensures Visible(s, Spaces(n)) == Gap(n, s) && StyleAfter(s, Spaces(n)) == s && TextWidth(Spaces(n)) == n
  {
    if n > 0 {
      SpacesShow(n - 1, s);
      assert Spaces(n)[..n - 1] == Spaces(n - 1);
      assert Gap(n, s) == Gap(n - 1, s) + [Shown(SPACE, s)];
    }
  }

  /** Behind a segment reset nothing of the style before is left. */
  lemma ResetsToPlain(s: Style)
    ensures StyleAfter(s, SEGMENT_RESET) == PLAIN && Visible(s, SEGMENT_RESET) == [] && TextWidth(SEGMENT_RESET) == 0
  {
    var first, second := SEGMENT_RESET[0], SEGMENT_RESET[1];
    assert SEGMENT_RESET == [first] + [second];
    ReadOne(s, first);
    ReadOne(Process(s, first.code), second);
    ReadConcat(s, [first], [second]);
    ReadOne(PLAIN, first);
    ReadOne(PLAIN, second);
  }

  // ---- widths ----

  lemma StrictSliceFits(line: Text, startCol: nat, endCol: nat)
    requires startCol <= endCol
    ensures TextWidth(SliceText(line, startCol, endCol, true)) <= endCol - startCol
  {
    var k, f := Reach(line, startCol, 0), SliceStart(line, startCol);
    var e := SliceEnd(line, f, endCol, true);
    StrictRangeFits(line, startCol, endCol);
    RangeWidth(line, k, f);
    NoClusters(line, k, f);
    if Column(line, k) < endCol && e > f {
      CodesAreWidthless(line[..k]);
      GlueIs(Between(line, k, f), Codes(line[..k]));
      GlueIs(Between(line, k, f) + Codes(line[..k]), Between(line, f, e));
      ReadConcat(PLAIN, Between(line, k, f), Codes(line[..k]));
      ReadConcat(PLAIN, Between(line, k, f) + Codes(line[..k]), Between(line, f, e));
    }
  }

  lemma {:induction false} NoClusters(line: Text, i: nat, j: nat)
    requires i <= j <= |line| && forall k :: i <= k < j ==> !line[k].Cluster?
    ensures Column(line, i) == Column(line, j)
    decreases j - i
  {
    if i < j {
      ColumnStep(line, i);
      NoClusters(line, i + 1, j);
    }
  }

  // ---- the composed line ----

  function Composed(before: Text, beforePad: nat, overlay: Text, overlayPad: nat, after: Text, afterPad: nat): Text {
    Glue(Glue(Segment(Segment([], before, beforePad), overlay, overlayPad), after), Spaces(afterPad))
  }

  /** A padded text with a reset behind it. */
  function Segment(front: Text, text: Text, pad: nat): Text
  {
    Glue(Glue(Glue(front, text), Spaces(pad)), SEGMENT_RESET)
  }

  predicate IsGap(shown: seq<Shown>, lo: nat, hi: nat)
  {
    hi <= |shown| && forall k :: lo <= k < hi ==> shown[k].g == SPACE
  }

  /** `part` is the stretch of `whole` that starts at `lo`. */
  predicate IsPart(part: seq<Shown>, whole: seq<Shown>, lo: nat) {
    lo + |part| <= |whole| && forall k :: 0 <= k < |part| ==> SameAt(part, whole, lo, k)
  }

  predicate SameAt(part: seq<Shown>, whole: seq<Shown>, lo: nat, k: nat)
    requires k < |part| && lo + k < |whole|
  {
    part[k] == whole[lo + k]
  }

  /** Base, gap, overlay, gap, base, gap. */
  predicate ShowsSplice(shown: seq<Shown>, before: seq<Shown>, gap1: nat, overlay: seq<Shown>, gap2: nat,
                        after: seq<Shown>, gap3: nat)
  {
    var a := |before|;
    var b := a + gap1;
    var c := b + |overlay|;
    var d := c + gap2;
    var e := d + |after|;
    && |shown| == e + gap3
    && IsPart(before, shown, 0) && IsGap(shown, a, b) && IsPart(overlay, shown, b)
    && IsGap(shown, c, d) && IsPart(after, shown, d) && IsGap(shown, e, |shown|)
  }

  lemma SixParts(before: seq<Shown>, g1: seq<Shown>, overlay: seq<Shown>, g2: seq<Shown>, after: seq<Shown>,
                 g3: seq<Shown>)
    requires IsGap(g1, 0, |g1|) && IsGap(g2, 0, |g2|) && IsGap(g3, 0, |g3|)
    ensures ShowsSplice(before + g1 + overlay + g2 + after + g3, before, |g1|, overlay, |g2|, after, |g3|)
  {
    var shown := before + g1 + overlay + g2 + after + g3;
    var c := |before| + |g1| + |overlay|;
    forall k | 0 <= k < |g1| ensures shown[|before| + k] == g1[k] {}
    forall k | 0 <= k < |g2| ensures shown[c + k] == g2[k] {}
    forall k | 0 <= k < |g3| ensures shown[c + |g2| + |after| + k] == g3[k] {}
    forall k | |before| <= k < |before| + |g1| ensures shown[k].g == SPACE
    {
      assert shown[|before| + (k - |before|)] == g1[k - |before|];
    }
    forall k | c <= k < c + |g2| ensures shown[k].g == SPACE { assert shown[c + (k - c)] == g2[k - c]; }
    var e := c + |g2| + |after|;
    forall k | e <= k < |shown| ensures shown[k].g == SPACE { assert shown[e + (k - e)] == g3[k - e]; }
  }

  /** Text behind a text, when it is read in style `s` there. */
  lemma ShowsNext(front: Text, more: Text, s: Style)
    requires StyleAfter(PLAIN, front) == s
    ensures Visible(PLAIN, Glue(front, more)) == Visible(PLAIN, front) + Visible(s, more)
    ensures StyleAfter(PLAIN, Glue(front, more)) == StyleAfter(s, more)
    ensures TextWidth(Glue(front, more)) == TextWidth(front) + TextWidth(more)
  {
    GlueIs(front, more);
    ReadConcat(PLAIN, front, more);
  }

  /** Padded text with a reset behind it. */
  lemma SegmentShows(front: Text, more: Text, pad: nat)
    requires StyleAfter(PLAIN, front) == PLAIN
    ensures Visible(PLAIN, Segment(front, more, pad))
         == Visible(PLAIN, front) + Visible(PLAIN, more) + Gap(pad, StyleAfter(PLAIN, more))
    ensures StyleAfter(PLAIN, Segment(front, more, pad)) == PLAIN
    ensures TextWidth(Segment(front, more, pad)) == TextWidth(front) + TextWidth(more) + pad
  {
    var s := StyleAfter(PLAIN, more);
    ShowsNext(front, more, PLAIN);
    SpacesShow(pad, s);
    ShowsNext(Glue(front, more), Spaces(pad), s);
    ResetsToPlain(s);
    ShowsNext(Glue(Glue(front, more), Spaces(pad)), SEGMENT_RESET, s);
    var shown := Visible(PLAIN, front) + Visible(PLAIN, more) + Gap(pad, s);
    assert shown + [] == shown;
  }

  lemma ComposedShows(before: Text, beforePad: nat, overlay: Text, overlayPad: nat, after: Text, afterPad: nat)
    ensures ShowsSplice(Visible(PLAIN, Composed(before, beforePad, overlay, overlayPad, after, afterPad)),
                        Visible(PLAIN, before), beforePad, Visible(PLAIN, overlay), overlayPad, Visible(PLAIN, after),
                            afterPad)
    ensures TextWidth(Composed(before, beforePad, overlay, overlayPad, after, afterPad))
         == TextWidth(before) + beforePad + TextWidth(overlay) + overlayPad + TextWidth(after) + afterPad
  {
    var one := Segment([], before, beforePad);
    SegmentShows([], before, beforePad);
    var two := Segment(one, overlay, overlayPad);
    SegmentShows(one, overlay, overlayPad);
    var s := StyleAfter(PLAIN, after);
    ShowsNext(two, after, PLAIN);
    SpacesShow(afterPad, s);
    ShowsNext(Glue(two, after), Spaces(afterPad), s);
    var start := Visible(PLAIN, before);
    assert [] + start == start;
    SixParts(start, Gap(beforePad, StyleAfter(PLAIN, before)), Visible(PLAIN, overlay),
             Gap(overlayPad, StyleAfter(PLAIN, overlay)),
             Visible(PLAIN, after), Gap(afterPad, s));
  }

  /** A pad is never negative. */
  function Pad(n: int): nat { if n < 0 then 0 else n }

  /** No cluster of the base line crosses into the overlay, and the overlay lies inside the screen. */
  predicate SplicesCleanly(baseLine: Text, startCol: nat, overlayWidth: nat, totalWidth: nat) {
    Column(baseLine, Reach(baseLine, startCol, 0)) <= startCol && startCol + overlayWidth <= totalWidth
  }

  /** What a line itself shows in some columns. */
  function ColumnsShown(line: Text, startCol: nat, endCol: nat): seq<Shown> {
    if startCol < endCol then RangeShown(line, startCol, endCol, true) else []
  }

  /** What a line itself shows up to a column. */
  function StartShown(line: Text, endCol: nat): seq<Shown> { RangeShown(line, 0, endCol, false) }

  lemma {:induction false} StartUpTo(line: Text, endCol: nat, i: nat)
    requires i <= |line|
    ensures var b := Reach(line, endCol, 0);
            Stretch(Visible(PLAIN, line[..i]), 0, endCol, false) == Visible(PLAIN, line[..if i <= b then i else b])
  {
    if i > 0 {
      StartUpTo(line, endCol, i - 1);
      assert line[..i][..i - 1] == line[..i - 1] && line[..i][i - 1] == line[i - 1];
      if line[i - 1].Cluster? {
        InFront(line, endCol, i - 1);
        ShownIsWide(PLAIN, line[..i - 1]);
        StretchAppend(Visible(PLAIN, line[..i - 1]), Shown(line[i - 1].g, StyleAfter(PLAIN, line[..i - 1])), 0,
                      endCol, false);
      }
    }
  }

  lemma StartIsShown(line: Text, endCol: nat)
    ensures Visible(PLAIN, line[..Reach(line, endCol, 0)]) == StartShown(line, endCol)
  {
    StartUpTo(line, endCol, |line|);
    assert line[..|line|] == line;
  }

  /** What a splice shows: the base up to the overlay, the overlay, and the base behind it, all in their own styles,
      with gaps where they are short. A base cluster that crosses into the overlay pushes it to the right. */
  predicate Spliced(shown: seq<Shown>, baseLine: Text, overlayLine: Text, startCol: nat, overlayWidth: nat,
                    totalWidth: nat)
  {
    SplicedParts(shown, StartShown(baseLine, startCol), ColumnsShown(overlayLine, 0, overlayWidth),
                 ColumnsShown(baseLine, startCol + overlayWidth, totalWidth), startCol, overlayWidth, totalWidth)
  }

  /** Three parts, each padded to the columns it has. */
  predicate SplicedParts(shown: seq<Shown>, before: seq<Shown>, overlay: seq<Shown>, after: seq<Shown>,
                         startCol: nat, overlayWidth: nat, totalWidth: nat)
  {
    ShowsSplice(shown, before, Pad(startCol - ShownWidth(before)), overlay, Pad(overlayWidth - ShownWidth(overlay)),
                after, Pad(totalWidth - Max(startCol, ShownWidth(before)) - overlayWidth - ShownWidth(after)))
  }

  lemma {:induction false} CodesHaveNoNewlines(text: Text)
    ensures NoNewlines(Codes(text))
    decreases |text|
  {
    if text != [] { CodesHaveNoNewlines(text[..|text| - 1]); }
  }

  lemma SliceHasNoNewlines(line: Text, startCol: nat, endCol: nat)
    requires NoNewlines(line)
    ensures NoNewlines(SliceText(line, startCol, endCol, true))
  {
    var k, f := Reach(line, startCol, 0), SliceStart(line, startCol);
    var e := SliceEnd(line, f, endCol, true);
    BetweenHasNoNewlines(line, k, f);
    BetweenHasNoNewlines(line, f, e);
    CodesHaveNoNewlines(line[..k]);
    GlueHasNoNewlines(Between(line, k, f), Codes(line[..k]));
    GlueHasNoNewlines(Glue(Between(line, k, f), Codes(line[..k])), Between(line, f, e));
  }

  lemma SegmentHasNoNewlines(front: Text, text: Text, pad: nat)
    requires NoNewlines(front) && NoNewlines(text)
    ensures NoNewlines(Segment(front, text, pad))
  {
    GlueHasNoNewlines(front, text);
    GlueHasNoNewlines(Glue(front, text), Spaces(pad));
    GlueHasNoNewlines(Glue(Glue(front, text), Spaces(pad)), SEGMENT_RESET);
  }

  lemma ComposedHasNoNewlines(before: Text, n1: nat, overlay: Text, n2: nat, after: Text, n3: nat)
    requires NoNewlines(before) && NoNewlines(overlay) && NoNewlines(after)
    ensures NoNewlines(Composed(before, n1, overlay, n2, after, n3))
  {
    SegmentHasNoNewlines([], before, n1);
    SegmentHasNoNewlines(Segment([], before, n1), overlay, n2);
    GlueHasNoNewlines(Segment(Segment([], before, n1), overlay, n2), after);
    GlueHasNoNewlines(Glue(Segment(Segment([], before, n1), overlay, n2), after), Spaces(n3));
  }

  /** The base parts show what the base line shows there, and fit. */
  ghost predicate BaseParts(baseLine: Text, startCol: nat, afterStart: nat, totalWidth: nat, base: Segments) {
    && Visible(PLAIN, base.before) == StartShown(baseLine, startCol)
    && base.beforeWidth == TextWidth(base.before) == Column(baseLine, Reach(baseLine, startCol, 0))
    && Visible(PLAIN, base.after) == ColumnsShown(baseLine, afterStart, totalWidth)
    && base.afterWidth == TextWidth(base.after) <= Pad(totalWidth - afterStart)
    && NoNewlines(base.before) && NoNewlines(base.after)
  }

  /** The overlay part shows what the overlay line shows there, and fits. */
  ghost predicate OverlayPart(overlayLine: Text, overlayWidth: nat, overlay: Text) {
    Visible(PLAIN, overlay) == ColumnsShown(overlayLine, 0, overlayWidth) && TextWidth(overlay) <= overlayWidth
        && NoNewlines(overlay)
  }

  lemma OverlayShows(overlayLine: Text, overlayWidth: nat, overlay: Text)
    requires overlay == if overlayWidth == 0 then [] else SliceText(overlayLine, 0, overlayWidth, true)
    ensures Visible(PLAIN, overlay) == ColumnsShown(overlayLine, 0, overlayWidth)
  {
    if overlayWidth > 0 { SliceFromStartKeepsStyles(overlayLine, overlayWidth, true); }
  }

  /** The parts are composed as a splice; if they fit their columns, to the full width. */
  lemma PartsCompose(before: Text, overlay: Text, after: Text, startCol: nat, overlayWidth: nat, totalWidth: nat)
    requires TextWidth(overlay) <= overlayWidth
    ensures var r := Composed(before, Pad(startCol - TextWidth(before)), overlay,
                              Pad(overlayWidth - TextWidth(overlay)), after,
                              Pad(totalWidth - Max(startCol, TextWidth(before)) - overlayWidth - TextWidth(after)));
            && SplicedParts(Visible(PLAIN, r), Visible(PLAIN, before), Visible(PLAIN, overlay), Visible(PLAIN, after),
                            startCol, overlayWidth, totalWidth)
            && (TextWidth(before) <= startCol && startCol + overlayWidth + TextWidth(after) <= totalWidth ==>
                  TextWidth(r) == totalWidth)
  {
    ShownIsWide(PLAIN, before);
    ShownIsWide(PLAIN, overlay);
    ShownIsWide(PLAIN, after);
    ComposedShows(before, Pad(startCol - TextWidth(before)), overlay, Pad(overlayWidth - TextWidth(overlay)), after,
                  Pad(totalWidth - Max(startCol, TextWidth(before)) - overlayWidth - TextWidth(after)));
  }

  /** Put the parts together, padded to their target widths. */
  method Compose(baseLine: Text, overlayLine: Text, startCol: nat, overlayWidth: nat, totalWidth: nat,
                 base: Segments, overlayText: Text, overlayTextWidth: nat) returns (result: Text)
    requires BaseParts(baseLine, startCol, startCol + overlayWidth, totalWidth, base)
    requires OverlayPart(overlayLine, overlayWidth, overlayText) && overlayTextWidth == TextWidth(overlayText)
    ensures Spliced(Visible(PLAIN, result), baseLine, overlayLine, startCol, overlayWidth, totalWidth)
    ensures SplicesCleanly(baseLine, startCol, overlayWidth, totalWidth) ==> TextWidth(result) == totalWidth
    ensures NoNewlines(result)
  {
    var beforePad := Pad(startCol - base.beforeWidth);
    var overlayPad := Pad(overlayWidth - overlayTextWidth);
    var actualBeforeWidth := Max(startCol, base.beforeWidth);
    var actualOverlayWidth := Max(overlayWidth, overlayTextWidth);
    var afterTarget := Pad(totalWidth - actualBeforeWidth - actualOverlayWidth);
    var afterPad := Pad(afterTarget - base.afterWidth);
    result := Composed(base.before, beforePad, overlayText, overlayPad, base.after, afterPad);
    PartsCompose(base.before, overlayText, base.after, startCol, overlayWidth, totalWidth);
    ComposedHasNoNewlines(base.before, beforePad, overlayText, overlayPad, base.after, afterPad);
  }

  lemma OverlayFits(overlayLine: Text, overlayWidth: nat, overlay: Text)
    requires NoNewlines(overlayLine)
    requires overlay == if overlayWidth == 0 then [] else SliceText(overlayLine, 0, overlayWidth, true)
    ensures TextWidth(overlay) <= overlayWidth && NoNewlines(overlay)
  {
    StrictSliceFits(overlayLine, 0, overlayWidth);
    SliceHasNoNewlines(overlayLine, 0, overlayWidth);
  }

  /** The segments are the base parts. */
  lemma SegmentsAreParts(line: Text, startCol: nat, afterStart: nat, totalWidth: nat, base: Segments)
    requires NoNewlines(line) && Extracted(line, startCol, afterStart, totalWidth - afterStart, true, base)
    ensures BaseParts(line, startCol, afterStart, totalWidth, base)
  {
    StartIsShown(line, startCol);
  }

  method CutBase(baseLine: Text, startCol: nat, afterStart: nat, totalWidth: nat) returns (base: Segments)
    requires NoNewlines(baseLine) && startCol <= afterStart
    ensures BaseParts(baseLine, startCol, afterStart, totalWidth, base)
  {
    base := ExtractSegments(baseLine, startCol, afterStart, totalWidth - afterStart, true);
    SegmentsAreParts(baseLine, startCol, afterStart, totalWidth, base);
  }

  method CutOverlay(overlayLine: Text, overlayWidth: nat) returns (overlay: Text, width: nat)
    requires NoNewlines(overlayLine)
    ensures OverlayPart(overlayLine, overlayWidth, overlay) && width == TextWidth(overlay)
  {
    overlay, width := SliceWithWidth(overlayLine, 0, overlayWidth, true);
    OverlayFits(overlayLine, overlayWidth, overlay);
    OverlayShows(overlayLine, overlayWidth, overlay);
  }

  /** Cut base and overlay, and compose the parts. */
  method ComposeAt(baseLine: Text, overlayLine: Text, startCol: nat, overlayWidth: nat, totalWidth: nat)
      returns (result: Text)
    requires NoNewlines(baseLine) && NoNewlines(overlayLine)
    ensures Spliced(Visible(PLAIN, result), baseLine, overlayLine, startCol, overlayWidth, totalWidth)
    ensures SplicesCleanly(baseLine, startCol, overlayWidth, totalWidth) ==> TextWidth(result) == totalWidth
    ensures NoNewlines(result)
  {
    var afterStart := startCol + overlayWidth;
    var base := CutBase(baseLine, startCol, afterStart, totalWidth);
    var overlayText, overlayTextWidth := CutOverlay(overlayLine, overlayWidth);
    result := Compose(baseLine, overlayLine, startCol, overlayWidth, totalWidth, base, overlayText, overlayTextWidth);
  }

  /** All of `whole` if it fits, else the clusters of it that end within the columns. */
  predicate CutTo(shown: seq<Shown>, whole: seq<Shown>, columns: nat) {
    shown == if ShownWidth(whole) <= columns then whole
             else if columns == 0 then []
             else Stretch(whole, 0, columns, true)
  }

  /** The composed line never exceeds the terminal: it shows base, overlay and base in their own styles, as far as
      they fit. When no base cluster crosses into the overlay and the overlay lies on the screen, all of it fits and
      is exactly as wide as the terminal; with single-column clusters it shows them column by column. */
  method CompositeLineAt(baseLine: Text, overlayLine: Text, startCol: nat, overlayWidth: nat, totalWidth: nat,
                         baseIsImage: bool)
    returns (result: Text)
    requires NoNewlines(baseLine) && NoNewlines(overlayLine)
    ensures baseIsImage ==> result == baseLine
    ensures !baseIsImage ==> TextWidth(result) <= totalWidth
    ensures !baseIsImage ==>
              exists whole :: Spliced(whole, baseLine, overlayLine, startCol, overlayWidth, totalWidth)
                              && CutTo(Visible(PLAIN, result), whole, totalWidth)
    ensures !baseIsImage && SplicesCleanly(baseLine, startCol, overlayWidth, totalWidth) ==>
              TextWidth(result) == totalWidth
              && Spliced(Visible(PLAIN, result), baseLine, overlayLine, startCol, overlayWidth, totalWidth)
    ensures !baseIsImage && SingleColumn(baseLine) && SingleColumn(overlayLine)
            && startCol + overlayWidth <= totalWidth ==>
              RowIsSpliced(Visible(PLAIN, result), Visible(PLAIN, baseLine), Visible(PLAIN, overlayLine), startCol,
                           overlayWidth, totalWidth)
  {
    if baseIsImage {
      return baseLine;
    }
    result := ComposeAt(baseLine, overlayLine, startCol, overlayWidth, totalWidth);
    if SingleColumn(baseLine) && SingleColumn(overlayLine) && startCol + overlayWidth <= totalWidth {
      SingleColumnsSplice(Visible(PLAIN, result), baseLine, overlayLine, startCol, overlayWidth, totalWidth);
    }
    ghost var whole := Visible(PLAIN, result);
    ShownIsWide(PLAIN, result);
    var resultWidth := TextWidth(result);
    if resultWidth > totalWidth {
      result := CutToWidth(result, totalWidth);
    }
    assert CutTo(Visible(PLAIN, result), whole, totalWidth);
  }

  method CutToWidth(line: Text, totalWidth: nat) returns (result: Text)
    requires NoNewlines(line)
    ensures TextWidth(result) <= totalWidth
    ensures Visible(PLAIN, result) == if totalWidth == 0 then [] else Stretch(Visible(PLAIN, line), 0, totalWidth, true)
  {
    StrictSliceFits(line, 0, totalWidth);
    if totalWidth > 0 { SliceFromStartKeepsStyles(line, totalWidth, true); }
    var cut, _ := SliceWithWidth(line, 0, totalWidth, true);
    result := cut;
  }

  // ---- single columns ----

  /** Every cluster takes one column. */
  predicate SingleColumn(text: Text) { forall k :: 0 <= k < |text| && text[k].Cluster? ==> text[k].g.width == 1 }

  lemma {:induction false} ReachExactly(line: Text, col: nat, i: nat)
    requires SingleColumn(line) && i <= |line| && Column(line, i) <= col
    ensures Column(line, Reach(line, col, i)) == Min(col, TextWidth(line))
    decreases |line| - i
  {
    assert line[..|line|] == line;
    ColumnsGrow(line, i, |line|);
    if i < |line| && Column(line, i) < col {
      ColumnStep(line, i);
      ReachExactly(line, col, i + 1);
    }
  }

  lemma {:induction false} SingleWidths(shown: seq<Shown>)
    requires forall x <- shown :: x.g.width == 1
    ensures ShownWidth(shown) == |shown|
  {
    if shown != [] { SingleWidths(shown[..|shown| - 1]); }
  }

  lemma {:induction false} ShownAreSingle(s: Style, text: Text)
    requires SingleColumn(text)
    ensures forall x <- Visible(s, text) :: x.g.width == 1
    decreases |text|
  {
    if text != [] { ShownAreSingle(s, text[..|text| - 1]); }
  }

  /** A cell shows the k-th cluster, or a space when there are fewer. */
  predicate Cell(x: Shown, clusters: seq<Shown>, k: int)
    requires 0 <= k
  {
    if k < |clusters| then x == clusters[k] else x.g == SPACE
  }

  /** The screen row of a splice, column by column. */
  predicate RowIsSpliced(shown: seq<Shown>, base: seq<Shown>, overlay: seq<Shown>, startCol: nat, overlayWidth: nat,
                         totalWidth: nat)
  {
    && |shown| == totalWidth
    && forall c :: 0 <= c < totalWidth ==>
         if startCol <= c < startCol + overlayWidth then Cell(shown[c], overlay, c - startCol)
         else Cell(shown[c], base, c)
  }

  lemma RowFromParts(shown: seq<Shown>, x: seq<Shown>, gap1: nat, y: seq<Shown>, gap2: nat, z: seq<Shown>, gap3: nat,
                     base: seq<Shown>, overlay: seq<Shown>, startCol: nat, overlayWidth: nat, totalWidth: nat)
    requires ShowsSplice(shown, x, gap1, y, gap2, z, gap3)
    requires |x| + gap1 == startCol && |y| + gap2 == overlayWidth && startCol + overlayWidth + |z| + gap3 == totalWidth
    requires IsPart(x, base, 0) && |x| == Min(startCol, |base|)
    requires IsPart(y, overlay, 0) && |y| == Min(overlayWidth, |overlay|)
    requires IsPart(z, base, Min(startCol + overlayWidth, |base|))
    requires |z| == Min(totalWidth, |base|) - Min(startCol + overlayWidth, |base|)
    ensures RowIsSpliced(shown, base, overlay, startCol, overlayWidth, totalWidth)
  {
    var afterStart := startCol + overlayWidth;
    forall c | 0 <= c < totalWidth
      ensures if startCol <= c < afterStart then Cell(shown[c], overlay, c - startCol) else Cell(shown[c], base, c)
    {
      if c < |x| {
        assert SameAt(x, shown, 0, c) && SameAt(x, base, 0, c);
      } else if startCol <= c < startCol + |y| {
        var k := c - startCol;
        assert SameAt(y, shown, startCol, k) && SameAt(y, overlay, 0, k);
      } else if afterStart <= c < afterStart + |z| {
        var k := c - afterStart;
        assert SameAt(z, shown, afterStart, k) && SameAt(z, base, afterStart, k);
      }
    }
  }

  /** With single-column clusters every splice is clean, and each screen column shows the overlay inside
      it and the base outside, in their own styles, or a space where they are short. */
  lemma SingleColumnsSplice(shown: seq<Shown>, baseLine: Text, overlayLine: Text, startCol: nat, overlayWidth: nat,
                            totalWidth: nat)
    requires SingleColumn(baseLine) && SingleColumn(overlayLine) && startCol + overlayWidth <= totalWidth
    ensures SplicesCleanly(baseLine, startCol, overlayWidth, totalWidth)
    ensures Spliced(shown, baseLine, overlayLine, startCol, overlayWidth, totalWidth) ==>
              RowIsSpliced(shown, Visible(PLAIN, baseLine), Visible(PLAIN, overlayLine), startCol, overlayWidth,
                           totalWidth)
  {
    ReachExactly(baseLine, startCol, 0);
    if Spliced(shown, baseLine, overlayLine, startCol, overlayWidth, totalWidth) {
      RowOfSplice(shown, baseLine, overlayLine, startCol, overlayWidth, totalWidth);
    }
  }

  /** `part` is the stretch of `cells` from `lo` to `hi`, one column each. */
  predicate Covers(part: seq<Shown>, cells: seq<Shown>, lo: int, hi: int) {
    0 <= lo && ShownWidth(part) == |part| == hi - lo && IsPart(part, cells, lo)
  }

  /** With single columns, the clusters in some columns are those with these numbers. */
  lemma {:induction false} StretchCovers(shown: seq<Shown>, startCol: nat, endCol: nat, strict: bool, lo: nat, hi: nat)
    requires (forall x <- shown :: x.g.width == 1) && startCol <= endCol
    requires lo == Min(startCol, |shown|) && hi == Min(endCol, |shown|)
    ensures Covers(Stretch(shown, startCol, endCol, strict), shown, lo, hi)
  {
    if shown != [] {
      var n := |shown| - 1;
      StretchCovers(shown[..n], startCol, endCol, strict, Min(startCol, n), Min(endCol, n));
      SingleWidths(shown[..n]);
      var part := Stretch(shown[..n], startCol, endCol, strict);
      PartGrows(part, shown, n, lo);
      if startCol <= n < endCol {
        assert (part + [shown[n]])[..|part|] == part;
        PartTakes(part, shown, n, lo);
      }
    }
  }

  lemma PartGrows(part: seq<Shown>, whole: seq<Shown>, n: nat, lo: nat)
    requires n <= |whole| && (part != [] ==> IsPart(part, whole[..n], lo)) && lo <= |whole|
    ensures IsPart(part, whole, lo)
  {
    forall k | 0 <= k < |part| ensures SameAt(part, whole, lo, k) { assert SameAt(part, whole[..n], lo, k); }
  }

  lemma PartTakes(part: seq<Shown>, whole: seq<Shown>, n: nat, lo: nat)
    requires IsPart(part, whole, lo) && n < |whole| && lo + |part| == n
    ensures IsPart(part + [whole[n]], whole, lo)
  {
    forall k | 0 <= k < |part| + 1 ensures SameAt(part + [whole[n]], whole, lo, k) {
      if k < |part| { assert SameAt(part, whole, lo, k); }
    }
  }

  lemma ColumnsAreClusters(line: Text, startCol: nat, endCol: nat, lo: nat, hi: nat)
    requires SingleColumn(line) && startCol <= endCol
    requires lo == Min(startCol, |Visible(PLAIN, line)|) && hi == Min(endCol, |Visible(PLAIN, line)|)
    ensures Covers(ColumnsShown(line, startCol, endCol), Visible(PLAIN, line), lo, hi)
  {
    ShownAreSingle(PLAIN, line);
    StretchCovers(Visible(PLAIN, line), startCol, endCol, true, lo, hi);
  }

  lemma StartIsClusters(line: Text, endCol: nat, hi: nat)
    requires SingleColumn(line) && hi == Min(endCol, |Visible(PLAIN, line)|)
    ensures Covers(StartShown(line, endCol), Visible(PLAIN, line), 0, hi)
  {
    ShownAreSingle(PLAIN, line);
    StretchCovers(Visible(PLAIN, line), 0, endCol, false, 0, hi);
  }

  lemma RowOfSplice(shown: seq<Shown>, baseLine: Text, overlayLine: Text, startCol: nat, overlayWidth: nat,
                    totalWidth: nat)
    requires SingleColumn(baseLine) && SingleColumn(overlayLine) && startCol + overlayWidth <= totalWidth
    requires Spliced(shown, baseLine, overlayLine, startCol, overlayWidth, totalWidth)
    ensures RowIsSpliced(shown, Visible(PLAIN, baseLine), Visible(PLAIN, overlayLine), startCol, overlayWidth,
                         totalWidth)
  {
    var afterStart, base, overlay := startCol + overlayWidth, Visible(PLAIN, baseLine), Visible(PLAIN, overlayLine);
    StartIsClusters(baseLine, startCol, Min(startCol, |base|));
    ColumnsAreClusters(overlayLine, 0, overlayWidth, 0, Min(overlayWidth, |overlay|));
    ColumnsAreClusters(baseLine, afterStart, totalWidth, Min(afterStart, |base|), Min(totalWidth, |base|));
    RowOfParts(shown, StartShown(baseLine, startCol), ColumnsShown(overlayLine, 0, overlayWidth),
               ColumnsShown(baseLine, afterStart, totalWidth), base, overlay, startCol, overlayWidth, totalWidth);
  }

  /** Pads in plain numbers. */
  lemma PadsAre(shown: seq<Shown>, x: seq<Shown>, y: seq<Shown>, z: seq<Shown>,
                startCol: nat, overlayWidth: nat, totalWidth: nat, gap1: nat, gap2: nat, gap3: nat)
    requires SplicedParts(shown, x, y, z, startCol, overlayWidth, totalWidth)
    requires ShownWidth(x) + gap1 == startCol && ShownWidth(y) + gap2 == overlayWidth
    requires startCol + overlayWidth + ShownWidth(z) + gap3 == totalWidth
    ensures ShowsSplice(shown, x, gap1, y, gap2, z, gap3)
  {
  }

  lemma RowOfParts(shown: seq<Shown>, x: seq<Shown>, y: seq<Shown>, z: seq<Shown>,
                   base: seq<Shown>, overlay: seq<Shown>, startCol: nat, overlayWidth: nat, totalWidth: nat)
    requires startCol + overlayWidth <= totalWidth && SplicedParts(shown, x, y, z, startCol, overlayWidth, totalWidth)
    requires Covers(x, base, 0, Min(startCol, |base|)) && Covers(y, overlay, 0, Min(overlayWidth, |overlay|))
    requires Covers(z, base, Min(startCol + overlayWidth, |base|), Min(totalWidth, |base|))
    ensures RowIsSpliced(shown, base, overlay, startCol, overlayWidth, totalWidth)
  {
    var gap1, gap2, gap3 := startCol - |x|, overlayWidth - |y|, totalWidth - startCol - overlayWidth - |z|;
    PadsAre(shown, x, y, z, startCol, overlayWidth, totalWidth, gap1, gap2, gap3);
    RowFromParts(shown, x, gap1, y, gap2, z, gap3, base, overlay, startCol, overlayWidth, totalWidth);
  }
}
