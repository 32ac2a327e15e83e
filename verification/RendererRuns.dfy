/** Safety of the renderer over whole runs, its refinement of full redraws, and the inputs on
    which it fails. */
module RendererRuns {
  import opened Common
  import opened Lines
  import opened TerminalModel
  import opened RendererSpec
  import opened RendererSafety
  import opened RendererRefinement
  import opened RendererTheorems
  import opened RendererCursor

  // ---- refinement of the full redraw ----

  /** After an agreeing render the screen equals that of a full redraw of the same frame exactly
      when the kept window is the bottom of the frame; the images always do. */
  lemma RefinesFullRedraw(sh: Shadow, s: Screen, setup: Setup, frame: Frame)
    requires Ready(sh, s, setup, frame)
    requires CursorInWindow(sh, setup, frame) && ImagesKept(sh, setup, frame)
    ensures var o := Plan(sh, setup, frame);
            var full := Full(sh, setup, Prepared(frame, setup.rows), Cursor(frame.lines, setup.rows), true);
            var t, f := s.Run(o.out), s.Run(full.out);
            && (t.Rows() == f.Rows() <==> o.shadow.viewportTop == Max(0, |frame.lines| - setup.rows))
            && t.images == f.images && t.shown == f.shown
            && (!Unmarked(frame.lines, setup.rows) ==> t.col == f.col)
  {
    RenderAgreesExactlyWhen(sh, s, setup, frame);
    RedrawShowsFrame(sh, s, setup, frame, true);
    var o := Plan(sh, setup, frame);
    var full := Full(sh, setup, Prepared(frame, setup.rows), Cursor(frame.lines, setup.rows), true);
    SameWindowSameScreen(o.shadow, full.shadow, s.Run(o.out), s.Run(full.out));
    SameCursor(sh, s, setup, frame, Redraw);
  }

  lemma SameWindowSameScreen(a: Shadow, b: Shadow, t: Screen, f: Screen)
    requires Synced(a, t) && Synced(b, f) && t.height == f.height && a.lines == b.lines
    requires b.viewportTop == Max(0, |b.lines| - f.height)
    ensures t.Rows() == f.Rows() <==> a.viewportTop == b.viewportTop
  {
    WindowRows(a, t);
    WindowRows(b, f);
    if a.viewportTop != b.viewportTop {
      // then the last frame line is on a different screen row
      var r := |a.lines| - a.viewportTop;
      assert t.Rows()[r] == [] && f.Rows()[r] != [];
    }
  }

  /** Screen row r shows line `viewportTop + r` of the frame, or nothing. */
  lemma WindowRows(sh: Shadow, s: Screen)
    requires Synced(sh, s)
    ensures |s.Rows()| == s.height
    ensures forall r :: 0 <= r < s.height ==> s.Rows()[r] == RowOf(sh.lines, sh.viewportTop + r)
  {
    forall r | 0 <= r < s.height
      ensures s.Rows()[r] == RowOf(sh.lines, sh.viewportTop + r)
    {
      assert RowShows(sh.lines, s.tape, s.Top() - sh.viewportTop, s.Top() + r);
      assert s.Rows()[r] == s.tape[s.Top() + r];
    }
  }

  /** Nothing is lost to the scrollback: it ends with the lines above the window. */
  lemma ScrollbackHoldsTheRest(sh: Shadow, s: Screen)
    requires Synced(sh, s)
    ensures forall i :: 0 <= i < sh.viewportTop ==> s.tape[s.Top() - sh.viewportTop + i] == [Ink(sh.lines[i], 0)]
  {
    forall i | 0 <= i < sh.viewportTop
      ensures s.tape[s.Top() - sh.viewportTop + i] == [Ink(sh.lines[i], 0)]
    {
      var j := s.Top() - sh.viewportTop + i;
      assert RowShows(sh.lines, s.tape, s.Top() - sh.viewportTop, j);
    }
  }

  lemma DistinctImagesKept(sh: Shadow, setup: Setup, frame: Frame)
    requires DistinctImages(sh.lines) && NonEmptyLines(sh.lines)
    ensures ImagesKept(sh, setup, frame)
  {
    var lines := Prepared(frame, setup.rows);
    ChangedRows(sh.lines, lines);
    var first := FirstChanged(sh.lines, lines);
    if 0 <= first <= |sh.lines| && first <= |lines| {
      DistinctImagesSurvive(sh.lines, lines, first);
    }
  }

  /** A line of text in these rows is wider than the terminal. */
  predicate HasWideLine(lines: seq<Line>, from: nat, upto: nat, columns: nat) {
    exists k :: from <= k < upto && k < |lines| && !IsImageLine(lines[k]) && Width(lines[k]) > columns
  }

  /** A render fails exactly when the incremental path meets a text line wider than the terminal;
      it then draws nothing and remembers what it remembered. */
  lemma FailsExactlyOnWideLines(sh: Shadow, setup: Setup, frame: Frame)
    ensures var o, lines := Plan(sh, setup, frame), Prepared(frame, setup.rows);
            && (o.TooWide? <==> PathOf(sh, setup, frame).Incremental?
                                && HasWideLine(lines, FirstChanged(sh.lines, lines), PaintLimit(sh.lines, lines),
                                               setup.columns))
            && (o.TooWide? ==> o.shadow == sh)
  {
    DrawFailsExactly(sh, setup, Prepared(frame, setup.rows), Cursor(frame.lines, setup.rows), PathOf(sh, setup, frame));
  }

  lemma DrawFailsExactly(sh: Shadow, setup: Setup, lines: seq<Line>, cursor: Option<CursorPos>, path: Path)
    requires path.TailDeleted? ==> |sh.lines| > |lines|
    requires path.Incremental? ==> 0 <= FirstChanged(sh.lines, lines) < |lines|
    ensures var o := Draw(sh, setup, lines, cursor, path);
            && (o.TooWide? <==> path.Incremental?
                                && HasWideLine(lines, FirstChanged(sh.lines, lines), PaintLimit(sh.lines, lines),
                                               setup.columns))
            && (o.TooWide? ==> o.shadow == sh)
  {
    if path.Incremental? {
      UpdateFailsExactly(sh, setup, lines, cursor, BelievedTop(sh, setup));
    }
  }

  lemma UpdateFailsExactly(sh: Shadow, setup: Setup, lines: seq<Line>, cursor: Option<CursorPos>, top: nat)
    requires 0 <= FirstChanged(sh.lines, lines) < |lines|
    ensures var o := Update(sh, setup, lines, cursor, top);
            && (o.TooWide? <==> HasWideLine(lines, FirstChanged(sh.lines, lines), PaintLimit(sh.lines, lines),
                                            setup.columns))
            && (o.TooWide? ==> o.shadow == sh)
  {
    NothingTooWide(lines, FirstChanged(sh.lines, lines), PaintLimit(sh.lines, lines), setup.columns);
  }

  // ---- runs ----

  datatype World = World(sh: Shadow, screen: Screen, setup: Setup)

  /** A frame is shown; or it is shown after the terminal was resized and did whatever it does to
      its text; or it is shown after a forced redraw was requested. */
  datatype RenderEvent =
    | Shown(frame: Frame)
    | Resized(frame: Frame, columns: nat, disturbed: Screen)
    | Forced(frame: Frame)

  function SetupAt(w: World, e: RenderEvent): Setup {
    if e.Resized? then w.setup.(columns := e.columns, rows := e.disturbed.height) else w.setup
  }

  function ShadowAt(w: World, e: RenderEvent): Shadow { if e.Forced? then Forgotten(w.sh) else w.sh }

  function ScreenAt(w: World, e: RenderEvent): Screen { if e.Resized? then e.disturbed else w.screen }

  /** What the environment promises: lines fit, image ids are not shared between lines, the cursor
      marker is not above the window, and a resize changes a dimension but keeps the live images. */
  ghost predicate Admissible(w: World, e: RenderEvent) {
    && Displayable(e.frame, SetupAt(w, e)) && DistinctImages(e.frame.lines)
    && (e.Shown? ==> CursorInWindow(w.sh, w.setup, e.frame))
    && (e.Resized? ==>
          && e.disturbed.Valid() && e.disturbed.images == w.screen.images
          && (WidthChanged(w.sh, SetupAt(w, e)) || (HeightChanged(w.sh, SetupAt(w, e)) && !w.setup.termux)))
  }

  function Next(w: World, e: RenderEvent): World
    requires ScreenAt(w, e).Valid()
  {
    var o := Plan(ShadowAt(w, e), SetupAt(w, e), e.frame);
    World(o.shadow, ScreenAt(w, e).Run(o.out), SetupAt(w, e))
  }

  /** Shadow, terminal and settings agree. */
  ghost predicate Agrees(w: World) {
    && Synced(w.sh, w.screen) && DistinctImages(w.sh.lines)
    && Settled(w.sh, w.setup) && w.screen.height == w.setup.rows
    && (w.sh.lines != [] ==> w.sh.width == w.setup.columns)
  }

  lemma StepKeepsAgreement(w: World, e: RenderEvent)
    requires Agrees(w) && Admissible(w, e)
    ensures Agrees(Next(w, e)) && Next(w, e).sh.lines == Prepared(e.frame, SetupAt(w, e).rows)
    ensures ShowsLines(Next(w, e).sh.lines, e.frame.lines)
    ensures CursorPlaced(Next(w, e).sh, Next(w, e).screen, e.frame.lines, Next(w, e).setup)
  {
    var sh, s, setup := ShadowAt(w, e), ScreenAt(w, e), SetupAt(w, e);
    PreparedFrame(e.frame, setup);
    if e.Shown? {
      DistinctImagesKept(w.sh, w.setup, e.frame);
      RenderAgreesExactlyWhen(w.sh, w.screen, w.setup, e.frame);
      ShownDimensions(w, e.frame);
    } else {
      assert PathOf(sh, setup, e.frame).Redraw?;
      RedrawShowsFrame(sh, s, setup, e.frame, true);
    }
    RenderPlacesCursor(sh, s, setup, e.frame);
  }

  lemma ShownDimensions(w: World, frame: Frame)
    requires Agrees(w) && Displayable(frame, w.setup)
    requires Plan(w.sh, w.setup, frame).Drawn?
    requires Plan(w.sh, w.setup, frame).shadow.lines == Prepared(frame, w.setup.rows)
    ensures var sh := Plan(w.sh, w.setup, frame).shadow;
            Settled(sh, w.setup) && (sh.lines != [] ==> sh.width == w.setup.columns)
  {
    if PathOf(w.sh, w.setup, frame).Unchanged? {
      UnchangedFacts(w.sh, w.setup, frame);
    }
  }

  ghost predicate AdmissibleRun(w: World, es: seq<RenderEvent>)
    decreases |es|
  {
    es != [] ==>
      var front, last := es[..|es| - 1], es[|es| - 1];
      AdmissibleRun(w, front) && After(w, front).Some? && Admissible(After(w, front).value, last)
  }

  function After(w: World, es: seq<RenderEvent>): (r: Option<World>)
    decreases |es|
  {
    if es == [] then Some(w)
    else
      var before, last := After(w, es[..|es| - 1]), es[|es| - 1];
      if before.None? || !ScreenAt(before.value, last).Valid() then None else Some(Next(before.value, last))
  }

  function Start(columns: nat, rows: nat, termux: bool, clearOnShrink: bool, showCursor: bool): World
    requires rows >= 1
  {
    World(NOTHING_SHOWN, Fresh(rows), Setup(columns, rows, termux, clearOnShrink, showCursor))
  }

  lemma StartAgrees(columns: nat, rows: nat, termux: bool, clearOnShrink: bool, showCursor: bool)
    requires rows >= 1
    ensures Agrees(Start(columns, rows, termux, clearOnShrink, showCursor))
  {
    assert FrameIds([]) == {};
    assert IdSet([]) == {};
  }

  /** After every admissible run, however long and however often resized, the terminal shows the
      last frame: text, cursor, images and scrollback agree with the shadow. */
  lemma {:induction false} RunsKeepAgreement(w: World, es: seq<RenderEvent>)
    requires Agrees(w) && AdmissibleRun(w, es)
    ensures After(w, es).Some? && Agrees(After(w, es).value)
    ensures es != [] ==> LastShown(After(w, es).value, es[|es| - 1].frame.lines)
    decreases |es|
  {
    if es != [] {
      RunsKeepAgreement(w, es[..|es| - 1]);
      StepKeepsAgreement(After(w, es[..|es| - 1]).value, es[|es| - 1]);
    }
  }

  /** What the renderer remembers shows these lines, and the cursor is where they want it. */
  ghost predicate LastShown(w: World, lines: seq<Line>) {
    ShowsLines(w.sh.lines, lines) && CursorPlaced(w.sh, w.screen, lines, w.setup)
  }

  /** Screen row `r` holds line `top + r` of the frame and nothing else, without marker and reset at its end. */
  predicate RowHolds(row: Row, lines: seq<Line>, i: nat) {
    if i < |lines| then |row| == 1 && row[0].col == 0 && Visible(row[0].line) == Visible(lines[i])
        && Closed(row[0].line)
    else row == []
  }

  /** The screen shows `lines`, row by row from line `top` on. */
  ghost predicate ShowsFrom(s: Screen, lines: seq<Line>, top: nat) {
    s.Valid() && |s.Rows()| == s.height && forall r :: 0 <= r < s.height ==> RowHolds(s.Rows()[r], lines, top + r)
  }

  /** The cursor stands on the marker's screen row, behind the atoms in front of the marker, and is shown as the
      setting says; without a marker it is hidden. */
  ghost predicate CursorShows(s: Screen, lines: seq<Line>, setup: Setup, top: nat) {
    && (forall row: nat, before, behind :: MarkedAt(lines, setup.rows, row, before, behind) ==>
          s.CursorRow() == row - top && s.col == Width(before) && s.shown == setup.showCursor)
    && (Unmarked(lines, setup.rows) ==> !s.shown)
  }

  lemma AgreementShows(w: World, lines: seq<Line>)
    requires Agrees(w) && LastShown(w, lines)
    ensures ShowsFrom(w.screen, lines, w.sh.viewportTop)
    ensures CursorShows(w.screen, lines, w.setup, w.sh.viewportTop)
  {
    WindowRows(w.sh, w.screen);
  }

  lemma RunShows(w: World, es: seq<RenderEvent>)
    requires Agrees(w) && AdmissibleRun(w, es) && es != []
    ensures var end, last := After(w, es), es[|es| - 1].frame.lines;
            && end.Some? && Agrees(end.value)
            && ShowsFrom(end.value.screen, last, end.value.sh.viewportTop)
            && CursorShows(end.value.screen, last, end.value.setup, end.value.sh.viewportTop)
  {
    RunsKeepAgreement(w, es);
    AgreementShows(After(w, es).value, es[|es| - 1].frame.lines);
  }

  /** From a blank screen, every admissible run leaves the screen showing its last frame, with the cursor at the
      frame's marker. */
  lemma RunsFromBlankScreen(columns: nat, rows: nat, termux: bool, clearOnShrink: bool, showCursor: bool,
                            es: seq<RenderEvent>)
    requires rows >= 1 && es != [] && AdmissibleRun(Start(columns, rows, termux, clearOnShrink, showCursor), es)
    ensures var end, last := After(Start(columns, rows, termux, clearOnShrink, showCursor), es),
        es[|es| - 1].frame.lines;
            && end.Some? && Agrees(end.value)
            && ShowsFrom(end.value.screen, last, end.value.sh.viewportTop)
            && CursorShows(end.value.screen, last, end.value.setup, end.value.sh.viewportTop)
  {
    StartAgrees(columns, rows, termux, clearOnShrink, showCursor);
    RunShows(Start(columns, rows, termux, clearOnShrink, showCursor), es);
  }

  // ---- where it fails ----

  const A: Line := [Glyph("a", 1), SegmentReset]
  const B: Line := [Glyph("b", 1), SegmentReset]
  const C: Line := [Glyph("c", 1), SegmentReset]
  const THREE_LINES := Shadow([A, B, C], [], 10, 2, 2, 2, 3, 1, 1)
  const TWO_VISIBLE := Screen(2, [[Ink(A, 0)], [Ink(B, 0)], [Ink(C, 0)]], 2, 1, {}, true)
  const SMALL := Setup(10, 2, false, false, false)
  const MARKED: Line := [CursorMarker, Glyph("a", 1)]
  const MARKER_ABOVE := Frame([MARKED, [Glyph("b", 1)]], false)

  lemma ThreeLinesReady()
    ensures Ready(THREE_LINES, TWO_VISIBLE, SMALL, MARKER_ABOVE)
  {
    assert Width([]) == 0;
    assert Width([Glyph("a", 1)]) == 1;
    assert MARKED[1..] == [Glyph("a", 1)];
    NoImageNoIds(THREE_LINES.lines);
    assert IdSet([]) == {};
  }

  lemma MarkerAbovePrepared()
    ensures Prepared(MARKER_ABOVE, 2) == [A, B]
    ensures Cursor(MARKER_ABOVE.lines, 2).Some? && Cursor(MARKER_ABOVE.lines, 2).value.row == 0
  {
    var lines := MARKER_ABOVE.lines;
    assert MarkerIndex(MARKED) == 0;
    MarkerFree(lines[1]);
    assert MarkerRow(lines, 0, 2) == MarkerRow(lines, 0, 1) == Some(0);
    assert Stripped(MARKED) == [Glyph("a", 1)];
    assert WithReset([Glyph("a", 1)]) == A && WithReset([Glyph("b", 1)]) == B;
  }

  /** Two of three lines are visible. The third is deleted while the cursor marker moves to the
      first line, which is no longer on the screen: the move up stops at the top row, and the
      renderer's cursor row is one above the terminal's. */
  lemma CursorAboveWindowDesynchronises()
    ensures Ready(THREE_LINES, TWO_VISIBLE, SMALL, MARKER_ABOVE)
    ensures ImagesKept(THREE_LINES, SMALL, MARKER_ABOVE)
    ensures var o := Plan(THREE_LINES, SMALL, MARKER_ABOVE);
            !Synced(o.shadow, TWO_VISIBLE.Run(o.out))
  {
    var lines := Prepared(MARKER_ABOVE, 2);
    ThreeLinesReady();
    MarkerAbovePrepared();
    ChangedRows(THREE_LINES.lines, lines);
    FirstDifferenceIsFirst(THREE_LINES.lines, lines, 3);
    assert FirstChanged(THREE_LINES.lines, lines) == 2 by {
      assert !Differs(THREE_LINES.lines, lines, 0) && !Differs(THREE_LINES.lines, lines, 1);
      assert Differs(THREE_LINES.lines, lines, 2);
    }
    assert PathOf(THREE_LINES, SMALL, MARKER_ABOVE).TailDeleted?;
    DistinctImagesKept(THREE_LINES, SMALL, MARKER_ABOVE);
    RenderAgreesExactlyWhen(THREE_LINES, TWO_VISIBLE, SMALL, MARKER_ABOVE);
  }

  lemma MarkerFree(line: Line)
    requires |line| == 1 && !line[0].CursorMarker?
    ensures !HasMarker(line)
  {
  }

  const K1: Line := [Kitty(Some(7))]
  const K2: Line := [Kitty(Some(7)), Glyph("x", 1)]
  const Y: Line := [Glyph("y", 1), SegmentReset]
  const TWO_IMAGES := Shadow([K1, K2], [7], 10, 2, 1, 1, 2, 0, 1)
  const IMAGES_VISIBLE := Screen(2, [[Ink(K1, 0)], [Ink(K2, 0)]], 1, 1, {7}, true)
  const ONE_IMAGE := Frame([K1, [Glyph("y", 1)]], false)

  lemma TwoImagesReady()
    ensures Ready(TWO_IMAGES, IMAGES_VISIBLE, SMALL, ONE_IMAGE)
  {
    assert Width([]) == 0;
    assert Width([Glyph("y", 1)]) == 1;
    assert K2[1..] == [Glyph("x", 1)];
    assert Width(K1) == 0;
    assert 7 in DrawnIds(TWO_IMAGES.lines[0]) by { assert K1[0] in K1; }
    assert FrameIds(TWO_IMAGES.lines) == {7};
    assert IdSet([7]) == {7};
  }

  lemma OneImagePrepared()
    ensures Prepared(ONE_IMAGE, 2) == [K1, Y]
    ensures Cursor(ONE_IMAGE.lines, 2).None?
  {
    var lines := ONE_IMAGE.lines;
    MarkerFree(K1);
    MarkerFree(lines[1]);
    assert MarkerRow(lines, 0, 2) == MarkerRow(lines, 0, 1) == MarkerRow(lines, 0, 0) == None;
    assert IsImageLine(K1) by { assert IsImageAtom(K1[0]); }
    assert WithReset(K1) == K1 && WithReset(lines[1]) == Y;
  }

  /** The same image id on two lines: when the lower one changes to text, its old id is deleted
      and the image above is gone from the terminal although the frame still has it. */
  lemma SharedImageIsLost()
    ensures Ready(TWO_IMAGES, IMAGES_VISIBLE, SMALL, ONE_IMAGE)
    ensures CursorInWindow(TWO_IMAGES, SMALL, ONE_IMAGE)
    ensures var o := Plan(TWO_IMAGES, SMALL, ONE_IMAGE);
            !Synced(o.shadow, IMAGES_VISIBLE.Run(o.out))
  {
    var prev, lines := TWO_IMAGES.lines, Prepared(ONE_IMAGE, 2);
    TwoImagesReady();
    OneImagePrepared();
    FirstDifferenceIsFirst(prev, lines, 2);
    assert FirstChanged(prev, lines) == 1 by {
      assert !Differs(prev, lines, 0) && Differs(prev, lines, 1);
    }
    assert PathOf(TWO_IMAGES, SMALL, ONE_IMAGE).Incremental?;
    assert 7 in FrameIds(lines[..1]) by { assert 7 in DrawnIds(lines[..1][0]) by { assert K1[0] in K1; } }
    assert 7 in FrameIds(prev[1..]) by { assert 7 in DrawnIds(prev[1..][0]) by { assert K2[0] in K2; } }
    assert FrameIds(lines[1..]) == {} by { NoImageNoIds([Y]); assert lines[1..] == [Y]; }
    assert !ImagesSurvive(prev, lines, 1);
    RenderAgreesExactlyWhen(TWO_IMAGES, IMAGES_VISIBLE, SMALL, ONE_IMAGE);
  }
}
