/** The promises of the differential renderer, for one render and for whole runs. */
module RendererTheorems {
  import opened Common
  import opened Lines
  import opened TerminalModel
  import opened RendererSpec
  import opened RendererSafety
  import opened RendererRefinement

  // ---- preparing a frame changes neither widths nor images ----

  /** The atoms that can be seen, or that change what is seen. */
  function Visible(line: Line): Line {
    if line == [] then []
    else if line[0].CursorMarker? || line[0].SegmentReset? then Visible(line[1..])
    else [line[0]] + Visible(line[1..])
  }

  predicate SameInk(a: Line, b: Line) {
    Width(a) == Width(b) && DrawnIds(a) == DrawnIds(b) && ImageId(a) == ImageId(b) && Visible(a) == Visible(b)
  }

  lemma {:induction false} VisibleSkips(a: Line, marker: Atom, b: Line)
    requires marker.CursorMarker? || marker.SegmentReset?
    ensures Visible(a + [marker] + b) == Visible(a + b)
    decreases |a|
  {
    if a == [] {
      assert ([] + [marker] + b)[1..] == b;
      assert [] + b == b;
    } else {
      assert (a + [marker] + b)[1..] == a[1..] + [marker] + b;
      assert (a + b)[1..] == a[1..] + b;
      VisibleSkips(a[1..], marker, b);
    }
  }

  lemma {:induction false} ImageIdSkips(a: Line, marker: Atom, b: Line)
    requires !marker.Kitty?
    ensures ImageId(a + [marker] + b) == ImageId(a + b)
    decreases |a|
  {
    if a == [] {
      assert ([] + [marker] + b)[1..] == b;
      assert [] + b == b;
    } else {
      assert (a + [marker] + b)[1..] == a[1..] + [marker] + b;
      assert (a + b)[1..] == a[1..] + b;
      ImageIdSkips(a[1..], marker, b);
    }
  }

  lemma InkSkips(a: Line, marker: Atom, b: Line)
    requires marker.CursorMarker? || marker.SegmentReset?
    ensures SameInk(a + [marker] + b, a + b)
  {
    ImageIdSkips(a, marker, b);
    VisibleSkips(a, marker, b);
    WidthConcat(a + [marker], b);
    WidthConcat(a, [marker]);
    WidthConcat(a, b);
    assert forall x :: x in a + [marker] + b <==> x in a || x == marker || x in b;
  }

  lemma PreparedLine(line: Line)
    ensures SameInk(WithReset(line), line)
    ensures HasMarker(line) ==> SameInk(Stripped(line), line)
  {
    InkSkips(line, SegmentReset, []);
    assert line + [SegmentReset] + [] == line + [SegmentReset] && line + [] == line;
    if HasMarker(line) {
      var k := MarkerIndex(line);
      InkSkips(line[..k], CursorMarker, line[k + 1..]);
      assert line == line[..k] + [CursorMarker] + line[k + 1..];
    }
  }

  /** The frame's lines fit the terminal and each draws at most one image. */
  predicate Displayable(frame: Frame, setup: Setup) {
    Fits(frame.lines, setup.columns) && SingleImages(frame.lines)
  }

  /** Line by line what the frame shows, and every text line ends with a reset of its styles. */
  ghost predicate ShowsLines(shown: seq<Line>, lines: seq<Line>) {
    && |shown| == |lines|
    && forall k :: 0 <= k < |shown| ==> Visible(shown[k]) == Visible(lines[k]) && Closed(shown[k])
  }

  predicate Closed(line: Line) {
    IsImageLine(line) || (line != [] && line[|line| - 1] == SegmentReset)
  }

  lemma PreparedFrame(frame: Frame, setup: Setup)
    requires Displayable(frame, setup)
    ensures var lines := Prepared(frame, setup.rows);
            && Fits(lines, setup.columns) && SingleImages(lines) && NonEmptyLines(lines)
            && (DistinctImages(frame.lines) ==> DistinctImages(lines))
            && ShowsLines(lines, frame.lines)
  {
    var lines := Prepared(frame, setup.rows);
    forall k | 0 <= k < |lines| ensures SameInk(lines[k], frame.lines[k]) {
      var bare := WithoutMarker(frame.lines, setup.rows)[k];
      PreparedLine(frame.lines[k]);
      PreparedLine(bare);
    }
  }

  // ---- one render ----

  /** The terminal still has the dimensions of the last render. */
  predicate Settled(sh: Shadow, setup: Setup) {
    !WidthChanged(sh, setup) && !HeightChanged(sh, setup)
  }

  function PathOf(sh: Shadow, setup: Setup, frame: Frame): Path {
    Choose(sh, setup, Prepared(frame, setup.rows), frame.overlays)
  }

  /** The cursor is not above the window the renderer keeps. A full redraw moves the window. */
  predicate CursorSeen(sh: Shadow, cursor: Option<CursorPos>, path: Path) {
    path in {FirstRender, Redraw} || cursor.None? || cursor.value.row >= sh.viewportTop
  }

  predicate CursorInWindow(sh: Shadow, setup: Setup, frame: Frame) {
    CursorSeen(sh, Cursor(frame.lines, setup.rows), PathOf(sh, setup, frame))
  }

  /** Repainting part of the frame does not delete an image shown above that part. */
  ghost predicate KeepsImages(sh: Shadow, lines: seq<Line>, path: Path) {
    var first := FirstChanged(sh.lines, lines);
    path in {TailDeleted, Incremental} && 0 <= first <= |sh.lines| && first <= |lines|
    ==> ImagesSurvive(sh.lines, lines, first)
  }

  ghost predicate ImagesKept(sh: Shadow, setup: Setup, frame: Frame) {
    KeepsImages(sh, Prepared(frame, setup.rows), PathOf(sh, setup, frame))
  }

  lemma CursorBounds(frame: Frame, rows: nat)
    ensures var cursor := Cursor(frame.lines, rows);
            cursor.Some? ==> Max(0, |frame.lines| - rows) <= cursor.value.row < |frame.lines|
  {
  }

  lemma SyncedFrom(drawn: Shadow, t: Screen, base: nat)
    requires t.Valid() && TapeShows(drawn.lines, t, base) && |t.tape| == base + Max(t.height, |drawn.lines|)
    requires drawn.viewportTop == Max(0, |drawn.lines| - t.height)
    requires drawn.hardwareRow == Max(0, |drawn.lines| - 1) && t.cursor == base + drawn.hardwareRow
    requires drawn.lines == [] ==> t.col == 0
    requires t.images == FrameIds(drawn.lines) == IdSet(drawn.imageIds)
    requires SingleImages(drawn.lines) && NonEmptyLines(drawn.lines)
    ensures Synced(drawn, t) && t.Top() == base + drawn.viewportTop
  {
  }

  /** A drawn buffer of a full redraw, before the cursor is placed. */
  lemma FullStaged(sh: Shadow, s: Screen, lines: seq<Line>, drawn: Shadow, clear: bool)
    requires s.Valid() && s.images <= IdSet(sh.imageIds)
    requires clear || Cleared(s)
    requires SingleImages(lines) && NonEmptyLines(lines)
    requires drawn.lines == lines && drawn.imageIds == CollectIds(lines, |lines|)
    requires drawn.hardwareRow == Max(0, |lines| - 1) && drawn.viewportTop == Max(0, |lines| - s.height)
    ensures Synced(drawn, s.Run(FullCommands(sh, lines, clear)))
    ensures clear ==> s.Run(FullCommands(sh, lines, clear)).Top() == drawn.viewportTop
  {
    FullRun(sh, s, lines, clear);
    FrameIdsCollected(lines);
    SyncedFrom(drawn, s.Run(FullCommands(sh, lines, clear)), if clear then 0 else s.Top());
  }

  /** Lines and cursor as they come out of the preparation of a frame. */
  predicate Shippable(lines: seq<Line>, cursor: Option<CursorPos>, setup: Setup) {
    && Fits(lines, setup.columns) && SingleImages(lines) && NonEmptyLines(lines)
    && (cursor.Some? ==> Max(0, |lines| - setup.rows) <= cursor.value.row < |lines|)
  }

  lemma PreparedIsShippable(frame: Frame, setup: Setup)
    requires Displayable(frame, setup)
    ensures Shippable(Prepared(frame, setup.rows), Cursor(frame.lines, setup.rows), setup)
    ensures |Prepared(frame, setup.rows)| == |frame.lines|
  {
    PreparedFrame(frame, setup);
    CursorBounds(frame, setup.rows);
  }

  /** Only what the renderer knows of the terminal matters for agreement. */
  lemma SyncedAlike(a: Shadow, b: Shadow, s: Screen)
    requires a.lines == b.lines && a.imageIds == b.imageIds && a.viewportTop == b.viewportTop
        && a.hardwareRow == b.hardwareRow
    ensures Synced(a, s) <==> Synced(b, s)
  {
  }

  /** What a full redraw leaves behind. */
  ghost predicate FullDraws(sh: Shadow, s: Screen, setup: Setup, lines: seq<Line>, cursor: Option<CursorPos>,
                            clear: bool)
    requires s.Valid()
  {
    var o := Full(sh, setup, lines, cursor, clear);
    && Synced(o.shadow, s.Run(o.out))
    && o.shadow.lines == lines
    && o.shadow.viewportTop == Max(0, |lines| - setup.rows)
    && s.Run(o.out).height == s.height
    && (clear ==> s.Run(o.out).Top() == o.shadow.viewportTop)
  }

  ghost predicate FullAgrees(sh: Shadow, s: Screen, setup: Setup, frame: Frame, clear: bool)
    requires s.Valid()
  {
    FullDraws(sh, s, setup, Prepared(frame, setup.rows), Cursor(frame.lines, setup.rows), clear)
  }

  lemma FullDrawsLines(sh: Shadow, s: Screen, setup: Setup, lines: seq<Line>, cursor: Option<CursorPos>, clear: bool)
    requires s.Valid() && s.height == setup.rows && s.images <= IdSet(sh.imageIds)
    requires clear || Cleared(s)
    requires Shippable(lines, cursor, setup)
    ensures FullDraws(sh, s, setup, lines, cursor, clear)
  {
    var end := Max(0, |lines| - 1);
    var after := Full(sh, setup, lines, cursor, clear).shadow;
    var drawn := after.(hardwareRow := end);
    FullStaged(sh, s, lines, drawn, clear);
    RunConcat(s, FullCommands(sh, lines, clear), CursorCommands(cursor, |lines|, end, setup.showCursor));
    var t := s.Run(FullCommands(sh, lines, clear));
    PositionRun(drawn, t, cursor, setup.showCursor);
    SyncedAlike(drawn.(hardwareRow := after.hardwareRow), after,
                t.Run(CursorCommands(cursor, |lines|, end, setup.showCursor)));
  }

  /** A full redraw agrees with the frame whatever was on the terminal, as long as the
      renderer knows every live image. */
  lemma RedrawShowsFrame(sh: Shadow, s: Screen, setup: Setup, frame: Frame, clear: bool)
    requires s.Valid() && s.height == setup.rows && s.images <= IdSet(sh.imageIds)
    requires clear || Cleared(s)
    requires Displayable(frame, setup)
    ensures FullAgrees(sh, s, setup, frame, clear)
  {
    PreparedIsShippable(frame, setup);
    FullDrawsLines(sh, s, setup, Prepared(frame, setup.rows), Cursor(frame.lines, setup.rows), clear);
  }

  lemma NothingShownIsCleared(sh: Shadow, s: Screen)
    requires Synced(sh, s) && sh.lines == []
    ensures Cleared(s)
  {
    assert FrameIds([]) == {};
    forall j | s.Top() <= j < |s.tape| ensures s.tape[j] == [] {
      assert RowShows(sh.lines, s.tape, s.Top() - sh.viewportTop, j);
    }
  }

  /** The text and the cursor are as `drawn` says, and it knows every image the terminal may have. */
  ghost predicate Staged(drawn: Shadow, t: Screen) {
    && SyncedText(drawn.lines, drawn.viewportTop, drawn.hardwareRow, t)
    && t.images <= FrameIds(drawn.lines) == IdSet(drawn.imageIds)
    && |drawn.lines| <= drawn.viewportTop + t.height
    && (drawn.lines == [] ==> t.col == 0 && drawn.hardwareRow == 0)
    && drawn.viewportTop <= Max(0, |drawn.lines| - 1)
    && NonEmptyLines(drawn.lines) && SingleImages(drawn.lines)
  }

  /** From there, placing the cursor completes the step exactly when the cursor is in the window
      and the images are the frame's. */
  lemma Completed(drawn: Shadow, s: Screen, buffer: seq<Command>, cursor: Option<CursorPos>, show: bool)
    requires s.Valid() && Staged(drawn, s.Run(buffer))
    requires cursor.Some? ==> cursor.value.row < |drawn.lines|
    ensures var t := s.Run(buffer + CursorCommands(cursor, |drawn.lines|, drawn.hardwareRow, show));
            var after := drawn.(hardwareRow := CursorTarget(cursor, |drawn.lines|, drawn.hardwareRow));
            && t.height == s.Run(buffer).height && t.images == s.Run(buffer).images
            && (Synced(after, t) <==>
                  && (cursor.None? || cursor.value.row >= drawn.viewportTop)
                  && s.Run(buffer).images == FrameIds(drawn.lines))
  {
    var t := s.Run(buffer);
    RunConcat(s, buffer, CursorCommands(cursor, |drawn.lines|, drawn.hardwareRow, show));
    var full := t.(images := FrameIds(drawn.lines));
    assert Synced(drawn, full);
    PositionRun(drawn, full, cursor, show);
    if cursor.None? || drawn.lines == [] {
      Run1(t, HideCursor);
      Run1(full, HideCursor);
    } else {
      CursorCommandsRun(t, cursor.value, |drawn.lines|, drawn.hardwareRow, show);
      CursorCommandsRun(full, cursor.value, |drawn.lines|, drawn.hardwareRow, show);
    }
  }

  /** What drawing `lines` leaves behind. */
  ghost predicate DrawAgrees(sh: Shadow, s: Screen, lines: seq<Line>, cursor: Option<CursorPos>, path: Path, o: Outcome)
    requires s.Valid()
  {
    var t := s.Run(o.out);
    && o.Drawn?
    && t.height == s.height
    && t.images <= IdSet(o.shadow.imageIds)
    && o.shadow.lines == lines
    && (Synced(o.shadow, t) <==> CursorSeen(sh, cursor, path) && KeepsImages(sh, lines, path))
  }

  /** What one render of `frame` leaves behind. */
  ghost predicate StepAgrees(sh: Shadow, s: Screen, setup: Setup, frame: Frame)
    requires s.Valid()
  {
    DrawAgrees(sh, s, Prepared(frame, setup.rows), Cursor(frame.lines, setup.rows), PathOf(sh, setup, frame),
               Plan(sh, setup, frame))
  }

  /** An agreeing terminal of unchanged dimensions, lines that can be shown on it, and the way chosen. */
  ghost predicate Drawing(sh: Shadow, s: Screen, setup: Setup, lines: seq<Line>, cursor: Option<CursorPos>,
                          overlays: bool, path: Path)
  {
    && Synced(sh, s) && s.height == setup.rows && Settled(sh, setup) && Shippable(lines, cursor, setup)
    && path == Choose(sh, setup, lines, overlays)
  }

  /** An agreeing terminal of unchanged dimensions, and a frame that can be shown on it. */
  ghost predicate Ready(sh: Shadow, s: Screen, setup: Setup, frame: Frame) {
    Synced(sh, s) && s.height == setup.rows && Settled(sh, setup) && Displayable(frame, setup)
  }

  lemma TailDeletedStaged(sh: Shadow, s: Screen, lines: seq<Line>, drawn: Shadow)
    requires Synced(sh, s) && NonEmptyLines(lines) && SingleImages(lines)
    requires |lines| <= FirstChanged(sh.lines, lines) && |sh.lines| > |lines|
    requires sh.viewportTop <= Max(0, |lines| - 1)
    requires drawn == sh.(lines := lines, imageIds := CollectIds(lines, |lines|), width := drawn.width,
                          height := drawn.height, cursorRow := drawn.cursorRow, hardwareRow := Max(0, |lines| - 1))
    ensures var t := s.Run(DeleteTailCommands(sh, lines));
            && Staged(drawn, t) && t.height == s.height
            && FirstChanged(sh.lines, lines) == |lines|
            && (t.images == FrameIds(lines) <==> ImagesSurvive(sh.lines, lines, |lines|))
  {
    DeleteTailRun(sh, s, lines);
    FrameIdsCollected(lines);
  }

  lemma TailDeletedStep(sh: Shadow, s: Screen, setup: Setup, lines: seq<Line>, cursor: Option<CursorPos>,
                        overlays: bool)
    requires Drawing(sh, s, setup, lines, cursor, overlays, TailDeleted)
    ensures DrawAgrees(sh, s, lines, cursor, TailDeleted, DeleteTail(sh, setup, lines, cursor, sh.viewportTop))
  {
    var after := DeleteTail(sh, setup, lines, cursor, sh.viewportTop).shadow;
    var drawn := after.(hardwareRow := Max(0, |lines| - 1));
    TailDeletedStaged(sh, s, lines, drawn);
    Completed(drawn, s, DeleteTailCommands(sh, lines), cursor, setup.showCursor);
    SyncedAlike(drawn.(hardwareRow := after.hardwareRow), after,
                s.Run(DeleteTailCommands(sh, lines)
                      + CursorCommands(cursor, |lines|, drawn.hardwareRow, setup.showCursor)));
  }

  lemma {:induction false} NothingTooWide(lines: seq<Line>, from: nat, upto: nat, columns: nat)
    requires from <= upto <= |lines|
    ensures FirstTooWide(lines, from, upto, columns) == None
            <==> forall k :: from <= k < upto ==> IsImageLine(lines[k]) || Width(lines[k]) <= columns
    decreases upto
  {
    if from < upto {
      NothingTooWide(lines, from, upto - 1, columns);
    }
  }

  /** An update that neither scrolls first nor meets a line that is too wide. */
  lemma PlainUpdate(sh: Shadow, setup: Setup, lines: seq<Line>, cursor: Option<CursorPos>)
    requires 0 <= FirstChanged(sh.lines, lines) < |lines|
    requires FirstTooWide(lines, FirstChanged(sh.lines, lines), PaintLimit(sh.lines, lines), setup.columns) == None
    requires ScrollInto(sh.hardwareRow, setup.rows, sh.viewportTop, PaintStart(sh.lines, lines)) == ([], 0)
    ensures Update(sh, setup, lines, cursor, sh.viewportTop)
         == Updated(sh, setup, lines, cursor, sh.viewportTop,
                    FinalRow(RenderEnd(sh.lines, lines), |sh.lines|, |lines|), 0)
  {
  }

  /** Text, cursor row and images after the buffer of an incremental update. */
  lemma IncrementalStaged(sh: Shadow, s: Screen, lines: seq<Line>, drawn: Shadow, first: nat, end: nat, t: Screen)
    requires Synced(sh, s) && sh.lines != [] && NonEmptyLines(lines) && SingleImages(lines)
    requires first == FirstChanged(sh.lines, lines) && end == RenderEnd(sh.lines, lines)
    requires sh.viewportTop <= first < |lines| && UpdateDone(sh, s, lines, first, end, t)
    requires drawn.lines == lines && drawn.imageIds == CollectIds(lines, |lines|)
    requires drawn.hardwareRow == FinalRow(end, |sh.lines|, |lines|)
    requires drawn.viewportTop == Max(sh.viewportTop, drawn.hardwareRow - s.height + 1)
    ensures drawn.viewportTop == Max(sh.viewportTop, |lines| - s.height)
    ensures Staged(drawn, t) && t.height == s.height
    ensures t.images == FrameIds(lines) <==> ImagesSurvive(sh.lines, lines, first)
  {
    UpdateImages(sh, s, lines, first, end, t);
    NewTop(sh.viewportTop, s.height, |sh.lines|, |lines|, end);
    FrameIdsCollected(lines);
  }

  lemma IncrementalFacts(sh: Shadow, s: Screen, setup: Setup, lines: seq<Line>, cursor: Option<CursorPos>,
                         overlays: bool)
    requires Drawing(sh, s, setup, lines, cursor, overlays, Incremental)
    ensures sh.lines != [] && sh.viewportTop <= FirstChanged(sh.lines, lines) < |lines|
    ensures 0 <= RenderEnd(sh.lines, lines) && FirstChanged(sh.lines, lines) <= |sh.lines|
    ensures FirstTooWide(lines, FirstChanged(sh.lines, lines), PaintLimit(sh.lines, lines), setup.columns) == None
    ensures ScrollInto(sh.hardwareRow, setup.rows, sh.viewportTop, PaintStart(sh.lines, lines)) == ([], 0)
  {
    RangeBounds(sh.lines, lines);
    NothingTooWide(lines, FirstChanged(sh.lines, lines), PaintLimit(sh.lines, lines), setup.columns);
    NoScrolling(sh, setup.rows, lines);
  }

  /** A buffer that does what an update must, followed by the cursor. */
  lemma BufferAgrees(sh: Shadow, s: Screen, lines: seq<Line>, cursor: Option<CursorPos>, setup: Setup, first: nat,
                     end: nat, buffer: seq<Command>, after: Shadow, drawn: Shadow)
    requires Synced(sh, s) && s.height == setup.rows && sh.lines != [] && Shippable(lines, cursor, setup)
    requires first == FirstChanged(sh.lines, lines) && end == RenderEnd(sh.lines, lines)
    requires sh.viewportTop <= first < |lines| && UpdateDone(sh, s, lines, first, end, s.Run(buffer))
    requires drawn == after.(hardwareRow := FinalRow(end, |sh.lines|, |lines|))
    requires after.lines == lines && after.imageIds == CollectIds(lines, |lines|)
    requires after.hardwareRow == CursorTarget(cursor, |lines|, drawn.hardwareRow)
    requires after.viewportTop == Max(sh.viewportTop, drawn.hardwareRow - s.height + 1)
    ensures DrawAgrees(sh, s, lines, cursor, Incremental,
                       Drawn(buffer + CursorCommands(cursor, |lines|, drawn.hardwareRow, setup.showCursor), after))
  {
    IncrementalStaged(sh, s, lines, drawn, first, end, s.Run(buffer));
    Completed(drawn, s, buffer, cursor, setup.showCursor);
    SyncedAlike(drawn.(hardwareRow := after.hardwareRow), after,
                s.Run(buffer + CursorCommands(cursor, |lines|, drawn.hardwareRow, setup.showCursor)));
  }

  /** An update that ends on row `finalRow`, as far as it is drawn. */
  lemma UpdatedAgrees(sh: Shadow, s: Screen, setup: Setup, lines: seq<Line>, cursor: Option<CursorPos>, first: nat,
                      end: nat, finalRow: int)
    requires Synced(sh, s) && s.height == setup.rows && sh.lines != [] && Shippable(lines, cursor, setup)
    requires first == FirstChanged(sh.lines, lines) && end == RenderEnd(sh.lines, lines)
        && finalRow == FinalRow(end, |sh.lines|, |lines|)
    requires sh.viewportTop <= first < |lines| && first <= |sh.lines|
    ensures DrawAgrees(sh, s, lines, cursor, Incremental,
                       Updated(sh, setup, lines, cursor, sh.viewportTop, finalRow, 0))
  {
    var after := Updated(sh, setup, lines, cursor, sh.viewportTop, finalRow, 0).shadow;
    UpdateRun(sh, s, lines, first, end);
    BufferAgrees(sh, s, lines, cursor, setup, first, end, UpdateCommands(sh, s.height, lines, sh.viewportTop), after,
                 after.(hardwareRow := finalRow));
  }

  lemma IncrementalStep(sh: Shadow, s: Screen, setup: Setup, lines: seq<Line>, cursor: Option<CursorPos>,
                        overlays: bool)
    requires Drawing(sh, s, setup, lines, cursor, overlays, Incremental)
    ensures DrawAgrees(sh, s, lines, cursor, Incremental, Update(sh, setup, lines, cursor, sh.viewportTop))
  {
    IncrementalFacts(sh, s, setup, lines, cursor, overlays);
    var first, end := FirstChanged(sh.lines, lines), RenderEnd(sh.lines, lines);
    PlainUpdate(sh, setup, lines, cursor);
    UpdatedAgrees(sh, s, setup, lines, cursor, first, end, FinalRow(end, |sh.lines|, |lines|));
  }

  lemma UnchangedFacts(sh: Shadow, setup: Setup, frame: Frame)
    requires Settled(sh, setup) && NonEmptyLines(sh.lines)
    requires PathOf(sh, setup, frame).Unchanged?
    ensures var cursor, o := Cursor(frame.lines, setup.rows), Plan(sh, setup, frame);
            && Prepared(frame, setup.rows) == sh.lines
            && o.Drawn?
            && o.out == CursorCommands(cursor, |sh.lines|, sh.hardwareRow, setup.showCursor)
            && sh.(hardwareRow := CursorTarget(cursor, |sh.lines|, sh.hardwareRow), height := setup.rows) == o.shadow
  {
    ChangedRows(sh.lines, Prepared(frame, setup.rows));
  }

  lemma UnchangedStep(sh: Shadow, s: Screen, setup: Setup, lines: seq<Line>, cursor: Option<CursorPos>, overlays: bool)
    requires Drawing(sh, s, setup, lines, cursor, overlays, Unchanged)
    ensures DrawAgrees(sh, s, lines, cursor, Unchanged, Draw(sh, setup, lines, cursor, Unchanged))
  {
    ChangedRows(sh.lines, lines);
    var o := Draw(sh, setup, lines, cursor, Unchanged);
    PositionRun(sh, s, cursor, setup.showCursor);
    SyncedAlike(sh.(hardwareRow := o.shadow.hardwareRow), o.shadow, s.Run(o.out));
  }

  /** Without a resize a render writes and records what the way chosen says. */
  lemma PlanIsDraw(sh: Shadow, setup: Setup, frame: Frame, lines: seq<Line>, cursor: Option<CursorPos>)
    requires Settled(sh, setup) && lines == Prepared(frame, setup.rows) && cursor == Cursor(frame.lines, setup.rows)
    ensures match PathOf(sh, setup, frame)
            case FirstRender => Plan(sh, setup, frame) == Full(sh, setup, lines, cursor, false)
            case Redraw => Plan(sh, setup, frame) == Full(sh, setup, lines, cursor, true)
            case Unchanged => Plan(sh, setup, frame) == Draw(sh, setup, lines, cursor, Unchanged)
            case TailDeleted => Plan(sh, setup, frame) == DeleteTail(sh, setup, lines, cursor, sh.viewportTop)
            case Incremental => Plan(sh, setup, frame) == Update(sh, setup, lines, cursor, sh.viewportTop)
  {
  }

  lemma FullStep(sh: Shadow, s: Screen, setup: Setup, lines: seq<Line>, cursor: Option<CursorPos>, overlays: bool,
                 path: Path)
    requires Drawing(sh, s, setup, lines, cursor, overlays, path) && path in {FirstRender, Redraw}
    ensures DrawAgrees(sh, s, lines, cursor, path, Full(sh, setup, lines, cursor, path.Redraw?))
  {
    if path.FirstRender? {
      NothingShownIsCleared(sh, s);
      assert FrameIds([]) == {};
    }
    FullDrawsLines(sh, s, setup, lines, cursor, path.Redraw?);
  }

  /** One render from an agreeing terminal: nothing is too wide, the new frame is what the renderer
      remembers, and terminal and shadow agree again exactly when the cursor marker is not above the
      kept window and no image shown above the repainted rows was deleted with the old ones. */
  lemma RenderAgreesExactlyWhen(sh: Shadow, s: Screen, setup: Setup, frame: Frame)
    requires Ready(sh, s, setup, frame)
    ensures StepAgrees(sh, s, setup, frame)
  {
    var lines, cursor := Prepared(frame, setup.rows), Cursor(frame.lines, setup.rows);
    var path := PathOf(sh, setup, frame);
    PreparedIsShippable(frame, setup);
    PlanIsDraw(sh, setup, frame, lines, cursor);
    match path {
      case Unchanged => UnchangedStep(sh, s, setup, lines, cursor, frame.overlays);
      case TailDeleted => TailDeletedStep(sh, s, setup, lines, cursor, frame.overlays);
      case Incremental => IncrementalStep(sh, s, setup, lines, cursor, frame.overlays);
      case _ => FullStep(sh, s, setup, lines, cursor, frame.overlays, path);
    }
  }
}
