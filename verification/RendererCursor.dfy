/** Where a render leaves the terminal's cursor. */
module RendererCursor {
  import opened Common
  import opened Lines
  import opened TerminalModel
  import opened RendererSpec
  import opened RendererSafety

  /** With a marker in the frame the renderer's row is the marker's, the column is the width of what precedes
      the marker, and the cursor is shown as the setting says; without one the cursor is hidden. */
  ghost predicate CursorPlaced(sh: Shadow, t: Screen, lines: seq<Line>, setup: Setup) {
    && (forall row: nat, before, behind :: MarkedAt(lines, setup.rows, row, before, behind) ==>
          sh.hardwareRow == row && t.col == Width(before) && t.shown == setup.showCursor)
    && (Unmarked(lines, setup.rows) ==> !t.shown)
  }

  lemma PositionedBehind(s: Screen, buffer: seq<Command>, cursor: Option<CursorPos>, total: nat, hardwareRow: nat,
                         show: bool)
    requires s.Valid()
    ensures var t := s.Run(buffer + CursorCommands(cursor, total, hardwareRow, show));
            && (cursor.Some? && total > 0 ==> t.col == cursor.value.col && t.shown == show)
            && (cursor.None? || total == 0 ==> !t.shown)
  {
    RunConcat(s, buffer, CursorCommands(cursor, total, hardwareRow, show));
    if cursor.None? || total == 0 {
      Run1(s.Run(buffer), HideCursor);
    } else {
      CursorCommandsRun(s.Run(buffer), cursor.value, total, hardwareRow, show);
    }
  }

  /** The cursor was positioned last: on `cursor`, or not at all. */
  ghost predicate Positioned(s: Screen, o: Outcome, cursor: Option<CursorPos>, total: nat, show: bool)
    requires s.Valid()
  {
    && (cursor.Some? && cursor.value.row < total ==>
          && s.Run(o.out).col == cursor.value.col && s.Run(o.out).shown == show
          && o.shadow.hardwareRow == cursor.value.row)
    && (cursor.None? || total == 0 ==> !s.Run(o.out).shown)
  }

  lemma FullPositions(sh: Shadow, s: Screen, setup: Setup, lines: seq<Line>, cursor: Option<CursorPos>, clear: bool)
    requires s.Valid()
    ensures Positioned(s, Full(sh, setup, lines, cursor, clear), cursor, |lines|, setup.showCursor)
  {
    PositionedBehind(s, FullCommands(sh, lines, clear), cursor, |lines|, Max(0, |lines| - 1), setup.showCursor);
  }

  lemma TailPositions(sh: Shadow, s: Screen, setup: Setup, lines: seq<Line>, cursor: Option<CursorPos>, top: nat)
    requires s.Valid() && |sh.lines| > |lines|
    ensures Positioned(s, DeleteTail(sh, setup, lines, cursor, top), cursor, |lines|, setup.showCursor)
  {
    PositionedBehind(s, DeleteTailCommands(sh, lines), cursor, |lines|, Max(0, |lines| - 1), setup.showCursor);
  }

  lemma UpdatePositions(sh: Shadow, s: Screen, setup: Setup, lines: seq<Line>, cursor: Option<CursorPos>, top: nat,
                        finalRow: int, scrolled: nat)
    requires s.Valid() && 0 <= FirstChanged(sh.lines, lines) < |lines|
    ensures Positioned(s, Updated(sh, setup, lines, cursor, top, finalRow, scrolled), cursor, |lines|, setup.showCursor)
  {
    PositionedBehind(s, UpdateCommands(sh, setup.rows, lines, top), cursor, |lines|, Max(0, finalRow),
                     setup.showCursor);
  }

  /** Whatever the way of drawing, positioning the cursor comes last. */
  lemma DrawPositions(sh: Shadow, s: Screen, setup: Setup, lines: seq<Line>, cursor: Option<CursorPos>, path: Path)
    requires s.Valid()
    requires path.TailDeleted? ==> |sh.lines| > |lines|
    requires path.Incremental? ==> 0 <= FirstChanged(sh.lines, lines) < |lines|
    requires Draw(sh, setup, lines, cursor, path).Drawn?
    ensures Positioned(s, Draw(sh, setup, lines, cursor, path), cursor, |lines|, setup.showCursor)
  {
    var top := BelievedTop(sh, setup);
    match path {
      case FirstRender => FullPositions(sh, s, setup, lines, cursor, false);
      case Redraw => FullPositions(sh, s, setup, lines, cursor, true);
      case Unchanged =>
        var place := CursorCommands(cursor, |lines|, sh.hardwareRow, setup.showCursor);
        assert [] + place == place;
        PositionedBehind(s, [], cursor, |lines|, sh.hardwareRow, setup.showCursor);
      case TailDeleted => TailPositions(sh, s, setup, lines, cursor, top);
      case Incremental =>
        UpdatePositions(sh, s, setup, lines, cursor, top, FinalRow(RenderEnd(sh.lines, lines), |sh.lines|, |lines|),
                        ScrollInto(sh.hardwareRow, setup.rows, top, PaintStart(sh.lines, lines)).1);
    }
  }

  /** Every render that draws leaves the cursor at the marker of its frame, whatever the terminal showed before. */
  lemma RenderPlacesCursor(sh: Shadow, s: Screen, setup: Setup, frame: Frame)
    requires s.Valid() && Plan(sh, setup, frame).Drawn?
    ensures CursorPlaced(Plan(sh, setup, frame).shadow, s.Run(Plan(sh, setup, frame).out), frame.lines, setup)
  {
    var lines := Prepared(frame, setup.rows);
    DrawPositions(sh, s, setup, lines, Cursor(frame.lines, setup.rows), Choose(sh, setup, lines, frame.overlays));
    NoCursorWithoutMarker(frame.lines, setup.rows);
    forall row: nat, before, behind | MarkedAt(frame.lines, setup.rows, row, before, behind)
      ensures Cursor(frame.lines, setup.rows) == Some(CursorPos(row, Width(before)))
    {
      MarkerIsFound(frame.lines, setup.rows, row, before, behind);
    }
  }

  /** Where the cursor stands and whether it is shown depends on the frame and the setting alone. */
  lemma SameCursor(sh: Shadow, s: Screen, setup: Setup, frame: Frame, path: Path)
    requires s.Valid() && path in {FirstRender, Redraw} && Plan(sh, setup, frame).Drawn?
    ensures var lines := Prepared(frame, setup.rows);
            var t := s.Run(Plan(sh, setup, frame).out);
            var f := s.Run(Full(sh, setup, lines, Cursor(frame.lines, setup.rows), path.Redraw?).out);
            t.shown == f.shown && (!Unmarked(frame.lines, setup.rows) ==> t.col == f.col)
  {
    var lines, cursor := Prepared(frame, setup.rows), Cursor(frame.lines, setup.rows);
    NoCursorWithoutMarker(frame.lines, setup.rows);
    DrawPositions(sh, s, setup, lines, cursor, Choose(sh, setup, lines, frame.overlays));
    DrawPositions(sh, s, setup, lines, cursor, path);
  }

  /** Stopping leaves everything shown in place and parks the visible cursor at the start of a row below it. */
  lemma StopLeavesFrame(sh: Shadow, s: Screen)
    requires Synced(sh, s)
    ensures var t, below := s.Run(StopCommands(sh)), s.Top() - sh.viewportTop + |sh.lines|;
            && t.shown && t.images == s.images && s.tape <= t.tape
            && (sh.lines == [] ==> t.cursor == s.cursor)
            && (sh.lines != [] ==> t.col == 0 && t.cursor == if below < |s.tape| then below + 1 else below)
  {
    if sh.lines == [] {
      assert [] + [ShowCursor] == [ShowCursor];
      Run1(s, ShowCursor);
    } else {
      ParkRun(s, |sh.lines| - sh.hardwareRow);
    }
  }

  lemma ParkRun(s: Screen, d: int)
    requires s.Valid()
    ensures s.Run(Move(d) + NEWLINE + [ShowCursor])
         == s.(cursor := Max(s.Top(), Min(|s.tape| - 1, s.cursor + d))).Apply(LineFeed).(col := 0, shown := true)
  {
    RunThree(s, Move(d), NEWLINE, [ShowCursor]);
    ClampedMoveRun(s, d);
    NewlineRun(s.Run(Move(d)));
    Run1(s.Run(Move(d)).Run(NEWLINE), ShowCursor);
  }
}
