/** The differential renderer as the program runs it: an object that keeps a
    shadow of the terminal and emits only what changed. Every method is proved
    against the functions of RendererSpec. */
module Renderer {
  import opened Common
  import opened Lines
  import opened TerminalModel
  import opened RendererSpec
  import RendererCursor

  /** Find the cursor marker in the visible rows and strip it. */
  method ExtractCursorPosition(frame: seq<Line>, height: nat) returns (lines: seq<Line>, cursor: Option<CursorPos>)
    ensures lines == WithoutMarker(frame, height)
    ensures cursor == Cursor(frame, height)
    ensures forall row: nat, before, behind :: MarkedAt(frame, height, row, before, behind) ==>
              cursor == Some(CursorPos(row, Width(before))) && lines == frame[row := before + behind]
    ensures cursor.None? <==> Unmarked(frame, height)
    ensures cursor.None? ==> lines == frame
  {
    forall row: nat, before, behind | MarkedAt(frame, height, row, before, behind)
      ensures Cursor(frame, height) == Some(CursorPos(row, Width(before)))
      ensures WithoutMarker(frame, height) == frame[row := before + behind]
    {
      MarkerIsFound(frame, height, row, before, behind);
    }
    NoCursorWithoutMarker(frame, height);
    lines := frame;
    var viewportTop := VisibleStart(frame, height);
    var row := |frame|;
    while row > viewportTop
      invariant 0 <= row <= |frame|
      invariant MarkerRow(frame, viewportTop, |frame|) == MarkerRow(frame, viewportTop, row)
    {
      row := row - 1;
      var index := MarkerIndex(frame[row]);
      if index < |frame[row]| {
        lines := lines[row := frame[row][..index] + frame[row][index + 1..]];
        return lines, Some(CursorPos(row, Width(frame[row][..index])));
      }
    }
    return lines, None;
  }

  method ApplyLineResets(frame: seq<Line>) returns (lines: seq<Line>)
    ensures lines == WithResets(frame)
  {
    lines := frame;
    var i := 0;
    while i < |lines|
      invariant 0 <= i <= |lines| == |frame|
      invariant forall k :: 0 <= k < |lines| ==> lines[k] == if k < i then WithReset(frame[k]) else frame[k]
    {
      if !IsImageLine(lines[i]) {
        lines := lines[i := lines[i] + [SegmentReset]];
      }
      i := i + 1;
    }
  }

  method CollectKittyImageIds(lines: seq<Line>) returns (ids: seq<nat>)
    ensures ids == CollectIds(lines, |lines|)
  {
    ids := [];
    for i := 0 to |lines|
      invariant ids == CollectIds(lines, i)
    {
      ids := Insert(ids, ExtractedIds(lines[i]));
    }
  }

  method DeleteKittyImages(ids: seq<nat>) returns (buffer: seq<Command>)
    ensures buffer == Deletions(ids)
  {
    buffer := [];
    for i := 0 to |ids|
      invariant buffer == Deletions(ids)[..i]
    {
      buffer := buffer + [DeleteImage(ids[i])];
    }
  }

  /** The loop over both frames that finds the changed range. */
  method ChangedRange(prev: seq<Line>, next: seq<Line>) returns (first: int, last: int)
    ensures first == FirstDifference(prev, next, MaxLength(prev, next))
    ensures last == LastDifference(prev, next, MaxLength(prev, next))
  {
    first, last := -1, -1;
    for i := 0 to MaxLength(prev, next)
      invariant first == FirstDifference(prev, next, i)
      invariant last == LastDifference(prev, next, i)
    {
      if LineAt(prev, i) != LineAt(next, i) {
        if first == -1 {
          first := i;
        }
        last := i;
      }
    }
  }

  method MoveRows(lineDiff: int) returns (buffer: seq<Command>)
    ensures buffer == Move(lineDiff)
  {
    buffer := [];
    if lineDiff > 0 {
      buffer := [Down(lineDiff)];
    } else if lineDiff < 0 {
      buffer := [Up(-lineDiff)];
    }
  }

  class Tui {
    const terminal: Terminal
    const termux: bool
    var previousLines: seq<Line>
    var previousKittyImageIds: seq<nat>
    var previousWidth: int
    var previousHeight: int
    var cursorRow: nat
    var hardwareCursorRow: nat
    var maxLinesRendered: nat
    var previousViewportTop: nat
    var fullRedrawCount: nat
    var showHardwareCursor: bool
    var clearOnShrink: bool
    var stopped: bool

    function State(): Shadow
      reads this`previousLines, this`previousKittyImageIds, this`previousWidth, this`previousHeight, this`cursorRow,
            this`hardwareCursorRow, this`maxLinesRendered, this`previousViewportTop, this`fullRedrawCount
    {
      Shadow(previousLines, previousKittyImageIds, previousWidth, previousHeight, cursorRow, hardwareCursorRow,
             maxLinesRendered, previousViewportTop, fullRedrawCount)
    }

    function Settings(): Setup
      reads this`showHardwareCursor, this`clearOnShrink, terminal
    {
      Setup(terminal.columns, terminal.screen.height, termux, clearOnShrink, showHardwareCursor)
    }

    constructor (terminal: Terminal, termux: bool, showHardwareCursor: bool, clearOnShrink: bool)
      ensures this.terminal == terminal && this.termux == termux
      ensures this.showHardwareCursor == showHardwareCursor && this.clearOnShrink == clearOnShrink
      ensures State() == NOTHING_SHOWN && !stopped
    {
      this.terminal, this.termux := terminal, termux;
      this.showHardwareCursor, this.clearOnShrink := showHardwareCursor, clearOnShrink;
      previousLines, previousKittyImageIds, previousWidth, previousHeight := [], [], 0, 0;
      cursorRow, hardwareCursorRow, maxLinesRendered, previousViewportTop, fullRedrawCount := 0, 0, 0, 0, 0;
      stopped := false;
    }

    method ExpandLastChangedForKittyImages(firstChanged: nat, lastChanged: int) returns (expanded: int)
      ensures expanded == Widened(previousLines, firstChanged, lastChanged, |previousLines|)
    {
      expanded := lastChanged;
      var i := firstChanged;
      while i < |previousLines|
        invariant firstChanged <= i
        invariant i <= |previousLines| || i == firstChanged
        invariant expanded == Widened(previousLines, firstChanged, lastChanged, Min(i, |previousLines|))
      {
        if ImageId(previousLines[i]).Some? {
          expanded := Max(expanded, i);
        }
        i := i + 1;
      }
    }

    method DeleteChangedKittyImages(firstChanged: int, lastChanged: int) returns (buffer: seq<Command>)
      ensures buffer == Deletions(ChangedIds(previousLines, firstChanged, lastChanged))
    {
      if firstChanged < 0 || lastChanged < firstChanged {
        return [];
      }
      var ids: seq<nat> := [];
      var maxLine := Min(lastChanged, |previousLines| - 1);
      var i := firstChanged;
      while i <= maxLine
        invariant firstChanged <= i
        invariant i <= maxLine + 1 || i == firstChanged
        invariant ids == IdsBetween(previousLines, firstChanged, Min(i, maxLine + 1))
      {
        ids := Insert(ids, ExtractedIds(previousLines[i]));
        i := i + 1;
      }
      buffer := DeleteKittyImages(ids);
    }

    method PositionHardwareCursor(cursorPos: Option<CursorPos>, totalLines: nat)
      requires terminal.screen.Valid()
      modifies this`hardwareCursorRow, terminal`screen
      ensures terminal.screen == old(terminal.screen).Run(
                CursorCommands(cursorPos, totalLines, old(hardwareCursorRow), showHardwareCursor))
      ensures hardwareCursorRow == CursorTarget(cursorPos, totalLines, old(hardwareCursorRow))
    {
      if cursorPos.None? || totalLines <= 0 {
        terminal.Write([HideCursor]);
        return;
      }
      var targetRow := Max(0, Min(cursorPos.value.row, totalLines - 1));
      var buffer := MoveRows(targetRow - hardwareCursorRow);
      buffer := buffer + [Column(cursorPos.value.col + 1)];
      terminal.Write(buffer);
      hardwareCursorRow := targetRow;
      var visibility := if showHardwareCursor then ShowCursor else HideCursor;
      ghost var before := old(terminal.screen);
      RunConcat(before, buffer, [visibility]);
      assert buffer + [visibility] == CursorCommands(cursorPos, totalLines, old(hardwareCursorRow), showHardwareCursor);
      terminal.Write([visibility]);
    }

    /** Write a buffer that leaves the cursor on `row`, then position the hardware cursor. */
    method Commit(buffer: seq<Command>, row: nat, cursorPos: Option<CursorPos>, totalLines: nat)
      requires terminal.screen.Valid()
      modifies this`hardwareCursorRow, terminal`screen
      ensures terminal.screen == old(terminal.screen).Run(
                buffer + CursorCommands(cursorPos, totalLines, row, showHardwareCursor))
      ensures hardwareCursorRow == CursorTarget(cursorPos, totalLines, row)
    {
      RunConcat(terminal.screen, buffer, CursorCommands(cursorPos, totalLines, row, showHardwareCursor));
      terminal.Write(buffer);
      hardwareCursorRow := row;
      PositionHardwareCursor(cursorPos, totalLines);
    }

    /** Record the frame now on the terminal. */
    method Remember(newLines: seq<Line>)
      modifies this`previousLines, this`previousKittyImageIds, this`previousWidth, this`previousHeight
      ensures previousLines == newLines
      ensures previousKittyImageIds == CollectIds(newLines, |newLines|)
      ensures previousWidth == terminal.columns && previousHeight == terminal.screen.height
    {
      previousLines := newLines;
      previousKittyImageIds := CollectKittyImageIds(newLines);
      previousWidth := terminal.columns;
      previousHeight := terminal.screen.height;
    }

    method Stop()
      requires terminal.screen.Valid()
      modifies this`stopped, terminal`screen
      ensures stopped
      ensures terminal.screen == old(terminal.screen).Run(StopCommands(State()))
    {
      stopped := true;
      ghost var before := terminal.screen;
      ghost var written := [];
      if |previousLines| > 0 {
        var targetRow := |previousLines|;
        var lineDiff := targetRow - hardwareCursorRow;
        var moving := MoveRows(lineDiff);
        terminal.Write(moving);
        written := moving;
        RunConcat(before, written, NEWLINE);
        terminal.Write([CarriageReturn, LineFeed]);
        written := written + NEWLINE;
      }
      RunConcat(before, written, [ShowCursor]);
      terminal.Write([ShowCursor]);
    }

    method FullBuffer(newLines: seq<Line>, clear: bool) returns (buffer: seq<Command>)
      ensures buffer == FullCommands(State(), newLines, clear)
    {
      var clearing := [];
      if clear {
        var deletions := DeleteKittyImages(previousKittyImageIds);
        clearing := deletions + [EraseDisplay, Home, EraseScrollback];
      }
      var painting := [];
      for i := 0 to |newLines|
        invariant painting == Painted(newLines, 0, i, false)
      {
        if i > 0 {
          painting := painting + [CarriageReturn, LineFeed];
        }
        painting := painting + [Print(newLines[i])];
      }
      buffer := [BeginSync] + clearing + painting + [EndSync];
    }

    method FullRender(newLines: seq<Line>, cursorPos: Option<CursorPos>, clear: bool)
      requires terminal.screen.Valid()
      modifies this`previousLines, this`previousKittyImageIds, this`previousWidth, this`previousHeight, this`cursorRow,
               this`hardwareCursorRow, this`maxLinesRendered, this`previousViewportTop, this`fullRedrawCount,
                   terminal`screen
      ensures State() == Full(old(State()), old(Settings()), newLines, cursorPos, clear).shadow
      ensures terminal.screen
          == old(terminal.screen).Run(Full(old(State()), old(Settings()), newLines, cursorPos, clear).out)
    {
      var buffer := FullBuffer(newLines, clear);
      fullRedrawCount := fullRedrawCount + 1;
      cursorRow := Max(0, |newLines| - 1);
      Commit(buffer, cursorRow, cursorPos, |newLines|);
      RecordFull(newLines, clear);
    }

    /** Record a full redraw. */
    method RecordFull(newLines: seq<Line>, clear: bool)
      modifies this`previousLines, this`previousKittyImageIds, this`previousWidth, this`previousHeight,
               this`maxLinesRendered, this`previousViewportTop
      ensures State() == Shadow(newLines, CollectIds(newLines, |newLines|), terminal.columns, terminal.screen.height,
                                cursorRow, hardwareCursorRow,
                                if clear then |newLines| else Max(old(maxLinesRendered), |newLines|),
                                Max(0, Max(terminal.screen.height, |newLines|) - terminal.screen.height),
                                fullRedrawCount)
    {
      maxLinesRendered := if clear then |newLines| else Max(maxLinesRendered, |newLines|);
      var height := terminal.screen.height;
      var bufferLength := Max(height, |newLines|);
      previousViewportTop := Max(0, bufferLength - height);
      Remember(newLines);
    }

    /** Commands that move to the end of the shorter frame, erase what follows it and come back. */
    method EraseTail(newLines: seq<Line>) returns (buffer: seq<Command>)
      requires |previousLines| > |newLines|
      ensures buffer == TailCommands(State(), newLines)
    {
      var lineDiff := Max(0, |newLines| - 1) - hardwareCursorRow;
      var moving := MoveRows(lineDiff);
      var extraLines := |previousLines| - |newLines|;
      var clearStartOffset := if |newLines| == 0 then 0 else 1;
      var stepping := if extraLines > 0 && clearStartOffset > 0 then [Down(clearStartOffset)] else [];
      var erasing := [];
      for i := 0 to extraLines
        invariant erasing == ErasedDown(i, extraLines)
      {
        ghost var before := erasing;
        erasing := erasing + [CarriageReturn, EraseLine];
        if i < extraLines - 1 {
          erasing := erasing + [Down(1)];
        }
        assert erasing == before + EraseRow(i + 1 < extraLines);
      }
      var moveBack := Max(0, extraLines - 1 + clearStartOffset);
      var returning := MoveRows(-moveBack);
      buffer := moving + [CarriageReturn] + stepping + erasing + returning;
      Associate(moving, [CarriageReturn], stepping);
      Associate(moving + [CarriageReturn] + stepping, erasing, returning);
      assert [CarriageReturn] + stepping == if |newLines| > 0 then [CarriageReturn, Down(1)] else [CarriageReturn];
    }

    /** The delete-only branch, once it is known not to need a full redraw. */
    method DeleteTrailingLines(newLines: seq<Line>, cursorPos: Option<CursorPos>, prevViewportTop: nat,
                               firstChanged: int, lastChanged: int)
      requires terminal.screen.Valid()
      requires |previousLines| > |newLines|
      requires firstChanged == FirstChanged(previousLines, newLines)
      requires lastChanged == LastChanged(previousLines, newLines)
      modifies this`previousLines, this`previousKittyImageIds, this`previousWidth, this`previousHeight, this`cursorRow,
               this`hardwareCursorRow, this`maxLinesRendered, this`previousViewportTop, this`fullRedrawCount,
                   terminal`screen
      ensures State() == DeleteTail(old(State()), old(Settings()), newLines, cursorPos, prevViewportTop).shadow
      ensures terminal.screen ==
              old(terminal.screen).Run(DeleteTail(old(State()), old(Settings()), newLines, cursorPos,
                                                  prevViewportTop).out)
    {
      var buffer := [BeginSync];
      var deletions := DeleteChangedKittyImages(firstChanged, lastChanged);
      var erasing := EraseTail(newLines);
      buffer := buffer + deletions + erasing + [EndSync];
      cursorRow := Max(0, |newLines| - 1);
      Commit(buffer, cursorRow, cursorPos, |newLines|);
      Remember(newLines);
      previousViewportTop := prevViewportTop;
    }

    /** Commands and rows scrolled to bring the paint position into the viewport. */
    method ScrollToPaintPosition(moveTargetRow: nat, prevViewportTop: nat) returns (buffer: seq<Command>, scroll: nat)
      requires terminal.screen.Valid()
      ensures (buffer, scroll) == ScrollInto(hardwareCursorRow, terminal.screen.height, prevViewportTop, moveTargetRow)
    {
      var height := terminal.screen.height;
      var prevViewportBottom := prevViewportTop + height - 1;
      buffer, scroll := [], 0;
      if moveTargetRow > prevViewportBottom {
        var currentScreenRow := Max(0, Min(height - 1, hardwareCursorRow - prevViewportTop));
        var moveToBottom := height - 1 - currentScreenRow;
        var moving := MoveRows(moveToBottom);
        scroll := moveTargetRow - prevViewportBottom;
        var scrolling := [];
        for i := 0 to scroll
          invariant scrolling == Newlines(i)
        {
          scrolling := scrolling + [CarriageReturn, LineFeed];
        }
        buffer := moving + scrolling;
      }
    }

    /** Commands that put the cursor on the first row to paint. */
    method MoveToPaintPosition(newLines: seq<Line>, believedTop: nat, firstChanged: nat)
      returns (buffer: seq<Command>, prevViewportTop: nat)
      requires terminal.screen.Valid()
      requires firstChanged == FirstChanged(previousLines, newLines)
      ensures prevViewportTop == believedTop
                + ScrollInto(hardwareCursorRow, terminal.screen.height, believedTop,
                             PaintStart(previousLines, newLines)).1
      ensures buffer == ApproachCommands(hardwareCursorRow, terminal.screen.height, believedTop,
                                         PaintStart(previousLines, newLines), AppendsOnly(previousLines, newLines))
    {
      var appendStart := |newLines| > |previousLines| && firstChanged == |previousLines| && firstChanged > 0;
      var moveTargetRow := if appendStart then firstChanged - 1 else firstChanged;
      var scrolling, scroll := ScrollToPaintPosition(moveTargetRow, believedTop);
      var hardwareRow := if scroll > 0 then moveTargetRow else hardwareCursorRow;
      var viewportTop := believedTop + scroll;
      prevViewportTop := believedTop + scroll;
      var moving := MoveRows((moveTargetRow - viewportTop) - (hardwareRow - prevViewportTop));
      buffer := scrolling + moving + (if appendStart then [CarriageReturn, LineFeed] else [CarriageReturn]);
    }

    /** Commands that paint the changed rows, or the first of them that is too wide. */
    method PaintChanged(newLines: seq<Line>, firstChanged: nat, renderEnd: int)
      returns (buffer: seq<Command>, crash: Option<nat>)
      requires firstChanged == FirstChanged(previousLines, newLines) < |newLines|
      requires renderEnd == RenderEnd(previousLines, newLines)
      ensures crash == FirstTooWide(newLines, firstChanged, PaintLimit(previousLines, newLines), terminal.columns)
      ensures crash.None? ==> buffer == Painted(newLines, firstChanged, PaintLimit(previousLines, newLines), true)
    {
      buffer := [];
      var i := firstChanged;
      while i <= renderEnd
        invariant firstChanged <= i <= PaintLimit(previousLines, newLines)
        invariant FirstTooWide(newLines, firstChanged, i, terminal.columns) == None
        invariant buffer == Painted(newLines, firstChanged, i, true)
      {
        if i > firstChanged {
          buffer := buffer + [CarriageReturn, LineFeed];
        }
        buffer := buffer + [EraseLine];
        if !IsImageLine(newLines[i]) && Width(newLines[i]) > terminal.columns {
          FirstTooWideFound(newLines, firstChanged, i, PaintLimit(previousLines, newLines), terminal.columns);
          return [], Some(i);
        }
        buffer := buffer + [Print(newLines[i])];
        i := i + 1;
      }
      crash := None;
    }

    /** Commands that erase the rows a shorter frame leaves behind. */
    method EraseLeftovers(newLines: seq<Line>, renderEnd: int) returns (buffer: seq<Command>, finalCursorRow: int)
      ensures buffer == ShrinkCommands(renderEnd, |previousLines|, |newLines|)
      ensures finalCursorRow == FinalRow(renderEnd, |previousLines|, |newLines|)
    {
      buffer := [];
      finalCursorRow := renderEnd;
      if |previousLines| > |newLines| {
        var moving := [];
        if renderEnd < |newLines| - 1 {
          moving := MoveRows(|newLines| - 1 - renderEnd);
          finalCursorRow := |newLines| - 1;
        }
        var extraLines := |previousLines| - |newLines|;
        var erasing := [];
        for i := 0 to extraLines
          invariant erasing == ErasedBelow(i)
        {
          erasing := erasing + [CarriageReturn, LineFeed, EraseLine];
        }
        buffer := moving + erasing + [Up(extraLines)];
        Associate(moving, erasing, [Up(extraLines)]);
      }
    }

    /** Commands that repaint from the first changed line to the last, or the first row too wide. */
    method BuildUpdate(newLines: seq<Line>, believedTop: nat, firstChanged: nat, lastChanged: int)
      returns (buffer: seq<Command>, prevViewportTop: nat, finalCursorRow: int, crash: Option<nat>)
      requires terminal.screen.Valid()
      requires firstChanged == FirstChanged(previousLines, newLines) < |newLines|
      requires lastChanged == LastChanged(previousLines, newLines)
      ensures crash == FirstTooWide(newLines, firstChanged, PaintLimit(previousLines, newLines), terminal.columns)
      ensures crash.None? ==> buffer == UpdateCommands(State(), terminal.screen.height, newLines, believedTop)
      ensures prevViewportTop == believedTop
                + ScrollInto(hardwareCursorRow, terminal.screen.height, believedTop,
                             PaintStart(previousLines, newLines)).1
      ensures crash.None? ==>
          finalCursorRow == FinalRow(RenderEnd(previousLines, newLines), |previousLines|, |newLines|)
    {
      buffer, finalCursorRow := [BeginSync], 0;
      var deletions := DeleteChangedKittyImages(firstChanged, lastChanged);
      var moves;
      moves, prevViewportTop := MoveToPaintPosition(newLines, believedTop, firstChanged);
      var renderEnd := Min(lastChanged, |newLines| - 1);
      var painting;
      painting, crash := PaintChanged(newLines, firstChanged, renderEnd);
      if crash.Some? {
        return;
      }
      var erasing;
      erasing, finalCursorRow := EraseLeftovers(newLines, renderEnd);
      buffer := buffer + deletions + moves + painting + erasing + [EndSync];
    }

    /** Repaint from the first changed line to the last. */
    method UpdateChangedLines(newLines: seq<Line>, cursorPos: Option<CursorPos>, believedTop: nat,
                              firstChanged: nat, lastChanged: int)
      returns (crash: Option<nat>)
      requires terminal.screen.Valid()
      requires firstChanged == FirstChanged(previousLines, newLines) < |newLines|
      requires lastChanged == LastChanged(previousLines, newLines)
      modifies this`previousLines, this`previousKittyImageIds, this`previousWidth, this`previousHeight, this`cursorRow,
               this`hardwareCursorRow, this`maxLinesRendered, this`previousViewportTop, this`fullRedrawCount,
               this`stopped, terminal`screen
      ensures State() == Update(old(State()), old(Settings()), newLines, cursorPos, believedTop).shadow
      ensures terminal.screen ==
              old(terminal.screen).Run(Update(old(State()), old(Settings()), newLines, cursorPos, believedTop).out)
      ensures crash == FirstTooWide(newLines, firstChanged, PaintLimit(old(previousLines), newLines), terminal.columns)
      ensures stopped == (old(stopped) || crash.Some?)
    {
      var buffer, prevViewportTop, finalCursorRow;
      buffer, prevViewportTop, finalCursorRow, crash := BuildUpdate(newLines, believedTop, firstChanged, lastChanged);
      if crash.Some? {
        Stop();
        return crash;
      }
      CommitUpdate(newLines, cursorPos, believedTop, buffer, prevViewportTop, finalCursorRow);
    }

    /** Write an update that is not too wide, and record it. */
    method CommitUpdate(newLines: seq<Line>, cursorPos: Option<CursorPos>, ghost believedTop: nat,
                        buffer: seq<Command>, prevViewportTop: nat, finalCursorRow: int)
      requires terminal.screen.Valid() && 0 <= FirstChanged(previousLines, newLines) < |newLines|
      requires buffer == UpdateCommands(State(), terminal.screen.height, newLines, believedTop)
      requires believedTop <= prevViewportTop
      modifies this`previousLines, this`previousKittyImageIds, this`previousWidth, this`previousHeight, this`cursorRow,
               this`hardwareCursorRow, this`maxLinesRendered, this`previousViewportTop, terminal`screen
      ensures var o := Updated(old(State()), old(Settings()), newLines, cursorPos, believedTop, finalCursorRow,
                               prevViewportTop - believedTop);
              State() == o.shadow && terminal.screen == old(terminal.screen).Run(o.out)
    {
      Commit(buffer, Max(0, finalCursorRow), cursorPos, |newLines|);
      RecordUpdate(newLines, prevViewportTop, finalCursorRow);
    }

    /** Record an incremental update. */
    method RecordUpdate(newLines: seq<Line>, prevViewportTop: nat, finalCursorRow: int)
      requires terminal.screen.Valid()
      modifies this`previousLines, this`previousKittyImageIds, this`previousWidth, this`previousHeight, this`cursorRow,
               this`maxLinesRendered, this`previousViewportTop
      ensures State() == Shadow(newLines, CollectIds(newLines, |newLines|), terminal.columns, terminal.screen.height,
                                Max(0, |newLines| - 1), hardwareCursorRow, Max(old(maxLinesRendered), |newLines|),
                                Max(prevViewportTop, finalCursorRow - terminal.screen.height + 1), fullRedrawCount)
    {
      cursorRow := Max(0, |newLines| - 1);
      maxLinesRendered := Max(maxLinesRendered, |newLines|);
      previousViewportTop := Max(prevViewportTop, finalCursorRow - terminal.screen.height + 1);
      Remember(newLines);
    }

    /** The range of rows to repaint: appended rows count as changed, and images widen it. */
    method CompareFrames(newLines: seq<Line>) returns (firstChanged: int, lastChanged: int)
      ensures firstChanged == FirstChanged(previousLines, newLines)
      ensures lastChanged == LastChanged(previousLines, newLines)
    {
      firstChanged, lastChanged := ChangedRange(previousLines, newLines);
      var appendedLines := |newLines| > |previousLines|;
      if appendedLines {
        if firstChanged == -1 {
          firstChanged := |previousLines|;
        }
        lastChanged := |newLines| - 1;
      }
      if firstChanged != -1 {
        lastChanged := ExpandLastChangedForKittyImages(firstChanged, lastChanged);
      }
    }

    /** Where the viewport is taken to begin: after a height change, as far down as the buffer allows. */
    method PreviousTop(heightChanged: bool) returns (top: nat)
      requires heightChanged == HeightChanged(State(), Settings())
      ensures top == BelievedTop(State(), Settings())
    {
      var height := terminal.screen.height;
      var previousBufferLength := if previousHeight > 0 then previousViewportTop + previousHeight else height;
      top := if heightChanged then Max(0, previousBufferLength - height) else previousViewportTop;
    }

    /** Decide between the ways of drawing, and find the changed range where it is needed. */
    method ChoosePath(newLines: seq<Line>, overlays: bool)
      returns (path: Path, prevViewportTop: nat, firstChanged: int, lastChanged: int)
      ensures path == Choose(State(), Settings(), newLines, overlays)
      ensures prevViewportTop == BelievedTop(State(), Settings())
      ensures path.TailDeleted? || path.Incremental? ==>
                firstChanged == FirstChanged(previousLines, newLines)
                    && lastChanged == LastChanged(previousLines, newLines)
    {
      var width := terminal.columns;
      var height := terminal.screen.height;
      var widthChanged := previousWidth != 0 && previousWidth != width;
      var heightChanged := previousHeight != 0 && previousHeight != height;
      prevViewportTop := PreviousTop(heightChanged);
      firstChanged, lastChanged := -1, -1;

      if |previousLines| == 0 && !widthChanged && !heightChanged {
        return FirstRender, prevViewportTop, firstChanged, lastChanged;
      }
      if widthChanged {
        return Redraw, prevViewportTop, firstChanged, lastChanged;
      }
      if heightChanged && !termux {
        return Redraw, prevViewportTop, firstChanged, lastChanged;
      }
      if clearOnShrink && |newLines| < maxLinesRendered && !overlays {
        return Redraw, prevViewportTop, firstChanged, lastChanged;
      }

      firstChanged, lastChanged := CompareFrames(newLines);
      path := ChooseByRange(newLines, prevViewportTop, firstChanged, height);
    }

    /** Whether the changed range can be repainted in place. */
    method ChooseByRange(newLines: seq<Line>, prevViewportTop: nat, firstChanged: int, height: nat) returns (path: Path)
      ensures path == if firstChanged == -1 then Unchanged
                      else if firstChanged >= |newLines| then
                        if Max(0, |newLines| - 1) < prevViewportTop || |previousLines| - |newLines| > height then Redraw
                        else TailDeleted
                      else if firstChanged < prevViewportTop then Redraw
                      else Incremental
    {
      if firstChanged == -1 {
        path := Unchanged;
      } else if firstChanged >= |newLines| {
        if Max(0, |newLines| - 1) < prevViewportTop {
          path := Redraw;
        } else if |previousLines| - |newLines| > height {
          path := Redraw;
        } else {
          path := TailDeleted;
        }
      } else if firstChanged < prevViewportTop {
        path := Redraw;
      } else {
        path := Incremental;
      }
    }

    /** Draw the frame in the chosen way. */
    method DrawFrame(path: Path, newLines: seq<Line>, cursorPos: Option<CursorPos>, prevViewportTop: nat,
                     firstChanged: int, lastChanged: int)
      returns (crash: Option<nat>)
      requires terminal.screen.Valid()
      requires path.TailDeleted? ==> |previousLines| > |newLines|
      requires path.Incremental? ==> 0 <= firstChanged < |newLines|
      requires prevViewportTop == BelievedTop(State(), Settings())
      requires path.TailDeleted? || path.Incremental? ==>
                 firstChanged == FirstChanged(previousLines, newLines)
                     && lastChanged == LastChanged(previousLines, newLines)
      modifies this`previousLines, this`previousKittyImageIds, this`previousWidth, this`previousHeight, this`cursorRow,
               this`hardwareCursorRow, this`maxLinesRendered, this`previousViewportTop, this`fullRedrawCount,
               this`stopped, terminal`screen
      ensures State() == Draw(old(State()), old(Settings()), newLines, cursorPos, path).shadow
      ensures terminal.screen
          == old(terminal.screen).Run(Draw(old(State()), old(Settings()), newLines, cursorPos, path).out)
      ensures crash.Some? == Draw(old(State()), old(Settings()), newLines, cursorPos, path).TooWide?
      ensures stopped == (old(stopped) || crash.Some?)
    {
      crash := None;
      match path {
        case FirstRender =>
          FullRender(newLines, cursorPos, false);
        case Redraw =>
          FullRender(newLines, cursorPos, true);
        case Unchanged =>
          PositionHardwareCursor(cursorPos, |newLines|);
          previousViewportTop := prevViewportTop;
          previousHeight := terminal.screen.height;
        case TailDeleted =>
          DeleteTrailingLines(newLines, cursorPos, prevViewportTop, firstChanged, lastChanged);
        case Incremental =>
          crash := UpdateChangedLines(newLines, cursorPos, prevViewportTop, firstChanged, lastChanged);
      }
    }

    /** One render. The result is the row that was too wide for the terminal, if any. */
    method DoRender(frame: Frame) returns (crash: Option<nat>)
      requires terminal.screen.Valid()
      modifies this`previousLines, this`previousKittyImageIds, this`previousWidth, this`previousHeight, this`cursorRow,
               this`hardwareCursorRow, this`maxLinesRendered, this`previousViewportTop, this`fullRedrawCount,
               this`stopped, terminal`screen
      ensures old(stopped) ==>
                crash == None && State() == old(State()) && terminal.screen == old(terminal.screen) && stopped
      ensures !old(stopped) ==>
                && State() == Plan(old(State()), old(Settings()), frame).shadow
                && terminal.screen == old(terminal.screen).Run(Plan(old(State()), old(Settings()), frame).out)
                && stopped == Plan(old(State()), old(Settings()), frame).TooWide?
                && crash.Some? == stopped
      ensures !old(stopped) && crash.None? ==>
                RendererCursor.CursorPlaced(State(), terminal.screen, frame.lines, old(Settings()))
    {
      if stopped {
        return None;
      }
      if Plan(State(), Settings(), frame).Drawn? {
        RendererCursor.RenderPlacesCursor(State(), terminal.screen, Settings(), frame);
      }
      var newLines, cursorPos := ExtractCursorPosition(frame.lines, terminal.screen.height);
      newLines := ApplyLineResets(newLines);
      var path, prevViewportTop, firstChanged, lastChanged := ChoosePath(newLines, frame.overlays);
      crash := DrawFrame(path, newLines, cursorPos, prevViewportTop, firstChanged, lastChanged);
    }

    /** `requestRender(true)`: forget the terminal, so that the next render clears it. */
    method ForceRedraw()
      modifies this
      ensures State() == Forgotten(old(State()))
      ensures stopped == old(stopped) && showHardwareCursor == old(showHardwareCursor)
          && clearOnShrink == old(clearOnShrink)
    {
      previousLines := [];
      previousWidth := -1;
      previousHeight := -1;
      cursorRow := 0;
      hardwareCursorRow := 0;
      maxLinesRendered := 0;
      previousViewportTop := 0;
    }
  }

  lemma FirstTooWideFound(lines: seq<Line>, from: nat, row: nat, upto: nat, columns: nat)
    requires from <= row < upto <= |lines|
    requires FirstTooWide(lines, from, row, columns) == None
    requires !IsImageLine(lines[row]) && Width(lines[row]) > columns
    ensures FirstTooWide(lines, from, upto, columns) == Some(row)
    decreases upto
  {
    if row < upto - 1 {
      FirstTooWideFound(lines, from, row, upto - 1, columns);
    }
  }
}
