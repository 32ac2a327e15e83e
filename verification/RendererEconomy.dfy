/** How little a render writes: only the rows that changed, and no clearing unless it must. */
module RendererEconomy {
  import opened Common
  import opened Lines
  import opened TerminalModel
  import opened RendererSpec
  import opened RendererSafety
  import opened RendererRefinement
  import opened RendererTheorems

  /** The lines a command sequence prints. */
  function Printed(cs: seq<Command>): seq<Line> {
    if cs == [] then []
    else if cs[0].Print? then [cs[0].line] + Printed(cs[1..])
    else Printed(cs[1..])
  }

  lemma {:induction false} PrintedConcat(a: seq<Command>, b: seq<Command>)
    ensures Printed(a + b) == Printed(a) + Printed(b)
    decreases |a|
  {
    if a == [] {
      assert a + b == b;
    } else {
      assert (a + b)[1..] == a[1..] + b;
      PrintedConcat(a[1..], b);
    }
  }

  /** Neither prints nor clears the screen. */
  predicate Quiet(cs: seq<Command>) {
    forall k :: 0 <= k < |cs| ==> !cs[k].Print? && !cs[k].EraseDisplay?
  }

  lemma {:induction false} QuietPrintsNothing(cs: seq<Command>)
    requires Quiet(cs)
    ensures Printed(cs) == []
    decreases |cs|
  {
    if cs != [] {
      QuietPrintsNothing(cs[1..]);
    }
  }

  lemma QuietJoin(a: seq<Command>, b: seq<Command>)
    requires Quiet(a) && Quiet(b)
    ensures Quiet(a + b)
  {
  }

  lemma QuietSmall(ids: seq<nat>, d: int, step: bool, cursor: Option<CursorPos>, total: nat, row: nat, show: bool)
    ensures Quiet([BeginSync] + Deletions(ids)) && Quiet(Move(d)) && Quiet(ToTail(d, step))
    ensures Quiet(CursorCommands(cursor, total, row, show)) && Quiet([EndSync])
  {
  }

  lemma {:induction false} QuietNewlines(n: nat)
    ensures Quiet(Newlines(n))
  {
    if n > 0 {
      QuietNewlines(n - 1);
    }
  }

  lemma {:induction false} QuietErasing(i: nat, n: nat)
    requires i <= n
    ensures Quiet(ErasedDown(i, n)) && Quiet(ErasedBelow(i))
  {
    if i > 0 {
      QuietErasing(i - 1, n);
    }
  }

  lemma RowPrints(line: Line, erase: bool)
    ensures Printed(RowCommands(line, erase)) == [line]
  {
    assert Printed([Print(line)]) == [line] + Printed([Print(line)][1..]);
    assert [EraseLine, Print(line)][1..] == [Print(line)];
  }

  lemma {:induction false} PaintedPrints(lines: seq<Line>, from: nat, upto: nat, erase: bool)
    requires from <= upto <= |lines|
    ensures Printed(Painted(lines, from, upto, erase)) == lines[from..upto]
    ensures EraseDisplay !in Painted(lines, from, upto, erase)
    decreases upto
  {
    if from == upto - 1 {
      RowPrints(lines[from], erase);
      assert lines[from..upto] == [lines[from]];
    } else if from < upto {
      PaintedPrints(lines, from, upto - 1, erase);
      PrintsOneMore(Painted(lines, from, upto - 1, erase), lines[upto - 1], erase);
      assert lines[from..upto] == lines[from..upto - 1] + [lines[upto - 1]];
    }
  }

  lemma PrintsOneMore(painted: seq<Command>, line: Line, erase: bool)
    ensures Printed(painted + NEWLINE + RowCommands(line, erase)) == Printed(painted) + [line]
    ensures EraseDisplay !in painted ==> EraseDisplay !in painted + NEWLINE + RowCommands(line, erase)
  {
    var row := RowCommands(line, erase);
    RowPrints(line, erase);
    PrintedConcat(painted + NEWLINE, row);
    PrintedConcat(painted, NEWLINE);
    QuietPrintsNothing(NEWLINE);
  }

  /** Quiet commands around painted ones. */
  lemma PrintedAround(a: seq<Command>, painted: seq<Command>, b: seq<Command>, c: seq<Command>, d: seq<Command>)
    requires Quiet(a) && Quiet(b) && Quiet(c) && Quiet(d) && EraseDisplay !in painted
    ensures Printed(a + painted + b + c + d) == Printed(painted)
    ensures EraseDisplay !in a + painted + b + c + d
  {
    PrintedConcat(a + painted + b + c, d);
    PrintedConcat(a + painted + b, c);
    PrintedConcat(a + painted, b);
    PrintedConcat(a, painted);
    QuietPrintsNothing(a);
    QuietPrintsNothing(b);
    QuietPrintsNothing(c);
    QuietPrintsNothing(d);
  }

  lemma QuietApproach(hardwareRow: nat, rows: int, top: nat, target: nat, appends: bool)
    ensures Quiet(ApproachCommands(hardwareRow, rows, top, target, appends))
  {
    if target > top + rows - 1 { QuietNewlines(target - (top + rows - 1)); }
  }

  lemma QuietShrink(end: int, before: nat, after: nat)
    ensures Quiet(ShrinkCommands(end, before, after))
  {
    if before > after { QuietErasing(before - after, before - after); }
  }

  lemma PaintStartIsRow(prev: seq<Line>, lines: seq<Line>)
    requires 0 <= FirstChanged(prev, lines) < |lines|
    ensures PaintStart(prev, lines) >= 0
  {
  }

  /** An update prints its range of rows, once each and in order. */
  lemma UpdatePrints(sh: Shadow, setup: Setup, lines: seq<Line>, cursor: Option<CursorPos>, top: nat, row: nat,
                     out: seq<Command>)
    requires 0 <= FirstChanged(sh.lines, lines) < |lines|
    requires out == UpdateCommands(sh, setup.rows, lines, top)
                    + CursorCommands(cursor, |lines|, row, setup.showCursor)
    ensures Printed(out) == lines[FirstChanged(sh.lines, lines)..PaintLimit(sh.lines, lines)]
    ensures EraseDisplay !in out
  {
    var first, limit, end := FirstChanged(sh.lines, lines), PaintLimit(sh.lines, lines), RenderEnd(sh.lines, lines);
    var ids := ChangedIds(sh.lines, first, LastChanged(sh.lines, lines));
    PaintStartIsRow(sh.lines, lines);
    var approach := ApproachCommands(sh.hardwareRow, setup.rows, top, PaintStart(sh.lines, lines),
                                     AppendsOnly(sh.lines, lines));
    QuietSmall(ids, 0, false, cursor, |lines|, row, setup.showCursor);
    QuietApproach(sh.hardwareRow, setup.rows, top, PaintStart(sh.lines, lines), AppendsOnly(sh.lines, lines));
    QuietJoin([BeginSync] + Deletions(ids), approach);
    QuietShrink(end, |sh.lines|, |lines|);
    PaintedPrints(lines, first, limit, true);
    PrintedAround([BeginSync] + Deletions(ids) + approach, Painted(lines, first, limit, true),
                  ShrinkCommands(end, |sh.lines|, |lines|), [EndSync],
                  CursorCommands(cursor, |lines|, row, setup.showCursor));
  }

  /** Row `i` of the new frame differs from what was shown, or replaces an image. */
  predicate Stale(prev: seq<Line>, lines: seq<Line>, i: nat) {
    Differs(prev, lines, i) || (i < |prev| && ImageId(prev[i]).Some?)
  }

  /** `first` is the first row that differs, `limit` follows the last stale row from there on; a frame that lost rows
      is painted to its end. */
  ghost predicate ChangedRange(prev: seq<Line>, lines: seq<Line>, first: nat, limit: nat) {
    && first <= limit <= |lines|
    && (first < limit ==> Differs(prev, lines, first))
    && (first < limit ==> Stale(prev, lines, limit - 1) || limit == |lines| < |prev|)
    && (forall i :: 0 <= i < |lines| && Differs(prev, lines, i) ==> first <= i < limit)
    && (forall i :: first <= i < |lines| && Stale(prev, lines, i) && first < limit ==> i < limit)
  }

  lemma LimitIsStale(prev: seq<Line>, lines: seq<Line>)
    requires NonEmptyLines(prev) && NonEmptyLines(lines) && 0 <= FirstChanged(prev, lines) < |lines|
    ensures ChangedRange(prev, lines, FirstChanged(prev, lines), PaintLimit(prev, lines))
  {
    var first, n := FirstChanged(prev, lines), MaxLength(prev, lines);
    ChangedRows(prev, lines);
    UnpaintedRows(prev, lines);
    FirstDifferenceIsFirst(prev, lines, n);
    LastDifferenceIsLast(prev, lines, n);
    if |prev| != |lines| { LengthsDiffer(prev, lines); }
    WidenedIsImage(prev, first, if |lines| > |prev| then |lines| - 1 else LastDifference(prev, lines, n), |prev|);
  }

  lemma {:induction false} WidenedIsImage(prev: seq<Line>, first: nat, last: int, n: nat)
    requires n <= |prev|
    ensures var r := Widened(prev, first, last, n); r == last || (first <= r < n && ImageId(prev[r]).Some?)
  {
    if n > first {
      WidenedIsImage(prev, first, last, n - 1);
    }
  }

  lemma TailPrintsNothing(sh: Shadow, setup: Setup, lines: seq<Line>, cursor: Option<CursorPos>, out: seq<Command>)
    requires |sh.lines| > |lines|
    requires out == DeleteTailCommands(sh, lines)
                    + CursorCommands(cursor, |lines|, Max(0, |lines| - 1), setup.showCursor)
    ensures Quiet(out)
  {
    var ids := ChangedIds(sh.lines, FirstChanged(sh.lines, lines), LastChanged(sh.lines, lines));
    var extra, step := |sh.lines| - |lines|, |lines| > 0;
    var d, back := Max(0, |lines| - 1) - sh.hardwareRow, -(extra - 1 + if step then 1 else 0);
    QuietSmall(ids, d, step, cursor, |lines|, Max(0, |lines| - 1), setup.showCursor);
    QuietSmall(ids, back, step, cursor, |lines|, Max(0, |lines| - 1), setup.showCursor);
    QuietErasing(extra, extra);
    QuietJoin(ErasedDown(extra, extra), Move(back));
    QuietJoin(ToTail(d, step), FromTail(extra, step));
    QuietJoin([BeginSync] + Deletions(ids), TailCommands(sh, lines));
    QuietJoin([BeginSync] + Deletions(ids) + TailCommands(sh, lines), [EndSync]);
    QuietJoin(DeleteTailCommands(sh, lines), CursorCommands(cursor, |lines|, Max(0, |lines| - 1), setup.showCursor));
  }

  /** What a render that is no redraw prints, in terms of the rows that changed. */
  ghost predicate PrintsChanges(prev: seq<Line>, lines: seq<Line>, out: seq<Command>, first: nat, limit: nat) {
    ChangedRange(prev, lines, first, limit) && Printed(out) == lines[first..limit] && EraseDisplay !in out
  }

  lemma NothingToPrint(prev: seq<Line>, lines: seq<Line>, out: seq<Command>)
    requires Quiet(out)
    requires forall i :: 0 <= i < |lines| ==> i < |prev| && prev[i] == lines[i]
    ensures PrintsChanges(prev, lines, out, |lines|, |lines|)
  {
    QuietPrintsNothing(out);
  }

  lemma DrawPrints(sh: Shadow, setup: Setup, lines: seq<Line>, cursor: Option<CursorPos>, path: Path)
    returns (first: nat, limit: nat)
    requires NonEmptyLines(sh.lines) && NonEmptyLines(lines) && path !in {FirstRender, Redraw}
    requires path.Unchanged? ==> FirstChanged(sh.lines, lines) == -1
    requires path.TailDeleted? ==> |lines| < |sh.lines| && |lines| <= FirstChanged(sh.lines, lines)
    requires path.Incremental? ==> 0 <= FirstChanged(sh.lines, lines) < |lines|
    requires Draw(sh, setup, lines, cursor, path).Drawn?
    ensures PrintsChanges(sh.lines, lines, Draw(sh, setup, lines, cursor, path).out, first, limit)
  {
    var out := Draw(sh, setup, lines, cursor, path).out;
    first, limit := |lines|, |lines|;
    match path {
      case Unchanged =>
        ChangedRows(sh.lines, lines);
        QuietSmall([], 0, false, cursor, |lines|, sh.hardwareRow, setup.showCursor);
        NothingToPrint(sh.lines, lines, out);
      case TailDeleted =>
        ChangedRows(sh.lines, lines);
        TailPrintsNothing(sh, setup, lines, cursor, out);
        assert forall i :: 0 <= i < |lines| ==> sh.lines[..|lines|][i] == lines[i];
        NothingToPrint(sh.lines, lines, out);
      case Incremental =>
        UpdatePrints(sh, setup, lines, cursor, BelievedTop(sh, setup),
                     Max(0, FinalRow(RenderEnd(sh.lines, lines), |sh.lines|, |lines|)), out);
        LimitIsStale(sh.lines, lines);
        first, limit := FirstChanged(sh.lines, lines), PaintLimit(sh.lines, lines);
    }
  }

  /** Without a redraw nothing is cleared, and the lines printed are those of the changed range, once each and in
      order. */
  lemma PrintsTheChangedRange(sh: Shadow, setup: Setup, frame: Frame) returns (first: nat, limit: nat)
    requires NonEmptyLines(sh.lines) && Plan(sh, setup, frame).Drawn?
    requires PathOf(sh, setup, frame) !in {FirstRender, Redraw}
    ensures PrintsChanges(sh.lines, Prepared(frame, setup.rows), Plan(sh, setup, frame).out, first, limit)
  {
    first, limit := DrawPrints(sh, setup, Prepared(frame, setup.rows), Cursor(frame.lines, setup.rows),
                               PathOf(sh, setup, frame));
  }

  lemma ChangedAbove(prev: seq<Line>, lines: seq<Line>, top: nat)
    requires NonEmptyLines(prev) && NonEmptyLines(lines)
    ensures 0 <= FirstChanged(prev, lines) < top <==> exists i :: 0 <= i < top && Differs(prev, lines, i)
  {
    var n := MaxLength(prev, lines);
    FirstDifferenceIsFirst(prev, lines, n);
    if FirstDifference(prev, lines, n) == -1 && |prev| != |lines| { LengthsDiffer(prev, lines); }
    if 0 <= FirstChanged(prev, lines) < top {
      assert Differs(prev, lines, FirstChanged(prev, lines));
    }
  }

  lemma OnlyRowsLost(prev: seq<Line>, lines: seq<Line>)
    requires NonEmptyLines(prev) && NonEmptyLines(lines)
    ensures FirstChanged(prev, lines) >= |lines| <==> lines < prev
  {
    ChangedRows(prev, lines);
    FirstDifferenceIsFirst(prev, lines, MaxLength(prev, lines));
    if lines < prev {
      LengthsDiffer(prev, lines);
      assert forall i :: 0 <= i < |lines| ==> !Differs(prev, lines, i);
    }
  }

  /** Where the window starts now: the terminal keeps its last rows when its height changes. */
  function WindowTop(sh: Shadow, setup: Setup): nat {
    if sh.height <= 0 || sh.height == setup.rows then sh.viewportTop
    else Max(0, sh.viewportTop + sh.height - setup.rows)
  }

  /** Once something is shown everything is redrawn exactly when the width changed, or the height outside Termux;
      when the frame shrank below its largest size and clearing is asked for; when a row above the window changed;
      or when only rows were lost and either none is left in the window or more than a screen of them went. */
  lemma RedrawsExactlyWhen(sh: Shadow, setup: Setup, frame: Frame)
    requires sh.lines != [] && NonEmptyLines(sh.lines) && sh.width > 0 && sh.height > 0
    ensures var prev, lines, top := sh.lines, Prepared(frame, setup.rows), WindowTop(sh, setup);
            PathOf(sh, setup, frame).Redraw? <==>
              || sh.width != setup.columns
              || (sh.height != setup.rows && !setup.termux)
              || (setup.clearOnShrink && |lines| < sh.maxLines && !frame.overlays)
              || (exists i :: 0 <= i < top && Differs(prev, lines, i))
              || (lines < prev && (0 < |lines| <= top || |prev| > |lines| + setup.rows))
  {
    var prev, lines := sh.lines, Prepared(frame, setup.rows);
    ChangedAbove(prev, lines, WindowTop(sh, setup));
    OnlyRowsLost(prev, lines);
    ChangedRows(prev, lines);
  }
}
