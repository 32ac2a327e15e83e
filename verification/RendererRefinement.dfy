/** The incremental paths of the renderer: what their command sequences leave on the terminal. */
module RendererRefinement {
  import opened Common
  import opened Lines
  import opened TerminalModel
  import opened RendererSpec
  import opened RendererSafety

  // ---- the changed range ----

  lemma LengthsDiffer(prev: seq<Line>, next: seq<Line>)
    requires NonEmptyLines(prev) && NonEmptyLines(next) && |prev| != |next|
    ensures Differs(prev, next, Min(|prev|, |next|))
  {
  }

  /** Rows outside the repainted range are the same in both frames, and hold no image below it. */
  lemma ChangedRows(prev: seq<Line>, next: seq<Line>)
    requires NonEmptyLines(prev) && NonEmptyLines(next)
    ensures var first := FirstChanged(prev, next);
            && -1 <= first <= |prev|
            && (first == -1 ==> prev == next)
            && (first >= 0 ==> first <= |next| && prev[..first] == next[..first])
            && (first == |next| ==> |prev| > |next|)
            && (first >= 0 ==> first <= LastChanged(prev, next))
            && forall i :: 0 <= first <= i < |prev| && ImageId(prev[i]).Some? ==> i <= LastChanged(prev, next)
  {
    var n := MaxLength(prev, next);
    FirstDifferenceIsFirst(prev, next, n);
    LastDifferenceIsLast(prev, next, n);
    var first := FirstChanged(prev, next);
    if first == -1 {
      if |prev| != |next| { LengthsDiffer(prev, next); }
      forall i | 0 <= i < |prev| ensures prev[i] == next[i] {
        assert !Differs(prev, next, i);
      }
    } else {
      if |prev| != |next| { LengthsDiffer(prev, next); }
      forall i | 0 <= i < first ensures prev[i] == next[i] {
        assert !Differs(prev, next, i);
      }
      WidenedCoversImages(prev, first, if |next| > |prev| then |next| - 1 else LastDifference(prev, next, n), |prev|);
    }
  }

  lemma UnpaintedRows(prev: seq<Line>, next: seq<Line>)
    requires NonEmptyLines(prev) && NonEmptyLines(next)
    requires 0 <= FirstChanged(prev, next) < |next|
    ensures var first, end := FirstChanged(prev, next), RenderEnd(prev, next);
            && first <= end < |next| && PaintLimit(prev, next) == end + 1
            && (|next| > |prev| ==> end == |next| - 1)
            && forall i :: end < i < |next| ==> i < |prev| && prev[i] == next[i] && ImageId(prev[i]).None?
  {
    ChangedRows(prev, next);
    var n := MaxLength(prev, next);
    LastDifferenceIsLast(prev, next, n);
    var last := if |next| > |prev| then |next| - 1 else LastDifference(prev, next, n);
    WidenedCoversImages(prev, FirstChanged(prev, next), last, |prev|);
    forall i | RenderEnd(prev, next) < i < |next|
      ensures i < |prev| && prev[i] == next[i] && ImageId(prev[i]).None?
    {
      assert !Differs(prev, next, i);
    }
  }

  /** Rows `first` to `end` are to be repainted: above and below them the frames agree. */
  ghost predicate RepaintRange(prev: seq<Line>, next: seq<Line>, first: nat, end: nat) {
    && first <= end < |next| && first <= |prev|
    && (|next| > |prev| ==> end == |next| - 1)
    && prev[..first] == next[..first]
    && forall i :: end < i < |next| ==> i < |prev| && prev[i] == next[i]
  }

  lemma RangeBounds(prev: seq<Line>, next: seq<Line>)
    requires NonEmptyLines(prev) && NonEmptyLines(next)
    requires 0 <= FirstChanged(prev, next) < |next|
    ensures RenderEnd(prev, next) >= 0
    ensures RepaintRange(prev, next, FirstChanged(prev, next), RenderEnd(prev, next))
    ensures PaintLimit(prev, next) == RenderEnd(prev, next) + 1
  {
    ChangedRows(prev, next);
    UnpaintedRows(prev, next);
  }

  lemma NoImageNoIds(lines: seq<Line>)
    requires SingleImages(lines)
    requires forall k :: 0 <= k < |lines| ==> ImageId(lines[k]).None?
    ensures FrameIds(lines) == {}
  {
  }

  /** The ids deleted before repainting are exactly those drawn from the first changed row on. */
  lemma DeletedIds(prev: seq<Line>, next: seq<Line>)
    requires NonEmptyLines(prev) && NonEmptyLines(next) && SingleImages(prev)
    requires 0 <= FirstChanged(prev, next) <= |prev|
    ensures IdSet(ChangedIds(prev, FirstChanged(prev, next), LastChanged(prev, next)))
            == FrameIds(prev[FirstChanged(prev, next)..])
  {
    ChangedRows(prev, next);
    IdsFrom(prev, FirstChanged(prev, next), LastChanged(prev, next));
  }

  lemma IdsFrom(lines: seq<Line>, first: nat, last: int)
    requires SingleImages(lines) && NonEmptyLines(lines) && first <= |lines| && first <= last
    requires forall i :: first <= i < |lines| && ImageId(lines[i]).Some? ==> i <= last
    ensures IdSet(ChangedIds(lines, first, last)) == FrameIds(lines[first..])
  {
    var upto := Min(last, |lines| - 1) + 1;
    if upto <= first {
      assert lines[first..] == [];
    } else {
      IdsBetweenSet(lines, first, upto);
      assert lines[first..] == lines[first..upto] + lines[upto..];
      FrameIdsSplit(lines[first..upto], lines[upto..]);
      NoImageNoIds(lines[upto..]);
    }
  }

  /** No image that stays above the first changed row shares its id with an old row that is
      cleared, unless a repainted row draws it again. */
  ghost predicate ImagesSurvive(prev: seq<Line>, next: seq<Line>, first: nat)
    requires first <= |prev| && first <= |next|
  {
    forall id :: id in FrameIds(next[..first]) && id in FrameIds(prev[first..]) ==> id in FrameIds(next[first..])
  }

  lemma DistinctImagesApart(lines: seq<Line>, first: nat)
    requires first <= |lines| && DistinctImages(lines)
    ensures FrameIds(lines[..first]) !! FrameIds(lines[first..])
  {
    forall id | id in FrameIds(lines[..first])
      ensures id !in FrameIds(lines[first..])
    {
      var j :| 0 <= j < first && id in DrawnIds(lines[..first][j]);
      assert id in DrawnIds(lines[j]);
      forall k | 0 <= k < |lines| - first
        ensures id !in DrawnIds(lines[first..][k])
      {
        assert lines[first..][k] == lines[first + k];
      }
    }
  }

  lemma DistinctImagesSurvive(prev: seq<Line>, next: seq<Line>, first: nat)
    requires first <= |prev| && first <= |next| && prev[..first] == next[..first]
    requires DistinctImages(prev)
    ensures ImagesSurvive(prev, next, first)
  {
    DistinctImagesApart(prev, first);
  }

  /** Deleting the old ids and drawing the painted rows leaves the new frame's images
      exactly when none is lost above the painted rows. */
  lemma ImageBalance(prev: seq<Line>, next: seq<Line>, first: nat, painted: set<nat>)
    requires first <= |prev| && first <= |next| && prev[..first] == next[..first]
    requires painted == FrameIds(next[first..])
    ensures FrameIds(prev) - FrameIds(prev[first..]) + painted <= FrameIds(next)
    ensures FrameIds(prev) - FrameIds(prev[first..]) + painted == FrameIds(next) <==> ImagesSurvive(prev, next, first)
  {
    assert prev == prev[..first] + prev[first..] && next == next[..first] + next[first..];
    FrameIdsSplit(prev[..first], prev[first..]);
    FrameIdsSplit(next[..first], next[first..]);
  }

  // ---- trailing lines deleted ----

  /** ShowsFrame and the cursor, without the image ids. */
  ghost predicate SyncedText(lines: seq<Line>, top: nat, row: nat, s: Screen) {
    && s.Valid()
    && s.Top() >= top
    && TapeShows(lines, s, s.Top() - top)
    && s.CursorRow() == row - top
  }

  lemma TailCommandsRun(sh: Shadow, s: Screen, lines: seq<Line>)
    requires SyncedText(sh.lines, sh.viewportTop, sh.hardwareRow, s)
    requires |sh.lines| <= sh.viewportTop + s.height
    requires |sh.lines| > |lines| && lines == sh.lines[..|lines|]
    requires sh.viewportTop <= Max(0, |lines| - 1)
    ensures var t := s.Run(TailCommands(sh, lines));
            && SyncedText(lines, sh.viewportTop, Max(0, |lines| - 1), t)
            && t.height == s.height && t.images == s.images && t.col == 0
  {
    var extra, step, d := |sh.lines| - |lines|, |lines| > 0, Max(0, |lines| - 1) - sh.hardwareRow;
    TailBounds(sh.lines, s, sh.hardwareRow, sh.viewportTop, lines, d, step);
    TailMovesRun(s, d, extra, step, s.Top() - sh.viewportTop + |lines|);
    TailDone(sh.lines, s, s.Run(ToTail(d, step) + FromTail(extra, step)), sh.viewportTop, lines);
  }

  /** Down to the rows to erase, from row `first` on, and back. */
  lemma TailMovesRun(s: Screen, d: int, extra: nat, step: bool, first: nat)
    requires s.Valid() && extra > 0 && s.Top() <= s.cursor + d && first + extra - 1 < |s.tape|
    requires first == s.cursor + d + if step then 1 else 0
    ensures var t := s.Run(ToTail(d, step) + FromTail(extra, step));
            && t.Valid() && t.height == s.height && t.cursor == s.cursor + d && t.col == 0 && t.images == s.images
            && Erased(s.tape, t.tape, first, first + extra)
  {
    RunConcat(s, ToTail(d, step), FromTail(extra, step));
    ToTailRun(s, d, step);
    FromTailRun(s.(cursor := first, col := 0), extra, step);
  }

  /** The rows to erase are on the screen. */
  lemma TailBounds(prev: seq<Line>, s: Screen, row: nat, top: nat, lines: seq<Line>, d: int, step: bool)
    requires SyncedText(prev, top, row, s) && |prev| <= top + s.height
    requires |prev| > |lines| && top <= Max(0, |lines| - 1) && d == Max(0, |lines| - 1) - row && step == (|lines| > 0)
    ensures s.Top() <= s.cursor + d && s.cursor + d + (if step then 1 else 0) + |prev| - |lines| - 1 < |s.tape|
    ensures s.cursor + d + (if step then 1 else 0) == s.Top() - top + |lines|
  {
  }

  lemma TailDone(prev: seq<Line>, s: Screen, t: Screen, top: nat, lines: seq<Line>)
    requires s.Valid() && s.Top() >= top && TapeShows(prev, s, s.Top() - top) && |prev| <= top + s.height
    requires |prev| > |lines| && lines == prev[..|lines|] && top <= Max(0, |lines| - 1)
    requires t.Valid() && t.height == s.height && t.cursor == s.Top() - top + Max(0, |lines| - 1)
    requires Erased(s.tape, t.tape, s.Top() - top + |lines|, s.Top() - top + |prev|)
    ensures SyncedText(lines, top, Max(0, |lines| - 1), t)
  {
    TailErased(prev, lines, s, t, s.Top() - top);
  }

  /** Erasing the rows of the old tail leaves the shorter frame. */
  lemma TailErased(prev: seq<Line>, lines: seq<Line>, s: Screen, t: Screen, base: nat)
    requires |prev| > |lines| && lines == prev[..|lines|] && TapeShows(prev, s, base)
    requires Erased(s.tape, t.tape, base + |lines|, base + |prev|)
    ensures TapeShows(lines, t, base)
  {
    forall j | base <= j < |t.tape| ensures RowShows(lines, t.tape, base, j) {
      assert RowShows(prev, s.tape, base, j) && RowErased(s.tape, t.tape, base + |lines|, base + |prev|, j);
    }
  }

  lemma LeftoversErased(prev: seq<Line>, lines: seq<Line>, s: Screen, t: Screen, base: nat)
    requires |prev| > |lines| && TapeShows(Overlaid(prev, lines), s, base)
    requires Erased(s.tape, t.tape, base + |lines|, base + |prev|)
    ensures TapeShows(lines, t, base)
  {
    forall j | base <= j < |t.tape| ensures RowShows(lines, t.tape, base, j) {
      assert RowShows(Overlaid(prev, lines), s.tape, base, j);
      assert RowErased(s.tape, t.tape, base + |lines|, base + |prev|, j);
    }
  }

  lemma ToTailRun(s: Screen, d: int, step: bool)
    requires s.Valid() && s.Top() <= s.cursor + d && s.cursor + d + (if step then 1 else 0) < |s.tape|
    ensures s.Run(ToTail(d, step)) == s.(cursor := s.cursor + d + (if step then 1 else 0), col := 0)
  {
    var arrive := if step then [CarriageReturn, Down(1)] else [CarriageReturn];
    RunConcat(s, Move(d), arrive);
    MoveRun(s, d);
    var s1 := s.Run(Move(d));
    Run1(s1, CarriageReturn);
    if step {
      assert arrive == [CarriageReturn] + [Down(1)];
      RunConcat(s1, [CarriageReturn], [Down(1)]);
      Run1(s1.Apply(CarriageReturn), Down(1));
    }
  }

  lemma FromTailRun(s: Screen, extra: nat, step: bool)
    requires s.Valid() && extra > 0 && s.cursor + extra - 1 < |s.tape|
    requires s.Top() <= s.cursor - if step then 1 else 0
    ensures var t := s.Run(FromTail(extra, step));
            && t.Valid() && t.height == s.height && |t.tape| == |s.tape|
            && t.cursor == s.cursor - (if step then 1 else 0) && t.col == 0 && t.images == s.images
            && Erased(s.tape, t.tape, s.cursor, s.cursor + extra)
  {
    var back := -(extra - 1 + if step then 1 else 0);
    RunConcat(s, ErasedDown(extra, extra), Move(back));
    ErasedDownRun(s, extra, extra);
    MoveRun(s.Run(ErasedDown(extra, extra)), back);
  }

  /** Deletions and synchronisation marks around a text change. */
  lemma WrappedRun(s: Screen, ids: seq<nat>, middle: seq<Command>)
    requires s.Valid()
    ensures s.Run([BeginSync] + Deletions(ids) + middle + [EndSync])
            == s.(images := s.images - IdSet(ids)).Run(middle)
  {
    RunConcat(s, [BeginSync] + Deletions(ids) + middle, [EndSync]);
    RunThree(s, [BeginSync], Deletions(ids), middle);
    Run1(s, BeginSync);
    DeletionsRun(s, ids);
    Run1(s.Run(Deletions(ids)).Run(middle), EndSync);
  }

  lemma DeleteTailRun(sh: Shadow, s: Screen, lines: seq<Line>)
    requires Synced(sh, s) && NonEmptyLines(lines)
    requires |lines| <= FirstChanged(sh.lines, lines) && |sh.lines| > |lines|
    requires sh.viewportTop <= Max(0, |lines| - 1)
    ensures var t := s.Run(DeleteTailCommands(sh, lines));
            && FirstChanged(sh.lines, lines) == |lines| && lines == sh.lines[..|lines|]
            && SyncedText(lines, sh.viewportTop, Max(0, |lines| - 1), t)
            && t.height == s.height && t.col == 0
            && t.images <= FrameIds(lines)
            && (t.images == FrameIds(lines) <==> ImagesSurvive(sh.lines, lines, |lines|))
  {
    ChangedRows(sh.lines, lines);
    assert lines[..|lines|] == lines;
    var ids := ChangedIds(sh.lines, FirstChanged(sh.lines, lines), LastChanged(sh.lines, lines));
    DeletedIds(sh.lines, lines);
    WrappedRun(s, ids, TailCommands(sh, lines));
    TailCommandsRun(sh, s.(images := s.images - IdSet(ids)), lines);
    assert lines[|lines|..] == [];
    ImageBalance(sh.lines, lines, |lines|, {});
  }

  // ---- changed rows repainted ----

  /** At a constant height the row to paint from is always within the window: the scrolling
      branch is not taken. */
  lemma NoScrolling(sh: Shadow, height: nat, lines: seq<Line>)
    requires NonEmptyLines(sh.lines) && NonEmptyLines(lines)
    requires sh.viewportTop < |sh.lines| <= sh.viewportTop + height
    requires sh.viewportTop <= FirstChanged(sh.lines, lines) < |lines|
    ensures sh.viewportTop <= PaintStart(sh.lines, lines) < sh.viewportTop + height
    ensures ScrollInto(sh.hardwareRow, height, sh.viewportTop, PaintStart(sh.lines, lines)) == ([], 0)
  {
    ChangedRows(sh.lines, lines);
  }

  lemma ApproachRun(s: Screen, hardwareRow: nat, top: nat, target: nat, appends: bool)
    requires s.Valid() && s.CursorRow() == hardwareRow - top
    requires top <= target < top + s.height
    ensures var t := s.Run(ApproachCommands(hardwareRow, s.height, top, target, appends));
            && t.Valid() && t.height == s.height && t.images == s.images && t.col == 0
            && t.cursor == s.Top() - top + target + (if appends then 1 else 0)
            && t.tape == if t.cursor < |s.tape| then s.tape else s.tape + [[]]
  {
    var d := target - hardwareRow;
    var arrive := if appends then NEWLINE else [CarriageReturn];
    assert ApproachCommands(hardwareRow, s.height, top, target, appends) == Move(d) + arrive;
    RunConcat(s, Move(d), arrive);
    MoveRun(s, d);
    var s1 := s.Run(Move(d));
    if appends { NewlineRun(s1); } else { Run1(s1, CarriageReturn); }
  }

  /** The new frame, followed by whatever the old one had below it. */
  function Overlaid(prev: seq<Line>, lines: seq<Line>): seq<Line> {
    if |prev| > |lines| then lines + prev[|lines|..] else lines
  }

  lemma RepaintRun(prev: seq<Line>, s: Screen, lines: seq<Line>, base: nat, first: nat, end: nat)
    requires RepaintRange(prev, lines, first, end)
    requires s.Valid() && TapeShows(prev, s, base) && base + |prev| <= |s.tape|
    requires s.col == 0 && s.cursor == base + first
    ensures var t := s.Run(Painted(lines, first, end + 1, true));
            && t.Valid() && t.height == s.height && t.cursor == base + end
            && |t.tape| == Max(|s.tape|, base + end + 1)
            && TapeShows(Overlaid(prev, lines), t, base)
            && t.images == s.images + FrameIds(lines[first..end + 1])
  {
    PaintedRun(s, s.Run(Painted(lines, first, end + 1, true)), lines, base, first, end + 1, true);
    var t := s.Run(Painted(lines, first, end + 1, true));
    forall j | base <= j < |t.tape|
      ensures RowShows(Overlaid(prev, lines), t.tape, base, j)
    {
      if j < |s.tape| { assert RowShows(prev, s.tape, base, j); }
      assert RowPainted(s.tape, t.tape, lines, base, first, end + 1, j);
      if j - base < first {
        assert prev[..first][j - base] == lines[..first][j - base];
      }
    }
  }

  /** Rows the new frame no longer has are erased. */
  lemma ShrinkRun(prev: seq<Line>, s: Screen, lines: seq<Line>, base: nat, end: nat)
    requires end < |lines| && (|lines| > |prev| ==> end == |lines| - 1)
    requires s.Valid() && s.cursor == base + end && base + |prev| <= |s.tape|
    requires TapeShows(Overlaid(prev, lines), s, base)
    ensures var t := s.Run(ShrinkCommands(end, |prev|, |lines|));
            && t.Valid() && t.height == s.height && t.cursor == base + FinalRow(end, |prev|, |lines|)
            && |t.tape| == |s.tape|
            && TapeShows(lines, t, base)
            && t.images == s.images
  {
    if |prev| > |lines| {
      var d, extra := FinalRow(end, |prev|, |lines|) - end, |prev| - |lines|;
      EraseLeftoversRun(s, d, extra);
      var t := s.Run(Move(d) + (ErasedBelow(extra) + [Up(extra)]));
      LeftoversErased(prev, lines, s, t, base);
    }
  }

  lemma EraseLeftoversRun(s: Screen, d: nat, extra: nat)
    requires s.Valid() && extra > 0 && s.cursor + d + extra < |s.tape|
    ensures var t := s.Run(Move(d) + (ErasedBelow(extra) + [Up(extra)]));
            && t.Valid() && t.height == s.height && |t.tape| == |s.tape|
            && t.cursor == s.cursor + d && t.images == s.images
            && Erased(s.tape, t.tape, s.cursor + d + 1, s.cursor + d + 1 + extra)
  {
    RunConcat(s, Move(d), ErasedBelow(extra) + [Up(extra)]);
    MoveRun(s, d);
    var s1 := s.Run(Move(d));
    RunConcat(s1, ErasedBelow(extra), [Up(extra)]);
    ErasedBelowRun(s1, extra);
    Run1(s1.Run(ErasedBelow(extra)), Up(extra));
  }

  lemma PaintedImages(prev: seq<Line>, lines: seq<Line>)
    requires NonEmptyLines(prev) && NonEmptyLines(lines) && SingleImages(lines)
    requires 0 <= FirstChanged(prev, lines) < |lines|
    ensures 0 <= FirstChanged(prev, lines) <= RenderEnd(prev, lines) < |lines|
    ensures FrameIds(lines[FirstChanged(prev, lines)..RenderEnd(prev, lines) + 1])
        == FrameIds(lines[FirstChanged(prev, lines)..])
  {
    UnpaintedRows(prev, lines);
    var first, end := FirstChanged(prev, lines), RenderEnd(prev, lines);
    assert lines[first..] == lines[first..end + 1] + lines[end + 1..];
    FrameIdsSplit(lines[first..end + 1], lines[end + 1..]);
    NoImageNoIds(lines[end + 1..]);
  }

  /** The text of an incremental update. */
  function UpdateText(hardwareRow: nat, rows: int, top: nat, prev: nat, lines: seq<Line>, first: nat, end: nat,
                      appends: bool): seq<Command>
    requires first <= end < |lines| && (appends ==> first > 0)
  {
    ApproachCommands(hardwareRow, rows, top, if appends then first - 1 else first, appends)
    + Painted(lines, first, end + 1, true) + ShrinkCommands(end, prev, |lines|)
  }

  lemma ApproachShows(prev: seq<Line>, s: Screen, hardwareRow: nat, top: nat, first: nat, appends: bool)
    requires SyncedText(prev, top, hardwareRow, s)
    requires top < |prev| <= top + s.height && top <= first
    requires if appends then first == |prev| else first < top + s.height
    ensures var t := s.Run(ApproachCommands(hardwareRow, s.height, top, if appends then first - 1 else first, appends));
            var base := s.Top() - top;
            && t.Valid() && t.height == s.height && t.images == s.images && t.col == 0
            && t.cursor == base + first
            && |t.tape| == Max(|s.tape|, base + first + 1)
            && TapeShows(prev, t, base)
  {
    ApproachRun(s, hardwareRow, top, if appends then first - 1 else first, appends);
    var t := s.Run(ApproachCommands(hardwareRow, s.height, top, if appends then first - 1 else first, appends));
    var base := s.Top() - top;
    forall j | base <= j < |t.tape| ensures RowShows(prev, t.tape, base, j) {
      if j < |s.tape| { assert RowShows(prev, s.tape, base, j); }
    }
  }

  lemma NewTop(top: nat, height: nat, before: nat, after: nat, end: nat)
    requires top < before <= top + height && end < after && top <= end
    requires after > before ==> end == after - 1
    ensures var finalRow := FinalRow(end, before, after);
            && Max(top, finalRow - height + 1) == Max(top, after - height) < after
            && Max(top + height, end + 1) - height == Max(top, after - height)
  {
  }

  lemma ApproachAndRepaintRun(prev: seq<Line>, s: Screen, hardwareRow: nat, top: nat, lines: seq<Line>,
                              first: nat, end: nat, appends: bool)
    requires SyncedText(prev, top, hardwareRow, s)
    requires RepaintRange(prev, lines, first, end)
    requires top < |prev| <= top + s.height && top <= first
    requires if appends then first == |prev| else first < top + s.height
    ensures var t := s.Run(ApproachCommands(hardwareRow, s.height, top, if appends then first - 1 else first, appends)
                           + Painted(lines, first, end + 1, true));
            var base := s.Top() - top;
            && t.Valid() && t.height == s.height && t.cursor == base + end
            && |t.tape| == base + Max(top + s.height, end + 1)
            && TapeShows(Overlaid(prev, lines), t, base)
            && t.images == s.images + FrameIds(lines[first..end + 1])
  {
    var approach := ApproachCommands(hardwareRow, s.height, top, if appends then first - 1 else first, appends);
    RunConcat(s, approach, Painted(lines, first, end + 1, true));
    ApproachShows(prev, s, hardwareRow, top, first, appends);
    RepaintRun(prev, s.Run(approach), lines, s.Top() - top, first, end);
  }

  lemma UpdateTextRun(prev: seq<Line>, s: Screen, hardwareRow: nat, top: nat, lines: seq<Line>,
                      first: nat, end: nat, appends: bool)
    requires SyncedText(prev, top, hardwareRow, s)
    requires RepaintRange(prev, lines, first, end)
    requires top < |prev| <= top + s.height && top <= first
    requires if appends then first == |prev| else first < top + s.height
    ensures var t := s.Run(UpdateText(hardwareRow, s.height, top, |prev|, lines, first, end, appends));
            && SyncedText(lines, Max(top, |lines| - s.height), FinalRow(end, |prev|, |lines|), t)
            && t.height == s.height
            && t.images == s.images + FrameIds(lines[first..end + 1])
  {
    var paint := ApproachCommands(hardwareRow, s.height, top, if appends then first - 1 else first, appends)
      + Painted(lines, first, end + 1, true);
    RunConcat(s, paint, ShrinkCommands(end, |prev|, |lines|));
    ApproachAndRepaintRun(prev, s, hardwareRow, top, lines, first, end, appends);
    ShrinkAndSettle(prev, s.Run(paint), lines, s.Top() - top, top, end);
  }

  lemma ShrinkAndSettle(prev: seq<Line>, u: Screen, lines: seq<Line>, base: nat, top: nat, end: nat)
    requires top < |prev| <= top + u.height && top <= end < |lines| && (|lines| > |prev| ==> end == |lines| - 1)
    requires u.Valid() && u.cursor == base + end && |u.tape| == base + Max(top + u.height, end + 1)
    requires TapeShows(Overlaid(prev, lines), u, base)
    ensures var t := u.Run(ShrinkCommands(end, |prev|, |lines|));
            && SyncedText(lines, Max(top, |lines| - u.height), FinalRow(end, |prev|, |lines|), t)
            && t.height == u.height && t.images == u.images
  {
    ShrinkRun(prev, u, lines, base, end);
    Settle(lines, base, top, |prev|, end, u.Run(ShrinkCommands(end, |prev|, |lines|)));
  }

  /** The window of a terminal that shows the new frame. */
  lemma Settle(lines: seq<Line>, base: nat, top: nat, before: nat, end: nat, t: Screen)
    requires top < before <= top + t.height && top <= end < |lines| && (|lines| > before ==> end == |lines| - 1)
    requires t.Valid() && |t.tape| == base + Max(top + t.height, end + 1)
    requires TapeShows(lines, t, base) && t.cursor == base + FinalRow(end, before, |lines|)
    ensures SyncedText(lines, Max(top, |lines| - t.height), FinalRow(end, before, |lines|), t)
  {
    NewTop(top, t.height, before, |lines|, end);
  }

  lemma UpdateIsWrapped(sh: Shadow, rows: int, lines: seq<Line>, first: nat, end: nat, ids: seq<nat>)
    requires first == FirstChanged(sh.lines, lines) <= end < |lines| && PaintLimit(sh.lines, lines) == end + 1
    requires end == RenderEnd(sh.lines, lines) && ids == ChangedIds(sh.lines, first, LastChanged(sh.lines, lines))
    ensures UpdateCommands(sh, rows, lines, sh.viewportTop)
         == [BeginSync] + Deletions(ids)
            + UpdateText(sh.hardwareRow, rows, sh.viewportTop, |sh.lines|, lines, first, end,
                         AppendsOnly(sh.lines, lines))
            + [EndSync]
  {
    Bracket([BeginSync] + Deletions(ids),
            ApproachCommands(sh.hardwareRow, rows, sh.viewportTop, PaintStart(sh.lines, lines),
                             AppendsOnly(sh.lines, lines)),
            Painted(lines, first, end + 1, true), ShrinkCommands(end, |sh.lines|, |lines|), [EndSync]);
  }

  /** An incremental update deletes the old images from the first changed row on, then draws its text. */
  lemma UpdateSplit(sh: Shadow, s: Screen, lines: seq<Line>)
    requires s.Valid() && NonEmptyLines(sh.lines) && NonEmptyLines(lines) && SingleImages(sh.lines) && sh.lines != []
    requires 0 <= FirstChanged(sh.lines, lines) < |lines|
    requires s.images == FrameIds(sh.lines)
    ensures RenderEnd(sh.lines, lines) >= 0
    ensures var first, end := FirstChanged(sh.lines, lines), RenderEnd(sh.lines, lines);
            && RepaintRange(sh.lines, lines, first, end)
            && s.Run(UpdateCommands(sh, s.height, lines, sh.viewportTop))
               == s.(images := FrameIds(sh.lines) - FrameIds(sh.lines[first..]))
                  .Run(UpdateText(sh.hardwareRow, s.height, sh.viewportTop, |sh.lines|, lines, first, end,
                                  AppendsOnly(sh.lines, lines)))
  {
    var first, end := FirstChanged(sh.lines, lines), RenderEnd(sh.lines, lines);
    RangeBounds(sh.lines, lines);
    DeletedIds(sh.lines, lines);
    var ids := ChangedIds(sh.lines, first, LastChanged(sh.lines, lines));
    var text := UpdateText(sh.hardwareRow, s.height, sh.viewportTop, |sh.lines|, lines, first, end,
                           AppendsOnly(sh.lines, lines));
    UpdateIsWrapped(sh, s.height, lines, first, end, ids);
    WrappedRun(s, ids, text);
  }

  /** What the buffer of an incremental update leaves behind. */
  ghost predicate UpdateDone(sh: Shadow, s: Screen, lines: seq<Line>, first: nat, end: int, t: Screen) {
    && 0 <= end && RepaintRange(sh.lines, lines, first, end)
    && SyncedText(lines, Max(sh.viewportTop, |lines| - s.height), FinalRow(end, |sh.lines|, |lines|), t)
    && t.height == s.height
    && t.images == FrameIds(sh.lines) - FrameIds(sh.lines[first..]) + FrameIds(lines[first..end + 1])
  }

  lemma UpdateRun(sh: Shadow, s: Screen, lines: seq<Line>, first: nat, end: int)
    requires Synced(sh, s) && NonEmptyLines(lines) && sh.lines != []
    requires first == FirstChanged(sh.lines, lines) && end == RenderEnd(sh.lines, lines)
    requires sh.viewportTop <= first < |lines|
    ensures UpdateDone(sh, s, lines, first, end, s.Run(UpdateCommands(sh, s.height, lines, sh.viewportTop)))
  {
    UpdateSplit(sh, s, lines);
    UpdateTextDone(sh, s, lines, first, end, s.(images := FrameIds(sh.lines) - FrameIds(sh.lines[first..])));
  }

  lemma UpdateTextDone(sh: Shadow, s: Screen, lines: seq<Line>, first: nat, end: nat, s0: Screen)
    requires Synced(sh, s) && NonEmptyLines(lines) && sh.lines != []
    requires first == FirstChanged(sh.lines, lines) && RepaintRange(sh.lines, lines, first, end)
    requires sh.viewportTop <= first < |lines|
    requires s0 == s.(images := FrameIds(sh.lines) - FrameIds(sh.lines[first..]))
    ensures UpdateDone(sh, s, lines, first, end,
                       s0.Run(UpdateText(sh.hardwareRow, s.height, sh.viewportTop, |sh.lines|, lines, first, end,
                                         AppendsOnly(sh.lines, lines))))
  {
    NoScrolling(sh, s.height, lines);
    UpdateTextRun(sh.lines, s0, sh.hardwareRow, sh.viewportTop, lines, first, end, AppendsOnly(sh.lines, lines));
  }

  lemma UpdateImages(sh: Shadow, s: Screen, lines: seq<Line>, first: nat, end: int, t: Screen)
    requires UpdateDone(sh, s, lines, first, end, t)
    requires NonEmptyLines(sh.lines) && NonEmptyLines(lines) && SingleImages(lines)
    requires first == FirstChanged(sh.lines, lines) && end == RenderEnd(sh.lines, lines)
    ensures first <= |sh.lines| && t.images <= FrameIds(lines)
    ensures t.images == FrameIds(lines) <==> ImagesSurvive(sh.lines, lines, first)
  {
    PaintedImages(sh.lines, lines);
    ImageBalance(sh.lines, lines, first, FrameIds(lines[first..end + 1]));
  }
}
