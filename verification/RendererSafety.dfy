/** Differential rendering shows what a full redraw would show. */
module RendererSafety {
  import opened Common
  import opened Lines
  import opened TerminalModel
  import opened RendererSpec

  /** What a row holds when it shows row `i` of a frame, and nothing below the frame's end. */
  function RowOf(lines: seq<Line>, i: nat): Row {
    if i < |lines| then [Ink(lines[i], 0)] else []
  }

  function IdSet(ids: seq<nat>): set<nat> { set id | id in ids }

  /** The shadow describes the terminal: scrollback and screen together hold the
      whole frame, blank below it, with the window starting at `viewportTop`; the
      cursor is where the renderer thinks it is; the live images are the frame's. */
  ghost predicate Synced(sh: Shadow, s: Screen) {
    && ShowsFrame(sh, s)
    && s.CursorRow() == sh.hardwareRow - sh.viewportTop
    && (sh.lines == [] ==> s.col == 0)
  }

  /** The part of Synced that does not speak of the cursor. */
  ghost predicate ShowsFrame(sh: Shadow, s: Screen) {
    && s.Valid()
    && s.Top() >= sh.viewportTop
    && TapeShows(sh.lines, s, s.Top() - sh.viewportTop)
    && |sh.lines| <= sh.viewportTop + s.height
    && sh.viewportTop <= Max(0, |sh.lines| - 1)
    && s.images == FrameIds(sh.lines) == IdSet(sh.imageIds)
    && SingleImages(sh.lines)
    && NonEmptyLines(sh.lines)
    && (sh.lines == [] ==> sh.hardwareRow == 0)
  }

  /** From tape row `base` on, the tape holds the frame. */
  ghost predicate TapeShows(lines: seq<Line>, s: Screen, base: nat) {
    forall j :: base <= j < |s.tape| ==> RowShows(lines, s.tape, base, j)
  }

  predicate RowShows(lines: seq<Line>, tape: seq<Row>, base: nat, j: nat)
    requires base <= j < |tape|
  {
    tape[j] == RowOf(lines, j - base)
  }

  predicate NonEmptyLines(lines: seq<Line>) { forall k :: 0 <= k < |lines| ==> lines[k] != [] }

  predicate Fits(lines: seq<Line>, columns: nat) {
    forall k :: 0 <= k < |lines| ==> Width(lines[k]) <= columns
  }

  // ---- running command sequences ----

  lemma {:induction false} DeletionsRun(s: Screen, ids: seq<nat>)
    requires s.Valid()
    ensures s.Run(Deletions(ids)) == s.(images := s.images - IdSet(ids))
    decreases |ids|
  {
    if ids == [] {
      assert s.images - IdSet(ids) == s.images;
    } else {
      var d := DeleteImage(ids[0]);
      assert Deletions(ids)[1..] == Deletions(ids[1..]);
      DeletionsRun(s.Apply(d), ids[1..]);
      assert s.images - {ids[0]} - IdSet(ids[1..]) == s.images - IdSet(ids) by {
        assert forall id :: id in ids <==> id == ids[0] || id in ids[1..];
      }
    }
  }

  lemma MoveRun(s: Screen, d: int)
    requires s.Valid() && s.Top() <= s.cursor + d < |s.tape|
    ensures s.Run(Move(d)) == s.(cursor := s.cursor + d)
  {
    if d != 0 {
      Run1(s, Move(d)[0]);
    }
  }

  lemma NewlineRun(s: Screen)
    requires s.Valid()
    ensures s.Run(NEWLINE) == s.Apply(LineFeed).(col := 0)
  {
    RunConcat(s, [CarriageReturn], [LineFeed]);
    assert [CarriageReturn] + [LineFeed] == NEWLINE;
    Run1(s, CarriageReturn);
    Run1(s.Apply(CarriageReturn), LineFeed);
  }

  predicate RowPainted(before: seq<Row>, after: seq<Row>, lines: seq<Line>, base: nat, from: nat, upto: nat, j: nat)
    requires j < |after| && from < upto <= |lines|
  {
    after[j] == if base + from <= j < base + upto then [Ink(lines[j - base], 0)]
                else if j < |before| then before[j] else []
  }

  /** Rows `lo` up to `hi` were erased. */
  ghost predicate Erased(before: seq<Row>, after: seq<Row>, lo: nat, hi: nat) {
    |after| == |before| && forall j :: 0 <= j < |after| ==> RowErased(before, after, lo, hi, j)
  }

  predicate RowErased(before: seq<Row>, after: seq<Row>, lo: nat, hi: nat, j: nat)
    requires j < |after| == |before|
  {
    after[j] == if lo <= j < hi then [] else before[j]
  }

  lemma EraseOneMore(before: seq<Row>, middle: seq<Row>, after: seq<Row>, lo: nat, hi: nat)
    requires Erased(before, middle, lo, hi) && lo <= hi < |middle| && after == middle[hi := []]
    ensures Erased(before, after, lo, hi + 1)
  {
    var end := hi + 1;
    forall j | 0 <= j < |after| ensures RowErased(before, after, lo, end, j) {
      assert RowErased(before, middle, lo, hi, j);
    }
  }

  /** What a terminal shows after rows `from` up to `upto` of a frame were painted. */
  ghost predicate PaintedOn(s: Screen, t: Screen, lines: seq<Line>, base: nat, from: nat, upto: nat)
    requires from < upto <= |lines|
  {
    && t.Valid() && t.height == s.height
    && |t.tape| == Max(|s.tape|, base + upto)
    && (forall j :: 0 <= j < |t.tape| ==> RowPainted(s.tape, t.tape, lines, base, from, upto, j))
    && t.cursor == base + upto - 1
    && t.images == s.images + FrameIds(lines[from..upto])
    && t.shown == s.shown
  }

  lemma PaintRow(s: Screen, line: Line, erase: bool)
    requires s.Valid() && s.col == 0 && (erase || s.tape[s.cursor] == [])
    ensures var t := s.Run(RowCommands(line, erase));
            t == s.(tape := s.tape[s.cursor := [Ink(line, 0)]], col := Width(line), images := s.images + DrawnIds(line))
  {
    var e := if erase then [EraseLine] else [];
    assert e + [Print(line)] == RowCommands(line, erase);
    RunConcat(s, e, [Print(line)]);
    if erase { Run1(s, EraseLine); }
    var s1 := s.Run(e);
    Run1(s1, Print(line));
    assert s1.tape[s.cursor := [Ink(line, 0)]] == s.tape[s.cursor := [Ink(line, 0)]];
    assert s1.tape[s.cursor] + [Ink(line, 0)] == [Ink(line, 0)];
  }

  /** One more row painted, on a row that may be new. */
  lemma PaintOneMore(before: seq<Row>, middle: seq<Row>, after: seq<Row>, lines: seq<Line>, base: nat, from: nat,
                     upto: nat, end: nat)
    requires from < upto < |lines| && |middle| == Max(|before|, base + upto) && end == upto + 1
    requires forall j :: 0 <= j < |middle| ==> RowPainted(before, middle, lines, base, from, upto, j)
    requires |after| == Max(|before|, base + upto + 1) && after[base + upto] == [Ink(lines[upto], 0)]
    requires forall j :: 0 <= j < |middle| && j != base + upto ==> after[j] == middle[j]
    ensures forall j :: 0 <= j < |after| ==> RowPainted(before, after, lines, base, from, end, j)
  {
    forall j | 0 <= j < |after| ensures RowPainted(before, after, lines, base, from, end, j) {
      if j < |middle| { assert RowPainted(before, middle, lines, base, from, upto, j); }
    }
  }

  lemma PaintNext(s: Screen, s1: Screen, lines: seq<Line>, base: nat, from: nat, upto: nat, erase: bool)
    requires s.Valid() && from < upto < |lines| && base + from < |s.tape|
    requires PaintedOn(s, s1, lines, base, from, upto)
    requires erase || forall j :: base + from <= j < |s.tape| ==> s.tape[j] == []
    ensures var s2 := s1.Run(NEWLINE);
            && s2.Valid() && s2.col == 0 && s2.cursor == base + upto && (erase || s2.tape[s2.cursor] == [])
            && PaintedOn(s, s2.Run(RowCommands(lines[upto], erase)), lines, base, from, upto + 1)
  {
    NewlineRun(s1);
    var s2 := s1.Run(NEWLINE);
    if base + upto < |s1.tape| { assert RowPainted(s.tape, s1.tape, lines, base, from, upto, base + upto); }
    PaintRow(s2, lines[upto], erase);
    PaintedGrows(s, s1, s2.Run(RowCommands(lines[upto], erase)), lines, base, from, upto);
  }

  lemma PaintedGrows(s: Screen, s1: Screen, t: Screen, lines: seq<Line>, base: nat, from: nat, upto: nat)
    requires from < upto < |lines| && PaintedOn(s, s1, lines, base, from, upto) && base + from < |s.tape|
    requires t.Valid() && t.height == s.height && t.shown == s.shown && t.cursor == base + upto
    requires t.images == s1.images + DrawnIds(lines[upto])
    requires |t.tape| == Max(|s.tape|, base + upto + 1) && t.tape[base + upto] == [Ink(lines[upto], 0)]
    requires forall j :: 0 <= j < |s1.tape| && j != base + upto ==> t.tape[j] == s1.tape[j]
    ensures PaintedOn(s, t, lines, base, from, upto + 1)
  {
    PaintOneMore(s.tape, s1.tape, t.tape, lines, base, from, upto, upto + 1);
    assert lines[from..upto + 1] == lines[from..upto] + [lines[upto]];
    FrameIdsSplit(lines[from..upto], [lines[upto]]);
    OneLineIds(lines[upto]);
  }

  lemma PaintFirst(s: Screen, lines: seq<Line>, base: nat, from: nat, erase: bool)
    requires s.Valid() && from < |lines| && s.cursor == base + from && s.col == 0 && (erase || s.tape[s.cursor] == [])
    ensures PaintedOn(s, s.Run(RowCommands(lines[from], erase)), lines, base, from, from + 1)
  {
    PaintRow(s, lines[from], erase);
    assert lines[from..from + 1] == [lines[from]];
    OneLineIds(lines[from]);
  }

  lemma RunThree(s: Screen, a: seq<Command>, b: seq<Command>, c: seq<Command>)
    requires s.Valid()
    ensures s.Run(a + b + c) == s.Run(a).Run(b).Run(c)
  {
    RunConcat(s, a + b, c);
    RunConcat(s, a, b);
  }

  lemma {:induction false} PaintedRun(s: Screen, t: Screen, lines: seq<Line>, base: nat, from: nat, upto: nat,
                                      erase: bool)
    requires s.Valid() && from < upto <= |lines|
    requires s.cursor == base + from && s.col == 0
    requires erase || forall j :: base + from <= j < |s.tape| ==> s.tape[j] == []
    requires t == s.Run(Painted(lines, from, upto, erase))
    ensures PaintedOn(s, t, lines, base, from, upto)
    decreases upto
  {
    if from == upto - 1 {
      PaintFirst(s, lines, base, from, erase);
    } else {
      var before := s.Run(Painted(lines, from, upto - 1, erase));
      PaintedRun(s, before, lines, base, from, upto - 1, erase);
      PaintNext(s, before, lines, base, from, upto - 1, erase);
      PaintedLast(s, lines, from, upto, erase);
    }
  }

  lemma PaintedLast(s: Screen, lines: seq<Line>, from: nat, upto: nat, erase: bool)
    requires s.Valid() && from < upto - 1 < |lines|
    ensures s.Run(Painted(lines, from, upto, erase))
         == s.Run(Painted(lines, from, upto - 1, erase)).Run(NEWLINE).Run(RowCommands(lines[upto - 1], erase))
  {
    RunThree(s, Painted(lines, from, upto - 1, erase), NEWLINE, RowCommands(lines[upto - 1], erase));
  }

  lemma OneLineIds(line: Line)
    ensures FrameIds([line]) == DrawnIds(line)
  {
    forall id | id in DrawnIds(line) ensures id in FrameIds([line]) {
      assert id in DrawnIds([line][0]);
    }
  }

  lemma NothingErased(tape: seq<Row>, lo: nat)
    ensures Erased(tape, tape, lo, lo)
  {
  }

  /** What a terminal shows after rows `lo` up to `hi` were erased. */
  ghost predicate ErasedOn(s: Screen, t: Screen, lo: nat, hi: nat, cursor: nat) {
    && t.Valid() && t.height == s.height && |t.tape| == |s.tape|
    && t.cursor == cursor && t.images == s.images && t.shown == s.shown
    && Erased(s.tape, t.tape, lo, hi)
  }

  lemma ErasedGrows(s: Screen, s1: Screen, t: Screen, lo: nat, hi: nat, cursor: nat, next: nat)
    requires ErasedOn(s, s1, lo, hi, cursor) && lo <= hi < |s.tape| && next < |s.tape|
    requires t == s1.(tape := s1.tape[hi := []], cursor := next, col := t.col) && t.Valid()
    ensures ErasedOn(s, t, lo, hi + 1, next)
  {
    EraseOneMore(s.tape, s1.tape, t.tape, lo, hi);
  }

  lemma {:induction false} ErasedBelowRun(s: Screen, n: nat)
    requires s.Valid() && s.cursor + n < |s.tape|
    ensures ErasedOn(s, s.Run(ErasedBelow(n)), s.cursor + 1, s.cursor + 1 + n, s.cursor + n)
    ensures s.col == 0 || n > 0 ==> s.Run(ErasedBelow(n)).col == 0
  {
    if n == 0 {
      NothingErased(s.tape, s.cursor + 1);
    } else {
      ErasedBelowRun(s, n - 1);
      var s1 := s.Run(ErasedBelow(n - 1));
      RunThree(s, ErasedBelow(n - 1), NEWLINE, [EraseLine]);
      NewlineRun(s1);
      Run1(s1.Run(NEWLINE), EraseLine);
      ErasedGrows(s, s1, s1.Run(NEWLINE).Run([EraseLine]), s.cursor + 1, s.cursor + n, s.cursor + n - 1, s.cursor + n);
    }
  }

  lemma {:induction false} ErasedDownRun(s: Screen, i: nat, n: nat)
    requires s.Valid() && i <= n && s.cursor + n - 1 < |s.tape|
    ensures ErasedOn(s, s.Run(ErasedDown(i, n)), s.cursor, s.cursor + i, s.cursor + if i < n || n == 0 then i
                     else n - 1)
    ensures i > 0 ==> s.Run(ErasedDown(i, n)).col == 0
  {
    if i == 0 {
      NothingErased(s.tape, s.cursor);
    } else {
      var s1 := s.Run(ErasedDown(i - 1, n));
      ErasedDownRun(s, i - 1, n);
      RunConcat(s, ErasedDown(i - 1, n), EraseRow(i < n));
      EraseRowRun(s1, i < n);
      ErasedGrows(s, s1, s1.Run(EraseRow(i < n)), s.cursor, s.cursor + i - 1, s.cursor + i - 1,
                  s.cursor + if i < n then i else n - 1);
    }
  }

  lemma EraseRowRun(s: Screen, step: bool)
    requires s.Valid() && (step ==> s.cursor + 1 < |s.tape|)
    ensures s.Run(EraseRow(step))
        == s.(tape := s.tape[s.cursor := []], col := 0, cursor := s.cursor + (if step then 1 else 0))
  {
    var s1 := s.Apply(CarriageReturn);
    var s2 := s1.Apply(EraseLine);
    assert [CarriageReturn, EraseLine] == [CarriageReturn] + [EraseLine];
    RunConcat(s, [CarriageReturn], [EraseLine]);
    Run1(s, CarriageReturn);
    Run1(s1, EraseLine);
    if step {
      assert EraseRow(step) == [CarriageReturn, EraseLine] + [Down(1)];
      RunConcat(s, [CarriageReturn, EraseLine], [Down(1)]);
      Run1(s2, Down(1));
    }
  }

  // ---- image ids ----

  lemma {:induction false} InsertSet(ids: seq<nat>, more: seq<nat>)
    ensures IdSet(Insert(ids, more)) == IdSet(ids) + IdSet(more)
    decreases |more|
  {
    if more != [] {
      var next := if more[0] in ids then ids else ids + [more[0]];
      assert IdSet(next) == IdSet(ids) + {more[0]};
      InsertSet(next, more[1..]);
      assert IdSet(more) == {more[0]} + IdSet(more[1..]);
    }
  }

  predicate SingleImages(lines: seq<Line>) { forall k :: 0 <= k < |lines| ==> SingleImage(lines[k]) }

  lemma ExtractedIsDrawn(line: Line)
    requires SingleImage(line)
    ensures IdSet(ExtractedIds(line)) == DrawnIds(line)
  {
  }

  lemma {:induction false} IdsBetweenSet(lines: seq<Line>, from: nat, upto: nat)
    requires from <= upto <= |lines| && SingleImages(lines)
    ensures IdSet(IdsBetween(lines, from, upto)) == FrameIds(lines[from..upto])
    decreases upto
  {
    if from == upto {
      assert lines[from..upto] == [];
    } else {
      IdsBetweenSet(lines, from, upto - 1);
      InsertSet(IdsBetween(lines, from, upto - 1), ExtractedIds(lines[upto - 1]));
      ExtractedIsDrawn(lines[upto - 1]);
      assert lines[from..upto] == lines[from..upto - 1] + [lines[upto - 1]];
      FrameIdsSplit(lines[from..upto - 1], [lines[upto - 1]]);
      OneLineIds(lines[upto - 1]);
    }
  }

  lemma {:induction false} CollectIdsSet(lines: seq<Line>, n: nat)
    requires n <= |lines| && SingleImages(lines)
    ensures IdSet(CollectIds(lines, n)) == FrameIds(lines[..n])
  {
    if n == 0 {
      assert lines[..n] == [];
    } else {
      CollectIdsSet(lines, n - 1);
      InsertSet(CollectIds(lines, n - 1), ExtractedIds(lines[n - 1]));
      ExtractedIsDrawn(lines[n - 1]);
      assert lines[..n] == lines[..n - 1] + [lines[n - 1]];
      FrameIdsSplit(lines[..n - 1], [lines[n - 1]]);
      OneLineIds(lines[n - 1]);
    }
  }

  lemma FrameIdsCollected(lines: seq<Line>)
    requires SingleImages(lines)
    ensures IdSet(CollectIds(lines, |lines|)) == FrameIds(lines)
  {
    CollectIdsSet(lines, |lines|);
    assert lines[..|lines|] == lines;
  }

  // ---- full redraw ----

  /** A screen with nothing on it and the cursor in the corner. */
  ghost predicate Cleared(s: Screen) {
    && s.Valid() && s.cursor == s.Top() && s.col == 0 && s.images == {}
    && forall j :: s.Top() <= j < |s.tape| ==> s.tape[j] == []
  }

  lemma ClearRun(s: Screen, ids: seq<nat>)
    requires s.Valid() && s.images <= IdSet(ids)
    ensures var t := s.Run(Deletions(ids) + [EraseDisplay, Home, EraseScrollback]);
            Cleared(t) && t.Top() == 0 && t.height == s.height && t.shown == s.shown
  {
    RunConcat(s, Deletions(ids), [EraseDisplay, Home, EraseScrollback]);
    DeletionsRun(s, ids);
    var s1 := s.Run(Deletions(ids));
    assert s1.images == {};
    var s2 := s1.Apply(EraseDisplay);
    var s3 := s2.Apply(Home);
    var s4 := s3.Apply(EraseScrollback);
    assert [EraseDisplay, Home, EraseScrollback][1..] == [Home, EraseScrollback];
    assert [Home, EraseScrollback][1..] == [EraseScrollback];
    Run1(s3, EraseScrollback);
    assert s1.Run([EraseDisplay, Home, EraseScrollback]) == s2.Run([Home, EraseScrollback]) == s4;
  }

  lemma PaintCleared(s: Screen, lines: seq<Line>)
    requires Cleared(s)
    ensures var t := s.Run(Painted(lines, 0, |lines|, false) + [EndSync]);
            && t.Valid() && t.height == s.height
            && TapeShows(lines, t, s.Top())
            && |t.tape| == s.Top() + Max(s.height, |lines|)
            && t.cursor == s.Top() + Max(0, |lines| - 1)
            && t.images == FrameIds(lines)
            && (lines == [] ==> t.col == 0)
  {
    var p := Painted(lines, 0, |lines|, false);
    RunConcat(s, p, [EndSync]);
    if lines != [] {
      PaintedRun(s, s.Run(Painted(lines, 0, |lines|, false)), lines, s.Top(), 0, |lines|, false);
      assert lines[0..|lines|] == lines;
      PaintedShows(s, s.Run(p), lines);
    } else {
      NothingShows(s);
    }
    Run1(s.Run(p), EndSync);
  }

  lemma PaintedShows(s: Screen, t: Screen, lines: seq<Line>)
    requires Cleared(s) && lines != [] && PaintedOn(s, t, lines, s.Top(), 0, |lines|)
    ensures TapeShows(lines, t, s.Top())
  {
    var base := s.Top();
    forall j | base <= j < |t.tape| ensures RowShows(lines, t.tape, base, j) {
      assert RowPainted(s.tape, t.tape, lines, base, 0, |lines|, j);
    }
  }

  lemma NothingShows(s: Screen)
    requires Cleared(s)
    ensures TapeShows([], s, s.Top()) && FrameIds([]) == {}
  {
    var base := s.Top();
    forall j | base <= j < |s.tape| ensures RowShows([], s.tape, base, j) {}
  }

  lemma FullRun(sh: Shadow, s: Screen, lines: seq<Line>, clear: bool)
    requires s.Valid() && s.images <= IdSet(sh.imageIds)
    requires !clear ==> Cleared(s)
    ensures var t := s.Run(FullCommands(sh, lines, clear));
            var base := if clear then 0 else s.Top();
            && t.Valid() && t.height == s.height
            && TapeShows(lines, t, base)
            && |t.tape| == base + Max(s.height, |lines|)
            && t.cursor == base + Max(0, |lines| - 1)
            && t.images == FrameIds(lines)
            && (lines == [] ==> t.col == 0)
  {
    var clearing := if clear then Deletions(sh.imageIds) + [EraseDisplay, Home, EraseScrollback] else [];
    var painting := Painted(lines, 0, |lines|, false) + [EndSync];
    assert FullCommands(sh, lines, clear) == [BeginSync] + (clearing + painting);
    RunConcat(s, [BeginSync], clearing + painting);
    Run1(s, BeginSync);
    RunConcat(s, clearing, painting);
    if clear { ClearRun(s, sh.imageIds); }
    PaintCleared(s.Run(clearing), lines);
  }

  // ---- positioning the hardware cursor ----

  /** Moves clamp to the screen. */
  lemma ClampedMoveRun(s: Screen, d: int)
    requires s.Valid()
    ensures s.Run(Move(d)) == s.(cursor := Max(s.Top(), Min(|s.tape| - 1, s.cursor + d)))
  {
    if d != 0 {
      Run1(s, Move(d)[0]);
    }
  }

  lemma CursorCommandsRun(s: Screen, cursor: CursorPos, total: nat, hardwareRow: nat, show: bool)
    requires s.Valid() && total > 0
    ensures var target := Min(cursor.row, total - 1);
            s.Run(CursorCommands(Some(cursor), total, hardwareRow, show))
            == s.(cursor := Max(s.Top(), Min(|s.tape| - 1, s.cursor + target - hardwareRow)), col := cursor.col,
                  shown := show)
  {
    var d := Min(cursor.row, total - 1) - hardwareRow;
    var place, visibility := Column(cursor.col + 1), if show then ShowCursor else HideCursor;
    assert CursorCommands(Some(cursor), total, hardwareRow, show) == Move(d) + ([place] + [visibility]);
    RunConcat(s, Move(d), [place] + [visibility]);
    ClampedMoveRun(s, d);
    var s1 := s.Run(Move(d));
    RunConcat(s1, [place], [visibility]);
    Run1(s1, place);
    Run1(s1.Apply(place), visibility);
  }

  lemma PositionRun(sh: Shadow, s: Screen, cursor: Option<CursorPos>, show: bool)
    requires Synced(sh, s)
    ensures var t := s.Run(CursorCommands(cursor, |sh.lines|, sh.hardwareRow, show));
            var target := CursorTarget(cursor, |sh.lines|, sh.hardwareRow);
            && ShowsFrame(sh.(hardwareRow := target), t)
            && t.height == s.height && t.tape == s.tape
            && (cursor.Some? && sh.lines != [] ==> t.col == cursor.value.col && t.shown == show)
            && t.CursorRow() == Max(0, target - sh.viewportTop)
            && (Synced(sh.(hardwareRow := target), t) <==> target >= sh.viewportTop)
  {
    if cursor.None? || sh.lines == [] {
      Run1(s, HideCursor);
    } else {
      CursorCommandsRun(s, cursor.value, |sh.lines|, sh.hardwareRow, show);
    }
  }
}
