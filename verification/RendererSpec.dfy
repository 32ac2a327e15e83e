/** What one call of the differential renderer writes and remembers, as a
    function of what it remembered before and of the frame to show. */
module RendererSpec {
  import opened Common
  import opened Lines
  import opened TerminalModel

  datatype CursorPos = CursorPos(row: nat, col: nat)

  /** The renderer's own record of the terminal. A width or height of 0 means
      nothing was rendered yet; -1 asks for a full redraw. Image ids are kept in
      insertion order, without repetition. */
  datatype Shadow = Shadow(
    lines: seq<Line>,
    imageIds: seq<nat>,
    width: int,
    height: int,
    cursorRow: nat,
    hardwareRow: nat,
    maxLines: nat,
    viewportTop: nat,
    fullRedraws: nat)

  const NOTHING_SHOWN := Shadow([], [], 0, 0, 0, 0, 0, 0, 0)

  /** What a forced redraw leaves of the record: only the image ids. */
  function Forgotten(sh: Shadow): Shadow {
    Shadow([], sh.imageIds, -1, -1, 0, 0, 0, 0, sh.fullRedraws)
  }

  /** The terminal's dimensions and the switches a render consults. */
  datatype Setup = Setup(columns: nat, rows: nat, termux: bool, clearOnShrink: bool, showCursor: bool)

  /** What the components rendered, overlays already composited into it. */
  datatype Frame = Frame(lines: seq<Line>, overlays: bool)

  datatype Outcome =
    | Drawn(out: seq<Command>, shadow: Shadow)
    | TooWide(row: nat, out: seq<Command>, shadow: Shadow)

  // ---- preparing the frame ----

  function MarkerIndex(line: Line): (k: nat)
    ensures k <= |line|
    ensures k < |line| ==> line[k].CursorMarker?
    ensures forall j :: 0 <= j < k ==> !line[j].CursorMarker?
  {
    if line == [] || line[0].CursorMarker? then 0 else 1 + MarkerIndex(line[1..])
  }

  predicate HasMarker(line: Line) { MarkerIndex(line) < |line| }

  function Stripped(line: Line): Line
    requires HasMarker(line)
  {
    line[..MarkerIndex(line)] + line[MarkerIndex(line) + 1..]
  }

  /** Lowest row at or below `low` and above `n` that carries a marker. */
  function MarkerRow(lines: seq<Line>, low: nat, n: nat): (r: Option<nat>)
    requires n <= |lines|
    ensures r.Some? ==> low <= r.value < n && HasMarker(lines[r.value])
    ensures forall k :: (if r.Some? then r.value + 1 else low) <= k < n ==> !HasMarker(lines[k])
  {
    if n <= low then None
    else if HasMarker(lines[n - 1]) then Some(n - 1)
    else MarkerRow(lines, low, n - 1)
  }

  function VisibleStart(lines: seq<Line>, height: nat): nat { Max(0, |lines| - height) }

  function Cursor(lines: seq<Line>, height: nat): Option<CursorPos> {
    match MarkerRow(lines, VisibleStart(lines, height), |lines|)
    case None => None
    case Some(row) => Some(CursorPos(row, Width(lines[row][..MarkerIndex(lines[row])])))
  }

  function WithoutMarker(lines: seq<Line>, height: nat): (r: seq<Line>)
    ensures |r| == |lines|
  {
    match MarkerRow(lines, VisibleStart(lines, height), |lines|)
    case None => lines
    case Some(row) => lines[row := Stripped(lines[row])]
  }

  /** The cursor marker in force: the first one of the lowest line that carries any, on a visible row. */
  ghost predicate MarkedAt(lines: seq<Line>, height: nat, row: nat, before: Line, behind: Line) {
    && row < |lines| <= row + height
    && lines[row] == before + [CursorMarker] + behind && CursorMarker !in before
    && forall k :: row < k < |lines| ==> CursorMarker !in lines[k]
  }

  /** No visible row carries a marker. */
  predicate Unmarked(lines: seq<Line>, height: nat) {
    forall k :: 0 <= k < |lines| <= k + height ==> CursorMarker !in lines[k]
  }

  lemma {:induction false} NoMarkerInRows(lines: seq<Line>, low: nat, n: nat)
    requires n <= |lines|
    ensures MarkerRow(lines, low, n).None? <==> forall k :: low <= k < n ==> CursorMarker !in lines[k]
  {
    forall k | 0 <= k < |lines| ensures HasMarker(lines[k]) <==> CursorMarker in lines[k] {}
  }

  /** The cursor stands behind the atoms in front of the marker, and only the marker leaves the frame. */
  lemma MarkerIsFound(lines: seq<Line>, height: nat, row: nat, before: Line, behind: Line)
    requires MarkedAt(lines, height, row, before, behind)
    ensures Cursor(lines, height) == Some(CursorPos(row, Width(before)))
    ensures WithoutMarker(lines, height) == lines[row := before + behind]
  {
    var line := lines[row];
    assert line[|before|] == CursorMarker;
    assert forall j :: 0 <= j < |before| ==> line[j] == before[j];
    assert line[..|before|] == before && line[|before| + 1..] == behind;
    NoMarkerInRows(lines, row + 1, |lines|);
    LowestMarkerRow(lines, VisibleStart(lines, height), row, |lines|);
  }

  lemma {:induction false} LowestMarkerRow(lines: seq<Line>, low: nat, row: nat, n: nat)
    requires low <= row < n <= |lines| && HasMarker(lines[row])
    requires forall k :: row < k < n ==> CursorMarker !in lines[k]
    ensures MarkerRow(lines, low, n) == Some(row)
    decreases n
  {
    if row < n - 1 {
      LowestMarkerRow(lines, low, row, n - 1);
    }
  }

  lemma NoCursorWithoutMarker(lines: seq<Line>, height: nat)
    ensures Cursor(lines, height).None? <==> Unmarked(lines, height)
    ensures Unmarked(lines, height) ==> WithoutMarker(lines, height) == lines
  {
    NoMarkerInRows(lines, VisibleStart(lines, height), |lines|);
  }

  function WithReset(line: Line): (r: Line)
    ensures r != []
  {
    if IsImageLine(line) then line else line + [SegmentReset]
  }

  function WithResets(lines: seq<Line>): (r: seq<Line>)
    ensures |r| == |lines| && forall k :: 0 <= k < |r| ==> r[k] == WithReset(lines[k])
  {
    seq(|lines|, k requires 0 <= k < |lines| => WithReset(lines[k]))
  }

  /** The lines a render is about to show. */
  function Prepared(frame: Frame, height: nat): (r: seq<Line>)
    ensures |r| == |frame.lines| && forall k :: 0 <= k < |r| ==> r[k] != []
  {
    WithResets(WithoutMarker(frame.lines, height))
  }

  // ---- image ids ----

  /** Insert into an insertion-ordered set. */
  function Insert(ids: seq<nat>, more: seq<nat>): seq<nat>
    decreases |more|
  {
    if more == [] then ids
    else Insert(if more[0] in ids then ids else ids + [more[0]], more[1..])
  }

  function CollectIds(lines: seq<Line>, n: nat): seq<nat>
    requires n <= |lines|
  {
    if n == 0 then [] else Insert(CollectIds(lines, n - 1), ExtractedIds(lines[n - 1]))
  }

  function Deletions(ids: seq<nat>): seq<Command> {
    seq(|ids|, k requires 0 <= k < |ids| => DeleteImage(ids[k]))
  }

  // ---- the changed range ----

  function LineAt(lines: seq<Line>, i: nat): Line { if i < |lines| then lines[i] else [] }

  predicate Differs(prev: seq<Line>, next: seq<Line>, i: nat) { LineAt(prev, i) != LineAt(next, i) }

  function FirstDifference(prev: seq<Line>, next: seq<Line>, n: nat): (r: int)
    ensures -1 <= r < n
  {
    if n == 0 then -1
    else if FirstDifference(prev, next, n - 1) != -1 then FirstDifference(prev, next, n - 1)
    else if Differs(prev, next, n - 1) then n - 1
    else -1
  }

  function LastDifference(prev: seq<Line>, next: seq<Line>, n: nat): (r: int)
    ensures -1 <= r < n
  {
    if n == 0 then -1
    else if Differs(prev, next, n - 1) then n - 1
    else LastDifference(prev, next, n - 1)
  }

  lemma {:induction false} FirstDifferenceIsFirst(prev: seq<Line>, next: seq<Line>, n: nat)
    ensures var r := FirstDifference(prev, next, n);
            && (r >= 0 ==> Differs(prev, next, r))
            && forall i :: 0 <= i < (if r == -1 then n else r) ==> !Differs(prev, next, i)
  {
    if n > 0 {
      FirstDifferenceIsFirst(prev, next, n - 1);
    }
  }

  lemma {:induction false} LastDifferenceIsLast(prev: seq<Line>, next: seq<Line>, n: nat)
    ensures var r := LastDifference(prev, next, n);
            && (r >= 0 ==> Differs(prev, next, r))
            && forall i :: 0 <= i < n && r < i ==> !Differs(prev, next, i)
  {
    if n > 0 && !Differs(prev, next, n - 1) {
      LastDifferenceIsLast(prev, next, n - 1);
    }
  }

  function MaxLength(prev: seq<Line>, next: seq<Line>): nat { Max(|prev|, |next|) }

  function FirstChanged(prev: seq<Line>, next: seq<Line>): int {
    var first := FirstDifference(prev, next, MaxLength(prev, next));
    if |next| > |prev| && first == -1 then |prev| else first
  }

  /** Widen the range to the last previous line that holds an image. */
  function Widened(prev: seq<Line>, first: nat, last: int, n: nat): (r: int)
    requires n <= |prev|
  {
    if n <= first then last
    else
      var r := Widened(prev, first, last, n - 1);
      if ImageId(prev[n - 1]).Some? then Max(r, n - 1) else r
  }

  lemma {:induction false} WidenedCoversImages(prev: seq<Line>, first: nat, last: int, n: nat)
    requires n <= |prev|
    ensures var r := Widened(prev, first, last, n);
            && last <= r && (r == last || first <= r < n)
            && forall i :: first <= i < n && ImageId(prev[i]).Some? ==> i <= r
  {
    if n > first {
      WidenedCoversImages(prev, first, last, n - 1);
    }
  }

  function LastChanged(prev: seq<Line>, next: seq<Line>): int {
    var last := if |next| > |prev| then |next| - 1 else LastDifference(prev, next, MaxLength(prev, next));
    if FirstChanged(prev, next) >= 0 then Widened(prev, FirstChanged(prev, next), last, |prev|) else last
  }

  function ChangedIds(prev: seq<Line>, first: int, last: int): seq<nat> {
    if first < 0 || last < first then [] else IdsBetween(prev, first, Min(last, |prev| - 1) + 1)
  }

  function IdsBetween(lines: seq<Line>, from: nat, upto: int): seq<nat>
    requires upto <= |lines|
  {
    if upto <= from then [] else Insert(IdsBetween(lines, from, upto - 1), ExtractedIds(lines[upto - 1]))
  }

  // ---- command sequences ----

  function Move(d: int): seq<Command> {
    if d > 0 then [Down(d)] else if d < 0 then [Up(-d)] else []
  }

  const NEWLINE: seq<Command> := [CarriageReturn, LineFeed]

  function Newlines(n: nat): seq<Command> {
    if n == 0 then [] else Newlines(n - 1) + NEWLINE
  }

  function RowCommands(line: Line, erase: bool): seq<Command> {
    if erase then [EraseLine, Print(line)] else [Print(line)]
  }

  /** Lines `from` up to `upto`, separated by newlines; `erase` clears each row first. */
  function Painted(lines: seq<Line>, from: nat, upto: nat, erase: bool): seq<Command>
    requires from <= upto <= |lines|
    decreases upto
  {
    if from == upto then []
    else if from == upto - 1 then RowCommands(lines[from], erase)
    else Painted(lines, from, upto - 1, erase) + NEWLINE + RowCommands(lines[upto - 1], erase)
  }

  function ErasedBelow(n: nat): seq<Command> {
    if n == 0 then [] else ErasedBelow(n - 1) + NEWLINE + [EraseLine]
  }

  /** Erase a row, and perhaps step down. */
  function EraseRow(step: bool): seq<Command> {
    if step then [CarriageReturn, EraseLine, Down(1)] else [CarriageReturn, EraseLine]
  }

  /** Erase `i` of `n` rows, stepping down between them. */
  function ErasedDown(i: nat, n: nat): seq<Command>
    requires i <= n
  {
    if i == 0 then []
    else ErasedDown(i - 1, n) + EraseRow(i < n)
  }

  function CursorCommands(cursor: Option<CursorPos>, total: nat, hardwareRow: nat, show: bool): seq<Command> {
    if cursor.None? || total == 0 then [HideCursor]
    else
      Move(CursorTarget(cursor, total, hardwareRow) - hardwareRow)
      + [Column(cursor.value.col + 1), if show then ShowCursor else HideCursor]
  }

  function CursorTarget(cursor: Option<CursorPos>, total: nat, hardwareRow: nat): nat {
    if cursor.None? || total == 0 then hardwareRow else Max(0, Min(cursor.value.row, total - 1))
  }

  // ---- the three ways of drawing ----

  function FullCommands(sh: Shadow, lines: seq<Line>, clear: bool): seq<Command> {
    [BeginSync]
    + (if clear then Deletions(sh.imageIds) + [EraseDisplay, Home, EraseScrollback] else [])
    + Painted(lines, 0, |lines|, false) + [EndSync]
  }

  function Full(sh: Shadow, setup: Setup, lines: seq<Line>, cursor: Option<CursorPos>, clear: bool): Outcome {
    var end := Max(0, |lines| - 1);
    Drawn(FullCommands(sh, lines, clear) + CursorCommands(cursor, |lines|, end, setup.showCursor),
          Shadow(lines, CollectIds(lines, |lines|), setup.columns, setup.rows, end,
                 CursorTarget(cursor, |lines|, end),
                 if clear then |lines| else Max(sh.maxLines, |lines|),
                 Max(0, Max(setup.rows, |lines|) - setup.rows), sh.fullRedraws + 1))
  }

  /** Commands that move to the end of a shorter frame, erase what follows it and come back. */
  function TailCommands(sh: Shadow, lines: seq<Line>): seq<Command>
    requires |sh.lines| > |lines|
  {
    var extra := |sh.lines| - |lines|;
    ToTail(Max(0, |lines| - 1) - sh.hardwareRow, |lines| > 0) + FromTail(extra, |lines| > 0)
  }

  /** Move to the first row to erase: one below the last line, if there is one. */
  function ToTail(d: int, step: bool): seq<Command> {
    Move(d) + (if step then [CarriageReturn, Down(1)] else [CarriageReturn])
  }

  /** Erase the rows and move back. */
  function FromTail(extra: nat, step: bool): seq<Command> {
    ErasedDown(extra, extra) + Move(-(extra - 1 + if step then 1 else 0))
  }

  function DeleteTailCommands(sh: Shadow, lines: seq<Line>): seq<Command>
    requires |sh.lines| > |lines|
  {
    [BeginSync]
    + Deletions(ChangedIds(sh.lines, FirstChanged(sh.lines, lines), LastChanged(sh.lines, lines)))
    + TailCommands(sh, lines)
    + [EndSync]
  }

  /** Only trailing lines disappeared. */
  function DeleteTail(sh: Shadow, setup: Setup, lines: seq<Line>, cursor: Option<CursorPos>, top: nat): Outcome
    requires |sh.lines| > |lines|
  {
    var target := Max(0, |lines| - 1);
    Drawn(DeleteTailCommands(sh, lines) + CursorCommands(cursor, |lines|, target, setup.showCursor),
          sh.(lines := lines, imageIds := CollectIds(lines, |lines|), width := setup.columns, height := setup.rows,
              cursorRow := target, hardwareRow := CursorTarget(cursor, |lines|, target), viewportTop := top))
  }

  function RenderEnd(prev: seq<Line>, next: seq<Line>): int { Min(LastChanged(prev, next), |next| - 1) }

  /** First line in a range that is too wide for the terminal. */
  function FirstTooWide(lines: seq<Line>, from: nat, upto: nat, columns: nat): (r: Option<nat>)
    requires from <= upto <= |lines|
    decreases upto
  {
    if from == upto then None
    else
      var r := FirstTooWide(lines, from, upto - 1, columns);
      if r.Some? then r
      else if !IsImageLine(lines[upto - 1]) && Width(lines[upto - 1]) > columns then Some(upto - 1)
      else None
  }

  function StopCommands(sh: Shadow): seq<Command> {
    (if |sh.lines| > 0 then Move(|sh.lines| - sh.hardwareRow) + NEWLINE else []) + [ShowCursor]
  }

  predicate AppendsOnly(prev: seq<Line>, next: seq<Line>) {
    |next| > |prev| && FirstChanged(prev, next) == |prev| && |prev| > 0
  }

  /** Row the cursor is moved to before painting. */
  function PaintStart(prev: seq<Line>, next: seq<Line>): int {
    if AppendsOnly(prev, next) then FirstChanged(prev, next) - 1 else FirstChanged(prev, next)
  }

  /** Commands and rows scrolled to bring `target` into the viewport that starts at `top`. */
  function ScrollInto(hardwareRow: nat, rows: int, top: nat, target: nat): (seq<Command>, nat) {
    var bottom := top + rows - 1;
    if target > bottom then
      var current := Max(0, Min(rows - 1, hardwareRow - top));
      (Move(Max(0, rows - 1 - current)) + Newlines(target - bottom), target - bottom)
    else ([], 0)
  }

  /** Row after the last one painted, never before the first. */
  function PaintLimit(prev: seq<Line>, next: seq<Line>): (r: nat)
    requires 0 <= FirstChanged(prev, next) < |next|
    ensures FirstChanged(prev, next) <= r <= |next|
  {
    Max(FirstChanged(prev, next), RenderEnd(prev, next) + 1)
  }

  /** Row on which the cursor ends up, after painting up to row `end` of a frame of `after` lines. */
  function FinalRow(end: int, before: nat, after: nat): int {
    if before > after && end < after - 1 then after - 1 else end
  }

  /** Commands up to and including the move to the first row to paint. */
  function ApproachCommands(hardwareRow: nat, rows: int, top: nat, target: nat, appends: bool): seq<Command> {
    var (scrolling, scrolled) := ScrollInto(hardwareRow, rows, top, target);
    scrolling + Move(target - (if scrolled > 0 then target else hardwareRow))
    + (if appends then NEWLINE else [CarriageReturn])
  }

  /** Commands that erase the rows by which the new frame is shorter. */
  function ShrinkCommands(end: int, before: nat, after: nat): seq<Command> {
    if before > after then Move(FinalRow(end, before, after) - end)
        + (ErasedBelow(before - after) + [Up(before - after)])
    else []
  }

  function UpdateCommands(sh: Shadow, rows: int, lines: seq<Line>, top: nat): seq<Command>
    requires 0 <= FirstChanged(sh.lines, lines) < |lines|
  {
    var first := FirstChanged(sh.lines, lines);
    [BeginSync] + Deletions(ChangedIds(sh.lines, first, LastChanged(sh.lines, lines)))
    + ApproachCommands(sh.hardwareRow, rows, top, PaintStart(sh.lines, lines), AppendsOnly(sh.lines, lines))
    + Painted(lines, first, PaintLimit(sh.lines, lines), true)
    + ShrinkCommands(RenderEnd(sh.lines, lines), |sh.lines|, |lines|)
    + [EndSync]
  }

  /** Repaint the changed range only. */
  function Update(sh: Shadow, setup: Setup, lines: seq<Line>, cursor: Option<CursorPos>, top: nat): Outcome
    requires 0 <= FirstChanged(sh.lines, lines) < |lines|
  {
    match FirstTooWide(lines, FirstChanged(sh.lines, lines), PaintLimit(sh.lines, lines), setup.columns)
    case Some(row) => TooWide(row, StopCommands(sh), sh)
    case None =>
      Updated(sh, setup, lines, cursor, top, FinalRow(RenderEnd(sh.lines, lines), |sh.lines|, |lines|),
              ScrollInto(sh.hardwareRow, setup.rows, top, PaintStart(sh.lines, lines)).1)
  }

  /** What an update writes and records that ends on row `finalRow` and scrolls by `scrolled` rows first. */
  function Updated(sh: Shadow, setup: Setup, lines: seq<Line>, cursor: Option<CursorPos>, top: nat, finalRow: int,
                   scrolled: nat): Outcome
    requires 0 <= FirstChanged(sh.lines, lines) < |lines|
  {
    var row := Max(0, finalRow);
    Drawn(UpdateCommands(sh, setup.rows, lines, top) + CursorCommands(cursor, |lines|, row, setup.showCursor),
          Shadow(lines, CollectIds(lines, |lines|), setup.columns, setup.rows, Max(0, |lines| - 1),
                 CursorTarget(cursor, |lines|, row), Max(sh.maxLines, |lines|),
                 Max(top + scrolled, finalRow - setup.rows + 1), sh.fullRedraws))
  }

  // ---- choosing among them ----

  predicate WidthChanged(sh: Shadow, setup: Setup) { sh.width != 0 && sh.width != setup.columns }
  predicate HeightChanged(sh: Shadow, setup: Setup) { sh.height != 0 && sh.height != setup.rows }

  /** The viewport top the renderer believes in before drawing. */
  function BelievedTop(sh: Shadow, setup: Setup): nat {
    var length := if sh.height > 0 then sh.viewportTop + sh.height else setup.rows;
    if HeightChanged(sh, setup) then Max(0, length - setup.rows) else sh.viewportTop
  }

  datatype Path = FirstRender | Redraw | Unchanged | TailDeleted | Incremental

  function Choose(sh: Shadow, setup: Setup, lines: seq<Line>, overlays: bool): (p: Path)
    ensures p.TailDeleted? ==> |sh.lines| > |lines|
    ensures p.Incremental? ==> 0 <= FirstChanged(sh.lines, lines) < |lines|
  {
    var first := FirstChanged(sh.lines, lines);
    var top := BelievedTop(sh, setup);
    if |sh.lines| == 0 && !WidthChanged(sh, setup) && !HeightChanged(sh, setup) then FirstRender
    else if WidthChanged(sh, setup) then Redraw
    else if HeightChanged(sh, setup) && !setup.termux then Redraw
    else if setup.clearOnShrink && |lines| < sh.maxLines && !overlays then Redraw
    else if first == -1 then Unchanged
    else if first >= |lines| then
      if Max(0, |lines| - 1) < top || |sh.lines| - |lines| > setup.rows then Redraw else TailDeleted
    else if first < top then Redraw
    else Incremental
  }

  /** Draw `lines` in the chosen way. */
  function Draw(sh: Shadow, setup: Setup, lines: seq<Line>, cursor: Option<CursorPos>, path: Path): Outcome
    requires path.TailDeleted? ==> |sh.lines| > |lines|
    requires path.Incremental? ==> 0 <= FirstChanged(sh.lines, lines) < |lines|
  {
    var top := BelievedTop(sh, setup);
    match path
    case FirstRender => Full(sh, setup, lines, cursor, false)
    case Redraw => Full(sh, setup, lines, cursor, true)
    case Unchanged =>
      Drawn(CursorCommands(cursor, |lines|, sh.hardwareRow, setup.showCursor),
            sh.(hardwareRow := CursorTarget(cursor, |lines|, sh.hardwareRow), viewportTop := top, height := setup.rows))
    case TailDeleted => DeleteTail(sh, setup, lines, cursor, top)
    case Incremental => Update(sh, setup, lines, cursor, top)
  }

  /** One render. */
  function Plan(sh: Shadow, setup: Setup, frame: Frame): Outcome {
    var lines := Prepared(frame, setup.rows);
    Draw(sh, setup, lines, Cursor(frame.lines, setup.rows), Choose(sh, setup, lines, frame.overlays))
  }
}
