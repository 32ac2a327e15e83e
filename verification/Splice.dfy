/** Cutting columns out of styled lines. */
module Splice {
  import opened Common
  import opened Ansi
  import opened StyledText
  import opened Wrap

  // ---- places in a line ----

  /** Column at which piece `i` stands. */
  function Column(line: Text, i: nat): nat
    requires i <= |line|
  {
    TextWidth(line[..i])
  }

  lemma ColumnStep(line: Text, i: nat)
    requires i < |line|
    ensures Column(line, i + 1) == Column(line, i) + (if line[i].Cluster? then line[i].g.width else 0)
  {
    assert line[..i + 1][..i] == line[..i];
  }

  lemma {:induction false} ColumnsGrow(line: Text, i: nat, j: nat)
    requires i <= j <= |line|
    ensures Column(line, i) <= Column(line, j)
    decreases j - i
  {
    if i < j {
      ColumnStep(line, j - 1);
      ColumnsGrow(line, i, j - 1);
    }
  }

  /** First place from `i` on at column `col` or more. */
  function Reach(line: Text, col: nat, i: nat): (r: nat)
    requires i <= |line|
    ensures i <= r <= |line| && (r < |line| ==> Column(line, r) >= col)
    ensures forall j :: i <= j < r ==> Column(line, j) < col
    decreases |line| - i
  {
    if i == |line| || Column(line, i) >= col then i else Reach(line, col, i + 1)
  }

  function NextCluster(line: Text, i: nat): (r: nat)
    requires i <= |line|
    ensures i <= r <= |line| && (r < |line| ==> line[r].Cluster?)
    ensures forall j :: i <= j < r ==> !line[j].Cluster?
    decreases |line| - i
  {
    if i == |line| || line[i].Cluster? then i else NextCluster(line, i + 1)
  }

  /** Where a slice that runs from `i` to column `endCol` ends; strict slices leave out a cluster that
      would cross the end. */
  function SliceEnd(line: Text, i: nat, endCol: nat, strict: bool): (r: nat)
    requires i <= |line|
    ensures i <= r <= |line|
    decreases |line| - i
  {
    if i == |line| || Column(line, i) >= endCol then i
    else if line[i].Cluster? && strict && Column(line, i + 1) > endCol then i
    else SliceEnd(line, i + 1, endCol, strict)
  }

  predicate Kept(line: Text, j: nat, startCol: nat, endCol: nat, strict: bool)
    requires j < |line|
  {
    startCol <= Column(line, j) < endCol && (strict ==> Column(line, j + 1) <= endCol)
  }

  lemma {:induction false} SliceEndKeeps(line: Text, i: nat, j: nat, endCol: nat, strict: bool)
    requires i <= j < |line| && line[j].Cluster?
    ensures j < SliceEnd(line, i, endCol, strict)
        <==> Column(line, j) < endCol && (strict ==> Column(line, j + 1) <= endCol)
    decreases |line| - i
  {
    ColumnsGrow(line, i, j);
    if Column(line, i) < endCol && !(line[i].Cluster? && strict && Column(line, i + 1) > endCol) {
      if i < j { SliceEndKeeps(line, i + 1, j, endCol, strict); } else if i + 1 <= |line| { }
    } else if i < j {
      ColumnsGrow(line, i + 1, j);
    }
  }

  // ---- slices ----

  /** First cluster of a slice from column `startCol` on. */
  function SliceStart(line: Text, startCol: nat): (r: nat)
    ensures r <= |line|
  {
    NextCluster(line, Reach(line, startCol, 0))
  }

  function Codes(text: Text): Text {
    if text == [] then []
    else
      var n := |text| - 1;
      if text[n].Escape? then Codes(text[..n]) + [text[n]] else Codes(text[..n])
  }

  /** The pieces from `i` to `j`. */
  function Between(line: Text, i: nat, j: nat): Text
    requires i <= j <= |line|
  {
    if i == j then [] else Between(line, i, j - 1) + [line[j - 1]]
  }

  lemma {:induction false} BetweenIs(line: Text, i: nat, j: nat)
    requires i <= j <= |line|
    ensures Between(line, i, j) == line[i..j]
    decreases j - i
  {
    if i < j {
      BetweenIs(line, i, j - 1);
      assert line[i..j] == line[i..j - 1] + [line[j - 1]];
    }
  }

  /** The text of a slice: the codes that stand right at its start, then the codes before them, then
      the pieces of the range. */
  function SliceText(line: Text, startCol: nat, endCol: nat, strict: bool): Text {
    var k, f := Reach(line, startCol, 0), SliceStart(line, startCol);
    var e := SliceEnd(line, f, endCol, strict);
    if Column(line, k) >= endCol then []
    else if e == f then Between(line, k, f)
    else Glue(Glue(Between(line, k, f), Codes(line[..k])), Between(line, f, e))
  }

  /** The slice part way, in front of piece `i`. */
  ghost predicate Slicing(line: Text, startCol: nat, endCol: nat, strict: bool, i: nat, result: Text, pendingAnsi: Text)
    requires i <= |line|
  {
    var k, f := Reach(line, startCol, 0), SliceStart(line, startCol);
    && Column(line, i) < endCol
    && (i <= k ==> result == [] && pendingAnsi == Codes(line[..i]))
    && (k <= i <= f ==> result == Between(line, k, i) && pendingAnsi == Codes(line[..k]))
    && (f < i ==> Begun(line, endCol, strict, k, f, i, result) && pendingAnsi == [])
  }

  ghost predicate Begun(line: Text, endCol: nat, strict: bool, k: nat, f: nat, i: nat, result: Text)
    requires k <= f <= i <= |line|
  {
    && result == Glue(Glue(Between(line, k, f), Codes(line[..k])), Between(line, f, i))
    && SliceEnd(line, i, endCol, strict) == SliceEnd(line, f, endCol, strict)
  }

  lemma CodesStep(line: Text, i: nat)
    requires i < |line|
    ensures Codes(line[..i + 1]) == if line[i].Escape? then Codes(line[..i]) + [line[i]] else Codes(line[..i])
  {
    assert line[..i + 1][..i] == line[..i];
  }

  /** A piece is in front of the slice exactly while its column is. */
  lemma InFront(line: Text, startCol: nat, i: nat)
    requires i < |line|
    ensures Column(line, i) < startCol <==> i < Reach(line, startCol, 0)
  {
    var k := Reach(line, startCol, 0);
    if k <= i { ColumnsGrow(line, k, i); }
  }

  lemma SliceCode(line: Text, startCol: nat, endCol: nat, strict: bool, i: nat, result: Text, pendingAnsi: Text)
    requires i < |line| && line[i].Escape? && Slicing(line, startCol, endCol, strict, i, result, pendingAnsi)
    requires Column(line, i) >= startCol
    ensures Slicing(line, startCol, endCol, strict, i + 1, result + [line[i]], pendingAnsi)
  {
    InFront(line, startCol, i);
    ColumnStep(line, i);
    var k, f := Reach(line, startCol, 0), SliceStart(line, startCol);
    if i < f {
      assert Between(line, k, i + 1) == Between(line, k, i) + [line[i]];
    } else {
      assert f < i;
      assert Between(line, f, i + 1) == Between(line, f, i) + [line[i]];
      var lead := Glue(Between(line, k, f), Codes(line[..k]));
      GlueIs(lead, Between(line, f, i));
      Associate(lead, Between(line, f, i), [line[i]]);
    }
  }

  lemma SliceEarlyCode(line: Text, startCol: nat, endCol: nat, strict: bool, i: nat, result: Text, pendingAnsi: Text)
    requires i < |line| && line[i].Escape? && Slicing(line, startCol, endCol, strict, i, result, pendingAnsi)
    requires Column(line, i) < startCol
    ensures Slicing(line, startCol, endCol, strict, i + 1, result, pendingAnsi + [line[i]])
  {
    InFront(line, startCol, i);
    CodesStep(line, i);
    ColumnStep(line, i);
  }

  /** A cluster in front of the slice is passed over. */
  lemma SlicePass(line: Text, startCol: nat, endCol: nat, strict: bool, i: nat, result: Text, pendingAnsi: Text)
    requires i < |line| && line[i].Cluster? && Slicing(line, startCol, endCol, strict, i, result, pendingAnsi)
    requires Column(line, i) < startCol < endCol
    ensures Column(line, i + 1) < endCol ==> Slicing(line, startCol, endCol, strict, i + 1, result, pendingAnsi)
    ensures Column(line, i + 1) >= endCol ==> SliceText(line, startCol, endCol, strict) == result
  {
    InFront(line, startCol, i);
    CodesStep(line, i);
    var k := Reach(line, startCol, 0);
    if Column(line, i + 1) >= endCol {
      ColumnsGrow(line, i + 1, k);
    }
  }

  /** A cluster in the range that fits is taken, behind the codes still pending. */
  lemma SliceTake(line: Text, startCol: nat, endCol: nat, strict: bool, i: nat, result: Text, pendingAnsi: Text)
    requires i < |line| && line[i].Cluster? && Slicing(line, startCol, endCol, strict, i, result, pendingAnsi)
    requires startCol <= Column(line, i) && (strict ==> Column(line, i + 1) <= endCol)
    ensures var taken := result + pendingAnsi + [line[i]];
            if Column(line, i + 1) < endCol then Slicing(line, startCol, endCol, strict, i + 1, taken, [])
            else SliceText(line, startCol, endCol, strict) == taken
  {
    InFront(line, startCol, i);
    var k, f := Reach(line, startCol, 0), SliceStart(line, startCol);
    ColumnsGrow(line, k, i);
    assert SliceEnd(line, f, endCol, strict) == SliceEnd(line, i, endCol, strict)
        == SliceEnd(line, i + 1, endCol, strict);
    if i == f {
      GlueFirst(Between(line, k, f), Codes(line[..k]), line[i]);
      assert Between(line, f, i + 1) == [] + [line[i]] == [line[i]];
    } else {
      GlueMore(Glue(Between(line, k, f), Codes(line[..k])), Between(line, f, i), line[i]);
    }
  }

  lemma GlueFirst(edge: Text, codes: Text, piece: Piece)
    ensures edge + codes + [piece] == Glue(Glue(edge, codes), [piece])
  {
    GlueIs(edge, codes);
  }

  lemma GlueMore(lead: Text, range: Text, piece: Piece)
    ensures Glue(lead, range) + [] + [piece] == Glue(lead, range + [piece])
  {
    GlueIs(lead, range);
    GlueIs(lead, range + [piece]);
    Associate(lead, range, [piece]);
  }

  /** A cluster in the range that does not fit ends the slice. */
  lemma SliceStop(line: Text, startCol: nat, endCol: nat, strict: bool, i: nat, result: Text, pendingAnsi: Text)
    requires i < |line| && line[i].Cluster? && Slicing(line, startCol, endCol, strict, i, result, pendingAnsi)
    requires startCol <= Column(line, i) && strict && Column(line, i + 1) > endCol
    ensures SliceText(line, startCol, endCol, strict) == result
  {
    InFront(line, startCol, i);
    ColumnsGrow(line, Reach(line, startCol, 0), i);
  }

  lemma SliceAtStart(line: Text, startCol: nat, endCol: nat, strict: bool)
    requires startCol < endCol
    ensures Slicing(line, startCol, endCol, strict, 0, [], []) && Column(line, 0) == 0
  {
    assert line[..0] == [];
  }

  lemma SliceAtEnd(line: Text, startCol: nat, endCol: nat, strict: bool, result: Text, pendingAnsi: Text)
    requires Slicing(line, startCol, endCol, strict, |line|, result, pendingAnsi)
    ensures SliceText(line, startCol, endCol, strict) == result
  {
    ColumnsGrow(line, Reach(line, startCol, 0), |line|);
  }

  lemma {:induction false} CodesAreWidthless(text: Text)
    ensures TextWidth(Codes(text)) == 0 && forall j :: 0 <= j < |Codes(text)| ==> !Codes(text)[j].Cluster?
    ensures forall s :: StyleAfter(s, Codes(text)) == StyleAfter(s, text)
    decreases |text|
  {
    if text != [] {
      var n := |text| - 1;
      CodesAreWidthless(text[..n]);
      if text[n].Escape? {
        ReadConcat(PLAIN, Codes(text[..n]), [text[n]]);
        ReadOne(StyleAfter(PLAIN, Codes(text[..n])), text[n]);
        assert (Codes(text[..n]) + [text[n]])[..|Codes(text[..n])|] == Codes(text[..n]);
      }
    }
  }

  method SliceWithWidth(line: Text, startCol: nat, length: int, strict: bool) returns (result: Text, resultWidth: nat)
    requires NoNewlines(line)
    ensures result == if length <= 0 then [] else SliceText(line, startCol, startCol + length, strict)
    ensures resultWidth == TextWidth(result)
  {
    result, resultWidth := [], 0;
    if length <= 0 {
      return;
    }
    var endCol := startCol + length;
    var currentCol := 0;
    var pendingAnsi: Text := [];
    SliceAtStart(line, startCol, endCol, strict);
    for i := 0 to |line|
      invariant currentCol == Column(line, i)
      invariant Slicing(line, startCol, endCol, strict, i, result, pendingAnsi)
      invariant resultWidth == TextWidth(result) && TextWidth(pendingAnsi) == 0
    {
      if line[i].Escape? {
        ColumnStep(line, i);
        result, pendingAnsi := SliceEscape(line, startCol, endCol, strict, i, currentCol, result, pendingAnsi);
      } else {
        var w, done;
        result, resultWidth, pendingAnsi, w, done :=
          SliceCluster(line, startCol, endCol, strict, i, currentCol, result, resultWidth, pendingAnsi);
        currentCol := currentCol + w;
        if done {
          return;
        }
      }
    }
    SliceAtEnd(line, startCol, endCol, strict, result, pendingAnsi);
  }

  /** A code goes into the slice, or waits for its first cluster. */
  method SliceEscape(line: Text, startCol: nat, endCol: nat, strict: bool, i: nat, currentCol: nat,
                     result: Text, pendingAnsi: Text)
    returns (newResult: Text, newPending: Text)
    requires i < |line| && line[i].Escape? && currentCol == Column(line, i)
    requires Slicing(line, startCol, endCol, strict, i, result, pendingAnsi) && TextWidth(pendingAnsi) == 0
    ensures Slicing(line, startCol, endCol, strict, i + 1, newResult, newPending)
    ensures TextWidth(newResult) == TextWidth(result) && TextWidth(newPending) == 0
  {
    newResult, newPending := result, pendingAnsi;
    AddCode(result, line[i]);
    AddCode(pendingAnsi, line[i]);
    if currentCol >= startCol && currentCol < endCol {
      SliceCode(line, startCol, endCol, strict, i, result, pendingAnsi);
      newResult := result + [line[i]];
    } else if currentCol < startCol {
      SliceEarlyCode(line, startCol, endCol, strict, i, result, pendingAnsi);
      newPending := pendingAnsi + [line[i]];
    }
  }

  lemma AddCode(text: Text, piece: Piece)
    requires piece.Escape?
    ensures TextWidth(text + [piece]) == TextWidth(text)
  {
    ReadOne(PLAIN, piece);
    ReadConcat(PLAIN, text, [piece]);
  }

  /** A cluster goes into the slice if it is in the range and fits; `done` at the end of the range. */
  method SliceCluster(line: Text, startCol: nat, endCol: nat, strict: bool, i: nat, currentCol: nat,
                      result: Text, resultWidth: nat, pendingAnsi: Text)
    returns (newResult: Text, newWidth: nat, newPending: Text, w: nat, done: bool)
    requires i < |line| && line[i].Cluster? && currentCol == Column(line, i) && startCol < endCol
    requires Slicing(line, startCol, endCol, strict, i, result, pendingAnsi) && TextWidth(pendingAnsi) == 0
    requires resultWidth == TextWidth(result)
    ensures currentCol + w == Column(line, i + 1) && TextWidth(newPending) == 0 && newWidth == TextWidth(newResult)
    ensures if done then newResult == SliceText(line, startCol, endCol, strict)
            else Slicing(line, startCol, endCol, strict, i + 1, newResult, newPending)
  {
    ColumnStep(line, i);
    newResult, newWidth, newPending, w := result, resultWidth, pendingAnsi, line[i].g.width;
    done := currentCol + w >= endCol;
    var inRange := currentCol >= startCol && currentCol < endCol;
    var fits := !strict || currentCol + w <= endCol;
    if inRange && fits {
      SliceTake(line, startCol, endCol, strict, i, result, pendingAnsi);
      ReadConcat(PLAIN, result, pendingAnsi);
      ReadConcat(PLAIN, result + pendingAnsi, [line[i]]);
      ReadOne(PLAIN, line[i]);
      newResult, newWidth, newPending := result + pendingAnsi + [line[i]], resultWidth + w, [];
    } else if inRange {
      SliceStop(line, startCol, endCol, strict, i, result, pendingAnsi);
    } else {
      SlicePass(line, startCol, endCol, strict, i, result, pendingAnsi);
    }
  }

  // ---- what a slice shows ----

  function ShownWidth(shown: seq<Shown>): nat {
    if shown == [] then 0 else ShownWidth(shown[..|shown| - 1]) + shown[|shown| - 1].g.width
  }

  lemma {:induction false} ShownIsWide(s: Style, text: Text)
    ensures ShownWidth(Visible(s, text)) == TextWidth(text)
    decreases |text|
  {
    if text != [] {
      var front := text[..|text| - 1];
      ShownIsWide(s, front);
      if text[|text| - 1].Cluster? {
        assert Visible(s, text)[..|Visible(s, front)|] == Visible(s, front);
      }
    }
  }

  /** The clusters that stand in the columns from `startCol` to `endCol`; if strict, only those that end
      there. */
  function Stretch(shown: seq<Shown>, startCol: nat, endCol: nat, strict: bool): seq<Shown> {
    if shown == [] then []
    else
      var n := |shown| - 1;
      WithCluster(Stretch(shown[..n], startCol, endCol, strict), shown[n], ShownWidth(shown[..n]), startCol, endCol,
                  strict)
  }

  /** A cluster at column `col` belongs to the columns, or not. */
  function WithCluster(front: seq<Shown>, x: Shown, col: nat, startCol: nat, endCol: nat, strict: bool): seq<Shown> {
    if startCol <= col < endCol && (strict ==> col + x.g.width <= endCol) then front + [x] else front
  }

  /** What the line itself shows in the columns of a slice. */
  function RangeShown(line: Text, startCol: nat, endCol: nat, strict: bool): seq<Shown> {
    Stretch(Visible(PLAIN, line), startCol, endCol, strict)
  }

  /** What the pieces of a slice show in the style in force there. */
  function PiecesShown(line: Text, startCol: nat, endCol: nat, strict: bool): seq<Shown> {
    var f := SliceStart(line, startCol);
    var e := SliceEnd(line, f, endCol, strict);
    Visible(StyleAfter(PLAIN, line[..f]), Between(line, f, e))
  }

  /** The range is that of the clusters that stand in the columns asked for, and fit. */
  lemma RangeHolds(line: Text, startCol: nat, endCol: nat, strict: bool, j: nat)
    requires j < |line| && line[j].Cluster?
    ensures var f := SliceStart(line, startCol);
            f <= j < SliceEnd(line, f, endCol, strict) <==> Kept(line, j, startCol, endCol, strict)
  {
    var f := SliceStart(line, startCol);
    InFront(line, startCol, j);
    if f <= j { SliceEndKeeps(line, f, j, endCol, strict); }
  }

  lemma FirstShown(s: Style, text: Text)
    requires text != [] && text[0].Cluster?
    ensures Visible(s, text) != [] && Visible(s, text)[0] == Shown(text[0].g, s)
  {
    assert text == [text[0]] + text[1..];
    ReadOne(s, text[0]);
    ReadConcat(s, [text[0]], text[1..]);
  }

  lemma {:induction false} OnlyCodes(text: Text, s: Style)
    requires forall j :: 0 <= j < |text| ==> !text[j].Cluster?
    ensures Visible(s, text) == []
    decreases |text|
  {
    if text != [] { OnlyCodes(text[..|text| - 1], s); }
  }

  /** Style in which a slice starts: the codes at its edge are read before the earlier codes. */
  function SliceStyle(line: Text, startCol: nat): Style {
    var k, f := Reach(line, startCol, 0), SliceStart(line, startCol);
    StyleAfter(StyleAfter(PLAIN, Between(line, k, f)), line[..k])
  }

  lemma SliceLead(edge: Text, before: Text, range: Text)
    requires forall j :: 0 <= j < |edge| ==> !edge[j].Cluster?
    ensures Visible(PLAIN, Glue(Glue(edge, Codes(before)), range))
        == Visible(StyleAfter(StyleAfter(PLAIN, edge), before), range)
  {
    GlueIs(edge, Codes(before));
    GlueIs(edge + Codes(before), range);
    CodesAreWidthless(before);
    OnlyCodes(edge, PLAIN);
    OnlyCodes(Codes(before), StyleAfter(PLAIN, edge));
    ReadConcat(PLAIN, edge, Codes(before));
    ReadConcat(PLAIN, edge + Codes(before), range);
    assert [] + Visible(StyleAfter(StyleAfter(PLAIN, edge), before), range)
        == Visible(StyleAfter(StyleAfter(PLAIN, edge), before), range);
  }

  lemma SliceShows(line: Text, startCol: nat, endCol: nat, strict: bool)
    requires startCol < endCol
    ensures var f := SliceStart(line, startCol); var e := SliceEnd(line, f, endCol, strict);
            Visible(PLAIN, SliceText(line, startCol, endCol, strict))
                == Visible(SliceStyle(line, startCol), Between(line, f, e))
  {
    var k, f := Reach(line, startCol, 0), SliceStart(line, startCol);
    var e := SliceEnd(line, f, endCol, strict);
    ColumnsGrow(line, k, f);
    if Column(line, k) < endCol {
      BetweenIs(line, k, f);
      OnlyCodes(Between(line, k, f), PLAIN);
      SliceLead(Between(line, k, f), line[..k], Between(line, f, e));
    }
  }

  lemma StretchAppend(shown: seq<Shown>, x: Shown, startCol: nat, endCol: nat, strict: bool)
    ensures Stretch(shown + [x], startCol, endCol, strict)
         == WithCluster(Stretch(shown, startCol, endCol, strict), x, ShownWidth(shown), startCol, endCol, strict)
  {
    assert (shown + [x])[..|shown|] == shown;
  }

  /** The part of a slice that lies in front of piece `i`. */
  function PiecesUpTo(line: Text, style: Style, f: nat, e: nat, i: nat): seq<Shown>
    requires f <= e <= |line|
  {
    if i <= f then [] else if i <= e then Visible(style, Between(line, f, i)) else Visible(style, Between(line, f, e))
  }

  lemma PieceStep(line: Text, f: nat, i: nat, style: Style)
    requires f <= i < |line| && style == StyleAfter(PLAIN, line[..f])
    ensures line[i].Cluster? ==>
              Visible(style, Between(line, f, i + 1))
                  == Visible(style, Between(line, f, i)) + [Shown(line[i].g, StyleAfter(PLAIN, line[..i]))]
    ensures !line[i].Cluster? ==> Visible(style, Between(line, f, i + 1)) == Visible(style, Between(line, f, i))
  {
    var front := Between(line, f, i);
    assert (front + [line[i]])[..|front|] == front;
    BetweenIs(line, f, i);
    assert line[..i] == line[..f] + line[f..i];
    ReadConcat(PLAIN, line[..f], front);
  }

  /** The pieces from `f` to `e` hold exactly the clusters that stand in the columns, and fit. */
  ghost predicate IsRange(line: Text, startCol: nat, endCol: nat, strict: bool, f: nat, e: nat) {
    f <= e <= |line| && forall j :: 0 <= j < |line| ==> InRange(line, startCol, endCol, strict, f, e, j)
  }

  predicate InRange(line: Text, startCol: nat, endCol: nat, strict: bool, f: nat, e: nat, j: nat)
    requires j < |line|
  {
    line[j].Cluster? ==> (f <= j < e <==> Kept(line, j, startCol, endCol, strict))
  }

  lemma {:induction false} StretchUpTo(line: Text, startCol: nat, endCol: nat, strict: bool, i: nat, f: nat, e: nat,
                                       style: Style)
    requires i <= |line| && IsRange(line, startCol, endCol, strict, f, e) && style == StyleAfter(PLAIN, line[..f])
    ensures Stretch(Visible(PLAIN, line[..i]), startCol, endCol, strict) == PiecesUpTo(line, style, f, e, i)
  {
    if i > 0 {
      StretchUpTo(line, startCol, endCol, strict, i - 1, f, e, style);
      assert InRange(line, startCol, endCol, strict, f, e, i - 1);
      StretchStep(line, startCol, endCol, strict, i - 1);
      PiecesStep(line, i - 1, f, e, style);
    }
  }

  /** Piece `i` in its style behind what is shown, if it is shown. */
  function AddIf(shows: bool, front: seq<Shown>, line: Text, i: nat): seq<Shown>
    requires i < |line| && (shows ==> line[i].Cluster?)
  {
    if shows then front + [Shown(line[i].g, StyleAfter(PLAIN, line[..i]))] else front
  }

  lemma StretchStep(line: Text, startCol: nat, endCol: nat, strict: bool, i: nat)
    requires i < |line|
    ensures Stretch(Visible(PLAIN, line[..i + 1]), startCol, endCol, strict)
         == AddIf(line[i].Cluster? && Kept(line, i, startCol, endCol, strict),
                  Stretch(Visible(PLAIN, line[..i]), startCol, endCol, strict),
                  line, i)
  {
    assert line[..i + 1][..i] == line[..i] && line[..i + 1][i] == line[i];
    if line[i].Cluster? {
      ShownIsWide(PLAIN, line[..i]);
      ColumnStep(line, i);
      StretchAppend(Visible(PLAIN, line[..i]), Shown(line[i].g, StyleAfter(PLAIN, line[..i])), startCol, endCol,
                    strict);
    }
  }

  lemma PiecesStep(line: Text, i: nat, f: nat, e: nat, style: Style)
    requires i < |line| && f <= e <= |line| && style == StyleAfter(PLAIN, line[..f])
    ensures PiecesUpTo(line, style, f, e, i + 1)
        == AddIf(f <= i < e && line[i].Cluster?, PiecesUpTo(line, style, f, e, i), line, i)
  {
    if f <= i < e { PieceStep(line, f, i, style); }
    if i == f { assert Between(line, f, f) == []; }
  }

  /** The pieces of a slice show what the line shows in its columns. */
  lemma PiecesAreRange(line: Text, startCol: nat, endCol: nat, strict: bool)
    ensures PiecesShown(line, startCol, endCol, strict) == RangeShown(line, startCol, endCol, strict)
  {
    var f := SliceStart(line, startCol);
    var e := SliceEnd(line, f, endCol, strict);
    forall j | 0 <= j < |line| ensures InRange(line, startCol, endCol, strict, f, e, j) {
      if line[j].Cluster? { RangeHolds(line, startCol, endCol, strict, j); }
    }
    StretchUpTo(line, startCol, endCol, strict, |line|, f, e, StyleAfter(PLAIN, line[..f]));
    assert line[..|line|] == line;
    if f == e { assert Between(line, f, e) == []; }
  }

  predicate KeepsNothing(line: Text, startCol: nat, endCol: nat, strict: bool) {
    var f := SliceStart(line, startCol);
    SliceEnd(line, f, endCol, strict) == f
  }

  /** A slice shows the range as the line does exactly when it keeps nothing, or the codes at its edge
      and the codes before them can trade places. */
  lemma SliceKeepsStylesExactlyWhen(line: Text, startCol: nat, endCol: nat, strict: bool)
    requires startCol < endCol
    ensures Visible(PLAIN, SliceText(line, startCol, endCol, strict)) == RangeShown(line, startCol, endCol, strict)
       <==> KeepsNothing(line, startCol, endCol, strict)
            || SliceStyle(line, startCol) == StyleAfter(PLAIN, line[..SliceStart(line, startCol)])
  {
    var f := SliceStart(line, startCol);
    var e := SliceEnd(line, f, endCol, strict);
    SliceShows(line, startCol, endCol, strict);
    PiecesAreRange(line, startCol, endCol, strict);
    BetweenIs(line, f, e);
    if e > f {
      assert Between(line, f, e)[0] == line[f];
      FirstShown(SliceStyle(line, startCol), Between(line, f, e));
      FirstShown(StyleAfter(PLAIN, line[..f]), Between(line, f, e));
    } else {
      assert Between(line, f, e) == [];
    }
  }

  predicate NoCodes(line: Text, i: nat, j: nat)
    requires i <= j <= |line|
  {
    forall n :: i <= n < j ==> !line[n].Escape?
  }

  lemma {:induction false} NoCodesNoChange(text: Text, s: Style)
    requires NoCodes(text, 0, |text|)
    ensures StyleAfter(s, text) == s
    decreases |text|
  {
    if text != [] { NoCodesNoChange(text[..|text| - 1], s); }
  }

  /** A slice keeps the styles when no code stands right at its edge, or none in front of it. */
  lemma SliceKeepsStylesWithoutMeetingCodes(line: Text, startCol: nat, endCol: nat, strict: bool)
    requires startCol < endCol
    requires var k := Reach(line, startCol, 0); NoCodes(line, 0, k) || NoCodes(line, k, SliceStart(line, startCol))
    ensures Visible(PLAIN, SliceText(line, startCol, endCol, strict)) == RangeShown(line, startCol, endCol, strict)
  {
    var k, f := Reach(line, startCol, 0), SliceStart(line, startCol);
    BetweenIs(line, k, f);
    assert line[..f] == line[..k] + line[k..f];
    ReadConcat(PLAIN, line[..k], line[k..f]);
    if NoCodes(line, 0, k) {
      NoCodesNoChange(line[..k], PLAIN);
      NoCodesNoChange(line[..k], StyleAfter(PLAIN, line[k..f]));
    } else {
      NoCodesNoChange(line[k..f], PLAIN);
      NoCodesNoChange(line[k..f], StyleAfter(PLAIN, line[..k]));
    }
    SliceKeepsStylesExactlyWhen(line, startCol, endCol, strict);
  }

  /** From the first column on, a slice always shows the range as the line does. */
  lemma SliceFromStartKeepsStyles(line: Text, endCol: nat, strict: bool)
    requires 0 < endCol
    ensures Visible(PLAIN, SliceText(line, 0, endCol, strict)) == RangeShown(line, 0, endCol, strict)
  {
    var f := SliceStart(line, 0);
    BetweenIs(line, 0, f);
    assert line[0..f] == line[..f];
    SliceKeepsStylesExactlyWhen(line, 0, endCol, strict);
  }

  /** A reset right at the start of a slice loses to a code before it: plain text comes out bold. */
  lemma SliceCanRestyle(a: Grapheme, b: Grapheme)
    requires a.width == 1 && b.width == 1
    ensures var line := [Escape(Sgr(["1"])), Cluster(a), Escape(Sgr(["0"])), Cluster(b)];
            && RangeShown(line, 1, 2, true) == [Shown(b, PLAIN)]
            && Visible(PLAIN, SliceText(line, 1, 2, true)) == [Shown(b, PLAIN.(bold := true))]
  {
    var line := [Escape(Sgr(["1"])), Cluster(a), Escape(Sgr(["0"])), Cluster(b)];
    RestyledPlaces(line);
    RestyledStyles(line, a, b);
    SliceShows(line, 1, 2, true);
    PiecesAreRange(line, 1, 2, true);
    ReadOne(PLAIN, Cluster(b));
    ReadOne(PLAIN.(bold := true), Cluster(b));
  }

  lemma RestyledPlaces(line: Text)
    requires |line| == 4 && line[0].Escape? && line[1].Cluster? && line[2].Escape? && line[3].Cluster?
    requires line[1].g.width == 1 && line[3].g.width == 1
    ensures Reach(line, 1, 0) == 2 && SliceStart(line, 1) == 3 && SliceEnd(line, 3, 2, true) == 4
    ensures Between(line, 2, 3) == [line[2]] && Between(line, 3, 4) == [line[3]]
  {
    ColumnStep(line, 0);
    ColumnStep(line, 1);
    ColumnStep(line, 2);
    ColumnStep(line, 3);
    assert Reach(line, 1, 0) == Reach(line, 1, 1) == Reach(line, 1, 2) == 2;
    assert NextCluster(line, 2) == NextCluster(line, 3) == 3;
    assert SliceEnd(line, 3, 2, true) == SliceEnd(line, 4, 2, true) == 4;
    BetweenIs(line, 2, 3);
    BetweenIs(line, 3, 4);
  }

  lemma RestyledStyles(line: Text, a: Grapheme, b: Grapheme)
    requires line == [Escape(Sgr(["1"])), Cluster(a), Escape(Sgr(["0"])), Cluster(b)]
    ensures StyleAfter(PLAIN, line[..3]) == PLAIN
    ensures StyleAfter(StyleAfter(PLAIN, [line[2]]), line[..2]) == PLAIN.(bold := true)
  {
    var bold := PLAIN.(bold := true);
    BoldThenReset();
    ReadOne(PLAIN, line[0]);
    ReadOne(PLAIN, line[2]);
    ReadOne(bold, line[1]);
    ReadOne(bold, line[2]);
    assert line[..2] == [line[0]] + [line[1]] && line[..3] == line[..2] + [line[2]];
    ReadConcat(PLAIN, [line[0]], [line[1]]);
    ReadConcat(PLAIN, line[..2], [line[2]]);
  }

  lemma BoldThenReset()
    ensures Process(PLAIN, Sgr(["1"])) == PLAIN.(bold := true)
    ensures forall s: Style :: s.link.None? ==> Process(s, Sgr(["0"])) == PLAIN
  {
    assert Number("1") == 1;
    assert ApplyAll(PLAIN, ["1"]) == ApplyFirst(PLAIN, ["1"]);
    assert ["1"] != [""] && ["1"] != ["0"] by { assert ["1"][0] == "1" && "1"[0] == '1' && "0"[0] == '0'; }
  }
}
