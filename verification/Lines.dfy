/** Rendered lines as the terminal UI handles them.

    A line is a sequence of atoms. The atoms are the things the renderer looks
    at inside a line: printable clusters with a column width, zero-width control
    sequences, the cursor marker, inline images and the segment reset. */
module Lines {
  import opened Common

  datatype Atom =
    | Glyph(text: string, width: nat)
    | Control(code: string)
    | CursorMarker
    | Kitty(id: Option<nat>)   // graphics sequence, with its `i=` parameter when that is in range
    | ITermImage
    | SegmentReset

  type Line = seq<Atom>

  function AtomWidth(a: Atom): nat {
    if a.Glyph? then a.width else 0
  }

  /** Columns a line occupies. */
  function Width(line: Line): nat {
    if line == [] then 0 else AtomWidth(line[0]) + Width(line[1..])
  }

  predicate IsImageAtom(a: Atom) { a.Kitty? || a.ITermImage? }

  predicate IsImageLine(line: Line) {
    exists k :: 0 <= k < |line| && IsImageAtom(line[k])
  }

  /** The id the renderer extracts: that of the line's first graphics sequence. */
  function ImageId(line: Line): (r: Option<nat>)
    ensures r.Some? ==> r.value in DrawnIds(line)
  {
    if line == [] then None
    else if line[0].Kitty? then line[0].id
    else ImageId(line[1..])
  }

  /** The ids the terminal sees: those of every graphics sequence in the line. */
  function DrawnIds(line: Line): set<nat> {
    set a | a in line && a.Kitty? && a.id.Some? :: a.id.value
  }

  function ExtractedIds(line: Line): seq<nat> {
    match ImageId(line) case None => [] case Some(id) => [id]
  }

  /** At most one image: what the renderer extracts is all that the terminal draws. */
  predicate SingleImage(line: Line) {
    forall id :: id in DrawnIds(line) ==> ImageId(line) == Some(id)
  }

  function FrameIds(lines: seq<Line>): set<nat> {
    set k, id | 0 <= k < |lines| && id in DrawnIds(lines[k]) :: id
  }

  /** Each image id occurs on at most one line of the frame. */
  predicate DistinctImages(lines: seq<Line>) {
    forall j, k, id :: 0 <= j < |lines| && 0 <= k < |lines| && id in DrawnIds(lines[j]) && id in DrawnIds(lines[k])
                       ==> j == k
  }

  lemma FrameIdsSplit(a: seq<Line>, b: seq<Line>)
    ensures FrameIds(a + b) == FrameIds(a) + FrameIds(b)
  {
    var c := a + b;
    forall id ensures id in FrameIds(c) <==> id in FrameIds(a) + FrameIds(b) {
      if id in FrameIds(c) {
        var k :| 0 <= k < |c| && id in DrawnIds(c[k]);
        if k < |a| { assert id in DrawnIds(a[k]); } else { assert id in DrawnIds(b[k - |a|]); }
      }
      if id in FrameIds(a) {
        var k :| 0 <= k < |a| && id in DrawnIds(a[k]);
        assert c[k] == a[k];
      }
      if id in FrameIds(b) {
        var k :| 0 <= k < |b| && id in DrawnIds(b[k]);
        assert c[|a| + k] == b[k];
      }
    }
  }

  lemma WidthConcat(a: Line, b: Line)
    ensures Width(a + b) == Width(a) + Width(b)
  {
    if a == [] {
      assert a + b == b;
    } else {
      assert (a + b)[1..] == a[1..] + b;
      WidthConcat(a[1..], b);
    }
  }
}
