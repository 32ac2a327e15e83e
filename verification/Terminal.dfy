/** The terminal the renderer writes to, after ECMA-48.

    Scrollback and screen are one tape of rows; the screen is its last `height`
    rows. A row records everything printed on it since it was last erased, and
    at which column, so a row shows a line exactly when that line is the only
    thing on it and was printed from column 0. */
module TerminalModel {
  import opened Common
  import opened Lines

  datatype Ink = Ink(line: Line, col: nat)
  type Row = seq<Ink>

  datatype Command =
    | CarriageReturn
    | LineFeed              // scrolls at the bottom row
    | Up(n: nat)            // CUU, section 8.3.22
    | Down(n: nat)          // CUD, section 8.3.19
    | Column(n: nat)        // CHA, one-based
    | EraseLine             // EL 2, section 8.3.41
    | EraseDisplay          // ED 2
    | EraseScrollback       // ED 3
    | Home
    | Print(line: Line)
    | DeleteImage(id: nat)
    | BeginSync
    | EndSync
    | ShowCursor
    | HideCursor

  datatype Screen = Screen(height: nat, tape: seq<Row>, cursor: nat, col: nat, images: set<nat>, shown: bool)
  {
    predicate Valid() {
      1 <= height <= |tape| && Top() <= cursor < |tape|
    }

    /** Tape index of the screen's first row. */
    function Top(): int { |tape| - height }

    /** Zero-based screen row of the cursor. */
    function CursorRow(): int { cursor - Top() }

    /** The visible rows. */
    function Rows(): seq<Row>
      requires Valid()
    {
      tape[Top()..]
    }

    /** A cursor movement parameter of 0 means 1. */
    static function Amount(n: nat): nat { if n == 0 then 1 else n }

    function Apply(c: Command): (s: Screen)
      requires Valid()
      ensures s.Valid() && s.height == height && |s.tape| - s.height >= 0
    {
      match c
      case CarriageReturn => this.(col := 0)
      case LineFeed =>
        if cursor + 1 < |tape| then this.(cursor := cursor + 1)
        else this.(tape := tape + [[]], cursor := cursor + 1)
      case Up(n) => this.(cursor := if cursor - Amount(n) < Top() then Top() else cursor - Amount(n))
      case Down(n) => this.(cursor := if cursor + Amount(n) < |tape| then cursor + Amount(n) else |tape| - 1)
      case Column(n) => this.(col := Amount(n) - 1)
      case EraseLine => this.(tape := tape[cursor := []])
      case EraseDisplay => this.(tape := tape[..Top()] + Blank(height))
      case EraseScrollback => this.(tape := tape[Top()..], cursor := cursor - Top())
      case Home => this.(cursor := Top(), col := 0)
      case Print(line) =>
        this.(tape := tape[cursor := tape[cursor] + [Ink(line, col)]],
              col := col + Width(line),
              images := images + DrawnIds(line))
      case DeleteImage(id) => this.(images := images - {id})
      case BeginSync => this
      case EndSync => this
      case ShowCursor => this.(shown := true)
      case HideCursor => this.(shown := false)
    }

    function Run(cs: seq<Command>): (s: Screen)
      requires Valid()
      ensures s.Valid() && s.height == height
      decreases |cs|
    {
      if cs == [] then this else Apply(cs[0]).Run(cs[1..])
    }
  }

  function Blank(n: nat): (rows: seq<Row>)
    ensures |rows| == n && forall k :: 0 <= k < n ==> rows[k] == []
  {
    seq(n, _ => [])
  }

  /** The screen before anything has been written to it. */
  function Fresh(height: nat): (s: Screen)
    requires height >= 1
    ensures s.Valid()
  {
    Screen(height, Blank(height), 0, 0, {}, true)
  }

  lemma {:induction false} RunConcat(s: Screen, a: seq<Command>, b: seq<Command>)
    requires s.Valid()
    ensures s.Run(a + b) == s.Run(a).Run(b)
    decreases |a|
  {
    if a == [] {
      assert a + b == b;
    } else {
      assert (a + b)[1..] == a[1..] + b;
      RunConcat(s.Apply(a[0]), a[1..], b);
    }
  }

  lemma Run1(s: Screen, c: Command)
    requires s.Valid()
    ensures s.Run([c]) == s.Apply(c)
  {
    assert [c][1..] == [];
  }

  class Terminal {
    var columns: nat
    var screen: Screen

    constructor (columns: nat, rows: nat)
      requires rows >= 1
      ensures this.columns == columns && screen == Fresh(rows)
    {
      this.columns, screen := columns, Fresh(rows);
    }

    method Write(buffer: seq<Command>)
      requires screen.Valid()
      modifies this`screen
      ensures screen == old(screen).Run(buffer)
    {
      screen := screen.Run(buffer);
    }
  }
}
