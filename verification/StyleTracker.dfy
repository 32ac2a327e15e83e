/** The object that tracks the style in force while text is cut into lines. */
module StyleTracker {
  import opened Common
  import opened Ansi

  class AnsiCodeTracker {
    var bold: bool
    var dim: bool
    var italic: bool
    var underline: bool
    var blink: bool
    var inverse: bool
    var hidden: bool
    var strikethrough: bool
    var fgColor: Option<seq<string>>
    var bgColor: Option<seq<string>>
    var activeHyperlink: Option<Link>

    function State(): Style
      reads this
    {
      Style(bold, dim, italic, underline, blink, inverse, hidden, strikethrough, fgColor, bgColor, activeHyperlink)
    }

    constructor ()
      ensures State() == PLAIN
    {
      bold, dim, italic, underline := false, false, false, false;
      blink, inverse, hidden, strikethrough := false, false, false, false;
      fgColor, bgColor, activeHyperlink := None, None, None;
    }

    /** An SGR reset leaves the hyperlink alone. */
    method Reset()
      modifies this
      ensures State() == Ansi.Reset(old(State()))
    {
      bold, dim, italic, underline := false, false, false, false;
      blink, inverse, hidden, strikethrough := false, false, false, false;
      fgColor, bgColor := None, None;
    }

    method Clear()
      modifies this
      ensures State() == PLAIN
    {
      Reset();
      activeHyperlink := None;
    }

    method ProcessAttribute(code: int)
      requires 1 <= code < 30
      modifies this
      ensures State() == SetAttribute(old(State()), code)
    {
      if code < 20 {
        SwitchOn(code);
      } else {
        SwitchOff(code);
      }
    }

    method SwitchOn(code: int)
      requires 1 <= code < 20
      modifies this
      ensures State() == SetAttribute(old(State()), code)
    {
      match code {
        case 1 => bold := true;
        case 2 => dim := true;
        case 3 => italic := true;
        case 4 => underline := true;
        case 5 => blink := true;
        case 7 => inverse := true;
        case 8 => hidden := true;
        case 9 => strikethrough := true;
        case _ =>
      }
    }

    method SwitchOff(code: int)
      requires 20 <= code < 30
      modifies this
      ensures State() == SetAttribute(old(State()), code)
    {
      match code {
        case 21 => bold := false;
        case 22 => bold, dim := false, false;
        case 23 => italic := false;
        case 24 => underline := false;
        case 25 => blink := false;
        case 27 => inverse := false;
        case 28 => hidden := false;
        case 29 => strikethrough := false;
        case _ =>
      }
    }

    method ProcessStandard(code: int)
      modifies this
      ensures State() == Standard(old(State()), code)
    {
      if code == 0 {
        Reset();
      } else if 1 <= code < 30 {
        ProcessAttribute(code);
      } else if code == 39 {
        fgColor := None;
      } else if code == 49 {
        bgColor := None;
      } else if IsForeground(code) {
        fgColor := Some([Decimal(code)]);
      } else if IsBackground(code) {
        bgColor := Some([Decimal(code)]);
      }
    }

    method ProcessParams(parts: seq<string>)
      modifies this
      ensures State() == ApplyAll(old(State()), parts)
    {
      var i := 0;
      while i < |parts|
        invariant 0 <= i <= |parts|
        invariant ApplyAll(State(), parts[i..]) == ApplyAll(old(State()), parts)
        decreases |parts| - i
      {
        var code := Number(parts[i]);
        ghost var rest := parts[i..];
        assert rest[0] == parts[i];
        if code == 38 || code == 48 {
          if i + 2 < |parts| && parts[i + 1] == "5" {
            assert rest[1] == parts[i + 1];
            var colour := parts[i..i + 3];
            assert colour == rest[..3] && rest[3..] == parts[i + 3..];
            if code == 38 { fgColor := Some(colour); } else { bgColor := Some(colour); }
            i := i + 3;
            continue;
          } else if i + 4 < |parts| && parts[i + 1] == "2" {
            assert rest[1] == parts[i + 1];
            var colour := parts[i..i + 5];
            assert colour == rest[..5] && rest[5..] == parts[i + 5..];
            if code == 38 { fgColor := Some(colour); } else { bgColor := Some(colour); }
            i := i + 5;
            continue;
          }
        }
        assert Taken(rest) == 1 && rest[1..] == parts[i + 1..];
        ProcessStandard(code);
        i := i + 1;
      }
    }

    method Process(code: Code)
      modifies this
      ensures State() == Ansi.Process(old(State()), code)
    {
      match code {
        case Osc8(params, url, terminator) =>
          activeHyperlink := if url == "" then None else Some(Link(params, url, terminator));
        case Sgr(params) =>
          if params == [""] || params == ["0"] {
            Reset();
          } else {
            ProcessParams(params);
          }
        case OtherCode(_) =>
      }
    }

    method GetActiveCodes() returns (codes: seq<Code>)
      ensures codes == ActiveCodes(State())
    {
      var params := ActiveParams(State());
      codes := if |params| > 0 then [Sgr(params)] else [];
      match activeHyperlink {
        case None =>
        case Some(l) => codes := codes + [Osc8(l.params, l.url, l.terminator)];
      }
    }

    method GetLineEndReset() returns (codes: seq<Code>)
      ensures codes == LineEndReset(State())
    {
      codes := if underline then [Sgr(["24"])] else [];
      match activeHyperlink {
        case None =>
        case Some(l) => codes := codes + [Osc8("", "", l.terminator)];
      }
    }
  }
}
