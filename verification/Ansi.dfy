/** Text styles as terminals read them from SGR codes and OSC 8 hyperlinks, and the tracker that
    remembers the style in force. */
module Ansi {
  import opened Common

  /** An escape sequence. SGR parameters are the digit strings between the semicolons; an empty
      parameter string is one empty parameter. */
  datatype Code =
    | Sgr(params: seq<string>)
    | Osc8(linkParams: string, url: string, terminator: string)
    | OtherCode(text: string)

  datatype Link = Link(params: string, url: string, terminator: string)

  datatype Style = Style(
    bold: bool, dim: bool, italic: bool, underline: bool, blink: bool, inverse: bool, hidden: bool, strikethrough: bool,
    fg: Option<seq<string>>,       // the parameters of the last foreground colour
    bg: Option<seq<string>>,
    link: Option<Link>)

  const PLAIN := Style(false, false, false, false, false, false, false, false, None, None, None)

  // ---- numbers ----

  /** Value of a digit string; -1 for the empty string, which names no code. */
  function Number(s: string): int {
    if s == "" then -1
    else (if |s| == 1 then 0 else 10 * Number(s[..|s| - 1])) + (s[|s| - 1] as int - '0' as int)
  }

  function Decimal(n: nat): string {
    if n < 10 then [(n + '0' as int) as char] else Decimal(n / 10) + [(n % 10 + '0' as int) as char]
  }

  lemma {:induction false} NumberOfDecimal(n: nat)
    ensures Decimal(n) != "" && Number(Decimal(n)) == n
  {
    if n >= 10 {
      NumberOfDecimal(n / 10);
      var s := Decimal(n);
      assert s[..|s| - 1] == Decimal(n / 10);
    }
  }

  // ---- reading codes ----

  predicate IsForeground(code: int) { 30 <= code <= 37 || 90 <= code <= 97 }
  predicate IsBackground(code: int) { 40 <= code <= 47 || 100 <= code <= 107 }

  function Reset(s: Style): Style { PLAIN.(link := s.link) }

  /** Codes 1 to 29 switch attributes on and off. */
  function SetAttribute(s: Style, code: int): (r: Style)
    ensures r.fg == s.fg && r.bg == s.bg && r.link == s.link
  {
    match code
    case 1 => s.(bold := true)
    case 2 => s.(dim := true)
    case 3 => s.(italic := true)
    case 4 => s.(underline := true)
    case 5 => s.(blink := true)
    case 7 => s.(inverse := true)
    case 8 => s.(hidden := true)
    case 9 => s.(strikethrough := true)
    case 21 => s.(bold := false)
    case 22 => s.(bold := false, dim := false)
    case 23 => s.(italic := false)
    case 24 => s.(underline := false)
    case 25 => s.(blink := false)
    case 27 => s.(inverse := false)
    case 28 => s.(hidden := false)
    case 29 => s.(strikethrough := false)
    case _ => s
  }

  function SetColour(s: Style, code: int): Style {
    if code == 39 then s.(fg := None)
    else if code == 49 then s.(bg := None)
    else if IsForeground(code) then s.(fg := Some([Decimal(code)]))
    else if IsBackground(code) then s.(bg := Some([Decimal(code)]))
    else s
  }

  /** A single-parameter SGR code. */
  function Standard(s: Style, code: int): Style {
    if code == 0 then Reset(s) else if code < 30 then SetAttribute(s, code) else SetColour(s, code)
  }

  /** Parameters that one colour code takes: three for an indexed colour, five for RGB, else one. */
  function Taken(ps: seq<string>): (n: nat)
    requires ps != []
    ensures 1 <= n <= |ps|
  {
    if Number(ps[0]) !in {38, 48} then 1
    else if |ps| >= 3 && ps[1] == "5" then 3
    else if |ps| >= 5 && ps[1] == "2" then 5
    else 1
  }

  function ApplyFirst(s: Style, ps: seq<string>): Style
    requires ps != []
  {
    if Taken(ps) == 1 then Standard(s, Number(ps[0]))
    else if Number(ps[0]) == 38 then s.(fg := Some(ps[..Taken(ps)]))
    else s.(bg := Some(ps[..Taken(ps)]))
  }

  function ApplyAll(s: Style, ps: seq<string>): Style
    decreases |ps|
  {
    if ps == [] then s else ApplyAll(ApplyFirst(s, ps), ps[Taken(ps)..])
  }

  function Process(s: Style, code: Code): Style {
    match code
    case Osc8(params, url, terminator) => s.(link := if url == "" then None else Some(Link(params, url, terminator)))
    case Sgr(params) => if params == [""] || params == ["0"] then Reset(s) else ApplyAll(s, params)
    case OtherCode(_) => s
  }

  function ProcessAll(s: Style, codes: seq<Code>): Style
    decreases |codes|
  {
    if codes == [] then s else ProcessAll(Process(s, codes[0]), codes[1..])
  }

  // ---- writing codes ----

  function Flag(on: bool, param: string): seq<string> { if on then [param] else [] }

  function Colour(c: Option<seq<string>>): seq<string> { match c case None => [] case Some(ps) => ps }

  function ActiveParams(s: Style): seq<string> {
    Flag(s.bold, "1") + (Flag(s.dim, "2") + (Flag(s.italic, "3") + (Flag(s.underline, "4") + LaterParams(s))))
  }

  function LaterParams(s: Style): seq<string> {
    Flag(s.blink, "5") + (Flag(s.inverse, "7") + (Flag(s.hidden, "8") + (Flag(s.strikethrough, "9")
    + (Colour(s.fg) + Colour(s.bg)))))
  }

  function ActiveLink(s: Style): seq<Code> {
    match s.link case None => [] case Some(l) => [Osc8(l.params, l.url, l.terminator)]
  }

  /** Codes that restore a style on a terminal in the default style. */
  function ActiveCodes(s: Style): seq<Code> {
    if ActiveParams(s) == [] then ActiveLink(s) else [Sgr(ActiveParams(s))] + ActiveLink(s)
  }

  /** Codes that keep underline and hyperlink from running past the end of a line. */
  function LineEndReset(s: Style): seq<Code> {
    (if s.underline then [Sgr(["24"])] else [])
    + (match s.link case None => [] case Some(l) => [Osc8("", "", l.terminator)])
  }

  lemma ProcessOne(s: Style, code: Code, more: seq<Code>)
    ensures ProcessAll(s, [code] + more) == ProcessAll(Process(s, code), more)
  {
    assert ([code] + more)[1..] == more;
  }

  lemma UnderlineOff(s: Style)
    ensures Process(s, Sgr(["24"])) == s.(underline := false)
  {
    assert Number("24") == 24;
    assert ApplyAll(s, ["24"]) == ApplyFirst(s, ["24"]);
  }

  lemma LineEndResetCloses(s: Style)
    ensures ProcessAll(s, LineEndReset(s)) == s.(underline := false, link := None)
  {
    var link := if s.link.Some? then [Osc8("", "", s.link.value.terminator)] else [];
    var t := s.(underline := false);
    if s.underline {
      UnderlineOff(s);
      ProcessOne(s, Sgr(["24"]), link);
    } else {
      assert LineEndReset(s) == link;
    }
    if s.link.Some? {
      ProcessOne(t, link[0], []);
      assert [link[0]] + [] == link;
    }
  }

  // ---- what single codes mean ----

  /** The attributes that codes switch on and off (SGR, section 8.3.117 of ECMA-48). */
  datatype Attribute = Bold | Dim | Italic | Underline | Blink | Inverse | Hidden | Strikethrough

  predicate Has(s: Style, a: Attribute) {
    match a
    case Bold => s.bold
    case Dim => s.dim
    case Italic => s.italic
    case Underline => s.underline
    case Blink => s.blink
    case Inverse => s.inverse
    case Hidden => s.hidden
    case Strikethrough => s.strikethrough
  }

  function On(a: Attribute): string {
    match a
    case Bold => "1" case Dim => "2" case Italic => "3" case Underline => "4"
    case Blink => "5" case Inverse => "7" case Hidden => "8" case Strikethrough => "9"
  }

  /** Normal intensity is neither bold nor dim. */
  function Off(a: Attribute): string {
    match a
    case Bold => "22" case Dim => "22" case Italic => "23" case Underline => "24"
    case Blink => "25" case Inverse => "27" case Hidden => "28" case Strikethrough => "29"
  }

  lemma TwoDigits(a: char, b: char)
    requires '0' <= a <= '9' && '0' <= b <= '9'
    ensures Number([a, b]) == 10 * (a as int - '0' as int) + (b as int - '0' as int)
  {
    assert [a, b][..1] == [a];
  }

  lemma OneParameter(s: Style, p: string)
    requires Number(p) !in {38, 48}
    ensures ApplyAll(s, [p]) == Standard(s, Number(p))
  {
    assert [p][1..] == [];
  }

  function OnNumber(a: Attribute): int {
    match a
    case Bold => 1 case Dim => 2 case Italic => 3 case Underline => 4
    case Blink => 5 case Inverse => 7 case Hidden => 8 case Strikethrough => 9
  }

  function OffNumber(a: Attribute): int { if a.Bold? then 22 else 20 + OnNumber(a) }

  lemma SwitchNumbers(a: Attribute)
    ensures Number(On(a)) == OnNumber(a) && Number(Off(a)) == OffNumber(a)
  {
    var last := Off(a)[1];
    TwoDigits('2', last);
    assert Off(a) == ['2', last];
  }

  lemma SwitchesOne(s: Style, a: Attribute, b: Attribute)
    ensures Has(SetAttribute(s, OnNumber(a)), b) <==> Has(s, b) || a == b
    ensures Has(SetAttribute(s, OffNumber(a)), b) <==> Has(s, b) && OffNumber(a) != OffNumber(b)
  {
  }

  /** The code that switches an attribute on does that and nothing else. */
  lemma SwitchesOn(s: Style, a: Attribute, b: Attribute)
    ensures var on := Process(s, Sgr([On(a)]));
            (Has(on, b) <==> Has(s, b) || a == b) && on.fg == s.fg && on.bg == s.bg && on.link == s.link
  {
    SwitchNumbers(a);
    OneParameter(s, On(a));
    SwitchesOne(s, a, b);
  }

  /** The code that switches an attribute off does that to the attributes that share it, and nothing else. */
  lemma SwitchesOff(s: Style, a: Attribute, b: Attribute)
    ensures var off := Process(s, Sgr([Off(a)]));
            (Has(off, b) <==> Has(s, b) && Off(a) != Off(b)) && off.fg == s.fg && off.bg == s.bg && off.link == s.link
  {
    SwitchNumbers(a);
    SwitchNumbers(b);
    OneParameter(s, Off(a));
    SwitchesOne(s, a, b);
    SharedSwitch(a, b);
  }

  lemma SharedSwitch(a: Attribute, b: Attribute)
    ensures Off(a) == Off(b) <==> OffNumber(a) == OffNumber(b)
  {
    SwitchNumbers(a);
    SwitchNumbers(b);
    if OffNumber(a) == OffNumber(b) && !a.Bold? && !b.Bold? {
      assert a == b;
    }
  }

  /** The default colours, and the other code against bold. */
  lemma ColoursReset(s: Style)
    ensures Process(s, Sgr(["39"])) == s.(fg := None) && Process(s, Sgr(["49"])) == s.(bg := None)
    ensures Process(s, Sgr(["21"])) == s.(bold := false)
  {
    TwoDigits('3', '9');
    TwoDigits('4', '9');
    OneParameter(s, "39");
    OneParameter(s, "49");
    TwoDigits('2', '1');
    OneParameter(s, "21");
  }

  /** The eight standard colours and their bright forms. */
  lemma ColourIsSet(s: Style, p: string, digit: char)
    requires p in {"3", "9", "4", "10"} && '0' <= digit <= '7'
    ensures var code := p + [digit];
            Process(s, Sgr([code])) == if p == "3" || p == "9" then s.(fg := Some([code])) else s.(bg := Some([code]))
  {
    var code, d := p + [digit], digit as int - '0' as int;
    assert code[..|code| - 1] == p && Number("10") == 10 by { TwoDigits('1', '0'); }
    assert Number(code) == 10 * Number(p) + d;
    assert Decimal(Number(code)) == Decimal(Number(p)) + [digit];
    assert Decimal(Number(p)) == p;
    OneParameter(s, code);
  }

  /** A reset, however it is written, leaves only the hyperlink. */
  lemma ResetClears(s: Style, p: string)
    requires p in {"", "0"}
    ensures Process(s, Sgr([p])).link == s.link
    ensures Process(s, Sgr([p])).fg == Process(s, Sgr([p])).bg == None
    ensures forall a :: !Has(Process(s, Sgr([p])), a)
  {
  }

  /** The parameters of a code act one after the other; a colour takes all of its own. */
  lemma {:induction false} ParametersInOrder(s: Style, c: seq<string>, rest: seq<string>)
    requires c != [] && (if |c| == 1 then Number(c[0]) !in {38, 48} else c[0] in {"38", "48"})
    requires |c| == 1 || (|c| == 3 && c[1] == "5") || (|c| == 5 && c[1] == "2")
    ensures ApplyAll(s, c + rest) == ApplyAll(ApplyAll(s, c), rest)
    ensures |c| > 1 ==> ApplyAll(s, c) == if c[0] == "38" then s.(fg := Some(c)) else s.(bg := Some(c))
  {
    TwoDigits('3', '8');
    TwoDigits('4', '8');
    assert (c + rest)[0] == c[0] && (|c| > 1 ==> (c + rest)[1] == c[1]);
    assert (c + rest)[|c|..] == rest && (c + rest)[..|c|] == c && c[..|c|] == c && c[|c|..] == [];
    assert Taken(c + rest) == |c| == Taken(c);
  }

  // ---- the round trip ----

  predicate IsColour(c: Option<seq<string>>, base: int) {
    c.None?
    || (|c.value| == 1 && c.value[0] != ""
        && (if base == 38 then IsForeground(Number(c.value[0])) else IsBackground(Number(c.value[0])))
        && Decimal(Number(c.value[0])) == c.value[0])
    || (|c.value| == 3 && Number(c.value[0]) == base && c.value[1] == "5")
    || (|c.value| == 5 && Number(c.value[0]) == base && c.value[1] == "2")
  }

  /** Styles that codes can produce. */
  predicate Reachable(s: Style) {
    IsColour(s.fg, 38) && IsColour(s.bg, 48) && (s.link.Some? ==> s.link.value.url != "")
  }

  lemma StandardReachable(s: Style, code: int)
    requires Reachable(s)
    ensures Reachable(Standard(s, code))
  {
    if code >= 30 {
      SetColourReachable(s, code);
    }
  }

  lemma SetColourReachable(s: Style, code: int)
    requires Reachable(s) && code >= 0
    ensures Reachable(SetColour(s, code))
  {
    var c := Some([Decimal(code)]);
    NamedColour(code);
    ReachableWith(s, c, c);
    ReachableWith(s, None, None);
  }

  lemma NamedColour(code: int)
    requires code >= 0
    ensures IsForeground(code) ==> IsColour(Some([Decimal(code)]), 38)
    ensures IsBackground(code) ==> IsColour(Some([Decimal(code)]), 48)
  {
    NumberOfDecimal(code);
  }

  lemma ReachableWith(s: Style, fg: Option<seq<string>>, bg: Option<seq<string>>)
    requires Reachable(s)
    ensures IsColour(fg, 38) ==> Reachable(s.(fg := fg))
    ensures IsColour(bg, 48) ==> Reachable(s.(bg := bg))
  {
  }

  lemma FirstReachable(s: Style, ps: seq<string>)
    requires Reachable(s) && ps != []
    ensures Reachable(ApplyFirst(s, ps))
  {
    if Taken(ps) == 1 {
      StandardReachable(s, Number(ps[0]));
    } else {
      var c := Some(ps[..Taken(ps)]);
      assert IsColour(c, Number(ps[0]));
    }
  }

  lemma {:induction false} ApplyReachable(s: Style, ps: seq<string>)
    requires Reachable(s)
    ensures Reachable(ApplyAll(s, ps))
    decreases |ps|
  {
    if ps != [] {
      FirstReachable(s, ps);
      ApplyReachable(ApplyFirst(s, ps), ps[Taken(ps)..]);
    }
  }

  lemma ProcessReachable(s: Style, code: Code)
    requires Reachable(s)
    ensures Reachable(Process(s, code))
  {
    if code.Sgr? {
      ApplyReachable(s, code.params);
    }
  }

  lemma SmallNumbers()
    ensures Number("1") == 1 && Number("2") == 2 && Number("3") == 3 && Number("4") == 4 && Number("5") == 5
    ensures Number("7") == 7 && Number("8") == 8 && Number("9") == 9
    ensures Number("0") == 0
  {
  }

  lemma ApplyFlag(s: Style, on: bool, param: string, rest: seq<string>)
    requires Number(param) !in {38, 48}
    ensures ApplyAll(s, Flag(on, param) + rest) == ApplyAll(if on then Standard(s, Number(param)) else s, rest)
  {
    if on {
      assert ([param] + rest)[1..] == rest;
    } else {
      assert [] + rest == rest;
    }
  }

  /** A colour's parameters are consumed as one, whatever follows them. */
  lemma ColourTaken(c: seq<string>, base: int, rest: seq<string>)
    requires base in {38, 48} && IsColour(Some(c), base)
    ensures c != [] && Taken(c + rest) == |c| && (c + rest)[|c|..] == rest && (c + rest)[..|c|] == c
    ensures (c + rest)[0] == c[0]
  {
    if |c| > 1 {
      assert (c + rest)[1] == c[1];
    }
  }

  lemma ApplyForeground(s: Style, c: Option<seq<string>>, rest: seq<string>)
    requires IsColour(c, 38)
    ensures ApplyAll(s, Colour(c) + rest) == ApplyAll(if c.None? then s else s.(fg := c), rest)
  {
    if c.None? {
      assert [] + rest == rest;
    } else {
      ColourTaken(c.value, 38, rest);
      if |c.value| == 1 { assert c.value == [c.value[0]]; }
      assert ApplyFirst(s, c.value + rest) == s.(fg := c);
    }
  }

  lemma ApplyBackground(s: Style, c: Option<seq<string>>, rest: seq<string>)
    requires IsColour(c, 48)
    ensures ApplyAll(s, Colour(c) + rest) == ApplyAll(if c.None? then s else s.(bg := c), rest)
  {
    if c.None? {
      assert [] + rest == rest;
    } else {
      ColourTaken(c.value, 48, rest);
      if |c.value| == 1 { assert c.value == [c.value[0]]; }
      assert ApplyFirst(s, c.value + rest) == s.(bg := c);
    }
  }

  lemma FirstFlags(s: Style, rest: seq<string>)
    ensures ApplyAll(PLAIN,
                     Flag(s.bold, "1") + (Flag(s.dim, "2") + (Flag(s.italic, "3") + (Flag(s.underline, "4") + rest))))
            == ApplyAll(PLAIN.(bold := s.bold, dim := s.dim, italic := s.italic, underline := s.underline), rest)
  {
    SmallNumbers();
    var p4 := Flag(s.underline, "4") + rest;
    var p3 := Flag(s.italic, "3") + p4;
    ApplyFlag(PLAIN, s.bold, "1", Flag(s.dim, "2") + p3);
    var s1 := PLAIN.(bold := s.bold);
    ApplyFlag(s1, s.dim, "2", p3);
    var s2 := s1.(dim := s.dim);
    ApplyFlag(s2, s.italic, "3", p4);
    var s3 := s2.(italic := s.italic);
    ApplyFlag(s3, s.underline, "4", rest);
  }

  lemma LastFlags(s0: Style, s: Style, rest: seq<string>)
    requires !s0.blink && !s0.inverse && !s0.hidden && !s0.strikethrough
    ensures ApplyAll(s0,
                     Flag(s.blink, "5") + (Flag(s.inverse, "7")
                                           + (Flag(s.hidden, "8") + (Flag(s.strikethrough, "9") + rest))))
            == ApplyAll(s0.(blink := s.blink, inverse := s.inverse, hidden := s.hidden,
                            strikethrough := s.strikethrough), rest)
  {
    SmallNumbers();
    var p9 := Flag(s.strikethrough, "9") + rest;
    var p8 := Flag(s.hidden, "8") + p9;
    ApplyFlag(s0, s.blink, "5", Flag(s.inverse, "7") + p8);
    var s1 := s0.(blink := s.blink);
    ApplyFlag(s1, s.inverse, "7", p8);
    var s2 := s1.(inverse := s.inverse);
    ApplyFlag(s2, s.hidden, "8", p9);
    var s3 := s2.(hidden := s.hidden);
    ApplyFlag(s3, s.strikethrough, "9", rest);
  }

  lemma ColoursLast(s: Style, s0: Style)
    requires Reachable(s) && s0 == s.(fg := None, bg := None, link := None)
    ensures ApplyAll(s0, Colour(s.fg) + Colour(s.bg)) == s.(link := None)
  {
    ApplyForeground(s0, s.fg, Colour(s.bg));
    ApplyBackground(s0.(fg := s.fg), s.bg, []);
    assert Colour(s.bg) + [] == Colour(s.bg);
  }

  /** Replaying the active parameters on the plain style restores everything but the hyperlink. */
  lemma ParamsRoundTrip(s: Style)
    requires Reachable(s)
    ensures ApplyAll(PLAIN, ActiveParams(s)) == s.(link := None)
  {
    FirstFlags(s, LaterParams(s));
    LastFlags(PLAIN.(bold := s.bold, dim := s.dim, italic := s.italic, underline := s.underline), s,
              Colour(s.fg) + Colour(s.bg));
    ColoursLast(s, s.(fg := None, bg := None, link := None));
  }

  /** Replaying the active codes into a cleared tracker restores its state. */
  lemma ActiveCodesRoundTrip(s: Style)
    requires Reachable(s)
    ensures ProcessAll(PLAIN, ActiveCodes(s)) == s
  {
    ParamsRoundTrip(s);
    NotAReset(s);
    var ps := ActiveParams(s);
    var sgr := if ps == [] then [] else [Sgr(ps)];
    if ps != [] { OneCode(PLAIN, Sgr(ps)); }
    ProcessConcat(PLAIN, sgr, ActiveLink(s));
    LinkRestored(s);
  }

  lemma OneCode(s: Style, code: Code)
    ensures ProcessAll(s, [code]) == Process(s, code)
  {
    assert [code][1..] == [];
  }

  lemma LinkRestored(s: Style)
    requires Reachable(s)
    ensures ProcessAll(s.(link := None), ActiveLink(s)) == s
  {
    if s.link.Some? {
      OneCode(s.(link := None), ActiveLink(s)[0]);
    }
  }

  lemma NotAReset(s: Style)
    requires Reachable(s)
    ensures ActiveParams(s) != [""] && ActiveParams(s) != ["0"]
  {
    SmallNumbers();
    if |ActiveParams(s)| == 1 {
      var p := ActiveParams(s)[0];
      assert p in {"1", "2", "3", "4", "5", "7", "8", "9"} || p in Colour(s.fg) || p in Colour(s.bg);
    }
  }

  lemma {:induction false} ProcessConcat(s: Style, a: seq<Code>, b: seq<Code>)
    ensures ProcessAll(s, a + b) == ProcessAll(ProcessAll(s, a), b)
    decreases |a|
  {
    if a == [] {
      assert a + b == b;
    } else {
      assert (a + b)[1..] == a[1..] + b;
      ProcessConcat(Process(s, a[0]), a[1..], b);
    }
  }
}
