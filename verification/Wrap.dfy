/** Word wrapping of styled text. */
module Wrap {
  import opened Common
  import opened Ansi
  import opened StyleTracker
  import opened StyledText
  import opened Paragraphs

  // ---- tokens ----

  function Joined(tokens: seq<Text>): Text {
    if tokens == [] then [] else Joined(tokens[..|tokens| - 1]) + tokens[|tokens| - 1]
  }

  lemma JoinedAppend(tokens: seq<Text>, t: Text)
    ensures Joined(tokens + [t]) == Joined(tokens) + t
  {
    assert (tokens + [t])[..|tokens|] == tokens;
  }

  /** Whether trimming leaves nothing: only blank clusters, no escape codes. */
  predicate IsWhitespace(text: Text) {
    forall k :: 0 <= k < |text| ==> text[k].Cluster? && text[k].g.blank
  }

  /** All visible clusters are plain spaces. */
  predicate AllSpaces(text: Text) {
    forall k :: 0 <= k < |text| && text[k].Cluster? ==> text[k].g.space
  }

  predicate HasCluster(text: Text) { exists k :: 0 <= k < |text| && text[k].Cluster? }

  /** All visible clusters are those of a word. */
  predicate AllInWord(text: Text) {
    forall k :: 0 <= k < |text| && text[k].Cluster? ==> InWord(text[k].g)
  }

  /** A run of spaces, a word, or a single cluster. */
  predicate Uniform(text: Text) {
    HasCluster(text) && (AllSpaces(text) || AllInWord(text) || |Clusters(text)| == 1)
  }

  /** Two tokens are neither both made of spaces nor both words. */
  predicate Apart(a: Text, b: Text) { !(AllSpaces(a) && AllSpaces(b)) && !(AllInWord(a) && AllInWord(b)) }

  /** Tokens as the splitter makes them: each has something visible, all of one kind, and neighbours are apart. */
  ghost predicate Alternating(tokens: seq<Text>) {
    && (forall k :: 0 <= k < |tokens| ==> Uniform(tokens[k]))
    && (forall k :: 0 <= k < |tokens| - 1 ==> Apart(tokens[k], tokens[k + 1]))
  }

  predicate NoNewlines(text: Text) { forall k :: 0 <= k < |text| ==> !text[k].Newline? }

  datatype Kind = NoKind | SpaceKind | WordKind

  /** The state of the splitter: tokens made, the token in the making and its kind. */
  ghost predicate Splitting(tokens: seq<Text>, current: Text, kind: Kind) {
    && Alternating(tokens)
    && (kind == NoKind <==> current == [])
    && (kind != NoKind ==> HasCluster(current) && (AllSpaces(current) <==> kind == SpaceKind))
    && (kind == WordKind ==> AllInWord(current))
    && (kind != WordKind && tokens != [] ==> !AllSpaces(tokens[|tokens| - 1]))
    && (kind != SpaceKind && tokens != [] ==> !AllInWord(tokens[|tokens| - 1]))
    && NoNewlines(current) && forall k :: 0 <= k < |tokens| ==> NoNewlines(tokens[k])
  }

  predicate OnlyEscapes(text: Text) { forall k :: 0 <= k < |text| ==> text[k].Escape? }

  lemma ExtendedKind(current: Text, codes: Text, piece: Piece)
    requires OnlyEscapes(codes) && piece.Cluster?
    ensures HasCluster(current + codes + [piece])
    ensures AllSpaces(current + codes + [piece]) <==> AllSpaces(current) && piece.g.space
    ensures AllInWord(current) && InWord(piece.g) ==> AllInWord(current + codes + [piece])
    ensures NoNewlines(current) ==> NoNewlines(current + codes + [piece])
  {
    var t := current + codes + [piece];
    assert t[|t| - 1] == piece;
    if AllSpaces(t) {
      forall k | 0 <= k < |current| && current[k].Cluster? ensures current[k].g.space { assert t[k] == current[k]; }
    }
  }

  lemma FreshKind(codes: Text, piece: Piece)
    requires OnlyEscapes(codes) && piece.Cluster?
    ensures HasCluster(codes + [piece]) && NoNewlines(codes + [piece])
    ensures AllSpaces(codes + [piece]) <==> piece.g.space
    ensures AllInWord(codes + [piece]) <==> InWord(piece.g)
    ensures Clusters(codes + [piece]) == [piece.g]
  {
    var t := codes + [piece];
    assert t[|t| - 1] == piece && t[..|codes|] == codes;
    CodesHaveNoClusters(codes);
  }

  lemma {:induction false} CodesHaveNoClusters(codes: Text)
    requires OnlyEscapes(codes)
    ensures Clusters(codes) == []
    decreases |codes|
  {
    if codes != [] {
      CodesHaveNoClusters(codes[..|codes| - 1]);
    }
  }

  lemma CodesKeepKind(t: Text, codes: Text)
    requires OnlyEscapes(codes)
    ensures HasCluster(t + codes) <==> HasCluster(t)
    ensures AllSpaces(t + codes) <==> AllSpaces(t)
    ensures AllInWord(t + codes) <==> AllInWord(t)
    ensures Uniform(t) ==> Uniform(t + codes)
    ensures NoNewlines(t) ==> NoNewlines(t + codes)
  {
    ClustersConcat(t, codes);
    CodesHaveNoClusters(codes);
    if HasCluster(t) {
      var k :| 0 <= k < |t| && t[k].Cluster?;
      assert (t + codes)[k].Cluster?;
    }
    if AllSpaces(t + codes) {
      forall k | 0 <= k < |t| && t[k].Cluster? ensures t[k].g.space { assert (t + codes)[k] == t[k]; }
    }
    if AllInWord(t + codes) {
      forall k | 0 <= k < |t| && t[k].Cluster? ensures InWord(t[k].g) { assert (t + codes)[k] == t[k]; }
    }
  }

  lemma PushToken(tokens: seq<Text>, t: Text)
    requires Alternating(tokens) && Uniform(t)
    requires tokens != [] ==> Apart(tokens[|tokens| - 1], t)
    ensures Alternating(tokens + [t]) && Joined(tokens + [t]) == Joined(tokens) + t
  {
    JoinedAppend(tokens, t);
  }

  /** All tokens, the one in the making included. */
  ghost predicate Flushed(tokens: seq<Text>, current: Text, r: seq<Text>) {
    && Alternating(r) && Joined(r) == Joined(tokens) + current
    && r == (if current == [] then tokens else tokens + [current])
    && forall k :: 0 <= k < |r| ==> NoNewlines(r[k])
  }

  lemma PushIsFlushed(tokens: seq<Text>, current: Text, kind: Kind)
    requires Splitting(tokens, current, kind) && current != []
    ensures Flushed(tokens, current, tokens + [current])
  {
    PushToken(tokens, current);
  }

  /** Finish the token in the making. */
  method Flush(tokens: seq<Text>, current: Text, ghost kind: Kind) returns (r: seq<Text>)
    requires Splitting(tokens, current, kind)
    ensures Flushed(tokens, current, r)
  {
    if current == [] {
      r := tokens;
    } else {
      PushIsFlushed(tokens, current, kind);
      r := tokens + [current];
    }
  }

  /** Add one visible cluster, with the codes that precede it. */
  method AddCluster(tokens: seq<Text>, current: Text, kind: Kind, codes: Text, piece: Piece)
    returns (newTokens: seq<Text>, newCurrent: Text, newKind: Kind)
    requires Splitting(tokens, current, kind) && OnlyEscapes(codes) && piece.Cluster?
    ensures Splitting(newTokens, newCurrent, newKind)
    ensures Joined(newTokens) + newCurrent == Joined(tokens) + current + codes + [piece]
    ensures newTokens != [] || newCurrent != []
  {
    var g := piece.g;
    if !g.space && g.cjk {
      newTokens := Flush(tokens, current, kind);
      AloneToken(tokens, current, kind, codes, piece, newTokens);
      newTokens := newTokens + [codes + [piece]];
      newCurrent, newKind := [], NoKind;
    } else {
      newKind := if g.space then SpaceKind else WordKind;
      if current != [] && kind != newKind {
        newTokens := Flush(tokens, current, kind);
        NewToken(tokens, current, kind, codes, piece, newTokens, newKind);
        newCurrent := codes + [piece];
      } else {
        ExtendToken(tokens, current, kind, codes, piece, newKind);
        newTokens, newCurrent := tokens, current + codes + [piece];
      }
    }
  }

  /** The token in the making is finished, and a cluster becomes a token of its own. */
  lemma AloneToken(tokens: seq<Text>, current: Text, kind: Kind, codes: Text, piece: Piece, flushed: seq<Text>)
    requires Splitting(tokens, current, kind) && OnlyEscapes(codes) && piece.Cluster?
    requires !piece.g.space && piece.g.cjk && Flushed(tokens, current, flushed)
    ensures Splitting(flushed + [codes + [piece]], [], NoKind)
    ensures Joined(flushed + [codes + [piece]]) + [] == Joined(tokens) + current + codes + [piece]
  {
    FreshKind(codes, piece);
    Associate(Joined(tokens) + current, codes, [piece]);
    WordAlone(flushed, codes + [piece]);
  }

  lemma WordAlone(tokens: seq<Text>, word: Text)
    requires Alternating(tokens) && forall k :: 0 <= k < |tokens| ==> NoNewlines(tokens[k])
    requires Uniform(word) && !AllSpaces(word) && !AllInWord(word) && NoNewlines(word)
    ensures Splitting(tokens + [word], [], NoKind)
    ensures Joined(tokens + [word]) + [] == Joined(tokens) + word
  {
    PushToken(tokens, word);
    assert (tokens + [word])[|tokens|] == word;
    assert Joined(tokens + [word]) + [] == Joined(tokens + [word]);
  }

  /** The token in the making is finished, and a cluster of another kind starts the next. */
  lemma NewToken(tokens: seq<Text>, current: Text, kind: Kind, codes: Text, piece: Piece, flushed: seq<Text>,
                  newKind: Kind)
    requires Splitting(tokens, current, kind) && OnlyEscapes(codes) && piece.Cluster? && current != []
    requires Flushed(tokens, current, flushed)
    requires newKind == (if piece.g.space then SpaceKind else WordKind) && kind != newKind
    requires piece.g.space || !piece.g.cjk
    ensures Splitting(flushed, codes + [piece], newKind)
    ensures Joined(flushed) + (codes + [piece]) == Joined(tokens) + current + codes + [piece]
  {
    FreshKind(codes, piece);
    Associate(Joined(tokens) + current, codes, [piece]);
  }

  lemma ExtendToken(tokens: seq<Text>, current: Text, kind: Kind, codes: Text, piece: Piece, newKind: Kind)
    requires Splitting(tokens, current, kind) && OnlyEscapes(codes) && piece.Cluster?
    requires newKind == (if piece.g.space then SpaceKind else WordKind) && (current == [] || kind == newKind)
    requires piece.g.space || !piece.g.cjk
    ensures Splitting(tokens, current + codes + [piece], newKind)
    ensures Joined(tokens) + (current + codes + [piece]) == Joined(tokens) + current + codes + [piece]
  {
    ExtendedKind(current, codes, piece);
    Associate(Joined(tokens), current, codes);
    Associate(Joined(tokens), current + codes, [piece]);
  }

  /** Codes left at the end of the text go to the token in the making, else to the last one. */
  method AttachRest(tokens: seq<Text>, current: Text, ghost kind: Kind, codes: Text)
    returns (newTokens: seq<Text>, newCurrent: Text)
    requires Splitting(tokens, current, kind) && OnlyEscapes(codes)
    ensures Joined(newTokens) + newCurrent == Joined(tokens) + current + codes
    ensures tokens != [] || current != [] ==>
              Alternating(newTokens) && (newCurrent != [] ==> Splitting(newTokens, newCurrent, kind))
    ensures tokens == [] && current == [] ==> newTokens == [] && newCurrent == codes
    ensures NoNewlines(newCurrent) && forall k :: 0 <= k < |newTokens| ==> NoNewlines(newTokens[k])
  {
    newTokens, newCurrent := tokens, current;
    if codes == [] {
      return;
    }
    if current != [] {
      CodesKeepKind(current, codes);
      newCurrent := current + codes;
    } else if |tokens| > 0 {
      var n := |tokens| - 1;
      var last := tokens[n];
      CodesKeepKind(last, codes);
      assert tokens == tokens[..n] + [last];
      JoinedAppend(tokens[..n], last);
      JoinedAppend(tokens[..n], last + codes);
      newTokens := tokens[..n] + [last + codes];
    } else {
      newCurrent := codes;
    }
  }

  /** Split into words and runs of spaces; codes stay with the next visible cluster, or with the last
      token. Nothing is lost, and a text with a visible cluster gives alternating tokens. */
  method SplitIntoTokens(text: Text) returns (tokens: seq<Text>)
    requires NoNewlines(text)
    ensures Joined(tokens) == text
    ensures HasCluster(text) ==> Alternating(tokens)
    ensures forall k :: 0 <= k < |tokens| ==> NoNewlines(tokens[k])
  {
    tokens := [];
    var current: Text := [];
    var pendingAnsi: Text := [];
    var currentKind := NoKind;
    for i := 0 to |text|
      invariant SplitSoFar(text[..i], tokens, current, currentKind, pendingAnsi)
    {
      assert text[..i + 1] == text[..i] + [text[i]];
      tokens, current, currentKind, pendingAnsi :=
        SplitPiece(text[..i], tokens, current, currentKind, pendingAnsi, text[i]);
    }
    assert text[..|text|] == text;
    tokens := FinishTokens(text, tokens, current, currentKind, pendingAnsi);
  }

  /** What the splitter has read is in its tokens, the token in the making and the codes that wait. */
  ghost predicate SplitSoFar(read: Text, tokens: seq<Text>, current: Text, kind: Kind, pendingAnsi: Text) {
    && Joined(tokens) + current + pendingAnsi == read
    && Splitting(tokens, current, kind) && OnlyEscapes(pendingAnsi)
    && (tokens == [] && current == [] ==> !HasCluster(read))
  }

  method SplitPiece(ghost read: Text, tokens: seq<Text>, current: Text, kind: Kind, pendingAnsi: Text, piece: Piece)
    returns (newTokens: seq<Text>, newCurrent: Text, newKind: Kind, newPending: Text)
    requires SplitSoFar(read, tokens, current, kind, pendingAnsi) && !piece.Newline?
    ensures SplitSoFar(read + [piece], newTokens, newCurrent, newKind, newPending)
  {
    if piece.Escape? {
      CodesKeepKind(read, [piece]);
      Associate(Joined(tokens) + current, pendingAnsi, [piece]);
      newTokens, newCurrent, newKind, newPending := tokens, current, kind, pendingAnsi + [piece];
    } else {
      newTokens, newCurrent, newKind := AddCluster(tokens, current, kind, pendingAnsi, piece);
      newPending := [];
      assert Joined(newTokens) + newCurrent + [] == Joined(newTokens) + newCurrent;
    }
  }

  method FinishTokens(ghost text: Text, tokens: seq<Text>, current: Text, ghost kind: Kind, pendingAnsi: Text)
    returns (r: seq<Text>)
    requires SplitSoFar(text, tokens, current, kind, pendingAnsi)
    ensures Joined(r) == text
    ensures HasCluster(text) ==> Alternating(r)
    ensures forall k :: 0 <= k < |r| ==> NoNewlines(r[k])
  {
    var last;
    r, last := AttachRest(tokens, current, kind, pendingAnsi);
    if last != [] {
      JoinedAppend(r, last);
      r := r + [last];
    }
  }

  // ---- where the tokens of a line lie ----

  lemma {:induction false} JoinedConcat(a: seq<Text>, b: seq<Text>)
    ensures Joined(a + b) == Joined(a) + Joined(b)
    decreases |b|
  {
    if b == [] {
      assert a + b == a;
    } else {
      assert (a + b)[..|a + b| - 1] == a + b[..|b| - 1];
      JoinedConcat(a, b[..|b| - 1]);
      Associate(Joined(a), Joined(b[..|b| - 1]), b[|b| - 1]);
    }
  }

  lemma {:induction false} KindOfClusters(text: Text)
    ensures HasCluster(text) <==> Clusters(text) != []
    ensures AllSpaces(text) <==> forall k :: 0 <= k < |Clusters(text)| ==> Clusters(text)[k].space
    ensures AllInWord(text) <==> forall k :: 0 <= k < |Clusters(text)| ==> InWord(Clusters(text)[k])
    decreases |text|
  {
    if text != [] {
      var front, last := text[..|text| - 1], text[|text| - 1];
      KindOfClusters(front);
      KindsAppend(front, last);
      assert text == front + [last];
      if last.Cluster? {
        OneMore(Clusters(front), last.g, Clusters(text));
      }
    }
  }

  lemma OneMore(front: seq<Grapheme>, g: Grapheme, all: seq<Grapheme>)
    requires all == front + [g]
    ensures (forall k :: 0 <= k < |all| ==> all[k].space)
        <==> (forall k :: 0 <= k < |front| ==> front[k].space) && g.space
    ensures (forall k :: 0 <= k < |all| ==> InWord(all[k]))
       <==> (forall k :: 0 <= k < |front| ==> InWord(front[k])) && InWord(g)
  {
    assert all[|front|] == g && forall k :: 0 <= k < |front| ==> all[k] == front[k];
    if forall k :: 0 <= k < |all| ==> all[k].space {
      forall k | 0 <= k < |front| ensures front[k].space { assert all[k].space; }
    }
    if forall k :: 0 <= k < |all| ==> InWord(all[k]) {
      forall k | 0 <= k < |front| ensures InWord(front[k]) { assert InWord(all[k]); }
    }
  }

  lemma KindsAppend(front: Text, last: Piece)
    ensures HasCluster(front + [last]) <==> HasCluster(front) || last.Cluster?
    ensures AllSpaces(front + [last]) <==> AllSpaces(front) && (last.Cluster? ==> last.g.space)
    ensures AllInWord(front + [last]) <==> AllInWord(front) && (last.Cluster? ==> InWord(last.g))
  {
    var text := front + [last];
    assert text[|front|] == last;
    assert forall k :: 0 <= k < |front| ==> text[k] == front[k];
    if HasCluster(front) {
      var k :| 0 <= k < |front| && front[k].Cluster?;
      assert text[k].Cluster?;
    }
    if AllSpaces(text) {
      forall k | 0 <= k < |front| && front[k].Cluster? ensures front[k].g.space { assert text[k] == front[k]; }
    }
    if AllInWord(text) {
      forall k | 0 <= k < |front| && front[k].Cluster? ensures InWord(front[k].g) { assert text[k] == front[k]; }
    }
  }

  lemma UniformIsOneRun(token: Text)
    requires Uniform(token)
    ensures OneRun(Clusters(token)) && Clusters(token) != []
  {
    KindOfClusters(token);
  }

  /** The end of one token and the start of the next are not in one word. */
  lemma ApartIsNoWord(a: Text, b: Text)
    requires Uniform(a) && Uniform(b) && Apart(a, b)
    ensures Clusters(a) != [] && Clusters(b) != []
    ensures !(InWord(Clusters(a)[|Clusters(a)| - 1]) && InWord(Clusters(b)[0]))
  {
    KindOfClusters(a);
    KindOfClusters(b);
  }

  /** The clusters in front of token `i`. */
  function Ahead(tokens: seq<Text>, i: nat): seq<Grapheme>
    requires i <= |tokens|
  {
    Clusters(Joined(tokens[..i]))
  }

  lemma AheadNext(tokens: seq<Text>, i: nat)
    requires i < |tokens|
    ensures Ahead(tokens, i + 1) == Ahead(tokens, i) + Clusters(tokens[i])
  {
    JoinedNext(tokens, i);
    ClustersConcat(Joined(tokens[..i]), tokens[i]);
  }

  lemma JoinedNext(tokens: seq<Text>, i: nat)
    requires i < |tokens|
    ensures Joined(tokens[..i + 1]) == Joined(tokens[..i]) + tokens[i]
  {
    assert tokens[..i + 1] == tokens[..i] + [tokens[i]];
    JoinedAppend(tokens[..i], tokens[i]);
  }

  lemma AheadIsPrefix(tokens: seq<Text>, i: nat) returns (rest: seq<Grapheme>)
    requires i <= |tokens|
    ensures Clusters(Joined(tokens)) == Ahead(tokens, i) + rest
  {
    assert tokens == tokens[..i] + tokens[i..];
    JoinedConcat(tokens[..i], tokens[i..]);
    ClustersConcat(Joined(tokens[..i]), Joined(tokens[i..]));
    rest := Clusters(Joined(tokens[i..]));
  }

  /** No word goes on from one token to the next. */
  lemma TokensSplitNoWord(tokens: seq<Text>, i: nat)
    requires i <= |tokens| && Alternating(tokens)
    ensures !SplitsWord(Clusters(Joined(tokens)), |Ahead(tokens, i)|)
  {
    if 0 < i < |tokens| {
      var j := i - 1;
      assert Apart(tokens[j], tokens[j + 1]) && Uniform(tokens[j]) && Uniform(tokens[i]);
      ApartIsNoWord(tokens[j], tokens[i]);
      AheadNext(tokens, j);
      AheadNext(tokens, i);
      var rest := AheadIsPrefix(tokens, i + 1);
      Neighbours(Ahead(tokens, j), Clusters(tokens[j]), Clusters(tokens[i]), rest);
    } else {
      assert tokens[..i] == if i == 0 then [] else tokens;
    }
  }

  lemma Neighbours(front: seq<Grapheme>, a: seq<Grapheme>, b: seq<Grapheme>, rest: seq<Grapheme>)
    requires a != [] && b != []
    ensures var gs, p := front + a + b + rest, |front + a|;
            0 < p < |gs| && gs[p - 1] == a[|a| - 1] && gs[p] == b[0]
  {
  }

  /** Each token of a line lies in its paragraph where the tokens in front of it end. */
  lemma TokenPlace(tokens: seq<Text>, i: nat, par: Paragraph)
    requires i < |tokens| && Alternating(tokens) && par.gs == Clusters(Joined(tokens))
    ensures TokenAt(par, |Ahead(tokens, i)|, Clusters(tokens[i]))
  {
    var front, part := Ahead(tokens, i), Clusters(tokens[i]);
    AheadNext(tokens, i);
    var rest := AheadIsPrefix(tokens, i + 1);
    TokensSplitNoWord(tokens, i);
    TokensSplitNoWord(tokens, i + 1);
    UniformIsOneRun(tokens[i]);
    PartBetween(par.gs, front, part, rest);
  }

  // ---- widths ----

  /** Every cluster fits a line on its own, and the only blank is the plain space. */
  predicate WellSized(text: Text, width: nat) {
    forall k :: 0 <= k < |text| && text[k].Cluster? ==>
      1 <= text[k].g.width <= width && (text[k].g.blank <==> text[k].g.space)
  }

  predicate Narrow(lines: seq<Text>, width: nat) { forall k :: 0 <= k < |lines| ==> TextWidth(lines[k]) <= width }

  lemma {:induction false} VisibleWidth(text: Text, width: nat)
    requires WellSized(text, width)
    ensures HasCluster(text) <==> TextWidth(text) > 0
    decreases |text|
  {
    if text != [] {
      var front, last := text[..|text| - 1], text[|text| - 1];
      VisibleWidth(front, width);
      if HasCluster(front) {
        var k :| 0 <= k < |front| && front[k].Cluster?;
        assert text[k].Cluster?;
      }
    }
  }

  lemma VisibleAppend(lines: seq<Text>, line: Text)
    ensures VisibleLines(lines + [line]) == VisibleLines(lines) + Visible(PLAIN, line)
  {
    assert (lines + [line])[..|lines|] == lines;
  }

  // ---- breaking a long word ----

  /** Neither underline nor a hyperlink runs past the end of a closed line. */
  predicate Closed(line: Text) {
    var style := StyleAfter(PLAIN, line);
    !style.underline && style.link.None?
  }

  predicate AllClosed(lines: seq<Text>) { forall k :: 0 <= k < |lines| ==> Closed(lines[k]) }

  /** A line closed with its end-of-line codes shows what it showed. */
  lemma ClosedLine(line: Text, style: Style)
    ensures StyleAfter(PLAIN, line) == style ==> Closed(line + Escapes(LineEndReset(style)))
    ensures Visible(PLAIN, line + Escapes(LineEndReset(style))) == Visible(PLAIN, line)
    ensures TextWidth(line + Escapes(LineEndReset(style))) == TextWidth(line)
  {
    ReadConcat(PLAIN, line, Escapes(LineEndReset(style)));
    ReadEscapes(StyleAfter(PLAIN, line), LineEndReset(style));
    LineEndResetCloses(style);
  }

  /** The part of a word read so far, and the lines it was broken into. */
  ghost predicate Breaking(start: Style, read: Text, lines: seq<Text>, currentLine: Text) {
    && Reachable(StyleAfter(start, read))
    && StyleAfter(PLAIN, currentLine) == StyleAfter(start, read)
    && VisibleLines(lines) + Visible(PLAIN, currentLine) == Visible(start, read)
    && AllClosed(lines)
  }

  lemma BreakHere(start: Style, read: Text, lines: seq<Text>, currentLine: Text)
    requires Breaking(start, read, lines, currentLine)
    ensures var style := StyleAfter(start, read);
            Breaking(start, read, lines + [currentLine + Escapes(LineEndReset(style))], Escapes(ActiveCodes(style)))
  {
    var style := StyleAfter(start, read);
    ClosedLine(currentLine, style);
    VisibleAppend(lines, currentLine + Escapes(LineEndReset(style)));
    ReadActive(style);
    assert Visible(start, read) + [] == Visible(start, read);
  }

  lemma ReadOn(start: Style, read: Text, lines: seq<Text>, currentLine: Text, piece: Piece)
    requires Breaking(start, read, lines, currentLine)
    ensures Breaking(start, read + [piece], lines, currentLine + [piece])
    ensures TextWidth(currentLine + [piece]) == TextWidth(currentLine) + if piece.Cluster? then piece.g.width else 0
  {
    var style := StyleAfter(start, read);
    ReadConcat(start, read, [piece]);
    ReadConcat(PLAIN, currentLine, [piece]);
    ReadOne(style, piece);
    ReadReachable(style, [piece]);
  }

  /** Close the current line and start the next one in the style in force. */
  method NextLine(lines: seq<Text>, currentLine: Text, tracker: AnsiCodeTracker, ghost start: Style, ghost read: Text,
                  ghost width: nat)
    returns (newLines: seq<Text>, newLine: Text)
    requires Breaking(start, read, lines, currentLine) && tracker.State() == StyleAfter(start, read)
    ensures Breaking(start, read, newLines, newLine)
    ensures newLines != [] && TextWidth(newLine) == 0
    ensures Narrow(lines, width) && TextWidth(currentLine) <= width ==> Narrow(newLines, width)
    ensures newLines == lines + [currentLine + Escapes(LineEndReset(tracker.State()))]
  {
    BreakHere(start, read, lines, currentLine);
    ClosedLine(currentLine, tracker.State());
    ReadActive(tracker.State());
    var reset := tracker.GetLineEndReset();
    newLines := lines + [currentLine + Escapes(reset)];
    var codes := tracker.GetActiveCodes();
    newLine := Escapes(codes);
  }

  /** Break a token that is too long for a line cluster by cluster; the last line is not pushed yet. */
  method BreakClusters(word: Text, width: nat, tracker: AnsiCodeTracker) returns (lines: seq<Text>, currentLine: Text)
    requires NoNewlines(word) && Reachable(tracker.State())
    modifies tracker
    ensures tracker.State() == StyleAfter(old(tracker.State()), word)
    ensures Breaking(old(tracker.State()), word, lines, currentLine)
    ensures lines != [] ==> currentLine != []
    ensures WellSized(word, width) ==> BrokenFits(width, word, lines, TextWidth(currentLine))
    ensures Broken(Clusters(word), lines, width)
  {
    lines := [];
    ghost var start := tracker.State();
    NothingBroken(start, width);
    var codes := tracker.GetActiveCodes();
    currentLine := Escapes(codes);
    var currentWidth := 0;
    assert word[..0] == [];
    for i := 0 to |word|
      invariant tracker.State() == StyleAfter(start, word[..i])
      invariant BrokenSoFar(start, word[..i], lines, currentLine, currentWidth)
      invariant WellSized(word, width) ==> BrokenFits(width, word[..i], lines, currentWidth)
      invariant Broken(Clusters(word), lines, width)
    {
      assert word[..i + 1] == word[..i] + [word[i]];
      ClusterAt(word, i);
      lines, currentLine, currentWidth :=
        BreakPiece(word[i], width, tracker, start, word[..i], Clusters(word), lines, currentLine, currentWidth);
    }
    assert word[..|word|] == word;
  }

  lemma NothingBroken(start: Style, width: nat)
    requires Reachable(start)
    ensures StyleAfter(start, []) == start && BrokenSoFar(start, [], [], Escapes(ActiveCodes(start)), 0)
    ensures BrokenFits(width, [], [], 0)
  {
    ReadActive(start);
  }

  ghost predicate BrokenSoFar(start: Style, read: Text, lines: seq<Text>, currentLine: Text, currentWidth: nat) {
    && Breaking(start, read, lines, currentLine)
    && (lines != [] ==> currentLine != []) && currentWidth == TextWidth(currentLine)
  }

  lemma ClusterAt(word: Text, i: nat)
    requires i < |word|
    ensures word[i].Cluster? ==> NextCluster(Clusters(word), word[..i], word[i])
  {
    var front, rest := word[..i], word[i + 1..];
    assert word == front + [word[i]] + rest;
    ClustersConcat(front + [word[i]], rest);
    ClustersConcat(front, [word[i]]);
    assert [word[i]][..0] == [];
  }

  /** The cluster `piece` comes next in `gs` when `read` has been read. */
  predicate NextCluster(gs: seq<Grapheme>, read: Text, piece: Piece)
    requires piece.Cluster?
  {
    |Clusters(read)| < |gs| && gs[|Clusters(read)|] == piece.g
  }

  lemma BreaksBeforeCluster(start: Style, read: Text, gs: seq<Grapheme>, lines: seq<Text>, currentLine: Text,
                            piece: Piece, width: nat, reset: Text)
    requires Breaking(start, read, lines, currentLine) && Broken(gs, lines, width)
    requires piece.Cluster? && NextCluster(gs, read, piece) && TextWidth(currentLine) + piece.g.width > width
    requires reset == Escapes(LineEndReset(StyleAfter(start, read)))
    ensures Broken(gs, lines + [currentLine + reset], width)
  {
    ClosedLine(currentLine, StyleAfter(start, read));
    ClustersShown(start, read);
    BrokenAppend(gs, lines, currentLine + reset, width);
  }

  method BreakPiece(piece: Piece, width: nat, tracker: AnsiCodeTracker, ghost start: Style, ghost read: Text,
                    ghost gs: seq<Grapheme>, lines: seq<Text>, currentLine: Text, currentWidth: nat)
    returns (newLines: seq<Text>, newLine: Text, newWidth: nat)
    requires !piece.Newline? && tracker.State() == StyleAfter(start, read)
    requires BrokenSoFar(start, read, lines, currentLine, currentWidth) && Broken(gs, lines, width)
    requires piece.Cluster? ==> NextCluster(gs, read, piece)
    modifies tracker
    ensures tracker.State() == StyleAfter(start, read + [piece])
    ensures BrokenSoFar(start, read + [piece], newLines, newLine, newWidth) && Broken(gs, newLines, width)
    ensures BrokenFits(width, read, lines, currentWidth) && (piece.Cluster? ==> 1 <= piece.g.width <= width) ==>
              BrokenFits(width, read + [piece], newLines, newWidth)
  {
    newLines, newLine, newWidth := lines, currentLine, currentWidth;
    NextPiece(start, read, piece);
    if piece.Escape? {
      tracker.Process(piece.code);
    } else {
      if currentWidth + piece.g.width > width {
        BreaksBeforeCluster(start, read, gs, lines, currentLine, piece, width, Escapes(LineEndReset(tracker.State())));
        newLines, newLine := NextLine(lines, currentLine, tracker, start, read, width);
        newWidth := 0;
      }
      newWidth := newWidth + piece.g.width;
    }
    ReadOn(start, read, newLines, newLine, piece);
    newLine := newLine + [piece];
  }

  /** The lines of a word that is too long. Nothing visible is lost, each line on its own is read in
      the word's styles, the tracker ends in the word's last style, and on no line but the last the next
      cluster would have fitted. */
  method BreakLongWord(word: Text, width: nat, tracker: AnsiCodeTracker) returns (lines: seq<Text>)
    requires NoNewlines(word) && Reachable(tracker.State())
    modifies tracker
    ensures lines != []
    ensures tracker.State() == StyleAfter(old(tracker.State()), word)
    ensures Breaking(old(tracker.State()), word, lines[..|lines| - 1], lines[|lines| - 1])
    ensures Broken(Clusters(word), lines[..|lines| - 1], width)
    ensures WellSized(word, width) ==> Narrow(lines, width)
    ensures WellSized(word, width) && HasCluster(word) ==> TextWidth(lines[|lines| - 1]) > 0
  {
    var finished, currentLine := BreakClusters(word, width, tracker);
    lines := finished;
    if currentLine != [] || lines == [] {
      lines := lines + [currentLine];
    }
    assert lines[..|lines| - 1] == finished;
  }

  /** The finished lines fit, the line in the making fits, and it shows something once the word did. */
  predicate BrokenFits(width: nat, read: Text, lines: seq<Text>, currentWidth: nat) {
    Narrow(lines, width) && currentWidth <= width && (HasCluster(read) ==> currentWidth > 0)
  }

  lemma NextPiece(start: Style, read: Text, piece: Piece)
    ensures StyleAfter(start, read + [piece]) ==
            if piece.Escape? then Process(StyleAfter(start, read), piece.code) else StyleAfter(start, read)
    ensures HasCluster(read + [piece]) <==> HasCluster(read) || piece.Cluster?
  {
    var t := read + [piece];
    assert t[..|read|] == read && t[|read|] == piece;
    if HasCluster(read) {
      var k :| 0 <= k < |read| && read[k].Cluster?;
      assert t[k].Cluster?;
    }
    if HasCluster(t) && !piece.Cluster? {
      var k :| 0 <= k < |t| && t[k].Cluster?;
      assert read[k].Cluster?;
    }
  }

  // ---- wrapping one line ----

  /** Lines finished and filled, with nothing in the making. */
  ghost predicate Finished(par: Paragraph, consumed: Text, wrapped: seq<Text>, style: Style) {
    && style == StyleAfter(PLAIN, consumed) && Reachable(style)
    && Filled(par, Visible(PLAIN, consumed), wrapped) && AllClosed(wrapped)
  }

  /** The finished lines show all but what the line in the making shows. */
  ghost predicate Remaining(par: Paragraph, shown: seq<Shown>, wrapped: seq<Text>, current: seq<Shown>) {
    && |current| <= |shown| && shown[|shown| - |current|..] == current
    && Filled(par, shown[..|shown| - |current|], wrapped) && AllClosed(wrapped)
  }

  /** Lines finished and a line in the making that is read in the right style. */
  ghost predicate Wrapping(par: Paragraph, consumed: Text, wrapped: seq<Text>, currentLine: Text, style: Style) {
    && style == StyleAfter(PLAIN, consumed) == StyleAfter(PLAIN, currentLine) && Reachable(style)
    && Remaining(par, Visible(PLAIN, consumed), wrapped, Visible(PLAIN, currentLine))
  }

  /** Where the next token lies in the paragraph. */
  ghost predicate NextToken(par: Paragraph, consumed: Text, token: Text) {
    TokenAt(par, |Clusters(consumed)|, Clusters(token))
  }

  /** Push the line in the making, but for blanks at its end that are dropped together with `more`, closed with its
      end-of-line codes. */
  lemma PushLine(par: Paragraph, consumed: Text, wrapped: seq<Text>, currentLine: Text, style: Style, line: Text,
                 dropped: seq<Shown>, more: seq<Shown>)
    requires Wrapping(par, consumed, wrapped, currentLine, style)
    requires Visible(PLAIN, currentLine) == Visible(PLAIN, line) + dropped && Blank(dropped) && Blank(more)
    requires StyleAfter(PLAIN, line) == StyleAfter(PLAIN, currentLine)
    requires MayBreak(par, |Visible(PLAIN, consumed) + more|, TextWidth(currentLine) + Columns(Graphemes(more)))
    ensures Filled(par, Visible(PLAIN, consumed) + more, wrapped + [line + Escapes(LineEndReset(style))])
    ensures AllClosed(wrapped + [line + Escapes(LineEndReset(style))])
  {
    var shown, current := Visible(PLAIN, consumed), Visible(PLAIN, currentLine);
    var before, closed := shown[..|shown| - |current|], line + Escapes(LineEndReset(style));
    ClosedLine(line, style);
    PushedColumns(currentLine, line, dropped, more);
    assert before + current == shown;
    Regroup(before, Visible(PLAIN, line), dropped, more);
    Associate(before + Visible(PLAIN, line), dropped, more);
    FilledAppend(par, before, wrapped, closed, dropped + more, shown + more);
  }

  /** The columns of a line and of what is dropped behind it. */
  lemma PushedColumns(currentLine: Text, line: Text, dropped: seq<Shown>, more: seq<Shown>)
    requires Visible(PLAIN, currentLine) == Visible(PLAIN, line) + dropped
    ensures TextWidth(line) + Columns(Graphemes(dropped + more)) == TextWidth(currentLine) + Columns(Graphemes(more))
  {
    ClustersShown(PLAIN, currentLine);
    ClustersShown(PLAIN, line);
    ColumnsOf(Visible(PLAIN, line), dropped);
    ColumnsOf(dropped, more);
  }

  lemma PushLast(par: Paragraph, consumed: Text, wrapped: seq<Text>, currentLine: Text, style: Style)
    requires Wrapping(par, consumed, wrapped, currentLine, style)
    requires par.gs == Graphemes(Visible(PLAIN, consumed))
    ensures Wrapped(Visible(PLAIN, consumed), wrapped + [currentLine], par.width) && AllClosed(wrapped)
    ensures currentLine == [] ==> Filled(par, Visible(PLAIN, consumed), wrapped)
  {
    var shown, current := Visible(PLAIN, consumed), Visible(PLAIN, currentLine);
    var before := shown[..|shown| - |current|];
    assert before + current == shown;
    WrappedLast(before, wrapped, currentLine, shown, par.width);
    if currentLine == [] { assert before == shown; }
  }

  lemma RemainingAfter(par: Paragraph, shown: seq<Shown>, wrapped: seq<Text>, more: seq<Shown>)
    requires Filled(par, shown, wrapped) && AllClosed(wrapped)
    ensures Remaining(par, shown + more, wrapped, more)
  {
    assert (shown + more)[..|shown|] == shown;
  }

  /** Start the next line with the active codes and a token. */
  lemma StartLine(par: Paragraph, consumed: Text, wrapped: seq<Text>, style: Style, token: Text)
    requires Finished(par, consumed, wrapped, style)
    ensures Wrapping(par, consumed + token, wrapped, Escapes(ActiveCodes(style)) + token, StyleAfter(style, token))
  {
    ReadActive(style);
    ReadConcat(PLAIN, consumed, token);
    ReadConcat(PLAIN, Escapes(ActiveCodes(style)), token);
    ReadReachable(style, token);
    RemainingAfter(par, Visible(PLAIN, consumed), wrapped, Visible(style, token));
    assert [] + Visible(style, token) == Visible(style, token);
  }

  lemma {:induction false} BlankText(s: Style, text: Text)
    requires IsWhitespace(text)
    ensures StyleAfter(s, text) == s
    ensures Blank(Visible(s, text))
    decreases |text|
  {
    if text != [] {
      BlankText(s, text[..|text| - 1]);
    }
  }

  /** Start the next line behind a blank token that was dropped. */
  lemma StartEmpty(par: Paragraph, consumed: Text, wrapped: seq<Text>, style: Style)
    requires Finished(par, consumed, wrapped, style)
    ensures Wrapping(par, consumed, wrapped, Escapes(ActiveCodes(style)), style)
  {
    ReadActive(style);
    RemainingAfter(par, Visible(PLAIN, consumed), wrapped, []);
    assert Visible(PLAIN, consumed) + [] == Visible(PLAIN, consumed);
  }

  lemma AddToken(par: Paragraph, consumed: Text, wrapped: seq<Text>, currentLine: Text, style: Style, token: Text)
    requires Wrapping(par, consumed, wrapped, currentLine, style)
    ensures Wrapping(par, consumed + token, wrapped, currentLine + token, StyleAfter(style, token))
  {
    ReadConcat(PLAIN, consumed, token);
    ReadConcat(PLAIN, currentLine, token);
    ReadReachable(style, token);
    var shown, current, more := Visible(PLAIN, consumed), Visible(PLAIN, currentLine), Visible(style, token);
    var before := shown[..|shown| - |current|];
    assert shown + more == before + (current + more);
    RemainingAfter(par, before, wrapped, current + more);
  }

  /** Continue with the lines a long token was broken into; the last stays in the making. */
  lemma AddBroken(par: Paragraph, consumed: Text, wrapped: seq<Text>, style: Style, token: Text, broken: seq<Text>)
    requires Finished(par, consumed, wrapped, style) && broken != []
    requires NextToken(par, consumed, token) && TextWidth(token) > par.width
    requires Breaking(style, token, broken[..|broken| - 1], broken[|broken| - 1])
    requires Broken(Clusters(token), broken[..|broken| - 1], par.width)
    ensures Wrapping(par, consumed + token, wrapped + broken[..|broken| - 1], broken[|broken| - 1],
                     StyleAfter(style, token))
  {
    var front, last := broken[..|broken| - 1], broken[|broken| - 1];
    ReadConcat(PLAIN, consumed, token);
    ClustersShown(PLAIN, consumed);
    ClustersShown(PLAIN, token);
    FilledBroken(par, Visible(PLAIN, consumed), wrapped, Clusters(token), front);
    RemainingAfter(par, Visible(PLAIN, consumed) + VisibleLines(front), wrapped + front, Visible(PLAIN, last));
    Associate(Visible(PLAIN, consumed), VisibleLines(front), Visible(PLAIN, last));
  }

  /** `updateTrackerFromText`. */
  method UpdateTracker(text: Text, tracker: AnsiCodeTracker)
    modifies tracker
    ensures tracker.State() == StyleAfter(old(tracker.State()), text)
  {
    for i := 0 to |text|
      invariant tracker.State() == StyleAfter(old(tracker.State()), text[..i])
    {
      assert text[..i + 1][..i] == text[..i];
      if text[i].Escape? {
        tracker.Process(text[i].code);
      }
    }
    assert text[..|text|] == text;
  }

  // ---- the width bound ----

  predicate NarrowTrimmed(lines: seq<Text>, width: nat) {
    forall k :: 0 <= k < |lines| ==> TextWidth(TrimEnd(lines[k])) <= width
  }

  /** Finished lines fit once trimmed. The line in the making fits, or is nothing but leading spaces;
      it is empty only at the start or right after spaces were dropped. */
  ghost predicate Fitting(width: nat, wrapped: seq<Text>, currentLine: Text, current: nat, style: Style,
                          afterSpaces: bool)
  {
    && NarrowTrimmed(wrapped, width)
    && (current <= width || (IsWhitespace(currentLine) && style == PLAIN))
    && (current == 0 ==> (currentLine == [] && style == PLAIN) || afterSpaces)
  }

  lemma {:induction false} TrimBlank(text: Text)
    requires IsWhitespace(text)
    ensures TrimEnd(text) == []
    decreases |text|
  {
    if text != [] { TrimBlank(text[..|text| - 1]); }
  }

  lemma PushFits(width: nat, wrapped: seq<Text>, currentLine: Text, style: Style, trim: bool)
    requires NarrowTrimmed(wrapped, width)
    requires TextWidth(currentLine) <= width || (IsWhitespace(currentLine) && style == PLAIN)
    ensures NarrowTrimmed(wrapped
                          + [(if trim then TrimEnd(currentLine) else currentLine) + Escapes(LineEndReset(style))],
                              width)
  {
    var base := if trim then TrimEnd(currentLine) else currentLine;
    var line := base + Escapes(LineEndReset(style));
    ClosedLine(base, style);
    TrimKeeps(PLAIN, currentLine);
    TrimKeeps(PLAIN, line);
    if TextWidth(currentLine) > width {
      TrimBlank(currentLine);
      assert line == base;
      assert TrimEnd(line) == [];
    }
  }

  lemma WhitespaceIsSpaces(token: Text, width: nat)
    requires IsWhitespace(token) && WellSized(token, width)
    ensures AllSpaces(token)
  {
  }

  lemma NarrowIsTrimmed(lines: seq<Text>, width: nat)
    requires Narrow(lines, width)
    ensures NarrowTrimmed(lines, width)
  {
    forall k | 0 <= k < |lines| ensures TextWidth(TrimEnd(lines[k])) <= width {
      TrimKeeps(PLAIN, lines[k]);
    }
  }

  /** Finish the line in the making, if there is one, untrimmed. */
  method CloseLine(ghost par: Paragraph, tracker: AnsiCodeTracker, wrapped: seq<Text>, currentLine: Text,
                   ghost consumed: Text, ghost afterSpaces: bool)
    returns (newWrapped: seq<Text>)
    requires Wrapping(par, consumed, wrapped, currentLine, tracker.State())
    requires MayBreak(par, |Visible(PLAIN, consumed)|, TextWidth(currentLine))
    ensures Finished(par, consumed, newWrapped, tracker.State())
    ensures Fitting(par.width, wrapped, currentLine, TextWidth(currentLine), tracker.State(), afterSpaces) ==>
              NarrowTrimmed(newWrapped, par.width)
  {
    ghost var style := tracker.State();
    newWrapped := wrapped;
    if currentLine != [] {
      PushWhole(par, consumed, wrapped, currentLine, style);
      if Fitting(par.width, wrapped, currentLine, TextWidth(currentLine), style, afterSpaces) {
        PushFits(par.width, wrapped, currentLine, style, false);
      }
      var lineEndReset := tracker.GetLineEndReset();
      newWrapped := wrapped + [currentLine + Escapes(lineEndReset)];
    } else {
      assert Visible(PLAIN, consumed)[..|Visible(PLAIN, consumed)|] == Visible(PLAIN, consumed);
    }
  }

  lemma PushWhole(par: Paragraph, consumed: Text, wrapped: seq<Text>, currentLine: Text, style: Style)
    requires Wrapping(par, consumed, wrapped, currentLine, style)
    requires MayBreak(par, |Visible(PLAIN, consumed)|, TextWidth(currentLine))
    ensures Finished(par, consumed, wrapped + [currentLine + Escapes(LineEndReset(style))], style)
  {
    assert Visible(PLAIN, consumed) + [] == Visible(PLAIN, consumed);
    assert Visible(PLAIN, currentLine) + [] == Visible(PLAIN, currentLine);
    PushLine(par, consumed, wrapped, currentLine, style, currentLine, [], []);
  }

  /** A line may end in front of the next token if that does not fit on it, or behind it if it is dropped. */
  lemma BreaksAtToken(par: Paragraph, consumed: Text, token: Text, used: nat, style: Style)
    requires NextToken(par, consumed, token) && used + TextWidth(token) > par.width
    ensures MayBreak(par, |Visible(PLAIN, consumed)|, used)
    ensures MayBreak(par, |Visible(PLAIN, consumed) + Visible(style, token)|,
                     used + Columns(Graphemes(Visible(style, token))))
  {
    ClustersShown(PLAIN, consumed);
    ClustersShown(style, token);
    BreaksBefore(par, |Clusters(consumed)|, Clusters(token), used);
  }

  /** A token longer than a line: finish the line in the making and break the token. */
  method PlaceLongToken(token: Text, width: nat, tracker: AnsiCodeTracker, wrapped: seq<Text>, currentLine: Text,
                        ghost par: Paragraph, ghost consumed: Text, ghost afterSpaces: bool)
    returns (newWrapped: seq<Text>, newLine: Text)
    requires NoNewlines(token) && TextWidth(token) > width == par.width && NextToken(par, consumed, token)
    requires Wrapping(par, consumed, wrapped, currentLine, tracker.State())
    modifies tracker
    ensures Wrapping(par, consumed + token, newWrapped, newLine, tracker.State())
    ensures WellSized(token, width) && HasCluster(token)
            && old(Fitting(width, wrapped, currentLine, TextWidth(currentLine), tracker.State(), afterSpaces)) ==>
              Fitting(width, newWrapped, newLine, TextWidth(newLine), tracker.State(), false)
  {
    ghost var style := tracker.State();
    BreaksAtToken(par, consumed, token, TextWidth(currentLine), style);
    newWrapped := CloseLine(par, tracker, wrapped, currentLine, consumed, afterSpaces);
    var broken := BreakLongWord(token, width, tracker);
    AddBroken(par, consumed, newWrapped, style, token, broken);
    if WellSized(token, width) {
      NarrowIsTrimmed(broken, width);
    }
    newWrapped := newWrapped + broken[..|broken| - 1];
    newLine := broken[|broken| - 1];
  }

  /** The trimmed line is finished, and the token starts the next line or is dropped with what was trimmed. */
  lemma TokenGoesOn(par: Paragraph, consumed: Text, wrapped: seq<Text>, currentLine: Text, style: Style, token: Text)
    requires Wrapping(par, consumed, wrapped, currentLine, style) && NextToken(par, consumed, token)
    requires TextWidth(currentLine) + TextWidth(token) > par.width
    ensures var closed := wrapped + [TrimEnd(currentLine) + Escapes(LineEndReset(style))];
            var codes := Escapes(ActiveCodes(style));
            Wrapping(par, consumed + token, closed, if IsWhitespace(token) then codes else codes + token,
                     StyleAfter(style, token))
  {
    var closed := wrapped + [TrimEnd(currentLine) + Escapes(LineEndReset(style))];
    var shown, cut := Visible(PLAIN, consumed), Trimmed(PLAIN, currentLine);
    TrimKeeps(PLAIN, currentLine);
    BreaksAtToken(par, consumed, token, TextWidth(currentLine), style);
    if IsWhitespace(token) {
      BlankText(style, token);
      ReadConcat(PLAIN, consumed, token);
      PushLine(par, consumed, wrapped, currentLine, style, TrimEnd(currentLine), cut, Visible(style, token));
      StartEmpty(par, consumed + token, closed, style);
    } else {
      assert shown + [] == shown;
      PushLine(par, consumed, wrapped, currentLine, style, TrimEnd(currentLine), cut, []);
      StartLine(par, consumed, closed, style, token);
    }
  }

  /** A token that does not fit the line in the making: finish that line and start the next. */
  method PlaceOnNextLine(token: Text, width: nat, tracker: AnsiCodeTracker, wrapped: seq<Text>, currentLine: Text,
                         ghost par: Paragraph, ghost consumed: Text, ghost afterSpaces: bool)
    returns (newWrapped: seq<Text>, newLine: Text)
    requires width == par.width && TextWidth(currentLine) + TextWidth(token) > width
    requires Wrapping(par, consumed, wrapped, currentLine, tracker.State()) && NextToken(par, consumed, token)
    modifies tracker
    ensures Wrapping(par, consumed + token, newWrapped, newLine, tracker.State())
    ensures TextWidth(newLine) == if IsWhitespace(token) then 0 else TextWidth(token)
    ensures WellSized(token, width) && HasCluster(token) && (TextWidth(token) <= width || IsWhitespace(token))
            && old(Fitting(width, wrapped, currentLine, TextWidth(currentLine), tracker.State(), afterSpaces)) ==>
              Fitting(width, newWrapped, newLine, TextWidth(newLine), tracker.State(), AllSpaces(token))
  {
    ghost var style := tracker.State();
    TokenGoesOn(par, consumed, wrapped, currentLine, style, token);
    if Fitting(width, wrapped, currentLine, TextWidth(currentLine), style, afterSpaces) {
      PushFits(width, wrapped, currentLine, style, true);
    }
    var lineEndReset := tracker.GetLineEndReset();
    newWrapped := wrapped + [TrimEnd(currentLine) + Escapes(lineEndReset)];
    var codes := tracker.GetActiveCodes();
    ReadActive(style);
    if IsWhitespace(token) {
      BlankText(style, token);
      newLine := Escapes(codes);
    } else {
      ReadConcat(PLAIN, Escapes(codes), token);
      newLine := Escapes(codes) + token;
      if WellSized(token, width) { VisibleWidth(token, width); }
    }
    UpdateTracker(token, tracker);
  }

  lemma AddFits(width: nat, wrapped: seq<Text>, currentLine: Text, style: Style, afterSpaces: bool, token: Text)
    requires Fitting(width, wrapped, currentLine, TextWidth(currentLine), style, afterSpaces)
    requires WellSized(token, width) && HasCluster(token)
    requires TextWidth(token) <= width || IsWhitespace(token)
    requires TextWidth(currentLine) + TextWidth(token) <= width || TextWidth(currentLine) == 0
    requires !(afterSpaces && AllSpaces(token))
    ensures Fitting(width, wrapped, currentLine + token, TextWidth(currentLine + token), StyleAfter(style, token),
                    AllSpaces(token))
  {
    ReadConcat(PLAIN, currentLine, token);
    VisibleWidth(token, width);
    if TextWidth(token) > width {
      WhitespaceIsSpaces(token, width);
      BlankText(style, token);
      assert currentLine + token == token;
    }
  }

  /** Place the next token of a line. */
  method PlaceToken(token: Text, width: nat, tracker: AnsiCodeTracker, wrapped: seq<Text>, currentLine: Text,
                    currentVisibleLength: nat, ghost par: Paragraph, ghost consumed: Text, ghost afterSpaces: bool)
    returns (newWrapped: seq<Text>, newLine: Text, newLength: nat)
    requires NoNewlines(token) && width == par.width && NextToken(par, consumed, token)
    requires Wrapping(par, consumed, wrapped, currentLine, tracker.State())
    requires currentVisibleLength == TextWidth(currentLine)
    modifies tracker
    ensures Wrapping(par, consumed + token, newWrapped, newLine, tracker.State()) && newLength == TextWidth(newLine)
    ensures WellSized(token, width) && HasCluster(token) && !(afterSpaces && AllSpaces(token))
            && old(Fitting(width, wrapped, currentLine, currentVisibleLength, tracker.State(), afterSpaces)) ==>
              Fitting(width, newWrapped, newLine, newLength, tracker.State(), AllSpaces(token))
  {
    ghost var style := tracker.State();
    var tokenVisibleLength, isWhitespace := TextWidth(token), IsWhitespace(token);
    if tokenVisibleLength > width && !isWhitespace {
      newWrapped, newLine := PlaceLongToken(token, width, tracker, wrapped, currentLine, par, consumed, afterSpaces);
      newLength := TextWidth(newLine);
      return;
    }
    var totalNeeded := currentVisibleLength + tokenVisibleLength;
    if totalNeeded > width && currentVisibleLength > 0 {
      newWrapped, newLine := PlaceOnNextLine(token, width, tracker, wrapped, currentLine, par, consumed, afterSpaces);
      newLength := if isWhitespace then 0 else tokenVisibleLength;
    } else {
      AddToken(par, consumed, wrapped, currentLine, style, token);
      ReadConcat(PLAIN, currentLine, token);
      if WellSized(token, width) && HasCluster(token) && !(afterSpaces && AllSpaces(token))
         && Fitting(width, wrapped, currentLine, currentVisibleLength, style, afterSpaces) {
        AddFits(width, wrapped, currentLine, style, afterSpaces, token);
      }
      newWrapped, newLine, newLength := wrapped, currentLine + token, totalNeeded;
      UpdateTracker(token, tracker);
    }
  }

  /** Whether the last of the first `i` tokens is a run of spaces. */
  predicate AfterSpaces(tokens: seq<Text>, i: nat)
    requires i <= |tokens|
  {
    i > 0 && AllSpaces(tokens[i - 1])
  }

  /** The first `i` tokens of a line are placed. */
  ghost predicate Placed(tokens: seq<Text>, par: Paragraph, i: nat, wrapped: seq<Text>, currentLine: Text, style: Style)
    requires i <= |tokens|
  {
    && Wrapping(par, Joined(tokens[..i]), wrapped, currentLine, style)
    && (WellSized(Joined(tokens), par.width) ==>
          Fitting(par.width, wrapped, currentLine, TextWidth(currentLine), style, AfterSpaces(tokens, i)))
  }

  method PlaceNext(tokens: seq<Text>, i: nat, width: nat, tracker: AnsiCodeTracker, wrapped: seq<Text>,
                   currentLine: Text, currentVisibleLength: nat, ghost par: Paragraph)
    returns (newWrapped: seq<Text>, newLine: Text, newLength: nat)
    requires i < |tokens| && Alternating(tokens) && NoNewlines(tokens[i])
    requires par.gs == Clusters(Joined(tokens)) && par.width == width
    requires Placed(tokens, par, i, wrapped, currentLine, tracker.State())
    requires currentVisibleLength == TextWidth(currentLine)
    modifies tracker
    ensures Placed(tokens, par, i + 1, newWrapped, newLine, tracker.State()) && newLength == TextWidth(newLine)
  {
    JoinedNext(tokens, i);
    TokenPlace(tokens, i, par);
    if WellSized(Joined(tokens), width) { TokenSized(tokens, i, Joined(tokens), width); }
    newWrapped, newLine, newLength :=
      PlaceToken(tokens[i], width, tracker, wrapped, currentLine, currentVisibleLength, par, Joined(tokens[..i]),
                 AfterSpaces(tokens, i));
  }

  lemma NothingPlaced(tokens: seq<Text>, par: Paragraph)
    ensures Placed(tokens, par, 0, [], [], PLAIN)
  {
    assert tokens[..0] == [];
  }

  method PlaceTokens(tokens: seq<Text>, width: nat, ghost line: Text, ghost par: Paragraph)
    returns (wrapped: seq<Text>, currentLine: Text)
    requires Joined(tokens) == line && forall k :: 0 <= k < |tokens| ==> NoNewlines(tokens[k])
    requires Alternating(tokens) && par == Paragraph(Graphemes(Visible(PLAIN, line)), width)
    ensures Wrapped(Visible(PLAIN, line), wrapped + [currentLine], width) && AllClosed(wrapped)
    ensures currentLine == [] ==> Filled(par, Visible(PLAIN, line), wrapped)
    ensures WellSized(line, width) ==> NarrowTrimmed(wrapped + [currentLine], width)
  {
    wrapped, currentLine := [], [];
    var currentVisibleLength := 0;
    var tracker := new AnsiCodeTracker();
    NothingPlaced(tokens, par);
    ClustersShown(PLAIN, line);
    for i := 0 to |tokens|
      invariant fresh(tracker)
      invariant Placed(tokens, par, i, wrapped, currentLine, tracker.State())
      invariant currentVisibleLength == TextWidth(currentLine)
    {
      wrapped, currentLine, currentVisibleLength :=
        PlaceNext(tokens, i, width, tracker, wrapped, currentLine, currentVisibleLength, par);
    }
    assert tokens[..|tokens|] == tokens;
    EndOfTokens(line, par, wrapped, currentLine, tracker.State(), WellSized(line, width),
                AfterSpaces(tokens, |tokens|));
  }

  lemma EndOfTokens(line: Text, par: Paragraph, wrapped: seq<Text>, currentLine: Text, style: Style, sized: bool,
                    afterSpaces: bool)
    requires Wrapping(par, line, wrapped, currentLine, style) && par.gs == Graphemes(Visible(PLAIN, line))
    requires sized ==> Fitting(par.width, wrapped, currentLine, TextWidth(currentLine), style, afterSpaces)
    ensures Wrapped(Visible(PLAIN, line), wrapped + [currentLine], par.width) && AllClosed(wrapped)
    ensures currentLine == [] ==> Filled(par, Visible(PLAIN, line), wrapped)
    ensures sized ==> NarrowTrimmed(wrapped + [currentLine], par.width)
  {
    PushLast(par, line, wrapped, currentLine, style);
    if sized { CurrentTrims(par.width, wrapped, currentLine, style, afterSpaces); }
  }

  lemma TrimmedStayClosed(wrapped: seq<Text>, n: nat, lines: seq<Text>)
    requires n <= |wrapped| == |lines| && AllClosed(wrapped[..n])
    requires forall k :: 0 <= k < |lines| ==> lines[k] == TrimEnd(wrapped[k])
    ensures AllClosed(lines[..n])
  {
    forall k | 0 <= k < n ensures Closed(lines[..n][k]) {
      TrimKeeps(PLAIN, wrapped[k]);
      assert Closed(wrapped[..n][k]);
    }
  }

  lemma TrimmedAreNarrow(wrapped: seq<Text>, lines: seq<Text>, width: nat)
    requires NarrowTrimmed(wrapped, width) && |lines| == |wrapped|
    requires forall k :: 0 <= k < |lines| ==> lines[k] == TrimEnd(wrapped[k])
    ensures Narrow(lines, width)
  {
  }

  lemma NarrowPrefix(lines: seq<Text>, line: Text, width: nat)
    requires NarrowTrimmed(lines + [line], width)
    ensures NarrowTrimmed(lines, width)
  {
    forall k | 0 <= k < |lines| ensures TextWidth(TrimEnd(lines[k])) <= width {
      assert (lines + [line])[k] == lines[k];
    }
  }

  /** Push the line in the making and trim every line. */
  method FinishLines(wrapped: seq<Text>, currentLine: Text, ghost shown: seq<Shown>, ghost width: nat,
                     ghost sized: bool)
    returns (lines: seq<Text>)
    requires Wrapped(shown, wrapped + [currentLine], width) && AllClosed(wrapped)
    requires currentLine == [] ==> Filled(Paragraph(Graphemes(shown), width), shown, wrapped)
    requires sized ==> NarrowTrimmed(wrapped + [currentLine], width)
    ensures lines != [] && Wrapped(shown, lines, width) && AllClosed(lines[..|lines| - 1])
    ensures sized ==> Narrow(lines, width)
  {
    var all := wrapped;
    if currentLine != [] {
      all := wrapped + [currentLine];
      assert all[..|all| - 1] == wrapped;
    } else if sized {
      NarrowPrefix(wrapped, currentLine, width);
    }
    if all == [] {
      assert wrapped + [currentLine] == [currentLine];
      return [currentLine];
    }
    if currentLine == [] { FilledIsWrapped(shown, wrapped, width); }
    lines := TrimLines(all);
    WrappedTrimmed(shown, all, lines, width);
    TrimmedStayClosed(all, |all| - 1, lines);
    if sized { TrimmedAreNarrow(all, lines, width); }
  }

  lemma {:induction false} WideHasCluster(text: Text)
    ensures TextWidth(text) > 0 ==> HasCluster(text)
    decreases |text|
  {
    if text != [] {
      var front, last := text[..|text| - 1], text[|text| - 1];
      WideHasCluster(front);
      KindsAppend(front, last);
      assert text == front + [last];
    }
  }

  /** A line that fits stays as it is. Otherwise it is broken in front of words, or runs of spaces, that do not fit,
      and only words that are too long for a line are broken themselves. */
  method WrapSingleLine(line: Text, width: nat) returns (lines: seq<Text>)
    requires NoNewlines(line)
    ensures lines != []
    ensures Wrapped(Visible(PLAIN, line), lines, width)
    ensures WellSized(line, width) ==> Narrow(lines, width)
    ensures TextWidth(line) <= width ==> lines == [line]
    ensures AllClosed(lines[..|lines| - 1])
  {
    WrappedAlone(line, width);
    if line == [] {
      return [[]];
    }
    if TextWidth(line) <= width {
      return [line];
    }
    var tokens := SplitIntoTokens(line);
    WideHasCluster(line);
    ghost var par := Paragraph(Graphemes(Visible(PLAIN, line)), width);
    var wrapped, currentLine := PlaceTokens(tokens, width, line, par);
    lines := FinishLines(wrapped, currentLine, Visible(PLAIN, line), width, WellSized(line, width));
  }

  lemma WrappedAlone(line: Text, width: nat)
    ensures Wrapped(Visible(PLAIN, line), [line], width)
  {
    assert [] + Visible(PLAIN, line) == Visible(PLAIN, line);
    WrappedLast([], [], line, Visible(PLAIN, line), width);
    assert [] + [line] == [line];
  }

  lemma CurrentTrims(width: nat, wrapped: seq<Text>, currentLine: Text, style: Style, afterSpaces: bool)
    requires Fitting(width, wrapped, currentLine, TextWidth(currentLine), style, afterSpaces)
    ensures NarrowTrimmed(wrapped + [currentLine], width)
  {
    TrimKeeps(PLAIN, currentLine);
    if TextWidth(currentLine) > width { TrimBlank(currentLine); }
  }

  method TrimLines(wrapped: seq<Text>) returns (lines: seq<Text>)
    ensures |lines| == |wrapped| && forall k :: 0 <= k < |lines| ==> lines[k] == TrimEnd(wrapped[k])
  {
    lines := [];
    for i := 0 to |wrapped|
      invariant |lines| == i && forall k :: 0 <= k < i ==> lines[k] == TrimEnd(wrapped[k])
    {
      lines := lines + [TrimEnd(wrapped[i])];
    }
  }

  lemma {:induction false} PiecesOfJoined(tokens: seq<Text>, i: nat, width: nat)
    requires i < |tokens| && WellSized(Joined(tokens), width)
    ensures WellSized(tokens[i], width)
    decreases |tokens|
  {
    var n := |tokens| - 1;
    var front := Joined(tokens[..n]);
    if i == n {
      forall k | 0 <= k < |tokens[n]| && tokens[n][k].Cluster?
        ensures 1 <= tokens[n][k].g.width <= width && (tokens[n][k].g.blank <==> tokens[n][k].g.space)
      {
        assert Joined(tokens)[|front| + k] == tokens[n][k];
      }
    } else {
      assert WellSized(front, width) by {
        forall k | 0 <= k < |front| && front[k].Cluster?
          ensures 1 <= front[k].g.width <= width && (front[k].g.blank <==> front[k].g.space)
        {
          assert Joined(tokens)[k] == front[k];
        }
      }
      PiecesOfJoined(tokens[..n], i, width);
    }
  }

  lemma TokenSized(tokens: seq<Text>, i: nat, line: Text, width: nat)
    requires i < |tokens| && Joined(tokens) == line && WellSized(line, width) && Alternating(tokens)
    ensures WellSized(tokens[i], width) && HasCluster(tokens[i])
    ensures !(AfterSpaces(tokens, i) && AllSpaces(tokens[i]))
  {
    PiecesOfJoined(tokens, i, width);
    if i > 0 {
      var j := i - 1;
      assert !(AllSpaces(tokens[j]) && AllSpaces(tokens[j + 1]));
    }
  }

  // ---- wrapping a text ----

  /** The lines of a text, put back together. */
  function Unsplit(lines: seq<Text>): Text {
    if lines == [] then []
    else if |lines| == 1 then lines[0]
    else Unsplit(lines[..|lines| - 1]) + [Newline] + lines[|lines| - 1]
  }

  predicate LinesOnly(lines: seq<Text>) { forall k :: 0 <= k < |lines| ==> NoNewlines(lines[k]) }

  /** The lines of a text: each line break starts another. */
  function LinesOf(text: Text): (lines: seq<Text>)
    ensures lines != []
  {
    if text == [] then [[]]
    else
      var lines, last := LinesOf(text[..|text| - 1]), text[|text| - 1];
      if last.Newline? then lines + [[]] else lines[..|lines| - 1] + [lines[|lines| - 1] + [last]]
  }

  lemma {:induction false} LinesOfUnsplit(text: Text)
    ensures Unsplit(LinesOf(text)) == text && LinesOnly(LinesOf(text))
    decreases |text|
  {
    if text != [] {
      var front, last := text[..|text| - 1], text[|text| - 1];
      LinesOfUnsplit(front);
      UnsplitNext(front, last);
      assert front + [last] == text;
    }
  }

  lemma UnsplitNext(front: Text, last: Piece)
    requires Unsplit(LinesOf(front)) == front && LinesOnly(LinesOf(front))
    ensures Unsplit(LinesOf(front + [last])) == front + [last] && LinesOnly(LinesOf(front + [last]))
  {
    if last.Newline? { StartsLine(LinesOf(front)); } else { GrowsLine(LinesOf(front), last); }
    assert (front + [last])[..|front|] == front;
  }

  method SplitLines(text: Text) returns (lines: seq<Text>)
    ensures lines == LinesOf(text) && Unsplit(lines) == text && LinesOnly(lines)
  {
    lines := [[]];
    for i := 0 to |text|
      invariant lines == LinesOf(text[..i])
    {
      assert text[..i + 1][..i] == text[..i];
      if text[i].Newline? {
        lines := lines + [[]];
      } else {
        lines := lines[..|lines| - 1] + [lines[|lines| - 1] + [text[i]]];
      }
    }
    assert text[..|text|] == text;
    LinesOfUnsplit(text);
  }

  lemma StartsLine(lines: seq<Text>)
    requires lines != [] && LinesOnly(lines)
    ensures LinesOnly(lines + [[]]) && Unsplit(lines + [[]]) == Unsplit(lines) + [Newline]
  {
    assert (lines + [[]])[..|lines|] == lines;
    assert Unsplit(lines) + [Newline] + [] == Unsplit(lines) + [Newline];
  }

  lemma GrowsLine(lines: seq<Text>, piece: Piece)
    requires lines != [] && LinesOnly(lines) && !piece.Newline?
    ensures var n := |lines| - 1; var longer := lines[..n] + [lines[n] + [piece]];
            LinesOnly(longer) && Unsplit(longer) == Unsplit(lines) + [piece]
  {
    var n := |lines| - 1;
    var longer := lines[..n] + [lines[n] + [piece]];
    assert longer[..n] == lines[..n];
    if n > 0 { Associate(Unsplit(lines[..n]) + [Newline], lines[n], [piece]); }
  }

  /** A line break shows nothing and changes no style. */
  lemma ReadNextLine(lines: seq<Text>, n: nat)
    requires n < |lines|
    ensures var before, line := Unsplit(lines[..n]), lines[n];
            && StyleAfter(PLAIN, Unsplit(lines[..n + 1])) == StyleAfter(StyleAfter(PLAIN, before), line)
            && Visible(PLAIN, Unsplit(lines[..n + 1]))
                == Visible(PLAIN, before) + Visible(StyleAfter(PLAIN, before), line)
  {
    var before, line := Unsplit(lines[..n]), lines[n];
    assert lines[..n + 1][..n] == lines[..n];
    ReadConcat(PLAIN, before, [Newline]);
    ReadOne(StyleAfter(PLAIN, before), Newline);
    ReadConcat(PLAIN, before + [Newline], line);
    ReadConcat(PLAIN, before, line);
  }

  lemma {:induction false} PiecesOfUnsplit(lines: seq<Text>, i: nat, width: nat)
    requires i < |lines| && WellSized(Unsplit(lines), width)
    ensures WellSized(lines[i], width)
    decreases |lines|
  {
    if |lines| > 1 {
      var n := |lines| - 1;
      var front := Unsplit(lines[..n]) + [Newline];
      if i == n {
        SizedParts(front, lines[n], width);
      } else {
        SizedParts(front, lines[n], width);
        SizedParts(Unsplit(lines[..n]), [Newline], width);
        PiecesOfUnsplit(lines[..n], i, width);
      }
    }
  }

  lemma SizedParts(a: Text, b: Text, width: nat)
    requires WellSized(a + b, width)
    ensures WellSized(a, width) && WellSized(b, width)
  {
    var t := a + b;
    forall k | 0 <= k < |a| && a[k].Cluster?
      ensures 1 <= a[k].g.width <= width && (a[k].g.blank <==> a[k].g.space)
    {
      assert t[k] == a[k];
    }
    forall k | 0 <= k < |b| && b[k].Cluster?
      ensures 1 <= b[k].g.width <= width && (b[k].g.blank <==> b[k].g.space)
    {
      assert t[|a| + k] == b[k];
    }
  }

  /** Wrapping an input line behind the codes in force wraps the line as read in that style. */
  lemma PrefixedLine(style: Style, line: Text, width: nat)
    requires Reachable(style)
    ensures Visible(PLAIN, Escapes(ActiveCodes(style)) + line) == Visible(style, line)
    ensures WellSized(line, width) ==> WellSized(Escapes(ActiveCodes(style)) + line, width)
    ensures NoNewlines(line) ==> NoNewlines(Escapes(ActiveCodes(style)) + line)
  {
    ReadActive(style);
    ReadConcat(PLAIN, Escapes(ActiveCodes(style)), line);
    assert [] + Visible(style, line) == Visible(style, line);
  }

  lemma NarrowConcat(a: seq<Text>, b: seq<Text>, width: nat)
    requires Narrow(a, width) && Narrow(b, width)
    ensures Narrow(a + b, width)
  {
  }

  lemma PlainNeedsNoCodes()
    ensures ActiveCodes(PLAIN) == []
  {
  }

  /** Wrap the next input line behind the codes in force. */
  method WrapInputLine(inputLine: Text, width: nat, tracker: AnsiCodeTracker, result: seq<Text>)
    returns (wrappedLines: seq<Text>)
    requires NoNewlines(inputLine) && Reachable(tracker.State())
    requires result == [] ==> tracker.State() == PLAIN
    modifies tracker
    ensures tracker.State() == StyleAfter(old(tracker.State()), inputLine)
    ensures wrappedLines != []
    ensures Wrapped(Visible(old(tracker.State()), inputLine), wrappedLines, width)
    ensures AllClosed(wrappedLines[..|wrappedLines| - 1])
    ensures WellSized(inputLine, width) ==> Narrow(wrappedLines, width)
  {
    PlainNeedsNoCodes();
    PrefixedLine(tracker.State(), inputLine, width);
    var codes := [];
    if |result| > 0 {
      codes := tracker.GetActiveCodes();
    }
    wrappedLines := WrapSingleLine(Escapes(codes) + inputLine, width);
    UpdateTracker(inputLine, tracker);
  }

  /** The first `i` input lines are wrapped in `parts`, which make up `result`, and `style` is in force behind them. */
  ghost predicate WrappedSoFar(inputLines: seq<Text>, width: nat, i: nat, parts: seq<seq<Text>>, result: seq<Text>,
                               style: Style)
    requires i <= |inputLines|
  {
    && style == StyleAfter(PLAIN, Unsplit(inputLines[..i])) && Reachable(style)
    && LaidOut(Visible(PLAIN, Unsplit(inputLines[..i])), result)
    && |parts| == i && Concat(parts) == result
    && forall k :: 0 <= k < i ==> LineWrapped(inputLines, k, parts[k], width)
  }

  /** The output lines of input line `k`, which is read in the style that the lines before it leave. */
  ghost predicate LineWrapped(inputLines: seq<Text>, k: nat, part: seq<Text>, width: nat)
    requires k < |inputLines|
  {
    Wrapped(Visible(StyleAfter(PLAIN, Unsplit(inputLines[..k])), inputLines[k]), part, width)
  }

  lemma WrappedNext(inputLines: seq<Text>, width: nat, i: nat, parts: seq<seq<Text>>, result: seq<Text>, style: Style,
                    wrappedLines: seq<Text>)
    requires i < |inputLines| && WrappedSoFar(inputLines, width, i, parts, result, style)
    requires Wrapped(Visible(style, inputLines[i]), wrappedLines, width)
    ensures WrappedSoFar(inputLines, width, i + 1, parts + [wrappedLines], result + wrappedLines,
                         StyleAfter(style, inputLines[i]))
  {
    LaidNext(inputLines, width, i, result, style, wrappedLines);
    ReadReachable(style, inputLines[i]);
    ConcatAppend(parts, wrappedLines);
    assert LineWrapped(inputLines, i, wrappedLines, width);
  }

  lemma LaidNext(inputLines: seq<Text>, width: nat, i: nat, result: seq<Text>, style: Style, wrappedLines: seq<Text>)
    requires i < |inputLines| && style == StyleAfter(PLAIN, Unsplit(inputLines[..i]))
    requires LaidOut(Visible(PLAIN, Unsplit(inputLines[..i])), result)
    requires Wrapped(Visible(style, inputLines[i]), wrappedLines, width)
    ensures LaidOut(Visible(PLAIN, Unsplit(inputLines[..i + 1])), result + wrappedLines)
    ensures StyleAfter(PLAIN, Unsplit(inputLines[..i + 1])) == StyleAfter(style, inputLines[i])
  {
    ReadNextLine(inputLines, i);
    WrappedIsLaid(Visible(style, inputLines[i]), wrappedLines, width);
    LaidConcat(Visible(PLAIN, Unsplit(inputLines[..i])), result, Visible(style, inputLines[i]), wrappedLines);
  }

  /** Each input line is wrapped on its own, behind the codes in force, to at least one output line. */
  ghost predicate LinesWrapped(text: Text, parts: seq<seq<Text>>, width: nat) {
    |parts| == |LinesOf(text)| && forall k :: 0 <= k < |parts| ==> LineWrapped(LinesOf(text), k, parts[k], width)
  }

  /** Wrapping shows every cluster, in order and in its style, when each output line is read on its
      own from the plain style; only blanks at line ends are left out. Every line break of the text
      starts a new output line, and the lines between two of them are filled. Lines fit the width
      when every cluster does and the plain space is the only blank. */
  method WrapTextWithAnsi(text: Text, width: nat) returns (result: seq<Text>)
    ensures result != []
    ensures LaidOut(Visible(PLAIN, text), result)
    ensures NonBlank(Visible(PLAIN, text)) == NonBlank(VisibleLines(result))
    ensures exists parts :: LinesWrapped(text, parts, width) && Concat(parts) == result
    ensures WellSized(text, width) ==> Narrow(result, width)
  {
    if text == [] {
      EmptyText(text, width);
      return [[]];
    }
    var inputLines := SplitLines(text);
    ghost var parts;
    result, parts := WrapLines(inputLines, width);
    assert LinesWrapped(text, parts, width);
    LaidKeepsNonBlank(Visible(PLAIN, text), result);
  }

  lemma EmptyText(text: Text, width: nat)
    requires text == []
    ensures LaidOut(Visible(PLAIN, text), [[]])
    ensures exists parts :: LinesWrapped(text, parts, width) && Concat(parts) == [[]]
  {
    var empty: Text := [];
    var lines := [empty];
    WrappedAlone(empty, width);
    WrappedIsLaid(Visible(PLAIN, empty), lines, width);
    var parts := [lines];
    assert Concat(parts) == lines by { assert parts[1..] == [] && lines + [] == lines; }
    assert LinesOf(text) == lines && lines[..0] == [];
    assert StyleAfter(PLAIN, Unsplit(lines[..0])) == PLAIN;
    assert LineWrapped(LinesOf(text), 0, parts[0], width);
    assert LinesWrapped(text, parts, width);
  }

  method WrapLines(inputLines: seq<Text>, width: nat) returns (result: seq<Text>, ghost parts: seq<seq<Text>>)
    requires inputLines != [] && LinesOnly(inputLines)
    ensures result != [] && LaidOut(Visible(PLAIN, Unsplit(inputLines)), result)
    ensures |parts| == |inputLines| && Concat(parts) == result
    ensures forall k :: 0 <= k < |parts| ==> LineWrapped(inputLines, k, parts[k], width)
    ensures WellSized(Unsplit(inputLines), width) ==> Narrow(result, width)
  {
    result, parts := [], [];
    NothingLaid();
    var tracker := new AnsiCodeTracker();
    ghost var sized := WellSized(Unsplit(inputLines), width);
    for i := 0 to |inputLines|
      invariant fresh(tracker)
      invariant result == [] <==> i == 0
      invariant WrappedSoFar(inputLines, width, i, parts, result, tracker.State())
      invariant sized ==> Narrow(result, width)
    {
      ghost var style := tracker.State();
      if sized { PiecesOfUnsplit(inputLines, i, width); }
      var wrappedLines := WrapInputLine(inputLines[i], width, tracker, result);
      WrappedNext(inputLines, width, i, parts, result, style, wrappedLines);
      if sized { NarrowConcat(result, wrappedLines, width); }
      result := result + wrappedLines;
      parts := parts + [wrappedLines];
    }
    assert inputLines[..|inputLines|] == inputLines;
  }
}
