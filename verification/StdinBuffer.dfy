/** The splitter that turns chunks of terminal input into complete sequences and pastes. A character
    stands for one UTF-16 code unit. */
module StdinBuffer {
  import opened Common

  const ESC := '\U{1B}'
  const BEL := '\U{07}'
  const PASTE_START := [ESC] + "[200~"
  const PASTE_END := [ESC] + "[201~"

  datatype Status = Complete | Incomplete | NotEscape

  predicate IsDigit(c: char) { '0' <= c <= '9' }

  predicate Digits(s: string) { s != "" && forall k :: 0 <= k < |s| ==> IsDigit(s[k]) }

  // ---- complete sequences ----

  function Split(s: string, separator: char): (parts: seq<string>)
    ensures parts != []
  {
    if s == "" then [""]
    else
      var n := |s| - 1;
      var front := Split(s[..n], separator);
      if s[n] == separator then front + [""] else front[..|front| - 1] + [front[|front| - 1] + [s[n]]]
  }

  /** `<digits;digits;digits`, then M or m. */
  predicate MouseMatch(payload: string) {
    && |payload| >= 2 && payload[0] == '<' && payload[|payload| - 1] in {'M', 'm'}
    && exists i, j :: 1 <= i < j < |payload| - 1 && payload[i] == ';' && payload[j] == ';'
         && Digits(payload[1..i]) && Digits(payload[i + 1..j]) && Digits(payload[j + 1..|payload| - 1])
  }

  function IsCompleteCsi(data: string): Status
    requires |data| >= 2
  {
    if |data| < 3 then Incomplete
    else
      var payload := data[2..];
      var last := payload[|payload| - 1];
      if '@' <= last <= '~' then
        if payload[0] == '<' then
          if MouseMatch(payload) then Complete
          else if last in {'M', 'm'} && |payload| >= 2 then
            var parts := Split(payload[1..|payload| - 1], ';');
            if |parts| == 3 && Digits(parts[0]) && Digits(parts[1]) && Digits(parts[2]) then Complete else Incomplete
          else Incomplete
        else Complete
      else Incomplete
  }

  predicate EndsWith(s: string, tail: string) { |tail| <= |s| && s[|s| - |tail|..] == tail }

  const STRING_TERMINATOR := [ESC] + "\\"

  function IsCompleteSequence(data: string): Status {
    if data == "" || data[0] != ESC then NotEscape
    else if |data| == 1 then Incomplete
    else
      match data[1]
      case '[' => if |data| >= 3 && data[2] == 'M' then (if |data| >= 6 then Complete else Incomplete)
                                                         else IsCompleteCsi(data)
      case ']' => if EndsWith(data, STRING_TERMINATOR) || EndsWith(data, [BEL]) then Complete else Incomplete
      case 'P' => if EndsWith(data, STRING_TERMINATOR) then Complete else Incomplete
      case '_' => if EndsWith(data, STRING_TERMINATOR) then Complete else Incomplete
      case 'O' => if |data| >= 3 then Complete else Incomplete
      case _ => Complete
  }

  // ---- the second mouse check never decides ----

  /** Parts of a split, put back together. */
  function JoinWith(parts: seq<string>, separator: char): string
    requires parts != []
  {
    if |parts| == 1 then parts[0] else JoinWith(parts[..|parts| - 1], separator) + [separator] + parts[|parts| - 1]
  }

  lemma {:induction false} SplitJoins(s: string, separator: char)
    ensures JoinWith(Split(s, separator), separator) == s
    decreases |s|
  {
    if s != "" {
      var n := |s| - 1;
      var front, parts := Split(s[..n], separator), Split(s, separator);
      SplitJoins(s[..n], separator);
      assert s == s[..n] + [s[n]];
      if s[n] == separator {
        assert parts[..|parts| - 1] == front;
      } else if |front| > 1 {
        assert parts[..|parts| - 1] == front[..|front| - 1];
        assert front[..|front| - 1] != [];
      }
    }
  }

  lemma JoinThree(a: string, b: string, c: string)
    ensures JoinWith([a, b, c], ';') == a + [';'] + b + [';'] + c
  {
    assert [a, b][..1] == [a] && JoinWith([a], ';') == a;
    assert JoinWith([a, b], ';') == a + [';'] + b;
    assert [a, b, c][..2] == [a, b];
  }

  /** Three numeric parts between `<` and the last character already make a mouse report, so the
      second check of a mouse report only repeats the first. */
  lemma SecondMouseCheckIsRedundant(payload: string)
    requires |payload| >= 2 && payload[0] == '<' && payload[|payload| - 1] in {'M', 'm'}
    ensures var parts := Split(payload[1..|payload| - 1], ';');
            |parts| == 3 && Digits(parts[0]) && Digits(parts[1]) && Digits(parts[2]) ==> MouseMatch(payload)
  {
    var inner := payload[1..|payload| - 1];
    var parts := Split(inner, ';');
    if |parts| == 3 && Digits(parts[0]) && Digits(parts[1]) && Digits(parts[2]) {
      SplitJoins(inner, ';');
      JoinThree(parts[0], parts[1], parts[2]);
      assert parts == [parts[0], parts[1], parts[2]];
      ThreePartsMatch(payload, parts[0], parts[1], parts[2]);
    }
  }

  lemma ThreePartsMatch(payload: string, a: string, b: string, c: string)
    requires |payload| >= 2 && payload[0] == '<' && payload[|payload| - 1] in {'M', 'm'}
    requires payload[1..|payload| - 1] == a + [';'] + b + [';'] + c && Digits(a) && Digits(b) && Digits(c)
    ensures MouseMatch(payload)
  {
    var n := |payload| - 1;
    var inner := payload[1..n];
    ThreeParts(inner, a, b, c);
    var i, j := 1 + |a|, 2 + |a| + |b|;
    SliceOfSlice(payload, 1, n, 0, i - 1);
    SliceOfSlice(payload, 1, n, i, j - 1);
    SliceOfSlice(payload, 1, n, j, n - 1);
    assert payload[i] == inner[i - 1] && payload[j] == inner[j - 1];
  }

  lemma SliceOfSlice(s: string, lo: nat, hi: nat, a: nat, b: nat)
    requires lo <= hi <= |s| && a <= b <= hi - lo
    ensures s[lo..hi][a..b] == s[lo + a..lo + b]
  {
    var inner := s[lo..hi];
    forall k | 0 <= k < b - a ensures inner[a..b][k] == s[lo + a..lo + b][k] {
      assert inner[a..b][k] == inner[a + k] == s[lo + (a + k)];
    }
  }

  lemma ThreeParts(s: string, a: string, b: string, c: string)
    requires s == a + [';'] + b + [';'] + c
    ensures s[0..|a|] == a && s[|a|] == ';' && s[|a| + 1..|a| + 1 + |b|] == b
    ensures s[|a| + 1 + |b|] == ';' && s[|a| + |b| + 2..|s|] == c
  {
    var front := a + [';'] + b;
    assert front[|a| + 1..] == b;
    assert s == (front + [';']) + c && (front + [';'])[|front|] == ';';
  }

  // ---- extraction ----

  /** The shortest prefix of length `n` or more that is not incomplete; |s| + 1 if there is none. */
  function FirstEnd(s: string, n: nat): (r: nat)
    requires n <= |s| + 1
    ensures n <= r <= |s| + 1
    ensures r <= |s| ==> IsCompleteSequence(s[..r]) != Incomplete
    ensures forall k :: n <= k < r ==> IsCompleteSequence(s[..k]) == Incomplete
    decreases |s| + 1 - n
  {
    if n > |s| || IsCompleteSequence(s[..n]) != Incomplete then n else FirstEnd(s, n + 1)
  }

  const INTRODUCERS := {'[', ']', 'O', 'P', '_'}
  const ESC_ESC := [ESC, ESC]

  /** Length of the first sequence, or 0 when the input is the start of an unfinished one. */
  function FirstLength(s: string): (n: nat)
    requires s != ""
    ensures n <= |s|
  {
    if s[0] != ESC then 1
    else
      var n := FirstEnd(s, 1);
      if n > |s| then 0
      else if s[..n] == ESC_ESC && n < |s| && s[n] in INTRODUCERS then 1
      else n
  }

  datatype Extracted = Extracted(sequences: seq<string>, remainder: string)

  function Extract(s: string): Extracted {
    if s == "" then Extracted([], "")
    else
      var n := FirstLength(s);
      if n == 0 then Extracted([], s)
      else var rest := Extract(s[n..]); Extracted([s[..n]] + rest.sequences, rest.remainder)
  }

  /** End of the escape sequence at the start of `remaining`, by trying one more character at a time. */
  method FindSequenceEnd(remaining: string) returns (seqEnd: nat)
    requires remaining != "" && remaining[0] == ESC
    ensures seqEnd == FirstEnd(remaining, 1)
  {
    seqEnd := 1;
    while seqEnd <= |remaining|
      invariant 1 <= seqEnd <= |remaining| + 1
      invariant FirstEnd(remaining, seqEnd) == FirstEnd(remaining, 1)
    {
      var status := IsCompleteSequence(remaining[..seqEnd]);
      if status != Incomplete {
        break;
      }
      seqEnd := seqEnd + 1;
    }
  }

  method ExtractCompleteSequences(buffer: string) returns (sequences: seq<string>, remainder: string)
    ensures Extracted(sequences, remainder) == Extract(buffer)
  {
    sequences := [];
    var remaining := buffer;
    while |remaining| > 0
      invariant sequences + Extract(remaining).sequences == Extract(buffer).sequences
      invariant Extract(remaining).remainder == Extract(buffer).remainder
      decreases |remaining|
    {
      if remaining[0] == ESC {
        var seqEnd := FindSequenceEnd(remaining);
        if seqEnd > |remaining| {
          return sequences, remaining;
        }
        var candidate := remaining[..seqEnd];
        if candidate == ESC_ESC && seqEnd < |remaining| && remaining[seqEnd] in INTRODUCERS {
          PushFirst(sequences, remaining, 1);
          sequences := sequences + [[ESC]];
          remaining := remaining[1..];
        } else {
          PushFirst(sequences, remaining, seqEnd);
          sequences := sequences + [candidate];
          remaining := remaining[seqEnd..];
        }
      } else {
        PushFirst(sequences, remaining, 1);
        sequences := sequences + [[remaining[0]]];
        remaining := remaining[1..];
      }
    }
    remainder := "";
  }

  lemma PushFirst(sequences: seq<string>, s: string, n: nat)
    requires s != "" && FirstLength(s) == n > 0
    ensures sequences + Extract(s).sequences == (sequences + [s[..n]]) + Extract(s[n..]).sequences
    ensures Extract(s).remainder == Extract(s[n..]).remainder
    ensures n == 1 ==> s[..1] == [s[0]]
  {
    var rest := Extract(s[n..]);
    assert Extract(s) == Extracted([s[..n]] + rest.sequences, rest.remainder);
    Associate(sequences, [s[..n]], rest.sequences);
  }

  // ---- what extraction promises ----

  /** Extraction loses and invents nothing. */
  lemma {:induction false} ExtractConserves(s: string)
    ensures Concat(Extract(s).sequences) + Extract(s).remainder == s
    decreases |s|
  {
    if s != "" {
      var n := FirstLength(s);
      if n > 0 {
        ExtractConserves(s[n..]);
        ConserveFirst(s[..n], s[n..], Extract(s[n..]), s);
      }
    }
  }

  lemma ConserveFirst(first: string, rest: string, e: Extracted, whole: string)
    requires Concat(e.sequences) + e.remainder == rest
    requires |first| <= |whole| && first == whole[..|first|] && rest == whole[|first|..]
    ensures Concat([first] + e.sequences) + e.remainder == whole
  {
    ConcatFirst(first, e.sequences);
    Associate(first, Concat(e.sequences), e.remainder);
  }

  lemma ConcatFirst(x: string, rest: seq<string>)
    ensures Concat([x] + rest) == x + Concat(rest)
  {
    assert ([x] + rest)[1..] == rest;
  }

  /** Nothing but unfinished escape prefixes. */
  predicate Unfinished(s: string) {
    s != "" && s[0] == ESC && forall k :: 1 <= k <= |s| ==> IsCompleteSequence(s[..k]) == Incomplete
  }

  /** A complete escape sequence with no complete proper prefix. */
  predicate Minimal(s: string) {
    && IsCompleteSequence(s) == Complete
    && forall k :: 1 <= k < |s| ==> IsCompleteSequence(s[..k]) == Incomplete
  }

  predicate Unit(s: string, after: string) {
    || (|s| == 1 && s[0] != ESC)
    || Minimal(s)
    || (s == [ESC] && |after| >= 2 && after[0] == ESC && after[1] in INTRODUCERS)
  }

  /** Each sequence is a plain character, a shortest complete escape sequence, or an Escape key press
      in front of one; what remains is the start of an unfinished one. */
  ghost predicate WellSplit(e: Extracted)
    decreases |e.sequences|
  {
    if e.sequences == [] then e.remainder == "" || Unfinished(e.remainder)
    else
      var rest := e.sequences[1..];
      Unit(e.sequences[0], Concat(rest) + e.remainder) && WellSplit(Extracted(rest, e.remainder))
  }

  lemma FirstIsUnit(s: string)
    requires s != "" && FirstLength(s) > 0
    ensures Unit(s[..FirstLength(s)], s[FirstLength(s)..])
  {
    var n := FirstLength(s);
    if s[0] == ESC {
      var m := FirstEnd(s, 1);
      if n == m {
        forall k | 1 <= k < n ensures IsCompleteSequence(s[..n][..k]) == Incomplete { assert s[..n][..k] == s[..k]; }
        assert Minimal(s[..n]);
      } else {
        assert s[1] == s[..m][1];
        assert s[1..][1] == s[2];
      }
    }
  }

  lemma {:induction false} ExtractSplitsWell(s: string)
    ensures WellSplit(Extract(s))
    decreases |s|
  {
    if s != "" {
      var n := FirstLength(s);
      if n > 0 {
        var rest := Extract(s[n..]);
        ExtractSplitsWell(s[n..]);
        FirstIsUnit(s);
        ExtractConserves(s[n..]);
        assert Extract(s).sequences[1..] == rest.sequences;
      }
    }
  }

  // ---- chunks ----

  /** The first part ends in an ESC ESC that was taken as one sequence, and the second part starts as
      an escape sequence does behind its ESC. */
  predicate SplitsAnEscape(a: string, b: string) {
    var e := Extract(a);
    e.remainder == "" && e.sequences != [] && e.sequences[|e.sequences| - 1] == ESC_ESC && b != ""
        && b[0] in INTRODUCERS
  }

  /** Extraction of `a`, then of what remains with `b` behind it. */
  function ExtractBoth(a: string, b: string): Extracted {
    var first := Extract(a);
    var second := Extract(first.remainder + b);
    Extracted(first.sequences + second.sequences, second.remainder)
  }

  lemma FirstEndGrows(a: string, b: string, n: nat)
    requires n <= |a|
    ensures FirstEnd(a, n) <= |a| ==> FirstEnd(a + b, n) == FirstEnd(a, n)
    decreases |a| - n
  {
    assert (a + b)[..n] == a[..n];
    if IsCompleteSequence(a[..n]) == Incomplete && n < |a| { FirstEndGrows(a, b, n + 1); }
  }

  /** More input does not change the first sequence, but for an ESC ESC at the very end. */
  lemma FirstLengthGrows(a: string, b: string)
    requires a != "" && FirstLength(a) > 0
    requires a == ESC_ESC ==> b == "" || b[0] !in INTRODUCERS
    ensures FirstLength(a + b) == FirstLength(a)
  {
    if a[0] == ESC {
      FirstEndGrows(a, b, 1);
      var n := FirstEnd(a, 1);
      assert (a + b)[..n] == a[..n];
    }
  }

  lemma EscEscIsWhole()
    ensures FirstLength(ESC_ESC) == 2 && Extract(ESC_ESC) == Extracted([ESC_ESC], "")
  {
    assert ESC_ESC[..1] == [ESC];
    assert ESC_ESC[..2] == ESC_ESC;
    assert FirstEnd(ESC_ESC, 1) == FirstEnd(ESC_ESC, 2) == 2;
  }

  lemma EscBeforeIntroducer(b: string)
    requires b != "" && b[0] in INTRODUCERS
    ensures FirstLength(ESC_ESC + b) == 1
  {
    var s := ESC_ESC + b;
    assert s[..1] == [ESC] && s[..2] == ESC_ESC;
    assert FirstEnd(s, 1) == FirstEnd(s, 2) == 2;
  }

  /** One step and two steps agree, or differ at the last sequence of the first part. */
  ghost predicate CutAgrees(a: string, b: string) {
    var both, once, k := ExtractBoth(a, b), Extract(a + b), |Extract(a).sequences| - 1;
    if SplitsAnEscape(a, b) then
      |once.sequences| > k && once.sequences[..k] == Extract(a).sequences[..k] && once.sequences[k] == [ESC]
    else
      both == once
  }

  lemma CutAgreesBehind(a: string, b: string, n: nat)
    requires a != "" && FirstLength(a) == n > 0 && FirstLength(a + b) == n
    requires SplitsAnEscape(a, b) <==> SplitsAnEscape(a[n..], b)
    requires CutAgrees(a[n..], b)
    ensures CutAgrees(a, b)
  {
    assert (a + b)[..n] == a[..n] && (a + b)[n..] == a[n..] + b;
    var first, once, x := Extract(a[n..]), Extract(a[n..] + b), a[..n];
    var second := Extract(first.remainder + b);
    assert Extract(a) == Extracted([x] + first.sequences, first.remainder);
    assert Extract(a + b) == Extracted([x] + once.sequences, once.remainder);
    if SplitsAnEscape(a, b) {
      var k := |first.sequences| - 1;
      assert ([x] + first.sequences)[..k + 1] == [x] + first.sequences[..k];
      assert ([x] + once.sequences)[..k + 1] == [x] + once.sequences[..k];
    } else {
      assert ([x] + first.sequences) + second.sequences == [x] + (first.sequences + second.sequences);
    }
  }

  /** Extracting in two steps gives what one step gives, unless the cut splits an escape: then the
      steps differ at the last sequence of the first part. */
  lemma {:induction false} ExtractInChunks(a: string, b: string)
    ensures CutAgrees(a, b)
    decreases |a|
  {
    if a == "" {
      assert a + b == b && "" + b == b;
    } else if FirstLength(a) == 0 {
      assert [] + Extract(a + b).sequences == Extract(a + b).sequences;
    } else if a == ESC_ESC && b != "" && b[0] in INTRODUCERS {
      EscEscIsWhole();
      EscBeforeIntroducer(b);
      assert (ESC_ESC + b)[..1] == [ESC];
    } else {
      var n := FirstLength(a);
      FirstLengthGrows(a, b);
      ExtractInChunks(a[n..], b);
      SameCut(a, b, n);
      CutAgreesBehind(a, b, n);
    }
  }

  lemma SameCut(a: string, b: string, n: nat)
    requires a != "" && FirstLength(a) == n > 0 && !(a == ESC_ESC && b != "" && b[0] in INTRODUCERS)
    ensures SplitsAnEscape(a, b) <==> SplitsAnEscape(a[n..], b)
  {
    var e, rest := Extract(a), Extract(a[n..]);
    assert e.sequences == [a[..n]] + rest.sequences;
    if rest.sequences == [] && e.remainder == "" {
      ExtractConserves(a[n..]);
      assert a[n..] == "" && a[..n] == a;
    }
  }
}
