/** The sequences that terminals send, after ECMA-48 sections 5.4 and 5.6, and how the input buffer takes
    them apart. */
module StdinGrammar {
  import opened Common
  import opened StdinBuffer
  import opened StdinEvents
  import Ansi

  // ---- the sequences ----

  predicate PlainKey(q: string) { |q| == 1 && q[0] != ESC }

  predicate MetaKey(q: string) { |q| == 2 && q[0] == ESC && q[1] != ESC && q[1] !in INTRODUCERS }

  predicate ShiftedKey(q: string) { |q| == 3 && q[0] == ESC && q[1] == 'O' }

  /** Parameter and intermediate bytes, then the final byte. */
  predicate ControlSequence(q: string) {
    && |q| >= 3 && q[0] == ESC && q[1] == '['
    && q[2] != '<' && q[2] != 'M' && '@' <= q[|q| - 1] <= '~'
    && forall k :: 2 <= k < |q| - 1 ==> ' ' <= q[k] <= '?'
  }

  /** `ESC [ < button ; column ; row M`, or `m` for a release. */
  ghost predicate MouseReport(q: string) {
    exists button, column, row, final :: MouseFields(q, button, column, row, final)
  }

  predicate MouseFields(q: string, button: string, column: string, row: string, final: char) {
    && Digits(button) && Digits(column) && Digits(row) && final in {'M', 'm'}
    && q == [ESC, '['] + MousePayload(button + [';'] + column + [';'] + row, final)
  }

  function MousePayload(inner: string, final: char): string { ['<'] + inner + [final] }

  predicate OldMouseReport(q: string) { |q| == 6 && q[0] == ESC && q[1] == '[' && q[2] == 'M' }

  /** A command string up to its terminator; a bell ends only operating system commands. */
  predicate ControlString(q: string) {
    && |q| >= 3 && q[0] == ESC && q[1] in {']', 'P', '_'}
    && (|| (|q| >= 4 && EndsWith(q, STRING_TERMINATOR) && Body(q, |q| - 2))
        || (q[1] == ']' && q[|q| - 1] == BEL && Body(q, |q| - 1)))
  }

  predicate Body(q: string, end: nat)
    requires end <= |q|
  {
    forall k :: 2 <= k < end ==> q[k] != ESC && q[k] != BEL
  }

  ghost predicate WellFormed(q: string) {
    || PlainKey(q) || MetaKey(q) || ShiftedKey(q) || ControlSequence(q) || MouseReport(q) || OldMouseReport(q)
    || ControlString(q)
  }

  // ---- each is complete, and none of its prefixes is ----

  lemma {:induction false} EndIsFound(s: string, n: nat, r: nat)
    requires n <= r <= |s| && IsCompleteSequence(s[..r]) != Incomplete
    requires forall k :: n <= k < r ==> IsCompleteSequence(s[..k]) == Incomplete
    ensures FirstEnd(s, n) == r
    decreases r - n
  {
    if n < r {
      EndIsFound(s, n + 1, r);
    }
  }

  /** What follows a complete sequence does not matter. */
  lemma MinimalComesFirst(q: string, rest: string)
    requires |q| >= 1 && q[0] == ESC && q != ESC_ESC && Minimal(q)
    ensures FirstLength(q + rest) == |q|
  {
    var s := q + rest;
    assert s[..|q|] == q;
    forall k | 1 <= k < |q| ensures IsCompleteSequence(s[..k]) == Incomplete {
      assert s[..k] == q[..k];
    }
    EndIsFound(s, 1, |q|);
  }

  lemma ShortKeysAreMinimal(q: string)
    requires MetaKey(q) || ShiftedKey(q) || OldMouseReport(q)
    ensures Minimal(q)
  {
    forall k | 1 <= k < |q| ensures IsCompleteSequence(q[..k]) == Incomplete {
      if OldMouseReport(q) && k == 2 { assert q[..k][1] == '['; }
    }
  }

  lemma ControlSequenceIsMinimal(q: string)
    requires ControlSequence(q)
    ensures Minimal(q)
  {
    assert q[2..][|q[2..]| - 1] == q[|q| - 1] && q[2..][0] == q[2];
    forall k | 1 <= k < |q| ensures IsCompleteSequence(q[..k]) == Incomplete {
      if k >= 3 {
        assert q[..k][2..][k - 3] == q[k - 1];
      }
    }
  }

  lemma MouseReportIsMinimal(q: string)
    requires MouseReport(q)
    ensures Minimal(q)
  {
    var button, column, row, final :| MouseFields(q, button, column, row, final);
    MouseReportIsComplete(q, button, column, row, final);
    forall k | 1 <= k < |q| ensures IsCompleteSequence(q[..k]) == Incomplete {
      if k >= 3 { MousePrefix(q, button, column, row, final, k); }
    }
  }

  lemma MouseReportIsComplete(q: string, button: string, column: string, row: string, final: char)
    requires MouseFields(q, button, column, row, final)
    ensures IsCompleteSequence(q) == Complete
  {
    var inner := button + [';'] + column + [';'] + row;
    var payload := MousePayload(inner, final);
    assert q[2..] == payload;
    PayloadMatches(payload, inner, final, button, column, row);
  }

  lemma PayloadMatches(payload: string, inner: string, final: char, button: string, column: string, row: string)
    requires Digits(button) && Digits(column) && Digits(row) && final in {'M', 'm'}
    requires inner == button + [';'] + column + [';'] + row && payload == MousePayload(inner, final)
    ensures MouseMatch(payload)
  {
    assert payload[1..|payload| - 1] == inner;
    ThreePartsMatch(payload, button, column, row);
  }

  lemma MousePrefix(q: string, button: string, column: string, row: string, final: char, k: nat)
    requires MouseFields(q, button, column, row, final) && 3 <= k < |q|
    ensures IsCompleteSequence(q[..k]) == Incomplete
  {
    var inner := button + [';'] + column + [';'] + row;
    var p := q[..k];
    assert q[k - 1] == MousePayload(inner, final)[k - 3] == if k == 3 then '<' else inner[k - 4];
    if k > 3 { InnerBytes(inner, button, column, row, k - 4); }
    assert p[2..][k - 3] == q[k - 1];
  }

  lemma InnerBytes(inner: string, a: string, b: string, c: string, k: nat)
    requires inner == a + [';'] + b + [';'] + c && Digits(a) && Digits(b) && Digits(c) && k < |inner|
    ensures inner[k] == ';' || IsDigit(inner[k])
  {
    assert inner[k] in a + [';'] + b + [';'] + c;
    forall x | x in a ensures IsDigit(x) {}
    forall x | x in b ensures IsDigit(x) {}
    forall x | x in c ensures IsDigit(x) {}
  }

  lemma LastCharacters(p: string)
    ensures EndsWith(p, STRING_TERMINATOR) ==> |p| >= 2 && p[|p| - 2] == ESC && p[|p| - 1] == '\\'
    ensures EndsWith(p, [BEL]) ==> |p| >= 1 && p[|p| - 1] == BEL
  {
    if |p| >= 2 { assert p[|p| - 2..][0] == p[|p| - 2] && p[|p| - 2..][1] == p[|p| - 1]; }
    if |p| >= 1 { assert p[|p| - 1..][0] == p[|p| - 1]; }
  }

  lemma StringStaysOpen(p: string)
    requires p != "" && p[0] == ESC && (|p| >= 2 ==> p[1] in {']', 'P', '_'})
    requires !EndsWith(p, STRING_TERMINATOR) && !EndsWith(p, [BEL])
    ensures IsCompleteSequence(p) == Incomplete
  {
  }

  /** A string that is still in its body, or in front of the last character of its terminator. */
  lemma StringPrefix(p: string)
    requires p != "" && p[0] == ESC && (|p| >= 2 ==> p[1] in {']', 'P', '_'})
    requires p[|p| - 1] != BEL && (|p| >= 3 ==> p[|p| - 2] != ESC)
    ensures IsCompleteSequence(p) == Incomplete
  {
    LastCharacters(p);
    StringStaysOpen(p);
  }

  lemma PrefixBytes(q: string, end: nat, k: nat)
    requires |q| >= 3 && q[0] == ESC && q[1] in {']', 'P', '_'} && end <= |q| && Body(q, end)
    requires 1 <= k <= |q| && (k <= end || (k == end + 1 && q[end] == ESC))
    ensures var p := q[..k];
            && p != "" && p[0] == ESC && (|p| >= 2 ==> p[1] in {']', 'P', '_'})
            && p[|p| - 1] != BEL && (|p| >= 3 ==> p[|p| - 2] != ESC)
  {
  }

  lemma ControlStringIsMinimal(q: string)
    requires ControlString(q)
    ensures Minimal(q)
  {
    var terminated := |q| >= 4 && EndsWith(q, STRING_TERMINATOR) && Body(q, |q| - 2);
    var end := if terminated then |q| - 2 else |q| - 1;
    LastCharacters(q);
    if !terminated { assert q[|q| - 1..] == [BEL]; }
    forall k | 1 <= k < |q| ensures IsCompleteSequence(q[..k]) == Incomplete {
      PrefixBytes(q, end, k);
      StringPrefix(q[..k]);
    }
  }

  /** A sequence is taken whole, whatever follows it. */
  lemma WellFormedComesFirst(q: string, rest: string)
    requires WellFormed(q)
    ensures |q| > 0 && FirstLength(q + rest) == |q|
  {
    if PlainKey(q) {
      assert (q + rest)[0] == q[0];
    } else {
      if MetaKey(q) || ShiftedKey(q) || OldMouseReport(q) {
        ShortKeysAreMinimal(q);
      } else if ControlSequence(q) {
        ControlSequenceIsMinimal(q);
      } else if MouseReport(q) {
        MouseReportIsMinimal(q);
      } else {
        ControlStringIsMinimal(q);
      }
      MinimalComesFirst(q, rest);
    }
  }

  /** Well-formed sequences sent one after the other come out one by one, as they were sent. */
  lemma {:induction false} SequencesComeOut(qs: seq<string>)
    requires forall q <- qs :: WellFormed(q)
    ensures Extract(Concat(qs)) == Extracted(qs, "")
  {
    if qs != [] {
      var q, rest := qs[0], Concat(qs[1..]);
      assert WellFormed(q);
      WellFormedComesFirst(q, rest);
      SequencesComeOut(qs[1..]);
      assert (q + rest)[..|q|] == q && (q + rest)[|q|..] == rest;
      assert [q] + qs[1..] == qs;
    }
  }

  function DataOf(qs: seq<string>): (r: seq<Event>)
    ensures |r| == |qs| && forall k :: 0 <= k < |r| ==> r[k] == Data(qs[k])
  {
    seq(|qs|, k requires 0 <= k < |qs| => Data(qs[k]))
  }

  lemma {:induction false} EachIsEmitted(qs: seq<string>)
    requires forall q <- qs :: KittyPrintable(q).None?
    ensures Emitted(qs, None) == DataOf(qs) && PendingAfterAll(qs, None) == None
  {
    if qs != [] {
      EachIsEmitted(qs[1..]);
      assert DataOf(qs) == [Data(qs[0])] + DataOf(qs[1..]);
    }
  }

  /** Typed keys that are no key reports are reported once each, in order, and nothing is left over. */
  lemma KeysAreReported(qs: seq<string>, pasteBuffer: string)
    requires qs != [] && forall q <- qs :: WellFormed(q) && KittyPrintable(q).None?
    requires Find(Concat(qs), PASTE_START).None?
    ensures Chunk(State("", false, pasteBuffer, None), Concat(qs))
         == Outcome(State("", false, pasteBuffer, None), DataOf(qs))
  {
    SequencesComeOut(qs);
    EachIsEmitted(qs);
    WellFormedComesFirst(qs[0], "");
    assert Concat(qs) != "";
    assert "" + Concat(qs) == Concat(qs);
  }

  /** The Delete key: digits and a tilde. */
  lemma DeleteKey(rest: string)
    ensures var key := [ESC] + "[3~"; Extract(key + rest).sequences == [key] + Extract(rest).sequences
  {
    var key := [ESC] + "[3~";
    assert ControlSequence(key);
    WellFormedComesFirst(key, rest);
    assert (key + rest)[..|key|] == key && (key + rest)[|key|..] == rest;
  }

  lemma UnfinishedIsKept(s: string)
    requires Unfinished(s)
    ensures Extract(s) == Extracted([], s)
  {
    assert FirstEnd(s, 1) == |s| + 1;
  }

  /** The start of an escape sequence waits; when the timer fires before the rest has come, it is reported as it is. */
  lemma UnfinishedWaits(s: string)
    requires Unfinished(s) && Find(s, PASTE_START).None?
    ensures var o := Chunk(State("", false, "", None), s);
            && o.events == [] && o.state.buffer == s
            && TimedOut(o.state) == Outcome(State("", false, "", None), [Data(s)])
  {
    UnfinishedIsKept(s);
    assert "" + s == s && [s][1..] == [];
    assert s[..|s|] == s;
    ReportsAreComplete(s);
  }

  lemma ReportsAreComplete(s: string)
    ensures KittyPrintable(s).Some? ==> IsCompleteSequence(s) == Complete
  {
    if KittyPrintable(s).Some? {
      var parameters := s[2..|s| - 1];
      LeadingDigit(parameters);
      assert parameters[0] == s[2] == s[2..][0] && s[2..][|s[2..]| - 1] == 'u';
    }
  }

  lemma LeadingDigit(s: string)
    requires KittyParameters(s)
    ensures s != "" && IsDigit(s[0])
  {
    if !Digits(s) {
      var i :| 0 < i < |s| && s[i] == ':' && Digits(s[..i]);
      assert s[..i][0] == s[0];
    }
  }

  // ---- key reports ----

  lemma {:induction false} DecimalDigits(n: nat)
    ensures Digits(Ansi.Decimal(n)) && Ansi.Number(Ansi.Decimal(n)) == n
  {
    if n >= 10 {
      DecimalDigits(n / 10);
    }
    Ansi.NumberOfDecimal(n);
  }

  lemma {:induction false} AllDigitsLead(s: string)
    requires forall k :: 0 <= k < |s| ==> IsDigit(s[k])
    ensures LeadingDigits(s) == s
  {
    if s != "" {
      AllDigitsLead(s[1..]);
      assert [s[0]] + s[1..] == s;
    }
  }

  /** `ESC [ code u`. */
  function KeyReport(code: nat): string { [ESC, '['] + Ansi.Decimal(code) + ['u'] }

  lemma KeyReportIsRead(code: nat)
    requires code >= 32
    ensures KittyPrintable(KeyReport(code)) == Some(code)
  {
    var report := KeyReport(code);
    DecimalDigits(code);
    AllDigitsLead(Ansi.Decimal(code));
    assert report[2..|report| - 1] == Ansi.Decimal(code);
  }

  lemma BehindReport(report: string, code: int, c: char)
    requires KittyPrintable(report) == Some(code)
    ensures Emitted([report, [c]], None) == if c as int == code then [Data(report)] else [Data(report), Data([c])]
  {
    var last := [[c]];
    assert [report, [c]][1..] == last && last[1..] == [];
    assert Emitted(last, Some(code)) == if c as int == code then [] else [Data([c])];
  }

  /** The character that some terminals send behind the report of its key is swallowed; any other is not. */
  lemma ReportSwallowsItsCharacter(code: nat, c: char)
    requires code >= 32
    ensures Emitted([KeyReport(code), [c]], None)
         == if c as int == code then [Data(KeyReport(code))] else [Data(KeyReport(code)), Data([c])]
  {
    KeyReportIsRead(code);
    BehindReport(KeyReport(code), code, c);
  }
}
