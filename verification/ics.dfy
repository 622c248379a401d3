/**
 TEXT values and content lines of iCalendar (packages/application/src/export.ts):
 escaping as in section 3.3.11 and folding as in section 3.1 of RFC 5545. A
 `char` stands for one UTF-16 unit.
 */
module Ics {
  import opened Prelude

  // ---------------------------------------------------------------------
  // TEXT values
  // ---------------------------------------------------------------------

  /** `.replace` of every occurrence of one character. */
  function ReplaceChar(s: string, c: char, sub: string): string
    decreases |s|
  {
    if s == [] then [] else (if s[0] == c then sub else [s[0]]) + ReplaceChar(s[1..], c, sub)
  }

  /** `.replace(/\r?\n/g, '\\n')`. */
  function ReplaceBreaks(s: string): string
    decreases |s|
  {
    if s == [] then []
    else if s[0] == '\n' then "\\n" + ReplaceBreaks(s[1..])
    else if s[0] == '\r' && |s| > 1 && s[1] == '\n' then "\\n" + ReplaceBreaks(s[2..])
    else [s[0]] + ReplaceBreaks(s[1..])
  }

  function EscapeText(s: string): string {
    ReplaceChar(ReplaceChar(ReplaceBreaks(ReplaceChar(s, '\\', "\\\\")), ',', "\\,"), ';', "\\;")
  }

  /** `.replace` of a backslash and `c` by `c`. */
  function ReplacePair(s: string, c: char): string
    decreases |s|
  {
    if |s| < 2 then s
    else if s[0] == '\\' && s[1] == c then [c] + ReplacePair(s[2..], c)
    else [s[0]] + ReplacePair(s[1..], c)
  }

  /** `.replace(/\\n/gi, '\n')`. */
  function RestoreBreaks(s: string): string
    decreases |s|
  {
    if |s| < 2 then s
    else if s[0] == '\\' && (s[1] == 'n' || s[1] == 'N') then ['\n'] + RestoreBreaks(s[2..])
    else [s[0]] + RestoreBreaks(s[1..])
  }

  function Unescape(s: string): string {
    ReplacePair(ReplacePair(ReplacePair(RestoreBreaks(s), ','), ';'), '\\')
  }

  /** CR LF as LF. */
  function PlainBreaks(s: string): string
    decreases |s|
  {
    if s == [] then []
    else if s[0] == '\r' && |s| > 1 && s[1] == '\n' then ['\n'] + PlainBreaks(s[2..])
    else [s[0]] + PlainBreaks(s[1..])
  }

  /** A backslash directly before n or N. */
  predicate FalseBreakAt(s: string, i: nat) {
    i + 1 < |s| && s[i] == '\\' && (s[i + 1] == 'n' || s[i + 1] == 'N')
  }

  predicate HasFalseBreak(s: string) {
    exists i: nat :: i < |s| && FalseBreakAt(s, i)
  }

  // --- character by character ---

  /** A character with its backslash and some of the others escaped. */
  function Code(c: char, breaks: bool, commas: bool, semicolons: bool): string {
    if c == '\\' then "\\\\"
    else if c == '\n' && breaks then "\\n"
    else if c == ',' && commas then "\\,"
    else if c == ';' && semicolons then "\\;"
    else [c]
  }

  function Coded(s: string, breaks: bool, commas: bool, semicolons: bool): string
    decreases |s|
  {
    if s == [] then [] else Code(s[0], breaks, commas, semicolons) + Coded(s[1..], breaks, commas, semicolons)
  }

  lemma {:induction false} ReplaceCharConcat(a: string, b: string, c: char, sub: string)
    ensures ReplaceChar(a + b, c, sub) == ReplaceChar(a, c, sub) + ReplaceChar(b, c, sub)
    decreases |a|
  {
    if a == [] {
      assert a + b == b;
    } else {
      assert (a + b)[1..] == a[1..] + b;
      ReplaceCharConcat(a[1..], b, c, sub);
    }
  }

  lemma {:induction false} BreaksOfPair(rest: string)
    ensures ReplaceBreaks("\\\\" + rest) == "\\\\" + ReplaceBreaks(rest)
  {
    assert ("\\\\" + rest)[1..] == "\\" + rest && ("\\" + rest)[1..] == rest;
  }

  lemma {:induction false} BreaksOfCrLf(rest: string)
    ensures ReplaceBreaks(['\r'] + (['\n'] + rest)) == "\\n" + ReplaceBreaks(rest)
  {
    assert (['\r'] + (['\n'] + rest))[2..] == rest;
  }

  lemma {:induction false} BreaksOfEscaped(s: string)
    ensures ReplaceBreaks(ReplaceChar(s, '\\', "\\\\")) == Coded(PlainBreaks(s), true, false, false)
    decreases |s|
  {
    if s != [] {
      var rest := ReplaceChar(s[1..], '\\', "\\\\");
      if s[0] == '\\' {
        BreaksOfEscaped(s[1..]);
        BreaksOfPair(rest);
        hide ReplaceBreaks;
        assert (['\\'] + PlainBreaks(s[1..]))[1..] == PlainBreaks(s[1..]);
      } else if s[0] == '\r' && |s| > 1 && s[1] == '\n' {
        BreaksOfEscaped(s[2..]);
        assert s[1..][1..] == s[2..];
        BreaksOfCrLf(ReplaceChar(s[2..], '\\', "\\\\"));
        hide ReplaceBreaks;
        assert (['\n'] + PlainBreaks(s[2..]))[1..] == PlainBreaks(s[2..]);
      } else {
        BreaksOfEscaped(s[1..]);
        assert ([s[0]] + rest)[1..] == rest;
        assert ([s[0]] + PlainBreaks(s[1..]))[1..] == PlainBreaks(s[1..]);
      }
    }
  }

  lemma {:induction false} CommasOfCoded(s: string)
    ensures ReplaceChar(Coded(s, true, false, false), ',', "\\,") == Coded(s, true, true, false)
    decreases |s|
  {
    if s != [] {
      CommasOfCoded(s[1..]);
      ReplaceCharConcat(Code(s[0], true, false, false), Coded(s[1..], true, false, false), ',', "\\,");
      CodeReplaced(s[0], false, ',', "\\,");
    }
  }

  lemma {:induction false} SemicolonsOfCoded(s: string)
    ensures ReplaceChar(Coded(s, true, true, false), ';', "\\;") == Coded(s, true, true, true)
    decreases |s|
  {
    if s != [] {
      SemicolonsOfCoded(s[1..]);
      ReplaceCharConcat(Code(s[0], true, true, false), Coded(s[1..], true, true, false), ';', "\\;");
      CodeReplaced(s[0], true, ';', "\\;");
    }
  }

  lemma {:induction false} ReplaceOne(x: char, c: char, sub: string)
    ensures ReplaceChar([x], c, sub) == if x == c then sub else [x]
  {
    assert [x][1..] == [];
  }

  lemma {:induction false} CodeReplaced(x: char, commas: bool, c: char, sub: string)
    requires (c == ',' && !commas) || c == ';'
    ensures ReplaceChar(Code(x, true, commas, false), c, sub) == if x == c then sub else Code(x, true, commas, false)
  {
    var code := Code(x, true, commas, false);
    ReplaceOne(code[0], c, sub);
    if |code| == 2 {
      assert code == [code[0]] + [code[1]];
      ReplaceOne(code[1], c, sub);
      ReplaceCharConcat([code[0]], [code[1]], c, sub);
    } else {
      assert code == [code[0]];
    }
  }

  /** The four replacements escape each character on its own. */
  lemma {:induction false} EscapeIsCoded(s: string)
    ensures EscapeText(s) == Coded(PlainBreaks(s), true, true, true)
  {
    BreaksOfEscaped(s);
    CommasOfCoded(PlainBreaks(s));
    SemicolonsOfCoded(PlainBreaks(s));
  }

  // --- back again ---

  lemma {:induction false} RestoreCoded(s: string)
    requires !HasFalseBreak(s)
    ensures RestoreBreaks(Coded(s, true, true, true)) == Coded(s, false, true, true)
    decreases |s|
  {
    if s != [] {
      forall i: nat | i < |s[1..]| ensures !FalseBreakAt(s[1..], i) {
        assert !FalseBreakAt(s, i + 1);
      }
      RestoreCoded(s[1..]);
      assert !FalseBreakAt(s, 0);
      RestoreCode(s[0], Coded(s[1..], true, true, true));
      assert s[1..] != [] ==> Coded(s[1..], true, true, true)[0] == Code(s[1], true, true, true)[0];
    }
  }

  lemma {:induction false} RestoreCode(x: char, rest: string)
    requires x == '\\' ==> rest == [] || (rest[0] != 'n' && rest[0] != 'N')
    ensures RestoreBreaks(Code(x, true, true, true) + rest) == Code(x, false, true, true) + RestoreBreaks(rest)
  {
    var code := Code(x, true, true, true);
    if |code| == 1 {
      assert (code + rest)[1..] == rest;
    } else {
      assert code == ['\\', code[1]];
      RestorePair(code[1], rest);
      hide RestoreBreaks;
    }
  }

  /** A backslash and what follows it, read together. */
  lemma {:induction false} RestorePair(c: char, rest: string)
    requires c in {'\\', 'n', ',', ';'} && (c == '\\' ==> rest == [] || (rest[0] != 'n' && rest[0] != 'N'))
    ensures RestoreBreaks(['\\', c] + rest) == (if c == 'n' then ['\n'] else ['\\', c]) + RestoreBreaks(rest)
  {
    var s := ['\\', c] + rest;
    assert s[2..] == rest && s[1..] == [c] + rest;
    assert ([c] + rest)[1..] == rest;
    assert ['\\'] + ([c] + RestoreBreaks(rest)) == ['\\', c] + RestoreBreaks(rest);
  }

  lemma {:induction false} PairCommas(s: string)
    ensures ReplacePair(Coded(s, false, true, true), ',') == Coded(s, false, false, true)
    decreases |s|
  {
    if s != [] {
      PairCommas(s[1..]);
      var rest := Coded(s[1..], false, true, true);
      assert s[1..] != [] ==> rest[0] == Code(s[1], false, true, true)[0];
      PairCode(Code(s[0], false, true, true), rest, ',');
    }
  }

  lemma {:induction false} PairSemicolons(s: string)
    ensures ReplacePair(Coded(s, false, false, true), ';') == Coded(s, false, false, false)
    decreases |s|
  {
    if s != [] {
      PairSemicolons(s[1..]);
      var rest := Coded(s[1..], false, false, true);
      assert s[1..] != [] ==> rest[0] == Code(s[1], false, false, true)[0];
      PairCode(Code(s[0], false, false, true), rest, ';');
    }
  }

  /** One code in front of the rest: a pair is replaced, anything else stays. */
  lemma {:induction false} PairCode(code: string, rest: string, c: char)
    requires c != '\\' && ((|code| == 1 && code[0] != '\\') || (|code| == 2 && code[0] == '\\'))
    requires code == "\\\\" ==> rest == [] || rest[0] != c
    ensures ReplacePair(code + rest, c)
         == (if |code| == 2 && code[1] == c then [c] else code) + ReplacePair(rest, c)
  {
    if |code| == 1 {
      assert (code + rest)[1..] == rest;
    } else {
      assert (code + rest)[2..] == rest && (code + rest)[1..] == [code[1]] + rest;
      assert ([code[1]] + rest)[1..] == rest;
    }
  }

  lemma {:induction false} PairBackslashes(s: string)
    ensures ReplacePair(Coded(s, false, false, false), '\\') == s
    decreases |s|
  {
    if s != [] {
      PairBackslashes(s[1..]);
      var code, rest := Code(s[0], false, false, false), Coded(s[1..], false, false, false);
      assert (code + rest)[|code|..] == rest;
    }
  }

  function Breaks(s: string): nat
    decreases |s|
  {
    if s == [] then 0 else (if s[0] == '\n' then 1 else 0) + Breaks(s[1..])
  }

  lemma {:induction false} BreaksConcat(a: string, b: string)
    ensures Breaks(a + b) == Breaks(a) + Breaks(b)
    decreases |a|
  {
    if a == [] {
      assert a + b == b;
    } else {
      assert (a + b)[1..] == a[1..] + b;
      BreaksConcat(a[1..], b);
    }
  }

  lemma {:induction false} PairKeepsBreaks(s: string, c: char)
    requires c != '\n'
    ensures Breaks(ReplacePair(s, c)) == Breaks(s)
    decreases |s|
  {
    if |s| >= 2 && s[0] == '\\' && s[1] == c {
      PairKeepsBreaks(s[2..], c);
      assert s[1..][1..] == s[2..];
    } else if |s| >= 2 {
      PairKeepsBreaks(s[1..], c);
    }
  }

  lemma {:induction false} FalseBreakRestored(x: char, tail: string)
    requires x == 'n' || x == 'N'
    ensures Breaks(RestoreBreaks(['\\', '\\', x] + tail)) == 1 + Breaks(RestoreBreaks(tail))
  {
    var rest := ['\\', x] + tail;
    assert (['\\', '\\', x] + tail)[1..] == rest && rest[2..] == tail;
    assert RestoreBreaks(rest) == ['\n'] + RestoreBreaks(tail);
    assert RestoreBreaks(['\\', '\\', x] + tail) == ['\\'] + RestoreBreaks(rest);
    BreaksConcat(['\\'], RestoreBreaks(rest));
    BreaksConcat(['\n'], RestoreBreaks(tail));
    assert ['\\'][1..] == [] && ['\n'][1..] == [];
  }

  lemma {:induction false} CodedFalseBreak(s: string)
    requires FalseBreakAt(s, 0)
    ensures Coded(s, true, true, true) == ['\\', '\\', s[1]] + Coded(s[2..], true, true, true)
    ensures Breaks(s) == Breaks(s[2..])
  {
    assert s[1..][1..] == s[2..];
    assert Coded(s[1..], true, true, true) == [s[1]] + Coded(s[2..], true, true, true);
  }

  lemma {:induction false} RestoreFirst(s: string)
    requires s != [] && !FalseBreakAt(s, 0)
    ensures Breaks(RestoreBreaks(Coded(s, true, true, true)))
         == Breaks([s[0]]) + Breaks(RestoreBreaks(Coded(s[1..], true, true, true)))
  {
    var rest := Coded(s[1..], true, true, true);
    assert s[1..] != [] ==> rest[0] == Code(s[1], true, true, true)[0];
    RestoreCode(s[0], rest);
    var code := Code(s[0], false, true, true);
    BreaksConcat(code, RestoreBreaks(rest));
    if |code| == 2 {
      BreaksConcat([code[0]], [code[1]]);
      assert code == [code[0]] + [code[1]];
    }
  }

  lemma {:induction false} FalseBreakLater(s: string)
    requires HasFalseBreak(s) && !FalseBreakAt(s, 0)
    ensures HasFalseBreak(s[1..])
  {
    var i: nat :| i < |s| && FalseBreakAt(s, i);
    assert FalseBreakAt(s[1..], i - 1);
  }

  /** Restoring never loses a break, and each false break adds one. */
  lemma {:induction false} RestoreAddsBreaks(s: string)
    ensures Breaks(RestoreBreaks(Coded(s, true, true, true))) >= Breaks(s)
    ensures HasFalseBreak(s) ==> Breaks(RestoreBreaks(Coded(s, true, true, true))) > Breaks(s)
    decreases |s|
  {
    hide Coded, RestoreBreaks, HasFalseBreak;
    if s == [] {
      NoFalseBreak(s);
    } else if FalseBreakAt(s, 0) {
      RestoreAddsBreaks(s[2..]);
      CodedFalseBreak(s);
      FalseBreakRestored(s[1], Coded(s[2..], true, true, true));
    } else {
      RestoreAddsBreaks(s[1..]);
      RestoreFirst(s);
      BreaksConcat([s[0]], s[1..]);
      assert s == [s[0]] + s[1..];
      if HasFalseBreak(s) {
        FalseBreakLater(s);
      }
    }
  }

  lemma {:induction false} NoFalseBreak(s: string)
    requires s == []
    ensures !HasFalseBreak(s)
  {
  }

  lemma {:induction false} PlainKeepsBreaks(s: string)
    ensures Breaks(PlainBreaks(s)) == Breaks(s)
    ensures |PlainBreaks(s)| <= |s|
    ensures HasFalseBreak(s) ==> HasFalseBreak(PlainBreaks(s))
    decreases |s|
  {
    if s != [] {
      var crlf := s[0] == '\r' && |s| > 1 && s[1] == '\n';
      var n := if crlf then 2 else 1;
      PlainKeepsBreaks(s[n..]);
      assert s[1..] == s[1..n] + s[n..];
      if HasFalseBreak(s) {
        var i: nat :| i < |s| && FalseBreakAt(s, i);
        var t := PlainBreaks(s);
        if i < n {
          assert t[1..] == PlainBreaks(s[1..]) && t[1] == s[1];
          assert FalseBreakAt(t, 0);
        } else {
          assert FalseBreakAt(s[n..], i - n);
          var j: nat :| j < |PlainBreaks(s[n..])| && FalseBreakAt(PlainBreaks(s[n..]), j);
          assert t[1..] == PlainBreaks(s[n..]);
          assert FalseBreakAt(t, j + 1);
        }
      }
    }
  }

  lemma {:induction false} UnescapeKeepsBreaks(s: string)
    ensures Breaks(Unescape(s)) == Breaks(RestoreBreaks(s))
  {
    PairKeepsBreaks(RestoreBreaks(s), ',');
    PairKeepsBreaks(ReplacePair(RestoreBreaks(s), ','), ';');
    PairKeepsBreaks(ReplacePair(ReplacePair(RestoreBreaks(s), ','), ';'), '\\');
  }

  lemma {:induction false} UnescapeCoded(s: string)
    requires !HasFalseBreak(s)
    ensures Unescape(Coded(s, true, true, true)) == s
  {
    RestoreCoded(s);
    PairCommas(s);
    PairSemicolons(s);
    PairBackslashes(s);
  }

  lemma {:induction false} PlainAddsFalseBreaks(s: string)
    ensures HasFalseBreak(PlainBreaks(s)) ==> HasFalseBreak(s)
    decreases |s|
  {
    var t := PlainBreaks(s);
    if HasFalseBreak(t) {
      var crlf := s[0] == '\r' && |s| > 1 && s[1] == '\n';
      var n := if crlf then 2 else 1;
      PlainAddsFalseBreaks(s[n..]);
      var i: nat :| i < |t| && FalseBreakAt(t, i);
      assert t[1..] == PlainBreaks(s[n..]);
      if i == 0 {
        assert FalseBreakAt(s, 0);
      } else {
        assert FalseBreakAt(t[1..], i - 1);
        var j: nat :| j < |s[n..]| && FalseBreakAt(s[n..], j);
        assert FalseBreakAt(s, j + n);
      }
    }
  }

  predicate HasCrLf(s: string) {
    exists i: nat :: i + 1 < |s| && CrLfAt(s, i)
  }

  predicate CrLfAt(s: string, i: nat) {
    i + 1 < |s| && s[i] == '\r' && s[i + 1] == '\n'
  }

  lemma {:induction false} PlainIffNoCrLf(s: string)
    ensures |PlainBreaks(s)| <= |s|
    ensures |PlainBreaks(s)| == |s| <==> !HasCrLf(s)
    ensures !HasCrLf(s) ==> PlainBreaks(s) == s
    decreases |s|
  {
    if s != [] {
      var n := if CrLfAt(s, 0) then 2 else 1;
      PlainIffNoCrLf(s[n..]);
      if n == 1 {
        assert forall i: nat :: CrLfAt(s[1..], i) <==> CrLfAt(s, i + 1);
        if HasCrLf(s) {
          var i: nat :| i + 1 < |s| && CrLfAt(s, i);
          assert CrLfAt(s[1..], i - 1);
        } else {
          forall i: nat | i + 1 < |s[1..]| ensures !CrLfAt(s[1..], i) {
            assert !CrLfAt(s, i + 1);
          }
        }
      }
    }
  }

  /** Escaping and unescaping gives a text back exactly when it has no CR LF and
      no backslash directly before n or N. */
  lemma {:induction false} TextRoundTrips(s: string)
    ensures Unescape(EscapeText(s)) == s <==> !HasCrLf(s) && !HasFalseBreak(s)
  {
    EscapeIsCoded(s);
    PlainKeepsBreaks(s);
    PlainAddsFalseBreaks(s);
    PlainIffNoCrLf(s);
    if HasFalseBreak(s) {
      UnescapeKeepsBreaks(EscapeText(s));
      RestoreAddsBreaks(PlainBreaks(s));
    } else {
      UnescapeCoded(PlainBreaks(s));
    }
  }

  // ---------------------------------------------------------------------
  // Content lines
  // ---------------------------------------------------------------------

  const LINE_LIMIT := 75

  /** The physical lines of a content line. */
  function Chunks(line: string): (chunks: seq<string>)
    ensures chunks != [] && forall i | 0 <= i < |chunks| :: |chunks[i]| <= LINE_LIMIT
    decreases |line|
  {
    if |line| <= LINE_LIMIT then [line] else [line[..LINE_LIMIT]] + Chunks(" " + line[LINE_LIMIT..])
  }

  /** `.join('\r\n')`. */
  function Join(lines: seq<string>): string
    decreases |lines|
  {
    if lines == [] then [] else if |lines| == 1 then lines[0] else lines[0] + "\r\n" + Join(lines[1..])
  }

  /** `foldIcsLine`. */
  method FoldIcsLine(line: string) returns (folded: string)
    ensures folded == Join(Chunks(line))
  {
    if |line| <= LINE_LIMIT {
      return line;
    }
    var chunks: seq<string> := [];
    var remaining := line;
    while |remaining| > LINE_LIMIT
      invariant chunks + Chunks(remaining) == Chunks(line)
      decreases |remaining|
    {
      assert chunks + ([remaining[..LINE_LIMIT]] + Chunks(" " + remaining[LINE_LIMIT..]))
          == chunks + [remaining[..LINE_LIMIT]] + Chunks(" " + remaining[LINE_LIMIT..]);
      chunks := chunks + [remaining[..LINE_LIMIT]];
      remaining := " " + remaining[LINE_LIMIT..];
    }
    chunks := chunks + [remaining];
    folded := Join(chunks);
  }

  predicate Blank(c: char) {
    c == ' ' || c == '\t'
  }

  /** `.replace(/\r?\n[ \t]/g, '')`. */
  function Unfold(s: string): string
    decreases |s|
  {
    if |s| >= 3 && s[0] == '\r' && s[1] == '\n' && Blank(s[2]) then Unfold(s[3..])
    else if |s| >= 2 && s[0] == '\n' && Blank(s[1]) then Unfold(s[2..])
    else if s == [] then []
    else [s[0]] + Unfold(s[1..])
  }

  lemma {:induction false} UnfoldPlain(a: string, rest: string)
    requires '\n' !in a && (rest == [] || rest[0] != '\n')
    ensures Unfold(a + rest) == a + Unfold(rest)
    decreases |a|
  {
    if a == [] {
      assert a + rest == rest;
    } else {
      var s := a + rest;
      assert s[1..] == a[1..] + rest && s[0] == a[0];
      UnfoldPlain(a[1..], rest);
      assert |s| > 1 ==> s[1] == if |a| > 1 then a[1] else rest[0];
      UnfoldOne(s);
      hide Unfold;
      FirstApart(a, Unfold(rest));
    }
  }

  lemma {:induction false} FirstApart(a: string, x: string)
    requires a != []
    ensures [a[0]] + (a[1..] + x) == a + x
  {
  }

  lemma {:induction false} UnfoldOne(s: string)
    requires s != [] && s[0] != '\n' && (|s| > 1 ==> s[1] != '\n')
    ensures Unfold(s) == [s[0]] + Unfold(s[1..])
  {
  }

  lemma {:induction false} UnfoldBlank(after: string)
    ensures Unfold(" " + after) == " " + Unfold(after)
    ensures Unfold("\r\n" + (" " + after)) == Unfold(after)
  {
    assert (" " + after)[1..] == after;
    assert ("\r\n" + (" " + after))[3..] == after;
  }

  lemma {:induction false} LongLine(line: string)
    requires |line| > LINE_LIMIT
    ensures Join(Chunks(line)) == line[..LINE_LIMIT] + "\r\n" + Join(Chunks(" " + line[LINE_LIMIT..]))
  {
    var more := Chunks(" " + line[LINE_LIMIT..]);
    hide Chunks;
    assert ([line[..LINE_LIMIT]] + more)[1..] == more;
  }

  /** One fold is taken out. */
  lemma {:induction false} UnfoldJoint(head: string, tail: string, folded: string, rest: string)
    requires '\n' !in head && folded != [] && folded[0] == ' '
    requires Unfold(folded + rest) == " " + tail + Unfold(rest)
    ensures Unfold(head + "\r\n" + folded + rest) == head + tail + Unfold(rest)
  {
    hide Unfold;
    var after := folded[1..] + rest;
    assert folded + rest == " " + after;
    UnfoldBlank(after);
    assert " " + tail + Unfold(rest) == " " + (tail + Unfold(rest));
    SameTail(Unfold(after), tail + Unfold(rest));
    UnfoldPlain(head, "\r\n" + (" " + after));
    assert head + "\r\n" + folded + rest == head + ("\r\n" + (" " + after));
    assert head + (tail + Unfold(rest)) == head + tail + Unfold(rest);
  }

  /** Unfolding takes out exactly what folding put in. */
  lemma {:induction false} UnfoldChunks(line: string, rest: string)
    requires '\n' !in line && (rest == [] || rest[0] != '\n')
    ensures Unfold(Join(Chunks(line)) + rest) == line + Unfold(rest)
    decreases |line|
  {
    if |line| <= LINE_LIMIT {
      UnfoldPlain(line, rest);
    } else {
      hide Unfold, Chunks, Join;
      var head, tail := line[..LINE_LIMIT], line[LINE_LIMIT..];
      UnfoldChunks(" " + tail, rest);
      ChunksStart(" " + tail);
      LongLine(line);
      UnfoldJoint(head, tail, Join(Chunks(" " + tail)), rest);
      assert line == head + tail;
    }
  }

  lemma {:induction false} SameTail(a: string, b: string)
    requires " " + a == " " + b
    ensures a == b
  {
    assert a == (" " + a)[1..] && b == (" " + b)[1..];
  }

  lemma {:induction false} ChunksStart(line: string)
    requires line != []
    ensures Join(Chunks(line)) != [] && Join(Chunks(line))[0] == line[0]
  {
  }

  /** Lines, each ended by CR LF. */
  function Ended(lines: seq<string>): string
    decreases |lines|
  {
    if lines == [] then [] else lines[0] + "\r\n" + Ended(lines[1..])
  }

  function Folded(lines: seq<string>): (folded: seq<string>)
    ensures |folded| == |lines| && forall i | 0 <= i < |lines| :: folded[i] == Join(Chunks(lines[i]))
  {
    seq(|lines|, i requires 0 <= i < |lines| => Join(Chunks(lines[i])))
  }

  /** A line that no reader takes for the continuation of another. */
  predicate ContentLine(line: string) {
    line != [] && !Blank(line[0]) && '\n' !in line
  }

  /** Unfolding the folded output gives back the content lines. */
  lemma {:induction false} UnfoldFolded(lines: seq<string>)
    requires forall i | 0 <= i < |lines| :: ContentLine(lines[i])
    ensures Unfold(Ended(Folded(lines))) == Ended(lines)
    decreases |lines|
  {
    if lines != [] {
      UnfoldFolded(lines[1..]);
      FoldedStart(lines);
      var next := Ended(Folded(lines[1..]));
      if next != [] {
        FoldedStart(lines[1..]);
        ChunksStart(lines[1]);
      }
      hide Unfold, Folded, Chunks, Join;
      UnfoldChunks(lines[0], "\r\n" + next);
      UnfoldBreak(next);
      assert lines[0] + ("\r\n" + Unfold(next)) == lines[0] + "\r\n" + Unfold(next);
    }
  }

  lemma {:induction false} FoldedStart(lines: seq<string>)
    requires lines != []
    ensures Ended(Folded(lines)) == Join(Chunks(lines[0])) + ("\r\n" + Ended(Folded(lines[1..])))
  {
    hide Chunks, Join;
    assert Folded(lines)[1..] == Folded(lines[1..]);
  }

  lemma {:induction false} UnfoldBreak(next: string)
    requires next == [] || !Blank(next[0])
    ensures Unfold("\r\n" + next) == "\r\n" + Unfold(next)
  {
    var rest := "\r\n" + next;
    assert rest[1..] == "\n" + next && ("\n" + next)[1..] == next;
    assert Unfold("\n" + next) == "\n" + Unfold(next);
  }
}
