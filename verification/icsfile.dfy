/**
 Whole calendars: `toIcs` and `fromIcs` of packages/application/src/export.ts,
 and what comes back of an exported task.
 */
module IcsFile {
  import opened Prelude
  import opened Ics

  /** The columns of a task that the export reads. */
  datatype ExportedTask = ExportedTask(id: string, deleted: bool, dueOn: Option<string>, title: string, note: string,
                                       tags: seq<string>, completed: bool)

  datatype ImportedTask = ImportedTask(title: string, note: string, dueOn: string)

  /** A content line: property name, its parameters, value. */
  datatype Line = Line(name: string, params: string, value: string)

  function Text(l: Line): string {
    l.name + l.params + ":" + l.value
  }

  function Texts(ls: seq<Line>): (ts: seq<string>)
    ensures |ts| == |ls| && forall i | 0 <= i < |ls| :: ts[i] == Text(ls[i])
  {
    seq(|ls|, i requires 0 <= i < |ls| => Text(ls[i]))
  }

  // ---------------------------------------------------------------------
  // Export
  // ---------------------------------------------------------------------

  function NoDashes(s: string): string {
    ReplaceChar(s, '-', "")
  }

  function JoinTags(tags: seq<string>): string
    decreases |tags|
  {
    if tags == [] then []
    else if |tags| == 1 then EscapeText(tags[0])
    else EscapeText(tags[0]) + "," + JoinTags(tags[1..])
  }

  const HOST := "shishi.local"

  function UidLine(t: ExportedTask): Line { Line("UID", "", t.id + "@" + HOST) }

  function StampLine(stamp: string): Line { Line("DTSTAMP", "", stamp) }

  function StartLine(dueOn: string): Line { Line("DTSTART", ";VALUE=DATE", NoDashes(dueOn)) }

  function EndLine(day: string): Line { Line("DTEND", ";VALUE=DATE", day) }

  function SummaryLine(t: ExportedTask): Line { Line("SUMMARY", "", EscapeText(t.title)) }

  function NoteLine(t: ExportedTask): Line { Line("DESCRIPTION", "", EscapeText(t.note)) }

  function TagsLine(t: ExportedTask): Line { Line("CATEGORIES", "", JoinTags(t.tags)) }

  function StatusLine(): Line { Line("STATUS", "", "COMPLETED") }

  /** The lines of one event after its first and before its last. `stamp` is the
      time of the export and `dayAfter` the day after the due date. */
  function EventBody(t: ExportedTask, stamp: string, dayAfter: string -> string): seq<Line>
    requires t.dueOn.Some?
  {
    [UidLine(t), StampLine(stamp), StartLine(t.dueOn.value), EndLine(dayAfter(t.dueOn.value)), SummaryLine(t)]
    + (if t.note != "" then [NoteLine(t)] else [])
    + (if t.tags != [] then [TagsLine(t)] else [])
    + (if t.completed then [StatusLine()] else [])
  }

  const BEGIN_EVENT := Line("BEGIN", "", "VEVENT")
  const END_EVENT := Line("END", "", "VEVENT")

  function Event(t: ExportedTask, stamp: string, dayAfter: string -> string): seq<Line>
    requires t.dueOn.Some?
  {
    [BEGIN_EVENT] + EventBody(t, stamp, dayAfter) + [END_EVENT]
  }

  predicate Exported(t: ExportedTask) {
    !t.deleted && t.dueOn.Some? && t.dueOn.value != ""
  }

  function Events(ts: seq<ExportedTask>, stamp: string, dayAfter: string -> string): seq<Line>
    decreases |ts|
  {
    if ts == [] then []
    else (if Exported(ts[0]) then Event(ts[0], stamp, dayAfter) else []) + Events(ts[1..], stamp, dayAfter)
  }

  const CALENDAR := Line("BEGIN", "", "VCALENDAR")
  const VERSION := Line("VERSION", "", "2.0")
  const PRODUCT := Line("PRODID", "", "-//Shishi//To Do//CN")
  const SCALE := Line("CALSCALE", "", "GREGORIAN")
  const CALENDAR_END := Line("END", "", "VCALENDAR")

  const HEADER := [CALENDAR, VERSION, PRODUCT, SCALE]
  const FOOTER := [CALENDAR_END]

  function CalendarLines(ts: seq<ExportedTask>, stamp: string, dayAfter: string -> string): seq<Line> {
    HEADER + Events(ts, stamp, dayAfter) + FOOTER
  }

  function ToIcs(ts: seq<ExportedTask>, stamp: string, dayAfter: string -> string): string {
    Ended(Folded(Texts(CalendarLines(ts, stamp, dayAfter))))
  }

  // ---------------------------------------------------------------------
  // Import
  // ---------------------------------------------------------------------

  /** The first place where `p` occurs. */
  function Find(s: string, p: string): (found: Option<nat>)
    ensures found.Some? ==> found.value + |p| <= |s|
    decreases |s|
  {
    if |s| < |p| then None
    else if s[..|p|] == p then Some(0)
    else if s == [] then None
    else
      var later := Find(s[1..], p);
      if later.Some? then Some(later.value + 1) else None
  }

  const BEGIN_TEXT := "BEGIN:VEVENT"
  const END_TEXT := "END:VEVENT"

  /** `.match(/BEGIN:VEVENT[\s\S]*?END:VEVENT/g)`: what stands between the two
      markers of each match. */
  function Blocks(s: string): seq<string>
    decreases |s|
  {
    var b := Find(s, BEGIN_TEXT);
    if b.None? then []
    else
      var after := s[b.value + |BEGIN_TEXT|..];
      var e := Find(after, END_TEXT);
      if e.None? then [] else [after[..e.value]] + Blocks(after[e.value + |END_TEXT|..])
  }

  function IndexOf(s: string, c: char): (i: Option<nat>)
    ensures i.Some? ==> i.value < |s| && s[i.value] == c && c !in s[..i.value]
    ensures i.None? ==> c !in s
    decreases |s|
  {
    if s == [] then None
    else if s[0] == c then Some(0)
    else
      assert s == [s[0]] + s[1..];
      var later := IndexOf(s[1..], c);
      if later.Some? then
        assert s[..later.value + 1] == [s[0]] + s[1..][..later.value];
        Some(later.value + 1)
      else None
  }

  /** `.split(/\r?\n/)`. */
  function Split(s: string): (lines: seq<string>)
    ensures lines != []
    decreases |s|
  {
    var i := IndexOf(s, '\n');
    if i.None? then [s]
    else
      var line := s[..i.value];
      [if line != [] && line[|line| - 1] == '\r' then line[..|line| - 1] else line] + Split(s[i.value + 1..])
  }

  function Upper(c: char): char {
    if 'a' <= c <= 'z' then (c as int - 32) as char else c
  }

  function UpperCase(s: string): (u: string)
    ensures |u| == |s| && forall i | 0 <= i < |s| :: u[i] == Upper(s[i])
  {
    seq(|s|, i requires 0 <= i < |s| => Upper(s[i]))
  }

  /** The property name and the value of a line that has them. */
  function Property(line: string): Option<(string, string)> {
    var colon := IndexOf(line, ':');
    if colon.None? || colon.value == 0 then None
    else
      var head := line[..colon.value];
      var semicolon := IndexOf(head, ';');
      var name := UpperCase(if semicolon.Some? then head[..semicolon.value] else head);
      if name == "" then None else Some((name, line[colon.value + 1..]))
  }

  function Fields(lines: seq<string>): map<string, string>
    decreases |lines|
  {
    if lines == [] then map[]
    else
      var before, p := Fields(lines[..|lines| - 1]), Property(lines[|lines| - 1]);
      if p.Some? then before[p.value.0 := p.value.1] else before
  }

  predicate WhiteSpace(c: char) {
    c in {'\t', '\n', '\U{B}', '\U{C}', '\r', ' ', '\U{A0}', '\U{1680}', '\U{2028}', '\U{2029}', '\U{202F}', '\U{205F}',
          '\U{3000}', '\U{FEFF}'}
    || '\U{2000}' <= c <= '\U{200A}'
  }

  /** `.trim()`. */
  function Trim(s: string): string
    decreases |s|
  {
    if s == [] then []
    else if WhiteSpace(s[0]) then Trim(s[1..])
    else if WhiteSpace(s[|s| - 1]) then Trim(s[..|s| - 1])
    else s
  }

  function Get(m: map<string, string>, name: string): string {
    if name in m then m[name] else ""
  }

  predicate Digit(c: char) {
    '0' <= c <= '9'
  }

  /** What one block imports as, without its two marker lines. */
  function TaskOf(block: string): Option<ImportedTask> {
    var fields := Fields(Split(BEGIN_TEXT + block + END_TEXT));
    var title := Unescape(Trim(Get(fields, "SUMMARY")));
    var start := Trim(Get(fields, "DTSTART"));
    if title == "" || |start| < 8 || !(forall i | 0 <= i < 8 :: Digit(start[i])) then None
    else Some(ImportedTask(title, Unescape(Get(fields, "DESCRIPTION")),
                           start[..4] + "-" + start[4..6] + "-" + start[6..8]))
  }

  function Tasks(blocks: seq<string>): seq<ImportedTask>
    decreases |blocks|
  {
    if blocks == [] then []
    else
      var t := TaskOf(blocks[0]);
      (if t.Some? then [t.value] else []) + Tasks(blocks[1..])
  }

  function FromIcs(text: string): seq<ImportedTask> {
    Tasks(Blocks(Unfold(text)))
  }

  // ---------------------------------------------------------------------
  // Searching
  // ---------------------------------------------------------------------

  predicate OccursAt(s: string, p: string, i: nat) {
    i + |p| <= |s| && s[i..i + |p|] == p
  }

  lemma {:induction false} FindNone(s: string, p: string)
    requires p != []
    ensures Find(s, p).None? <==> forall i: nat :: !OccursAt(s, p, i)
    decreases |s|
  {
    if |p| <= |s| {
      FindNone(s[1..], p);
      assert OccursAt(s, p, 0) <==> s[..|p|] == p;
      forall i: nat ensures OccursAt(s, p, i + 1) <==> OccursAt(s[1..], p, i) {
        if i + 1 + |p| <= |s| {
          assert s[1..][i..i + |p|] == s[i + 1..i + 1 + |p|];
        }
      }
      forall i: nat | Find(s, p).None? ensures !OccursAt(s, p, i) {
        if i > 0 {
          assert !OccursAt(s[1..], p, i - 1);
          assert OccursAt(s, p, i - 1 + 1) <==> OccursAt(s[1..], p, i - 1);
        }
      }
      if Find(s[1..], p).Some? {
        var i: nat :| OccursAt(s[1..], p, i);
        assert OccursAt(s, p, i + 1);
      }
    }
  }

  /** A text that ends with a character the pattern lacks holds nothing of an
      occurrence further on. */
  lemma {:induction false} FindSkip(a: string, x: string, p: string)
    requires p != [] && Find(a, p).None? && (a != [] ==> a[|a| - 1] !in p)
    ensures Find(a + x, p) == if Find(x, p).Some? then Some(|a| + Find(x, p).value) else None
    decreases |a|
  {
    if a == [] {
      assert a + x == x;
    } else {
      assert (a + x)[1..] == a[1..] + x;
      if |a| > 1 {
        assert a[1..][|a[1..]| - 1] == a[|a| - 1];
      }
      FindSkip(a[1..], x, p);
      if |p| <= |a| {
        assert (a + x)[..|p|] == a[..|p|];
      } else if |p| <= |a + x| {
        assert (a + x)[..|p|][|a| - 1] == a[|a| - 1];
      }
    }
  }

  /** A character of the pattern that a text lacks. */
  lemma {:induction false} FindLacking(s: string, p: string, c: char)
    requires c in p && c !in s
    ensures Find(s, p).None?
    decreases |s|
  {
    if |p| <= |s| && s != [] {
      var i :| 0 <= i < |p| && p[i] == c;
      assert s[..|p|][i] == s[i];
      FindLacking(s[1..], p, c);
    }
  }

  predicate Holds(s: string) {
    Find(s, END_TEXT).Some?
  }

  lemma {:induction false} HoldsLater(s: string)
    requires s != [] && (10 <= |s| ==> s[..10] != END_TEXT)
    ensures Holds(s) <==> Holds(s[1..])
  {
  }

  lemma {:induction false} SkipChar(x: char, rest: string)
    requires x != 'E' && !Holds(rest)
    ensures !Holds([x] + rest)
  {
    var s := [x] + rest;
    assert s[1..] == rest;
    assert 10 <= |s| ==> s[..10][0] == x;
    HoldsLater(s);
  }

  lemma {:induction false} DiffersAt(s: string, k: nat)
    requires k < 10 && k < |s| && s[k] != END_TEXT[k]
    ensures 10 <= |s| ==> s[..10] != END_TEXT
  {
    assert 10 <= |s| ==> s[..10][k] == s[k];
  }

  /** No end marker starts inside the name of a property. */
  lemma {:induction false} NotInHead(head: string, v: string)
    requires head != [] && ':' !in head && !(3 <= |head| && head[|head| - 3..] == "END")
    ensures var s := head + ":" + v; 10 <= |s| ==> s[..10] != END_TEXT
  {
    var s := head + ":" + v;
    assert s[|head|] == ':' && forall i | 0 <= i < |head| :: s[i] == head[i];
    if |head| == 3 {
      assert head[0..] == head;
      assert head[0] != 'E' || head[1] != 'N' || head[2] != 'D';
      DiffersAt(s, if head[0] != 'E' then 0 else if head[1] != 'N' then 1 else 2);
    } else {
      DiffersAt(s, if |head| >= 4 then 3 else |head|);
    }
  }

  /** A property of an event hides no end marker unless its value does. */
  lemma {:induction false} HeadIsSafe(head: string, v: string)
    requires ':' !in head && !(3 <= |head| && head[|head| - 3..] == "END") && !Holds(v)
    ensures !Holds(head + ":" + v)
    decreases |head|
  {
    hide Holds;
    var s := head + ":" + v;
    if head == [] {
      SkipChar(':', v);
      assert s == [':'] + v;
    } else {
      NotInHead(head, v);
      assert s[1..] == head[1..] + ":" + v;
      assert 3 <= |head[1..]| ==> head[1..][|head[1..]| - 3..] == head[|head| - 3..];
      HeadIsSafe(head[1..], v);
      HoldsLater(s);
    }
  }

  /** Escaping cannot make an end marker. */
  lemma {:induction false} CodedPrefix(s: string, q: string)
    requires |q| <= |Coded(s, true, true, true)| && Coded(s, true, true, true)[..|q|] == q
    requires '\\' !in q
    ensures |q| <= |s| && s[..|q|] == q
    decreases |q|
  {
    if q != [] {
      var code, rest := Code(s[0], true, true, true), Coded(s[1..], true, true, true);
      assert (code + rest)[0] == q[0];
      assert q == [q[0]] + q[1..];
      assert q[0] in q && code == [s[0]];
      assert rest[..|q| - 1] == q[1..] by {
        assert (code + rest)[1..] == rest;
        assert (code + rest)[..|q|][1..] == rest[..|q| - 1];
      }
      CodedPrefix(s[1..], q[1..]);
      assert s[..|q|] == [s[0]] + s[1..][..|q| - 1];
    }
  }

  lemma {:induction false} CodedNotAtStart(s: string)
    requires s != [] && (10 <= |s| ==> s[..10] != END_TEXT)
    ensures var e := Coded(s, true, true, true); 10 <= |e| ==> e[..10] != END_TEXT
  {
    var e := Coded(s, true, true, true);
    if 10 <= |e| && e[..10] == END_TEXT {
      CodedPrefix(s, END_TEXT);
    }
  }

  lemma {:induction false} CodedIsSafe(s: string)
    requires !Holds(s)
    ensures !Holds(Coded(s, true, true, true))
    decreases |s|
  {
    if s == [] {
    } else {
      NotHeldAtStart(s);
      CodedNotAtStart(s);
      hide Holds;
      CodedIsSafe(s[1..]);
      CodeIsSafe(s[0], Coded(s[1..], true, true, true));
    }
  }

  lemma {:induction false} NotHeldAtStart(s: string)
    requires s != [] && !Holds(s)
    ensures !Holds(s[1..]) && (10 <= |s| ==> s[..10] != END_TEXT)
  {
  }

  lemma {:induction false} CodeIsSafe(c: char, rest: string)
    requires !Holds(rest)
    requires var e := Code(c, true, true, true) + rest; 10 <= |e| ==> e[..10] != END_TEXT
    ensures !Holds(Code(c, true, true, true) + rest)
  {
    hide Holds;
    var code := Code(c, true, true, true);
    if |code| == 2 {
      SkipChar(code[1], rest);
      SkipChar(code[0], [code[1]] + rest);
      assert code + rest == [code[0]] + ([code[1]] + rest);
    } else {
      assert (code + rest)[1..] == rest;
      HoldsLater(code + rest);
    }
  }

  // ---------------------------------------------------------------------
  // Lines and blocks
  // ---------------------------------------------------------------------

  /** A line that is read back as it was written. */
  predicate GoodLine(l: Line) {
    && l.name != "" && UpperCase(l.name) == l.name && !Blank(l.name[0])
    && ':' !in l.name && ';' !in l.name && '\n' !in l.name
    && ':' !in l.params && '\n' !in l.params && (l.params == "" || l.params[0] == ';')
    && '\n' !in l.value
  }

  lemma {:induction false} IndexAfter(a: string, c: char, b: string)
    requires c !in a
    ensures IndexOf(a + [c] + b, c) == Some(|a|)
    decreases |a|
  {
    if a != [] {
      assert (a + [c] + b)[1..] == a[1..] + [c] + b;
      IndexAfter(a[1..], c, b);
    }
  }

  lemma {:induction false} PropertyOfLine(l: Line)
    requires GoodLine(l)
    ensures Property(Text(l)) == Some((l.name, l.value))
  {
    var head := l.name + l.params;
    assert Text(l) == head + [':'] + l.value;
    IndexAfter(head, ':', l.value);
    assert (head + [':'] + l.value)[..|head|] == head && (head + [':'] + l.value)[|head| + 1..] == l.value;
    if l.params != "" {
      assert head == l.name + [';'] + l.params[1..];
      IndexAfter(l.name, ';', l.params[1..]);
      assert head[..|l.name|] == l.name;
    } else {
      assert head == l.name;
    }
  }

  function LineFields(ls: seq<Line>): map<string, string>
    decreases |ls|
  {
    if ls == [] then map[] else LineFields(ls[..|ls| - 1])[ls[|ls| - 1].name := ls[|ls| - 1].value]
  }

  predicate AllGood(ls: seq<Line>) {
    forall i | 0 <= i < |ls| :: GoodLine(ls[i])
  }

  lemma {:induction false} FieldsOfLines(ls: seq<Line>)
    requires AllGood(ls)
    ensures Fields(Texts(ls)) == LineFields(ls)
    decreases |ls|
  {
    hide GoodLine, Property, Text;
    if ls != [] {
      var n := |ls| - 1;
      FieldsOfLines(ls[..n]);
      assert Texts(ls)[..n] == Texts(ls[..n]);
      PropertyOfLine(ls[n]);
    }
  }

  lemma {:induction false} SplitOne(line: string, rest: string)
    requires '\n' !in line
    ensures Split(line + "\r\n" + rest) == [line] + Split(rest)
  {
    var first := line + "\r";
    var s := first + ['\n'] + rest;
    assert line + "\r\n" + rest == s;
    IndexAfter(first, '\n', rest);
    assert s[..|first|] == first && s[|first| + 1..] == rest;
    assert first[..|first| - 1] == line;
  }

  lemma {:induction false} SplitLast(last: string)
    requires '\n' !in last
    ensures Split(Ended([]) + last) == [last]
  {
    assert Ended([]) + last == last;
  }

  lemma {:induction false} Rejoined(lines: seq<string>, last: string)
    requires lines != []
    ensures Ended(lines) + last == lines[0] + "\r\n" + (Ended(lines[1..]) + last)
  {
  }

  /** Lines joined by CR LF are split again. */
  lemma {:induction false} SplitEnded(lines: seq<string>, last: string)
    requires (forall i | 0 <= i < |lines| :: '\n' !in lines[i]) && '\n' !in last
    ensures Split(Ended(lines) + last) == lines + [last]
    decreases |lines|
  {
    hide Split, Ended;
    if lines == [] {
      SplitLast(last);
    } else {
      SplitEnded(lines[1..], last);
      SplitOne(lines[0], Ended(lines[1..]) + last);
      Rejoined(lines, last);
      assert lines + [last] == [lines[0]] + (lines[1..] + [last]);
    }
  }

  lemma {:induction false} EndedConcat(a: seq<string>, b: seq<string>)
    ensures Ended(a + b) == Ended(a) + Ended(b)
    decreases |a|
  {
    if a == [] {
      assert a + b == b;
    } else {
      assert (a + b)[1..] == a[1..] + b;
      EndedConcat(a[1..], b);
      assert a[0] + "\r\n" + (Ended(a[1..]) + Ended(b)) == a[0] + "\r\n" + Ended(a[1..]) + Ended(b);
    }
  }

  /** Lines without a pattern, each ended by CR LF, are without it together. */
  lemma {:induction false} EndedLacks(lines: seq<string>, p: string)
    requires p != [] && '\n' !in p && '\r' !in p && forall i | 0 <= i < |lines| :: Find(lines[i], p).None?
    ensures Find(Ended(lines), p).None?
    ensures Ended(lines) != [] ==> Ended(lines)[|Ended(lines)| - 1] == '\n'
    decreases |lines|
  {
    if lines != [] {
      EndedLacks(lines[1..], p);
      var line := lines[0] + "\r\n";
      LineLacks(lines[0], p);
      FindSkip(line, Ended(lines[1..]), p);
    }
  }

  lemma {:induction false} LineLacks(line: string, p: string)
    requires p != [] && '\n' !in p && '\r' !in p && Find(line, p).None?
    ensures Find(line + "\r\n", p).None?
  {
    FindNone(line, p);
    FindNone(line + "\r\n", p);
    var s := line + "\r\n";
    forall i: nat ensures !OccursAt(s, p, i) {
      if i + |p| <= |line| {
        assert !OccursAt(line, p, i);
        assert s[i..i + |p|] == line[i..i + |p|];
      } else if i + |p| <= |s| {
        assert s[i..i + |p|][|p| - 1] == s[i + |p| - 1];
        assert p[|p| - 1] in p;
      }
    }
  }

  lemma {:induction false} BodyHoldsNoEnd(body: seq<string>)
    requires forall i | 0 <= i < |body| :: !Holds(body[i])
    ensures !Holds("\r\n" + Ended(body))
    ensures ("\r\n" + Ended(body))[|Ended(body)| + 1] == '\n'
  {
    EndedLacks(body, END_TEXT);
    FindLacking("\r\n", END_TEXT, 'E');
    FindSkip("\r\n", Ended(body), END_TEXT);
  }

  /** The marker that closes a block is found where the block ends. */
  lemma {:induction false} FindEnd(block: string, rest: string)
    requires !Holds(block) && block != [] && block[|block| - 1] == '\n'
    ensures Find(block + (END_TEXT + rest), END_TEXT) == Some(|block|)
    ensures (block + (END_TEXT + rest))[..|block|] == block
    ensures (block + (END_TEXT + rest))[|block| + |END_TEXT|..] == rest
  {
    FindSkip(block, END_TEXT + rest, END_TEXT);
    FindAtStart(END_TEXT, rest);
  }

  lemma {:induction false} FindBegin(before: string, rest: string)
    requires Find(before, BEGIN_TEXT).None? && (before != [] ==> before[|before| - 1] == '\n')
    ensures Find(before + (BEGIN_TEXT + rest), BEGIN_TEXT) == Some(|before|)
    ensures (before + (BEGIN_TEXT + rest))[|before| + |BEGIN_TEXT|..] == rest
  {
    FindSkip(before, BEGIN_TEXT + rest, BEGIN_TEXT);
    FindAtStart(BEGIN_TEXT, rest);
  }

  lemma {:induction false} BlockFound(s: string, begin: nat, block: string, rest: string)
    requires Find(s, BEGIN_TEXT) == Some(begin)
    requires var after := s[begin + |BEGIN_TEXT|..];
             && Find(after, END_TEXT) == Some(|block|)
             && after[..|block|] == block && after[|block| + |END_TEXT|..] == rest
    ensures Blocks(s) == [block] + Blocks(rest)
  {
    hide Find;
  }

  /** One event in front of the rest of a calendar gives one block. */
  lemma {:induction false} BlockOfEvent(before: string, body: seq<string>, rest: string)
    requires Find(before, BEGIN_TEXT).None? && (before != [] ==> before[|before| - 1] == '\n')
    requires forall i | 0 <= i < |body| :: !Holds(body[i])
    ensures Blocks(before + (BEGIN_TEXT + ("\r\n" + Ended(body) + (END_TEXT + rest))))
         == ["\r\n" + Ended(body)] + Blocks(rest)
  {
    hide Find, Ended, Blocks, Holds, BEGIN_TEXT, END_TEXT;
    var block := "\r\n" + Ended(body);
    BodyHoldsNoEnd(body);
    FindBegin(before, block + (END_TEXT + rest));
    FindEnd(block, rest);
    BlockFound(before + (BEGIN_TEXT + (block + (END_TEXT + rest))), |before|, block, rest);
  }

  lemma {:induction false} FindAtStart(p: string, x: string)
    ensures Find(p + x, p) == Some(0)
  {
    assert (p + x)[..|p|] == p;
  }

  // ---------------------------------------------------------------------
  // What the lines of an event say
  // ---------------------------------------------------------------------

  /** A date of ten characters: digits but for two dashes. */
  predicate DateShaped(s: string) {
    |s| == 10 && s[4] == '-' && s[7] == '-' && forall i | 0 <= i < 10 && i != 4 && i != 7 :: Digit(s[i])
  }

  /** First and last character stay when the text is trimmed. */
  predicate Trimmed(s: string) {
    s != "" && !WhiteSpace(s[0]) && !WhiteSpace(s[|s| - 1])
  }

  predicate CleanText(s: string) {
    !HasCrLf(s) && !HasFalseBreak(s) && !Holds(s)
  }

  /** A value that needs no escaping: one line without an end marker. */
  predicate PlainValue(s: string) {
    '\n' !in s && !Holds(s)
  }

  /** What the round trip asks of an exported task. */
  predicate Portable(t: ExportedTask, stamp: string, dayAfter: string -> string) {
    && t.dueOn.Some? && DateShaped(t.dueOn.value) && PlainValue(dayAfter(t.dueOn.value))
    && Trimmed(t.title) && CleanText(t.title) && CleanText(t.note)
    && PlainValue(t.id) && PlainValue(stamp)
    && forall i | 0 <= i < |t.tags| :: !HasCrLf(t.tags[i]) && !Holds(t.tags[i])
  }

  lemma {:induction false} CodedHasNoBreak(s: string)
    ensures '\n' !in Coded(s, true, true, true)
    decreases |s|
  {
    if s != [] {
      CodedHasNoBreak(s[1..]);
    }
  }

  lemma {:induction false} EscapedIsPlain(s: string)
    requires !HasCrLf(s) && !Holds(s)
    ensures PlainValue(EscapeText(s))
  {
    EscapeIsCoded(s);
    PlainIffNoCrLf(s);
    CodedHasNoBreak(s);
    CodedIsSafe(s);
  }

  lemma {:induction false} JoinedTagsArePlain(tags: seq<string>)
    requires forall i | 0 <= i < |tags| :: !HasCrLf(tags[i]) && !Holds(tags[i])
    ensures PlainValue(JoinTags(tags))
    decreases |tags|
  {
    if tags != [] {
      EscapedIsPlain(tags[0]);
      JoinedTagsArePlain(tags[1..]);
      if |tags| > 1 {
        var first := EscapeText(tags[0]);
        SeparatedIsPlain(first, ",", JoinTags(tags[1..]));
      }
    }
  }

  /** Two plain values with a character between them that no marker has. */
  lemma {:induction false} SeparatedIsPlain(a: string, c: string, b: string)
    requires PlainValue(a) && PlainValue(b) && |c| == 1 && c[0] !in END_TEXT && c[0] != '\n'
    ensures PlainValue(a + c + b)
  {
    FindNone(a, END_TEXT);
    FindNone(a + c, END_TEXT);
    forall i: nat ensures !OccursAt(a + c, END_TEXT, i) {
      if i + 10 <= |a| {
        assert !OccursAt(a, END_TEXT, i);
        assert (a + c)[i..i + 10] == a[i..i + 10];
      } else if i + 10 <= |a + c| {
        assert (a + c)[i..i + 10][9] == c[0];
        assert END_TEXT[9] in END_TEXT;
      }
    }
    FindSkip(a + c, b, END_TEXT);
  }

  lemma {:induction false} EscapedStaysTrimmed(s: string)
    requires Trimmed(s) && !HasCrLf(s)
    ensures Trimmed(EscapeText(s))
  {
    EscapeIsCoded(s);
    PlainIffNoCrLf(s);
    CodedEnds(s);
  }

  lemma {:induction false} CodedEnds(s: string)
    requires s != []
    ensures var e := Coded(s, true, true, true);
            && e != [] && (e[0] == s[0] || e[0] == '\\')
            && (s[|s| - 1] != '\n' ==> e[|e| - 1] == s[|s| - 1])
    decreases |s|
  {
    if |s| > 1 {
      CodedEnds(s[1..]);
      assert s[1..][|s[1..]| - 1] == s[|s| - 1];
    } else {
      assert s[1..] == [];
    }
  }

  lemma {:induction false} DatePartsStay(s: string)
    requires DateShaped(s)
    ensures var d := NoDashes(s);
            && |d| == 8 && (forall i | 0 <= i < 8 :: Digit(d[i]))
            && d[..4] + "-" + d[4..6] + "-" + d[6..8] == s
  {
    var a, b, c := s[..4], s[5..7], s[8..];
    assert s == a + ("-" + (b + ("-" + c)));
    hide NoDashes;
    DashDropped(a, b + ("-" + c));
    DashDropped(b, c);
    NoDashesIn(c);
  }

  lemma {:induction false} DashDropped(a: string, b: string)
    requires '-' !in a
    ensures NoDashes(a + ("-" + b)) == a + NoDashes(b)
    decreases |a|
  {
    var s := a + ("-" + b);
    if a == [] {
      assert s[1..] == b;
    } else {
      assert s[1..] == a[1..] + ("-" + b);
      DashDropped(a[1..], b);
    }
  }

  lemma {:induction false} NoDashesIn(s: string)
    requires '-' !in s
    ensures NoDashes(s) == s
    decreases |s|
  {
    if s != [] {
      assert s == [s[0]] + s[1..];
      assert s[0] in s;
      NoDashesIn(s[1..]);
    }
  }

  // ---------------------------------------------------------------------
  // Export, then import
  // ---------------------------------------------------------------------

  /** A line of an event between its markers. */
  ghost predicate BodyLine(l: Line) {
    && GoodLine(l) && !Holds(l.value)
    && !(3 <= |l.name + l.params| && (l.name + l.params)[|l.name + l.params| - 3..] == "END")
  }

  lemma {:induction false} BodyLineIsSafe(l: Line)
    requires BodyLine(l)
    ensures !Holds(Text(l)) && ContentLine(Text(l))
  {
    HeadIsSafe(l.name + l.params, l.value);
  }

  predicate Capitals(s: string) {
    forall i | 0 <= i < |s| :: 'A' <= s[i] <= 'Z'
  }

  lemma {:induction false} CapitalsAreGood(l: Line)
    requires l.name != "" && Capitals(l.name) && '\n' !in l.value
    requires l.params == "" || l.params == ";VALUE=DATE"
    ensures GoodLine(l)
  {
    assert UpperCase(l.name) == l.name;
  }

  lemma {:induction false} PlainBodyLine(name: string, value: string)
    requires Capitals(name) && 3 <= |name| && name[|name| - 1] != 'D' && PlainValue(value)
    ensures BodyLine(Line(name, "", value))
  {
    var l := Line(name, "", value);
    CapitalsAreGood(l);
    assert l.name + l.params == name;
    assert name[|name| - 3..][2] == name[|name| - 1];
  }

  lemma {:induction false} DateBodyLine(name: string, value: string)
    requires Capitals(name) && name != "" && PlainValue(value)
    ensures BodyLine(Line(name, ";VALUE=DATE", value))
  {
    var l := Line(name, ";VALUE=DATE", value);
    CapitalsAreGood(l);
    var head := name + ";VALUE=DATE";
    assert head[|head| - 3..][2] == 'E';
  }

  lemma {:induction false} HostIsPlain()
    ensures PlainValue(HOST)
  {
    FindLacking(HOST, END_TEXT, ':');
  }

  lemma {:induction false} UidBodyLine(t: ExportedTask)
    requires PlainValue(t.id)
    ensures BodyLine(UidLine(t))
  {
    hide HOST, END_TEXT, PlainValue, BodyLine;
    HostIsPlain();
    AtIsNoMarker();
    SeparatedIsPlain(t.id, "@", HOST);
    PlainUid(t.id + "@" + HOST);
  }

  lemma {:induction false} AtIsNoMarker()
    ensures '@' !in END_TEXT
  {
  }

  lemma {:induction false} PlainUid(value: string)
    requires PlainValue(value)
    ensures BodyLine(Line("UID", "", value))
  {
    var l := Line("UID", "", value);
    CapitalsAreGood(l);
    assert l.name + l.params == "UID";
    assert (l.name + l.params)[3 - 3..][0] == 'U';
  }

  lemma {:induction false} DigitsArePlain(s: string)
    requires forall i | 0 <= i < |s| :: Digit(s[i])
    ensures PlainValue(s)
  {
    FindLacking(s, END_TEXT, ':');
  }

  lemma {:induction false} StartBodyLine(dueOn: string)
    requires DateShaped(dueOn)
    ensures BodyLine(StartLine(dueOn))
  {
    DatePartsStay(dueOn);
    DigitsArePlain(NoDashes(dueOn));
    hide PlainValue, BodyLine, NoDashes;
    DateBodyLine("DTSTART", NoDashes(dueOn));
  }

  lemma {:induction false} StampBodyLine(stamp: string)
    requires PlainValue(stamp)
    ensures BodyLine(StampLine(stamp))
  {
    hide PlainValue, BodyLine;
    PlainBodyLine("DTSTAMP", stamp);
  }

  lemma {:induction false} EndBodyLine(day: string)
    requires PlainValue(day)
    ensures BodyLine(EndLine(day))
  {
    hide PlainValue, BodyLine;
    DateBodyLine("DTEND", day);
  }

  lemma {:induction false} SummaryBodyLine(t: ExportedTask)
    requires CleanText(t.title)
    ensures BodyLine(SummaryLine(t))
  {
    EscapedIsPlain(t.title);
    hide PlainValue, BodyLine, EscapeText;
    PlainBodyLine("SUMMARY", EscapeText(t.title));
  }

  lemma {:induction false} NoteBodyLine(t: ExportedTask)
    requires CleanText(t.note)
    ensures BodyLine(NoteLine(t))
  {
    EscapedIsPlain(t.note);
    hide PlainValue, BodyLine, EscapeText;
    PlainBodyLine("DESCRIPTION", EscapeText(t.note));
  }

  lemma {:induction false} TagsBodyLine(t: ExportedTask)
    requires forall i | 0 <= i < |t.tags| :: !HasCrLf(t.tags[i]) && !Holds(t.tags[i])
    ensures BodyLine(TagsLine(t))
  {
    JoinedTagsArePlain(t.tags);
    hide PlainValue, BodyLine, JoinTags;
    PlainBodyLine("CATEGORIES", JoinTags(t.tags));
  }

  lemma {:induction false} StatusBodyLine()
    ensures BodyLine(StatusLine())
  {
    FindLacking("COMPLETED", END_TEXT, ':');
    PlainBodyLine("STATUS", "COMPLETED");
  }

  lemma {:induction false} BodyIsSafe(t: ExportedTask, stamp: string, dayAfter: string -> string)
    requires Portable(t, stamp, dayAfter)
    ensures var body := EventBody(t, stamp, dayAfter); forall i | 0 <= i < |body| :: BodyLine(body[i])
  {
    hide BodyLine, UidLine, StampLine, StartLine, EndLine, SummaryLine, NoteLine, TagsLine, StatusLine, PlainValue,
      DateShaped, Trimmed, CleanText, Holds, HasCrLf;
    UidBodyLine(t);
    StampBodyLine(stamp);
    StartBodyLine(t.dueOn.value);
    EndBodyLine(dayAfter(t.dueOn.value));
    SummaryBodyLine(t);
    NoteBodyLine(t);
    TagsBodyLine(t);
    StatusBodyLine();
  }

  // --- looking a property up ---

  lemma {:induction false} FieldIs(ls: seq<Line>, i: nat)
    requires i < |ls| && forall j | i < j < |ls| :: ls[j].name != ls[i].name
    ensures ls[i].name in LineFields(ls) && LineFields(ls)[ls[i].name] == ls[i].value
    decreases |ls|
  {
    if i < |ls| - 1 {
      FieldIs(ls[..|ls| - 1], i);
    }
  }

  lemma {:induction false} FieldAbsent(ls: seq<Line>, name: string)
    requires forall j | 0 <= j < |ls| :: ls[j].name != name
    ensures name !in LineFields(ls)
    decreases |ls|
  {
    if ls != [] {
      FieldAbsent(ls[..|ls| - 1], name);
    }
  }

  lemma {:induction false} SummaryField(t: ExportedTask, stamp: string, dayAfter: string -> string)
    requires t.dueOn.Some?
    ensures Get(LineFields(Event(t, stamp, dayAfter)), "SUMMARY") == EscapeText(t.title)
  {
    hide EscapeText, NoDashes, JoinTags, LineFields, HOST;
    FieldIs(Event(t, stamp, dayAfter), 5);
  }

  lemma {:induction false} StartField(t: ExportedTask, stamp: string, dayAfter: string -> string)
    requires t.dueOn.Some?
    ensures Get(LineFields(Event(t, stamp, dayAfter)), "DTSTART") == NoDashes(t.dueOn.value)
  {
    hide EscapeText, NoDashes, JoinTags, LineFields, HOST;
    FieldIs(Event(t, stamp, dayAfter), 3);
  }

  lemma {:induction false} NoteField(t: ExportedTask, stamp: string, dayAfter: string -> string)
    requires t.dueOn.Some?
    ensures Get(LineFields(Event(t, stamp, dayAfter)), "DESCRIPTION") == if t.note != "" then EscapeText(t.note) else ""
  {
    hide EscapeText, NoDashes, JoinTags, LineFields, HOST;
    if t.note != "" {
      FieldIs(Event(t, stamp, dayAfter), 6);
    } else {
      FieldAbsent(Event(t, stamp, dayAfter), "DESCRIPTION");
    }
  }

  lemma {:induction false} TrimKeeps(s: string)
    requires Trimmed(s)
    ensures Trim(s) == s
  {
  }

  lemma {:induction false} MarkerTexts()
    ensures Text(BEGIN_EVENT) == BEGIN_TEXT && Text(END_EVENT) == END_TEXT
    ensures GoodLine(BEGIN_EVENT) && GoodLine(END_EVENT)
    ensures '\n' !in BEGIN_TEXT && '\n' !in END_TEXT
  {
    assert "BEGIN" + "" + ":" + "VEVENT" == BEGIN_TEXT;
    assert "END" + "" + ":" + "VEVENT" == END_TEXT;
    CapitalsAreGood(BEGIN_EVENT);
    CapitalsAreGood(END_EVENT);
  }

  lemma {:induction false} EventTexts(t: ExportedTask, stamp: string, dayAfter: string -> string)
    requires t.dueOn.Some?
    ensures var body := Texts(EventBody(t, stamp, dayAfter));
            && Texts(Event(t, stamp, dayAfter)) == [BEGIN_TEXT] + body + [END_TEXT]
            && Ended([BEGIN_TEXT] + body) == BEGIN_TEXT + ("\r\n" + Ended(body))
  {
    MarkerTexts();
    hide BEGIN_EVENT, END_EVENT, BEGIN_TEXT, END_TEXT, EventBody, Text;
    var body := Texts(EventBody(t, stamp, dayAfter));
    assert ([BEGIN_TEXT] + body)[1..] == body;
    assert BEGIN_TEXT + "\r\n" + Ended(body) == BEGIN_TEXT + ("\r\n" + Ended(body));
  }

  lemma {:induction false} EventIsGood(t: ExportedTask, stamp: string, dayAfter: string -> string)
    requires Portable(t, stamp, dayAfter)
    ensures AllGood(Event(t, stamp, dayAfter))
    ensures var body := Texts(EventBody(t, stamp, dayAfter)); forall i | 0 <= i < |body| :: '\n' !in body[i]
  {
    BodyIsSafe(t, stamp, dayAfter);
    MarkerTexts();
    hide Portable, EventBody, GoodLine, Holds, BEGIN_EVENT, END_EVENT, ContentLine;
    var ls, lines := Event(t, stamp, dayAfter), EventBody(t, stamp, dayAfter);
    forall i | 0 <= i < |ls| ensures GoodLine(ls[i]) {
      if 1 <= i < |ls| - 1 {
        assert ls[i] == lines[i - 1];
      }
    }
    forall i | 0 <= i < |lines| ensures '\n' !in Texts(lines)[i] {
      BodyLineIsOneLine(lines[i]);
    }
  }

  lemma {:induction false} BodyLineIsOneLine(l: Line)
    requires BodyLine(l)
    ensures '\n' !in Text(l)
  {
    BodyLineIsSafe(l);
  }

  lemma {:induction false} PortableIsDated(t: ExportedTask, stamp: string, dayAfter: string -> string)
    requires Portable(t, stamp, dayAfter)
    ensures t.dueOn.Some?
  {
  }

  /** The lines that a block splits into are those of the event. */
  lemma {:induction false} BlockSplits(t: ExportedTask, stamp: string, dayAfter: string -> string)
    requires Portable(t, stamp, dayAfter)
    ensures var body := Texts(EventBody(t, stamp, dayAfter));
            Fields(Split(BEGIN_TEXT + ("\r\n" + Ended(body)) + END_TEXT)) == LineFields(Event(t, stamp, dayAfter))
  {
    PortableIsDated(t, stamp, dayAfter);
    hide Portable, EventBody, Event, Split, Fields, LineFields, Ended, AllGood, GoodLine, BEGIN_TEXT, END_TEXT,
      BEGIN_EVENT,
      END_EVENT;
    EventIsGood(t, stamp, dayAfter);
    EventTexts(t, stamp, dayAfter);
    MarkerTexts();
    FieldsOfLines(Event(t, stamp, dayAfter));
    var body := Texts(EventBody(t, stamp, dayAfter));
    var lines := [BEGIN_TEXT] + body;
    forall i | 0 <= i < |lines| ensures '\n' !in lines[i] {
      if i > 0 {
        assert lines[i] == body[i - 1];
      }
    }
    SplitEnded(lines, END_TEXT);
  }

  /** A block gives back title, note and due date of its task. */
  lemma {:induction false} TaskOfBlock(t: ExportedTask, stamp: string, dayAfter: string -> string)
    requires Portable(t, stamp, dayAfter)
    ensures TaskOf("\r\n" + Ended(Texts(EventBody(t, stamp, dayAfter))))
         == Some(ImportedTask(t.title, t.note, t.dueOn.value))
  {
    BlockSplits(t, stamp, dayAfter);
    SummaryField(t, stamp, dayAfter);
    StartField(t, stamp, dayAfter);
    NoteField(t, stamp, dayAfter);
    TitleComesBack(t.title);
    TextRoundTrips(t.note);
    EmptyUnescaped();
    DateComesBack(t.dueOn.value);
    hide EventBody, Event, Ended, Split, Fields, EscapeText, Unescape, NoDashes, LineFields, DateShaped, Trim,
      BEGIN_TEXT,
      END_TEXT, Trimmed, Holds;
  }

  lemma {:induction false} TitleComesBack(title: string)
    requires Trimmed(title) && CleanText(title)
    ensures Unescape(Trim(EscapeText(title))) == title && title != ""
  {
    TextRoundTrips(title);
    EscapedStaysTrimmed(title);
    hide EscapeText, Unescape;
    TrimKeeps(EscapeText(title));
  }

  lemma {:induction false} DateComesBack(dueOn: string)
    requires DateShaped(dueOn)
    ensures var start := Trim(NoDashes(dueOn));
            && |start| == 8 && (forall i | 0 <= i < 8 :: Digit(start[i]))
            && start[..4] + "-" + start[4..6] + "-" + start[6..8] == dueOn
  {
    DatePartsStay(dueOn);
    var d := NoDashes(dueOn);
    hide NoDashes, DateShaped;
    assert Digit(d[0]) && Digit(d[7]);
    TrimKeeps(d);
  }

  lemma {:induction false} EmptyUnescaped()
    ensures Unescape("") == ""
  {
  }

  // --- the whole calendar ---

  /** Title, note and due date of each exported task. */
  function Expected(ts: seq<ExportedTask>): seq<ImportedTask>
    decreases |ts|
  {
    if ts == [] then []
    else (if Exported(ts[0]) then [ImportedTask(ts[0].title, ts[0].note, ts[0].dueOn.value)] else [])
         + Expected(ts[1..])
  }

  ghost predicate AllPortable(ts: seq<ExportedTask>, stamp: string, dayAfter: string -> string) {
    forall i | 0 <= i < |ts| && Exported(ts[i]) :: Portable(ts[i], stamp, dayAfter)
  }

  /** What stands in an unfolded calendar from the events on. */
  function Tail(ts: seq<ExportedTask>, stamp: string, dayAfter: string -> string): string {
    Ended(Texts(Events(ts, stamp, dayAfter))) + Ended(Texts(FOOTER))
  }

  lemma {:induction false} TextsConcat(a: seq<Line>, b: seq<Line>)
    ensures Texts(a + b) == Texts(a) + Texts(b)
  {
  }

  lemma {:induction false} EventInTail(ts: seq<ExportedTask>, stamp: string, dayAfter: string -> string)
    requires ts != [] && Exported(ts[0])
    ensures var body := Texts(EventBody(ts[0], stamp, dayAfter));
            Tail(ts, stamp, dayAfter)
            == BEGIN_TEXT + ("\r\n" + Ended(body) + (END_TEXT + ("\r\n" + Tail(ts[1..], stamp, dayAfter))))
  {
    var more := Texts(Events(ts[1..], stamp, dayAfter));
    var body := Texts(EventBody(ts[0], stamp, dayAfter));
    TextsConcat(Event(ts[0], stamp, dayAfter), Events(ts[1..], stamp, dayAfter));
    EventTexts(ts[0], stamp, dayAfter);
    EndedConcat([BEGIN_TEXT] + body + [END_TEXT], more);
    EndedConcat([BEGIN_TEXT] + body, [END_TEXT]);
    EndedOne(END_TEXT);
    hide EventBody, Event, Texts, Ended, BEGIN_TEXT, END_TEXT, Exported;
    var tail := Ended(Texts(FOOTER));
    Regroup(BEGIN_TEXT, "\r\n" + Ended(body), END_TEXT, Ended(more), tail);
  }

  lemma {:induction false} Regroup(a: string, b: string, c: string, d: string, e: string)
    ensures (a + b) + (c + "\r\n") + d + e == a + (b + (c + ("\r\n" + (d + e))))
  {
  }

  lemma {:induction false} EndedOne(line: string)
    ensures Ended([line]) == line + "\r\n"
  {
    assert [line][1..] == [];
  }

  lemma {:induction false} TailGivesTasks(before: string, ts: seq<ExportedTask>, stamp: string,
                                          dayAfter: string -> string)
    requires Find(before, BEGIN_TEXT).None? && (before != [] ==> before[|before| - 1] == '\n')
    requires AllPortable(ts, stamp, dayAfter)
    ensures Tasks(Blocks(before + Tail(ts, stamp, dayAfter))) == Expected(ts)
    decreases |ts|
  {
    hide Find, TaskOf, EventBody, Event, Portable;
    if ts == [] {
      FooterHasNoEvent(before, stamp, dayAfter);
    } else if !Exported(ts[0]) {
      assert Events(ts, stamp, dayAfter) == Events(ts[1..], stamp, dayAfter) && Expected(ts) == Expected(ts[1..]);
      TailGivesTasks(before, ts[1..], stamp, dayAfter);
    } else {
      var body := Texts(EventBody(ts[0], stamp, dayAfter));
      EventInTail(ts, stamp, dayAfter);
      SafeBody(ts[0], stamp, dayAfter);
      hide Ended, Events, Tail;
      NewLineHasNoEvent();
      BlockOfEvent(before, body, "\r\n" + Tail(ts[1..], stamp, dayAfter));
      hide Blocks;
      TailGivesTasks("\r\n", ts[1..], stamp, dayAfter);
      TaskOfBlock(ts[0], stamp, dayAfter);
      var block, more := "\r\n" + Ended(body), Blocks("\r\n" + Tail(ts[1..], stamp, dayAfter));
      assert ([block] + more)[1..] == more;
    }
  }

  lemma {:induction false} SafeBody(t: ExportedTask, stamp: string, dayAfter: string -> string)
    requires Portable(t, stamp, dayAfter)
    ensures var body := Texts(EventBody(t, stamp, dayAfter)); forall i | 0 <= i < |body| :: !Holds(body[i])
  {
    BodyIsSafe(t, stamp, dayAfter);
    var lines := EventBody(t, stamp, dayAfter);
    hide EventBody, Portable, BodyLine, Holds;
    forall i | 0 <= i < |lines| ensures !Holds(Texts(lines)[i]) {
      BodyLineIsSafe(lines[i]);
    }
  }

  lemma {:induction false} NewLineHasNoEvent()
    ensures Find("\r\n", BEGIN_TEXT).None?
  {
    FindLacking("\r\n", BEGIN_TEXT, 'B');
  }

  ghost predicate AllContent(lines: seq<string>) {
    forall i | 0 <= i < |lines| :: ContentLine(lines[i])
  }

  /** The four lines of the header and the last line: none begins an event, and
      none continues another. */
  ghost predicate Outside(l: Line) {
    Find(Text(l), BEGIN_TEXT).None? && ContentLine(Text(l))
  }

  /** A property whose name and value lack some letter of the marker. */
  lemma {:induction false} OutsideByLetter(l: Line, c: char)
    requires l.params == "" && l.name != "" && c in BEGIN_TEXT && c != ':' && c !in l.name && c !in l.value
    requires !Blank(l.name[0]) && '\n' !in l.name && '\n' !in l.value
    ensures Outside(l)
  {
    hide BEGIN_TEXT;
    FindLacking(Text(l), BEGIN_TEXT, c);
  }

  lemma {:induction false} CalendarIsOutside()
    ensures Outside(CALENDAR)
  {
    LettersOfMarker();
    hide Outside, BEGIN_TEXT;
    OutsideByLetter(CALENDAR, 'T');
  }

  lemma {:induction false} LettersOfMarker()
    ensures 'B' in BEGIN_TEXT && 'T' in BEGIN_TEXT
  {
    assert BEGIN_TEXT[0] == 'B' && BEGIN_TEXT[11] == 'T';
  }

  lemma {:induction false} VersionIsOutside()
    ensures Outside(VERSION)
  {
    LettersOfMarker();
    hide Outside, BEGIN_TEXT;
    OutsideByLetter(VERSION, 'B');
  }

  lemma {:induction false} ProductIsOutside()
    ensures Outside(PRODUCT)
  {
    LettersOfMarker();
    hide Outside, BEGIN_TEXT;
    OutsideByLetter(PRODUCT, 'B');
  }

  lemma {:induction false} ScaleIsOutside()
    ensures Outside(SCALE)
  {
    LettersOfMarker();
    hide Outside, BEGIN_TEXT;
    OutsideByLetter(SCALE, 'B');
  }

  lemma {:induction false} CalendarEndIsOutside()
    ensures Outside(CALENDAR_END)
  {
    LettersOfMarker();
    hide Outside, BEGIN_TEXT;
    OutsideByLetter(CALENDAR_END, 'B');
  }

  lemma {:induction false} OutsideLines(ls: seq<Line>)
    requires forall i | 0 <= i < |ls| :: Outside(ls[i])
    ensures Find(Ended(Texts(ls)), BEGIN_TEXT).None?
    ensures ls != [] ==> Ended(Texts(ls)) != [] && Ended(Texts(ls))[|Ended(Texts(ls))| - 1] == '\n'
    ensures AllContent(Texts(ls))
  {
    hide Text, Find;
    EndedLacks(Texts(ls), BEGIN_TEXT);
  }

  lemma {:induction false} HeaderHasNoEvent()
    ensures Find(Ended(Texts(HEADER)), BEGIN_TEXT).None?
    ensures Ended(Texts(HEADER)) != [] && Ended(Texts(HEADER))[|Ended(Texts(HEADER))| - 1] == '\n'
    ensures AllContent(Texts(HEADER))
  {
    hide Outside, CALENDAR, VERSION, PRODUCT, SCALE, ContentLine, Texts, Find, Ended;
    CalendarIsOutside();
    VersionIsOutside();
    ProductIsOutside();
    ScaleIsOutside();
    OutsideLines(HEADER);
  }

  lemma {:induction false} FooterHasNoEvent(before: string, stamp: string, dayAfter: string -> string)
    requires Find(before, BEGIN_TEXT).None? && (before != [] ==> before[|before| - 1] == '\n')
    ensures Blocks(before + Tail([], stamp, dayAfter)) == []
    ensures AllContent(Texts(FOOTER))
  {
    hide Outside, CALENDAR_END, ContentLine, Find;
    CalendarEndIsOutside();
    OutsideLines(FOOTER);
    var footer := Ended(Texts(FOOTER));
    assert Ended(Texts([])) + footer == footer;
    BreakNotInBegin();
    FindSkip(before, footer, BEGIN_TEXT);
  }

  lemma {:induction false} BreakNotInBegin()
    ensures '\n' !in BEGIN_TEXT
  {
  }

  lemma {:induction false} AllContentConcat(a: seq<string>, b: seq<string>)
    requires AllContent(a) && AllContent(b)
    ensures AllContent(a + b)
  {
  }

  lemma {:induction false} EventIsContent(t: ExportedTask, stamp: string, dayAfter: string -> string)
    requires Portable(t, stamp, dayAfter)
    ensures AllContent(Texts(Event(t, stamp, dayAfter)))
  {
    EventIsGood(t, stamp, dayAfter);
    var event := Event(t, stamp, dayAfter);
    hide Event, EventBody, Portable, GoodLine, ContentLine, Text;
    forall i | 0 <= i < |event| ensures ContentLine(Texts(event)[i]) {
      GoodIsContent(event[i]);
    }
  }

  lemma {:induction false} GoodIsContent(l: Line)
    requires GoodLine(l)
    ensures ContentLine(Text(l))
  {
  }

  lemma {:induction false} EventsAreContent(ts: seq<ExportedTask>, stamp: string, dayAfter: string -> string)
    requires AllPortable(ts, stamp, dayAfter)
    ensures AllContent(Texts(Events(ts, stamp, dayAfter)))
    decreases |ts|
  {
    if ts == [] {
      assert Texts([]) == [];
    } else {
      hide Portable, EventBody, Text, Event, AllContent;
      EventsAreContent(ts[1..], stamp, dayAfter);
      var more := Events(ts[1..], stamp, dayAfter);
      if Exported(ts[0]) {
        EventIsContent(ts[0], stamp, dayAfter);
        TextsConcat(Event(ts[0], stamp, dayAfter), more);
        AllContentConcat(Texts(Event(ts[0], stamp, dayAfter)), Texts(more));
      } else {
        assert Events(ts, stamp, dayAfter) == more;
      }
    }
  }

  lemma {:induction false} UnfoldContent(lines: seq<string>)
    requires AllContent(lines)
    ensures Unfold(Ended(Folded(lines))) == Ended(lines)
  {
    UnfoldFolded(lines);
  }

  /** The unfolded calendar. */
  lemma {:induction false} CalendarUnfolds(ts: seq<ExportedTask>, stamp: string, dayAfter: string -> string)
    requires AllPortable(ts, stamp, dayAfter)
    ensures Unfold(ToIcs(ts, stamp, dayAfter)) == Ended(Texts(HEADER)) + Tail(ts, stamp, dayAfter)
  {
    hide Texts, Events, ContentLine, AllContent, HEADER, FOOTER, Find, Blocks, Ended, Unfold, Folded, AllPortable;
    var header, events, footer := Texts(HEADER), Texts(Events(ts, stamp, dayAfter)), Texts(FOOTER);
    TextsConcat(HEADER + Events(ts, stamp, dayAfter), FOOTER);
    TextsConcat(HEADER, Events(ts, stamp, dayAfter));
    EventsAreContent(ts, stamp, dayAfter);
    HeaderHasNoEvent();
    NewLineHasNoEvent();
    FooterHasNoEvent("\r\n", stamp, dayAfter);
    AllContentConcat(header, events);
    AllContentConcat(header + events, footer);
    UnfoldContent(header + events + footer);
    EndedConcat(header + events, footer);
    EndedConcat(header, events);
    assert Ended(header) + Ended(events) + Ended(footer) == Ended(header) + (Ended(events) + Ended(footer));
  }

  /** Importing an exported calendar gives title, note and due date of every live
      dated task, in order. */
  lemma {:induction false} CalendarRoundTrips(ts: seq<ExportedTask>, stamp: string, dayAfter: string -> string)
    requires AllPortable(ts, stamp, dayAfter)
    ensures FromIcs(ToIcs(ts, stamp, dayAfter)) == Expected(ts)
  {
    CalendarUnfolds(ts, stamp, dayAfter);
    HeaderHasNoEvent();
    hide ToIcs, Tail, Find, Ended, Texts, AllPortable;
    TailGivesTasks(Ended(Texts(HEADER)), ts, stamp, dayAfter);
  }

  // ---------------------------------------------------------------------
  // The export as it is written
  // ---------------------------------------------------------------------

  lemma {:induction false} EventsNext(ts: seq<ExportedTask>, i: nat, stamp: string, dayAfter: string -> string)
    requires i < |ts|
    ensures Events(ts[..i + 1], stamp, dayAfter)
         == Events(ts[..i], stamp, dayAfter) + if Exported(ts[i]) then Event(ts[i], stamp, dayAfter) else []
    decreases i
  {
    hide Event;
    if i > 0 {
      EventsNext(ts[1..], i - 1, stamp, dayAfter);
      assert ts[..i + 1][1..] == ts[1..][..i] && ts[..i][1..] == ts[1..][..i - 1];
    } else {
      assert ts[..1][1..] == [];
      assert Events([], stamp, dayAfter) == [];
    }
  }

  /** The lines pushed for one task. */
  method PushEvent(t: ExportedTask, stamp: string, dayAfter: string -> string) returns (event: seq<Line>)
    requires t.dueOn.Some?
    ensures event == Event(t, stamp, dayAfter)
  {
    hide UidLine, StampLine, StartLine, EndLine, SummaryLine, NoteLine, TagsLine, StatusLine;
    event := [BEGIN_EVENT, UidLine(t), StampLine(stamp), StartLine(t.dueOn.value), EndLine(dayAfter(t.dueOn.value)),
              SummaryLine(t)];
    if t.note != "" {
      event := event + [NoteLine(t)];
    }
    if t.tags != [] {
      event := event + [TagsLine(t)];
    }
    if t.completed {
      event := event + [StatusLine()];
    }
    event := event + [END_EVENT];
  }

  /** `toIcs`: push the lines, fold each, end each with CR LF. */
  method ExportCalendar(ts: seq<ExportedTask>, stamp: string, dayAfter: string -> string) returns (text: string)
    ensures text == ToIcs(ts, stamp, dayAfter)
  {
    hide HEADER, FOOTER, Event;
    var lines := HEADER;
    for i := 0 to |ts|
      invariant lines == HEADER + Events(ts[..i], stamp, dayAfter)
    {
      hide Events;
      EventsNext(ts, i, stamp, dayAfter);
      if !ts[i].deleted && ts[i].dueOn.Some? && ts[i].dueOn.value != "" {
        var event := PushEvent(ts[i], stamp, dayAfter);
        lines := lines + event;
      }
    }
    assert ts[..|ts|] == ts;
    lines := lines + FOOTER;
    text := FoldAll(Texts(lines));
  }

  method FoldAll(lines: seq<string>) returns (text: string)
    ensures text == Ended(Folded(lines))
  {
    text := "";
    var folded: seq<string> := [];
    for i := 0 to |lines|
      invariant folded == Folded(lines[..i]) && text == Ended(folded)
    {
      var line := FoldIcsLine(lines[i]);
      EndedConcat(folded, [line]);
      assert [line][1..] == [];
      assert Folded(lines[..i + 1]) == folded + [line];
      folded := folded + [line];
      text := text + (line + "\r\n");
    }
    assert lines[..|lines|] == lines;
  }
}
