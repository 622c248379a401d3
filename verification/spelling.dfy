/**
 A run in which two clients that have read everything show a live task with
 different due dates: another device sent the day as 2024-1-1.
 */
module Spelling {
  import opened Prelude
  import opened Rows
  import opened Mutations
  import opened Server
  import opened Ledger
  import opened Client
  import opened Merge
  import opened Projection
  import opened Devices
  import opened Outbox
  import opened Views
  import opened Protocol
  import opened Guarantees

  function Day(s: string): Option<string> {
    if s == "2024-1-1" || s == "2024-01-01" then Some("2024-01-01") else None
  }

  /** A parser of days that reads both spellings; nothing else matters here. */
  ghost function Lenient(): Rules {
    assert Faithful(Day) by {
      assert Day("2024-01-01") == Some("2024-01-01");
    }
    Libraries(s => None, Day, s => false, s => false, s => false, ts => Some(ts), k => false)
  }

  const TEA := Key(Task, "tea")
  const MAKE := Change(TEA, Create, map[Title := Text("Tea")])
  const DATE := Change(TEA, Patch, map[DueOn := Text("2024-1-1")])
  const OPS := [Mutation(OpId("x", 1), 1, MAKE), Mutation(OpId("x", 2), 2, DATE)]

  /** The columns of the task as it is created. */
  function Made(): Fields {
    EmptyFields(Task)[Title := Text("Tea")]
  }

  function Log(): seq<Entry> {
    [Entry(OpId("x", 1), MAKE.(patch := Made())), Entry(OpId("x", 2), DATE)]
  }

  lemma {:induction false} MadeHasColumns(v: Fields)
    requires v.Keys == Made().Keys
    ensures v.Keys == Columns(Task)
  {
    var columns := {ListId, Title, Note, Status, Important, TagList, DueOn, RemindAt, RemindTimezone, Rank, SeriesId,
                    OccurrenceKey, Recurrence, CompletedAt};
    assert Made().Keys == columns;
    forall f ensures f in Columns(Task) <==> f in columns {
      assert f in Columns(Task) <==> Mutations.Column(Task, f);
    }
  }

  lemma {:induction false} EmptyCellIsValid(f: Field)
    requires f in EmptyFields(Task) && f != Title
    ensures ValidCell(Lenient(), Task, f, EmptyFields(Task)[f])
  {
    assert Lenient().normalizeTags([]) == Some([]);
    hide Lenient;
    assert "a0"[0] == 'a' && NonBlankText("a0", 128);
  }

  lemma {:induction false} TitleIsValid()
    ensures ValidCell(Lenient(), Task, Title, Text("Tea"))
  {
    hide Lenient;
    assert "Tea"[0] == 'T' && NonBlankText("Tea", 1000);
  }

  lemma {:induction false} DayIsValid()
    ensures ValidCell(Lenient(), Task, DueOn, Text("2024-01-01"))
  {
    assert |"2024-01-01"| == 10 && Day("2024-01-01") == Some("2024-01-01");
    assert Lenient().date("2024-01-01") == Some("2024-01-01");
  }

  lemma {:induction false} CellIsValid(v: Fields, f: Field)
    requires v == Made() || v == Made()[DueOn := Text("2024-01-01")]
    requires f in v
    ensures ValidCell(Lenient(), Task, f, v[f])
  {
    hide ValidCell, Lenient, EmptyFields;
    if v[f] == Text("2024-01-01") && f == DueOn {
      DayIsValid();
    } else if f == Title {
      TitleIsValid();
    } else {
      assert f in EmptyFields(Task) || f == DueOn;
      EmptyHasDay();
      EmptyCellIsValid(f);
    }
  }

  lemma {:induction false} EmptyHasDay()
    ensures DueOn in EmptyFields(Task)
  {
  }

  lemma {:induction false} MadeIsValid(v: Fields)
    requires v == Made() || v == Made()[DueOn := Text("2024-01-01")]
    ensures ValidFields(Lenient(), Task, v)
  {
    assert v.Keys == Made().Keys;
    MadeHasColumns(v);
    hide ValidCell, Made, Columns, Lenient;
    forall f | f in v ensures ValidCell(Lenient(), Task, f, v[f]) {
      CellIsValid(v, f);
    }
  }

  lemma {:induction false} MergesMade()
    ensures Mutations.Merge(Lenient(), Task, EmptyFields(Task), MAKE.patch) == Ok((Made(), MAKE.patch))
  {
    MadeIsValid(Made());
    hide ValidFields;
    assert Parsed(Lenient(), MAKE.patch) == MAKE.patch;
    assert EmptyFields(Task) + MAKE.patch == Made();
  }

  lemma {:induction false} MergesDate()
    ensures Mutations.Merge(Lenient(), Task, Made(), DATE.patch)
         == Ok((Made()[DueOn := Text("2024-01-01")], DATE.patch))
  {
    MadeIsValid(Made()[DueOn := Text("2024-01-01")]);
    hide ValidFields;
    assert Parsed(Lenient(), DATE.patch) == map[DueOn := Text("2024-01-01")];
    assert Made() + Parsed(Lenient(), DATE.patch) == Made()[DueOn := Text("2024-01-01")];
  }

  lemma {:induction false} Storable(t: Table, v: Fields, creating: bool)
    requires forall o | o in t :: o == TEA
    requires ListId in v && v[ListId] == Null
    ensures CheckStorable(Lenient(), t, TEA, v, creating) == None
  {
    hide SameCell, Live;
  }

  lemma {:induction false} Columnless(v: Fields)
    requires v == Made() || v == Made()[DueOn := Text("2024-01-01")]
    ensures ListId in v && v[ListId] == Null
  {
  }

  lemma {:induction false} CreateIsApplied(r: Rules, t: Table, c: Change, seqNo: nat, v: Fields, logged: Fields)
    requires c.kind == Create && c.key.entity == Task && c.key !in t && HasRequired(Task, c.patch)
    requires Mutations.Merge(r, Task, EmptyFields(Task), c.patch) == Ok((v, logged))
    requires CheckStorable(r, t, c.key, v, true) == None && !NilParent(Task, v)
    ensures ApplyMutation(r, t, c, seqNo) == Ok(Write(t[c.key := Row(Data(false, v), seqNo)], v))
  {
    hide Mutations.Merge, CheckStorable, EmptyFields, HasRequired, NilParent;
  }

  lemma {:induction false} Creates()
    ensures ApplyMutation(Lenient(), map[], MAKE, 1) == Ok(Write(map[TEA := Row(Data(false, Made()), 1)], Made()))
  {
    Columnless(Made());
    hide Mutations.Merge, CheckStorable, Made, Lenient, EmptyFields, ApplyMutation;
    MergesMade();
    Storable(map[], Made(), true);
    CreateIsApplied(Lenient(), map[], MAKE, 1, Made(), MAKE.patch);
    OneRow(Row(Data(false, Made()), 1));
  }

  lemma {:induction false} OneRow(row: Row)
    ensures var none: Table := map[]; none[TEA := row] == map[TEA := row]
  {
  }

  lemma {:induction false} PatchIsApplied(r: Rules, t: Table, c: Change, seqNo: nat, v: Fields)
    requires c.kind == Patch && c.key.entity == Task && c.key in t && !t[c.key].data.deleted && c.patch != map[]
    requires Mutations.Merge(r, Task, t[c.key].data.fields, c.patch) == Ok((v, c.patch))
    requires CheckStorable(r, t, c.key, v, false) == None && !NilParent(Task, v)
    ensures ApplyMutation(r, t, c, seqNo) == Ok(Write(t[c.key := Row(Data(false, v), seqNo)], c.patch))
  {
    hide Mutations.Merge, CheckStorable, NilParent;
  }

  lemma {:induction false} Dates()
    ensures var t: Table := map[TEA := Row(Data(false, Made()), 1)];
            var dated := Made()[DueOn := Text("2024-01-01")];
            ApplyMutation(Lenient(), t, DATE, 2) == Ok(Write(t[TEA := Row(Data(false, dated), 2)], DATE.patch))
  {
    Columnless(Made()[DueOn := Text("2024-01-01")]);
    hide Mutations.Merge, CheckStorable, Made, Lenient, ApplyMutation;
    MergesDate();
    var t: Table := map[TEA := Row(Data(false, Made()), 1)];
    Storable(t, Made()[DueOn := Text("2024-01-01")], false);
    assert DueOn in DATE.patch && DATE.patch != map[];
    PatchIsApplied(Lenient(), t, DATE, 2, Made()[DueOn := Text("2024-01-01")]);
  }

  // ---------------------------------------------------------------------
  // The other device's request
  // ---------------------------------------------------------------------

  function Registered(): Account {
    Account(map[], map[], 1, 0, map[], map["a" := 0, "x" := 0], {}, false)
  }

  function AfterMake(): Account {
    var before := Registered();
    before.(table := before.table[TEA := Row(Data(false, Made()), 1)],
            log := before.log[1 := Log()[0]],
            nextSeq := 2,
            receipts := before.receipts[OpId("x", 1) := Receipt("x", 1, Applied(1))],
            marks := before.marks["x" := 1])
  }

  function AfterDate(): Account {
    var before := AfterMake();
    before.(table := before.table[TEA := Row(Data(false, Made()[DueOn := Text("2024-01-01")]), 2)],
            log := before.log[2 := Log()[1]],
            nextSeq := 3,
            receipts := before.receipts[OpId("x", 2) := Receipt("x", 2, Applied(2))],
            marks := before.marks["x" := 2])
  }

  function Dated(): Site {
    Site(AfterDate(), Log(), map[OpId("x", 1) := Applied(1)][OpId("x", 2) := Applied(2)])
  }

  lemma {:induction false} HandlesMake()
    ensures Handle(Lenient(), Registered(), "x", OPS[0]) == Ok((AfterMake(), Ack(OpId("x", 1), Done(Applied(1)))))
  {
    Creates();
    hide ApplyMutation, Made, Lenient;
    var t: Table := map[];
    assert t[TEA := Row(Data(false, Made()), 1)] == map[TEA := Row(Data(false, Made()), 1)];
    assert !SeqTaken(Registered().receipts, "x", 1);
    assert MAKE.(patch := Made()) == Log()[0].change;
  }

  lemma {:induction false} HandlesDate()
    ensures Handle(Lenient(), AfterMake(), "x", OPS[1]) == Ok((AfterDate(), Ack(OpId("x", 2), Done(Applied(2)))))
  {
    Dates();
    hide ApplyMutation, Made, Lenient;
    var t: Table := map[];
    assert t[TEA := Row(Data(false, Made()), 1)] == map[TEA := Row(Data(false, Made()), 1)];
    assert AfterMake().receipts.Keys == {OpId("x", 1)};
    assert DATE.(patch := DATE.patch) == Log()[1].change;
    assert !SeqTaken(AfterMake().receipts, "x", 2);
  }

  lemma {:induction false} ProcessesBoth()
    ensures SiteProcess(Lenient(), Site(Registered(), [], map[]), "x", OPS).Ok?
    ensures SiteProcess(Lenient(), Site(Registered(), [], map[]), "x", OPS).value.0 == Dated()
  {
    HandlesMake();
    HandlesDate();
    hide Handle, Lenient, Made;
    var start := Site(Registered(), [], map[]);
    var mid := Site(AfterMake(), [Log()[0]], map[OpId("x", 1) := Applied(1)]);
    assert Appended(Registered(), AfterMake()) == [Log()[0]] && [] + [Log()[0]] == [Log()[0]];
    assert SiteHandle(Lenient(), start, "x", OPS[0]).value.0 == mid;
    assert Appended(AfterMake(), AfterDate()) == [Log()[1]] && [Log()[0]] + [Log()[1]] == Log();
    assert SiteHandle(Lenient(), mid, "x", OPS[1]).value.0 == Dated();
    hide SiteHandle;
    assert OPS[..1] == [OPS[0]] && OPS[..1][..0] == [];
    assert SiteProcess(Lenient(), start, "x", []) == Ok((start, []));
    assert SiteProcess(Lenient(), start, "x", OPS[..1]).value.0 == mid;
  }

  lemma {:induction false} ServesBoth()
    ensures SiteServe(Lenient(), Site(Registered(), [], map[]), "x", 0, OPS, None).0 == Dated()
  {
    ProcessesBoth();
    hide SiteProcess, Process, Lenient, Page;
    assert CheckBatch(OPS) == None;
    assert CheckCaller(Registered(), "x", 0) == None;
  }

  // ---------------------------------------------------------------------
  // The run
  // ---------------------------------------------------------------------

  /** A client that logs in and takes the cloud's rows. */
  function LoggedIn(shadow: map<Key, Data>, base: nat): Node {
    Node(Store([], 0, base, shadow, Visible(shadow)), [], None, base, 0, {})
  }

  /** Before the other device speaks: one client, and a fresh device. */
  function Early(): World {
    World(Site(Registered(), [], map[]), map["a" := LoggedIn(map[], 0)])
  }

  lemma {:induction false} EarlyIsReachable(r: Rules)
    ensures Reachable(r, Early())
  {
    hide Reachable;
    StartIsReachable(r);
    var one := After(r, Start(), Register("a"));
    Continues(r, Start(), Register("a"));
    var login := Connect("a", Cloud, 0, map[], map[], []);
    FirstLogin(r, one.site, 0, map[]);
    Continues(r, one, login);
    var two := After(r, one, login);
    assert two.nodes == map["a" := LoggedIn(map[], 0)];
    Continues(r, two, Register("x"));
    assert After(r, two, Register("x")).site.account.marks == Registered().marks;
    assert After(r, two, Register("x")) == Early();
  }

  lemma {:induction false} FirstLogin(r: Rules, w: Site, cursor: nat, readAt: map<Key, nat>)
    requires w.history == [] && cursor == 0 && readAt == map[]
    ensures Readable(r, w.history, cursor, readAt) && DistinctKeys([])
    ensures CloudData(map[]) == Snapshot(r, w.history, readAt) && CloudData(map[]) == map[] && Visible(map[]) == map[]
  {
  }

  lemma {:induction false} ServesOther(r: Rules, w: World, d: Device, ops: seq<Mutation>)
    requires d in w.site.account.marks && d !in w.nodes && AllOf(d, ops)
    ensures Enabled(r, w, ServeOther(d, ops, 0, None))
    ensures After(r, w, ServeOther(d, ops, 0, None)) == w.(site := SiteServe(r, w.site, d, 0, ops, None).0)
  {
    hide SiteServe;
  }

  lemma {:induction false} EarlyShape()
    ensures "x" in Early().site.account.marks && "x" !in Early().nodes && AllOf("x", OPS)
    ensures Early().site == Site(Registered(), [], map[])
  {
  }

  lemma {:induction false} DatedIsReachable()
    ensures Reachable(Lenient(), Early().(site := Dated()))
  {
    hide *;
    EarlyIsReachable(Lenient());
    ServesBoth();
    EarlyShape();
    ServesOther(Lenient(), Early(), "x", OPS);
    Continues(Lenient(), Early(), ServeOther("x", OPS, 0, None));
  }

  /** The client reads the log: nothing to send, two entries to read. */
  lemma {:induction false} ReadsBoth(w: World, site: Site, answer: Result<Response, SyncError>)
    requires w == Early().(site := Dated()) && (site, answer) == SiteServe(Lenient(), w.site, "a", 0, [], None)
    ensures site == w.site && answer.Ok? && answer.value.acks == [] && answer.value.nextCursor == 2
  {
    var r := Lenient();
    DatedIsReachable();
    hide Lenient, Reachable;
    Invariant(r, w);
    assert NodeInv(r, w.site, "a", w.nodes["a"]);
    NothingToSend(r, w);
  }

  lemma {:induction false} NothingToSend(r: Rules, w: World)
    requires w == Early().(site := Dated()) && NodeInv(r, w.site, "a", w.nodes["a"])
    ensures var (site, answer) := SiteServe(r, w.site, "a", 0, [], None);
            site == w.site && answer.Ok? && answer.value.acks == [] && answer.value.nextCursor == 2
  {
    hide Serving, Informed, OutboxInv;
    var (site, answer) := SiteServe(r, w.site, "a", 0, [], None);
    assert RunOf(w.nodes["a"].issued, 0, []);
    ServeOwn(r, w.site, "a", [], 0, [], 0, None);
    hide Held;
    assert Process(r, w.site.account, "a", []) == Ok((w.site.account, []));
  }

  /** The client has read everything, and loaded the tables before the edits. */
  ghost predicate Reader(n: Node) {
    n.base == 0 && n.stale == {} && n.flight == None && n.store.cursor == 2 && PendingOps(n.store.mutations) == []
  }

  lemma {:induction false} Asks(r: Rules, w: World, n: Node, answer: Result<Response, SyncError>)
    requires w.nodes == map["a" := n] && n.flight == None && PendingOps(n.store.mutations) == []
    requires SiteServe(r, w.site, "a", n.store.cursor, [], None) == (w.site, answer)
    ensures Enabled(r, w, Request("a", 0, None))
    ensures After(r, w, Request("a", 0, None))
         == World(w.site, map["a" := n.(flight := Some(Flight(n.store.cursor, [], answer)))])
  {
    hide SiteServe, PendingOps;
    var asked := n.(flight := Some(Flight(n.store.cursor, [], answer)));
    assert w.nodes["a" := asked] == map["a" := asked];
  }

  function Waiting(answer: Result<Response, SyncError>): Node {
    LoggedIn(map[], 0).(flight := Some(Flight(0, [], answer)))
  }

  lemma {:induction false} Hears(r: Rules, site: Site, answer: Result<Response, SyncError>)
    requires answer.Ok? && answer.value.acks == [] && answer.value.nextCursor == 2
    ensures var asked := World(site, map["a" := Waiting(answer)]);
            && Enabled(r, asked, Deliver("a"))
            && After(r, asked, Deliver("a")).site == site
            && After(r, asked, Deliver("a")).nodes.Keys == {"a"}
            && Reader(After(r, asked, Deliver("a")).nodes["a"])
  {
    hide ShadowAfter, Reprojected, ChangedKeys, AckedKeys, Visible;
    assert SettleAll([], []) == [] && PendingOps([]) == [];
  }

  lemma {:induction false} ReaderCatchesUp() returns (w: World)
    ensures Reachable(Lenient(), w) && w.site == Dated() && w.nodes.Keys == {"a"} && Reader(w.nodes["a"])
  {
    var r := Lenient();
    var before := Early().(site := Dated());
    DatedIsReachable();
    hide Lenient, Reachable;
    var (site, answer) := SiteServe(r, before.site, "a", 0, [], None);
    ReadsBoth(before, site, answer);
    assert before.nodes == map["a" := LoggedIn(map[], 0)] && PendingOps([]) == [];
    assert LoggedIn(map[], 0).flight == None && LoggedIn(map[], 0).store.mutations == []
        && LoggedIn(map[], 0).store.cursor == 0;
    hide SiteServe, Reader, After, Enabled, Dated, Early, LoggedIn, PendingOps;
    Asks(r, before, LoggedIn(map[], 0), answer);
    Continues(r, before, Request("a", 0, None));
    Hears(r, before.site, answer);
    Continues(r, World(before.site, map["a" := Waiting(answer)]), Deliver("a"));
    w := After(r, World(before.site, map["a" := Waiting(answer)]), Deliver("a"));
  }

  /** A row as a device that loads the tables gets it, and no other. */
  lemma {:induction false} TableIsRead(r: Rules, w: Site)
    requires SiteInv(r, w) && |w.history| == 2 && w.account.table.Keys == {TEA}
    ensures Readable(r, w.history, 2, map[TEA := 2])
  {
    TablesAreRedo(r, w);
    hide Redo, SiteInv;
    assert w.history[..2] == w.history;
    assert Redo(r, w.history, TEA) == Some(w.account.table[TEA]);
  }

  lemma {:induction false} CloudOf(snapshot: map<Key, Data>) returns (cloud: map<Key, Stamped>)
    requires snapshot.Keys == {TEA}
    ensures CloudData(cloud) == snapshot
  {
    cloud := map[TEA := Stamped(snapshot[TEA], "")];
  }

  lemma {:induction false} Registers(r: Rules, w: World)
    requires "b" !in w.site.account.marks
    ensures Enabled(r, w, Register("b"))
    ensures var after := After(r, w, Register("b"));
            && after.nodes == w.nodes && after.site.history == w.site.history
            && after.site.account.table == w.site.account.table
            && "b" in after.site.account.marks && after.site.account.marks["b"] == 0
  {
  }

  lemma {:induction false} Logs(r: Rules, w: World, login: Step)
    requires login.Connect? && login.device == "b" && login.mode == Cloud && login.locals == []
    requires Enabled(r, w, login)
    ensures After(r, w, login) == w.(nodes := w.nodes["b" := LoggedIn(CloudData(login.cloud), login.cursor)])
  {
    hide CloudData, Readable;
  }

  lemma {:induction false} NothingPends(shadow: map<Key, Data>, base: nat)
    ensures var n := LoggedIn(shadow, base);
            n.base == base == n.store.cursor && n.stale == {} && PendingOps(n.store.mutations) == []
  {
    hide Visible;
  }

  lemma {:induction false} NewcomerRegisters() returns (w: World)
    ensures Reachable(Lenient(), w) && w.site.history == Log() && w.site.account.table == Dated().account.table
    ensures w.nodes.Keys == {"a"} && Reader(w.nodes["a"])
    ensures "b" in w.site.account.marks && w.site.account.marks["b"] == 0
  {
    var r := Lenient();
    var before := ReaderCatchesUp();
    assert Dated().history == Log() && "b" !in Dated().account.marks;
    hide Lenient, Reachable, Enabled, After, Reader, Log, Made, Dated, PendingOps;
    Registers(r, before);
    Continues(r, before, Register("b"));
    w := After(r, before, Register("b"));
  }

  lemma {:induction false} SiteHolds(r: Rules, w: World)
    requires Reachable(r, w)
    ensures SiteInv(r, w.site)
  {
    hide Reachable, NodeInv, SiteInv, Tagged;
    Invariant(r, w);
  }

  lemma {:induction false} DatedShape()
    ensures |Log()| == 2 && Dated().account.table.Keys == {TEA} && !Dated().account.table[TEA].data.deleted
  {
    hide Made, Lenient;
  }

  /** The client that read the log, and the one that loaded the tables after it. */
  ghost predicate BothRead(w: World) {
    && w.site.history == Log() && w.site.account.table == Dated().account.table
    && "a" in w.nodes && Reader(w.nodes["a"])
    && "b" in w.nodes && Newcomer(w.nodes["b"])
  }

  ghost predicate Newcomer(n: Node) {
    n.base == 2 == n.store.cursor && n.stale == {} && PendingOps(n.store.mutations) == []
  }

  lemma {:induction false} Joined(known: World, w: World, shadow: map<Key, Data>)
    requires known.site.history == Log() && known.site.account.table == Dated().account.table
    requires "a" in known.nodes && Reader(known.nodes["a"])
    requires w == known.(nodes := known.nodes["b" := LoggedIn(shadow, 2)])
    ensures BothRead(w)
  {
    NothingPends(shadow, 2);
    hide LoggedIn, PendingOps, Log, Dated, Reader;
  }

  lemma {:induction false} NewcomerLogsIn() returns (w: World)
    ensures Reachable(Lenient(), w) && BothRead(w)
  {
    hide *;
    var r := Lenient();
    var known := NewcomerRegisters();
    DatedShape();
    SiteHolds(r, known);
    TableIsRead(r, known.site);
    var login := NewLogin(r, known);
    Continues(r, known, login);
    Logs(r, known, login);
    w := After(r, known, login);
    Joined(known, w, CloudData(login.cloud));
  }

  lemma {:induction false} NewLogin(r: Rules, w: World) returns (login: Step)
    requires Readable(r, w.site.history, 2, map[TEA := 2])
    requires "b" in w.site.account.marks && w.site.account.marks["b"] == 0 && "b" !in w.nodes
    ensures login.Connect? && login.device == "b" && login.mode == Cloud && login.locals == [] && login.cursor == 2
    ensures Enabled(r, w, login)
  {
    hide Redo;
    var cloud := CloudOf(Snapshot(r, w.site.history, map[TEA := 2]));
    login := Connect("b", Cloud, 2, map[TEA := 2], cloud, []);
  }

  lemma {:induction false} LastDay()
    ensures LastLogged(Changes(Log()), TEA, DueOn) == Some(Text("2024-1-1"))
    ensures Raw(Log(), 0, TEA, DueOn) && !Raw(Log(), 2, TEA, DueOn)
  {
    hide Made;
    assert DueOn in DATE.patch && Changes(Log())[1] == DATE;
    assert Log()[0..] == Log() && Log()[2..] == [];
  }

  ghost predicate Shows(w: World, d: Device, day: Value) {
    && d in w.nodes && TEA in w.nodes[d].store.rows && !w.nodes[d].store.rows[TEA].deleted
    && DueOn in w.nodes[d].store.rows[TEA].fields && w.nodes[d].store.rows[TEA].fields[DueOn] == day
  }

  lemma {:induction false} BothShow(r: Rules, w: World)
    requires Reachable(r, w) && BothRead(w) && r.date("2024-1-1") == Some("2024-01-01")
    ensures CaughtUp(w, "a") && CaughtUp(w, "b") && TEA in w.site.account.table
    ensures Shows(w, "a", Null) && Shows(w, "b", Text("2024-01-01"))
  {
    DatedShape();
    LastDay();
    hide Reachable, Raw, LastLogged, Log, Dated, SpelledAlike;
    OtherSpelling(r, w, "a", "b", TEA);
  }

  lemma {:induction false} LenientReads()
    ensures Lenient().date("2024-1-1") == Some("2024-01-01")
  {
  }

  /** Both clients have read everything, and one of them shows no due date. */
  lemma {:induction false} DisagreementIsReachable()
    ensures exists w ::
              && Reachable(Lenient(), w) && CaughtUp(w, "a") && CaughtUp(w, "b") && TEA in w.site.account.table
              && Shows(w, "a", Null) && Shows(w, "b", Text("2024-01-01"))
  {
    hide *;
    var w := NewcomerLogsIn();
    LenientReads();
    BothShow(Lenient(), w);
  }
}
