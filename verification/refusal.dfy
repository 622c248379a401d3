/**
 A run in which a client goes on showing a row that the server refused: it logs
 in, edits, is refused, and clears the refusal.
 */
module Refusal {
  import opened Prelude
  import opened Rows
  import opened Mutations
  import opened Server
  import opened Ledger
  import opened Client
  import opened Devices
  import opened Outbox
  import opened Projection
  import opened Views
  import opened Protocol
  import opened Guarantees
  import opened Spelling

  function First(change: Change): Mutation {
    Mutation(OpId("a", 1), 1, change)
  }

  function Editing(change: Change, row: Data): Node {
    var n := LoggedIn(map[], 0);
    n.(store := Edited(n.store, "a", change, row), issued := [First(change)])
  }

  // ---------------------------------------------------------------------
  // The server refuses
  // ---------------------------------------------------------------------

  lemma {:induction false} HandlesRefused(r: Rules, s: Account, op: Mutation)
    requires "a" in s.marks && s.marks["a"] == 0 && s.receipts == map[]
    requires op.clientSeq == 1 && ApplyMutation(r, s.table, op.change, s.nextSeq).Err?
    ensures Handle(r, s, "a", op).Ok?
    ensures var (after, ack) := Handle(r, s, "a", op).value;
            && after.table == s.table && after.log == s.log && after.nextSeq == s.nextSeq
            && ack == Ack(op.opId, Done(Rejected(ApplyMutation(r, s.table, op.change, s.nextSeq).error)))
  {
    hide ApplyMutation;
    assert !SeqTaken(s.receipts, "a", 1);
  }

  lemma {:induction false} ProcessesOne(r: Rules, w: Site, op: Mutation)
    requires "a" in w.account.marks && SiteHandle(r, w, "a", op).Ok?
    ensures var (after, ack) := SiteHandle(r, w, "a", op).value;
            SiteProcess(r, w, "a", [op]) == Ok((after, [ack]))
  {
    var (after, ack) := SiteHandle(r, w, "a", op).value;
    hide SiteHandle;
    assert [op][..|[op]| - 1] == [] && [op][|[op]| - 1] == op;
    assert SiteProcess(r, w, "a", []) == Ok((w, []));
    var none: seq<Ack> := [];
    assert none + [ack] == [ack];
  }

  lemma {:induction false} RefusesAtSite(r: Rules, w: Site, op: Mutation)
    requires w == Early().site && op.clientSeq == 1 && ApplyMutation(r, w.account.table, op.change, 1).Err?
    ensures SiteHandle(r, w, "a", op).Ok?
    ensures var (after, ack) := SiteHandle(r, w, "a", op).value;
            && after.account.table == map[] && after.account.log == map[] && after.account.nextSeq == 1
            && after.history == []
            && ack == Ack(op.opId, Done(Rejected(ApplyMutation(r, w.account.table, op.change, 1).error)))
  {
    HandlesRefused(r, w.account, op);
    hide Handle, ApplyMutation;
  }

  lemma {:induction false} ServesRefused(r: Rules, op: Mutation)
    requires op.clientSeq == 1 && ApplyMutation(r, map[], op.change, 1).Err?
    ensures var (site, answer) := SiteServe(r, Early().site, "a", 0, [op], None);
            && site.history == [] && site.account.table == map[]
            && answer == Ok(Response([Ack(op.opId, Done(Rejected(ApplyMutation(r, map[], op.change, 1).error)))], [], 0,
                                     false))
  {
    hide ApplyMutation;
    var w := Early().site;
    RefusesAtSite(r, w, op);
    hide SiteHandle;
    ProcessesOne(r, w, op);
    hide SiteProcess, Process;
    assert CheckBatch([op]) == None && CheckCaller(w.account, "a", 0) == None;
    var none: map<nat, Entry> := map[];
    assert Held(none, 1, 1) == [];
  }

  // ---------------------------------------------------------------------
  // The run
  // ---------------------------------------------------------------------

  lemma {:induction false} Edits(r: Rules, change: Change, row: Data)
    ensures Enabled(r, Early(), Edit("a", change, row))
    ensures After(r, Early(), Edit("a", change, row)) == World(Early().site, map["a" := Editing(change, row)])
  {
    hide Visible;
    var n := LoggedIn(map[], 0);
    assert n.issued + [First(change)] == [First(change)];
    assert Early().nodes["a" := Editing(change, row)] == map["a" := Editing(change, row)];
  }

  /** The client has one operation, which is pending or refused. */
  ghost predicate HasOne(n: Node, change: Change, status: Status) {
    && n.store.mutations == [Stored(First(change), status)] && n.store.cursor == 0
    && n.issued == [First(change)] && n.since == 0
  }

  lemma {:induction false} EditingHasOne(change: Change, row: Data)
    ensures HasOne(Editing(change, row), change, Pending) && Editing(change, row).flight == None
  {
    hide Visible;
  }

  lemma {:induction false} OnePending(change: Change)
    ensures PendingOps([Stored(First(change), Pending)]) == [First(change)]
  {
    assert [Stored(First(change), Pending)][..0] == [];
    assert PendingOps([]) == [];
  }

  lemma {:induction false} Requests(r: Rules, w: World, n: Node, change: Change)
    requires w.nodes == map["a" := n] && HasOne(n, change, Pending) && n.flight == None
    ensures Enabled(r, w, Request("a", 1, None))
    ensures var (site, answer) := SiteServe(r, w.site, "a", 0, [First(change)], None);
            After(r, w, Request("a", 1, None))
            == World(site, map["a" := n.(flight := Some(Flight(0, [First(change)], answer)))])
  {
    OnePending(change);
    hide SiteServe, PendingOps;
    var sent := [First(change)];
    assert sent[..1] == sent;
    var asked := n.(flight := Some(Flight(0, sent, SiteServe(r, w.site, "a", 0, sent, None).1)));
    assert w.nodes["a" := asked] == map["a" := asked];
  }

  lemma {:induction false} SettlesRefused(change: Change, code: Code)
    ensures SettleAll([Stored(First(change), Pending)], [Ack(OpId("a", 1), Done(Rejected(code)))])
         == [Stored(First(change), Refused(code))]
  {
    var acks := [Ack(OpId("a", 1), Done(Rejected(code)))];
    var ms := [Stored(First(change), Pending)];
    assert acks[..0] == [] && ms[..0] == [];
    assert SettleAll(ms, []) == ms;
    assert Settle([], acks[0]) == [];
  }

  lemma {:induction false} Delivers(r: Rules, w: World, n: Node, change: Change, code: Code)
    requires w.nodes == map["a" := n] && HasOne(n, change, Pending)
    requires n.flight == Some(Flight(0, [First(change)],
                                     Ok(Response([Ack(OpId("a", 1), Done(Rejected(code)))], [], 0, false))))
    ensures Enabled(r, w, Deliver("a"))
    ensures After(r, w, Deliver("a")) == World(w.site, map["a" := Delivered(n, n.flight.value)])
    ensures HasOne(Delivered(n, n.flight.value), change, Refused(code))
  {
    SettlesRefused(change, code);
    hide SettleAll, ShadowAfter, Reprojected, AckedKeys, ChangedKeys, PendingOps;
    var after := Delivered(n, n.flight.value);
    assert w.nodes["a" := after] == map["a" := after];
  }

  lemma {:induction false} DropsRefused(change: Change, code: Code)
    ensures var ms := [Stored(First(change), Refused(code))];
            WithoutRefused(ms, RefusedIds(ms)) == [] && PendingOps([]) == []
  {
    var ms := [Stored(First(change), Refused(code))];
    assert ms[..0] == [] && WithoutRefused([], RefusedIds(ms)) == [];
    assert ms[0].op.opId in RefusedIds(ms);
  }

  lemma {:induction false} Clears(r: Rules, w: World, n: Node, change: Change, code: Code)
    requires w.nodes == map["a" := n] && HasOne(n, change, Refused(code))
    ensures Enabled(r, w, Clear("a"))
    ensures var after := After(r, w, Clear("a"));
            && after.site == w.site && after.nodes.Keys == {"a"}
            && after.nodes["a"].store.mutations == [] && after.nodes["a"].store.cursor == 0
            && after.nodes["a"].issued == [First(change)] && after.nodes["a"].since == 0
  {
    DropsRefused(change, code);
    hide WithoutRefused, RefusedIds, Reprojected, PendingOps, RefusedKeys;
  }

  /** Nothing is pending or refused any more, everything is read, and the row is
      still there. */
  ghost predicate StillShown(w: World, k: Key) {
    && CaughtUp(w, "a") && w.nodes["a"].store.mutations == []
    && k !in w.site.account.table && k in w.nodes["a"].store.rows
  }

  /** Whatever the server refuses as a client's first operation stays visible. */
  lemma {:induction false} RefusedStaysVisible(r: Rules, change: Change, row: Data)
    requires change.key.entity != DayPlan && ApplyMutation(r, map[], change, 1).Err?
    ensures exists w :: Reachable(r, w) && StillShown(w, change.key)
  {
    hide *;
    var w := RefusedAndCleared(r, change, row);
    Remains(r, w, change);
  }

  lemma {:induction false} RefusedAndCleared(r: Rules, change: Change, row: Data) returns (w: World)
    requires ApplyMutation(r, map[], change, 1).Err?
    ensures Reachable(r, w) && w.site.history == [] && w.site.account.table == map[] && "a" in w.nodes
    ensures w.nodes["a"].store.mutations == [] && w.nodes["a"].store.cursor == 0
    ensures w.nodes["a"].issued == [First(change)] && w.nodes["a"].since == 0
  {
    hide *;
    var n, op := Editing(change, row), First(change);
    var code := ApplyMutation(r, map[], change, 1).error;
    FirstIs(change);
    EarlyIsReachable(r);
    Edits(r, change, row);
    Continues(r, Early(), Edit("a", change, row));
    var edited := World(Early().site, map["a" := n]);
    EditingHasOne(change, row);
    Requests(r, edited, n, change);
    Continues(r, edited, Request("a", 1, None));
    ServesRefused(r, op);
    var (site, answer) := SiteServe(r, edited.site, "a", 0, [op], None);
    var asking := n.(flight := Some(Flight(0, [op], answer)));
    HasOneFlying(n, change, Flight(0, [op], answer));
    var asked := World(site, map["a" := asking]);
    Delivers(r, asked, asking, change, code);
    Continues(r, asked, Deliver("a"));
    var told := World(site, map["a" := Delivered(asking, asking.flight.value)]);
    Clears(r, told, Delivered(asking, asking.flight.value), change, code);
    Continues(r, told, Clear("a"));
    w := After(r, told, Clear("a"));
  }

  lemma {:induction false} FirstIs(change: Change)
    ensures First(change).opId == OpId("a", 1) && First(change).clientSeq == 1 && First(change).change == change
  {
  }

  lemma {:induction false} HasOneFlying(n: Node, change: Change, f: Flight)
    requires HasOne(n, change, Pending)
    ensures HasOne(n.(flight := Some(f)), change, Pending)
  {
  }

  lemma {:induction false} Remains(r: Rules, w: World, change: Change)
    requires Reachable(r, w) && w.site.history == [] && w.site.account.table == map[] && "a" in w.nodes
    requires w.nodes["a"].store.mutations == [] && w.nodes["a"].store.cursor == 0
    requires w.nodes["a"].issued == [First(change)] && w.nodes["a"].since == 0 && change.key.entity != DayPlan
    ensures StillShown(w, change.key)
  {
    hide Reachable;
    assert PendingOps([]) == [];
    UnknownIsRefused(r, w, "a", change.key);
    assert w.nodes["a"].issued[0..] == [First(change)];
    assert [First(change)][0].change.key == change.key;
  }

  /** For one, a task without a title. */
  lemma {:induction false} UntitledStaysVisible(r: Rules, row: Data)
    ensures exists w :: Reachable(r, w) && StillShown(w, TEA)
  {
    var change := Change(TEA, Create, map[Note := Text("milk")]);
    assert ApplyMutation(r, map[], change, 1) == Err(ValidationFailed);
    hide *;
    RefusedStaysVisible(r, change, row);
  }
}
