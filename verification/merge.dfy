/**
 First login: local data meets the cloud snapshot (`syncInitializeCloud`,
 apps/app/src/adapters/web-repository.ts).
 */
module Merge {
  import opened Prelude
  import opened Rows
  import opened Mutations
  import opened Server
  import opened Client

  /** A row with its `updatedAt` text. */
  datatype Stamped = Stamped(data: Data, stamp: string)

  datatype LocalRow = LocalRow(key: Key, row: Stamped)

  datatype Mode = Cloud | Combine

  /** JavaScript's `a > b` on strings. */
  predicate Greater(a: string, b: string)
    decreases |a|
  {
    a != [] && (b == [] || a[0] > b[0] || (a[0] == b[0] && Greater(a[1..], b[1..])))
  }

  predicate Later(local: string, remote: string) {
    local != "" && (remote == "" || Greater(local, remote))
  }

  lemma {:induction false} GreaterIsTotal(a: string, b: string)
    ensures a == b || Greater(a, b) || Greater(b, a)
    ensures !(Greater(a, b) && Greater(b, a)) && !Greater(a, a)
    decreases |a|
  {
    if a != [] {
      GreaterIsTotal(a[1..], a[1..]);
    }
    if a != [] && b != [] && a[0] == b[0] {
      GreaterIsTotal(a[1..], b[1..]);
      if a[1..] == b[1..] {
        assert a == [a[0]] + a[1..] && b == [b[0]] + b[1..];
      }
    }
  }

  lemma {:induction false} GreaterIsTransitive(a: string, b: string, c: string)
    requires Greater(a, b) && Greater(b, c)
    ensures Greater(a, c)
    decreases |a|
  {
    if b != [] && c != [] && a[0] == b[0] && b[0] == c[0] {
      GreaterIsTransitive(a[1..], b[1..], c[1..]);
    }
  }

  /** What becomes of one local row: the row written, if any, and the operation
      prepared, if any. */
  datatype Decision = Decision(row: Option<Data>, op: Option<Change>)

  predicate SameSlot(a: Data, b: Data) {
    Lookup(a.fields, TaskId) == Lookup(b.fields, TaskId) && Lookup(a.fields, LocalDate) == Lookup(b.fields, LocalDate)
  }

  predicate SlotTaken(cloud: map<Key, Stamped>, l: LocalRow) {
    exists k :: k in cloud && k.entity == DayPlan && SameSlot(cloud[k].data, l.row.data)
  }

  function FullOp(l: LocalRow, kind: Kind): Option<Change> {
    Some(Change(l.key, kind, MutablePatch(l.key.entity, l.row.data.fields)))
  }

  function Decide(cloud: map<Key, Stamped>, l: LocalRow): Decision {
    var local := l.row.data;
    if l.key !in cloud then
      if local.deleted || (l.key.entity == DayPlan && SlotTaken(cloud, l)) then Decision(None, None)
      else Decision(Some(local), FullOp(l, Create))
    else
      var server := cloud[l.key].data;
      if local.deleted then
        Decision(Some(local), if server.deleted then None else Some(Change(l.key, Delete, map[])))
      else if server.deleted then
        if Later(l.row.stamp, cloud[l.key].stamp) then Decision(Some(local), FullOp(l, Restore))
        else Decision(Some(server), None)
      else if Later(l.row.stamp, cloud[l.key].stamp) then Decision(Some(local), FullOp(l, Patch))
      else Decision(None, None)
  }

  function CloudData(cloud: map<Key, Stamped>): map<Key, Data> {
    map k | k in cloud :: cloud[k].data
  }

  function WithRow(rows: map<Key, Data>, k: Key, row: Option<Data>): map<Key, Data> {
    if row.Some? then rows[k := row.value] else rows
  }

  function WithOp(ops: seq<Change>, op: Option<Change>): seq<Change> {
    if op.Some? then ops + [op.value] else ops
  }

  function MergedRows(cloud: map<Key, Stamped>, locals: seq<LocalRow>): map<Key, Data>
    decreases |locals|
  {
    if locals == [] then CloudData(cloud)
    else
      var l := locals[|locals| - 1];
      WithRow(MergedRows(cloud, locals[..|locals| - 1]), l.key, Decide(cloud, l).row)
  }

  function MergedOps(cloud: map<Key, Stamped>, locals: seq<LocalRow>): seq<Change>
    decreases |locals|
  {
    if locals == [] then []
    else
      var l := locals[|locals| - 1];
      WithOp(MergedOps(cloud, locals[..|locals| - 1]), Decide(cloud, l).op)
  }

  function OfEntity(ops: seq<Change>, e: Entity): (kept: seq<Change>)
    ensures forall i | 0 <= i < |kept| :: kept[i].key.entity == e && kept[i] in ops
    decreases |ops|
  {
    if ops == [] then []
    else OfEntity(ops[..|ops| - 1], e) + if ops[|ops| - 1].key.entity == e then [ops[|ops| - 1]] else []
  }

  /** Lists, then tasks, then steps, then day plans. */
  function Ordered(ops: seq<Change>): seq<Change> {
    OfEntity(ops, List) + OfEntity(ops, Task) + OfEntity(ops, Step) + OfEntity(ops, DayPlan)
  }

  /** The operations a device queues for these changes, numbered from 1. */
  function AsOperations(d: Device, ops: seq<Change>): (ms: seq<Mutation>)
    ensures |ms| == |ops|
    ensures forall i | 0 <= i < |ops| :: ms[i] == Mutation(OpId(d, i + 1), i + 1, ops[i])
  {
    seq(|ops|, i requires 0 <= i < |ops| => Mutation(OpId(d, i + 1), i + 1, ops[i]))
  }

  function Numbered(d: Device, ops: seq<Change>): (ms: seq<Stored>)
    ensures |ms| == |ops|
    ensures forall i | 0 <= i < |ops| :: ms[i] == Stored(AsOperations(d, ops)[i], Pending)
  {
    seq(|ops|, i requires 0 <= i < |ops| => Stored(AsOperations(d, ops)[i], Pending))
  }

  function Initialized(d: Device, cloud: map<Key, Stamped>, cursor: nat, mode: Mode, locals: seq<LocalRow>): Store {
    if mode == Cloud then Store([], 0, cursor, CloudData(cloud), Visible(CloudData(cloud)))
    else
      var ops := Ordered(MergedOps(cloud, locals));
      Store(Numbered(d, ops), |ops|, cursor, CloudData(cloud), Visible(MergedRows(cloud, locals)))
  }

  /** One turn of a merge loop. */
  method MergeRow(cloud: map<Key, Stamped>, local: LocalRow, rows: map<Key, Data>, ops: seq<Change>)
    returns (newRows: map<Key, Data>, newOps: seq<Change>)
    ensures newRows == WithRow(rows, local.key, Decide(cloud, local).row)
    ensures newOps == WithOp(ops, Decide(cloud, local).op)
  {
    newRows, newOps := rows, ops;
    var mine := MutablePatch(local.key.entity, local.row.data.fields);
    if local.key !in cloud {
      if !local.row.data.deleted && !(local.key.entity == DayPlan && SlotTaken(cloud, local)) {
        newRows := rows[local.key := local.row.data];
        newOps := ops + [Change(local.key, Create, mine)];
      }
      return;
    }
    var server := cloud[local.key];
    if local.row.data.deleted {
      newRows := rows[local.key := local.row.data];
      if !server.data.deleted {
        newOps := ops + [Change(local.key, Delete, map[])];
      }
      return;
    }
    var newer := Later(local.row.stamp, server.stamp);
    if server.data.deleted {
      if newer {
        newRows := rows[local.key := local.row.data];
        newOps := ops + [Change(local.key, Restore, mine)];
      } else {
        newRows := rows[local.key := server.data];
      }
      return;
    }
    if newer {
      newRows := rows[local.key := local.row.data];
      newOps := ops + [Change(local.key, Patch, mine)];
    }
  }

  /** The loop over one local table. */
  method MergeTable(cloud: map<Key, Stamped>, ghost before: seq<LocalRow>, table: seq<LocalRow>,
                    rows: map<Key, Data>, ops: seq<Change>)
    returns (newRows: map<Key, Data>, newOps: seq<Change>)
    requires rows == MergedRows(cloud, before) && ops == MergedOps(cloud, before)
    ensures newRows == MergedRows(cloud, before + table) && newOps == MergedOps(cloud, before + table)
  {
    newRows, newOps := rows, ops;
    assert before + table[..0] == before;
    for i := 0 to |table|
      invariant newRows == MergedRows(cloud, before + table[..i])
      invariant newOps == MergedOps(cloud, before + table[..i])
    {
      hide Decide;
      var sofar := before + table[..i + 1];
      assert sofar[..|sofar| - 1] == before + table[..i] && sofar[|sofar| - 1] == table[i];
      newRows, newOps := MergeRow(cloud, table[i], newRows, newOps);
    }
    assert table[..|table|] == table;
  }

  /** The merge loops of `syncInitializeCloud` over the four local tables, and
      the reordering of the prepared operations. */
  method MergeLocalTables(cloud: map<Key, Stamped>, lists: seq<LocalRow>, tasks: seq<LocalRow>,
                          steps: seq<LocalRow>, plans: seq<LocalRow>)
    returns (rows: map<Key, Data>, ordered: seq<Change>)
    ensures rows == MergedRows(cloud, lists + tasks + steps + plans)
    ensures ordered == Ordered(MergedOps(cloud, lists + tasks + steps + plans))
  {
    var ops: seq<Change>;
    rows, ops := MergeTable(cloud, [], lists, CloudData(cloud), []);
    assert [] + lists == lists;
    rows, ops := MergeTable(cloud, lists, tasks, rows, ops);
    rows, ops := MergeTable(cloud, lists + tasks, steps, rows, ops);
    rows, ops := MergeTable(cloud, lists + tasks + steps, plans, rows, ops);
    ordered := OfEntity(ops, List) + OfEntity(ops, Task) + OfEntity(ops, Step) + OfEntity(ops, DayPlan);
  }

  // ---------------------------------------------------------------------
  // Soundness
  // ---------------------------------------------------------------------

  ghost predicate DistinctKeys(locals: seq<LocalRow>) {
    forall i, j | 0 <= i < j < |locals| :: locals[i].key != locals[j].key
  }

  /** Local rows are typed records: every mutable column is present. */
  ghost predicate Complete(locals: seq<LocalRow>) {
    forall i, f | 0 <= i < |locals| && Mutable(locals[i].key.entity, f) :: f in locals[i].row.data.fields
  }

  ghost predicate Mentions(locals: seq<LocalRow>, k: Key) {
    exists i :: 0 <= i < |locals| && locals[i].key == k
  }

  /** Both sides have the row or neither, with the same deleted flag and, if it
      is live, the same mutable columns. */
  ghost predicate Agrees(e: Entity, x: Option<Data>, y: Option<Data>) {
    && x.Some? == y.Some?
    && (x.Some? ==> x.value.deleted == y.value.deleted)
    && (x.Some? && !x.value.deleted ==> MutablePatch(e, x.value.fields) == MutablePatch(e, y.value.fields))
  }

  /** One decision: the prepared operation turns the cloud's row into the row
      that is kept. */
  lemma {:induction false} DecisionSound(cloud: map<Key, Stamped>, l: LocalRow)
    requires forall f | Mutable(l.key.entity, f) :: f in l.row.data.fields
    ensures var server := Known(CloudData(cloud), l.key);
            var choice := Decide(cloud, l);
            && Agrees(l.key.entity,
                      if choice.op.Some? then StepState(server, l.key, choice.op.value) else server,
                      if choice.row.Some? then choice.row else server)
            && (choice.op.Some? ==> choice.op.value.key == l.key)
  {
    var mine := MutablePatch(l.key.entity, l.row.data.fields);
    assert MutablePatch(l.key.entity, mine) == mine;
    if l.key in cloud {
      var theirs := cloud[l.key].data.fields;
      assert MutablePatch(l.key.entity, theirs + mine) == mine;
    }
  }

  lemma {:induction false} UnmentionedKept(cloud: map<Key, Stamped>, locals: seq<LocalRow>, k: Key)
    requires !Mentions(locals, k)
    ensures Known(MergedRows(cloud, locals), k) == Known(CloudData(cloud), k)
    ensures Replay(Known(CloudData(cloud), k), k, MergedOps(cloud, locals)) == Known(CloudData(cloud), k)
    decreases |locals|
  {
    if locals != [] {
      hide Replay, CloudData;
      var front, l := locals[..|locals| - 1], locals[|locals| - 1];
      assert l.key != k;
      assert forall i | 0 <= i < |front| :: front[i] == locals[i];
      UnmentionedKept(cloud, front, k);
      ReplayWithOp(Known(CloudData(cloud), k), k, MergedOps(cloud, front), Decide(cloud, l).op);
      DecidesItsKey(cloud, l);
      hide Decide;
    } else {
      hide CloudData;
    }
  }

  lemma {:induction false} DecidesItsKey(cloud: map<Key, Stamped>, l: LocalRow)
    ensures Decide(cloud, l).op.Some? ==> Decide(cloud, l).op.value.key == l.key
  {
  }

  lemma {:induction false} ReplayWithOp(s: Option<Data>, k: Key, ops: seq<Change>, op: Option<Change>)
    ensures Replay(s, k, WithOp(ops, op))
         == if op.Some? then StepState(Replay(s, k, ops), k, op.value) else Replay(s, k, ops)
  {
    if op.Some? {
      assert WithOp(ops, op)[..|ops|] == ops;
    }
  }

  lemma {:induction false} MergeAgrees(cloud: map<Key, Stamped>, locals: seq<LocalRow>, k: Key)
    requires DistinctKeys(locals) && Complete(locals)
    ensures Agrees(k.entity, Replay(Known(CloudData(cloud), k), k, MergedOps(cloud, locals)),
                   Known(MergedRows(cloud, locals), k))
    decreases |locals|
  {
    if locals != [] {
      var front, l := locals[..|locals| - 1], locals[|locals| - 1];
      MergeAgrees(cloud, front, k);
      ReplayWithOp(Known(CloudData(cloud), k), k, MergedOps(cloud, front), Decide(cloud, l).op);
      DecisionSound(cloud, l);
      if l.key == k {
        assert !Mentions(front, k);
        UnmentionedKept(cloud, front, k);
      }
    }
  }

  lemma {:induction false} OfEntityReplays(s: Option<Data>, k: Key, ops: seq<Change>, e: Entity)
    ensures Replay(s, k, OfEntity(ops, e)) == if k.entity == e then Replay(s, k, ops) else s
    decreases |ops|
  {
    if ops != [] {
      var front, last := ops[..|ops| - 1], ops[|ops| - 1];
      OfEntityReplays(s, k, front, e);
      if last.key.entity == e {
        assert OfEntity(ops, e)[..|OfEntity(front, e)|] == OfEntity(front, e);
      } else {
        assert OfEntity(ops, e) == OfEntity(front, e);
      }
    }
  }

  lemma {:induction false} OrderedReplays(s: Option<Data>, k: Key, ops: seq<Change>)
    ensures Replay(s, k, Ordered(ops)) == Replay(s, k, ops)
  {
    var a, b, c, d := OfEntity(ops, List), OfEntity(ops, Task), OfEntity(ops, Step), OfEntity(ops, DayPlan);
    OfEntityReplays(s, k, ops, List);
    var s1 := Replay(s, k, a);
    OfEntityReplays(s1, k, ops, Task);
    var s2 := Replay(s1, k, b);
    OfEntityReplays(s2, k, ops, Step);
    var s3 := Replay(s2, k, c);
    OfEntityReplays(s3, k, ops, DayPlan);
    ReplayConcat(s, k, a, b);
    ReplayConcat(s, k, a + b, c);
    ReplayConcat(s, k, a + b + c, d);
  }

  /** The prepared operations turn the cloud snapshot into the merged rows: same
      rows, same deleted flags, same mutable columns on every live row. */
  lemma {:induction false} MergeIsSound(cloud: map<Key, Stamped>, locals: seq<LocalRow>, k: Key)
    requires DistinctKeys(locals) && Complete(locals)
    ensures Agrees(k.entity, Replay(Known(CloudData(cloud), k), k, Ordered(MergedOps(cloud, locals))),
                   Known(MergedRows(cloud, locals), k))
  {
    OrderedReplays(Known(CloudData(cloud), k), k, MergedOps(cloud, locals));
    MergeAgrees(cloud, locals, k);
  }

  // ---------------------------------------------------------------------
  // Numbering and order
  // ---------------------------------------------------------------------

  function Stage(e: Entity): nat {
    match e
    case List => 0
    case Task => 1
    case Step => 2
    case DayPlan => 3
  }

  ghost predicate OnePerKey(ops: seq<Change>) {
    forall i, j | 0 <= i < j < |ops| :: ops[i].key != ops[j].key
  }

  lemma {:induction false} OpsComeFromLocals(cloud: map<Key, Stamped>, locals: seq<LocalRow>)
    requires DistinctKeys(locals)
    ensures OnePerKey(MergedOps(cloud, locals))
    ensures forall i | 0 <= i < |MergedOps(cloud, locals)| :: Mentions(locals, MergedOps(cloud, locals)[i].key)
    decreases |locals|
  {
    if locals != [] {
      var front, l := locals[..|locals| - 1], locals[|locals| - 1];
      OpsComeFromLocals(cloud, front);
      forall i | 0 <= i < |MergedOps(cloud, front)|
        ensures MergedOps(cloud, front)[i].key != l.key && Mentions(locals, MergedOps(cloud, front)[i].key)
      {
        var j :| 0 <= j < |front| && front[j].key == MergedOps(cloud, front)[i].key;
        assert locals[j] == front[j];
      }
      assert locals[|locals| - 1].key == l.key;
    }
  }

  lemma {:induction false} OfEntityOnePerKey(ops: seq<Change>, e: Entity)
    requires OnePerKey(ops)
    ensures OnePerKey(OfEntity(ops, e))
    decreases |ops|
  {
    if ops != [] {
      var front := ops[..|ops| - 1];
      OfEntityOnePerKey(front, e);
      var kept := OfEntity(front, e);
      forall i | 0 <= i < |kept| ensures kept[i].key != ops[|ops| - 1].key {
        assert kept[i] in front;
        var j :| 0 <= j < |front| && front[j] == kept[i];
        assert ops[j] == front[j];
      }
    }
  }

  /** Each row gets at most one operation, numbered 1..n, with lists before
      tasks before steps before day plans. */
  lemma {:induction false} MergeNumbersOnce(d: Device, cloud: map<Key, Stamped>, locals: seq<LocalRow>)
    requires DistinctKeys(locals)
    ensures var store := Initialized(d, cloud, 0, Combine, locals);
            && store.clientSeq == |store.mutations|
            && (forall i | 0 <= i < |store.mutations| ::
                  store.mutations[i].op.clientSeq == i + 1 && store.mutations[i].status == Pending)
            && (forall i, j | 0 <= i < j < |store.mutations| ::
                  && store.mutations[i].op.change.key != store.mutations[j].op.change.key
                  && Stage(store.mutations[i].op.change.key.entity) <= Stage(store.mutations[j].op.change.key.entity))
  {
    var ops := MergedOps(cloud, locals);
    OpsComeFromLocals(cloud, locals);
    OfEntityOnePerKey(ops, List);
    OfEntityOnePerKey(ops, Task);
    OfEntityOnePerKey(ops, Step);
    OfEntityOnePerKey(ops, DayPlan);
    var all := Ordered(ops);
    forall i, j | 0 <= i < j < |all|
      ensures all[i].key != all[j].key && Stage(all[i].key.entity) <= Stage(all[j].key.entity)
    {
      StagesAscend(ops, i, j);
    }
  }

  lemma {:induction false} StagesAscend(ops: seq<Change>, i: nat, j: nat)
    requires i < j < |Ordered(ops)|
    requires OnePerKey(OfEntity(ops, List)) && OnePerKey(OfEntity(ops, Task))
    requires OnePerKey(OfEntity(ops, Step)) && OnePerKey(OfEntity(ops, DayPlan))
    ensures Ordered(ops)[i].key != Ordered(ops)[j].key
    ensures Stage(Ordered(ops)[i].key.entity) <= Stage(Ordered(ops)[j].key.entity)
  {
  }

  // ---------------------------------------------------------------------
  // Who wins
  // ---------------------------------------------------------------------

  /** The merged row of an entity that both sides have: a local deletion wins;
      otherwise the side written later does, and the cloud on equal stamps. */
  lemma {:induction false} LaterWins(cloud: map<Key, Stamped>, locals: seq<LocalRow>, i: nat)
    requires DistinctKeys(locals) && i < |locals| && locals[i].key in cloud
    ensures var l, theirs, rows := locals[i], cloud[locals[i].key], MergedRows(cloud, locals);
            && l.key in rows
            && (l.row.data.deleted ==> rows[l.key].deleted)
            && (!l.row.data.deleted && Later(l.row.stamp, theirs.stamp) ==> rows[l.key] == l.row.data)
            && (!l.row.data.deleted && !Later(l.row.stamp, theirs.stamp) ==> rows[l.key] == theirs.data)
            && (l.row.stamp != theirs.stamp ==>
                  (Later(l.row.stamp, theirs.stamp) <==> !Later(theirs.stamp, l.row.stamp)))
            && (l.row.stamp == theirs.stamp ==> !Later(l.row.stamp, theirs.stamp))
  {
    GreaterIsTotal(locals[i].row.stamp, cloud[locals[i].key].stamp);
    DecidedOnce(cloud, locals, i);
  }

  /** An entity only the client has is kept exactly when it is live and, for a
      day plan, its slot is free. */
  lemma {:induction false} OnlyLocal(cloud: map<Key, Stamped>, locals: seq<LocalRow>, i: nat)
    requires DistinctKeys(locals) && i < |locals| && locals[i].key !in cloud
    ensures var l, rows := locals[i], MergedRows(cloud, locals);
            && (l.key in rows <==> !l.row.data.deleted && !(l.key.entity == DayPlan && SlotTaken(cloud, l)))
            && (l.key in rows ==> rows[l.key] == l.row.data)
  {
    DecidedOnce(cloud, locals, i);
  }

  /** Nothing else decides about the row of a key. */
  lemma {:induction false} DecidedOnce(cloud: map<Key, Stamped>, locals: seq<LocalRow>, i: nat)
    requires DistinctKeys(locals) && i < |locals|
    ensures var k, row := locals[i].key, Decide(cloud, locals[i]).row;
            Known(MergedRows(cloud, locals), k) == if row.Some? then row else Known(CloudData(cloud), k)
    decreases |locals|
  {
    hide Decide, CloudData;
    var n := |locals| - 1;
    if i < n {
      DecidedOnce(cloud, locals[..n], i);
    } else {
      assert !Mentions(locals[..n], locals[n].key);
      UnmentionedKept(cloud, locals[..n], locals[n].key);
    }
  }

  // ---------------------------------------------------------------------
  // Where the merge leaves a row that is not the server's
  // ---------------------------------------------------------------------

  /** The rows deleted on both sides, with other columns here than there. */
  function LocalTombstones(cloud: map<Key, Stamped>, locals: seq<LocalRow>): set<Key> {
    set i | 0 <= i < |locals| && Tombstone(cloud, locals[i]) :: locals[i].key
  }

  predicate Tombstone(cloud: map<Key, Stamped>, l: LocalRow) {
    l.key in cloud && l.row.data.deleted && cloud[l.key].data.deleted && l.row.data != cloud[l.key].data
  }

  /** A row of the cloud without a prepared operation is kept as the cloud has it,
      exactly unless it is deleted on both sides and differs there. */
  lemma {:induction false} UntouchedRowsAreCloudRows(cloud: map<Key, Stamped>, locals: seq<LocalRow>, k: Key)
    requires DistinctKeys(locals) && k in cloud
    requires forall i | 0 <= i < |MergedOps(cloud, locals)| :: MergedOps(cloud, locals)[i].key != k
    ensures k in MergedRows(cloud, locals)
    ensures MergedRows(cloud, locals)[k] != cloud[k].data <==> k in LocalTombstones(cloud, locals)
    ensures k in LocalTombstones(cloud, locals) ==> MergedRows(cloud, locals)[k].deleted && cloud[k].data.deleted
  {
    if Mentions(locals, k) {
      var i :| 0 <= i < |locals| && locals[i].key == k;
      DecidedOnce(cloud, locals, i);
      if Decide(cloud, locals[i]).op.Some? {
        PreparedIsThere(cloud, locals, i);
      }
      assert k in LocalTombstones(cloud, locals) <==> Tombstone(cloud, locals[i]);
    } else {
      UnmentionedKept(cloud, locals, k);
    }
  }

  lemma {:induction false} PreparedIsThere(cloud: map<Key, Stamped>, locals: seq<LocalRow>, i: nat)
    requires i < |locals| && Decide(cloud, locals[i]).op.Some?
    ensures exists j :: 0 <= j < |MergedOps(cloud, locals)| && MergedOps(cloud, locals)[j].key == locals[i].key
    decreases |locals|
  {
    var n := |locals| - 1;
    var front := MergedOps(cloud, locals[..n]);
    if i < n {
      PreparedIsThere(cloud, locals[..n], i);
      var j :| 0 <= j < |front| && front[j].key == locals[i].key;
      assert MergedOps(cloud, locals)[j] == front[j];
    } else {
      assert MergedOps(cloud, locals)[|front|] == Decide(cloud, locals[n]).op.value;
    }
  }

  /** A list deleted on both sides under different names keeps its local name
      here, and no operation tells the server. */
  lemma {:induction false} MergeKeepsLocalTombstone()
    ensures exists cloud: map<Key, Stamped>, locals: seq<LocalRow>, k: Key ::
              && DistinctKeys(locals) && Complete(locals) && k in cloud
              && MergedOps(cloud, locals) == []
              && k in MergedRows(cloud, locals)
              && MergedRows(cloud, locals)[k] != cloud[k].data
  {
    var k := Key(List, "l");
    var mine := map[Name := Text("mine"), Color := Null, Icon := Null, Rank := Text("a0")];
    var theirs := mine[Name := Text("theirs")];
    var cloud := map[k := Stamped(Data(true, theirs), "1")];
    var l := LocalRow(k, Stamped(Data(true, mine), "2"));
    assert Decide(cloud, l) == Decision(Some(Data(true, mine)), None);
    assert [l][..0] == [];
    assert MergedRows(cloud, [l]) == WithRow(MergedRows(cloud, []), k, Some(Data(true, mine)));
    assert MergedOps(cloud, [l]) == [];
    assert mine[Name] != theirs[Name];
    assert MergedRows(cloud, [l])[k] != cloud[k].data;
    assert DistinctKeys([l]) && Complete([l]);
  }
}
