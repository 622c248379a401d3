/**
 The web client's storage as values: outbox, server shadow and visible rows
 (apps/app/src/adapters/web-repository.ts). Day plans have a shadow but no
 visible row here.
 */
module Client {
  import opened Prelude
  import opened Rows
  import opened Mutations
  import opened Server

  datatype Status = Pending | Refused(code: Code)

  /** A row of the `mutations` table, which is ordered by `clientSeq`. */
  datatype Stored = Stored(op: Mutation, status: Status)

  datatype Store = Store(
    mutations: seq<Stored>,
    clientSeq: nat,
    cursor: nat,
    shadow: map<Key, Data>,
    rows: map<Key, Data>)

  /** The operations still to be acknowledged, in client order. */
  function PendingOps(ms: seq<Stored>): (ops: seq<Mutation>)
    ensures forall i | 0 <= i < |ops| :: exists j :: 0 <= j < |ms| && ms[j] == Stored(ops[i], Pending)
    decreases |ms|
  {
    if ms == [] then []
    else
      var last := ms[|ms| - 1];
      PendingOps(ms[..|ms| - 1]) + if last.status.Pending? then [last.op] else []
  }

  function OpChanges(ops: seq<Mutation>): (cs: seq<Change>)
    ensures |cs| == |ops|
    ensures forall i | 0 <= i < |ops| :: cs[i] == ops[i].change
  {
    seq(|ops|, i requires 0 <= i < |ops| => ops[i].change)
  }

  function Touches(ops: seq<Mutation>, k: Key): bool {
    exists i :: 0 <= i < |ops| && ops[i].change.key == k
  }

  /** Pending operations replayed over what the server is known to have. */
  function Overlay(base: Data, k: Key, ops: seq<Mutation>): Data {
    Base(Replay(Some(base), k, OpChanges(ops)))
  }

  // ---------------------------------------------------------------------
  // Local edits
  // ---------------------------------------------------------------------

  /** The operation `appendMutation` queues for a device. */
  function NextOp(c: Store, d: Device, change: Change): Mutation {
    Mutation(OpId(d, c.clientSeq + 1), c.clientSeq + 1, change)
  }

  /** An edit stores a row of its own making and queues the change. */
  function Edited(c: Store, d: Device, change: Change, row: Data): Store {
    c.(mutations := c.mutations + [Stored(NextOp(c, d, change), Pending)],
       clientSeq := c.clientSeq + 1,
       rows := if change.key.entity == DayPlan then c.rows else c.rows[change.key := row])
  }

  // ---------------------------------------------------------------------
  // Applying a server answer
  // ---------------------------------------------------------------------

  /** One acknowledgement: a rejected operation stays, marked; any other goes. */
  function Settle(ms: seq<Stored>, ack: Ack): seq<Stored>
    decreases |ms|
  {
    if ms == [] then []
    else
      var last := ms[|ms| - 1];
      Settle(ms[..|ms| - 1], ack) +
      if last.op.opId != ack.opId then [last]
      else if ack.status.Done? && ack.status.outcome.Rejected? then
        [Stored(last.op, Refused(ack.status.outcome.code))]
      else []
  }

  function SettleAll(ms: seq<Stored>, acks: seq<Ack>): seq<Stored>
    decreases |acks|
  {
    if acks == [] then ms else Settle(SettleAll(ms, acks[..|acks| - 1]), acks[|acks| - 1])
  }

  function ShadowStep(shadow: map<Key, Data>, row: LogRow): map<Key, Data> {
    var k := row.entry.change.key;
    shadow[k := ApplyChange(if k in shadow then shadow[k] else EMPTY_DATA, row.entry.change)]
  }

  function ShadowAfter(shadow: map<Key, Data>, rows: seq<LogRow>): map<Key, Data>
    decreases |rows|
  {
    if rows == [] then shadow else ShadowStep(ShadowAfter(shadow, rows[..|rows| - 1]), rows[|rows| - 1])
  }

  /** The keys an answer concerns: acknowledged operations and changes. */
  function AckedKeys(ms: seq<Stored>, acks: seq<Ack>): set<Key> {
    set i, j | 0 <= i < |ms| && 0 <= j < |acks| && ms[i].op.opId == acks[j].opId :: ms[i].op.change.key
  }

  function ChangedKeys(changes: seq<LogRow>): set<Key> {
    set i | 0 <= i < |changes| :: changes[i].entry.change.key
  }

  /** `reprojectEntity` for each of `keys`: a key without shadow keeps its row. */
  function Reprojected(rows: map<Key, Data>, shadow: map<Key, Data>, ops: seq<Mutation>, keys: set<Key>)
    : map<Key, Data>
  {
    rows + map k | k in keys && k in shadow && k.entity != DayPlan
             :: Materialize(k.entity, Overlay(shadow[k], k, ops))
  }

  function ApplyAnswer(c: Store, acks: seq<Ack>, changes: seq<LogRow>, nextCursor: nat): Store {
    var mutations := SettleAll(c.mutations, acks);
    var shadow := ShadowAfter(c.shadow, changes);
    var keys := AckedKeys(c.mutations, acks) + ChangedKeys(changes);
    Store(mutations, c.clientSeq, nextCursor, shadow, Reprojected(c.rows, shadow, PendingOps(mutations), keys))
  }

  // ---------------------------------------------------------------------
  // Loading a snapshot over the outbox
  // ---------------------------------------------------------------------

  /** `normalizeBootstrap`: the columns of a snapshot row. It differs from
      `materialize` only for an empty rank. */
  function BootstrapRow(e: Entity, d: Data): Data {
    var row := Materialize(e, d);
    if row.fields[Rank] == Text("") then row.(fields := row.fields[Rank := Text("a0")]) else row
  }

  function Visible(snapshot: map<Key, Data>): map<Key, Data> {
    map k | k in snapshot && k.entity != DayPlan :: snapshot[k]
  }

  function PendingKeys(ops: seq<Mutation>): set<Key> {
    set i | 0 <= i < |ops| && ops[i].change.key.entity != DayPlan :: ops[i].change.key
  }

  /** Where the pending operations of a key are replayed from. */
  function RebaseFrom(c: Store, snapshot: map<Key, Data>, k: Key): Data {
    if k in snapshot then snapshot[k] else if k in c.rows then c.rows[k] else EMPTY_DATA
  }

  function Rebuilt(c: Store, snapshot: map<Key, Data>, ops: seq<Mutation>, keys: set<Key>): map<Key, Data> {
    map k | k in keys :: Materialize(k.entity, Overlay(RebaseFrom(c, snapshot, k), k, ops))
  }

  /** `syncReplaceSnapshot`. */
  function Rebased(c: Store, snapshot: map<Key, Data>, cursor: nat): Store {
    var ops := PendingOps(c.mutations);
    c.(cursor := cursor,
       shadow := snapshot,
       rows := Visible(snapshot) + Rebuilt(c, snapshot, ops, PendingKeys(ops)))
  }

  // ---------------------------------------------------------------------
  // Rejections
  // ---------------------------------------------------------------------

  function WithoutRefused(ms: seq<Stored>, ids: set<OpId>): seq<Stored>
    decreases |ms|
  {
    if ms == [] then []
    else
      var last := ms[|ms| - 1];
      WithoutRefused(ms[..|ms| - 1], ids) + if last.status.Refused? && last.op.opId in ids then [] else [last]
  }

  function RefusedKeys(ms: seq<Stored>, ids: set<OpId>): set<Key> {
    set i | 0 <= i < |ms| && ms[i].status.Refused? && ms[i].op.opId in ids :: ms[i].op.change.key
  }

  function RefusedIds(ms: seq<Stored>): set<OpId> {
    set i | 0 <= i < |ms| && ms[i].status.Refused? :: ms[i].op.opId
  }

  /** The refused operations `ids` are dropped and their rows shown without them. */
  function Discarded(c: Store, ids: set<OpId>): Store {
    var mutations := WithoutRefused(c.mutations, ids);
    c.(mutations := mutations,
       rows := Reprojected(c.rows, c.shadow, PendingOps(mutations), RefusedKeys(c.mutations, ids)))
  }

  /** `syncClearRejected`. */
  function Cleared(c: Store): Store {
    Discarded(c, RefusedIds(c.mutations))
  }

  // ---------------------------------------------------------------------
  // Laws of the outbox
  // ---------------------------------------------------------------------

  lemma {:induction false} PendingAppend(ms: seq<Stored>, m: Stored)
    ensures PendingOps(ms + [m]) == PendingOps(ms) + if m.status.Pending? then [m.op] else []
  {
    assert (ms + [m])[..|ms|] == ms;
  }

  lemma {:induction false} NoneRefused(ms: seq<Stored>, ids: set<OpId>)
    requires forall i | 0 <= i < |ms| && ms[i].status.Refused? :: ms[i].op.opId in ids
    ensures forall i | 0 <= i < |WithoutRefused(ms, ids)| :: !WithoutRefused(ms, ids)[i].status.Refused?
    decreases |ms|
  {
    if ms != [] {
      NoneRefused(ms[..|ms| - 1], ids);
    }
  }

  /** Clearing leaves the pending operations as they are, and nothing refused. */
  lemma {:induction false} ClearedIsPending(c: Store)
    ensures PendingOps(Cleared(c).mutations) == PendingOps(c.mutations)
    ensures forall i | 0 <= i < |Cleared(c).mutations| :: !Cleared(c).mutations[i].status.Refused?
  {
    hide PendingOps, WithoutRefused, Reprojected;
    DiscardingKeepsPending(c.mutations, RefusedIds(c.mutations));
    NoneRefused(c.mutations, RefusedIds(c.mutations));
  }

  /** A row without a shadow is not reprojected: clearing leaves it as it is. */
  lemma {:induction false} ClearedKeepsUnknown(c: Store, k: Key)
    requires k in c.rows && k !in c.shadow
    ensures k in Cleared(c).rows && Cleared(c).rows[k] == c.rows[k]
  {
    hide PendingOps, WithoutRefused, RefusedKeys, RefusedIds, Materialize, Overlay;
  }

  lemma {:induction false} DiscardingKeepsPending(ms: seq<Stored>, ids: set<OpId>)
    ensures PendingOps(WithoutRefused(ms, ids)) == PendingOps(ms)
    ensures forall i | 0 <= i < |WithoutRefused(ms, ids)| :: WithoutRefused(ms, ids)[i] in ms
    decreases |ms|
  {
    if ms != [] {
      var front, last := ms[..|ms| - 1], ms[|ms| - 1];
      DiscardingKeepsPending(front, ids);
      if last.status.Refused? && last.op.opId in ids {
        assert WithoutRefused(front, ids) + [] == WithoutRefused(front, ids);
        assert PendingOps(front) + [] == PendingOps(front);
      } else {
        PendingAppend(WithoutRefused(front, ids), last);
      }
    }
  }

  function Without(ops: seq<Mutation>, o: OpId): seq<Mutation>
    decreases |ops|
  {
    if ops == [] then []
    else Without(ops[..|ops| - 1], o) + if ops[|ops| - 1].opId == o then [] else [ops[|ops| - 1]]
  }

  /** An acknowledgement takes its operation, and no other, off the outbox. */
  lemma {:induction false} SettleRemoves(ms: seq<Stored>, ack: Ack)
    ensures PendingOps(Settle(ms, ack)) == Without(PendingOps(ms), ack.opId)
    decreases |ms|
  {
    if ms != [] {
      var front, last := ms[..|ms| - 1], ms[|ms| - 1];
      SettleRemoves(front, ack);
      if last.op.opId == ack.opId && !(ack.status.Done? && ack.status.outcome.Rejected?) {
        assert Settle(front, ack) + [] == Settle(front, ack);
      } else {
        PendingAppend(Settle(front, ack), Settle(ms, ack)[|Settle(front, ack)|]);
      }
      if last.status.Pending? {
        assert PendingOps(ms)[..|PendingOps(ms)| - 1] == PendingOps(front);
      } else {
        assert PendingOps(ms) == PendingOps(front);
      }
    }
  }

  function Known(m: map<Key, Data>, k: Key): Option<Data> {
    if k in m then Some(m[k]) else None
  }

  function RowChanges(rows: seq<LogRow>): (cs: seq<Change>)
    ensures |cs| == |rows|
    ensures forall i | 0 <= i < |rows| :: cs[i] == rows[i].entry.change
  {
    seq(|rows|, i requires 0 <= i < |rows| => rows[i].entry.change)
  }

  /** Replaying a page onto the shadow replays it onto each key. */
  lemma {:induction false} ShadowReplays(shadow: map<Key, Data>, rows: seq<LogRow>, k: Key)
    ensures Known(ShadowAfter(shadow, rows), k) == Replay(Known(shadow, k), k, RowChanges(rows))
    decreases |rows|
  {
    if rows != [] {
      ShadowReplays(shadow, rows[..|rows| - 1], k);
      assert RowChanges(rows)[..|rows| - 1] == RowChanges(rows[..|rows| - 1]);
    }
  }

  lemma {:induction false} ReplayUntouched(s: Option<Data>, k: Key, ops: seq<Mutation>)
    requires !Touches(ops, k)
    ensures Replay(s, k, OpChanges(ops)) == s
    decreases |ops|
  {
    if ops != [] {
      var front := ops[..|ops| - 1];
      assert OpChanges(ops)[..|ops| - 1] == OpChanges(front);
      assert !Touches(front, k) by {
        assert forall i | 0 <= i < |front| :: front[i] == ops[i];
      }
      ReplayUntouched(s, k, front);
    }
  }
}
