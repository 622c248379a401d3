/**
 The sync methods of the web repository, as they update its tables
 (apps/app/src/adapters/web-repository.ts), proved to compute the functions of
 `Client` and `Merge`. One Dexie transaction is one method call.
 */
module Repository {
  import opened Prelude
  import opened Rows
  import opened Mutations
  import opened Server
  import opened Client
  import opened Merge

  lemma {:induction false} PendingNext(ms: seq<Stored>, i: nat)
    requires i < |ms|
    ensures PendingOps(ms[..i + 1]) == PendingOps(ms[..i]) + if ms[i].status.Pending? then [ms[i].op] else []
  {
    assert ms[..i + 1] == ms[..i] + [ms[i]];
    PendingAppend(ms[..i], ms[i]);
  }

  lemma {:induction false} OverlayMore(base: Data, k: Key, ops: seq<Mutation>, op: Mutation)
    ensures Overlay(base, k, ops + [op])
         == if op.change.key == k then ApplyChange(Overlay(base, k, ops), op.change) else Overlay(base, k, ops)
  {
    var cs := OpChanges(ops + [op]);
    assert cs[..|cs| - 1] == OpChanges(ops) && cs[|cs| - 1] == op.change;
    SomeStays(base, k, OpChanges(ops));
  }

  lemma {:induction false} SomeStays(base: Data, k: Key, cs: seq<Change>)
    ensures Replay(Some(base), k, cs).Some?
    decreases |cs|
  {
    if cs != [] {
      SomeStays(base, k, cs[..|cs| - 1]);
    }
  }

  lemma {:induction false} SettleAllNext(ms: seq<Stored>, acks: seq<Ack>, i: nat)
    requires i < |acks|
    ensures SettleAll(ms, acks[..i + 1]) == Settle(SettleAll(ms, acks[..i]), acks[i])
  {
    assert acks[..i + 1][..i] == acks[..i];
  }

  lemma {:induction false} ShadowNext(shadow: map<Key, Data>, rows: seq<LogRow>, i: nat)
    requires i < |rows|
    ensures ShadowAfter(shadow, rows[..i + 1]) == ShadowStep(ShadowAfter(shadow, rows[..i]), rows[i])
  {
    assert rows[..i + 1][..i] == rows[..i];
  }

  lemma {:induction false} NothingRefused(ids: set<OpId>)
    ensures WithoutRefused([], ids) == [] && RefusedKeys([], ids) == {}
  {
  }

  lemma {:induction false} RefusedNext(ms: seq<Stored>, ids: set<OpId>, i: nat)
    requires i < |ms|
    ensures var m := ms[i];
            if m.status.Refused? && m.op.opId in ids then
              && WithoutRefused(ms[..i + 1], ids) == WithoutRefused(ms[..i], ids)
              && RefusedKeys(ms[..i + 1], ids) == RefusedKeys(ms[..i], ids) + {m.op.change.key}
            else
              && WithoutRefused(ms[..i + 1], ids) == WithoutRefused(ms[..i], ids) + [m]
              && RefusedKeys(ms[..i + 1], ids) == RefusedKeys(ms[..i], ids)
  {
    assert ms[..i + 1] == ms[..i] + [ms[i]];
    assert ms[..i + 1][..i] == ms[..i];
  }

  lemma {:induction false} ReprojectedOne(rows: map<Key, Data>, shadow: map<Key, Data>, ops: seq<Mutation>,
                                          keys: set<Key>,
                                          k: Key)
    ensures Reprojected(Reprojected(rows, shadow, ops, keys), shadow, ops, {k})
         == Reprojected(rows, shadow, ops, keys + {k})
  {
    hide Materialize, Overlay;
  }

  /** How discarding one refused operation ends. */
  datatype Discarding = Nothing | NotRefused | Aborted

  function FindOp(ms: seq<Stored>, opId: OpId): (found: Option<Stored>)
    ensures found.None? <==> forall i | 0 <= i < |ms| :: ms[i].op.opId != opId
    ensures found.Some? ==> found.value in ms && found.value.op.opId == opId
    decreases |ms|
  {
    if ms == [] then None else if ms[0].op.opId == opId then Some(ms[0]) else FindOp(ms[1..], opId)
  }

  class WebRepository {
    const deviceId: Device
    var mutations: seq<Stored>
    var clientSeq: nat
    var syncCursor: nat
    var shadow: map<Key, Data>
    var rows: map<Key, Data>

    constructor (device: Device)
      ensures State() == Store([], 0, 0, map[], map[]) && deviceId == device
    {
      deviceId := device;
      mutations, clientSeq, syncCursor, shadow, rows := [], 0, 0, map[], map[];
    }

    function State(): Store
      reads this
    {
      Store(mutations, clientSeq, syncCursor, shadow, rows)
    }

    /** A local edit: the row is put and the change is queued. */
    method PutAndAppend(change: Change, row: Data)
      modifies this
      ensures State() == Edited(old(State()), deviceId, change, row)
    {
      if change.key.entity != DayPlan {
        rows := rows[change.key := row];
      }
      var next := clientSeq + 1;
      clientSeq := next;
      mutations := mutations + [Stored(Mutation(OpId(deviceId, next), next, change), Pending)];
    }

    method SyncGetPending(limit: nat) returns (ops: seq<Mutation>)
      ensures var pending, n := PendingOps(mutations), Max(1, limit);
              ops == if |pending| <= n then pending else pending[..n]
    {
      ops := [];
      for i := 0 to |mutations|
        invariant ops == PendingOps(mutations[..i])
      {
        PendingNext(mutations, i);
        if mutations[i].status.Pending? {
          ops := ops + [mutations[i].op];
        }
      }
      assert mutations[..|mutations|] == mutations;
      var n := Max(1, limit);
      if n < |ops| {
        ops := ops[..n];
      }
    }

    /** The loop of `reprojectEntity` and of `syncReplaceSnapshot` over the
        pending operations of one row. */
    method ApplyPending(k: Key, base: Data) returns (data: Data)
      ensures data == Overlay(base, k, PendingOps(mutations))
    {
      data := base;
      assert OpChanges([]) == [];
      for i := 0 to |mutations|
        invariant data == Overlay(base, k, PendingOps(mutations[..i]))
      {
        hide Overlay, PendingOps;
        PendingNext(mutations, i);
        var m := mutations[i];
        if m.status.Pending? {
          OverlayMore(base, k, PendingOps(mutations[..i]), m.op);
          if m.op.change.key == k {
            data := ApplyToData(data, m.op.change);
          }
        } else {
          assert PendingOps(mutations[..i]) + [] == PendingOps(mutations[..i]);
        }
      }
      assert mutations[..|mutations|] == mutations;
    }

    method ReprojectEntity(k: Key)
      modifies `rows
      ensures rows == Reprojected(old(rows), shadow, PendingOps(mutations), {k})
    {
      if k !in shadow {
        return;
      }
      var data := ApplyPending(k, shadow[k]);
      if k.entity != DayPlan {
        rows := rows[k := Materialize(k.entity, data)];
      }
    }

    /** `reprojectEntity` for every affected row, in whatever order. */
    method ReprojectAll(affected: set<Key>)
      modifies `rows
      ensures rows == Reprojected(old(rows), shadow, PendingOps(mutations), affected)
    {
      hide Materialize, Overlay, PendingOps;
      var left := affected;
      while left != {}
        invariant left <= affected
        invariant rows == Reprojected(old(rows), shadow, PendingOps(mutations), affected - left)
        decreases |left|
      {
        var k :| k in left;
        hide Reprojected;
        ReprojectEntity(k);
        ReprojectedOne(old(rows), shadow, PendingOps(mutations), affected - left, k);
        assert affected - left + {k} == affected - (left - {k});
        left := left - {k};
      }
      assert affected - {} == affected;
    }

    /** The loop over the acknowledgements. */
    method SettleAcks(acks: seq<Ack>) returns (affected: set<Key>)
      modifies `mutations
      ensures mutations == SettleAll(old(mutations), acks)
      ensures affected == AckedKeys(old(mutations), acks)
    {
      affected := {};
      ghost var before := mutations;
      var acknowledged := mutations;
      for i := 0 to |acks|
        invariant mutations == SettleAll(before, acks[..i])
        invariant affected == AckedKeys(before, acks[..i])
      {
        SettleAllNext(before, acks, i);
        AckedKeysNext(before, acks, i);
        affected := affected + KeysOf(acknowledged, acks[i].opId);
        SettleOne(acks[i]);
      }
      assert acks[..|acks|] == acks;
    }

    /** `update` or `delete` by primary key. */
    method SettleOne(ack: Ack)
      modifies `mutations
      ensures mutations == Settle(old(mutations), ack)
    {
      var kept: seq<Stored> := [];
      for i := 0 to |mutations|
        invariant mutations == old(mutations)
        invariant kept == Settle(mutations[..i], ack)
      {
        var m := mutations[i];
        assert mutations[..i + 1] == mutations[..i] + [m];
        assert mutations[..i + 1][..i] == mutations[..i];
        if m.op.opId != ack.opId {
          kept := kept + [m];
        } else if ack.status.Done? && ack.status.outcome.Rejected? {
          kept := kept + [m.(status := Refused(ack.status.outcome.code))];
        }
      }
      assert mutations[..|mutations|] == mutations;
      mutations := kept;
    }

    /** The loop over the changes. */
    method ApplyChanges(changes: seq<LogRow>) returns (affected: set<Key>)
      modifies `shadow
      ensures shadow == ShadowAfter(old(shadow), changes)
      ensures affected == ChangedKeys(changes)
    {
      affected := {};
      for i := 0 to |changes|
        invariant shadow == ShadowAfter(old(shadow), changes[..i])
        invariant affected == ChangedKeys(changes[..i])
      {
        ShadowNext(old(shadow), changes, i);
        var change := changes[i].entry.change;
        assert changes[..i + 1] == changes[..i] + [changes[i]];
        affected := affected + {change.key};
        var data := ApplyToData(if change.key in shadow then shadow[change.key] else EMPTY_DATA, change);
        shadow := shadow[change.key := data];
      }
      assert changes[..|changes|] == changes;
    }

    method SyncApplyResult(acks: seq<Ack>, changes: seq<LogRow>, nextCursor: nat)
      modifies this
      ensures State() == ApplyAnswer(old(State()), acks, changes, nextCursor)
    {
      hide AckedKeys, ChangedKeys, ShadowAfter, SettleAll, Reprojected;
      var acked := SettleAcks(acks);
      var changed := ApplyChanges(changes);
      ReprojectAll(acked + changed);
      syncCursor := nextCursor;
    }

    /** The loop over the rows that pending operations touch. */
    method RebuildPending(snapshot: map<Key, Data>, keys: set<Key>) returns (rebuilt: map<Key, Data>)
      ensures rebuilt == Rebuilt(State(), snapshot, PendingOps(mutations), keys)
    {
      hide Materialize, Overlay, PendingOps;
      rebuilt := map[];
      var left := keys;
      while left != {}
        invariant left <= keys
        invariant rebuilt == Rebuilt(State(), snapshot, PendingOps(mutations), keys - left)
        decreases |left|
      {
        var k :| k in left;
        var data := ApplyPending(k, if k in snapshot then snapshot[k] else if k in rows then rows[k] else EMPTY_DATA);
        rebuilt := rebuilt[k := Materialize(k.entity, data)];
        left := left - {k};
      }
      assert keys - {} == keys;
    }

    /** `syncReplaceSnapshot`: the outbox stays and is replayed over the new rows. */
    method SyncReplaceSnapshot(snapshot: map<Key, Data>, cursor: nat)
      modifies this
      ensures State() == Rebased(old(State()), snapshot, cursor)
    {
      hide PendingOps, Rebuilt, PendingKeys;
      PendingIsShort(mutations);
      var pending := SyncGetPending(|mutations| + 1);
      var rebuilt := RebuildPending(snapshot, PendingKeys(pending));
      rows := Visible(snapshot) + rebuilt;
      shadow := snapshot;
      syncCursor := cursor;
    }

    /** `syncClearRejected`. */
    method ClearRejected()
      modifies this
      ensures State() == Cleared(old(State()))
    {
      hide PendingOps, Reprojected, WithoutRefused, RefusedKeys;
      ghost var ids := RefusedIds(mutations);
      var kept: seq<Stored> := [];
      var affected: set<Key> := {};
      NothingRefused(ids);
      for i := 0 to |mutations|
        invariant State() == old(State())
        invariant kept == WithoutRefused(mutations[..i], ids)
        invariant affected == RefusedKeys(mutations[..i], ids)
      {
        var m := mutations[i];
        RefusedNext(mutations, ids, i);
        assert m.status.Refused? ==> m.op.opId in ids;
        if m.status.Refused? {
          affected := affected + {m.op.change.key};
        } else {
          kept := kept + [m];
        }
      }
      assert mutations[..|mutations|] == mutations;
      mutations := kept;
      ReprojectAll(affected);
    }

    /** `syncDiscardRejected`. Its transaction does not name the shadow table that
        reprojecting reads, so it is aborted and what it deleted is back. */
    method DiscardRejected(opId: OpId) returns (result: Discarding)
      modifies this
      ensures State() == old(State())
      ensures result == match FindOp(mutations, opId)
                        case None => Nothing
                        case Some(m) => if m.status.Refused? then Aborted else NotRefused
    {
      var found := FindOp(mutations, opId);
      if found.None? {
        return Nothing;
      }
      if !found.value.status.Refused? {
        return NotRefused;
      }
      var before := mutations;
      mutations := WithoutRefused(mutations, {opId});
      mutations := before;
      return Aborted;
    }

    /** `syncInitializeCloud`. */
    method SyncInitializeCloud(cloud: map<Key, Stamped>, cursor: nat, mode: Mode, lists: seq<LocalRow>,
                               tasks: seq<LocalRow>, steps: seq<LocalRow>, plans: seq<LocalRow>)
      modifies this
      ensures State() == Initialized(deviceId, cloud, cursor, mode, lists + tasks + steps + plans)
    {
      mutations := [];
      shadow := CloudData(cloud);
      syncCursor := cursor;
      if mode == Cloud {
        rows := Visible(CloudData(cloud));
        clientSeq := 0;
        return;
      }
      var merged, ordered := MergeLocalTables(cloud, lists, tasks, steps, plans);
      var prepared := PrepareOperations(ordered);
      rows := Visible(merged);
      mutations := prepared;
      clientSeq := |prepared|;
    }

    method PrepareOperations(ordered: seq<Change>) returns (prepared: seq<Stored>)
      ensures prepared == Numbered(deviceId, ordered)
    {
      prepared := [];
      for i := 0 to |ordered|
        invariant |prepared| == i
        invariant forall j | 0 <= j < i ::
          prepared[j] == Stored(Mutation(OpId(deviceId, j + 1), j + 1, ordered[j]), Pending)
      {
        prepared := prepared + [Stored(Mutation(OpId(deviceId, i + 1), i + 1, ordered[i]), Pending)];
      }
    }
  }

  function KeysOf(ms: seq<Stored>, o: OpId): set<Key> {
    set i | 0 <= i < |ms| && ms[i].op.opId == o :: ms[i].op.change.key
  }

  lemma {:induction false} AckedKeysNext(ms: seq<Stored>, acks: seq<Ack>, i: nat)
    requires i < |acks|
    ensures AckedKeys(ms, acks[..i + 1]) == AckedKeys(ms, acks[..i]) + KeysOf(ms, acks[i].opId)
  {
    var x, y := AckedKeys(ms, acks[..i + 1]), AckedKeys(ms, acks[..i]) + KeysOf(ms, acks[i].opId);
    forall k | k in x ensures k in y {
      var m, j :| 0 <= m < |ms| && 0 <= j < i + 1 && ms[m].op.opId == acks[..i + 1][j].opId && ms[m].op.change.key == k;
      if j < i {
        assert acks[..i][j] == acks[..i + 1][j];
      }
    }
    forall k | k in y ensures k in x {
      if k in AckedKeys(ms, acks[..i]) {
        var m, j :| 0 <= m < |ms| && 0 <= j < i && ms[m].op.opId == acks[..i][j].opId && ms[m].op.change.key == k;
        assert acks[..i][j] == acks[..i + 1][j];
      } else {
        var m :| 0 <= m < |ms| && ms[m].op.opId == acks[i].opId && ms[m].op.change.key == k;
        assert acks[..i + 1][i] == acks[i];
      }
    }
  }

  lemma {:induction false} PendingIsShort(ms: seq<Stored>)
    ensures |PendingOps(ms)| <= |ms|
    decreases |ms|
  {
    if ms != [] {
      PendingIsShort(ms[..|ms| - 1]);
    }
  }
}
