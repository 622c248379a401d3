/**
 What a client's shadow and visible rows say about the account. A client loads
 the tables once, at `base`, and reads the log from there; a row without pending
 operations is the shadow's row. Tables hold parsed values and the log the texts
 that were sent, so what a client knows is pieced together of both.
 */
module Projection {
  import opened Prelude
  import opened Dates
  import opened Rows
  import opened Mutations
  import opened Server
  import opened Ledger
  import opened Client
  import opened Merge

  /** What a client knows of a row once it has read everything: the row stored
      at `base`, rewritten by the entries logged since. */
  function Pieced(r: Rules, h: seq<Entry>, base: nat, k: Key): Option<Data>
    requires base <= |h|
  {
    Replay(DataOf(Redo(r, h[..base], k)), k, Changes(h[base..]))
  }

  /** Replaying the unread entries onto the shadow gives just that. */
  ghost predicate Caught(r: Rules, shadow: map<Key, Data>, base: nat, cursor: nat, h: seq<Entry>) {
    base <= cursor <= |h| && forall k :: RowCaught(r, shadow, base, cursor, h, k)
  }

  ghost predicate RowCaught(r: Rules, shadow: map<Key, Data>, base: nat, cursor: nat, h: seq<Entry>, k: Key)
    requires base <= |h| && cursor <= |h|
  {
    SameView(k.entity, Replay(Known(shadow, k), k, Changes(h[cursor..])), Pieced(r, h, base, k))
  }

  /** `stale` holds the rows that were deleted on both sides when the client first
      logged in, with other columns there than here, and not rewritten since. */
  ghost predicate Shown(c: Store, stale: set<Key>) {
    forall k | k in c.shadow && k.entity != DayPlan && !Touches(PendingOps(c.mutations), k) ::
      RowShown(c, stale, k)
  }

  ghost predicate RowShown(c: Store, stale: set<Key>, k: Key)
    requires k in c.shadow
  {
    && k in c.rows
    && (if k in stale then
          c.rows[k].deleted && c.shadow[k].deleted && c.rows[k] != Materialize(k.entity, c.shadow[k])
        else c.rows[k] == Materialize(k.entity, c.shadow[k]))
  }

  /** No entry read since the tables were loaded names one of these rows. */
  ghost predicate Unread(h: seq<Entry>, base: nat, cursor: nat, stale: set<Key>) {
    forall i | base <= i < cursor && i < |h| :: h[i].change.key !in stale
  }

  // ---------------------------------------------------------------------
  // Shadows
  // ---------------------------------------------------------------------

  lemma {:induction false} ChangesConcat(a: seq<Entry>, b: seq<Entry>)
    ensures Changes(a + b) == Changes(a) + Changes(b)
  {
  }

  lemma {:induction false} ReplayFrom(s: Option<Data>, k: Key, h: seq<Entry>, i: nat, j: nat)
    requires i <= j <= |h|
    ensures Replay(s, k, Changes(h[i..])) == Replay(Replay(s, k, Changes(h[i..j])), k, Changes(h[j..]))
  {
    assert h[i..] == h[i..j] + h[j..];
    ChangesConcat(h[i..j], h[j..]);
    ReplayConcat(s, k, Changes(h[i..j]), Changes(h[j..]));
  }

  lemma {:induction false} ReplayKeepsView(x: Option<Data>, y: Option<Data>, k: Key, cs: seq<Change>)
    requires SameView(k.entity, x, y)
    ensures SameView(k.entity, Replay(x, k, cs), Replay(y, k, cs))
  {
    ReplayAgree(x, y, k, cs);
  }

  lemma {:induction false} PiecedGrows(r: Rules, h: seq<Entry>, more: seq<Entry>, base: nat, k: Key)
    requires base <= |h|
    ensures Pieced(r, h + more, base, k) == Replay(Pieced(r, h, base, k), k, Changes(more))
  {
    assert (h + more)[..base] == h[..base] && (h + more)[base..] == h[base..] + more;
    ChangesConcat(h[base..], more);
    ReplayConcat(DataOf(Redo(r, h[..base], k)), k, Changes(h[base..]), Changes(more));
  }

  lemma {:induction false} CaughtGrows(r: Rules, shadow: map<Key, Data>, base: nat, cursor: nat, h: seq<Entry>,
                                       h': seq<Entry>)
    requires Caught(r, shadow, base, cursor, h) && h <= h'
    ensures Caught(r, shadow, base, cursor, h')
  {
    hide Pieced, Replay, Changes, Redo, SameView;
    var more := h'[|h|..];
    assert h' == h + more && h'[cursor..] == h[cursor..] + more;
    forall k ensures RowCaught(r, shadow, base, cursor, h', k) {
      assert RowCaught(r, shadow, base, cursor, h, k);
      PiecedGrows(r, h, more, base, k);
      ChangesConcat(h[cursor..], more);
      ReplayConcat(Known(shadow, k), k, Changes(h[cursor..]), Changes(more));
      ReplayKeepsView(Replay(Known(shadow, k), k, Changes(h[cursor..])), Pieced(r, h, base, k), k, Changes(more));
    }
  }

  /** Reading the next page of the log. */
  lemma {:induction false} CaughtByPage(r: Rules, shadow: map<Key, Data>, base: nat, cursor: nat, h: seq<Entry>,
                                        rows: seq<LogRow>, next: nat)
    requires Caught(r, shadow, base, cursor, h) && cursor <= next <= |h|
    requires RowChanges(rows) == Changes(h[cursor..next])
    ensures Caught(r, ShadowAfter(shadow, rows), base, next, h)
  {
    hide Pieced, Replay, Changes, RowChanges, ShadowAfter, SameView;
    forall k ensures RowCaught(r, ShadowAfter(shadow, rows), base, next, h, k) {
      assert RowCaught(r, shadow, base, cursor, h, k);
      ShadowReplays(shadow, rows, k);
      ReplayFrom(Known(shadow, k), k, h, cursor, next);
    }
  }

  /** Rows that a page names are no longer among the unread ones. */
  lemma {:induction false} UnreadByPage(h: seq<Entry>, base: nat, cursor: nat, stale: set<Key>, rows: seq<LogRow>,
                                        next: nat)
    requires Unread(h, base, cursor, stale) && cursor <= next <= |h|
    requires RowChanges(rows) == Changes(h[cursor..next])
    ensures Unread(h, base, next, stale - ChangedKeys(rows))
  {
    forall i | base <= i < next ensures h[i].change.key !in stale - ChangedKeys(rows) {
      if cursor <= i {
        assert RowChanges(rows)[i - cursor] == h[cursor..next][i - cursor].change;
        assert rows[i - cursor].entry.change.key in ChangedKeys(rows);
      }
    }
  }

  // ---------------------------------------------------------------------
  // Snapshots read row by row
  // ---------------------------------------------------------------------

  /** Snapshot rows: the row of `k` is read when the log is `readAt[k]` long. */
  function Snapshot(r: Rules, h: seq<Entry>, readAt: map<Key, nat>): map<Key, Data>
    requires forall k | k in readAt :: readAt[k] <= |h| && Redo(r, h[..readAt[k]], k).Some?
  {
    map k | k in readAt :: BootstrapRow(k.entity, Redo(r, h[..readAt[k]], k).value.data)
  }

  /** Every row is read at or after the cursor, and none that existed at the
      cursor is left out. */
  ghost predicate Readable(r: Rules, h: seq<Entry>, cursor: nat, readAt: map<Key, nat>) {
    && cursor <= |h|
    && (forall k | k in readAt :: cursor <= readAt[k] <= |h| && Redo(r, h[..readAt[k]], k).Some?)
    && (forall k | Redo(r, h[..cursor], k).Some? :: k in readAt)
  }

  lemma {:induction false} BootstrapRowIsMaterialized(r: Rules, h: seq<Entry>, i: nat, k: Key)
    requires EverValid(r, h) && i <= |h| && Redo(r, h[..i], k).Some?
    ensures var d := Redo(r, h[..i], k).value.data; BootstrapRow(k.entity, d) == Materialize(k.entity, d)
  {
    var d := Redo(r, h[..i], k).value.data;
    assert ValidFields(r, k.entity, d.fields);
    assert Rank in d.fields && ValidCell(r, k.entity, Rank, d.fields[Rank]);
    assert d.fields[Rank] != Text("");
  }

  lemma {:induction false} MaterializeTwice(e: Entity, d: Data)
    ensures Materialize(e, Materialize(e, d)) == Materialize(e, d)
  {
    MaterializeSameView(e, d);
    SameViewIffSameRow(e, Materialize(e, d), d);
  }

  /** A snapshot row looks like the server's row at the time it was read. */
  lemma {:induction false} SnapshotView(r: Rules, h: seq<Entry>, cursor: nat, readAt: map<Key, nat>, k: Key)
    requires EverValid(r, h) && Readable(r, h, cursor, readAt)
    ensures var i := if k in readAt then readAt[k] else cursor;
            SameView(k.entity, Known(Snapshot(r, h, readAt), k), DataOf(Redo(r, h[..i], k)))
  {
    if k in readAt {
      BootstrapRowIsMaterialized(r, h, readAt[k], k);
      MaterializeSameView(k.entity, Redo(r, h[..readAt[k]], k).value.data);
    }
  }

  lemma {:induction false} NoWriteBefore(h: seq<Entry>, i: nat, j: nat, k: Key, slot: Slot)
    requires i <= j <= |h| && NoWrite(Changes(h[i..]), k, slot)
    ensures NoWrite(Changes(h[..j][i..]), k, slot)
  {
    assert forall n | 0 <= n < j - i :: Changes(h[..j][i..])[n] == Changes(h[i..])[n];
  }

  /** A row that was stored at `i`, in what the log does not rewrite after an
      earlier `cursor`. */
  lemma {:induction false} StoredThrough(r: Rules, h: seq<Entry>, cursor: nat, i: nat, k: Key, slot: Slot)
    requires cursor <= i <= |h| && ValidSlot(k.entity, slot) && NoWrite(Changes(h[cursor..]), k, slot)
    ensures Read(DataOf(Redo(r, h[..i], k)), slot) == Read(DataOf(Redo(r, h[..cursor], k)), slot)
  {
    hide Redo, NoWrite, Read;
    NoWriteBefore(h, cursor, i, k, slot);
    RedoReads(r, h[..i], cursor, k, slot);
    assert h[..i][..cursor] == h[..cursor];
  }

  /** The fuzzy snapshot: rows read at different times are, in what the log will
      not rewrite, the rows stored at the cursor. */
  lemma {:induction false} CaughtBySnapshot(r: Rules, h: seq<Entry>, cursor: nat, readAt: map<Key, nat>)
    requires EverValid(r, h) && Readable(r, h, cursor, readAt)
    ensures Caught(r, Snapshot(r, h, readAt), cursor, cursor, h)
  {
    hide EverValid, Redo, NoWrite, Replay, Changes, BootstrapRow;
    var shadow := Snapshot(r, h, readAt);
    forall k ensures RowCaught(r, shadow, cursor, cursor, h, k) {
      SnapshotView(r, h, cursor, readAt, k);
      hide Snapshot;
      var i := if k in readAt then readAt[k] else cursor;
      forall slot | ValidSlot(k.entity, slot) && NoWrite(Changes(h[cursor..]), k, slot)
        ensures Read(Known(shadow, k), slot) == Read(DataOf(Redo(r, h[..cursor], k)), slot)
      {
        StoredThrough(r, h, cursor, i, k, slot);
      }
      ReplayAgree(Known(shadow, k), DataOf(Redo(r, h[..cursor], k)), k, Changes(h[cursor..]));
    }
  }

  /** Snapshot rows are already in the form in which they are shown. */
  lemma {:induction false} SnapshotRowsMaterialized(r: Rules, h: seq<Entry>, cursor: nat, readAt: map<Key, nat>, k: Key)
    requires EverValid(r, h) && Readable(r, h, cursor, readAt) && k in readAt
    ensures Materialize(k.entity, Snapshot(r, h, readAt)[k]) == Snapshot(r, h, readAt)[k]
  {
    BootstrapRowIsMaterialized(r, h, readAt[k], k);
    MaterializeTwice(k.entity, Redo(r, h[..readAt[k]], k).value.data);
  }

  // ---------------------------------------------------------------------
  // Rows
  // ---------------------------------------------------------------------

  lemma {:induction false} TouchesMore(ops: seq<Mutation>, op: Mutation, k: Key)
    ensures Touches(ops + [op], k) <==> Touches(ops, k) || op.change.key == k
  {
    var more := ops + [op];
    assert more[|ops|] == op && forall i | 0 <= i < |ops| :: more[i] == ops[i];
  }

  lemma {:induction false} ShownAfterEdit(c: Store, stale: set<Key>, d: Device, change: Change, row: Data)
    requires Shown(c, stale)
    ensures Shown(Edited(c, d, change, row), stale)
  {
    hide PendingOps, Touches, Materialize;
    var c' := Edited(c, d, change, row);
    var op := NextOp(c, d, change);
    PendingAppend(c.mutations, Stored(op, Pending));
    forall k | k in c'.shadow && k.entity != DayPlan && !Touches(PendingOps(c'.mutations), k)
      ensures RowShown(c', stale, k)
    {
      TouchesMore(PendingOps(c.mutations), op, k);
      assert RowShown(c, stale, k);
    }
  }

  lemma {:induction false} ReprojectedShows(rows: map<Key, Data>, shadow: map<Key, Data>, ops: seq<Mutation>,
                                            keys: set<Key>, k: Key)
    requires k in keys && k in shadow && k.entity != DayPlan && !Touches(ops, k)
    ensures k in Reprojected(rows, shadow, ops, keys)
    ensures Reprojected(rows, shadow, ops, keys)[k] == Materialize(k.entity, shadow[k])
  {
    ReplayUntouched(Some(shadow[k]), k, ops);
  }

  lemma {:induction false} PageLeavesOthers(shadow: map<Key, Data>, rows: seq<LogRow>, k: Key)
    requires k !in ChangedKeys(rows)
    ensures Known(ShadowAfter(shadow, rows), k) == Known(shadow, k)
    decreases |rows|
  {
    if rows != [] {
      var front := rows[..|rows| - 1];
      assert k !in ChangedKeys(front) by {
        assert forall i | 0 <= i < |front| :: front[i] == rows[i];
      }
      PageLeavesOthers(shadow, front, k);
      assert rows[|rows| - 1].entry.change.key in ChangedKeys(rows);
    }
  }

  /** A row that an answer does not concern had nothing pending before. */
  lemma {:induction false} UnaskedUntouched(ms: seq<Stored>, acks: seq<Ack>, k: Key)
    requires |acks| <= |PendingOps(ms)| && k !in AckedKeys(ms, acks)
    requires forall i | 0 <= i < |acks| :: acks[i].opId == PendingOps(ms)[i].opId
    requires !Touches(PendingOps(ms)[|acks|..], k)
    ensures !Touches(PendingOps(ms), k)
  {
    var ops := PendingOps(ms);
    forall i | 0 <= i < |ops| ensures ops[i].change.key != k {
      if i < |acks| {
        var j :| 0 <= j < |ms| && ms[j] == Stored(ops[i], Pending);
        assert ms[j].op.opId == acks[i].opId;
        assert ops[i].change.key in AckedKeys(ms, acks);
      } else {
        assert ops[|acks|..][i - |acks|] == ops[i];
      }
    }
  }

  lemma {:induction false} ShownAfterAnswer(c: Store, stale: set<Key>, acks: seq<Ack>, changes: seq<LogRow>, next: nat)
    requires Shown(c, stale)
    requires |acks| <= |PendingOps(c.mutations)|
    requires forall i | 0 <= i < |acks| :: acks[i].opId == PendingOps(c.mutations)[i].opId
    requires PendingOps(SettleAll(c.mutations, acks)) == PendingOps(c.mutations)[|acks|..]
    ensures Shown(ApplyAnswer(c, acks, changes, next),
                  stale - (AckedKeys(c.mutations, acks) + ChangedKeys(changes)))
  {
    hide PendingOps, SettleAll, ShadowAfter, AckedKeys, ChangedKeys, Touches, Materialize;
    var c' := ApplyAnswer(c, acks, changes, next);
    var keys := AckedKeys(c.mutations, acks) + ChangedKeys(changes);
    forall k | k in c'.shadow && k.entity != DayPlan && !Touches(PendingOps(c'.mutations), k)
      ensures RowShown(c', stale - keys, k)
    {
      if k in keys {
        ReprojectedShows(c.rows, c'.shadow, PendingOps(c'.mutations), keys, k);
      } else {
        PageLeavesOthers(c.shadow, changes, k);
        UnaskedUntouched(c.mutations, acks, k);
        assert RowShown(c, stale, k);
      }
    }
  }

  lemma {:induction false} ShownAfterDiscard(c: Store, stale: set<Key>, ids: set<OpId>)
    requires Shown(c, stale)
    ensures Shown(Discarded(c, ids), stale - RefusedKeys(c.mutations, ids))
  {
    hide PendingOps, Touches, Materialize, RefusedKeys, WithoutRefused;
    var c' := Discarded(c, ids);
    DiscardingKeepsPending(c.mutations, ids);
    forall k | k in c'.shadow && k.entity != DayPlan && !Touches(PendingOps(c'.mutations), k)
      ensures RowShown(c', stale - RefusedKeys(c.mutations, ids), k)
    {
      if k in RefusedKeys(c.mutations, ids) {
        ReprojectedShows(c.rows, c.shadow, PendingOps(c'.mutations), RefusedKeys(c.mutations, ids), k);
      } else {
        assert RowShown(c, stale, k);
      }
    }
  }

  lemma {:induction false} ShownAfterRebase(c: Store, snapshot: map<Key, Data>, cursor: nat)
    requires forall k | k in snapshot :: Materialize(k.entity, snapshot[k]) == snapshot[k]
    ensures Shown(Rebased(c, snapshot, cursor), {})
  {
    var c' := Rebased(c, snapshot, cursor);
    forall k | k in c'.shadow && k.entity != DayPlan && !Touches(PendingOps(c'.mutations), k)
      ensures RowShown(c', {}, k)
    {
      assert k !in PendingKeys(PendingOps(c.mutations));
    }
  }

  lemma {:induction false} NumberedNext(d: Device, ops: seq<Change>)
    requires ops != []
    ensures var n := |ops| - 1;
            && Numbered(d, ops) == Numbered(d, ops[..n]) + [Numbered(d, ops)[n]]
            && AsOperations(d, ops) == AsOperations(d, ops[..n]) + [AsOperations(d, ops)[n]]
  {
  }

  lemma {:induction false} NumberedPending(d: Device, ops: seq<Change>)
    ensures PendingOps(Numbered(d, ops)) == AsOperations(d, ops)
    decreases |ops|
  {
    if ops == [] {
      assert Numbered(d, ops) == [];
    } else {
      hide PendingOps;
      var n := |ops| - 1;
      NumberedPending(d, ops[..n]);
      NumberedNext(d, ops);
      PendingAppend(Numbered(d, ops[..n]), Numbered(d, ops)[n]);
    }
  }

  lemma {:induction false} OfEntityKeeps(ops: seq<Change>, op: Change)
    ensures op in OfEntity(ops, op.key.entity) <==> op in ops
    decreases |ops|
  {
    if ops != [] {
      OfEntityKeeps(ops[..|ops| - 1], op);
      assert ops == ops[..|ops| - 1] + [ops[|ops| - 1]];
    }
  }

  lemma {:induction false} UnpreparedIsUntouched(d: Device, prepared: seq<Change>, k: Key)
    requires !Touches(AsOperations(d, Ordered(prepared)), k)
    ensures forall i | 0 <= i < |prepared| :: prepared[i].key != k
  {
    var ops := AsOperations(d, Ordered(prepared));
    forall i | 0 <= i < |prepared| ensures prepared[i].key != k {
      OfEntityKeeps(prepared, prepared[i]);
      assert prepared[i] in Ordered(prepared);
      var j :| 0 <= j < |Ordered(prepared)| && Ordered(prepared)[j] == prepared[i];
      assert ops[j].change == prepared[i];
    }
  }

  /** The rows that a first login leaves unlike the cloud's. */
  function LeftUnlike(cloud: map<Key, Stamped>, mode: Mode, locals: seq<LocalRow>): set<Key> {
    if mode == Cloud then {} else LocalTombstones(cloud, locals)
  }

  lemma {:induction false} ShownAfterInit(d: Device, cloud: map<Key, Stamped>, cursor: nat, mode: Mode,
                                          locals: seq<LocalRow>)
    requires DistinctKeys(locals)
    requires forall k | k in cloud :: Materialize(k.entity, cloud[k].data) == cloud[k].data
    ensures Shown(Initialized(d, cloud, cursor, mode, locals), LeftUnlike(cloud, mode, locals))
  {
    hide MergedRows, MergedOps, Ordered, PendingOps, AsOperations, Materialize, LocalTombstones;
    if mode == Combine {
      var c := Initialized(d, cloud, cursor, mode, locals);
      var prepared := MergedOps(cloud, locals);
      NumberedPending(d, Ordered(prepared));
      forall k | k in c.shadow && k.entity != DayPlan && !Touches(PendingOps(c.mutations), k)
        ensures RowShown(c, LeftUnlike(cloud, mode, locals), k)
      {
        UnpreparedIsUntouched(d, prepared, k);
        UntouchedRowsAreCloudRows(cloud, locals, k);
      }
    }
  }

  // ---------------------------------------------------------------------
  // Convergence of one client
  // ---------------------------------------------------------------------

  /** Whether a client that loaded the tables at `base` knows a column only as it
      was logged. */
  predicate Raw(h: seq<Entry>, base: nat, k: Key, f: Field)
    requires base <= |h|
  {
    !NoWrite(Changes(h[base..]), k, Column(f))
  }

  /** The text last logged for a column is shown as the parsed value would be. */
  predicate SpelledAlike(r: Rules, h: seq<Entry>, k: Key, f: Field) {
    Coerce(f, LastLogged(Changes(h), k, f)) == Coerce(f, Canonically(r, f, LastLogged(Changes(h), k, f)))
  }

  lemma {:induction false} LastLoggedLater(a: seq<Change>, b: seq<Change>, k: Key, f: Field)
    requires !NoWrite(b, k, Column(f))
    ensures LastLogged(a + b, k, f) == LastLogged(b, k, f)
    decreases |b|
  {
    var ab := a + b;
    assert ab[|ab| - 1] == b[|b| - 1] && ab[..|ab| - 1] == a + b[..|b| - 1];
    if !Writes(b[|b| - 1], k, Column(f)) {
      NoWriteNext(b, k, Column(f));
      LastLoggedLater(a, b[..|b| - 1], k, f);
    }
  }

  lemma {:induction false} LoggedSince(h: seq<Entry>, base: nat, k: Key, f: Field)
    requires base <= |h| && Raw(h, base, k, f)
    ensures LastLogged(Changes(h), k, f) == LastLogged(Changes(h[base..]), k, f)
  {
    hide LastLogged, NoWrite;
    assert h == h[..base] + h[base..];
    ChangesConcat(h[..base], h[base..]);
    LastLoggedLater(Changes(h[..base]), Changes(h[base..]), k, f);
  }

  /** What such a client knows, slot by slot, beside what is stored. */
  lemma {:induction false} PiecedReads(r: Rules, h: seq<Entry>, base: nat, k: Key, slot: Slot)
    requires base <= |h| && ValidSlot(k.entity, slot)
    ensures var known, stored := Read(Pieced(r, h, base, k), slot), Read(DataOf(Redo(r, h, k)), slot);
            if slot.Column? && Raw(h, base, k, slot.f) then
              && known == Coerce(slot.f, LastLogged(Changes(h), k, slot.f))
              && stored == Coerce(slot.f, Canonically(r, slot.f, LastLogged(Changes(h), k, slot.f)))
            else known == stored
  {
    hide Redo, NoWrite, LastWritten, LastLogged, Read, Canonically;
    var cs := Changes(h[base..]);
    ReadReplay(DataOf(Redo(r, h[..base], k)), k, cs, slot);
    RedoReads(r, h, base, k, slot);
    if slot.Column? && Raw(h, base, k, slot.f) {
      LastWrittenIsLogged(cs, k, slot.f);
      LoggedSince(h, base, k, slot.f);
    }
  }

  /** The cell that a client which has read everything shows. */
  function ShownCell(h: seq<Entry>, base: nat, stored: Data, k: Key, f: Field): Value
    requires base <= |h|
  {
    if Raw(h, base, k, f) then Coerce(f, LastLogged(Changes(h), k, f)) else Coerce(f, Lookup(stored.fields, f))
  }

  /** A row of the table as a client that has read everything shows it. */
  ghost predicate Mirrors(r: Rules, c: Store, stale: set<Key>, base: nat, h: seq<Entry>, stored: Data, k: Key)
    requires base <= |h|
  {
    && k in c.rows
    && c.rows[k].deleted == stored.deleted
    && (k !in stale ==>
          && c.rows[k].fields.Keys == Materialize(k.entity, stored).fields.Keys
          && (forall f | Mutable(k.entity, f) ::
                f in c.rows[k].fields && c.rows[k].fields[f] == ShownCell(h, base, stored, k, f)))
    && (c.rows[k] == Materialize(k.entity, stored) <==>
          k !in stale && forall f | Mutable(k.entity, f) && Raw(h, base, k, f) :: SpelledAlike(r, h, k, f))
  }

  lemma {:induction false} KnownIsPieced(r: Rules, c: Store, base: nat, h: seq<Entry>, k: Key)
    requires Caught(r, c.shadow, base, c.cursor, h) && c.cursor == |h|
    ensures SameView(k.entity, Known(c.shadow, k), Pieced(r, h, base, k))
  {
    hide Pieced;
    assert RowCaught(r, c.shadow, base, |h|, h, k);
    assert Changes(h[|h|..]) == [];
  }

  lemma {:induction false} UnreadIsStored(h: seq<Entry>, base: nat, stale: set<Key>, k: Key, f: Field)
    requires base <= |h| && Unread(h, base, |h|, stale) && k in stale
    ensures !Raw(h, base, k, f)
  {
    forall i | 0 <= i < |h| - base ensures Changes(h[base..])[i].key != k {
      assert h[base..][i] == h[base + i];
    }
  }

  /** The row a caught-up shadow gives. */
  lemma {:induction false} ShadowMirrors(r: Rules, c: Store, base: nat, h: seq<Entry>, stored: Row, k: Key)
    requires Caught(r, c.shadow, base, c.cursor, h) && c.cursor == |h| && Redo(r, h, k) == Some(stored)
    ensures k in c.shadow
    ensures var row := Materialize(k.entity, c.shadow[k]);
            && row.deleted == stored.data.deleted
            && row.fields.Keys == Materialize(k.entity, stored.data).fields.Keys
            && (forall f | Mutable(k.entity, f) ::
                  f in row.fields && row.fields[f] == ShownCell(h, base, stored.data, k, f))
            && (row == Materialize(k.entity, stored.data) <==>
                  forall f | Mutable(k.entity, f) && Raw(h, base, k, f) :: SpelledAlike(r, h, k, f))
  {
    KnownIsPieced(r, c, base, h, k);
    hide Redo, Pieced, LastLogged, Raw, Caught, Canonically;
    MutableFieldListIsMutable(k.entity);
    var known := Known(c.shadow, k);
    PiecedReads(r, h, base, k, Presence);
    assert Read(known, Presence) == Read(Pieced(r, h, base, k), Presence);
    PiecedReads(r, h, base, k, Deletion);
    assert Read(known, Deletion) == Read(Pieced(r, h, base, k), Deletion);
    var row, full := Materialize(k.entity, c.shadow[k]), Materialize(k.entity, stored.data);
    forall f | Mutable(k.entity, f)
      ensures f in row.fields && f in full.fields && row.fields[f] == ShownCell(h, base, stored.data, k, f)
      ensures row.fields[f] == full.fields[f] <==> (Raw(h, base, k, f) ==> SpelledAlike(r, h, k, f))
    {
      PiecedReads(r, h, base, k, Column(f));
      assert Read(known, Column(f)) == Read(Pieced(r, h, base, k), Column(f));
    }
    assert row.fields.Keys == full.fields.Keys;
    RowsEqual(k.entity, row, full);
  }

  lemma {:induction false} RowsEqual(e: Entity, x: Data, y: Data)
    requires forall f :: f in x.fields <==> Mutable(e, f)
    requires forall f :: f in y.fields <==> Mutable(e, f)
    ensures x == y <==> x.deleted == y.deleted && forall f | Mutable(e, f) :: x.fields[f] == y.fields[f]
  {
    if x.deleted == y.deleted && forall f | Mutable(e, f) :: x.fields[f] == y.fields[f] {
      assert x.fields == y.fields;
    }
  }

  lemma {:induction false} CaughtUpMirrors(r: Rules, c: Store, stale: set<Key>, base: nat, t: Table, h: seq<Entry>,
                                           k: Key)
    requires TableIsRedo(r, t, h) && k in t && k.entity != DayPlan
    requires Caught(r, c.shadow, base, c.cursor, h) && c.cursor == |h| && Unread(h, base, c.cursor, stale)
    requires Shown(c, stale) && !Touches(PendingOps(c.mutations), k)
    ensures Mirrors(r, c, stale, base, h, t[k].data, k)
  {
    assert Redo(r, h, k) == Some(t[k]) && base <= |h|;
    hide Redo, TableIsRedo, Caught, Materialize, ShownCell, Raw, SpelledAlike, PendingOps, Touches;
    ShadowMirrors(r, c, base, h, t[k], k);
    assert RowShown(c, stale, k);
    if k in stale {
      forall f ensures !Raw(h, base, k, f) {
        UnreadIsStored(h, base, stale, k, f);
      }
    }
  }

  // ---------------------------------------------------------------------
  // When the shown columns are the stored columns
  // ---------------------------------------------------------------------

  /** The client shows any stored value but an empty colour or icon and a date
      it cannot read. */
  predicate CellDisplayable(f: Field, v: Value) {
    && ((f == Color || f == Icon) ==> v != Text(""))
    && ((f == DueOn || f == LocalDate) && v.Text? ==> IsDateOnly(v.text))
  }

  predicate Displayable(e: Entity, fields: Fields) {
    forall f | f in fields && Mutable(e, f) :: CellDisplayable(f, fields[f])
  }

  lemma {:induction false} EpochIsDay()
    ensures IsDateOnly("1970-01-01")
  {
    var s := "1970-01-01";
    FourDigits(s[..4]);
    TwoDigits(s[5..7]);
    TwoDigits(s[8..]);
  }

  lemma {:induction false} CellShown(r: Rules, e: Entity, f: Field, v: Value)
    requires Mutable(e, f) && ValidCell(r, e, f, v)
    ensures Coerce(f, Some(v)) == v <==> CellDisplayable(f, v)
  {
    EpochIsDay();
    hide IsDateOnly;
  }

  lemma {:induction false} ColumnShown(r: Rules, e: Entity, d: Data, f: Field)
    requires ValidFields(r, e, d.fields)
    ensures f in Materialize(e, d).fields <==> Mutable(e, f)
    ensures f in MutablePatch(e, d.fields) <==> Mutable(e, f)
    ensures Mutable(e, f) ==>
              f in d.fields
              && (Materialize(e, d).fields[f] == MutablePatch(e, d.fields)[f] <==> CellDisplayable(f, d.fields[f]))
  {
    MutableFieldListIsMutable(e);
    if Mutable(e, f) {
      assert f in d.fields && ValidCell(r, e, f, d.fields[f]);
      CellShown(r, e, f, d.fields[f]);
    }
  }

  /** A shown row has the server's mutable columns exactly when each of them can
      be shown. */
  lemma {:induction false} ShownIsStored(r: Rules, e: Entity, d: Data)
    requires ValidFields(r, e, d.fields)
    ensures Materialize(e, d).fields == MutablePatch(e, d.fields) <==> Displayable(e, d.fields)
  {
    hide ValidFields, Materialize, MutablePatch, Mutable, CellDisplayable, Columns, MutableFieldList;
    var shown, stored := Materialize(e, d).fields, MutablePatch(e, d.fields);
    forall f
      ensures f in shown <==> f in stored
      ensures f in stored <==> Mutable(e, f)
      ensures f in stored ==> f in d.fields && (shown[f] == stored[f] <==> CellDisplayable(f, d.fields[f]))
    {
      ColumnShown(r, e, d, f);
    }
  }
}
