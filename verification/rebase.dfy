/**
 Loading a fresh snapshot over a client with pending operations: it ends where
 reading the missing changes one by one would have ended.
 */
module Rebasing {
  import opened Prelude
  import opened Rows
  import opened Mutations
  import opened Server
  import opened Ledger
  import opened Client
  import opened Projection
  import Repository

  /** The row `reprojectEntity` puts for a key with a shadow. */
  function Projected(c: Store, k: Key): Data
    requires k in c.shadow
  {
    Materialize(k.entity, Overlay(c.shadow[k], k, PendingOps(c.mutations)))
  }

  lemma {:induction false} ReadToEnd(r: Rules, shadow: map<Key, Data>, base: nat, cursor: nat, h: seq<Entry>,
                                     rows: seq<LogRow>)
    requires Caught(r, shadow, base, cursor, h) && RowChanges(rows) == Changes(h[cursor..])
    ensures Caught(r, ShadowAfter(shadow, rows), base, |h|, h)
  {
    assert cursor <= |h|;
    hide Caught, RowChanges, Changes, ShadowAfter;
    assert h[cursor..|h|] == h[cursor..];
    CaughtByPage(r, shadow, base, cursor, h, rows, |h|);
  }

  /** A cell as a client knows it that loaded the tables at `base` and has read
      the log to its end. */
  function KnownCell(r: Rules, h: seq<Entry>, base: nat, k: Key, f: Field): Value
    requires base <= |h|
  {
    if Raw(h, base, k, f) then Coerce(f, LastLogged(Changes(h), k, f)) else Read(DataOf(Redo(r, h, k)), Column(f))
  }

  /** Two such clients know a cell alike exactly if both know it parsed, or both as
      it was logged, or it makes no difference. */
  lemma {:induction false} KnownAlike(r: Rules, h: seq<Entry>, a: nat, b: nat, k: Key, f: Field)
    requires a <= |h| && b <= |h| && Mutable(k.entity, f)
    ensures KnownCell(r, h, a, k, f) == KnownCell(r, h, b, k, f)
            <==> Raw(h, a, k, f) == Raw(h, b, k, f) || SpelledAlike(r, h, k, f)
  {
    hide Redo, LastLogged, Canonically, Raw;
    PiecedReads(r, h, a, k, Column(f));
    PiecedReads(r, h, b, k, Column(f));
  }

  lemma {:induction false} KnownReads(r: Rules, c: Store, base: nat, h: seq<Entry>, k: Key, slot: Slot)
    requires Caught(r, c.shadow, base, c.cursor, h) && c.cursor == |h| && ValidSlot(k.entity, slot)
    ensures base <= |h|
    ensures Read(Known(c.shadow, k), slot)
         == if slot.Column? then KnownCell(r, h, base, k, slot.f) else Read(DataOf(Redo(r, h, k)), slot)
  {
    assert base <= |h|;
    KnownIsPieced(r, c, base, h, k);
    hide Caught, Redo, LastLogged, Canonically, Raw, Pieced, Read;
    PiecedReads(r, h, base, k, slot);
  }

  /** What a projected row shows in a slot. */
  lemma {:induction false} ProjectedReads(c: Store, k: Key, slot: Slot)
    requires k in c.shadow && ValidSlot(k.entity, slot)
    ensures var pending := OpChanges(PendingOps(c.mutations));
            Read(Some(Projected(c, k)), slot)
            == if NoWrite(pending, k, slot) then Read(Some(c.shadow[k]), slot) else LastWritten(pending, k, slot)
  {
    hide Materialize, PendingOps, Replay, NoWrite, LastWritten;
    var cs := OpChanges(PendingOps(c.mutations));
    ReadReplay(Some(c.shadow[k]), k, cs, slot);
    Repository.SomeStays(c.shadow[k], k, cs);
    MaterializeSameView(k.entity, Overlay(c.shadow[k], k, PendingOps(c.mutations)));
  }

  /** Two clients with the same outbox that have read everything project a row
      alike exactly if they know alike every cell that nothing pending writes. */
  lemma {:induction false} ProjectedAlike(r: Rules, x: Store, y: Store, a: nat, b: nat, h: seq<Entry>, k: Key)
    requires Caught(r, x.shadow, a, x.cursor, h) && x.cursor == |h|
    requires Caught(r, y.shadow, b, y.cursor, h) && y.cursor == |h|
    requires x.mutations == y.mutations && k in x.shadow && k in y.shadow && a <= |h| && b <= |h|
    ensures Projected(x, k).deleted == Projected(y, k).deleted
    ensures Projected(x, k) == Projected(y, k) <==>
              forall f | Mutable(k.entity, f) && NoWrite(OpChanges(PendingOps(x.mutations)), k, Column(f))
                         && Raw(h, a, k, f) != Raw(h, b, k, f) :: SpelledAlike(r, h, k, f)
  {
    hide Caught, Redo, LastLogged, Canonically, Raw, Pieced, PendingOps, OpChanges, NoWrite, LastWritten, Projected,
      KnownCell,
      SpelledAlike;
    KnownReads(r, x, a, h, k, Deletion);
    KnownReads(r, y, b, h, k, Deletion);
    ProjectedReads(x, k, Deletion);
    ProjectedReads(y, k, Deletion);
    ProjectedKeys(x, k);
    ProjectedKeys(y, k);
    forall f | Mutable(k.entity, f)
      ensures Projected(x, k).fields[f] == Projected(y, k).fields[f] <==>
                (NoWrite(OpChanges(PendingOps(x.mutations)), k, Column(f)) && Raw(h, a, k, f) != Raw(h, b, k, f)
                 ==> SpelledAlike(r, h, k, f))
    {
      KnownReads(r, x, a, h, k, Column(f));
      KnownReads(r, y, b, h, k, Column(f));
      ProjectedReads(x, k, Column(f));
      ProjectedReads(y, k, Column(f));
      KnownAlike(r, h, a, b, k, f);
    }
    RowsEqual(k.entity, Projected(x, k), Projected(y, k));
  }

  lemma {:induction false} ProjectedKeys(c: Store, k: Key)
    requires k in c.shadow
    ensures forall f :: f in Projected(c, k).fields <==> Mutable(k.entity, f)
    ensures forall f | Mutable(k.entity, f) :: Read(Some(Projected(c, k)), Column(f)) == Projected(c, k).fields[f]
  {
    MutableFieldListIsMutable(k.entity);
    hide Overlay;
    var d := Overlay(c.shadow[k], k, PendingOps(c.mutations));
    forall f | Mutable(k.entity, f)
      ensures Read(Some(Materialize(k.entity, d)), Column(f)) == Materialize(k.entity, d).fields[f]
    {
      CoerceIdempotent(f, Lookup(d.fields, f));
    }
  }

  /** A snapshot read row by row from cursor `from` on, then the changes after
      `from`, gives every row the projection that the changes after the old
      cursor give it, exactly if no cell that nothing pending writes is known
      parsed one way and as it was logged the other, and differs for it. The
      deleted flag never differs, and the outbox is the same throughout. */
  lemma {:induction false} RebaseAgrees(r: Rules, c: Store, base: nat, h: seq<Entry>, from: nat, readAt: map<Key, nat>,
                                        missed: seq<LogRow>, later: seq<LogRow>, k: Key)
    requires EverValid(r, h) && Readable(r, h, from, readAt) && Caught(r, c.shadow, base, c.cursor, h)
    requires RowChanges(missed) == Changes(h[c.cursor..]) && RowChanges(later) == Changes(h[from..])
    ensures base <= |h|
    ensures var onebyone := ApplyAnswer(c, [], missed, |h|);
            var rebased := ApplyAnswer(Rebased(c, Snapshot(r, h, readAt), from), [], later, |h|);
            && onebyone.mutations == c.mutations && rebased.mutations == c.mutations
            && (k in onebyone.shadow <==> k in rebased.shadow)
            && (k in onebyone.shadow ==>
                  && Projected(onebyone, k).deleted == Projected(rebased, k).deleted
                  && (Projected(onebyone, k) == Projected(rebased, k) <==>
                        forall f | Mutable(k.entity, f) && NoWrite(OpChanges(PendingOps(c.mutations)), k, Column(f))
                                   && Raw(h, base, k, f) != Raw(h, from, k, f) :: SpelledAlike(r, h, k, f)))
  {
    assert base <= |h| && c.cursor <= |h| && from <= |h|;
    hide EverValid, Redo, Caught, Projected, RowChanges, Changes, Reprojected, PendingOps, Raw, SpelledAlike, NoWrite,
      ShadowAfter;
    CaughtBySnapshot(r, h, from, readAt);
    ReadToEnd(r, c.shadow, base, c.cursor, h, missed);
    ReadToEnd(r, Snapshot(r, h, readAt), from, from, h, later);
    hide Snapshot, Readable;
    var onebyone := ApplyAnswer(c, [], missed, |h|);
    var rebased := ApplyAnswer(Rebased(c, Snapshot(r, h, readAt), from), [], later, |h|);
    KnownReads(r, onebyone, base, h, k, Presence);
    KnownReads(r, rebased, from, h, k, Presence);
    if k in onebyone.shadow {
      ProjectedAlike(r, onebyone, rebased, base, from, h, k);
    }
  }

  /** The rows that are put for what the snapshot holds are the projections:
      every slot a pending operation writes keeps the last pending value and
      every other one takes the snapshot's. */
  lemma {:induction false} RebaseKeepsPendingWrites(c: Store, snapshot: map<Key, Data>, cursor: nat, k: Key, slot: Slot)
    requires k in snapshot && k.entity != DayPlan && ValidSlot(k.entity, slot)
    requires Materialize(k.entity, snapshot[k]) == snapshot[k]
    ensures var after, pending := Rebased(c, snapshot, cursor), OpChanges(PendingOps(c.mutations));
            && after.mutations == c.mutations && after.clientSeq == c.clientSeq
            && k in after.rows && after.rows[k] == Projected(after, k)
            && Read(Some(after.rows[k]), slot)
               == if NoWrite(pending, k, slot) then Read(Some(snapshot[k]), slot) else LastWritten(pending, k, slot)
  {
    var after, ops := Rebased(c, snapshot, cursor), PendingOps(c.mutations);
    hide Materialize, PendingOps, Replay, NoWrite, LastWritten;
    RebasedRow(c, snapshot, cursor, k);
    ReadReplay(Some(snapshot[k]), k, OpChanges(ops), slot);
    Repository.SomeStays(snapshot[k], k, OpChanges(ops));
    MaterializeSameView(k.entity, Overlay(snapshot[k], k, ops));
  }

  lemma {:induction false} RebasedRow(c: Store, snapshot: map<Key, Data>, cursor: nat, k: Key)
    requires k in snapshot && k.entity != DayPlan && Materialize(k.entity, snapshot[k]) == snapshot[k]
    ensures k in Rebased(c, snapshot, cursor).rows
    ensures Rebased(c, snapshot, cursor).rows[k]
         == Materialize(k.entity, Overlay(snapshot[k], k, PendingOps(c.mutations)))
  {
    if k !in PendingKeys(PendingOps(c.mutations)) {
      ReplayUntouched(Some(snapshot[k]), k, PendingOps(c.mutations));
    }
  }

  lemma {:induction false} CreateForgets(x: Option<Data>, y: Option<Data>, k: Key, cs: seq<Change>, i: nat)
    requires i < |cs| && cs[i].key == k && cs[i].kind == Create
    ensures Replay(x, k, cs) == Replay(y, k, cs)
    decreases |cs|
  {
    if i < |cs| - 1 {
      CreateForgets(x, y, k, cs[..|cs| - 1], i);
    }
  }

  /** A row the server does not have, with a pending create, is rebuilt from the
      pending operations alone, whatever the client showed before. */
  lemma {:induction false} RebaseRebuildsCreates(c: Store, snapshot: map<Key, Data>, cursor: nat, k: Key, i: nat)
    requires k !in snapshot && k.entity != DayPlan && i < |PendingOps(c.mutations)|
    requires PendingOps(c.mutations)[i].change.key == k && PendingOps(c.mutations)[i].change.kind == Create
    ensures var after := Rebased(c, snapshot, cursor);
            && k in after.rows
            && after.rows[k] == Materialize(k.entity, Overlay(EMPTY_DATA, k, PendingOps(c.mutations)))
  {
    var ops := PendingOps(c.mutations);
    assert k in PendingKeys(ops);
    CreateForgets(Some(RebaseFrom(c, snapshot, k)), Some(EMPTY_DATA), k, OpChanges(ops), i);
  }
}
