/**
 Everything a client's store says about the account, in one invariant, and what
 each step of the client does to it.
 */
module Views {
  import opened Prelude
  import opened Rows
  import opened Mutations
  import opened Server
  import opened Ledger
  import opened Client
  import opened Merge
  import opened Projection

  /** A client shows the lists, tasks and steps that its shadow knows, those that
      its own operations wrote since it loaded the tables, and nothing else. */
  ghost predicate Accounted(c: Store, issued: seq<Mutation>, since: nat) {
    since <= |issued| &&
    forall k :: k in c.rows <==> k.entity != DayPlan && (k in c.shadow || Touches(issued[since..], k))
  }

  /** `issued` is everything the client queued; when it last loaded the tables the
      log was `base` long and the first `since` of them were no longer pending. */
  ghost predicate Informed(r: Rules, h: seq<Entry>, c: Store, issued: seq<Mutation>, base: nat, since: nat,
                           stale: set<Key>) {
    && Caught(r, c.shadow, base, c.cursor, h)
    && Unread(h, base, c.cursor, stale)
    && Shown(c, stale)
    && Accounted(c, issued, since)
  }

  lemma {:induction false} InformedBounds(r: Rules, h: seq<Entry>, c: Store, issued: seq<Mutation>, base: nat,
                                          since: nat, stale: set<Key>)
    requires Informed(r, h, c, issued, base, since, stale)
    ensures base <= c.cursor <= |h|
  {
    hide Shown, Unread, Accounted, RowCaught;
  }

  lemma {:induction false} InformedGrows(r: Rules, h: seq<Entry>, h': seq<Entry>, c: Store, issued: seq<Mutation>,
                                         base: nat, since: nat, stale: set<Key>)
    requires Informed(r, h, c, issued, base, since, stale) && h <= h'
    ensures Informed(r, h', c, issued, base, since, stale)
  {
    InformedBounds(r, h, c, issued, base, since, stale);
    hide Caught, Shown, Accounted;
    CaughtGrows(r, c.shadow, base, c.cursor, h, h');
  }

  lemma {:induction false} InformedAfterEdit(r: Rules, h: seq<Entry>, c: Store, issued: seq<Mutation>, base: nat,
                                             since: nat, stale: set<Key>, d: Device, change: Change, row: Data)
    requires Informed(r, h, c, issued, base, since, stale)
    ensures Informed(r, h, Edited(c, d, change, row), issued + [NextOp(c, d, change)], base, since, stale)
  {
    hide Caught, Shown, Unread, Touches;
    ShownAfterEdit(c, stale, d, change, row);
    var op := NextOp(c, d, change);
    assert (issued + [op])[since..] == issued[since..] + [op];
    forall k ensures Touches((issued + [op])[since..], k) <==> Touches(issued[since..], k) || change.key == k {
      TouchesMore(issued[since..], op, k);
    }
  }

  lemma {:induction false} InformedAfterDiscard(r: Rules, h: seq<Entry>, c: Store, issued: seq<Mutation>, base: nat,
                                                since: nat, stale: set<Key>, ids: set<OpId>)
    requires Informed(r, h, c, issued, base, since, stale)
    ensures Informed(r, h, Discarded(c, ids), issued, base, since, stale - RefusedKeys(c.mutations, ids))
  {
    hide Caught, Shown, Touches, RefusedKeys, WithoutRefused, PendingOps;
    ShownAfterDiscard(c, stale, ids);
  }

  lemma {:induction false} ShadowKeys(shadow: map<Key, Data>, rows: seq<LogRow>, k: Key)
    ensures k in ShadowAfter(shadow, rows) <==> k in shadow || k in ChangedKeys(rows)
    decreases |rows|
  {
    if rows != [] {
      var n := |rows| - 1;
      ShadowKeys(shadow, rows[..n], k);
      assert k in ChangedKeys(rows) <==> k in ChangedKeys(rows[..n]) || k == rows[n].entry.change.key by {
        assert rows[n].entry.change.key in ChangedKeys(rows);
        if i :| 0 <= i < |rows| && rows[i].entry.change.key == k {
          assert i < n ==> rows[..n][i] == rows[i];
        }
        if i :| 0 <= i < n && rows[..n][i].entry.change.key == k {
          assert rows[i] == rows[..n][i];
        }
      }
    }
  }

  lemma {:induction false} AccountedAfterAnswer(c: Store, issued: seq<Mutation>, since: nat, acks: seq<Ack>,
                                                changes: seq<LogRow>, next: nat)
    requires Accounted(c, issued, since)
    ensures Accounted(ApplyAnswer(c, acks, changes, next), issued, since)
  {
    hide Touches, SettleAll, ShadowAfter, PendingOps, Materialize, Overlay, AckedKeys, ChangedKeys;
    forall k ensures k in ShadowAfter(c.shadow, changes) <==> k in c.shadow || k in ChangedKeys(changes) {
      ShadowKeys(c.shadow, changes, k);
    }
  }

  lemma {:induction false} InformedAfterAnswer(r: Rules, h: seq<Entry>, c: Store, issued: seq<Mutation>, base: nat,
                                               since: nat, stale: set<Key>, acks: seq<Ack>, changes: seq<LogRow>,
                                               next: nat)
    requires Informed(r, h, c, issued, base, since, stale)
    requires |acks| <= |PendingOps(c.mutations)|
    requires forall i | 0 <= i < |acks| :: acks[i].opId == PendingOps(c.mutations)[i].opId
    requires PendingOps(SettleAll(c.mutations, acks)) == PendingOps(c.mutations)[|acks|..]
    requires c.cursor <= next <= |h| && RowChanges(changes) == Changes(h[c.cursor..next])
    ensures Informed(r, h, ApplyAnswer(c, acks, changes, next), issued, base, since,
                     stale - (AckedKeys(c.mutations, acks) + ChangedKeys(changes)))
  {
    hide Caught, Shown, Accounted, Unread, PendingOps, SettleAll, ShadowAfter, AckedKeys, ChangedKeys, RowChanges,
      Changes,
      Reprojected;
    ShownAfterAnswer(c, stale, acks, changes, next);
    CaughtByPage(r, c.shadow, base, c.cursor, h, changes, next);
    UnreadByPage(h, base, c.cursor, stale, changes, next);
    UnreadFewer(h, base, next, stale - ChangedKeys(changes),
                stale - (AckedKeys(c.mutations, acks) + ChangedKeys(changes)));
    AccountedAfterAnswer(c, issued, since, acks, changes, next);
  }

  lemma {:induction false} UnreadFewer(h: seq<Entry>, base: nat, cursor: nat, stale: set<Key>, fewer: set<Key>)
    requires Unread(h, base, cursor, stale) && fewer <= stale
    ensures Unread(h, base, cursor, fewer)
  {
  }

  lemma {:induction false} PendingKeysAreTouched(ops: seq<Mutation>, k: Key)
    ensures k in PendingKeys(ops) <==> k.entity != DayPlan && Touches(ops, k)
  {
  }

  lemma {:induction false} AccountedAfterRebase(c: Store, issued: seq<Mutation>, done: nat, snapshot: map<Key, Data>,
                                                cursor: nat)
    requires done <= |issued| && PendingOps(c.mutations) == issued[done..]
    ensures Accounted(Rebased(c, snapshot, cursor), issued, done)
  {
    var ops := PendingOps(c.mutations);
    hide PendingOps, Materialize, Overlay, PendingKeys, Touches;
    forall k ensures k in PendingKeys(ops) <==> k.entity != DayPlan && Touches(ops, k) {
      PendingKeysAreTouched(ops, k);
    }
  }

  /** Rows of a snapshot are in the form in which they are shown. */
  lemma {:induction false} SnapshotMaterialized(r: Rules, h: seq<Entry>, cursor: nat, readAt: map<Key, nat>)
    requires EverValid(r, h) && Readable(r, h, cursor, readAt)
    ensures var snapshot := Snapshot(r, h, readAt);
            forall k | k in snapshot :: Materialize(k.entity, snapshot[k]) == snapshot[k]
  {
    hide EverValid, Redo, Materialize, BootstrapRow;
    var snapshot := Snapshot(r, h, readAt);
    forall k | k in readAt ensures Materialize(k.entity, snapshot[k]) == snapshot[k] {
      SnapshotRowsMaterialized(r, h, cursor, readAt, k);
    }
  }

  lemma {:induction false} InformedAfterRebase(r: Rules, h: seq<Entry>, c: Store, issued: seq<Mutation>, done: nat,
                                               cursor: nat, readAt: map<Key, nat>)
    requires EverValid(r, h) && Readable(r, h, cursor, readAt)
    requires done <= |issued| && PendingOps(c.mutations) == issued[done..]
    ensures Informed(r, h, Rebased(c, Snapshot(r, h, readAt), cursor), issued, cursor, done, {})
  {
    hide Caught, Shown, EverValid, PendingOps, Redo, Materialize;
    CaughtBySnapshot(r, h, cursor, readAt);
    SnapshotMaterialized(r, h, cursor, readAt);
    AccountedAfterRebase(c, issued, done, Snapshot(r, h, readAt), cursor);
    hide Accounted, Snapshot, Readable;
    ShownAfterRebase(c, Snapshot(r, h, readAt), cursor);
  }

  lemma {:induction false} PreparedIsDecided(cloud: map<Key, Stamped>, locals: seq<LocalRow>, op: Change)
    requires op in MergedOps(cloud, locals)
    ensures exists i :: 0 <= i < |locals| && Decide(cloud, locals[i]).op == Some(op)
    decreases |locals|
  {
    var n := |locals| - 1;
    if Decide(cloud, locals[n]).op != Some(op) {
      PreparedIsDecided(cloud, locals[..n], op);
      var i :| 0 <= i < n && Decide(cloud, locals[..n][i]).op == Some(op);
      assert locals[i] == locals[..n][i];
    }
  }

  lemma {:induction false} CloudIsMerged(cloud: map<Key, Stamped>, locals: seq<LocalRow>, k: Key)
    requires DistinctKeys(locals) && k in cloud
    ensures k in MergedRows(cloud, locals)
  {
    if Mentions(locals, k) {
      var i :| 0 <= i < |locals| && locals[i].key == k;
      DecidedOnce(cloud, locals, i);
    } else {
      UnmentionedKept(cloud, locals, k);
    }
  }

  lemma {:induction false} OrderedIsPrepared(ops: seq<Change>, op: Change)
    requires op in Ordered(ops)
    ensures op in ops
  {
    hide OfEntity;
  }

  lemma {:induction false} PreparedIsMerged(d: Device, cloud: map<Key, Stamped>, locals: seq<LocalRow>, k: Key)
    requires DistinctKeys(locals) && Touches(AsOperations(d, Ordered(MergedOps(cloud, locals))), k)
    ensures k in MergedRows(cloud, locals)
  {
    hide Ordered, MergedOps, MergedRows, AsOperations, DistinctKeys;
    var ops := Ordered(MergedOps(cloud, locals));
    var j :| 0 <= j < |ops| && AsOperations(d, ops)[j].change.key == k;
    OrderedIsPrepared(MergedOps(cloud, locals), ops[j]);
    PreparedIsDecided(cloud, locals, ops[j]);
    var i :| 0 <= i < |locals| && Decide(cloud, locals[i]).op == Some(ops[j]);
    DecidedOnce(cloud, locals, i);
    if k in cloud {
      CloudIsMerged(cloud, locals, k);
    }
  }

  lemma {:induction false} MergedIsPrepared(d: Device, cloud: map<Key, Stamped>, locals: seq<LocalRow>, k: Key)
    requires DistinctKeys(locals) && k in MergedRows(cloud, locals) && k !in cloud
    ensures Touches(AsOperations(d, Ordered(MergedOps(cloud, locals))), k)
  {
    var ops := MergedOps(cloud, locals);
    if !Mentions(locals, k) {
      UnmentionedKept(cloud, locals, k);
      assert false;
    }
    var i :| 0 <= i < |locals| && locals[i].key == k;
    DecidedOnce(cloud, locals, i);
    PreparedIsThere(cloud, locals, i);
    hide MergedOps, MergedRows, Ordered;
    if !Touches(AsOperations(d, Ordered(ops)), k) {
      UnpreparedIsUntouched(d, ops, k);
      assert false;
    }
  }

  lemma {:induction false} InformedAfterLogin(r: Rules, h: seq<Entry>, d: Device, cloud: map<Key, Stamped>, cursor: nat,
                                              mode: Mode, locals: seq<LocalRow>, issued: seq<Mutation>)
    requires DistinctKeys(locals) && Caught(r, CloudData(cloud), cursor, cursor, h)
    requires forall k | k in cloud :: Materialize(k.entity, cloud[k].data) == cloud[k].data
    requires issued == if mode == Cloud then [] else AsOperations(d, Ordered(MergedOps(cloud, locals)))
    ensures Informed(r, h, Initialized(d, cloud, cursor, mode, locals), issued, cursor, 0,
                     LeftUnlike(cloud, mode, locals))
  {
    hide Caught, Shown, DistinctKeys, Materialize, MergedOps, MergedRows, Ordered, AsOperations, Numbered, Touches,
      LeftUnlike;
    ShownAfterInit(d, cloud, cursor, mode, locals);
    assert issued[0..] == issued;
    forall k ensures Touches(issued, k) ==> mode == Combine && k in MergedRows(cloud, locals)
      ensures mode == Combine && k in MergedRows(cloud, locals) ==> k in cloud || Touches(issued, k)
      ensures k in cloud ==> k in MergedRows(cloud, locals)
    {
      LoginAccounts(d, cloud, mode, locals, issued, k);
    }
  }

  lemma {:induction false} LoginAccounts(d: Device, cloud: map<Key, Stamped>, mode: Mode, locals: seq<LocalRow>,
                                         issued: seq<Mutation>, k: Key)
    requires DistinctKeys(locals)
    requires issued == if mode == Cloud then [] else AsOperations(d, Ordered(MergedOps(cloud, locals)))
    ensures Touches(issued, k) ==> mode == Combine && k in MergedRows(cloud, locals)
    ensures mode == Combine && k in MergedRows(cloud, locals) ==> k in cloud || Touches(issued, k)
    ensures k in cloud ==> k in MergedRows(cloud, locals)
  {
    if mode == Combine {
      if Touches(issued, k) {
        PreparedIsMerged(d, cloud, locals, k);
      }
      if k in MergedRows(cloud, locals) && k !in cloud {
        MergedIsPrepared(d, cloud, locals, k);
      }
    }
    if k in cloud {
      CloudIsMerged(cloud, locals, k);
    }
  }
}
