/** What holds in every reachable state of the protocol. */
module Guarantees {
  import opened Prelude
  import opened Dates
  import opened Rows
  import opened Mutations
  import opened Server
  import opened Ledger
  import opened Devices
  import opened Client
  import opened Outbox
  import opened Projection
  import opened Views
  import opened Protocol

  lemma {:induction false} NodeFacts(r: Rules, w: World, d: Device)
    requires Reachable(r, w) && d in w.nodes
    ensures var n := w.nodes[d];
            && SiteInv(r, w.site) && Tagged(w.site)
            && d in w.site.account.marks && w.site.account.marks[d] <= |n.issued|
            && Serving(r, w.site, d, n.issued) && ExactlyOnce(w.site, d, n.issued) && Numbering(d, n.issued)
            && 0 <= DoneCount(n) <= w.site.account.marks[d]
            && OutboxInv(w.site, d, n.store.mutations, n.issued, DoneCount(n))
            && Informed(r, w.site.history, n.store, n.issued, n.base, n.since, n.stale)
  {
    Invariant(r, w);
    hide SiteInv, Tagged, OutboxInv, Informed, Reachable, FlightInv;
    assert NodeInv(r, w.site, d, w.nodes[d]);
  }

  /** The account's log never has a gap: it is the whole history but for a
      pruned prefix, replaying the history, parsed, gives exactly the tables, and
      each row carries the number of the last entry naming it. */
  lemma {:induction false} LogIsRedoLog(r: Rules, w: World, k: Key)
    requires Reachable(r, w)
    ensures var a, h := w.site.account, w.site.history;
            && a.nextSeq == |h| + 1
            && (forall n: nat :: n in a.log <==> Max(1, a.minAvail) <= n < a.nextSeq)
            && (forall n: nat :: n in a.log ==> a.log[n] == h[n - 1])
            && (k in a.table <==> exists i :: 0 <= i < |h| && h[i].change.key == k)
            && (k in a.table ==>
                  && Redo(r, h, k) == Some(a.table[k])
                  && 1 <= a.table[k].rev <= |h| && h[a.table[k].rev - 1].change.key == k
                  && (forall i | a.table[k].rev <= i < |h| :: h[i].change.key != k)
                  && ValidFields(r, k.entity, a.table[k].data.fields))
  {
    hide Reachable, NodeInv, Tagged;
    Invariant(r, w);
    SiteIsRedoLog(r, w.site, k);
  }

  lemma {:induction false} SiteIsRedoLog(r: Rules, w: Site, k: Key)
    requires SiteInv(r, w)
    ensures var a, h := w.account, w.history;
            && a.nextSeq == |h| + 1
            && (forall n: nat :: n in a.log <==> Max(1, a.minAvail) <= n < a.nextSeq)
            && (forall n: nat :: n in a.log ==> a.log[n] == h[n - 1])
            && (k in a.table <==> exists i :: 0 <= i < |h| && h[i].change.key == k)
            && (k in a.table ==>
                  && Redo(r, h, k) == Some(a.table[k])
                  && 1 <= a.table[k].rev <= |h| && h[a.table[k].rev - 1].change.key == k
                  && (forall i | a.table[k].rev <= i < |h| :: h[i].change.key != k)
                  && ValidFields(r, k.entity, a.table[k].data.fields))
  {
    hide ValidFields;
    RevIsLastSeq(r, w.history, k);
    TableIsValid(r, w.account.table, w.history);
  }

  /** A client never has to start over because of its numbering: its requests
      fail only if the cursor was pruned away, the device revoked or the account
      closed. */
  lemma {:induction false} NeverMismatched(r: Rules, w: World, d: Device)
    requires Reachable(r, w) && d in w.nodes && w.nodes[d].flight.Some?
    ensures w.nodes[d].flight.value.answer.Err? ==>
              w.nodes[d].flight.value.answer.error in {CursorExpired, DeviceRevoked, Unauthorized}
  {
    Invariant(r, w);
    hide Serving, OutboxInv, Informed;
    assert NodeInv(r, w.site, d, w.nodes[d]);
  }

  /** Neither does any earlier request that arrives again, in whatever state. */
  lemma {:induction false} RetryNeverMismatched(r: Rules, w: World, d: Device, i: nat, ops: seq<Mutation>, cursor: nat,
                                                limit: Option<nat>)
    requires Reachable(r, w) && d in w.nodes && SentBefore(w, d, i, ops)
    requires |ops| <= MAX_SYNC_OPS && PageLimit(limit).Some? && cursor < w.site.account.nextSeq
    ensures var answer := ServeSync(r, w.site.account, d, cursor, ops, limit);
            answer.Err? ==> answer.error in {CursorExpired, DeviceRevoked, Unauthorized}
  {
    hide ServeSync, SiteServe, OutboxInv, Informed, RunOf, Serving, ExactlyOnce, Tagged, Reachable;
    NodeFacts(r, w, d);
    assert w.site.account.nextSeq == |w.site.history| + 1;
    ServeOwn(r, w.site, d, w.nodes[d].issued, i, ops, cursor, limit);
    hide Serving, AcksFit, PageOf, Remembers;
  }

  lemma {:induction false} EntryIsIssued(w: Site, d: Device, issued: seq<Mutation>, i: nat)
    requires ExactlyOnce(w, d, issued) && i < |w.history| && w.history[i].opId.device == d
    ensures 1 <= w.history[i].opId.n <= |issued|
    ensures LogPlace(w, OpId(d, w.history[i].opId.n)) == Some(i + 1)
    ensures Logged(w.history, issued[w.history[i].opId.n - 1], i + 1)
  {
    assert w.history[i].opId == OpId(d, w.history[i].opId.n);
  }

  lemma {:induction false} EntriesInOrder(w: Site, d: Device, issued: seq<Mutation>, i: nat, j: nat)
    requires ExactlyOnce(w, d, issued) && i < j < |w.history|
    requires w.history[i].opId.device == d && w.history[j].opId.device == d
    ensures w.history[i].opId.n < w.history[j].opId.n
  {
    EntryIsIssued(w, d, issued, i);
    EntryIsIssued(w, d, issued, j);
  }

  /** The operations of a client enter the log at most once and in the order in
      which they were queued. */
  lemma {:induction false} OnceAndInOrder(r: Rules, w: World, d: Device, i: nat, j: nat)
    requires Reachable(r, w) && d in w.nodes && i < j < |w.site.history|
    requires w.site.history[i].opId.device == d && w.site.history[j].opId.device == d
    ensures 1 <= w.site.history[i].opId.n < w.site.history[j].opId.n <= |w.nodes[d].issued|
    ensures var op := w.nodes[d].issued[w.site.history[i].opId.n - 1];
            Logged(w.site.history, op, i + 1)
  {
    hide OutboxInv, Informed, SiteInv, Tagged, Serving, ExactlyOnce, LogPlace, Reachable;
    NodeFacts(r, w, d);
    EntryIsIssued(w.site, d, w.nodes[d].issued, i);
    EntryIsIssued(w.site, d, w.nodes[d].issued, j);
    EntriesInOrder(w.site, d, w.nodes[d].issued, i, j);
  }

  /** How often an operation is in the log. */
  function Count(h: seq<Entry>, o: OpId): nat
    decreases |h|
  {
    if h == [] then 0 else Count(h[..|h| - 1], o) + if h[|h| - 1].opId == o then 1 else 0
  }

  lemma {:induction false} CountOne(h: seq<Entry>, o: OpId, i: nat)
    requires i < |h| && forall j | 0 <= j < |h| :: h[j].opId == o <==> j == i
    ensures Count(h, o) == 1
    decreases |h|
  {
    var front := h[..|h| - 1];
    assert forall j | 0 <= j < |front| :: front[j] == h[j];
    if i == |h| - 1 {
      CountNone(front, o);
    } else {
      CountOne(front, o, i);
    }
  }

  lemma {:induction false} CountNone(h: seq<Entry>, o: OpId)
    requires forall j | 0 <= j < |h| :: h[j].opId != o
    ensures Count(h, o) == 0
    decreases |h|
  {
    if h != [] {
      CountNone(h[..|h| - 1], o);
    }
  }

  lemma {:induction false} CountIsOutcome(w: Site, d: Device, issued: seq<Mutation>, o: OpId)
    requires ExactlyOnce(w, d, issued) && o.device == d && o in w.outcomes
    ensures Count(w.history, o) == if w.outcomes[o].Applied? then 1 else 0
  {
    var h := w.history;
    assert o == OpId(d, o.n);
    forall i | 0 <= i < |h| && h[i].opId == o ensures LogPlace(w, o) == Some(i + 1) {
      assert h[i].opId.device == d;
    }
    if w.outcomes[o].Applied? {
      var place := LogPlace(w, OpId(d, o.n)).value;
      assert Logged(h, issued[o.n - 1], place) && issued[o.n - 1].opId == OpId(d, o.n);
      CountOne(h, o, place - 1);
    } else {
      CountNone(h, o);
    }
  }

  /** Once an operation has left the pending ones it was executed exactly once:
      either it is in the log exactly once, or it was rejected and is not. */
  lemma {:induction false} AcknowledgedIsSettled(r: Rules, w: World, d: Device, n: nat)
    requires Reachable(r, w) && d in w.nodes && 1 <= n
    requires n <= |w.nodes[d].issued| - |PendingOps(w.nodes[d].store.mutations)|
    ensures OpId(d, n) in w.site.outcomes
    ensures Count(w.site.history, OpId(d, n)) == if w.site.outcomes[OpId(d, n)].Applied? then 1 else 0
  {
    hide OutboxInv, Informed, SiteInv, Tagged, Reachable, Count, LogPlace, InClientOrder;
    NodeFacts(r, w, d);
    CountIsOutcome(w.site, d, w.nodes[d].issued, OpId(d, n));
  }

  lemma {:induction false} TailNumbering(d: Device, ms: seq<Stored>, issued: seq<Mutation>, w: Site, done: nat)
    requires OutboxInv(w, d, ms, issued, done) && Numbering(d, issued)
    ensures |PendingOps(ms)| == |issued| - done
    ensures forall i | 0 <= i < |PendingOps(ms)| ::
              PendingOps(ms)[i] == issued[done + i] && PendingOps(ms)[i].clientSeq == done + i + 1
  {
    hide PendingOps;
    assert forall i | 0 <= i < |issued| - done :: issued[done..][i] == issued[done + i];
  }

  /** The pending operations are the last ones queued, without a gap, and what
      a client marks as refused was rejected with that code and never logged. */
  lemma {:induction false} OutboxIsTail(r: Rules, w: World, d: Device)
    requires Reachable(r, w) && d in w.nodes
    ensures var n := w.nodes[d];
            var pending := PendingOps(n.store.mutations);
            var done := |n.issued| - |pending|;
            && 0 <= done
            && (forall i | 0 <= i < |pending| ::
                  pending[i] == n.issued[done + i] && pending[i].clientSeq == done + i + 1)
            && (forall m | m in n.store.mutations && m.status.Refused? ::
                  m.op.opId in w.site.outcomes
                  && w.site.outcomes[m.op.opId] == Rejected(m.status.code)
                  && Count(w.site.history, m.op.opId) == 0)
  {
    hide Informed, SiteInv, Tagged, Serving, Numbering, PendingOps, Reachable, ExactlyOnce, Count;
    NodeFacts(r, w, d);
    var n := w.nodes[d];
    TailNumbering(d, n.store.mutations, n.issued, w.site, DoneCount(n));
    forall m | m in n.store.mutations && m.status.Refused?
      ensures Count(w.site.history, m.op.opId) == 0
    {
      CountIsOutcome(w.site, d, n.issued, m.op.opId);
    }
  }

  lemma {:induction false} PendingDistinct(d: Device, ms: seq<Stored>, issued: seq<Mutation>, w: Site, done: nat)
    requires OutboxInv(w, d, ms, issued, done) && Numbering(d, issued)
    ensures Distinct(PendingOps(ms))
  {
    TailNumbering(d, ms, issued, w, done);
    hide PendingOps, OutboxInv;
  }

  /** Nothing is forgotten: when an answer arrives, each operation that was sent
      is acknowledged by what became of it, and afterwards is kept with its code
      if it was rejected, and gone from the outbox if not. */
  lemma {:induction false} AnswerIsTracked(r: Rules, w: World, d: Device, i: nat)
    requires Reachable(r, w) && d in w.nodes && w.nodes[d].flight.Some? && w.nodes[d].flight.value.answer.Ok?
    requires i < |w.nodes[d].flight.value.answer.value.acks|
    ensures var n, f := w.nodes[d], w.nodes[d].flight.value;
            var ack, sent := f.answer.value.acks[i], f.sent;
            && i < |sent| && Stored(sent[i], Pending) in n.store.mutations
            && ack.opId == sent[i].opId && ack.opId in w.site.outcomes
            && (ack.status.Done? ==> ack.status.outcome == w.site.outcomes[ack.opId])
            && Tracked(Delivered(n, f).store.mutations, sent[i], ack)
  {
    hide Reachable, Informed, SiteInv, Tagged, Serving, ExactlyOnce, PendingOps, SettleAll, Tracked, Numbering, PageOf;
    NodeFacts(r, w, d);
    var n, f := w.nodes[d], w.nodes[d].flight.value;
    Invariant(r, w);
    assert NodeInv(r, w.site, d, n);
    SentAndAcked(w.site, d, n);
    PendingDistinct(d, n.store.mutations, n.issued, w.site, DoneCount(n));
    AcksDistinct(n.store.mutations, f.answer.value.acks);
    SettleAllTracks(n.store.mutations, f.answer.value.acks, Stored(f.sent[i], Pending));
  }

  lemma {:induction false} SentAndAcked(w: Site, d: Device, n: Node)
    requires OutboxOf(w, d, n) && n.flight.Some? && n.flight.value.answer.Ok?
    ensures var f := n.flight.value;
            var acks := f.answer.value.acks;
            && AcksFit(w, f.sent, acks) && |acks| == |f.sent| <= |PendingOps(n.store.mutations)|
            && (forall i | 0 <= i < |acks| ::
                  && f.sent[i] == PendingOps(n.store.mutations)[i] && acks[i].opId == f.sent[i].opId
                  && Stored(f.sent[i], Pending) in n.store.mutations)
  {
    hide PendingOps;
    var f, done := n.flight.value, DoneCount(n);
    forall i | 0 <= i < |f.sent|
      ensures f.sent[i] == PendingOps(n.store.mutations)[i] && Stored(f.sent[i], Pending) in n.store.mutations
    {
      assert f.sent[i] == n.issued[done..][i];
    }
  }

  lemma {:induction false} AcksDistinct(ms: seq<Stored>, acks: seq<Ack>)
    requires Distinct(PendingOps(ms)) && |acks| <= |PendingOps(ms)|
    requires forall i | 0 <= i < |acks| :: acks[i].opId == PendingOps(ms)[i].opId
    ensures forall i, j | 0 <= i < j < |acks| :: acks[i].opId != acks[j].opId
  {
    hide PendingOps;
  }

  /** A client that has nothing pending and has read the whole log. */
  ghost predicate CaughtUp(w: World, d: Device) {
    && d in w.nodes
    && PendingOps(w.nodes[d].store.mutations) == []
    && w.nodes[d].store.cursor == |w.site.history|
  }

  /** Convergence: such a client shows every list, task and step of the server
      with the server's deleted flag and, cell by cell, the stored value or, if the
      cell was written since it loaded the tables, the text that was logged for
      it. It shows the stored row exactly if that makes no difference and the row
      is not one that was deleted on both sides at its first login. */
  lemma {:induction false} Converges(r: Rules, w: World, d: Device, k: Key)
    requires Reachable(r, w) && CaughtUp(w, d)
    requires k in w.site.account.table && k.entity != DayPlan
    ensures var n, h, stored := w.nodes[d], w.site.history, w.site.account.table[k].data;
            && n.base <= |h|
            && Mirrors(r, n.store, n.stale, n.base, h, stored, k)
            && (n.store.rows[k] == Materialize(k.entity, stored) <==>
                  k !in n.stale && forall f | Mutable(k.entity, f) && Raw(h, n.base, k, f) :: SpelledAlike(r, h, k, f))
  {
    hide Serving, OutboxInv, Tagged, Caught, Shown, ExactlyOnce, Reachable, Accounted, PendingOps, Mirrors, Unread;
    NodeFacts(r, w, d);
    var n := w.nodes[d];
    assert !Touches(PendingOps(n.store.mutations), k);
    InformedBounds(r, w.site.history, n.store, n.issued, n.base, n.since, n.stale);
    TablesAreRedo(r, w.site);
    CaughtUpMirrors(r, n.store, n.stale, n.base, w.site.account.table, w.site.history, k);
    MirrorsMeans(r, n.store, n.stale, n.base, w.site.history, w.site.account.table[k].data, k);
  }

  lemma {:induction false} TablesAreRedo(r: Rules, w: Site)
    requires SiteInv(r, w)
    ensures TableIsRedo(r, w.account.table, w.history)
  {
  }

  lemma {:induction false} MirrorsMeans(r: Rules, c: Store, stale: set<Key>, base: nat, h: seq<Entry>, stored: Data,
                                        k: Key)
    requires base <= |h| && Mirrors(r, c, stale, base, h, stored, k)
    ensures k in c.rows && c.rows[k].deleted == stored.deleted
    ensures c.rows[k] == Materialize(k.entity, stored) <==>
              k !in stale && forall f | Mutable(k.entity, f) && Raw(h, base, k, f) :: SpelledAlike(r, h, k, f)
    ensures k !in stale ==>
              && (forall f :: f in c.rows[k].fields <==> Mutable(k.entity, f))
              && (forall f | Mutable(k.entity, f) :: c.rows[k].fields[f] == ShownCell(h, base, stored, k, f))
  {
    hide ShownCell, Raw, SpelledAlike, Coerce;
    MutableFieldListIsMutable(k.entity);
  }

  /** Two such clients show a row with the same deleted flag, and unless it was
      deleted on both sides at a first login they show the same row exactly if no
      cell differs for being known parsed to one and as it was logged to the other. */
  lemma {:induction false} ClientsAgree(r: Rules, w: World, d: Device, e: Device, k: Key)
    requires Reachable(r, w) && CaughtUp(w, d) && CaughtUp(w, e)
    requires k in w.site.account.table && k.entity != DayPlan
    ensures w.nodes[d].base <= |w.site.history| && w.nodes[e].base <= |w.site.history|
    ensures k in w.nodes[d].store.rows && k in w.nodes[e].store.rows
    ensures var h, a, b := w.site.history, w.nodes[d], w.nodes[e];
            && a.store.rows[k].deleted == b.store.rows[k].deleted
            && (k !in a.stale && k !in b.stale ==>
                  (a.store.rows[k] == b.store.rows[k] <==>
                     forall f | Mutable(k.entity, f) && Raw(h, a.base, k, f) != Raw(h, b.base, k, f) ::
                       SpelledAlike(r, h, k, f)))
  {
    Converges(r, w, d, k);
    Converges(r, w, e, k);
    hide Reachable, CaughtUp;
    var h, a, b, stored := w.site.history, w.nodes[d], w.nodes[e], w.site.account.table[k].data;
    MirrorsMeans(r, a.store, a.stale, a.base, h, stored, k);
    MirrorsMeans(r, b.store, b.stale, b.base, h, stored, k);
    hide Mirrors, ShownCell, Raw, SpelledAlike, Mutable, Materialize;
    if k !in a.stale && k !in b.stale {
      RowIsRedo(r, w, k);
      RowsAlike(r, h, a.base, b.base, stored, a.store.rows[k], b.store.rows[k], k);
    }
  }

  /** Patches and restores logged since the log was `from` long are spelled as
      bootstrap prints them, as those of the web client are. */
  ghost predicate SentCanonically(r: Rules, h: seq<Entry>, from: nat) {
    forall i | from <= i < |h| && h[i].change.kind in {Patch, Restore} ::
      Parsed(r, h[i].change.patch) == h[i].change.patch
  }

  lemma {:induction false} LoggedSince(cs: seq<Change>, n: nat, k: Key, f: Field)
    requires n <= |cs| && !NoWrite(cs[n..], k, Column(f))
    ensures exists i :: n <= i < |cs| && Writes(cs[i], k, Column(f)) && LastLogged(cs, k, f) == Lookup(cs[i].patch, f)
    decreases |cs|
  {
    hide Writes;
    var last := |cs| - 1;
    if !Writes(cs[last], k, Column(f)) {
      var j :| 0 <= j < |cs| - n && Writes(cs[n..][j], k, Column(f));
      assert cs[..last][n..][j] == cs[n..][j];
      LoggedSince(cs[..last], n, k, f);
      var i :| n <= i < last && Writes(cs[..last][i], k, Column(f))
               && LastLogged(cs[..last], k, f) == Lookup(cs[..last][i].patch, f);
      assert cs[i] == cs[..last][i];
    }
  }

  lemma {:induction false} CanonicalIsAlike(r: Rules, h: seq<Entry>, base: nat, k: Key, f: Field)
    requires base <= |h| && CreatesValid(r, h) && SentCanonically(r, h, base) && Raw(h, base, k, f)
    ensures SpelledAlike(r, h, k, f)
  {
    hide LastLogged, NoWrite, ValidFields, Coerce;
    assert Changes(h)[base..] == Changes(h[base..]);
    LoggedSince(Changes(h), base, k, f);
    var i :| base <= i < |h| && Writes(Changes(h)[i], k, Column(f))
             && LastLogged(Changes(h), k, f) == Lookup(Changes(h)[i].patch, f);
    if h[i].change.kind == Create {
      ValidIsParsed(r, h[i].change.key.entity, h[i].change.patch);
    }
    assert Parsed(r, h[i].change.patch) == h[i].change.patch;
  }

  lemma {:induction false} CreatesAreValid(r: Rules, w: World)
    requires Reachable(r, w)
    ensures CreatesValid(r, w.site.history)
  {
    hide Reachable, NodeInv, Tagged, CreatesValid;
    Invariant(r, w);
  }

  /** So without other spellings there is convergence to the stored row, */
  lemma {:induction false} ConvergesWhenCanonical(r: Rules, w: World, d: Device, k: Key)
    requires Reachable(r, w) && CaughtUp(w, d)
    requires k in w.site.account.table && k.entity != DayPlan && k !in w.nodes[d].stale
    requires SentCanonically(r, w.site.history, w.nodes[d].base)
    ensures k in w.nodes[d].store.rows
    ensures w.nodes[d].store.rows[k] == Materialize(k.entity, w.site.account.table[k].data)
  {
    hide Reachable, Mirrors, Raw, SpelledAlike, Materialize, SentCanonically, CreatesValid;
    Converges(r, w, d, k);
    CreatesAreValid(r, w);
    hide CaughtUp;
    var n, h, stored := w.nodes[d], w.site.history, w.site.account.table[k].data;
    MirrorsMeans(r, n.store, n.stale, n.base, h, stored, k);
    forall f | Mutable(k.entity, f) && Raw(h, n.base, k, f) ensures SpelledAlike(r, h, k, f) {
      CanonicalIsAlike(r, h, n.base, k, f);
    }
  }

  /** and two clients show the same row. */
  lemma {:induction false} AgreeWhenCanonical(r: Rules, w: World, d: Device, e: Device, k: Key)
    requires Reachable(r, w) && CaughtUp(w, d) && CaughtUp(w, e) && k in w.site.account.table && k.entity != DayPlan
    requires k !in w.nodes[d].stale && k !in w.nodes[e].stale
    requires SentCanonically(r, w.site.history, Min(w.nodes[d].base, w.nodes[e].base))
    ensures k in w.nodes[d].store.rows && k in w.nodes[e].store.rows
    ensures w.nodes[d].store.rows[k] == w.nodes[e].store.rows[k]
  {
    hide Reachable, Materialize;
    assert SentCanonically(r, w.site.history, w.nodes[d].base) && SentCanonically(r, w.site.history, w.nodes[e].base);
    hide SentCanonically;
    ConvergesWhenCanonical(r, w, d, k);
    ConvergesWhenCanonical(r, w, e, k);
  }

  lemma {:induction false} RowIsRedo(r: Rules, w: World, k: Key)
    requires Reachable(r, w) && k in w.site.account.table
    ensures DataOf(Redo(r, w.site.history, k)) == Some(w.site.account.table[k].data)
  {
    hide Reachable, NodeInv, Tagged, Redo;
    Invariant(r, w);
    TablesAreRedo(r, w.site);
    assert Redo(r, w.site.history, k) == Some(w.site.account.table[k]);
  }

  lemma {:induction false} RowsAlike(r: Rules, h: seq<Entry>, a: nat, b: nat, stored: Data, x: Data, y: Data, k: Key)
    requires DataOf(Redo(r, h, k)) == Some(stored) && a <= |h| && b <= |h| && x.deleted == y.deleted
    requires forall f :: f in x.fields <==> Mutable(k.entity, f)
    requires forall f :: f in y.fields <==> Mutable(k.entity, f)
    requires forall f | Mutable(k.entity, f) :: x.fields[f] == ShownCell(h, a, stored, k, f)
    requires forall f | Mutable(k.entity, f) :: y.fields[f] == ShownCell(h, b, stored, k, f)
    ensures x == y <==> forall f | Mutable(k.entity, f) && Raw(h, a, k, f) != Raw(h, b, k, f) ::
              SpelledAlike(r, h, k, f)
  {
    hide Redo, Raw, ShownCell, SpelledAlike, Mutable;
    forall f | Mutable(k.entity, f)
      ensures x.fields[f] == y.fields[f] <==> (Raw(h, a, k, f) != Raw(h, b, k, f) ==> SpelledAlike(r, h, k, f))
    {
      CellsAlike(r, h, a, b, stored, k, f);
    }
    RowsEqual(k.entity, x, y);
  }

  lemma {:induction false} CellsAlike(r: Rules, h: seq<Entry>, a: nat, b: nat, stored: Data, k: Key, f: Field)
    requires DataOf(Redo(r, h, k)) == Some(stored) && Mutable(k.entity, f) && a <= |h| && b <= |h|
    ensures ShownCell(h, a, stored, k, f) == ShownCell(h, b, stored, k, f)
            <==> (Raw(h, a, k, f) != Raw(h, b, k, f) ==> SpelledAlike(r, h, k, f))
  {
    hide Redo, Raw, LastLogged, Canonically, Pieced;
    PiecedReads(r, h, a, k, Column(f));
    PiecedReads(r, h, b, k, Column(f));
  }

  lemma {:induction false} StoredIsValid(r: Rules, w: World, k: Key)
    requires Reachable(r, w) && k in w.site.account.table
    ensures ValidFields(r, k.entity, w.site.account.table[k].data.fields)
  {
    LogIsRedoLog(r, w, k);
  }

  /** The mutable columns themselves are shown exactly if each cell known parsed
      can be displayed, and each known as it was logged is displayed as stored. */
  lemma {:induction false} ColumnsConverge(r: Rules, w: World, d: Device, k: Key)
    requires Reachable(r, w) && CaughtUp(w, d) && k in w.site.account.table && k.entity != DayPlan
    requires k !in w.nodes[d].stale
    ensures k in w.nodes[d].store.rows && w.nodes[d].base <= |w.site.history|
    ensures var n, h, stored := w.nodes[d], w.site.history, w.site.account.table[k].data;
            n.store.rows[k] == Data(stored.deleted, MutablePatch(k.entity, stored.fields)) <==>
              forall f | Mutable(k.entity, f) && f in stored.fields ::
                if Raw(h, n.base, k, f) then Coerce(f, LastLogged(Changes(h), k, f)) == stored.fields[f]
                else CellDisplayable(f, stored.fields[f])
  {
    hide Reachable, Mirrors, Raw, LastLogged, Mutable, CellDisplayable, ValidFields, Materialize, ShownCell,
      SpelledAlike;
    Converges(r, w, d, k);
    StoredIsValid(r, w, k);
    var n, h, stored := w.nodes[d], w.site.history, w.site.account.table[k].data;
    hide CaughtUp;
    MirrorsMeans(r, n.store, n.stale, n.base, h, stored, k);
    ColumnsAsStored(r, h, n.base, stored, n.store.rows[k], k);
  }

  lemma {:induction false} ColumnsAsStored(r: Rules, h: seq<Entry>, base: nat, stored: Data, row: Data, k: Key)
    requires base <= |h| && row.deleted == stored.deleted && ValidFields(r, k.entity, stored.fields)
    requires forall f :: f in row.fields <==> Mutable(k.entity, f)
    requires forall f | Mutable(k.entity, f) :: row.fields[f] == ShownCell(h, base, stored, k, f)
    ensures row == Data(stored.deleted, MutablePatch(k.entity, stored.fields)) <==>
              forall f | Mutable(k.entity, f) && f in stored.fields ::
                if Raw(h, base, k, f) then Coerce(f, LastLogged(Changes(h), k, f)) == stored.fields[f]
                else CellDisplayable(f, stored.fields[f])
  {
    hide Raw, LastLogged, Mutable, CellDisplayable, ValidFields, Materialize;
    var full := Data(stored.deleted, MutablePatch(k.entity, stored.fields));
    forall f ensures f in full.fields <==> Mutable(k.entity, f)
      ensures Mutable(k.entity, f) ==>
                && f in stored.fields && full.fields[f] == stored.fields[f]
                && (Coerce(f, Some(stored.fields[f])) == stored.fields[f] <==> CellDisplayable(f, stored.fields[f]))
    {
      ColumnShown(r, k.entity, stored, f);
      if Mutable(k.entity, f) {
        CellOfValid(r, k.entity, stored.fields, f);
        CellShown(r, k.entity, f, stored.fields[f]);
      }
    }
    RowsEqual(k.entity, row, full);
  }

  lemma {:induction false} CellOfValid(r: Rules, e: Entity, fields: Fields, f: Field)
    requires ValidFields(r, e, fields) && Mutable(e, f)
    ensures f in fields && ValidCell(r, e, f, fields[f])
  {
    hide ValidCell;
  }

  /** The day 2024-01-01, sent as 2024-1-1, is no day to a client that reads it in
      the log, and the day to one that loads the tables afterwards. */
  lemma {:induction false} OtherSpelling(r: Rules, w: World, d: Device, e: Device, k: Key)
    requires Reachable(r, w) && CaughtUp(w, d) && CaughtUp(w, e) && k in w.site.account.table && k.entity == Task
    requires k !in w.nodes[d].stale && k !in w.nodes[e].stale
    requires w.nodes[d].base <= |w.site.history| && w.nodes[e].base <= |w.site.history|
    requires LastLogged(Changes(w.site.history), k, DueOn) == Some(Text("2024-1-1"))
    requires r.date("2024-1-1") == Some("2024-01-01")
    requires Raw(w.site.history, w.nodes[d].base, k, DueOn) && !Raw(w.site.history, w.nodes[e].base, k, DueOn)
    ensures !SpelledAlike(r, w.site.history, k, DueOn)
    ensures k in w.nodes[d].store.rows && DueOn in w.nodes[d].store.rows[k].fields
    ensures k in w.nodes[e].store.rows && DueOn in w.nodes[e].store.rows[k].fields
    ensures w.nodes[d].store.rows[k].deleted == w.nodes[e].store.rows[k].deleted == w.site.account.table[k].data.deleted
    ensures w.nodes[d].store.rows[k].fields[DueOn] == Null
    ensures w.nodes[e].store.rows[k].fields[DueOn] == Text("2024-01-01")
  {
    hide Reachable, Mirrors, ShownCell, Raw, LastLogged, Materialize, SpelledAlike;
    Converges(r, w, d, k);
    Converges(r, w, e, k);
    RowIsRedo(r, w, k);
    var h, a, b, stored := w.site.history, w.nodes[d], w.nodes[e], w.site.account.table[k].data;
    MirrorsMeans(r, a.store, a.stale, a.base, h, stored, k);
    MirrorsMeans(r, b.store, b.stale, b.base, h, stored, k);
    SpellingShown(r, h, a.base, b.base, stored, k);
  }

  lemma {:induction false} SpellingShown(r: Rules, h: seq<Entry>, a: nat, b: nat, stored: Data, k: Key)
    requires DataOf(Redo(r, h, k)) == Some(stored) && k.entity == Task && a <= |h| && b <= |h|
    requires LastLogged(Changes(h), k, DueOn) == Some(Text("2024-1-1")) && r.date("2024-1-1") == Some("2024-01-01")
    requires Raw(h, a, k, DueOn) && !Raw(h, b, k, DueOn)
    ensures !SpelledAlike(r, h, k, DueOn)
    ensures ShownCell(h, a, stored, k, DueOn) == Null && ShownCell(h, b, stored, k, DueOn) == Text("2024-01-01")
  {
    hide Redo, LastLogged, Raw, IsDateOnly;
    NewYear();
    CellIsStored(r, h, stored, k, DueOn);
  }

  lemma {:induction false} CellIsStored(r: Rules, h: seq<Entry>, stored: Data, k: Key, f: Field)
    requires DataOf(Redo(r, h, k)) == Some(stored) && Mutable(k.entity, f) && LastLogged(Changes(h), k, f).Some?
    ensures Coerce(f, Lookup(stored.fields, f)) == Coerce(f, Canonically(r, f, LastLogged(Changes(h), k, f)))
  {
    hide Redo, LastLogged, Canonically, NoWrite;
    assert h[0..] == h;
    RedoReads(r, h, 0, k, Column(f));
    LoggedIsWritten(Changes(h), k, f);
  }

  lemma {:induction false} LoggedIsWritten(cs: seq<Change>, k: Key, f: Field)
    requires LastLogged(cs, k, f).Some?
    ensures !NoWrite(cs, k, Column(f))
    decreases |cs|
  {
    if !Writes(cs[|cs| - 1], k, Column(f)) {
      NoWriteNext(cs, k, Column(f));
      LoggedIsWritten(cs[..|cs| - 1], k, f);
    }
  }

  lemma {:induction false} NewYear()
    ensures IsDateOnly("2024-01-01") && !IsDateOnly("2024-1-1")
  {
    var s := "2024-01-01";
    FourDigits(s[..4]);
    TwoDigits(s[5..7]);
    TwoDigits(s[8..]);
  }

  lemma {:induction false} AppliedIsLogged(w: Site, d: Device, issued: seq<Mutation>, n: nat)
    requires ExactlyOnce(w, d, issued) && 1 <= n <= w.account.marks[d]
    requires OpId(d, n) in w.outcomes && w.outcomes[OpId(d, n)].Applied?
    ensures exists i :: 0 <= i < |w.history| && w.history[i].change.key == issued[n - 1].change.key
  {
    var place := LogPlace(w, OpId(d, n)).value;
    assert Logged(w.history, issued[n - 1], place) && w.history[place - 1].change.key == issued[n - 1].change.key;
  }

  /** A row that the server does not have is shown by such a client exactly if it is
      not a day plan and an operation the client had not settled when it last loaded
      the tables wrote it; and all operations of the client on it were rejected. */
  lemma {:induction false} UnknownIsRefused(r: Rules, w: World, d: Device, k: Key)
    requires Reachable(r, w) && CaughtUp(w, d) && k !in w.site.account.table
    ensures w.nodes[d].since <= |w.nodes[d].issued|
    ensures k in w.nodes[d].store.rows <==>
              k.entity != DayPlan && Touches(w.nodes[d].issued[w.nodes[d].since..], k)
    ensures forall n | 1 <= n <= |w.nodes[d].issued| && w.nodes[d].issued[n - 1].change.key == k ::
              OpId(d, n) in w.site.outcomes && w.site.outcomes[OpId(d, n)].Rejected?
  {
    hide Reachable, OutboxInv, Tagged, Caught, Shown, Unread, PendingOps, Redo, Serving, Touches, InClientOrder;
    NodeFacts(r, w, d);
    var node, h := w.nodes[d], w.site.history;
    TablesAreRedo(r, w.site);
    assert Redo(r, h, k) == None;
    InformedBounds(r, h, node.store, node.issued, node.base, node.since, node.stale);
    KnownIsPieced(r, node.store, node.base, h, k);
    PiecedReads(r, h, node.base, k, Presence);
    assert Read(Known(node.store.shadow, k), Presence) == Read(Pieced(r, h, node.base, k), Presence);
    assert k !in node.store.shadow;
    RevIsLastSeq(r, h, k);
    forall n | 1 <= n <= |node.issued| && node.issued[n - 1].change.key == k
      ensures OpId(d, n) in w.site.outcomes && w.site.outcomes[OpId(d, n)].Rejected?
    {
      if w.site.outcomes[OpId(d, n)].Applied? {
        AppliedIsLogged(w.site, d, node.issued, n);
      }
    }
  }
}
