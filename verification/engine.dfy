/**
 The sync engine (packages/sync/src/index.ts): one client and a server that no
 one else uses while it runs.
 */
module Engine {
  import opened Prelude
  import opened Rows
  import opened Mutations
  import opened Server
  import opened Ledger
  import opened Devices
  import opened Client
  import opened Outbox
  import opened Projection
  import opened Views
  import opened Protocol
  import Batches
  import Bootstrap
  import Repository

  datatype SyncStatus = Idle | Syncing | Failed | AuthRequired | Synced

  datatype SyncState = SyncState(status: SyncStatus, pendingCount: nat)

  /** `transport.bootstrap` asks for no limit, so pages have 500 rows. */
  const BOOTSTRAP_LIMIT := 500

  const MAX_ROWS := (Bootstrap.MAX_PAGES + 1) * BOOTSTRAP_LIMIT

  // ---------------------------------------------------------------------
  // One round: request, answer, delivery
  // ---------------------------------------------------------------------

  function Remaining(n: Node): nat {
    |PendingOps(n.store.mutations)|
  }

  /** What one answered round of a quiet engine achieves. */
  ghost predicate Progress(r: Rules, w: Site, n: Node, d: Device, count: nat, limit: nat, after: Site, n': Node,
                           answer: Response)
  {
    && Talks(r, after, d, n') && n'.flight.None?
    && n'.issued == n.issued
    && w.history <= after.history
    && Remaining(n') == Remaining(n) - count
    && n.store.cursor <= |after.history|
    && n'.store.cursor == Min(n.store.cursor + limit, |after.history|)
    && (answer.hasMore <==> n'.store.cursor < |after.history|)
    && PageOf(after.history, n.store.cursor, answer) && answer.nextCursor == n'.store.cursor
    && (count == 0 ==> after.history == w.history)
  }

  lemma {:induction false} Round(r: Rules, w: Site, d: Device, n: Node, count: nat, limit: nat)
    requires Talks(r, w, d, n) && n.flight.None? && 1 <= limit <= MAX_SYNC_CHANGES
    requires count <= Min(MAX_SYNC_OPS, |PendingOps(n.store.mutations)|)
    requires var sent := PendingOps(n.store.mutations)[..count];
             SiteServe(r, w, d, n.store.cursor, sent, Some(limit)).1.Ok?
    ensures var sent := PendingOps(n.store.mutations)[..count];
            var (after, answer) := SiteServe(r, w, d, n.store.cursor, sent, Some(limit));
            var f := Flight(n.store.cursor, sent, answer);
            Progress(r, w, n, d, count, limit, after, Delivered(n.(flight := Some(f)), f), answer.value)
  {
    hide SiteServe, Talks, Delivered, PageOf, Remaining, PendingOps;
    var sent := PendingOps(n.store.mutations)[..count];
    var (after, answer) := SiteServe(r, w, d, n.store.cursor, sent, Some(limit));
    var f := Flight(n.store.cursor, sent, answer);
    RequestTalks(r, w, d, n, count, Some(limit));
    DeliverTalks(r, after, d, n.(flight := Some(f)));
    RoundRemoves(r, after, d, n.(flight := Some(f)));
    SameRemaining(n, Some(f));
    RoundReads(r, w, d, n, count, limit);
    DeliveredShape(n, f);
  }

  /** And a client that knew the tables still does. */
  lemma {:induction false} RoundInforms(r: Rules, w: Site, d: Device, n: Node, count: nat, limit: nat)
    requires NodeInv(r, w, d, n) && n.flight.None? && 1 <= limit <= MAX_SYNC_CHANGES
    requires count <= Min(MAX_SYNC_OPS, |PendingOps(n.store.mutations)|)
    requires var sent := PendingOps(n.store.mutations)[..count];
             SiteServe(r, w, d, n.store.cursor, sent, Some(limit)).1.Ok?
    ensures var sent := PendingOps(n.store.mutations)[..count];
            var (after, answer) := SiteServe(r, w, d, n.store.cursor, sent, Some(limit));
            var f := Flight(n.store.cursor, sent, answer);
            NodeInv(r, after, d, Delivered(n.(flight := Some(f)), f))
  {
    hide SiteServe, NodeInv, Delivered, PendingOps;
    var sent := PendingOps(n.store.mutations)[..count];
    var (after, answer) := SiteServe(r, w, d, n.store.cursor, sent, Some(limit));
    RequestKeeps(r, w, d, n, count, Some(limit));
    DeliverKeeps(r, after, d, n.(flight := Some(Flight(n.store.cursor, sent, answer))));
  }

  lemma {:induction false} SameRemaining(n: Node, f: Option<Flight>)
    ensures Remaining(n.(flight := f)) == Remaining(n)
  {
  }

  lemma {:induction false} DeliveredShape(n: Node, f: Flight)
    requires f.answer.Ok?
    ensures var n' := Delivered(n.(flight := Some(f)), f);
            n'.flight.None? && n'.issued == n.issued && n'.store.cursor == f.answer.value.nextCursor
  {
  }

  lemma {:induction false} RoundRemoves(r: Rules, w: Site, d: Device, n: Node)
    requires Talks(r, w, d, n) && n.flight.Some? && n.flight.value.answer.Ok?
    ensures var n' := Delivered(n, n.flight.value);
            Remaining(n') == Remaining(n) - |n.flight.value.sent|
  {
    AnswerSettles(r, w, d, n);
  }

  lemma {:induction false} RoundReads(r: Rules, w: Site, d: Device, n: Node, count: nat, limit: nat)
    requires Talks(r, w, d, n) && n.flight.None? && 1 <= limit <= MAX_SYNC_CHANGES
    requires count <= Min(MAX_SYNC_OPS, |PendingOps(n.store.mutations)|)
    requires var sent := PendingOps(n.store.mutations)[..count];
             SiteServe(r, w, d, n.store.cursor, sent, Some(limit)).1.Ok?
    ensures var sent := PendingOps(n.store.mutations)[..count];
            var (after, answer) := SiteServe(r, w, d, n.store.cursor, sent, Some(limit));
            && PageOf(after.history, n.store.cursor, answer.value)
            && FullPage(after.history, n.store.cursor, limit, answer.value)
            && w.history <= after.history
            && (count == 0 ==> after.history == w.history)
  {
    hide Serving, OutboxInv, Informed, PendingOps, RunOf, SiteServe, PageOf, FullPage, FlightInv;
    var sent := PendingOps(n.store.mutations)[..count];
    ServingGives(r, w, d, n.issued);
    var done: nat := DoneCount(n);
    PrefixIsRun(w, d, n.store.mutations, n.issued, done, count);
    ServeOwn(r, w, d, n.issued, done, sent, n.store.cursor, Some(limit));
    if count == 0 {
      assert sent == [];
      NothingSent(r, w, d, n.store.cursor, Some(limit));
    }
  }

  lemma {:induction false} NothingSent(r: Rules, w: Site, d: Device, cursor: nat, limit: Option<nat>)
    ensures SiteServe(r, w, d, cursor, [], limit).0 == w
  {
  }

  lemma {:induction false} ServeKeepsAccess(r: Rules, w: Site, d: Device, cursor: nat, ops: seq<Mutation>,
                                            limit: Option<nat>)
    ensures var a := SiteServe(r, w, d, cursor, ops, limit).0.account;
            a.minAvail == w.account.minAvail && a.revoked == w.account.revoked && a.closed == w.account.closed
  {
    if ServeSync(r, w.account, d, cursor, ops, limit).Ok? {
      Batches.ProcessOnlyAdds(r, w.account, d, ops);
    }
    hide Process, SiteProcess;
  }

  function Refusal(a: Account, d: Device, expired: bool): SyncError {
    if a.closed then Unauthorized else if expired then CursorExpired else DeviceRevoked
  }

  /** The refusal a request of a well-behaved client can meet. */
  lemma {:induction false} WhyRefused(r: Rules, w: Site, d: Device, n: Node, count: nat, limit: nat)
    requires Talks(r, w, d, n) && n.flight.None? && 1 <= limit <= MAX_SYNC_CHANGES
    requires count <= Min(MAX_SYNC_OPS, |PendingOps(n.store.mutations)|)
    ensures var sent := PendingOps(n.store.mutations)[..count];
            var answer := SiteServe(r, w, d, n.store.cursor, sent, Some(limit)).1;
            var expired := n.store.cursor < w.account.minAvail - 1;
            if w.account.closed || expired || d in w.account.revoked
            then answer == Err(Refusal(w.account, d, expired))
            else answer.Ok?
  {
    hide Serving, OutboxInv, Informed, PendingOps, RunOf, FlightInv, SiteInv, Tagged, Process, SiteProcess;
    var sent := PendingOps(n.store.mutations)[..count];
    NodeSite(r, w, d, n);
    ServingGives(r, w, d, n.issued);
    var done: nat := DoneCount(n);
    PrefixIsRun(w, d, n.store.mutations, n.issued, done, count);
    RunIsWellFormed(d, n.issued, done, sent);
    RunAccepted(r, w, d, n.issued, done, sent);
  }

  // ---------------------------------------------------------------------
  // Loading a snapshot
  // ---------------------------------------------------------------------

  /** The tables at a time when every row already exists. */
  function TablesNow(a: Account): Bootstrap.Moment {
    Bootstrap.Moment(map k | k in a.table :: Bootstrap.Saved(a.table[k].data, 0), a.nextSeq, 0)
  }

  lemma {:induction false} QuietGrows(now: Bootstrap.Moment)
    requires 1 <= now.nextSeq
    ensures Bootstrap.OnlyGrows((i: nat) => now)
  {
  }

  lemma {:induction false} QuietMoments(r: Rules, w: Site)
    requires SiteInv(r, w)
    ensures Bootstrap.ShowsHistory(r, (i: nat) => TablesNow(w.account), w.history, (i: nat) => |w.history|, |w.history|)
  {
    assert w.history[..|w.history|] == w.history;
    hide EverValid, LogIsSuffix, Redo;
  }

  lemma {:induction false} KeysFit(entities: seq<(Key, Data)>, keys: set<Key>)
    requires Bootstrap.AllAscend(entities) && forall i | 0 <= i < |entities| :: entities[i].0 in keys
    ensures |entities| <= |keys|
    decreases |entities|
  {
    if entities != [] {
      var n := |entities| - 1;
      forall i | 0 <= i < n ensures entities[i].0 != entities[n].0 {
        Bootstrap.NoRowTwice(entities, i, n);
      }
      KeysFit(entities[..n], keys - {entities[n].0});
    }
  }

  /** What was collected is part of the tables, and all of them exactly if there
      are no more rows than that. */
  lemma {:induction false} GuardSuffices(a: Account, entities: seq<(Key, Data)>, when: seq<nat>, upto: nat)
    requires Bootstrap.AllAscend(entities)
    requires Bootstrap.ReadAt((i: nat) => TablesNow(a), entities, when, upto)
    ensures |entities| <= |a.table|
    ensures Bootstrap.Loaded(entities).Keys == a.table.Keys <==> |a.table| == |entities|
    ensures Bootstrap.LeavesOne(TablesNow(a), entities) <==> |entities| < |a.table|
  {
    forall k ensures k in Bootstrap.Loaded(entities) <==> Bootstrap.Has(entities, k) {
      Bootstrap.LoadedKeys(entities, when, (i: nat) => 0, k);
    }
    hide Bootstrap.Loaded, Bootstrap.AllAscend;
    assert forall k | k in Bootstrap.Loaded(entities) :: k in a.table;
    KeysFit(entities, a.table.Keys);
    if k :| k in a.table && !Bootstrap.Has(entities, k) {
      KeysFit(entities, a.table.Keys - {k});
    } else {
      AllCollected(a.table.Keys, entities);
    }
  }

  /** So the pages give the whole table exactly if the guard allows its rows. */
  lemma {:induction false} Gathered(a: Account, now: Bootstrap.Moment, entities: seq<(Key, Data)>, when: seq<nat>,
                                    finished: bool)
    requires now == TablesNow(a) && Bootstrap.AllAscend(entities) && |entities| <= MAX_ROWS
    requires Bootstrap.ReadAt((i: nat) => now, entities, when, Bootstrap.MAX_PAGES + 1)
    requires finished ==> Bootstrap.CompleteUpTo(now, now.clock, entities, None)
    requires !finished ==> |entities| == MAX_ROWS && Bootstrap.LeavesOne(now, entities)
    ensures Bootstrap.Loaded(entities).Keys == a.table.Keys <==> |a.table| <= MAX_ROWS
    ensures finished <==> |a.table| <= MAX_ROWS
  {
    GuardSuffices(a, entities, when, Bootstrap.MAX_PAGES + 1);
    hide Bootstrap.AllAscend, Bootstrap.ReadAt, Bootstrap.Loaded;
    if finished {
      forall k | k in a.table ensures Bootstrap.Has(entities, k) {
        assert Bootstrap.Eligible(TablesNow(a), 0, None, k);
      }
    }
  }

  lemma {:induction false} Rebases(r: Rules, w: Site, d: Device, n: Node, now: Bootstrap.Moment,
                                   entities: seq<(Key, Data)>, when: seq<nat>)
    requires Talks(r, w, d, n) && n.flight.None? && now == TablesNow(w.account) && Bootstrap.AllAscend(entities)
    requires Bootstrap.ReadAt((i: nat) => now, entities, when, Bootstrap.MAX_PAGES + 1)
    requires Bootstrap.CompleteUpTo(now, now.clock, entities, None)
    ensures NodeInv(r, w, d, n.(store := Rebased(n.store, Bootstrap.Loaded(entities), |w.history|),
                                base := |w.history|, since := Settled(n), stale := {}))
  {
    hide NodeInv, Talks, SiteInv, Rebased, TablesNow;
    NodeSite(r, w, d, n);
    QuietMoments(r, w);
    var moments, lengths := (i: nat) => TablesNow(w.account), (i: nat) => |w.history|;
    Bootstrap.CollectedIsSnapshot(r, moments, w.history, lengths, entities, when, Bootstrap.MAX_PAGES + 1, |w.history|);
    RebaseKeeps(r, w, d, n, |w.history|, Bootstrap.LengthsRead(entities, when, lengths));
  }

  lemma {:induction false} AllCollected(keys: set<Key>, entities: seq<(Key, Data)>)
    requires forall k | k in keys :: Bootstrap.Has(entities, k)
    ensures |keys| <= |entities|
    decreases |entities|
  {
    if entities == [] {
      if k :| k in keys {
        assert false;
      }
    } else {
      var n := |entities| - 1;
      forall k | k in keys - {entities[n].0} ensures Bootstrap.Has(entities[..n], k) {
        Bootstrap.HasNext(entities, k);
      }
      AllCollected(keys - {entities[n].0}, entities[..n]);
    }
  }

  /** All pages of a server that stays as it is. */
  method Download(r: Rules, a: Account, ghost w: Site, ghost d: Device, ghost n: Node)
    returns (loaded: map<Key, Data>, cursor: int)
    requires Talks(r, w, d, n) && n.flight.None? && w.account == a
    ensures cursor == |w.history|
    ensures loaded.Keys == a.table.Keys <==> |a.table| <= MAX_ROWS
    ensures |a.table| <= MAX_ROWS ==>
              NodeInv(r, w, d, n.(store := Rebased(n.store, loaded, |w.history|),
                                  base := |w.history|, since := Settled(n), stale := {}))
  {
    hide NodeInv, Talks, Rebased, SiteInv;
    NodeSite(r, w, d, n);
    var now := TablesNow(a);
    QuietGrows(now);
    assert now.nextSeq == |w.history| + 1;
    hide *;
    var entities, last, finished, when := Bootstrap.CollectPages((i: nat) => now, BOOTSTRAP_LIMIT);
    Gathered(a, now, entities, when, finished);
    if finished {
      Rebases(r, w, d, n, now, entities, when);
    }
    loaded, cursor := Bootstrap.Loaded(entities), last;
  }

  // ---------------------------------------------------------------------
  // The engine
  // ---------------------------------------------------------------------

  /** `got` are the entries of the history after the first `from`. */
  ghost predicate ReadAll(h: seq<Entry>, from: nat, got: seq<LogRow>) {
    && |got| == |h| - from
    && forall i | 0 <= i < |got| :: got[i] == LogRow(from + i + 1, h[from + i])
  }

  class SyncEngine {
    const repository: Repository.WebRepository
    const batchSize: nat
    var remote: Account
    var state: SyncState
    ghost var history: seq<Entry>
    ghost var outcomes: map<OpId, Outcome>
    ghost var issued: seq<Mutation>
    ghost var base: nat
    ghost var since: nat
    ghost var stale: set<Key>

    constructor (client: Repository.WebRepository, server: Account, size: nat, ghost h: seq<Entry>,
                 ghost results: map<OpId, Outcome>, ghost n: Protocol.Node)
      ensures repository == client && batchSize == size && remote == server && history == h && outcomes == results
      ensures issued == n.issued && base == n.base && since == n.since && stale == n.stale
      ensures state == SyncState(Idle, 0)
    {
      repository, batchSize, remote := client, size, server;
      history, outcomes, issued, base, since, stale := h, results, n.issued, n.base, n.since, n.stale;
      state := SyncState(Idle, 0);
    }

    ghost function Site(): Ledger.Site
      reads this
    {
      Ledger.Site(remote, history, outcomes)
    }

    ghost function Node(): Protocol.Node
      reads this, repository
    {
      Protocol.Node(repository.State(), issued, None, base, since, stale)
    }

    ghost predicate Valid(r: Rules)
      reads this, repository
    {
      1 <= batchSize <= MAX_SYNC_OPS && Talks(r, Site(), repository.deviceId, Node())
    }

    /** The client's rows mirror the tables as far as it has read. */
    ghost predicate Knows(r: Rules)
      reads this, repository
    {
      Informed(r, history, repository.State(), issued, base, since, stale)
    }

    /** The server will not serve this device. */
    ghost predicate Denied()
      reads this
    {
      remote.closed || repository.deviceId in remote.revoked
    }

    ghost predicate Expired()
      reads this, repository
    {
      repository.syncCursor < remote.minAvail - 1
    }

    /** Send the first pending operations and apply the answer. */
    method Exchange(r: Rules) returns (answer: Result<Response, SyncError>, ghost count: nat)
      requires Valid(r)
      modifies this, repository
      ensures state == old(state)
      ensures Valid(r) && issued == old(issued) && (old(Knows(r)) ==> Knows(r))
      ensures remote.minAvail == old(remote.minAvail) && remote.revoked == old(remote.revoked)
      ensures remote.closed == old(remote.closed)
      ensures count == Min(batchSize, old(Remaining(Node())))
      ensures answer.Err? ==>
                && Site() == old(Site()) && Node() == old(Node())
                && answer.error == Refusal(remote, repository.deviceId, Expired())
                && (Denied() || Expired())
      ensures answer.Ok? ==>
                && !old(Denied()) && !old(Expired())
                && Progress(r, old(Site()), old(Node()), repository.deviceId, count, batchSize, Site(), Node(),
                            answer.value)
    {
      hide Talks, Informed, SiteServe, ServeSync, PendingOps, Delivered, Progress, ApplyAnswer;
      var d := repository.deviceId;
      var pending := repository.SyncGetPending(batchSize);
      var cursor := repository.syncCursor;
      ghost var w, n := Site(), Node();
      count := |pending|;
      PendingTaken(n, batchSize, pending);
      WhyRefused(r, w, d, n, count, batchSize);
      ServeKeepsAccess(r, w, d, cursor, pending, Some(batchSize));
      ghost var (after, told) := SiteServe(r, w, d, cursor, pending, Some(batchSize));
      var served := ServeSync(r, remote, d, cursor, pending, Some(batchSize));
      if served.Err? {
        return Err(served.error), count;
      }
      Round(r, w, d, n, count, batchSize);
      if Knows(r) {
        RoundInforms(r, w, d, n, count, batchSize);
      }
      DeliveredState(n, Flight(cursor, pending, told));
      remote := served.value.0;
      var response := served.value.1;
      repository.SyncApplyResult(response.acks, response.changes, response.nextCursor);
      history, outcomes := after.history, after.outcomes;
      stale := Delivered(n.(flight := Some(Flight(cursor, pending, told))), Flight(cursor, pending, told)).stale;
      ProgressKeeps(r, w, n, d, count, batchSize, after, Node(), response);
      return Ok(response), count;
    }

    /** The branch for an expired cursor: read every page and rebase. The guard of
        the page loop leaves rows out exactly if there are more than it allows. */
    method LoadSnapshot(r: Rules)
      requires Valid(r)
      modifies this`base, this`since, this`stale, repository
      ensures repository.shadow.Keys == remote.table.Keys <==> |remote.table| <= MAX_ROWS
      ensures Valid(r) && (|remote.table| <= MAX_ROWS ==> Knows(r))
      ensures Site() == old(Site()) && issued == old(issued)
      ensures repository.mutations == old(repository.mutations)
      ensures repository.syncCursor == |history| && !Expired()
    {
      hide Talks, Informed, PendingOps, Rebased, SiteInv;
      ghost var n := Node();
      NodeSite(r, Site(), repository.deviceId, n);
      var loaded, cursor := Download(r, remote, Site(), repository.deviceId, n);
      RebasedShape(n.store, loaded, |history|);
      RebasedTalks(r, Site(), repository.deviceId, n, loaded);
      repository.SyncReplaceSnapshot(loaded, cursor);
      base, since, stale := |history|, Settled(n), {};
    }

    /** `run`: nothing is left pending, the whole log is read, and every entry
        after the starting cursor (or after the snapshot) is delivered once and
        in order. What the client knew of the tables it still knows, unless it had
        to load more rows than the page guard allows. */
    method Run(r: Rules) returns (ghost got: seq<LogRow>)
      requires Valid(r)
      modifies this, repository
      ensures Valid(r) && issued == old(issued)
      ensures (if old(Expired()) && !old(remote.closed) then |old(remote.table)| <= MAX_ROWS else old(Knows(r))) ==>
                Knows(r)
      ensures old(Denied()) ==>
                && state.status == AuthRequired && Site() == old(Site())
                && repository.mutations == old(repository.mutations)
      ensures !old(Denied()) ==>
                && state.status in {Synced, Failed} && state.pendingCount == 0
                && PendingOps(repository.mutations) == [] && repository.syncCursor == |history|
                && old(history) <= history
                && ReadAll(history, if old(Expired()) then |old(history)| else old(repository.syncCursor), got)
      decreases Expired(), Remaining(Node()), |history| - repository.syncCursor
    {
      hide Talks, Informed, PendingOps, Progress, ReadAll, MAX_ROWS;
      ghost var w, n := Site(), Node();
      NodeSite(r, w, repository.deviceId, n);
      state := state.(status := Syncing);
      var answer, count := Exchange(r);
      if answer.Err? {
        got := [];
        if answer.error != CursorExpired {
          state := state.(status := AuthRequired);
          return;
        }
        LoadSnapshot(r);
        state := state.(status := Idle);
        got := Run(r);
        return;
      }
      Progressed(r, w, n, repository.deviceId, count, batchSize, Site(), Node(), answer.value);
      var rejected := exists ack :: ack in answer.value.acks && ack.status.Done? && ack.status.outcome.Rejected?;
      var pendingCount := CountPending(repository.mutations);
      state := SyncState(if rejected then Failed else if pendingCount > 0 || answer.value.hasMore then Syncing
                         else Synced,
                         pendingCount);
      if pendingCount > 0 || answer.value.hasMore {
        ghost var between := Site();
        var rest := Run(r);
        got := answer.value.changes + rest;
        ReadOn(n.store.cursor, between.history, history, answer.value, rest);
      } else {
        got := answer.value.changes;
        ReadLast(n.store.cursor, history, answer.value);
      }
    }
  }

  function CountPending(ms: seq<Stored>): nat {
    |PendingOps(ms)|
  }

  lemma {:induction false} PendingTaken(n: Node, batchSize: nat, pending: seq<Mutation>)
    requires 1 <= batchSize <= MAX_SYNC_OPS
    requires var all := PendingOps(n.store.mutations); pending == if |all| <= batchSize then all else all[..batchSize]
    ensures pending == PendingOps(n.store.mutations)[..|pending|]
    ensures |pending| == Min(batchSize, Remaining(n)) && |pending| <= Min(MAX_SYNC_OPS, |PendingOps(n.store.mutations)|)
  {
    hide PendingOps;
  }

  lemma {:induction false} DeliveredState(n: Node, f: Flight)
    requires f.answer.Ok? && n.flight.None?
    ensures var n' := Delivered(n.(flight := Some(f)), f);
            n' == Protocol.Node(ApplyAnswer(n.store, f.answer.value.acks, f.answer.value.changes,
                                            f.answer.value.nextCursor),
                                n.issued, None, n.base, n.since, n'.stale)
  {
    hide ApplyAnswer;
  }

  lemma {:induction false} ProgressKeeps(r: Rules, w: Site, n: Node, d: Device, count: nat, limit: nat, after: Site,
                                         n': Node, answer: Response)
    requires Progress(r, w, n, d, count, limit, after, n', answer)
    ensures Talks(r, after, d, n')
  {
  }

  lemma {:induction false} NodeSite(r: Rules, w: Site, d: Device, n: Node)
    requires Talks(r, w, d, n)
    ensures SiteInv(r, w) && w.account.nextSeq == |w.history| + 1 && n.store.cursor <= |w.history|
    ensures w.account.minAvail <= |w.history| + 1
  {
    ServingGives(r, w, d, n.issued);
  }

  /** Whatever was loaded, the outbox is as it was. */
  lemma {:induction false} RebasedTalks(r: Rules, w: Site, d: Device, n: Node, loaded: map<Key, Data>)
    requires Talks(r, w, d, n) && n.flight.None?
    ensures Talks(r, w, d, n.(store := Rebased(n.store, loaded, |w.history|),
                              base := |w.history|, since := Settled(n), stale := {}))
  {
    hide Serving, OutboxInv, PendingOps, Rebuilt, Visible;
  }

  lemma {:induction false} RebasedShape(c: Store, snapshot: map<Key, Data>, cursor: nat)
    ensures Rebased(c, snapshot, cursor).mutations == c.mutations && Rebased(c, snapshot, cursor).cursor == cursor
    ensures Rebased(c, snapshot, cursor).shadow == snapshot
  {
  }

  /** A round without an expired cursor makes the run shorter, or ends it. */
  lemma {:induction false} Progressed(r: Rules, w: Site, n: Node, d: Device, count: nat, limit: nat, after: Site,
                                      n': Node,
                                      answer: Response)
    requires Progress(r, w, n, d, count, limit, after, n', answer) && Talks(r, w, d, n) && 1 <= limit
    requires count == Min(limit, Remaining(n))
    ensures n.store.cursor <= |w.history| <= |after.history| && w.history <= after.history
    ensures n.store.cursor <= n'.store.cursor <= |after.history|
    ensures PageOf(after.history, n.store.cursor, answer) && answer.nextCursor == n'.store.cursor
    ensures answer.hasMore <==> n'.store.cursor < |after.history|
    ensures Remaining(n') < Remaining(n)
            || (Remaining(n') == Remaining(n) == 0
                && (answer.hasMore ==> |after.history| - n'.store.cursor < |w.history| - n.store.cursor))
  {
    NodeSite(r, w, d, n);
    hide Talks, PageOf, Remaining;
  }

  lemma {:induction false} ReadLast(from: nat, h: seq<Entry>, answer: Response)
    requires PageOf(h, from, answer) && answer.nextCursor == |h|
    ensures ReadAll(h, from, answer.changes)
  {
  }

  lemma {:induction false} ReadOn(from: nat, h: seq<Entry>, h': seq<Entry>, answer: Response, rest: seq<LogRow>)
    requires PageOf(h, from, answer) && h <= h' && ReadAll(h', answer.nextCursor, rest)
    ensures ReadAll(h', from, answer.changes + rest)
  {
  }
}
