/**
 Whole runs of the protocol: one account, the web clients that first logged in
 on fresh devices, and any number of other devices. Requests and responses may
 be lost, retried and served late, the log and the receipts may be pruned, and
 a client may edit, discard rejections or load a snapshot at any time.
 */
module Protocol {
  import opened Prelude
  import opened Rows
  import opened Mutations
  import opened Server
  import opened Ledger
  import opened Devices
  import opened Client
  import opened Merge
  import opened Outbox
  import Batches
  import opened Projection
  import opened Views

  /** The one request of a client that is under way, and what the server made
      of it. */
  datatype Flight = Flight(cursor: nat, sent: seq<Mutation>, answer: Result<Response, SyncError>)

  /** A client; `issued` is everything it ever queued. When it last loaded the
      tables the log was `base` long and the first `since` of its operations were
      no longer pending. `stale` are the rows that its first login left unlike the
      cloud's and nothing has touched since. */
  datatype Node = Node(store: Store, issued: seq<Mutation>, flight: Option<Flight>, base: nat, since: nat,
                       stale: set<Key>)

  datatype World = World(site: Site, nodes: map<Device, Node>)

  datatype Step =
    | Register(device: Device)
    | Connect(device: Device, mode: Mode, cursor: nat, readAt: map<Key, nat>, cloud: map<Key, Stamped>,
              locals: seq<LocalRow>)
    | Edit(device: Device, change: Change, row: Data)
    | Request(device: Device, count: nat, limit: Option<nat>)
    | Deliver(device: Device)
    | Lose(device: Device)
    | ServeLate(device: Device, ops: seq<Mutation>, cursor: nat, limit: Option<nat>)
    | ServeOther(device: Device, ops: seq<Mutation>, cursor: nat, limit: Option<nat>)
    | Rebase(device: Device, cursor: nat, readAt: map<Key, nat>)
    | Clear(device: Device)
    | PruneLog(below: nat)
    | PruneReceipts(ids: set<OpId>)
    | Revoke(device: Device)
    | CloseAccount

  function Start(): World {
    World(Site(Account(map[], map[], 1, 0, map[], map[], {}, false), [], map[]), map[])
  }

  function SiteServe(r: Rules, w: Site, d: Device, cursor: nat, ops: seq<Mutation>, limit: Option<nat>)
    : (result: (Site, Result<Response, SyncError>))
    ensures ServeSync(r, w.account, d, cursor, ops, limit)
         == if result.1.Ok? then Ok((result.0.account, result.1.value)) else Err(result.1.error)
    ensures result.1.Err? ==> result.0 == w
  {
    var answer := ServeSync(r, w.account, d, cursor, ops, limit);
    if answer.Err? then (w, Err(answer.error)) else (SiteProcess(r, w, d, ops).value.0, Ok(answer.value.1))
  }

  /** The log without the entries below `below`, and the smallest readable
      number: what a finished batch of `prune_change_log` leaves. */
  function Pruned(a: Account, below: nat): Account {
    a.(log := map n | n in a.log && below <= n :: a.log[n], minAvail := Max(a.minAvail, below))
  }

  ghost predicate FreeNode(w: World, d: Device) {
    d in w.nodes && w.nodes[d].flight.None?
  }

  ghost predicate Enabled(r: Rules, w: World, step: Step) {
    match step
    case Register(d) => d !in w.site.account.marks
    case Connect(d, mode, cursor, readAt, cloud, locals) =>
      && d in w.site.account.marks && w.site.account.marks[d] == 0 && d !in w.nodes
      && Readable(r, w.site.history, cursor, readAt) && CloudData(cloud) == Snapshot(r, w.site.history, readAt)
      && DistinctKeys(locals)
    case Edit(d, change, row) => d in w.nodes
    case Request(d, count, limit) =>
      && FreeNode(w, d) && PageLimit(limit).Some?
      && count <= Min(MAX_SYNC_OPS, |PendingOps(w.nodes[d].store.mutations)|)
    case Deliver(d) => d in w.nodes && w.nodes[d].flight.Some?
    case Lose(d) => d in w.nodes && w.nodes[d].flight.Some?
    case ServeLate(d, ops, cursor, limit) => d in w.nodes && exists i: nat :: SentBefore(w, d, i, ops)
    case ServeOther(d, ops, cursor, limit) => d in w.site.account.marks && d !in w.nodes && AllOf(d, ops)
    case Rebase(d, cursor, readAt) => FreeNode(w, d) && Readable(r, w.site.history, cursor, readAt)
    case Clear(d) => d in w.nodes
    case PruneLog(below) => below <= w.site.account.nextSeq
    case PruneReceipts(ids) => true
    case Revoke(d) => true
    case CloseAccount => true
  }

  /** An earlier request of `d`: it began at what was then the first pending
      operation. */
  ghost predicate SentBefore(w: World, d: Device, i: nat, ops: seq<Mutation>)
    requires d in w.nodes
  {
    d in w.site.account.marks && i <= w.site.account.marks[d] && RunOf(w.nodes[d].issued, i, ops)
  }

  function Delivered(n: Node, f: Flight): Node {
    if f.answer.Err? then n.(flight := None)
    else
      var answer := f.answer.value;
      var keys := AckedKeys(n.store.mutations, answer.acks) + ChangedKeys(answer.changes);
      n.(store := ApplyAnswer(n.store, answer.acks, answer.changes, answer.nextCursor),
         flight := None,
         stale := n.stale - keys)
  }

  function AfterClear(n: Node): Node {
    n.(store := Cleared(n.store),
       stale := n.stale - RefusedKeys(n.store.mutations, RefusedIds(n.store.mutations)))
  }

  function Connected(d: Device, cloud: map<Key, Stamped>, cursor: nat, mode: Mode, locals: seq<LocalRow>): Node {
    var store := Initialized(d, cloud, cursor, mode, locals);
    Node(store,
         if mode == Cloud then [] else AsOperations(d, Ordered(MergedOps(cloud, locals))),
         None,
         cursor,
         0,
         LeftUnlike(cloud, mode, locals))
  }

  predicate Housekeeping(step: Step) {
    step.Register? || step.PruneLog? || step.PruneReceipts? || step.Revoke? || step.CloseAccount?
  }

  /** Steps in which only the client acts. */
  predicate AtClient(step: Step) {
    step.Connect? || step.Edit? || step.Deliver? || step.Lose? || step.Rebase? || step.Clear?
  }

  /** How many operations of a client are no longer pending. */
  function DoneCount(n: Node): int {
    |n.issued| - |PendingOps(n.store.mutations)|
  }

  /** The same for a client whose pending operations were all issued. */
  function Settled(n: Node): nat {
    Max(0, DoneCount(n))
  }

  function NodeAfter(r: Rules, w: World, step: Step): Node
    requires Enabled(r, w, step) && AtClient(step)
  {
    match step
    case Connect(d, mode, cursor, readAt, cloud, locals) => Connected(d, cloud, cursor, mode, locals)
    case Edit(d, change, row) =>
      var n := w.nodes[d];
      n.(store := Edited(n.store, d, change, row), issued := n.issued + [NextOp(n.store, d, change)])
    case Deliver(d) => Delivered(w.nodes[d], w.nodes[d].flight.value)
    case Lose(d) => w.nodes[d].(flight := None)
    case Rebase(d, cursor, readAt) =>
      w.nodes[d].(store := Rebased(w.nodes[d].store, Snapshot(r, w.site.history, readAt), cursor),
                    base := cursor, since := Settled(w.nodes[d]), stale := {})
    case Clear(d) => AfterClear(w.nodes[d])
  }

  /** Steps in which the server serves a request of `step.device`. */
  predicate Serves(step: Step) {
    step.Request? || step.ServeLate? || step.ServeOther?
  }

  function Operations(r: Rules, w: World, step: Step): seq<Mutation>
    requires Enabled(r, w, step) && Serves(step)
  {
    if step.Request? then PendingOps(w.nodes[step.device].store.mutations)[..step.count] else step.ops
  }

  function Cursor(r: Rules, w: World, step: Step): nat
    requires Enabled(r, w, step) && Serves(step)
  {
    if step.Request? then w.nodes[step.device].store.cursor else step.cursor
  }

  function Tidied(a: Account, step: Step): Account
    requires Housekeeping(step)
  {
    match step
    case Register(d) => a.(marks := a.marks[d := 0])
    case PruneLog(below) => Pruned(a, below)
    case PruneReceipts(ids) => a.(receipts := a.receipts - ids)
    case Revoke(d) => a.(revoked := a.revoked + {d})
    case CloseAccount => a.(closed := true)
  }

  function After(r: Rules, w: World, step: Step): World
    requires Enabled(r, w, step)
  {
    if AtClient(step) then
      w.(nodes := w.nodes[step.device := NodeAfter(r, w, step)])
    else if Serves(step) then
      var ops, cursor := Operations(r, w, step), Cursor(r, w, step);
      var (site, answer) := SiteServe(r, w.site, step.device, cursor, ops, step.limit);
      if step.Request? then
        World(site, w.nodes[step.device := w.nodes[step.device].(flight := Some(Flight(cursor, ops, answer)))])
      else w.(site := site)
    else
      w.(site := w.site.(account := Tidied(w.site.account, step)))
  }

  // ---------------------------------------------------------------------
  // The invariant
  // ---------------------------------------------------------------------

  predicate Orderly(e: SyncError) {
    e == CursorExpired || e == DeviceRevoked || e == Unauthorized
  }

  ghost predicate FlightInv(w: Site, d: Device, n: Node, f: Flight)
    requires 0 <= DoneCount(n) && d in w.account.marks
  {
    && f.cursor == n.store.cursor
    && RunOf(n.issued, DoneCount(n), f.sent)
    && (f.answer.Err? ==> Orderly(f.answer.error))
    && (f.answer.Ok? ==>
          && AcksFit(w, f.sent, f.answer.value.acks)
          && DoneCount(n) + |f.sent| <= w.account.marks[d]
          && PageOf(w.history, f.cursor, f.answer.value))
  }

  /** A page holds the entries after the cursor up to the next cursor. */
  ghost predicate PageOf(h: seq<Entry>, cursor: nat, answer: Response) {
    && answer.nextCursor == cursor + |answer.changes| <= |h|
    && forall i | 0 <= i < |answer.changes| :: answer.changes[i] == LogRow(cursor + i + 1, h[cursor + i])
  }

  ghost predicate OutboxOf(w: Site, d: Device, n: Node) {
    && d in w.account.marks
    && n.store.clientSeq == |n.issued|
    && 0 <= DoneCount(n) <= w.account.marks[d]
    && OutboxInv(w, d, n.store.mutations, n.issued, DoneCount(n))
    && (n.flight.Some? ==> FlightInv(w, d, n, n.flight.value))
  }

  /** What a client needs to be served: its outbox is in order, whatever it knows
      of the tables. */
  ghost predicate Talks(r: Rules, w: Site, d: Device, n: Node) {
    Serving(r, w, d, n.issued) && OutboxOf(w, d, n) && n.store.cursor <= |w.history|
  }

  ghost predicate NodeInv(r: Rules, w: Site, d: Device, n: Node) {
    && Talks(r, w, d, n)
    && Informed(r, w.history, n.store, n.issued, n.base, n.since, n.stale)
  }

  ghost predicate Inv(r: Rules, w: World) {
    && SiteInv(r, w.site) && Tagged(w.site)
    && forall d | d in w.nodes :: NodeInv(r, w.site, d, w.nodes[d])
  }

  // ---------------------------------------------------------------------
  // Serving a request
  // ---------------------------------------------------------------------

  function UpTo(lo: nat, hi: nat): (ns: seq<nat>)
    requires lo <= hi
    ensures |ns| == hi - lo
    ensures forall i | 0 <= i < |ns| :: ns[i] == lo + i
  {
    seq(hi - lo, i requires 0 <= i < hi - lo => lo + i)
  }

  lemma {:induction false} HeldIsAll(log: map<nat, Entry>, lo: nat, hi: nat)
    requires lo <= hi && forall n | lo <= n < hi :: n in log
    ensures Held(log, lo, hi) == UpTo(lo, hi)
    decreases hi - lo
  {
    if lo < hi {
      HeldIsAll(log, lo + 1, hi);
    }
  }

  lemma {:induction false} PageOfAll(s: Account, cursor: nat, limit: nat, acks: seq<Ack>)
    requires cursor < s.nextSeq && 1 <= limit
    requires forall n | cursor < n < s.nextSeq :: n in s.log
    ensures var n := Min(limit, s.nextSeq - 1 - cursor);
            Page(s, cursor, limit, acks)
            == Response(acks, LogRows(s.log, UpTo(cursor + 1, cursor + 1 + n)), cursor + n, cursor + n < s.nextSeq - 1)
  {
    HeldIsAll(s.log, cursor + 1, s.nextSeq);
    hide Held;
    var n := Min(limit, s.nextSeq - 1 - cursor);
    var unread := UpTo(cursor + 1, s.nextSeq);
    assert (if |unread| <= limit then unread else unread[..limit]) == UpTo(cursor + 1, cursor + 1 + n);
  }

  /** A page read with an accepted cursor misses nothing: it holds exactly the
      next entries of the history, and `has_more` says whether any is left. */
  lemma {:induction false} PageReads(s: Account, h: seq<Entry>, cursor: nat, limit: nat, acks: seq<Ack>)
    requires s.nextSeq == |h| + 1 && LogIsSuffix(s.log, s.minAvail, h)
    requires s.minAvail - 1 <= cursor <= |h| && 1 <= limit
    ensures var page := Page(s, cursor, limit, acks);
            && page.acks == acks
            && page.nextCursor == Min(cursor + limit, |h|)
            && (page.hasMore <==> page.nextCursor < |h|)
            && PageOf(h, cursor, page)
  {
    hide Page, LogRows, UpTo;
    var n := Min(limit, |h| - cursor);
    assert forall n: nat | cursor < n <= |h| :: n in s.log && s.log[n] == h[n - 1];
    hide LogIsSuffix;
    PageOfAll(s, cursor, limit, acks);
    RowsRead(s.log, h, cursor, n);
  }

  lemma {:induction false} RowsRead(log: map<nat, Entry>, h: seq<Entry>, cursor: nat, n: nat)
    requires cursor + n <= |h| && forall n: nat | cursor < n <= |h| :: n in log && log[n] == h[n - 1]
    ensures var rows := LogRows(log, UpTo(cursor + 1, cursor + 1 + n));
            |rows| == n && forall i | 0 <= i < n :: rows[i] == LogRow(cursor + i + 1, h[cursor + i])
  {
    var rows := LogRows(log, UpTo(cursor + 1, cursor + 1 + n));
    forall i | 0 <= i < n ensures rows[i] == LogRow(cursor + i + 1, h[cursor + i]) {
      var seqNo: nat := cursor + 1 + i;
      assert UpTo(cursor + 1, cursor + 1 + n)[i] == seqNo && log[seqNo] == h[seqNo - 1];
    }
  }

  lemma {:induction false} RunIsWellFormed(d: Device, issued: seq<Mutation>, i: nat, ops: seq<Mutation>)
    requires Numbering(d, issued) && RunOf(issued, i, ops)
    ensures Increasing(ops) && DistinctIds(ops)
  {
  }

  lemma {:induction false} ServingGives(r: Rules, w: Site, d: Device, issued: seq<Mutation>)
    requires Serving(r, w, d, issued)
    ensures d in w.account.marks && w.account.marks[d] <= |issued| && Numbering(d, issued)
    ensures SiteInv(r, w) && Tagged(w)
    ensures w.account.nextSeq == |w.history| + 1 && LogIsSuffix(w.account.log, w.account.minAvail, w.history)
  {
  }

  /** How a client's request is served: errors are orderly, and an answer
      tells the truth about every operation sent and the next entries. */
  ghost predicate WellServed(r: Rules, w: Site, after: Site, answer: Result<Response, SyncError>, d: Device,
                             issued: seq<Mutation>, i: nat, ops: seq<Mutation>, cursor: nat, limit: Option<nat>)
  {
    && Serving(r, after, d, issued)
    && d in w.account.marks && d in after.account.marks && w.account.marks[d] <= after.account.marks[d]
    && Remembers(w, after, d)
    && (answer.Err? && |ops| <= MAX_SYNC_OPS && PageLimit(limit).Some? && cursor <= |w.history| ==>
          Orderly(answer.error))
    && (answer.Ok? ==>
          && AcksFit(after, ops, answer.value.acks)
          && i + |ops| <= after.account.marks[d]
          && PageOf(after.history, cursor, answer.value)
          && PageLimit(limit).Some? && FullPage(after.history, cursor, PageLimit(limit).value, answer.value))
  }

  /** The page is as long as the limit allows and says truly whether more
      follows. */
  predicate FullPage(h: seq<Entry>, cursor: nat, limit: nat, answer: Response) {
    && cursor <= |h|
    && answer.nextCursor == Min(cursor + limit, |h|)
    && (answer.hasMore <==> answer.nextCursor < |h|)
  }

  lemma {:induction false} ServeOwn(r: Rules, w: Site, d: Device, issued: seq<Mutation>, i: nat, ops: seq<Mutation>,
                                    cursor: nat, limit: Option<nat>)
    requires d in w.account.marks && Serving(r, w, d, issued) && i <= w.account.marks[d] && RunOf(issued, i, ops)
    ensures var (after, answer) := SiteServe(r, w, d, cursor, ops, limit);
            WellServed(r, w, after, answer, d, issued, i, ops, cursor, limit)
  {
    hide Serving, SiteProcess, Process, SiteInv, Tagged, AcksFit, PageOf, Page, LogIsSuffix, RunOf, Remembers;
    ServingGives(r, w, d, issued);
    RunAccepted(r, w, d, issued, i, ops);
    RunIsWellFormed(d, issued, i, ops);
    var (front, acks) := SiteProcess(r, w, d, ops).value;
    RemembersMeans(w, front, d);
    ServingGives(r, front, d, issued);
    if ServeSync(r, w.account, d, cursor, ops, limit).Ok? {
      RequestKeepsBounds(r, w, d, ops);
      PageReads(front.account, front.history, cursor, PageLimit(limit).value, acks);
    }
  }

  lemma {:induction false} RemembersMeans(w: Site, after: Site, d: Device)
    ensures Remembers(w, w, d)
    ensures Remembers(w, after, d) ==> |w.history| <= |after.history|
  {
  }

  lemma {:induction false} RequestKeepsBounds(r: Rules, w: Site, d: Device, ops: seq<Mutation>)
    requires d in w.account.marks && SiteProcess(r, w, d, ops).Ok?
    ensures SiteProcess(r, w, d, ops).value.0.account.minAvail == w.account.minAvail
  {
    Batches.ProcessOnlyAdds(r, w.account, d, ops);
  }

  // ---------------------------------------------------------------------
  // Each step keeps the invariant
  // ---------------------------------------------------------------------

  /** A client is unaffected by what the server does for others. */
  lemma {:induction false} NodeFollows(r: Rules, w: Site, after: Site, d: Device, n: Node)
    requires NodeInv(r, w, d, n) && Serving(r, after, d, n.issued) && Remembers(w, after, d)
    requires d in w.account.marks && d in after.account.marks && w.account.marks[d] <= after.account.marks[d]
    ensures NodeInv(r, after, d, n)
  {
    TalksFollows(r, w, after, d, n);
    hide Talks, Informed;
    InformedGrows(r, w.history, after.history, n.store, n.issued, n.base, n.since, n.stale);
  }

  lemma {:induction false} TalksFollows(r: Rules, w: Site, after: Site, d: Device, n: Node)
    requires Talks(r, w, d, n) && Serving(r, after, d, n.issued) && Remembers(w, after, d)
    requires d in w.account.marks && d in after.account.marks && w.account.marks[d] <= after.account.marks[d]
    ensures Talks(r, after, d, n)
  {
    hide Serving, OutboxInv;
    OutboxRemembers(w, after, d, n.store.mutations, n.issued, DoneCount(n));
    if n.flight.Some? {
      FlightFollows(r, w, after, d, n);
    }
  }

  lemma {:induction false} FlightFollows(r: Rules, w: Site, after: Site, d: Device, n: Node)
    requires Talks(r, w, d, n) && Remembers(w, after, d) && n.flight.Some?
    requires d in after.account.marks && w.account.marks[d] <= after.account.marks[d]
    ensures FlightInv(after, d, n, n.flight.value)
  {
    var f := n.flight.value;
    if f.answer.Ok? {
      RunIsOwn(r, w, d, n.issued, DoneCount(n), f.sent);
    }
  }

  lemma {:induction false} ServeKeepsSite(r: Rules, w: Site, e: Device, ops: seq<Mutation>, cursor: nat,
                                          limit: Option<nat>)
    requires SiteInv(r, w) && Tagged(w) && AllOf(e, ops)
    ensures var after := SiteServe(r, w, e, cursor, ops, limit).0; SiteInv(r, after) && Tagged(after)
  {
    hide SiteInv, Tagged, AllOf, Process, SiteProcess;
    if ServeSync(r, w.account, e, cursor, ops, limit).Ok? {
      ProcessKeepsTags(r, w, e, ops);
    }
  }

  lemma {:induction false} ServeElsewhere(r: Rules, w: Site, e: Device, ops: seq<Mutation>, cursor: nat,
                                          limit: Option<nat>, d: Device, n: Node)
    requires SiteInv(r, w) && Tagged(w) && AllOf(e, ops) && d != e && NodeInv(r, w, d, n)
    ensures NodeInv(r, SiteServe(r, w, e, cursor, ops, limit).0, d, n)
  {
    ServingGives(r, w, d, n.issued);
    assert Serving(r, w, d, n.issued);
    hide SiteInv, Tagged, AllOf, Process, SiteProcess, NodeInv, Serving, Remembers;
    if ServeSync(r, w.account, e, cursor, ops, limit).Ok? {
      ProcessElsewhere(r, w, e, ops, d, n.issued);
      ProcessKeepsTags(r, w, e, ops);
      NodeFollows(r, w, SiteProcess(r, w, e, ops).value.0, d, n);
    }
  }

  /** What housekeeping may do to an account. */
  ghost predicate Quiet(w: Site, a: Account) {
    && a.table == w.account.table && a.nextSeq == w.account.nextSeq
    && LogIsSuffix(a.log, a.minAvail, w.history)
    && (forall o | o in a.receipts :: o in w.account.receipts && a.receipts[o] == w.account.receipts[o])
    && (forall d | d in w.account.marks :: d in a.marks && a.marks[d] == w.account.marks[d])
  }

  lemma {:induction false} QuietKeepsSite(r: Rules, w: Site, a: Account)
    requires SiteInv(r, w) && Tagged(w) && Quiet(w, a)
    ensures SiteInv(r, w.(account := a)) && Tagged(w.(account := a))
  {
  }

  lemma {:induction false} QuietKeepsNode(r: Rules, w: Site, a: Account, d: Device, n: Node)
    requires NodeInv(r, w, d, n) && Quiet(w, a)
    ensures NodeInv(r, w.(account := a), d, n)
  {
    ServingGives(r, w, d, n.issued);
    QuietKeepsSite(r, w, a);
    QuietKeepsServing(r, w, a, d, n.issued);
    hide SiteInv, Tagged, Serving, Informed, OutboxInv;
    OutboxRemembers(w, w.(account := a), d, n.store.mutations, n.issued, DoneCount(n));
  }

  lemma {:induction false} QuietKeepsServing(r: Rules, w: Site, a: Account, d: Device, issued: seq<Mutation>)
    requires Serving(r, w, d, issued) && Quiet(w, a)
    ensures Serving(r, w.(account := a), d, issued)
  {
    QuietKeepsSite(r, w, a);
    hide SiteInv, Tagged;
    assert forall o :: LogPlace(w.(account := a), o) == LogPlace(w, o);
  }

  lemma {:induction false} TidiedIsQuiet(r: Rules, w: World, step: Step)
    requires SiteInv(r, w.site) && Enabled(r, w, step) && Housekeeping(step)
    ensures Quiet(w.site, Tidied(w.site.account, step))
  {
    hide TableIsRedo, EverValid;
  }

  lemma {:induction false} HousekeepingKeeps(r: Rules, w: World, step: Step)
    requires Inv(r, w) && Enabled(r, w, step) && Housekeeping(step)
    ensures Inv(r, After(r, w, step))
  {
    hide Quiet, NodeInv, SiteInv, Tagged, Tidied, Enabled;
    TidiedIsQuiet(r, w, step);
    QuietKeepsInv(r, w, Tidied(w.site.account, step));
  }

  lemma {:induction false} QuietKeepsInv(r: Rules, w: World, a: Account)
    requires Inv(r, w) && Quiet(w.site, a)
    ensures Inv(r, w.(site := w.site.(account := a)))
  {
    hide Quiet, NodeInv, SiteInv, Tagged;
    QuietKeepsSite(r, w.site, a);
    forall d | d in w.nodes ensures NodeInv(r, w.site.(account := a), d, w.nodes[d]) {
      QuietKeepsNode(r, w.site, a, d, w.nodes[d]);
    }
  }

  // --- the client's own steps ---

  lemma {:induction false} MoreIssued(r: Rules, w: Site, d: Device, issued: seq<Mutation>, op: Mutation)
    requires Serving(r, w, d, issued)
    requires op.opId == OpId(d, |issued| + 1) && op.clientSeq == |issued| + 1
    ensures Serving(r, w, d, issued + [op])
  {
    hide SiteInv, Tagged;
  }

  lemma {:induction false} EditKeeps(r: Rules, w: Site, d: Device, n: Node, change: Change, row: Data)
    requires NodeInv(r, w, d, n)
    ensures NodeInv(r, w, d, n.(store := Edited(n.store, d, change, row),
                                issued := n.issued + [NextOp(n.store, d, change)]))
  {
    hide Serving, Informed, OutboxInv, AcksFit, PageOf, PendingOps;
    MoreIssued(r, w, d, n.issued, NextOp(n.store, d, change));
    InformedAfterEdit(r, w.history, n.store, n.issued, n.base, n.since, n.stale, d, change, row);
    OutboxGrows(w, d, n.store.mutations, n.issued, DoneCount(n), NextOp(n.store, d, change));
    PendingAppend(n.store.mutations, Stored(NextOp(n.store, d, change), Pending));
  }

  lemma {:induction false} ClearKeeps(r: Rules, w: Site, d: Device, n: Node)
    requires NodeInv(r, w, d, n)
    ensures NodeInv(r, w, d, AfterClear(n))
  {
    var ids := RefusedIds(n.store.mutations);
    hide Serving, Informed, OutboxInv, AcksFit, PageOf, PendingOps, WithoutRefused, RefusedKeys, RunOf;
    InformedAfterDiscard(r, w.history, n.store, n.issued, n.base, n.since, n.stale, ids);
    OutboxDiscards(w, d, n.store.mutations, n.issued, DoneCount(n), ids);
    DiscardingKeepsPending(n.store.mutations, ids);
  }

  lemma {:induction false} RebaseKeeps(r: Rules, w: Site, d: Device, n: Node, cursor: nat, readAt: map<Key, nat>)
    requires Talks(r, w, d, n) && n.flight.None? && Readable(r, w.history, cursor, readAt)
    ensures NodeInv(r, w, d, n.(store := Rebased(n.store, Snapshot(r, w.history, readAt), cursor),
                                base := cursor, since := Settled(n), stale := {}))
  {
    hide Serving, Informed, PendingOps, SiteInv, Tagged, EverValid, Redo;
    ServingGives(r, w, d, n.issued);
    SiteIsValid(r, w);
    InformedAfterRebase(r, w.history, n.store, n.issued, DoneCount(n), cursor, readAt);
    hide Readable, Snapshot;
  }

  lemma {:induction false} FlightGives(r: Rules, w: Site, d: Device, n: Node)
    requires Talks(r, w, d, n) && n.flight.Some? && n.flight.value.answer.Ok?
    ensures var f := n.flight.value;
            && f.cursor == n.store.cursor && n.store.cursor <= f.answer.value.nextCursor <= |w.history|
            && RowChanges(f.answer.value.changes) == Changes(w.history[n.store.cursor..f.answer.value.nextCursor])
  {
    hide Serving, Informed, OutboxInv, AcksFit;
    PageEnds(w.history, n.flight.value.cursor, n.flight.value.answer.value);
    PageIsSlice(w.history, n.flight.value.cursor, n.flight.value.answer.value);
  }

  lemma {:induction false} DeliverTalks(r: Rules, w: Site, d: Device, n: Node)
    requires Talks(r, w, d, n) && n.flight.Some?
    ensures Talks(r, w, d, Delivered(n, n.flight.value))
  {
    hide Serving, OutboxInv, AcksFit, PageOf, PendingOps, SettleAll, ShadowAfter, AckedKeys, ChangedKeys, Reprojected,
      RowChanges, Changes, RunOf;
    if n.flight.value.answer.Ok? {
      FlightGives(r, w, d, n);
      AnswerSettles(r, w, d, n);
    }
  }

  lemma {:induction false} DeliverKeeps(r: Rules, w: Site, d: Device, n: Node)
    requires NodeInv(r, w, d, n) && n.flight.Some?
    ensures NodeInv(r, w, d, Delivered(n, n.flight.value))
  {
    hide Informed, PendingOps, SettleAll, ShadowAfter, AckedKeys, ChangedKeys, Reprojected, RowChanges, Changes, Talks;
    DeliverTalks(r, w, d, n);
    if n.flight.value.answer.Ok? {
      var answer := n.flight.value.answer.value;
      FlightGives(r, w, d, n);
      AnswerSettles(r, w, d, n);
      InformedAfterAnswer(r, w.history, n.store, n.issued, n.base, n.since, n.stale, answer.acks, answer.changes,
                          answer.nextCursor);
    }
  }

  lemma {:induction false} PageEnds(h: seq<Entry>, cursor: nat, answer: Response)
    requires PageOf(h, cursor, answer)
    ensures cursor <= answer.nextCursor <= |h|
  {
  }

  lemma {:induction false} PageIsSlice(h: seq<Entry>, cursor: nat, answer: Response)
    requires PageOf(h, cursor, answer)
    ensures RowChanges(answer.changes) == Changes(h[cursor..answer.nextCursor])
  {
  }

  lemma {:induction false} SentIsRun(w: Site, d: Device, n: Node)
    requires OutboxOf(w, d, n) && n.flight.Some? && n.flight.value.answer.Ok?
    ensures var acks, done := n.flight.value.answer.value.acks, DoneCount(n);
            && 0 <= done && |acks| == |n.flight.value.sent| <= |n.issued| - done
            && AcksFit(w, n.issued[done..done + |acks|], acks)
            && OutboxInv(w, d, n.store.mutations, n.issued, done)
  {
    hide OutboxInv, PendingOps;
    var acks, done := n.flight.value.answer.value.acks, DoneCount(n);
    assert n.issued[done..done + |acks|] == n.flight.value.sent;
  }

  lemma {:induction false} AnswerSettles(r: Rules, w: Site, d: Device, n: Node)
    requires Talks(r, w, d, n) && n.flight.Some? && n.flight.value.answer.Ok?
    ensures var acks, ops := n.flight.value.answer.value.acks, PendingOps(n.store.mutations);
            && |acks| == |n.flight.value.sent| <= |ops|
            && (forall i | 0 <= i < |acks| :: acks[i].opId == ops[i].opId)
            && PendingOps(SettleAll(n.store.mutations, acks)) == ops[|acks|..]
            && OutboxInv(w, d, SettleAll(n.store.mutations, acks), n.issued, DoneCount(n) + |acks|)
  {
    hide Serving, Informed, PendingOps, SettleAll, SiteInv, Tagged, PageOf, OutboxOf, OutboxInv, Numbering, LogIsSuffix,
      AcksFit;
    ServingGives(r, w, d, n.issued);
    SentIsRun(w, d, n);
    Settling(w, d, n.store.mutations, n.issued, DoneCount(n), n.flight.value.answer.value.acks);
  }

  lemma {:induction false} Settling(w: Site, d: Device, ms: seq<Stored>, issued: seq<Mutation>, done: nat,
                                    acks: seq<Ack>)
    requires OutboxInv(w, d, ms, issued, done) && Numbering(d, issued)
    requires done + |acks| <= |issued| && AcksFit(w, issued[done..done + |acks|], acks)
    ensures OutboxInv(w, d, SettleAll(ms, acks), issued, done + |acks|)
    ensures |acks| <= |PendingOps(ms)| && forall i | 0 <= i < |acks| :: acks[i].opId == PendingOps(ms)[i].opId
    ensures PendingOps(SettleAll(ms, acks)) == PendingOps(ms)[|acks|..]
  {
    OutboxSettles(w, d, ms, issued, done, acks);
    hide PendingOps, SettleAll, Numbering;
    assert issued[done..][|acks|..] == issued[done + |acks|..];
    forall i | 0 <= i < |acks| ensures acks[i].opId == PendingOps(ms)[i].opId {
      assert issued[done..done + |acks|][i] == issued[done..][i];
    }
  }

  // --- requests ---

  lemma {:induction false} PrefixIsRun(w: Site, d: Device, ms: seq<Stored>, issued: seq<Mutation>, done: nat,
                                       count: nat)
    requires OutboxInv(w, d, ms, issued, done) && count <= |PendingOps(ms)|
    ensures RunOf(issued, done, PendingOps(ms)[..count])
  {
  }

  lemma {:induction false} RequestTalks(r: Rules, w: Site, d: Device, n: Node, count: nat, limit: Option<nat>)
    requires Talks(r, w, d, n) && n.flight.None? && PageLimit(limit).Some?
    requires count <= Min(MAX_SYNC_OPS, |PendingOps(n.store.mutations)|)
    ensures var sent := PendingOps(n.store.mutations)[..count];
            var (after, answer) := SiteServe(r, w, d, n.store.cursor, sent, limit);
            && Talks(r, after, d, n.(flight := Some(Flight(n.store.cursor, sent, answer))))
            && w.history <= after.history
  {
    hide Serving, OutboxInv, AcksFit, PageOf, PendingOps, SiteInv, Tagged, RunOf, SiteServe;
    ServingGives(r, w, d, n.issued);
    var done: nat, sent := DoneCount(n), PendingOps(n.store.mutations)[..count];
    PrefixIsRun(w, d, n.store.mutations, n.issued, done, count);
    ServeOwn(r, w, d, n.issued, done, sent, n.store.cursor, limit);
    var (after, answer) := SiteServe(r, w, d, n.store.cursor, sent, limit);
    assert Remembers(w, after, d) && w.history <= after.history;
    hide Remembers;
    TalksFollows(r, w, after, d, n);
    assert |sent| <= MAX_SYNC_OPS;
  }

  lemma {:induction false} RequestKeeps(r: Rules, w: Site, d: Device, n: Node, count: nat, limit: Option<nat>)
    requires NodeInv(r, w, d, n) && n.flight.None? && PageLimit(limit).Some?
    requires count <= Min(MAX_SYNC_OPS, |PendingOps(n.store.mutations)|)
    ensures var sent := PendingOps(n.store.mutations)[..count];
            var (after, answer) := SiteServe(r, w, d, n.store.cursor, sent, limit);
            NodeInv(r, after, d, n.(flight := Some(Flight(n.store.cursor, sent, answer))))
  {
    hide Talks, Informed, PendingOps, SiteServe;
    RequestTalks(r, w, d, n, count, limit);
    var after := SiteServe(r, w, d, n.store.cursor, PendingOps(n.store.mutations)[..count], limit).0;
    InformedGrows(r, w.history, after.history, n.store, n.issued, n.base, n.since, n.stale);
  }

  lemma {:induction false} ServeLateKeeps(r: Rules, w: Site, d: Device, n: Node, i: nat, ops: seq<Mutation>,
                                          cursor: nat,
                                          limit: Option<nat>)
    requires NodeInv(r, w, d, n) && d in w.account.marks && i <= w.account.marks[d] && RunOf(n.issued, i, ops)
    ensures NodeInv(r, SiteServe(r, w, d, cursor, ops, limit).0, d, n)
  {
    hide Serving, Informed, OutboxInv, AcksFit, PageOf, PendingOps, SiteInv, Tagged, RunOf, SiteServe, Remembers;
    ServeOwn(r, w, d, n.issued, i, ops, cursor, limit);
    NodeFollows(r, w, SiteServe(r, w, d, cursor, ops, limit).0, d, n);
  }

  // --- first login ---

  lemma {:induction false} FreshDevice(r: Rules, w: Site, d: Device, issued: seq<Mutation>)
    requires SiteInv(r, w) && Tagged(w) && Numbering(d, issued) && d in w.account.marks && w.account.marks[d] == 0
    ensures Serving(r, w, d, issued)
  {
    hide SiteInv;
    assert forall o | o in w.outcomes :: o.device != d;
  }

  /** A node with everything it issued still pending. */
  lemma {:induction false} NothingDone(w: Site, d: Device, n: Node)
    requires d in w.account.marks && w.account.marks[d] == 0
    requires n.flight.None? && n.store.clientSeq == |n.issued| && PendingOps(n.store.mutations) == n.issued
    requires forall m | m in n.store.mutations :: m.status.Pending?
    ensures OutboxOf(w, d, n)
  {
    hide PendingOps;
    assert n.issued[0..] == n.issued;
  }

  lemma {:induction false} AllPending(d: Device, ops: seq<Change>)
    ensures forall m | m in Numbered(d, ops) :: m.status.Pending?
    ensures |AsOperations(d, ops)| == |ops| && Numbering(d, AsOperations(d, ops))
  {
  }

  lemma {:induction false} ConnectedOutbox(w: Site, d: Device, cloud: map<Key, Stamped>, cursor: nat, mode: Mode,
                                           locals: seq<LocalRow>)
    requires d in w.account.marks && w.account.marks[d] == 0
    ensures var n := Connected(d, cloud, cursor, mode, locals); OutboxOf(w, d, n) && Numbering(d, n.issued)
    ensures Connected(d, cloud, cursor, mode, locals).store.cursor == cursor
  {
    hide MergedOps, MergedRows, Ordered, PendingOps, Visible, CloudData, LeftUnlike, OutboxOf, Numbering, Numbered,
      AsOperations;
    var n := Connected(d, cloud, cursor, mode, locals);
    if mode == Combine {
      var ops := Ordered(MergedOps(cloud, locals));
      NumberedPending(d, ops);
      AllPending(d, ops);
    } else {
      NothingPending(d);
    }
    NothingDone(w, d, n);
  }

  lemma {:induction false} NothingPending(d: Device)
    ensures PendingOps([]) == [] && Numbering(d, [])
  {
  }

  /** What a first login downloads. */
  lemma {:induction false} Downloaded(r: Rules, h: seq<Entry>, cursor: nat, readAt: map<Key, nat>, cloud: map<Key,
                                      Stamped>)
    requires EverValid(r, h) && Readable(r, h, cursor, readAt) && CloudData(cloud) == Snapshot(r, h, readAt)
    ensures Caught(r, CloudData(cloud), cursor, cursor, h)
    ensures forall k | k in cloud :: Materialize(k.entity, cloud[k].data) == cloud[k].data
  {
    hide Caught, Redo, Materialize, EverValid, Snapshot;
    CaughtBySnapshot(r, h, cursor, readAt);
    SnapshotMaterialized(r, h, cursor, readAt);
  }

  lemma {:induction false} ConnectedNode(r: Rules, h: seq<Entry>, d: Device, cloud: map<Key, Stamped>, cursor: nat,
                                         mode: Mode,
                                         locals: seq<LocalRow>)
    requires DistinctKeys(locals) && Caught(r, CloudData(cloud), cursor, cursor, h)
    requires forall k | k in cloud :: Materialize(k.entity, cloud[k].data) == cloud[k].data
    ensures var n := Connected(d, cloud, cursor, mode, locals);
            Informed(r, h, n.store, n.issued, n.base, n.since, n.stale)
  {
    hide Informed, Materialize, MergedOps, MergedRows, Ordered, LeftUnlike, Visible, CloudData, Numbered, AsOperations,
      DistinctKeys, Caught, Initialized;
    InformedAfterLogin(r, h, d, cloud, cursor, mode, locals, Connected(d, cloud, cursor, mode, locals).issued);
  }

  lemma {:induction false} SiteIsValid(r: Rules, w: Site)
    requires SiteInv(r, w)
    ensures EverValid(r, w.history)
  {
  }

  lemma {:induction false} ConnectKeeps(r: Rules, w: Site, d: Device, mode: Mode, cursor: nat, readAt: map<Key, nat>,
                                        cloud: map<Key, Stamped>, locals: seq<LocalRow>)
    requires SiteInv(r, w) && Tagged(w) && d in w.account.marks && w.account.marks[d] == 0
    requires Readable(r, w.history, cursor, readAt) && CloudData(cloud) == Snapshot(r, w.history, readAt)
    requires DistinctKeys(locals)
    ensures NodeInv(r, w, d, Connected(d, cloud, cursor, mode, locals))
  {
    hide SiteInv, Tagged, DistinctKeys, Redo, Snapshot, CloudData, Connected, Serving, OutboxOf, Caught, Informed,
      EverValid, Numbering, Materialize;
    SiteIsValid(r, w);
    Downloaded(r, w.history, cursor, readAt, cloud);
    ConnectedNode(r, w.history, d, cloud, cursor, mode, locals);
    ConnectedOutbox(w, d, cloud, cursor, mode, locals);
    FreshDevice(r, w, d, Connected(d, cloud, cursor, mode, locals).issued);
  }

  // --- any step ---

  lemma {:induction false} OperationsAreOwn(r: Rules, w: World, step: Step)
    requires Inv(r, w) && Enabled(r, w, step) && Serves(step)
    ensures AllOf(step.device, Operations(r, w, step))
    ensures step.Request? ==> step.device in w.nodes
  {
    hide SiteInv, Tagged, PendingOps, Informed, Serving, PageLimit;
    var d := step.device;
    if step.Request? {
      var n := w.nodes[d];
      var done: nat := DoneCount(n);
      PrefixIsRun(w.site, d, n.store.mutations, n.issued, done, step.count);
      RunIsOwn(r, w.site, d, n.issued, done, Operations(r, w, step));
    } else if step.ServeLate? {
      var i: nat :| SentBefore(w, d, i, step.ops);
      RunIsOwn(r, w.site, d, w.nodes[d].issued, i, step.ops);
    }
  }

  /** What every node but `d`'s keeps when the server serves `d`. */
  ghost predicate OthersKeep(r: Rules, w: World, d: Device, after: Site) {
    forall e | e in w.nodes && e != d :: NodeInv(r, after, e, w.nodes[e])
  }

  lemma {:induction false} ServingKeepsOthers(r: Rules, w: World, d: Device, ops: seq<Mutation>, cursor: nat,
                                              limit: Option<nat>)
    requires Inv(r, w) && AllOf(d, ops)
    ensures var after := SiteServe(r, w.site, d, cursor, ops, limit).0;
            SiteInv(r, after) && Tagged(after) && OthersKeep(r, w, d, after)
  {
    hide SiteInv, Tagged, NodeInv, SiteServe, AllOf;
    ServeKeepsSite(r, w.site, d, ops, cursor, limit);
    forall e | e in w.nodes && e != d
      ensures NodeInv(r, SiteServe(r, w.site, d, cursor, ops, limit).0, e, w.nodes[e])
    {
      ServeElsewhere(r, w.site, d, ops, cursor, limit, e, w.nodes[e]);
    }
  }

  lemma {:induction false} OwnNodeKept(r: Rules, w: World, step: Step)
    requires Inv(r, w) && Enabled(r, w, step) && Serves(step) && step.device in w.nodes
    ensures NodeInv(r, After(r, w, step).site, step.device, After(r, w, step).nodes[step.device])
  {
    hide SiteInv, Tagged, NodeInv, RunOf, SiteServe, AllOf, PendingOps, PageLimit;
    var d := step.device;
    if step.Request? {
      RequestKeeps(r, w.site, d, w.nodes[d], step.count, step.limit);
    } else {
      var i: nat :| SentBefore(w, d, i, step.ops);
      ServeLateKeeps(r, w.site, d, w.nodes[d], i, step.ops, step.cursor, step.limit);
    }
  }

  lemma {:induction false} ServingStepKeeps(r: Rules, w: World, step: Step)
    requires Inv(r, w) && Enabled(r, w, step) && Serves(step)
    ensures Inv(r, After(r, w, step))
  {
    hide Inv, SiteInv, Tagged, NodeInv, SiteServe, AllOf, Operations, Cursor, Enabled;
    OperationsAreOwn(r, w, step);
    ServingKeepsOthers(r, w, step.device, Operations(r, w, step), Cursor(r, w, step), step.limit);
    if step.device in w.nodes {
      OwnNodeKept(r, w, step);
    }
    NodesMakeInv(r, w, step.device, After(r, w, step));
  }

  lemma {:induction false} NodesMakeInv(r: Rules, w: World, d: Device, after: World)
    requires SiteInv(r, after.site) && Tagged(after.site) && OthersKeep(r, w, d, after.site)
    requires after.nodes.Keys == w.nodes.Keys && forall e | e in w.nodes && e != d :: after.nodes[e] == w.nodes[e]
    requires d in w.nodes ==> NodeInv(r, after.site, d, after.nodes[d])
    ensures Inv(r, after)
  {
    hide SiteInv, Tagged, NodeInv;
  }

  lemma {:induction false} NodeTalks(r: Rules, w: Site, d: Device, n: Node)
    requires NodeInv(r, w, d, n)
    ensures Talks(r, w, d, n) && Informed(r, w.history, n.store, n.issued, n.base, n.since, n.stale)
  {
  }

  lemma {:induction false} LoseKeeps(r: Rules, w: Site, d: Device, n: Node)
    requires NodeInv(r, w, d, n)
    ensures NodeInv(r, w, d, n.(flight := None))
  {
    hide Serving, Informed, OutboxInv;
  }

  lemma {:induction false} ClientStepKeeps(r: Rules, w: World, step: Step)
    requires Inv(r, w) && Enabled(r, w, step) && AtClient(step)
    ensures NodeInv(r, w.site, step.device, NodeAfter(r, w, step))
  {
    hide SiteInv, Tagged, NodeInv, Readable, Snapshot, Connected, Edited, Rebased, Cleared, Delivered;
    match step
    case Connect(d, mode, cursor, readAt, cloud, locals) =>
      ConnectKeeps(r, w.site, d, mode, cursor, readAt, cloud, locals);
    case Edit(d, change, row) => EditKeeps(r, w.site, d, w.nodes[d], change, row);
    case Deliver(d) => DeliverKeeps(r, w.site, d, w.nodes[d]);
    case Lose(d) => LoseKeeps(r, w.site, d, w.nodes[d]);
    case Rebase(d, cursor, readAt) =>
      NodeTalks(r, w.site, d, w.nodes[d]);
      RebaseKeeps(r, w.site, d, w.nodes[d], cursor, readAt);
    case Clear(d) => ClearKeeps(r, w.site, d, w.nodes[d]);
  }

  /** Every step keeps the invariant. */
  lemma {:induction false} StepKeeps(r: Rules, w: World, step: Step)
    requires Inv(r, w) && Enabled(r, w, step)
    ensures Inv(r, After(r, w, step))
  {
    hide NodeInv, SiteInv, Tagged, NodeAfter, Enabled;
    if Housekeeping(step) {
      HousekeepingKeeps(r, w, step);
    } else if Serves(step) {
      ServingStepKeeps(r, w, step);
    } else {
      ClientStepKeeps(r, w, step);
    }
  }

  // ---------------------------------------------------------------------
  // Runs
  // ---------------------------------------------------------------------

  /** `ws` are the worlds a run of these steps goes through. */
  ghost predicate IsRun(r: Rules, steps: seq<Step>, ws: seq<World>) {
    && |ws| == |steps| + 1
    && ws[0] == Start()
    && forall i | 0 <= i < |steps| :: Enabled(r, ws[i], steps[i]) && ws[i + 1] == After(r, ws[i], steps[i])
  }

  ghost predicate Reachable(r: Rules, w: World) {
    exists steps, ws :: IsRun(r, steps, ws) && ws[|ws| - 1] == w
  }

  lemma {:induction false} RunKeeps(r: Rules, steps: seq<Step>, ws: seq<World>, i: nat)
    requires IsRun(r, steps, ws) && i < |ws|
    ensures Inv(r, ws[i])
  {
    hide After, Enabled;
    if i == 0 {
      StartHolds(r);
    } else {
      RunKeeps(r, steps, ws, i - 1);
      hide Inv;
      assert Enabled(r, ws[i - 1], steps[i - 1]) && ws[i - 1 + 1] == After(r, ws[i - 1], steps[i - 1]);
      StepKeeps(r, ws[i - 1], steps[i - 1]);
    }
  }

  lemma {:induction false} StartHolds(r: Rules)
    ensures Inv(r, Start())
  {
  }

  lemma {:induction false} Invariant(r: Rules, w: World)
    requires Reachable(r, w)
    ensures Inv(r, w)
  {
    hide Inv;
    var steps, ws :| IsRun(r, steps, ws) && ws[|ws| - 1] == w;
    RunKeeps(r, steps, ws, |ws| - 1);
  }

  /** One more step of a run. */
  lemma {:induction false} Continues(r: Rules, w: World, step: Step)
    requires Reachable(r, w) && Enabled(r, w, step)
    ensures Reachable(r, After(r, w, step))
  {
    hide After, Enabled;
    var steps, ws :| IsRun(r, steps, ws) && ws[|ws| - 1] == w;
    assert IsRun(r, steps + [step], ws + [After(r, w, step)]);
  }

  lemma {:induction false} StartIsReachable(r: Rules)
    ensures Reachable(r, Start())
  {
    assert IsRun(r, [], [Start()]);
  }
}
