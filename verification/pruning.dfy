/** Retention of the change log: `prune_change_log` of apps/api/src/ops.rs. */
module Pruning {
  import opened Orders
  import opened Prelude
  import opened Merge

  /** The primary key of a change_log row. */
  datatype LogKey = LogKey(user: string, seqNo: nat)

  /** `created_at` of the log rows, and the two columns of account_sync_state. */
  datatype Tables = Tables(created: map<LogKey, int>, minAvailable: map<string, nat>, nextSeq: map<string, nat>)

  // ---------------------------------------------------------------------
  // One batch
  // ---------------------------------------------------------------------

  function Doomed(created: map<LogKey, int>, cutoff: int): set<LogKey> {
    set k | k in created && created[k] < cutoff
  }

  /** ORDER BY created_at, user_id, server_seq. */
  predicate Earlier(created: map<LogKey, int>, a: LogKey, b: LogKey) {
    var x, y := At(created, a), At(created, b);
    x < y || (x == y && (Greater(b.user, a.user) || (a.user == b.user && a.seqNo < b.seqNo)))
  }

  function At(created: map<LogKey, int>, k: LogKey): int {
    if k in created then created[k] else 0
  }

  /** What the INSERT of one batch selects when no row is locked. */
  ghost predicate IsBatch(created: map<LogKey, int>, cutoff: int, n: nat, batch: set<LogKey>) {
    && batch <= Doomed(created, cutoff)
    && |batch| == Min(n, |Doomed(created, cutoff)|)
    && forall x, y | x in batch && y in Doomed(created, cutoff) && y !in batch :: Earlier(created, x, y)
  }

  function Without(created: map<LogKey, int>, batch: set<LogKey>): map<LogKey, int> {
    created - batch
  }

  function SeqsOf(created: map<LogKey, int>, user: string): (ns: set<nat>)
    ensures forall n: nat :: n in ns <==> LogKey(user, n) in created
  {
    set k | k in created && k.user == user :: k.seqNo
  }

  predicate Below(a: nat, b: nat) {
    a < b
  }

  /** COALESCE(MIN(server_seq), next_server_seq). */
  function Smallest(created: map<LogKey, int>, user: string, next: nat): (m: nat)
    ensures SeqsOf(created, user) == {} ==> m == next
    ensures SeqsOf(created, user) != {} ==> LogKey(user, m) in created
    ensures forall n: nat | LogKey(user, n) in created :: m <= n
  {
    var ns := SeqsOf(created, user);
    if ns == {} then next
    else
      LeastExists(Below, ns);
      var m :| IsLeast(Below, ns, m);
      m
  }

  function RaisedFor(t: Tables, users: set<string>, u: string): nat
    requires u in t.minAvailable
  {
    if u in users && u in t.nextSeq then Max(t.minAvailable[u], Smallest(t.created, u, t.nextSeq[u]))
    else t.minAvailable[u]
  }

  /** The UPDATE of account_sync_state for the users of a batch. */
  function Raised(t: Tables, users: set<string>): map<string, nat> {
    map u | u in t.minAvailable :: RaisedFor(t, users, u)
  }

  function UsersOf(batch: set<LogKey>): set<string> {
    set k | k in batch :: k.user
  }

  function AfterBatch(t: Tables, batch: set<LogKey>): Tables {
    var left := t.(created := Without(t.created, batch));
    left.(minAvailable := Raised(left, UsersOf(batch)))
  }

  // ---------------------------------------------------------------------
  // Gaps
  // ---------------------------------------------------------------------

  ghost predicate Known(t: Tables, u: string) {
    u in t.minAvailable && u in t.nextSeq
  }

  /** The log of `u` is exactly [min_available_seq, next_server_seq). */
  ghost predicate GaplessFor(t: Tables, u: string)
    requires Known(t, u)
  {
    && 1 <= t.nextSeq[u] && t.minAvailable[u] <= t.nextSeq[u]
    && forall n: nat :: LogKey(u, n) in t.created <==> Max(1, t.minAvailable[u]) <= n < t.nextSeq[u]
  }

  ghost predicate Gapless(t: Tables) {
    && t.minAvailable.Keys == t.nextSeq.Keys
    && (forall u | Known(t, u) :: GaplessFor(t, u))
    && forall k | k in t.created :: Known(t, k.user)
  }

  /** Every number in the log was given out. */
  ghost predicate BelowNext(t: Tables) {
    forall k | k in t.created && k.user in t.nextSeq :: k.seqNo < t.nextSeq[k.user]
  }

  /** `created_at` never decreases along the log of an account. */
  ghost predicate InOrderFor(t: Tables, u: string) {
    forall i: nat, j: nat | i < j && LogKey(u, i) in t.created && LogKey(u, j) in t.created ::
      t.created[LogKey(u, i)] <= t.created[LogKey(u, j)]
  }

  ghost predicate InOrder(t: Tables) {
    forall u | Known(t, u) :: InOrderFor(t, u)
  }

  /** What an account sees of a batch: its log loses everything below some
      number, and that number becomes the smallest readable one. */
  ghost predicate PrunedBelow(t: Tables, after: Tables, u: string, below: nat)
    requires Known(t, u) && Known(after, u)
  {
    && below <= t.nextSeq[u]
    && after.nextSeq[u] == t.nextSeq[u]
    && after.minAvailable[u] == Max(t.minAvailable[u], below)
    && forall n: nat :: LogKey(u, n) in after.created <==> LogKey(u, n) in t.created && below <= n
  }

  lemma {:induction false} BatchIsPrefix(t: Tables, cutoff: int, n: nat, batch: set<LogKey>, u: string, i: nat, j: nat)
    requires Gapless(t) && InOrder(t) && IsBatch(t.created, cutoff, n, batch)
    requires LogKey(u, j) in batch && i < j && LogKey(u, i) in t.created
    ensures LogKey(u, i) in batch
  {
    assert Known(t, u) && InOrderFor(t, u);
    assert t.created[LogKey(u, i)] <= t.created[LogKey(u, j)];
    GreaterIsTotal(u, u);
  }

  lemma {:induction false} BatchPrunesOne(t: Tables, cutoff: int, n: nat, batch: set<LogKey>,
                                          u: string) returns (below: nat)
    requires Gapless(t) && InOrder(t) && IsBatch(t.created, cutoff, n, batch) && Known(t, u)
    ensures Known(AfterBatch(t, batch), u) && PrunedBelow(t, AfterBatch(t, batch), u, below)
  {
    var after := AfterBatch(t, batch);
    forall i: nat, j: nat | LogKey(u, j) in batch && i < j && LogKey(u, i) in t.created
      ensures LogKey(u, i) in batch
    {
      BatchIsPrefix(t, cutoff, n, batch, u, i, j);
    }
    hide IsBatch, InOrder;
    assert GaplessFor(t, u);
    if u in UsersOf(batch) {
      var k :| k in batch && k.user == u;
      assert k == LogKey(u, k.seqNo);
      below := Smallest(after.created, u, t.nextSeq[u]);
      assert k.seqNo < below;
    } else {
      below := 0;
      assert forall i: nat :: LogKey(u, i) !in batch;
    }
  }

  /** Pruning never opens a gap: a batch takes a prefix of every account's log,
      and the smallest readable number moves up with it. */
  lemma {:induction false} BatchKeepsGapless(t: Tables, cutoff: int, n: nat, batch: set<LogKey>)
    requires Gapless(t) && InOrder(t) && IsBatch(t.created, cutoff, n, batch)
    ensures Gapless(AfterBatch(t, batch)) && InOrder(AfterBatch(t, batch))
  {
    var after := AfterBatch(t, batch);
    forall u | Known(after, u) ensures GaplessFor(after, u) && InOrderFor(after, u) {
      var below := BatchPrunesOne(t, cutoff, n, batch, u);
      assert GaplessFor(t, u) && InOrderFor(t, u);
    }
  }

  /** Whatever the creation times, `min_available_seq` never decreases. */
  lemma {:induction false} MinNeverDecreases(t: Tables, batch: set<LogKey>, u: string)
    requires u in t.minAvailable
    ensures u in AfterBatch(t, batch).minAvailable && t.minAvailable[u] <= AfterBatch(t, batch).minAvailable[u]
  {
  }

  // ---------------------------------------------------------------------
  // The loop
  // ---------------------------------------------------------------------

  lemma {:induction false} EarlierOrders(created: map<LogKey, int>)
    ensures StrictTotal((a, b) => Earlier(created, a, b))
  {
    var less := (a, b) => Earlier(created, a, b);
    forall a, b ensures a == b || less(a, b) || less(b, a)
      ensures less(a, b) ==> !less(b, a)
    {
      GreaterIsTotal(a.user, b.user);
    }
    forall a, b, c | less(a, b) && less(b, c) ensures less(a, c) {
      GreaterIsTotal(a.user, b.user);
      if Greater(c.user, b.user) && Greater(b.user, a.user) {
        GreaterIsTransitive(c.user, b.user, a.user);
      }
    }
  }

  ghost predicate AllEarlier(created: map<LogKey, int>, a: set<LogKey>, b: set<LogKey>) {
    forall x, y | x in a && y in b :: Earlier(created, x, y)
  }

  lemma {:induction false} TakeLeast(created: map<LogKey, int>, batch: set<LogKey>, left: set<LogKey>, k: LogKey)
    requires AllEarlier(created, batch, left) && k in left && IsLeast((a, b) => Earlier(created, a, b), left, k)
    ensures AllEarlier(created, batch + {k}, left - {k})
  {
    hide Earlier;
    var less := (a, b) => Earlier(created, a, b);
    forall y | y in left && y != k ensures Earlier(created, k, y) {
      assert less(k, y);
    }
  }

  /** INSERT ... SELECT ... ORDER BY ... LIMIT n. */
  method SelectBatch(created: map<LogKey, int>, cutoff: int, n: nat) returns (batch: set<LogKey>)
    ensures IsBatch(created, cutoff, n, batch)
  {
    var doomed := Doomed(created, cutoff);
    var left := doomed;
    batch := {};
    EarlierOrders(created);
    while |batch| < n && left != {}
      invariant batch !! left && batch + left == doomed && |batch| <= n
      invariant AllEarlier(created, batch, left)
      decreases |left|
    {
      hide Earlier, AllEarlier;
      var less := (a, b) => Earlier(created, a, b);
      LeastExists(less, left);
      var k :| k in left && IsLeast(less, left, k);
      TakeLeast(created, batch, left, k);
      batch, left := batch + {k}, left - {k};
    }
    assert |batch + left| == |batch| + |left|;
  }

  class Retention {
    var created: map<LogKey, int>
    var minAvailable: map<string, nat>
    var nextSeq: map<string, nat>

    constructor (t: Tables)
      ensures State() == t
    {
      created, minAvailable, nextSeq := t.created, t.minAvailable, t.nextSeq;
    }

    function State(): Tables
      reads this
    {
      Tables(created, minAvailable, nextSeq)
    }

    /** One transaction of the loop. */
    method PruneBatch(cutoff: int, batchSize: nat) returns (batch: set<LogKey>)
      modifies `created, `minAvailable
      ensures IsBatch(old(created), cutoff, batchSize, batch)
      ensures State() == AfterBatch(old(State()), batch)
    {
      batch := SelectBatch(created, cutoff, batchSize);
      if batch == {} {
        assert created - batch == created;
        return;
      }
      created := created - batch;
      minAvailable := Raised(State(), UsersOf(batch));
    }

    /** `prune_change_log`. */
    method PruneChangeLog(cutoff: int, batchSize: nat) returns (deleted: nat, accounts: set<string>)
      requires 1 <= batchSize && BelowNext(State())
      modifies `created, `minAvailable
      ensures created == old(created) - Doomed(old(created), cutoff)
      ensures deleted == |Doomed(old(created), cutoff)|
      ensures accounts == UsersOf(Doomed(old(created), cutoff))
      ensures minAvailable == Raised(old(State()).(created := created), accounts)
      ensures BelowNext(State())
      ensures Gapless(old(State())) && InOrder(old(State())) ==> Gapless(State()) && InOrder(State())
    {
      hide IsBatch, Gapless, InOrder, Raised, Doomed, UsersOf, AfterBatch, Partly, BelowNext;
      ghost var before := State();
      deleted, accounts := 0, {};
      ghost var gone: set<LogKey> := {};
      NothingPruned(before, cutoff);
      var more := true;
      while more
        invariant Partly(before, cutoff, gone, State(), deleted, accounts)
        invariant !more ==> gone == Doomed(before.created, cutoff)
        invariant Gapless(before) && InOrder(before) ==> Gapless(State()) && InOrder(State())
        decreases |Doomed(before.created, cutoff) - gone|, more
      {
        ghost var now := State();
        var batch := PruneBatch(cutoff, batchSize);
        PartlyMore(before, cutoff, gone, now, deleted, accounts, batchSize, batch);
        if Gapless(before) && InOrder(before) {
          BatchKeepsGapless(now, cutoff, batchSize, batch);
        }
        deleted := deleted + |batch|;
        accounts := accounts + UsersOf(batch);
        gone := gone + batch;
        more := |batch| == batchSize;
      }
      AllPruned(before, cutoff, State(), deleted, accounts);
    }
  }

  /** The tables when the rows in `gone` have been pruned. */
  ghost predicate Partly(before: Tables, cutoff: int, gone: set<LogKey>, now: Tables, deleted: nat,
                         accounts: set<string>) {
    && gone <= Doomed(before.created, cutoff)
    && now.created == before.created - gone
    && deleted == |gone|
    && accounts == UsersOf(gone)
    && now.minAvailable == Raised(before.(created := now.created), accounts)
    && now.nextSeq == before.nextSeq
    && BelowNext(before)
  }

  lemma {:induction false} NothingPruned(t: Tables, cutoff: int)
    requires BelowNext(t)
    ensures Partly(t, cutoff, {}, t, 0, {})
  {
    assert t.created - {} == t.created && t.(created := t.created) == t;
    assert Raised(t, {}) == t.minAvailable && UsersOf({}) == {};
  }

  lemma {:induction false} AllPruned(before: Tables, cutoff: int, now: Tables, deleted: nat, accounts: set<string>)
    requires Partly(before, cutoff, Doomed(before.created, cutoff), now, deleted, accounts)
    ensures now.created == before.created - Doomed(before.created, cutoff)
    ensures deleted == |Doomed(before.created, cutoff)|
    ensures accounts == UsersOf(Doomed(before.created, cutoff))
    ensures now.minAvailable == Raised(before.(created := now.created), accounts) && BelowNext(now)
  {
    hide Doomed, UsersOf, Raised;
  }

  lemma {:induction false} PartlyMore(before: Tables, cutoff: int, gone: set<LogKey>, now: Tables, deleted: nat,
                                      accounts: set<string>, n: nat, batch: set<LogKey>)
    requires Partly(before, cutoff, gone, now, deleted, accounts)
    requires 1 <= n && IsBatch(now.created, cutoff, n, batch)
    ensures Partly(before, cutoff, gone + batch, AfterBatch(now, batch), deleted + |batch|, accounts + UsersOf(batch))
    ensures |batch| != n ==> gone + batch == Doomed(before.created, cutoff)
    ensures |Doomed(before.created, cutoff) - (gone + batch)| == |Doomed(before.created, cutoff) - gone| - |batch|
  {
    hide IsBatch, Doomed, UsersOf, Raised;
    BatchDone(before.created, gone, cutoff, n, batch);
    UsersOfMore(gone, batch);
    RaisedTwice(before, gone, batch);
  }

  lemma {:induction false} UsersOfMore(a: set<LogKey>, b: set<LogKey>)
    ensures UsersOf(a + b) == UsersOf(a) + UsersOf(b)
  {
  }

  /** A batch taken after `gone`: its rows are doomed ones still there, and a
      short batch is the last. */
  lemma {:induction false} BatchDone(created: map<LogKey, int>, gone: set<LogKey>, cutoff: int, n: nat,
                                     batch: set<LogKey>)
    requires 1 <= n && gone <= Doomed(created, cutoff) && IsBatch(created - gone, cutoff, n, batch)
    ensures var doomed := Doomed(created, cutoff);
            && batch !! gone && gone + batch <= doomed
            && |gone + batch| == |gone| + |batch|
            && created - gone - batch == created - (gone + batch)
            && |batch| <= n
            && (|batch| < n ==> gone + batch == doomed)
            && |doomed - (gone + batch)| == |doomed - gone| - |batch|
  {
    hide Doomed, IsBatch;
    DoomedLeft(created, gone, cutoff);
    BatchSize(created - gone, cutoff, n, batch);
    TakenApart(Doomed(created, cutoff), gone, batch);
    LeftTwice(created, gone, batch);
    if |batch| < n {
      SubsetOfSameSize(batch, Doomed(created, cutoff) - gone);
    }
  }

  lemma {:induction false} BatchSize(created: map<LogKey, int>, cutoff: int, n: nat, batch: set<LogKey>)
    requires IsBatch(created, cutoff, n, batch)
    ensures batch <= Doomed(created, cutoff) && |batch| == Min(n, |Doomed(created, cutoff)|)
  {
  }

  lemma {:induction false} TakenApart<T>(doomed: set<T>, gone: set<T>, batch: set<T>)
    requires gone <= doomed && batch <= doomed - gone
    ensures batch !! gone && gone + batch <= doomed
    ensures |gone + batch| == |gone| + |batch|
    ensures |doomed - (gone + batch)| == |doomed - gone| - |batch|
    ensures batch == doomed - gone ==> gone + batch == doomed
  {
    assert doomed - gone == (doomed - (gone + batch)) + batch;
  }

  lemma {:induction false} LeftTwice(created: map<LogKey, int>, gone: set<LogKey>, batch: set<LogKey>)
    ensures created - gone - batch == created - (gone + batch)
  {
  }

  lemma {:induction false} DoomedLeft(created: map<LogKey, int>, gone: set<LogKey>, cutoff: int)
    ensures Doomed(created - gone, cutoff) == Doomed(created, cutoff) - gone
  {
  }

  lemma {:induction false} SubsetOfSameSize<T>(a: set<T>, b: set<T>)
    requires a <= b && |a| == |b|
    ensures a == b
  {
    assert |b - a| == |b| - |a|;
  }

  lemma {:induction false} SmallestGrows(created: map<LogKey, int>, batch: set<LogKey>, u: string, next: nat)
    requires forall k | k in created && k.user == u :: k.seqNo < next
    ensures Smallest(created, u, next) <= Smallest(created - batch, u, next)
    ensures u !in UsersOf(batch) ==> Smallest(created, u, next) == Smallest(created - batch, u, next)
  {
    var m, m' := Smallest(created, u, next), Smallest(created - batch, u, next);
    if SeqsOf(created - batch, u) != {} {
      assert LogKey(u, m') in created;
      assert m <= m';
    }
    if u !in UsersOf(batch) {
      assert forall n: nat :: LogKey(u, n) !in batch;
      if SeqsOf(created, u) != {} {
        assert LogKey(u, m) in created - batch;
      }
    }
  }

  lemma {:induction false} RaisedTwiceFor(t: Tables, gone: set<LogKey>, batch: set<LogKey>, u: string)
    requires u in t.minAvailable && forall k | k in t.created && k.user == u && u in t.nextSeq :: k.seqNo < t.nextSeq[u]
    ensures var first := t.(created := t.created - gone);
            var mid := first.(minAvailable := Raised(first, UsersOf(gone)), created := t.created - gone - batch);
            u in mid.minAvailable
            && RaisedFor(mid, UsersOf(batch), u)
               == RaisedFor(t.(created := t.created - gone - batch), UsersOf(gone) + UsersOf(batch), u)
  {
    if u in t.nextSeq {
      SmallestGrows(t.created - gone, batch, u, t.nextSeq[u]);
    }
    hide Smallest, UsersOf;
  }

  /** Raising after each batch is raising once at the end. */
  lemma {:induction false} RaisedTwice(t: Tables, gone: set<LogKey>, batch: set<LogKey>)
    requires forall k | k in t.created && k.user in t.nextSeq :: k.seqNo < t.nextSeq[k.user]
    ensures var first := t.(created := t.created - gone);
            var mid := first.(minAvailable := Raised(first, UsersOf(gone)));
            AfterBatch(mid, batch).minAvailable
            == Raised(t.(created := t.created - gone - batch), UsersOf(gone) + UsersOf(batch))
  {
    hide RaisedFor, UsersOf;
    forall u | u in t.minAvailable {
      RaisedTwiceFor(t, gone, batch, u);
    }
  }

  // ---------------------------------------------------------------------
  // When pruning is safe
  // ---------------------------------------------------------------------

  /** The tables after everything older than `cutoff` is gone. */
  function PrunedAll(t: Tables, cutoff: int): Tables {
    AfterBatch(t, Doomed(t.created, cutoff))
  }

  /** No cutoff leaves a gap exactly when creation times follow the sequence
      numbers in every account. */
  lemma {:induction false} SafeIffInOrder(t: Tables)
    requires Gapless(t)
    ensures (forall cutoff :: Gapless(PrunedAll(t, cutoff))) <==> InOrder(t)
  {
    if InOrder(t) {
      forall cutoff ensures Gapless(PrunedAll(t, cutoff)) {
        BatchKeepsGapless(t, cutoff, |Doomed(t.created, cutoff)|, Doomed(t.created, cutoff));
      }
    } else {
      var u, i: nat, j: nat :| Known(t, u) && i < j && LogKey(u, i) in t.created && LogKey(u, j) in t.created
                               && t.created[LogKey(u, i)] > t.created[LogKey(u, j)];
      OutOfOrderLeavesGap(t, u, i, j);
    }
  }

  /** The later entry is pruned and the earlier one kept: a cursor at the earlier
      one is still accepted, but the later change is gone. */
  lemma {:induction false} OutOfOrderLeavesGap(t: Tables, u: string, i: nat, j: nat)
    requires Gapless(t) && Known(t, u) && i < j && LogKey(u, i) in t.created && LogKey(u, j) in t.created
    requires t.created[LogKey(u, i)] > t.created[LogKey(u, j)]
    ensures var after := PrunedAll(t, t.created[LogKey(u, i)]);
            && Known(after, u) && !Gapless(after)
            && after.minAvailable[u] - 1 <= i < j < after.nextSeq[u]
            && LogKey(u, j) !in after.created
  {
    var after := PrunedAll(t, t.created[LogKey(u, i)]);
    assert GaplessFor(t, u);
    assert LogKey(u, i) in after.created && LogKey(u, j) !in after.created;
    assert Smallest(after.created, u, t.nextSeq[u]) <= i;
    assert !GaplessFor(after, u);
  }

  /** `created_at` is the time the writing transaction began, and transactions
      that wait for each other's lock commit in another order: such a log exists. */
  lemma {:induction false} OutOfOrderExample()
    ensures exists t: Tables :: Gapless(t) && !InOrder(t)
  {
    var t := Tables(map[LogKey("u", 1) := 10, LogKey("u", 2) := 5], map["u" := 0], map["u" := 3]);
    assert GaplessFor(t, "u");
    assert !InOrderFor(t, "u") by {
      assert t.created[LogKey("u", 1)] > t.created[LogKey("u", 2)];
    }
    assert Known(t, "u");
    assert Gapless(t);
  }
}
