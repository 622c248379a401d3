/**
 Bootstrap: keyset pages over the four entity tables, each read in its own
 transaction (apps/api/src/bootstrap.rs), and the client's loop that collects
 them (packages/sync/src/index.ts).
 */
module Bootstrap {
  import opened Orders
  import opened Prelude
  import opened Rows
  import opened Mutations
  import opened Server
  import opened Ledger
  import opened Client
  import opened Merge
  import opened Projection

  // ---------------------------------------------------------------------
  // ORDER BY entity_type, entity_id
  // ---------------------------------------------------------------------

  /** The alphabetical position of the entity names. */
  function NamePosition(e: Entity): nat {
    match e
    case DayPlan => 0
    case List => 1
    case Step => 2
    case Task => 3
  }

  predicate Before(a: Key, b: Key) {
    NamePosition(a.entity) < NamePosition(b.entity) || (a.entity == b.entity && Greater(b.id, a.id))
  }

  lemma {:induction false} BeforeIsTotal(a: Key, b: Key)
    ensures a == b || Before(a, b) || Before(b, a)
    ensures !(Before(a, b) && Before(b, a)) && !Before(a, a)
  {
    GreaterIsTotal(a.id, b.id);
    GreaterIsTotal(a.id, a.id);
  }

  lemma {:induction false} BeforeIsTransitive(a: Key, b: Key, c: Key)
    requires Before(a, b) && Before(b, c)
    ensures Before(a, c)
  {
    if a.entity == b.entity == c.entity {
      GreaterIsTransitive(c.id, b.id, a.id);
    }
  }

  lemma {:induction false} KeyOrder()
    ensures StrictTotal(Before)
  {
    forall a, b ensures a == b || Before(a, b) || Before(b, a)
      ensures Before(a, b) ==> !Before(b, a)
    {
      BeforeIsTotal(a, b);
    }
    forall a, b, c | Before(a, b) && Before(b, c) ensures Before(a, c) {
      BeforeIsTransitive(a, b, c);
    }
  }

  function Least(s: set<Key>): (k: Key)
    requires s != {}
    ensures IsLeast(Before, s, k)
  {
    KeyOrder();
    LeastExists(Before, s);
    var k :| IsLeast(Before, s, k);
    k
  }

  /** The keys of a query result in order. */
  function Sorted(s: set<Key>): (ks: seq<Key>)
    ensures |ks| == |s|
    ensures forall k :: k in ks <==> k in s
    decreases |s|
  {
    if s == {} then [] else [Least(s)] + Sorted(s - {Least(s)})
  }

  ghost predicate Ascending(ks: seq<Key>) {
    forall i, j | 0 <= i < j < |ks| :: Before(ks[i], ks[j])
  }

  lemma {:induction false} SortedAscends(s: set<Key>)
    ensures Ascending(Sorted(s))
    decreases |s|
  {
    hide Before;
    if s != {} {
      var k := Least(s);
      var rest := Sorted(s - {k});
      SortedAscends(s - {k});
      forall i | 0 <= i < |rest| ensures Before(k, rest[i]) {
        assert rest[i] in s - {k};
      }
    }
  }

  // ---------------------------------------------------------------------
  // One page
  // ---------------------------------------------------------------------

  datatype Saved = Saved(data: Data, createdAt: int)

  /** The database at the time a page is read. */
  datatype Moment = Moment(rows: map<Key, Saved>, nextSeq: nat, clock: int)

  datatype Continuation = Continuation(cursor: int, at: int, last: Option<Key>)

  /** The rows of one page, in order, and the continuation if there are more. */
  datatype Page = Page(entities: seq<(Key, Data)>, cursor: int, next: Option<Continuation>)

  predicate Eligible(m: Moment, at: int, last: Option<Key>, k: Key) {
    k in m.rows && m.rows[k].createdAt <= at && (last.None? || Before(last.value, k))
  }

  function EligibleKeys(m: Moment, at: int, last: Option<Key>): (ks: set<Key>)
    ensures forall k :: k in ks <==> Eligible(m, at, last, k)
  {
    set k | k in m.rows && Eligible(m, at, last, k)
  }

  /** Where a page starts: at the continuation, or at the start of a snapshot. */
  function From(m: Moment, token: Option<Continuation>): Continuation {
    if token.Some? then token.value else Continuation(m.nextSeq - 1, m.clock, None)
  }

  /** `ORDER BY entity_type, entity_id LIMIT n`. */
  function Query(m: Moment, at: int, last: Option<Key>, n: nat): seq<Key> {
    var all := Sorted(EligibleKeys(m, at, last));
    if |all| <= n then all else all[..n]
  }

  /** The loop that pushes the first rows of a query result. */
  method PushRows(m: Moment, query: seq<Key>, n: nat) returns (entities: seq<(Key, Data)>)
    requires n <= |query| && forall k | k in query :: k in m.rows
    ensures |entities| == n
    ensures forall j | 0 <= j < n :: entities[j] == (query[j], m.rows[query[j]].data)
  {
    entities := [];
    for i := 0 to n
      invariant |entities| == i
      invariant forall j | 0 <= j < i :: entities[j] == (query[j], m.rows[query[j]].data)
    {
      entities := entities + [(query[i], m.rows[query[i]].data)];
    }
  }

  /** The handler asks for one row more than the limit and keeps `limit`. */
  method ServePage(m: Moment, token: Option<Continuation>, limit: nat) returns (page: Page)
    requires 1 <= limit
    ensures PageFollows(m, From(m, token), limit, page)
  {
    hide PageFollows, Before, Sorted;
    var start := From(m, token);
    ghost var all := Sorted(EligibleKeys(m, start.at, start.last));
    SortedAscends(EligibleKeys(m, start.at, start.last));
    hide Ascending;
    var query := Query(m, start.at, start.last, limit + 1);
    var hasMore := |query| > limit;
    assert forall k | k in query :: k in all;
    var entities := PushRows(m, query, Min(|query|, limit));
    page := Page(entities, start.cursor,
                 if hasMore then Some(Continuation(start.cursor, start.at, Some(entities[|entities| - 1].0)))
                 else None);
    PrefixFollows(m, start, limit, all, page);
  }

  /** What a page promises: rows in order, all after the continuation, and
      nothing in between left out. */
  ghost predicate PageFollows(m: Moment, start: Continuation, limit: nat, page: Page) {
    && page.cursor == start.cursor
    && |page.entities| <= limit
    && (forall i, j | 0 <= i < j < |page.entities| :: Before(page.entities[i].0, page.entities[j].0))
    && (forall i | 0 <= i < |page.entities| ::
          Eligible(m, start.at, start.last, page.entities[i].0)
          && page.entities[i].1 == m.rows[page.entities[i].0].data)
    && (page.next.Some? ==>
          && page.entities != [] && |page.entities| == limit
          && (exists k :: Eligible(m, start.at, start.last, k) && Before(page.entities[limit - 1].0, k))
          && page.next == Some(Continuation(start.cursor, start.at, Some(page.entities[|page.entities| - 1].0))))
    && (forall k | Eligible(m, start.at, start.last, k) ::
          Has(page.entities, k)
          || (page.next.Some? && Before(page.entities[|page.entities| - 1].0, k)))
  }

  predicate Has(entities: seq<(Key, Data)>, k: Key) {
    exists i :: 0 <= i < |entities| && entities[i].0 == k
  }

  lemma {:induction false} PrefixFollows(m: Moment, start: Continuation, limit: nat, all: seq<Key>, page: Page)
    requires 1 <= limit && Ascending(all) && forall k :: k in all <==> Eligible(m, start.at, start.last, k)
    requires page.cursor == start.cursor && |page.entities| == Min(limit, |all|)
    requires forall j | 0 <= j < |page.entities| ::
               all[j] in m.rows && page.entities[j] == (all[j], m.rows[all[j]].data)
    requires page.next == if |all| > limit
                          then Some(Continuation(start.cursor, start.at, Some(page.entities[|page.entities| - 1].0)))
                          else None
    ensures PageFollows(m, start, limit, page)
  {
    hide Before;
    if page.next.Some? {
      assert all[limit] in all;
      assert Eligible(m, start.at, start.last, all[limit]) && Before(page.entities[limit - 1].0, all[limit]);
    }
    forall k | Eligible(m, start.at, start.last, k)
      ensures Has(page.entities, k) || (page.next.Some? && Before(page.entities[|page.entities| - 1].0, k))
    {
      var i :| 0 <= i < |all| && all[i] == k;
      if i < |page.entities| {
        assert page.entities[i].0 == k;
      }
    }
  }

  // ---------------------------------------------------------------------
  // All pages
  // ---------------------------------------------------------------------

  /** Rows are never deleted and keep their creation time. */
  ghost predicate OnlyGrows(moments: nat -> Moment) {
    && (forall i :: 1 <= moments(i).nextSeq)
    && forall i, j, k | i <= j && k in moments(i).rows ::
         k in moments(j).rows && moments(j).rows[k].createdAt == moments(i).rows[k].createdAt
  }

  /** Row `i` was read at moment `when[i]`. */
  ghost predicate ReadAt(moments: nat -> Moment, entities: seq<(Key, Data)>, when: seq<nat>, upto: nat) {
    && |when| == |entities|
    && forall i | 0 <= i < |entities| ::
         && when[i] < upto && entities[i].0 in moments(when[i]).rows
         && entities[i].1 == moments(when[i]).rows[entities[i].0].data
  }

  ghost predicate AllAscend(entities: seq<(Key, Data)>) {
    forall i, j | 0 <= i < j < |entities| :: Before(entities[i].0, entities[j].0)
  }

  /** Everything eligible at the start up to the last key collected is there. */
  ghost predicate CompleteUpTo(first: Moment, at: int, entities: seq<(Key, Data)>, last: Option<Key>) {
    forall k | Eligible(first, at, None, k) :: Has(entities, k) || (last.Some? && Before(last.value, k))
  }

  /** Some row comes after everything collected. */
  ghost predicate LeavesOne(m: Moment, entities: seq<(Key, Data)>) {
    exists k :: k in m.rows && !Has(entities, k)
  }

  const MAX_PAGES := 10_000

  /** What holds after each page. */
  ghost predicate Collected(moments: nat -> Moment, limit: nat, n: nat, page: Page, entities: seq<(Key, Data)>,
                            when: seq<nat>)
  {
    && page.cursor == moments(0).nextSeq - 1
    && AllAscend(entities) && ReadAt(moments, entities, when, n + 1) && |entities| <= (n + 1) * limit
    && CompleteUpTo(moments(0), moments(0).clock, entities,
                    if page.next.Some? && entities != [] then Some(entities[|entities| - 1].0) else None)
    && (page.next.Some? ==>
          && entities != [] && |entities| == (n + 1) * limit
          && page.next == Some(Continuation(page.cursor, moments(0).clock, Some(entities[|entities| - 1].0)))
          && LeavesOne(moments(n), entities))
  }

  /** The client's loop: page after page, each read later than the one before,
      until none is left or the guard stops it. */
  method CollectPages(moments: nat -> Moment, limit: nat)
    returns (entities: seq<(Key, Data)>, cursor: int, finished: bool, ghost when: seq<nat>)
    requires 1 <= limit && OnlyGrows(moments)
    ensures cursor == moments(0).nextSeq - 1
    ensures AllAscend(entities) && ReadAt(moments, entities, when, MAX_PAGES + 1)
    ensures |entities| <= (MAX_PAGES + 1) * limit
    ensures finished ==> CompleteUpTo(moments(0), moments(0).clock, entities, None)
    ensures !finished ==> |entities| == (MAX_PAGES + 1) * limit && LeavesOne(moments(MAX_PAGES), entities)
  {
    var page := ServePage(moments(0), None, limit);
    entities := page.entities;
    when := seq(|entities|, i => 0);
    FirstPage(moments, limit, page);
    var guard := 0;
    while page.next.Some? && guard < MAX_PAGES
      invariant guard <= MAX_PAGES && Collected(moments, limit, guard, page, entities, when)
      decreases MAX_PAGES - guard
    {
      hide *;
      var token := page.next;
      ghost var before := page;
      page := ServePage(moments(guard + 1), token, limit);
      NextPage(moments, limit, guard, before, entities, when, page);
      when := when + seq(|page.entities|, i => guard + 1);
      entities := entities + page.entities;
      guard := guard + 1;
    }
    cursor := page.cursor;
    finished := page.next.None?;
    ReadEarlier(moments, entities, when, guard + 1, MAX_PAGES + 1);
    FewPages(guard + 1, MAX_PAGES + 1, limit);
  }

  lemma {:induction false} FewPages(m: nat, n: nat, limit: nat)
    requires m <= n
    ensures m * limit <= n * limit
  {
  }

  lemma {:induction false} ReadEarlier(moments: nat -> Moment, entities: seq<(Key, Data)>, when: seq<nat>, m: nat,
                                       n: nat)
    requires ReadAt(moments, entities, when, m) && m <= n
    ensures ReadAt(moments, entities, when, n)
  {
  }

  lemma {:induction false} FirstPage(moments: nat -> Moment, limit: nat, page: Page)
    requires 1 <= limit && PageFollows(moments(0), From(moments(0), None), limit, page)
    ensures Collected(moments, limit, 0, page, page.entities, seq(|page.entities|, i => 0))
  {
    hide Before;
    if page.next.Some? {
      var k :| Eligible(moments(0), moments(0).clock, None, k) && Before(page.entities[limit - 1].0, k);
      LastIsLeft(moments(0), page.entities, k);
    }
  }

  lemma {:induction false} PageEnds(m: Moment, start: Continuation, limit: nat, page: Page)
    requires PageFollows(m, start, limit, page)
    ensures page.cursor == start.cursor && |page.entities| <= limit
    ensures page.next.Some? ==>
              && page.entities != [] && |page.entities| == limit
              && page.next == Some(Continuation(start.cursor, start.at, Some(page.entities[limit - 1].0)))
  {
  }

  lemma {:induction false} NextPage(moments: nat -> Moment, limit: nat, n: nat, before: Page,
                                    entities: seq<(Key, Data)>, when: seq<nat>, page: Page)
    requires 1 <= limit && OnlyGrows(moments) && Collected(moments, limit, n, before, entities, when)
    requires before.next.Some? && PageFollows(moments(n + 1), From(moments(n + 1), before.next), limit, page)
    ensures Collected(moments, limit, n + 1, page, entities + page.entities, when + seq(|page.entities|, i => n + 1))
  {
    hide AllAscend, ReadAt, CompleteUpTo, LeavesOne, OnlyGrows, Before, Eligible, PageFollows;
    AddPage(moments, n + 1, limit, before.next.value, entities, when, page);
    PageEnds(moments(n + 1), before.next.value, limit, page);
    assert (n + 1) * limit + limit == (n + 2) * limit;
  }

  lemma {:induction false} LastIsLeft(m: Moment, entities: seq<(Key, Data)>, k: Key)
    requires entities != [] && AllAscend(entities) && k in m.rows && Before(entities[|entities| - 1].0, k)
    ensures LeavesOne(m, entities)
  {
    forall i | 0 <= i < |entities| ensures entities[i].0 != k {
      BeforeIsTotal(entities[i].0, entities[|entities| - 1].0);
      BeforeIsTotal(k, k);
      hide Before;
    }
  }

  /** A page appended to what was collected before: still in order, */
  lemma {:induction false} PageAscends(m: Moment, limit: nat, token: Continuation, before: seq<(Key, Data)>, page: Page)
    requires PageFollows(m, token, limit, page)
    requires before != [] && token.last == Some(before[|before| - 1].0) && AllAscend(before)
    ensures AllAscend(before + page.entities)
  {
    hide Before;
    var all := before + page.entities;
    forall i, j | 0 <= i < j < |all| ensures Before(all[i].0, all[j].0) {
      if i < |before| <= j {
        assert Before(token.last.value, all[j].0);
        if i < |before| - 1 {
          BeforeIsTransitive(all[i].0, token.last.value, all[j].0);
        }
      }
    }
  }

  /** nothing left out up to its last key, */
  lemma {:induction false} PageCompletes(moments: nat -> Moment, n: nat, limit: nat, token: Continuation,
                                         before: seq<(Key, Data)>, page: Page)
    requires OnlyGrows(moments) && PageFollows(moments(n), token, limit, page)
    requires token.last.Some? && token.at == moments(0).clock && CompleteUpTo(moments(0), token.at, before, token.last)
    ensures CompleteUpTo(moments(0), token.at, before + page.entities,
                         if page.next.Some? then Some(page.entities[|page.entities| - 1].0) else None)
  {
    hide Before;
    var all := before + page.entities;
    forall k | Eligible(moments(0), token.at, None, k)
      ensures Has(all, k) || (page.next.Some? && Before(page.entities[|page.entities| - 1].0, k))
    {
      HasEither(before, page.entities, k);
      if !Has(before, k) {
        assert Eligible(moments(n), token.at, token.last, k);
      }
    }
  }

  lemma {:induction false} HasEither(a: seq<(Key, Data)>, b: seq<(Key, Data)>, k: Key)
    ensures Has(a, k) || Has(b, k) ==> Has(a + b, k)
  {
    if Has(a, k) {
      var i :| 0 <= i < |a| && a[i].0 == k;
      assert (a + b)[i].0 == k;
    } else if Has(b, k) {
      var i :| 0 <= i < |b| && b[i].0 == k;
      assert (a + b)[|a| + i].0 == k;
    }
  }

  /** and every row as it was when its page was read. */
  lemma {:induction false} AddPage(moments: nat -> Moment, n: nat, limit: nat, token: Continuation,
                                   before: seq<(Key, Data)>, when: seq<nat>, page: Page)
    requires OnlyGrows(moments) && PageFollows(moments(n), token, limit, page)
    requires before != [] && token.last == Some(before[|before| - 1].0) && token.at == moments(0).clock
    requires AllAscend(before) && ReadAt(moments, before, when, n)
    requires CompleteUpTo(moments(0), token.at, before, token.last)
    ensures AllAscend(before + page.entities)
    ensures ReadAt(moments, before + page.entities, when + seq(|page.entities|, i => n), n + 1)
    ensures CompleteUpTo(moments(0), token.at, before + page.entities,
                         if page.next.Some? then Some(page.entities[|page.entities| - 1].0) else None)
    ensures page.next.Some? ==> LeavesOne(moments(n), before + page.entities)
  {
    hide Before, AllAscend, CompleteUpTo, OnlyGrows, LeavesOne;
    PageAscends(moments(n), limit, token, before, page);
    PageCompletes(moments, n, limit, token, before, page);
    if page.next.Some? {
      var k :| Eligible(moments(n), token.at, token.last, k) && Before(page.entities[limit - 1].0, k);
      LastIsLeft(moments(n), before + page.entities, k);
    }
  }

  /** Each row is in the collected snapshot at most once. */
  lemma {:induction false} NoRowTwice(entities: seq<(Key, Data)>, i: nat, j: nat)
    requires AllAscend(entities) && i < j < |entities|
    ensures entities[i].0 != entities[j].0
  {
    BeforeIsTotal(entities[i].0, entities[i].0);
  }

  // ---------------------------------------------------------------------
  // The snapshot as the protocol uses it
  // ---------------------------------------------------------------------

  /** The moments show the tables of one account as its history grows. */
  ghost predicate ShowsHistory(r: Rules, moments: nat -> Moment, h: seq<Entry>, lengths: nat -> nat, cursor: nat) {
    && OnlyGrows(moments)
    && cursor <= |h|
    && (forall i: nat :: cursor <= lengths(i) <= |h|)
    && (forall i: nat, k | k in moments(i).rows ::
          Redo(r, h[..lengths(i)], k).Some? && moments(i).rows[k].data == Redo(r, h[..lengths(i)], k).value.data)
    && (forall k | Redo(r, h[..cursor], k).Some? ::
          k in moments(0).rows && moments(0).rows[k].createdAt <= moments(0).clock)
  }

  /** The map of a collected snapshot, and the length of the log when each of
      its rows was read. */
  function Loaded(entities: seq<(Key, Data)>): map<Key, Data>
    decreases |entities|
  {
    if entities == [] then map[]
    else
      var (k, d) := entities[|entities| - 1];
      Loaded(entities[..|entities| - 1])[k := BootstrapRow(k.entity, d)]
  }

  ghost function LengthsRead(entities: seq<(Key, Data)>, when: seq<nat>, lengths: nat -> nat): map<Key, nat>
    requires |when| == |entities|
    decreases |entities|
  {
    if entities == [] then map[]
    else
      var n := |entities| - 1;
      LengthsRead(entities[..n], when[..n], lengths)[entities[n].0 := lengths(when[n])]
  }

  lemma {:induction false} LoadedRows(entities: seq<(Key, Data)>, when: seq<nat>, lengths: nat -> nat, i: nat)
    requires |when| == |entities| && i < |entities| && AllAscend(entities)
    ensures entities[i].0 in Loaded(entities)
    ensures Loaded(entities)[entities[i].0] == BootstrapRow(entities[i].0.entity, entities[i].1)
    ensures entities[i].0 in LengthsRead(entities, when, lengths)
    ensures LengthsRead(entities, when, lengths)[entities[i].0] == lengths(when[i])
    decreases |entities|
  {
    var n := |entities| - 1;
    if i < n {
      NoRowTwice(entities, i, n);
      LoadedRows(entities[..n], when[..n], lengths, i);
    }
  }

  lemma {:induction false} HasNext(entities: seq<(Key, Data)>, k: Key)
    requires entities != []
    ensures Has(entities, k) <==> Has(entities[..|entities| - 1], k) || entities[|entities| - 1].0 == k
  {
    var front := entities[..|entities| - 1];
    if Has(front, k) {
      var i :| 0 <= i < |front| && front[i].0 == k;
      assert entities[i].0 == k;
    }
    if Has(entities, k) && entities[|entities| - 1].0 != k {
      var i :| 0 <= i < |entities| && entities[i].0 == k;
      assert front[i].0 == k;
    }
  }

  lemma {:induction false} LoadedKeys(entities: seq<(Key, Data)>, when: seq<nat>, lengths: nat -> nat, k: Key)
    requires |when| == |entities|
    ensures k in Loaded(entities) <==> Has(entities, k)
    ensures k in LengthsRead(entities, when, lengths) <==> Has(entities, k)
    decreases |entities|
  {
    hide BootstrapRow, Has;
    if entities == [] {
      HasNone(k);
    } else {
      HasNext(entities, k);
      LoadedKeys(entities[..|entities| - 1], when[..|entities| - 1], lengths, k);
    }
  }

  lemma {:induction false} HasNone(k: Key)
    ensures !Has([], k)
  {
  }

  /** A collected row is the server's row at the length it was read at. */
  lemma {:induction false} RowIsServers(r: Rules, moments: nat -> Moment, h: seq<Entry>, lengths: nat -> nat,
                                        entities: seq<(Key, Data)>, when: seq<nat>, upto: nat, cursor: nat, k: Key)
    requires ShowsHistory(r, moments, h, lengths, cursor) && AllAscend(entities)
    requires ReadAt(moments, entities, when, upto)
    requires Has(entities, k)
    ensures k in Loaded(entities) && k in LengthsRead(entities, when, lengths)
    ensures var n := LengthsRead(entities, when, lengths)[k];
            && cursor <= n <= |h| && Redo(r, h[..n], k).Some?
            && Loaded(entities)[k] == BootstrapRow(k.entity, Redo(r, h[..n], k).value.data)
  {
    hide Before, Redo, LengthsRead, Loaded, BootstrapRow, AllAscend, OnlyGrows;
    var i :| 0 <= i < |entities| && entities[i].0 == k;
    LoadedRows(entities, when, lengths, i);
    var read: nat := when[i];
    assert k in moments(read).rows && entities[i].1 == moments(read).rows[k].data;
  }

  /** No row that existed at the cursor is missing. */
  lemma {:induction false} NoneMissing(r: Rules, moments: nat -> Moment, h: seq<Entry>, lengths: nat -> nat,
                                       entities: seq<(Key, Data)>, cursor: nat, k: Key)
    requires ShowsHistory(r, moments, h, lengths, cursor)
    requires CompleteUpTo(moments(0), moments(0).clock, entities, None)
    requires Redo(r, h[..cursor], k).Some?
    ensures Has(entities, k)
  {
    hide Redo, OnlyGrows, Has, Before;
    assert Eligible(moments(0), moments(0).clock, None, k);
  }

  lemma {:induction false} SnapshotIs(r: Rules, loaded: map<Key, Data>, h: seq<Entry>, cursor: nat, readAt: map<Key,
                                      nat>)
    requires Readable(r, h, cursor, readAt) && loaded.Keys == readAt.Keys
    requires forall k | k in readAt :: loaded[k] == BootstrapRow(k.entity, Redo(r, h[..readAt[k]], k).value.data)
    ensures loaded == Snapshot(r, h, readAt)
  {
    hide Redo, BootstrapRow;
  }

  /** What the pages collect is a snapshot in the sense of the protocol: no row
      that existed at the cursor is missing, and each is the server's row at some
      time from then on. */
  lemma {:induction false} CollectedIsSnapshot(r: Rules, moments: nat -> Moment, h: seq<Entry>, lengths: nat -> nat,
                                               entities: seq<(Key, Data)>, when: seq<nat>, upto: nat, cursor: nat)
    requires ShowsHistory(r, moments, h, lengths, cursor)
    requires AllAscend(entities) && ReadAt(moments, entities, when, upto)
    requires CompleteUpTo(moments(0), moments(0).clock, entities, None)
    ensures Readable(r, h, cursor, LengthsRead(entities, when, lengths))
    ensures Loaded(entities) == Snapshot(r, h, LengthsRead(entities, when, lengths))
  {
    assert |when| == |entities| && cursor <= |h|;
    hide Redo, LengthsRead, Loaded, BootstrapRow, ShowsHistory, AllAscend, ReadAt, CompleteUpTo, Has, Snapshot;
    var loaded, readAt := Loaded(entities), LengthsRead(entities, when, lengths);
    forall k ensures (k in loaded <==> Has(entities, k)) && (k in readAt <==> Has(entities, k)) {
      LoadedKeys(entities, when, lengths, k);
    }
    forall k | k in readAt
      ensures cursor <= readAt[k] <= |h| && Redo(r, h[..readAt[k]], k).Some?
      ensures loaded[k] == BootstrapRow(k.entity, Redo(r, h[..readAt[k]], k).value.data)
    {
      RowIsServers(r, moments, h, lengths, entities, when, upto, cursor, k);
    }
    forall k | Redo(r, h[..cursor], k).Some? ensures k in readAt {
      NoneMissing(r, moments, h, lengths, entities, cursor, k);
    }
    SnapshotIs(r, loaded, h, cursor, readAt);
  }
}
