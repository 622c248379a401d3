/**
 The change log as a complete redo log. `history` is every entry ever logged,
 in order; the table `log` is what pruning has left of it.
 */
module Ledger {
  import opened Prelude
  import opened Rows
  import opened Mutations
  import opened Server

  function RedoStep(r: Rules, s: Option<Row>, k: Key, e: Entry, seqNo: nat): Option<Row> {
    if e.change.key != k then s
    else
      var before := if s.Some? then s.value.data else EMPTY_DATA;
      Some(Row(Rewrite(before, e.change.kind, Parsed(r, e.change.patch)), seqNo))
  }

  /** Replaying the logged patches onto the empty tables, one key at a time. */
  function Redo(r: Rules, h: seq<Entry>, k: Key): Option<Row>
    decreases |h|
  {
    if h == [] then None else RedoStep(r, Redo(r, h[..|h| - 1], k), k, h[|h| - 1], |h|)
  }

  /** The change log as the client receives it. */
  function Changes(h: seq<Entry>): (cs: seq<Change>)
    ensures |cs| == |h|
    ensures forall i | 0 <= i < |h| :: cs[i] == h[i].change
  {
    seq(|h|, i requires 0 <= i < |h| => h[i].change)
  }

  function DataOf(row: Option<Row>): Option<Data> {
    if row.Some? then Some(row.value.data) else None
  }

  /** The log table holds exactly the entries from `minAvail` on, and nothing
      else; `min_available_seq` starts at 0 although numbering starts at 1. */
  ghost predicate LogIsSuffix(log: map<nat, Entry>, minAvail: nat, h: seq<Entry>) {
    && minAvail <= |h| + 1
    && (forall n: nat :: n in log <==> Max(1, minAvail) <= n <= |h|)
    && (forall n: nat :: n in log ==> log[n] == h[n - 1])
  }

  ghost predicate TableIsRedo(r: Rules, t: Table, h: seq<Entry>) {
    forall k :: Redo(r, h, k) == if k in t then Some(t[k]) else None
  }

  /** Every row the account ever had satisfied the column rules. */
  ghost predicate EverValid(r: Rules, h: seq<Entry>) {
    forall i, k | 0 <= i <= |h| && Redo(r, h[..i], k).Some? ::
      ValidFields(r, k.entity, Redo(r, h[..i], k).value.data.fields)
  }

  /** A create logs the column values that are stored. */
  ghost predicate CreatesValid(r: Rules, h: seq<Entry>) {
    forall i | 0 <= i < |h| && h[i].change.kind == Create ::
      ValidFields(r, h[i].change.key.entity, h[i].change.patch)
  }

  ghost predicate LedgerInv(r: Rules, s: Account, h: seq<Entry>) {
    && s.nextSeq == |h| + 1
    && LogIsSuffix(s.log, s.minAvail, h)
    && TableIsRedo(r, s.table, h)
    && EverValid(r, h)
    && CreatesValid(r, h)
  }

  lemma {:induction false} TableIsValid(r: Rules, t: Table, h: seq<Entry>)
    requires TableIsRedo(r, t, h) && EverValid(r, h)
    ensures ValidTable(r, t)
  {
    assert h[..|h|] == h;
  }

  lemma {:induction false} ValidityGrows(r: Rules, t: Table, h: seq<Entry>, entry: Entry)
    requires EverValid(r, h) && TableIsRedo(r, t, h + [entry]) && ValidTable(r, t)
    ensures EverValid(r, h + [entry])
  {
    var h' := h + [entry];
    forall i, k | 0 <= i <= |h'| && Redo(r, h'[..i], k).Some?
      ensures ValidFields(r, k.entity, Redo(r, h'[..i], k).value.data.fields)
    {
      if i == |h'| {
        assert h'[..i] == h';
      } else {
        assert h'[..i] == h[..i];
      }
    }
  }

  lemma {:induction false} CreatesGrow(r: Rules, h: seq<Entry>, entry: Entry)
    requires CreatesValid(r, h)
    requires entry.change.kind == Create ==> ValidFields(r, entry.change.key.entity, entry.change.patch)
    ensures CreatesValid(r, h + [entry])
  {
    hide ValidFields;
  }

  /** The entries one operation adds: one if it is applied, none otherwise. */
  function Appended(s: Account, after: Account): seq<Entry> {
    if s.nextSeq < after.nextSeq && s.nextSeq in after.log then [after.log[s.nextSeq]] else []
  }

  lemma {:induction false} LogGrows(log: map<nat, Entry>, minAvail: nat, h: seq<Entry>, entry: Entry)
    requires LogIsSuffix(log, minAvail, h)
    ensures LogIsSuffix(log[|h| + 1 := entry], minAvail, h + [entry])
  {
  }

  lemma {:induction false} TableGrows(r: Rules, t: Table, h: seq<Entry>, c: Change, opId: OpId, logged: Fields)
    requires TableIsRedo(r, t, h)
    ensures TableIsRedo(r, t[c.key := Row(RowAfter(r, t, c, logged), |h| + 1)],
                        h + [Entry(opId, c.(patch := logged))])
  {
    var entry := Entry(opId, c.(patch := logged));
    var h' := h + [entry];
    assert h'[..|h'| - 1] == h;
    forall k
      ensures Redo(r, h', k) == if k == c.key then Some(Row(RowAfter(r, t, c, logged), |h| + 1)) else Redo(r, h, k)
    {
      assert Redo(r, h', k) == RedoStep(r, Redo(r, h, k), k, entry, |h'|);
    }
  }

  lemma {:induction false} ExecuteKeepsLedger(r: Rules, s: Account, d: Device, op: Mutation, h: seq<Entry>)
    requires d in s.marks && LedgerInv(r, s, h)
    ensures var (after, outcome) := Execute(r, s, d, op);
            && LedgerInv(r, after, h + Appended(s, after))
            && (outcome.Applied? ==>
                  && outcome.seqNo == |h| + 1
                  && s.nextSeq in after.log
                  && Appended(s, after) == [after.log[s.nextSeq]]
                  && after.log[s.nextSeq].opId == op.opId
                  && after.log[s.nextSeq].change.key == op.change.key
                  && after.log[s.nextSeq].change.kind == op.change.kind)
            && (outcome.Rejected? ==>
                  after.table == s.table && after.log == s.log && after.nextSeq == s.nextSeq
                  && Appended(s, after) == [])
  {
    var applied := ApplyMutation(r, s.table, op.change, s.nextSeq);
    if applied.Ok? {
      TableIsValid(r, s.table, h);
      ApplyMutationEffect(r, s.table, op.change, s.nextSeq);
      hide ApplyMutation, RowAfter, ValidTable, ValidFields, TableIsRedo, LogIsSuffix, EverValid, CreatesValid;
      var entry := Entry(op.opId, op.change.(patch := applied.value.logged));
      TableGrows(r, s.table, h, op.change, op.opId, applied.value.logged);
      LogGrows(s.log, s.minAvail, h, entry);
      ValidityGrows(r, applied.value.table, h, entry);
      CreatesGrow(r, h, entry);
    } else {
      assert h + [] == h;
    }
  }

  lemma {:induction false} HandleKeepsLedger(r: Rules, s: Account, d: Device, op: Mutation, h: seq<Entry>)
    requires d in s.marks && LedgerInv(r, s, h) && Handle(r, s, d, op).Ok?
    ensures var after := Handle(r, s, d, op).value.0;
            LedgerInv(r, after, h + Appended(s, after))
  {
    hide ApplyMutation;
    ExecuteKeepsLedger(r, s, d, op, h);
    assert h + [] == h;
  }

  /** An account with everything that ever happened to it: the whole log,
      pruned or not, and what became of each operation when it was executed. */
  datatype Site = Site(account: Account, history: seq<Entry>, outcomes: map<OpId, Outcome>)

  /** `Handle`, with its trace. */
  function SiteHandle(r: Rules, w: Site, d: Device, op: Mutation): (result: Result<(Site, Ack), SyncError>)
    requires d in w.account.marks
    ensures result.Ok? ==> d in result.value.0.account.marks
    ensures Handle(r, w.account, d, op)
         == if result.Ok? then Ok((result.value.0.account, result.value.1)) else Err(result.error)
  {
    var (next, ack) :- Handle(r, w.account, d, op);
    var ran := d in next.marks && w.account.marks[d] < next.marks[d] && op.opId in next.receipts;
    Ok((Site(next, w.history + Appended(w.account, next),
             if ran then w.outcomes[op.opId := next.receipts[op.opId].outcome] else w.outcomes), ack))
  }

  /** `Process`, with its trace. */
  function SiteProcess(r: Rules, w: Site, d: Device, ops: seq<Mutation>): (result: Result<(Site, seq<Ack>), SyncError>)
    requires d in w.account.marks
    ensures result.Ok? ==> d in result.value.0.account.marks && |result.value.1| == |ops|
    ensures Process(r, w.account, d, ops)
         == if result.Ok? then Ok((result.value.0.account, result.value.1)) else Err(result.error)
    decreases |ops|
  {
    if ops == [] then Ok((w, []))
    else
      var front :- SiteProcess(r, w, d, ops[..|ops| - 1]);
      var last :- SiteHandle(r, front.0, d, ops[|ops| - 1]);
      Ok((last.0, front.1 + [last.1]))
  }

  ghost predicate SiteInv(r: Rules, w: Site) {
    LedgerInv(r, w.account, w.history)
  }

  lemma {:induction false} SiteHandleKeepsLedger(r: Rules, w: Site, d: Device, op: Mutation)
    requires d in w.account.marks && SiteInv(r, w) && SiteHandle(r, w, d, op).Ok?
    ensures SiteInv(r, SiteHandle(r, w, d, op).value.0)
    ensures w.history <= SiteHandle(r, w, d, op).value.0.history
  {
    HandleKeepsLedger(r, w.account, d, op, w.history);
    hide Handle, LedgerInv;
  }

  /** In every state the server reaches, the log is a gapless suffix of the
      history, replaying the history gives exactly the tables, and history only
      grows. */
  lemma {:induction false} ProcessKeepsLedger(r: Rules, w: Site, d: Device, ops: seq<Mutation>)
    requires d in w.account.marks && SiteInv(r, w) && SiteProcess(r, w, d, ops).Ok?
    ensures SiteInv(r, SiteProcess(r, w, d, ops).value.0)
    ensures w.history <= SiteProcess(r, w, d, ops).value.0.history
    decreases |ops|
  {
    hide SiteInv, SiteHandle;
    if ops != [] {
      ProcessKeepsLedger(r, w, d, ops[..|ops| - 1]);
      SiteHandleKeepsLedger(r, SiteProcess(r, w, d, ops[..|ops| - 1]).value.0, d, ops[|ops| - 1]);
    }
  }

  /** `server_rev` names the last entry of the row's key. */
  lemma {:induction false} RevIsLastSeq(r: Rules, h: seq<Entry>, k: Key)
    ensures Redo(r, h, k).None? <==> forall i | 0 <= i < |h| :: h[i].change.key != k
    ensures Redo(r, h, k).Some? ==>
              var rev := Redo(r, h, k).value.rev;
              && 1 <= rev <= |h| && h[rev - 1].change.key == k
              && forall i | rev <= i < |h| :: h[i].change.key != k
    decreases |h|
  {
    if h != [] {
      RevIsLastSeq(r, h[..|h| - 1], k);
      assert forall i | 0 <= i < |h| - 1 :: h[..|h| - 1][i] == h[i];
    }
  }

  // ---------------------------------------------------------------------
  // What is logged and what is stored
  // ---------------------------------------------------------------------

  /** The value last logged for a column, as it was sent. */
  function LastLogged(cs: seq<Change>, k: Key, f: Field): Option<Value>
    decreases |cs|
  {
    if cs == [] then None
    else
      var last := cs[|cs| - 1];
      if Writes(last, k, Column(f)) then Lookup(last.patch, f) else LastLogged(cs[..|cs| - 1], k, f)
  }

  function Canonically(r: Rules, f: Field, v: Option<Value>): Option<Value> {
    if v.Some? then Some(Canonical(r, f, v.value)) else None
  }

  /** What the table shows in a slot after more entries: a column the last value
      logged for it, parsed; presence and the deleted flag the last one written. */
  function StoredLast(r: Rules, cs: seq<Change>, k: Key, slot: Slot): Value
    requires !NoWrite(cs, k, slot)
  {
    if slot.Column? then Coerce(slot.f, Canonically(r, slot.f, LastLogged(cs, k, slot.f))) else LastWritten(cs, k, slot)
  }

  lemma {:induction false} LastWrittenIsLogged(cs: seq<Change>, k: Key, f: Field)
    requires !NoWrite(cs, k, Column(f))
    ensures LastWritten(cs, k, Column(f)) == Coerce(f, LastLogged(cs, k, f))
    decreases |cs|
  {
    if !Writes(cs[|cs| - 1], k, Column(f)) {
      NoWriteNext(cs, k, Column(f));
      LastWrittenIsLogged(cs[..|cs| - 1], k, f);
    }
  }

  lemma {:induction false} NoWriteNext(cs: seq<Change>, k: Key, slot: Slot)
    requires cs != []
    ensures NoWrite(cs, k, slot) <==> NoWrite(cs[..|cs| - 1], k, slot) && !Writes(cs[|cs| - 1], k, slot)
  {
    assert forall i | 0 <= i < |cs| - 1 :: cs[..|cs| - 1][i] == cs[i];
  }

  lemma {:induction false} RedoStepReads(r: Rules, s: Option<Row>, k: Key, e: Entry, seqNo: nat, slot: Slot)
    requires ValidSlot(k.entity, slot)
    ensures Read(DataOf(RedoStep(r, s, k, e, seqNo)), slot)
         == if !Writes(e.change, k, slot) then Read(DataOf(s), slot)
            else if slot.Column? then Coerce(slot.f, Canonically(r, slot.f, Lookup(e.change.patch, slot.f)))
            else Written(e.change, slot)
  {
  }

  lemma {:induction false} ChangesLast(h: seq<Entry>, i: nat)
    requires i < |h|
    ensures var cs, n := Changes(h[i..]), |h| - 1;
            cs != [] && cs[..|cs| - 1] == Changes(h[..n][i..]) && cs[|cs| - 1] == h[n].change
  {
    var cs, n := Changes(h[i..]), |h| - 1;
    assert |cs| == n - i + 1 && |Changes(h[..n][i..])| == n - i;
    forall j | 0 <= j < n - i ensures cs[j] == Changes(h[..n][i..])[j] {
      assert h[i..][j] == h[i + j] == h[..n][i..][j];
    }
  }

  lemma {:induction false} StoredLastNext(r: Rules, cs: seq<Change>, k: Key, slot: Slot)
    requires cs != [] && !NoWrite(cs, k, slot)
    ensures var n := |cs| - 1;
            if !Writes(cs[n], k, slot) then
              !NoWrite(cs[..n], k, slot) && StoredLast(r, cs, k, slot) == StoredLast(r, cs[..n], k, slot)
            else
              StoredLast(r, cs, k, slot)
              == if slot.Column? then Coerce(slot.f, Canonically(r, slot.f, Lookup(cs[n].patch, slot.f)))
                 else Written(cs[n], slot)
  {
    NoWriteNext(cs, k, slot);
    hide NoWrite, Writes, Written, Canonically, Coerce;
  }

  /** Last writer wins in the tables too. */
  lemma {:induction false} RedoReads(r: Rules, h: seq<Entry>, i: nat, k: Key, slot: Slot)
    requires i <= |h| && ValidSlot(k.entity, slot)
    ensures Read(DataOf(Redo(r, h, k)), slot)
         == if NoWrite(Changes(h[i..]), k, slot) then Read(DataOf(Redo(r, h[..i], k)), slot)
            else StoredLast(r, Changes(h[i..]), k, slot)
    decreases |h|
  {
    if i == |h| {
      assert h[..i] == h && Changes(h[i..]) == [];
    } else {
      hide RedoStep, NoWrite, Writes, Read, Canonically, Written, Changes, StoredLast, Coerce;
      var n := |h| - 1;
      var front := h[..n];
      RedoReads(r, front, i, k, slot);
      assert front[..i] == h[..i];
      var cs := Changes(h[i..]);
      ChangesLast(h, i);
      NoWriteNext(cs, k, slot);
      if !NoWrite(cs, k, slot) {
        StoredLastNext(r, cs, k, slot);
      }
      RedoStepReads(r, Redo(r, front, k), k, h[n], |h|, slot);
    }
  }
}
