/**
 Exactly-once execution of one device's operations, whatever is retried, lost
 or pruned: what a site knows of a device whose operations are numbered 1, 2, 3
 and so on.
 */
module Devices {
  import opened Prelude
  import opened Rows
  import opened Mutations
  import opened Server
  import opened Ledger

  /** The operations a device ever queued, in order. */
  ghost predicate Numbering(d: Device, issued: seq<Mutation>) {
    forall i | 0 <= i < |issued| :: issued[i].opId == OpId(d, i + 1) && issued[i].clientSeq == i + 1
  }

  /** Ids are drawn by the device that uses them, and every receipt and log entry
      is that of an operation that was executed. */
  ghost predicate Tagged(w: Site) {
    && (forall o | o in w.account.receipts ::
          && w.account.receipts[o].device == o.device
          && o in w.outcomes && w.outcomes[o] == w.account.receipts[o].outcome)
    && (forall o | o in w.outcomes :: o.device in w.account.marks && 1 <= w.account.marks[o.device])
    && (forall i | 0 <= i < |w.history| :: w.history[i].opId in w.outcomes)
  }

  /** The entry an applied operation left in the history. */
  ghost predicate Logged(h: seq<Entry>, op: Mutation, seqNo: nat) {
    && 1 <= seqNo <= |h|
    && h[seqNo - 1].opId == op.opId
    && h[seqNo - 1].change.key == op.change.key
    && h[seqNo - 1].change.kind == op.change.kind
  }

  function LogPlace(w: Site, o: OpId): Option<nat> {
    if o in w.outcomes && w.outcomes[o].Applied? then Some(w.outcomes[o].seqNo) else None
  }

  ghost predicate InClientOrder(w: Site, d: Device) {
    forall n: int, m: int | n < m && LogPlace(w, OpId(d, n)).Some? && LogPlace(w, OpId(d, m)).Some? ::
      LogPlace(w, OpId(d, n)).value < LogPlace(w, OpId(d, m)).value
  }

  ghost predicate ExactlyOnce(w: Site, d: Device, issued: seq<Mutation>) {
    && Numbering(d, issued)
    && d in w.account.marks && w.account.marks[d] <= |issued|
    && (forall n: int :: OpId(d, n) in w.outcomes <==> 1 <= n <= w.account.marks[d])
    && (forall o | o in w.account.receipts && o.device == d :: w.account.receipts[o].clientSeq == o.n)
    && (forall n | 1 <= n <= w.account.marks[d] && LogPlace(w, OpId(d, n)).Some? ::
          Logged(w.history, issued[n - 1], LogPlace(w, OpId(d, n)).value))
    && (forall i | 0 <= i < |w.history| && w.history[i].opId.device == d ::
          LogPlace(w, w.history[i].opId) == Some(i + 1))
    && InClientOrder(w, d)
  }

  /** What an acknowledgement claims is what happened. */
  ghost predicate Truthful(w: Site, ack: Ack) {
    && ack.opId in w.outcomes
    && (ack.status.Done? ==> ack.status.outcome == w.outcomes[ack.opId])
  }

  /** History grows, and what became of an operation of `d` is settled. */
  ghost predicate Remembers(w: Site, after: Site, d: Device) {
    && w.history <= after.history
    && (forall o | o in w.outcomes && o.device == d :: o in after.outcomes && after.outcomes[o] == w.outcomes[o])
  }

  ghost predicate AcksFit(w: Site, ops: seq<Mutation>, acks: seq<Ack>) {
    && |acks| == |ops|
    && forall i | 0 <= i < |ops| :: acks[i].opId == ops[i].opId && Truthful(w, acks[i])
  }

  /** What running a new operation changes. */
  ghost predicate Ran(w: Site, after: Site, d: Device, op: Mutation, outcome: Outcome)
    requires d in w.account.marks
  {
    && op.opId !in w.account.receipts && op.clientSeq == w.account.marks[d] + 1
    && after.account.receipts == w.account.receipts[op.opId := Receipt(d, op.clientSeq, outcome)]
    && after.account.marks == w.account.marks[d := w.account.marks[d] + 1]
    && after.outcomes == w.outcomes[op.opId := outcome]
    && (outcome.Applied? ==>
          && outcome.seqNo == |w.history| + 1
          && |after.history| == |w.history| + 1 && after.history[..|w.history|] == w.history
          && Logged(after.history, op, outcome.seqNo))
    && (outcome.Rejected? ==> after.history == w.history)
  }

  lemma {:induction false} ExecuteRuns(r: Rules, w: Site, d: Device, op: Mutation)
    requires d in w.account.marks && LedgerInv(r, w.account, w.history)
    requires op.opId !in w.account.receipts && op.clientSeq == w.account.marks[d] + 1
    ensures var (next, outcome) := Execute(r, w.account, d, op);
            && op.opId in next.receipts && next.receipts[op.opId].outcome == outcome
            && d in next.marks && w.account.marks[d] < next.marks[d]
            && Ran(w, Site(next, w.history + Appended(w.account, next), w.outcomes[op.opId := outcome]), d, op, outcome)
  {
    hide Execute, LedgerInv, Appended;
    ExecuteKeepsLedger(r, w.account, d, op, w.history);
    ExecuteNotes(r, w.account, d, op);
    assert w.history + [] == w.history;
  }

  lemma {:induction false} ExecuteNotes(r: Rules, s: Account, d: Device, op: Mutation)
    requires d in s.marks
    ensures var (next, outcome) := Execute(r, s, d, op);
            && next.receipts == s.receipts[op.opId := Receipt(d, op.clientSeq, outcome)]
            && next.marks == s.marks[d := s.marks[d] + 1]
  {
    hide ApplyMutation;
  }

  /** An operation is either run, or leaves the site as it was. */
  lemma {:induction false} SiteHandleRuns(r: Rules, w: Site, d: Device, op: Mutation)
    requires d in w.account.marks && SiteInv(r, w) && SiteHandle(r, w, d, op).Ok?
    ensures var (after, ack) := SiteHandle(r, w, d, op).value;
            && ack.opId == op.opId
            && if op.opId in w.account.receipts || op.clientSeq <= w.account.marks[d] then after == w
               else ack.status.Done? && Ran(w, after, d, op, ack.status.outcome)
  {
    hide Execute, LedgerInv, Ran;
    if op.opId in w.account.receipts || op.clientSeq <= w.account.marks[d] {
      assert w.history + [] == w.history;
    } else {
      ExecuteRuns(r, w, d, op);
    }
  }

  lemma {:induction false} RanKeepsTags(w: Site, after: Site, d: Device, op: Mutation, outcome: Outcome)
    requires d in w.account.marks && op.opId.device == d && Tagged(w) && Ran(w, after, d, op, outcome)
    ensures Tagged(after)
  {
    forall i | 0 <= i < |after.history| ensures after.history[i].opId in after.outcomes {
      if i < |w.history| {
        assert after.history[..|w.history|][i] == w.history[i];
      }
    }
  }

  /** Running an operation of another device. */
  lemma {:induction false} RanElsewhere(w: Site, after: Site, e: Device, op: Mutation, outcome: Outcome, d: Device,
                                        issued: seq<Mutation>)
    requires e in w.account.marks && op.opId.device == e && e != d && Ran(w, after, e, op, outcome)
    requires ExactlyOnce(w, d, issued)
    ensures ExactlyOnce(after, d, issued)
  {
    hide Logged;
    forall n: int ensures LogPlace(after, OpId(d, n)) == LogPlace(w, OpId(d, n)) {
    }
    RanElsewhereLogs(w, after, e, op, outcome, d, issued);
  }

  lemma {:induction false} RanElsewhereLogs(w: Site, after: Site, e: Device, op: Mutation, outcome: Outcome, d: Device,
                                            issued: seq<Mutation>)
    requires e in w.account.marks && op.opId.device == e && e != d && Ran(w, after, e, op, outcome)
    requires ExactlyOnce(w, d, issued)
    ensures forall i | 0 <= i < |after.history| && after.history[i].opId.device == d ::
              LogPlace(after, after.history[i].opId) == Some(i + 1)
    ensures forall n | 1 <= n <= w.account.marks[d] && LogPlace(w, OpId(d, n)).Some? ::
              Logged(after.history, issued[n - 1], LogPlace(w, OpId(d, n)).value)
  {
    hide InClientOrder, Numbering;
    assert forall i | 0 <= i < |w.history| :: after.history[i] == w.history[i];
    forall i | 0 <= i < |after.history| && after.history[i].opId.device == d
      ensures LogPlace(after, after.history[i].opId) == Some(i + 1)
    {
      assert LogPlace(w, w.history[i].opId) == Some(i + 1);
    }
  }

  /** Running the next operation of this device. */
  lemma {:induction false} RanNext(w: Site, after: Site, d: Device, issued: seq<Mutation>, n: nat, outcome: Outcome)
    requires ExactlyOnce(w, d, issued) && 1 <= n <= |issued| && n == w.account.marks[d] + 1
    requires Ran(w, after, d, issued[n - 1], outcome)
    ensures ExactlyOnce(after, d, issued)
  {
    hide Logged, InClientOrder;
    assert issued[n - 1].opId == OpId(d, n);
    RanNextLogs(w, after, d, issued, n, outcome);
    RanNextInOrder(w, after, d, issued, n, outcome);
  }

  lemma {:induction false} RanNextLogs(w: Site, after: Site, d: Device, issued: seq<Mutation>, n: nat, outcome: Outcome)
    requires ExactlyOnce(w, d, issued) && 1 <= n <= |issued| && n == w.account.marks[d] + 1
    requires Ran(w, after, d, issued[n - 1], outcome)
    ensures forall i | 0 <= i < |after.history| && after.history[i].opId.device == d ::
              LogPlace(after, after.history[i].opId) == Some(i + 1)
    ensures forall m | 1 <= m <= n && LogPlace(after, OpId(d, m)).Some? ::
              Logged(after.history, issued[m - 1], LogPlace(after, OpId(d, m)).value)
  {
    hide InClientOrder;
    assert issued[n - 1].opId == OpId(d, n);
    assert forall m | m != n :: LogPlace(after, OpId(d, m)) == LogPlace(w, OpId(d, m));
    assert forall i | 0 <= i < |w.history| :: after.history[i] == w.history[i];
    forall i | 0 <= i < |after.history| && after.history[i].opId.device == d
      ensures LogPlace(after, after.history[i].opId) == Some(i + 1)
    {
      if i < |w.history| {
        assert LogPlace(w, w.history[i].opId) == Some(i + 1);
        assert w.history[i].opId == OpId(d, w.history[i].opId.n);
      }
    }
  }

  lemma {:induction false} RanNextInOrder(w: Site, after: Site, d: Device, issued: seq<Mutation>, n: nat,
                                          outcome: Outcome)
    requires ExactlyOnce(w, d, issued) && 1 <= n <= |issued| && n == w.account.marks[d] + 1
    requires Ran(w, after, d, issued[n - 1], outcome)
    ensures InClientOrder(after, d)
  {
    forall m, k | m < k && LogPlace(after, OpId(d, m)).Some? && LogPlace(after, OpId(d, k)).Some?
      ensures LogPlace(after, OpId(d, m)).value < LogPlace(after, OpId(d, k)).value
    {
      assert OpId(d, k) in after.outcomes && OpId(d, m) in w.outcomes;
      assert 1 <= m <= w.account.marks[d];
      assert Logged(w.history, issued[m - 1], LogPlace(w, OpId(d, m)).value);
    }
  }

  /** An operation whose number is at most one past the watermark is always
      accepted, whatever receipts were pruned. */
  lemma {:induction false} NoMismatch(r: Rules, w: Site, d: Device, issued: seq<Mutation>, n: nat)
    requires Tagged(w) && ExactlyOnce(w, d, issued)
    requires 1 <= n <= |issued| && n <= w.account.marks[d] + 1
    ensures Handle(r, w.account, d, issued[n - 1]).Ok?
    ensures var ack := Handle(r, w.account, d, issued[n - 1]).value.1;
            && (n <= w.account.marks[d] ==> Truthful(w, ack))
            && (n == w.account.marks[d] + 1 ==> issued[n - 1].opId !in w.account.receipts)
  {
    hide Execute;
    var op := issued[n - 1];
    assert OpId(d, n) == op.opId;
    if SeqTaken(w.account.receipts, d, n) {
      var o :| o in w.account.receipts && w.account.receipts[o].device == d && w.account.receipts[o].clientSeq == n;
      assert o == OpId(d, n);
    }
  }

  lemma {:induction false} RanRemembers(w: Site, after: Site, d: Device, issued: seq<Mutation>, n: nat,
                                        outcome: Outcome)
    requires ExactlyOnce(w, d, issued) && 1 <= n <= |issued| && n == w.account.marks[d] + 1
    requires Ran(w, after, d, issued[n - 1], outcome)
    ensures Remembers(w, after, d) && Truthful(after, Ack(issued[n - 1].opId, Done(outcome)))
  {
    assert issued[n - 1].opId == OpId(d, n);
  }

  /** All that must hold of a site for a device to be served. */
  ghost predicate Serving(r: Rules, w: Site, d: Device, issued: seq<Mutation>) {
    SiteInv(r, w) && Tagged(w) && ExactlyOnce(w, d, issued)
  }

  lemma {:induction false} HandleOwn(r: Rules, w: Site, d: Device, issued: seq<Mutation>, n: nat)
    requires Serving(r, w, d, issued)
    requires 1 <= n <= |issued| && n <= w.account.marks[d] + 1
    ensures SiteHandle(r, w, d, issued[n - 1]).Ok?
    ensures var (after, ack) := SiteHandle(r, w, d, issued[n - 1]).value;
            && Serving(r, after, d, issued)
            && after.account.marks[d] == Max(w.account.marks[d], n)
            && ack.opId == issued[n - 1].opId && Truthful(after, ack)
            && Remembers(w, after, d)
  {
    NoMismatch(r, w, d, issued, n);
    SiteHandleRuns(r, w, d, issued[n - 1]);
    SiteHandleKeepsLedger(r, w, d, issued[n - 1]);
    assert issued[n - 1].opId.device == d;
    hide Handle, SiteHandle, SiteInv, ExactlyOnce;
    var (after, ack) := SiteHandle(r, w, d, issued[n - 1]).value;
    if w.account.marks[d] < n {
      RanNext(w, after, d, issued, n, ack.status.outcome);
      RanKeepsTags(w, after, d, issued[n - 1], ack.status.outcome);
      RanRemembers(w, after, d, issued, n, ack.status.outcome);
    }
  }

  /** `ops` is the run of queued operations that follows the first `i`. */
  ghost predicate RunOf(issued: seq<Mutation>, i: nat, ops: seq<Mutation>) {
    i + |ops| <= |issued| && forall t | 0 <= t < |ops| :: ops[t] == issued[i + t]
  }

  /** Any contiguous run of a device's operations that starts at or below its
      watermark is accepted, executed once, and truthfully answered. */
  lemma {:induction false} RunAccepted(r: Rules, w: Site, d: Device, issued: seq<Mutation>, i: nat, ops: seq<Mutation>)
    requires d in w.account.marks && i <= w.account.marks[d] && RunOf(issued, i, ops)
    requires Serving(r, w, d, issued)
    ensures SiteProcess(r, w, d, ops).Ok?
    ensures var (after, acks) := SiteProcess(r, w, d, ops).value;
            && Serving(r, after, d, issued)
            && after.account.marks[d] == Max(w.account.marks[d], i + |ops|)
            && Remembers(w, after, d)
            && AcksFit(after, ops, acks)
    decreases |ops|
  {
    hide Serving, Handle, Process, SiteHandle, Truthful, AllOf;
    RunIsOwn(r, w, d, issued, i, ops);
    if ops == [] {
      assert SiteProcess(r, w, d, ops) == Ok((w, []));
    } else {
      hide Remembers, AcksFit;
      RunAccepted(r, w, d, issued, i, ops[..|ops| - 1]);
      var (front, acks) := SiteProcess(r, w, d, ops[..|ops| - 1]).value;
      HandleOwn(r, front, d, issued, i + |ops|);
      var (after, ack) := SiteHandle(r, front, d, ops[|ops| - 1]).value;
      RemembersMore(w, front, after, d);
      AcksMore(front, after, d, ops, acks, ack);
    }
  }

  lemma {:induction false} RunIsOwn(r: Rules, w: Site, d: Device, issued: seq<Mutation>, i: nat, ops: seq<Mutation>)
    requires Serving(r, w, d, issued) && RunOf(issued, i, ops)
    ensures AllOf(d, ops)
  {
  }

  lemma {:induction false} RemembersMore(w: Site, front: Site, after: Site, d: Device)
    requires Remembers(w, front, d) && Remembers(front, after, d)
    ensures Remembers(w, after, d)
  {
  }

  lemma {:induction false} AcksMore(front: Site, after: Site, d: Device, ops: seq<Mutation>, acks: seq<Ack>, ack: Ack)
    requires ops != [] && AcksFit(front, ops[..|ops| - 1], acks) && Remembers(front, after, d)
    requires AllOf(d, ops) && ack.opId == ops[|ops| - 1].opId && Truthful(after, ack)
    ensures AcksFit(after, ops, acks + [ack])
  {
  }

  ghost predicate AllOf(d: Device, ops: seq<Mutation>) {
    forall i | 0 <= i < |ops| :: ops[i].opId.device == d
  }

  /** Serving any device keeps the tags and touches no other watermark. */
  lemma {:induction false} ProcessKeepsTags(r: Rules, w: Site, e: Device, ops: seq<Mutation>)
    requires e in w.account.marks && AllOf(e, ops)
    requires SiteInv(r, w) && Tagged(w) && SiteProcess(r, w, e, ops).Ok?
    ensures var after := SiteProcess(r, w, e, ops).value.0;
            && SiteInv(r, after) && Tagged(after) && w.history <= after.history
            && after.account.marks.Keys == w.account.marks.Keys
            && (forall d | d in w.account.marks && d != e :: after.account.marks[d] == w.account.marks[d])
            && w.account.marks[e] <= after.account.marks[e]
    decreases |ops|
  {
    hide SiteInv, Handle, Process, SiteHandle, Tagged;
    if ops != [] {
      ProcessKeepsTags(r, w, e, ops[..|ops| - 1]);
      var front := SiteProcess(r, w, e, ops[..|ops| - 1]).value.0;
      HandleKeepsTags(r, front, e, ops[|ops| - 1]);
    }
  }

  lemma {:induction false} HandleKeepsTags(r: Rules, w: Site, e: Device, op: Mutation)
    requires e in w.account.marks && op.opId.device == e
    requires SiteInv(r, w) && Tagged(w) && SiteHandle(r, w, e, op).Ok?
    ensures var after := SiteHandle(r, w, e, op).value.0;
            && SiteInv(r, after) && Tagged(after) && w.history <= after.history
            && (after.account.marks == w.account.marks
                || after.account.marks == w.account.marks[e := w.account.marks[e] + 1])
  {
    hide SiteHandle, Handle, SiteInv, Tagged, Ran;
    SiteHandleRuns(r, w, e, op);
    SiteHandleKeepsLedger(r, w, e, op);
    var (after, ack) := SiteHandle(r, w, e, op).value;
    if !(op.opId in w.account.receipts || op.clientSeq <= w.account.marks[e]) {
      RanKeepsTags(w, after, e, op, ack.status.outcome);
      RanMoves(w, after, e, op, ack.status.outcome);
    }
  }

  lemma {:induction false} RanMoves(w: Site, after: Site, d: Device, op: Mutation, outcome: Outcome)
    requires d in w.account.marks && Ran(w, after, d, op, outcome)
    ensures w.history <= after.history && after.account.marks == w.account.marks[d := w.account.marks[d] + 1]
  {
    hide Logged;
    if outcome.Applied? {
      assert after.history == after.history[..|w.history|] + after.history[|w.history|..];
    }
  }

  /** Serving one device changes nothing another device relies on. */
  lemma {:induction false} ProcessElsewhere(r: Rules, w: Site, e: Device, ops: seq<Mutation>, d: Device,
                                            issued: seq<Mutation>)
    requires e in w.account.marks && AllOf(e, ops) && d != e
    requires Serving(r, w, d, issued) && SiteProcess(r, w, e, ops).Ok?
    ensures Serving(r, SiteProcess(r, w, e, ops).value.0, d, issued)
    ensures Remembers(w, SiteProcess(r, w, e, ops).value.0, d)
    decreases |ops|
  {
    hide Handle, Process, SiteHandle, Serving;
    if ops != [] {
      hide Remembers;
      ProcessElsewhere(r, w, e, ops[..|ops| - 1], d, issued);
      var front := SiteProcess(r, w, e, ops[..|ops| - 1]).value.0;
      HandleElsewhere(r, front, e, ops[|ops| - 1], d, issued);
      RemembersMore(w, front, SiteHandle(r, front, e, ops[|ops| - 1]).value.0, d);
    }
  }

  lemma {:induction false} HandleElsewhere(r: Rules, w: Site, e: Device, op: Mutation, d: Device, issued: seq<Mutation>)
    requires e in w.account.marks && op.opId.device == e && d != e
    requires Serving(r, w, d, issued) && SiteHandle(r, w, e, op).Ok?
    ensures Serving(r, SiteHandle(r, w, e, op).value.0, d, issued)
    ensures Remembers(w, SiteHandle(r, w, e, op).value.0, d)
  {
    HandleKeepsTags(r, w, e, op);
    SiteHandleRuns(r, w, e, op);
    hide SiteHandle, Handle, SiteInv, Tagged, ExactlyOnce;
    var (after, ack) := SiteHandle(r, w, e, op).value;
    if !(op.opId in w.account.receipts || op.clientSeq <= w.account.marks[e]) {
      RanElsewhere(w, after, e, op, ack.status.outcome, d, issued);
    }
  }
}
