/** The outbox is always the tail of what the device ever queued. */
module Outbox {
  import opened Prelude
  import opened Rows
  import opened Mutations
  import opened Server
  import opened Ledger
  import opened Devices
  import opened Client

  /** The pending operations are those after the first `done`, and what stays
      behind marked as refused was rejected by the server with that code. */
  ghost predicate OutboxInv(w: Site, d: Device, ms: seq<Stored>, issued: seq<Mutation>, done: nat) {
    && done <= |issued| && PendingOps(ms) == issued[done..]
    && (forall m | m in ms && m.status.Refused? ::
          && m.op.opId.device == d && m.op.opId in w.outcomes
          && w.outcomes[m.op.opId] == Rejected(m.status.code))
  }

  lemma {:induction false} OutboxRemembers(w: Site, after: Site, d: Device, ms: seq<Stored>, issued: seq<Mutation>,
                                           done: nat)
    requires OutboxInv(w, d, ms, issued, done) && Remembers(w, after, d)
    ensures OutboxInv(after, d, ms, issued, done)
  {
  }

  lemma {:induction false} OutboxGrows(w: Site, d: Device, ms: seq<Stored>, issued: seq<Mutation>, done: nat,
                                       op: Mutation)
    requires OutboxInv(w, d, ms, issued, done)
    ensures OutboxInv(w, d, ms + [Stored(op, Pending)], issued + [op], done)
  {
    PendingAppend(ms, Stored(op, Pending));
  }

  lemma {:induction false} OutboxDiscards(w: Site, d: Device, ms: seq<Stored>, issued: seq<Mutation>, done: nat,
                                          ids: set<OpId>)
    requires OutboxInv(w, d, ms, issued, done)
    ensures OutboxInv(w, d, WithoutRefused(ms, ids), issued, done)
  {
    DiscardingKeepsPending(ms, ids);
  }

  ghost predicate Distinct(ops: seq<Mutation>) {
    forall i, j | 0 <= i < j < |ops| :: ops[i].opId != ops[j].opId
  }

  lemma {:induction false} WithoutHead(ops: seq<Mutation>)
    requires ops != [] && Distinct(ops)
    ensures Without(ops, ops[0].opId) == ops[1..]
    decreases |ops|
  {
    if |ops| > 1 {
      var front := ops[..|ops| - 1];
      assert Distinct(front) by {
        assert forall i | 0 <= i < |front| :: front[i] == ops[i];
      }
      WithoutHead(front);
      assert front[1..] + [ops[|ops| - 1]] == ops[1..];
    }
  }

  /** Acknowledging the first operations takes exactly those off the outbox. */
  lemma {:induction false} SettleAllRemoves(ms: seq<Stored>, acks: seq<Ack>)
    requires Distinct(PendingOps(ms)) && |acks| <= |PendingOps(ms)|
    requires forall i | 0 <= i < |acks| :: acks[i].opId == PendingOps(ms)[i].opId
    ensures PendingOps(SettleAll(ms, acks)) == PendingOps(ms)[|acks|..]
    decreases |acks|
  {
    if acks != [] {
      var n := |acks| - 1;
      SettleAllRemoves(ms, acks[..n]);
      var rest := PendingOps(ms)[n..];
      SettleRemoves(SettleAll(ms, acks[..n]), acks[n]);
      assert Distinct(rest) && rest[0] == PendingOps(ms)[n];
      WithoutHead(rest);
    }
  }

  ghost predicate RefusedBy(m: Stored, acks: seq<Ack>) {
    m.status.Refused? && Ack(m.op.opId, Done(Rejected(m.status.code))) in acks
  }

  lemma {:induction false} SettleOrigin(ms: seq<Stored>, ack: Ack, m: Stored)
    requires m in Settle(ms, ack)
    ensures m in ms || RefusedBy(m, [ack])
    decreases |ms|
  {
    if ms != [] && m in Settle(ms[..|ms| - 1], ack) {
      SettleOrigin(ms[..|ms| - 1], ack, m);
    }
  }

  /** An operation is marked as refused only by an acknowledgement saying so. */
  lemma {:induction false} SettleAllOrigin(ms: seq<Stored>, acks: seq<Ack>, m: Stored)
    requires m in SettleAll(ms, acks)
    ensures m in ms || RefusedBy(m, acks)
    decreases |acks|
  {
    if acks != [] {
      var n := |acks| - 1;
      SettleOrigin(SettleAll(ms, acks[..n]), acks[n], m);
      if m in SettleAll(ms, acks[..n]) {
        SettleAllOrigin(ms, acks[..n], m);
      }
    }
  }

  /** What an acknowledgement makes of its operation: a rejected one stays,
      marked with the code, any other leaves no trace. */
  ghost predicate Tracked(ms: seq<Stored>, op: Mutation, ack: Ack) {
    if ack.status.Done? && ack.status.outcome.Rejected? then Stored(op, Refused(ack.status.outcome.code)) in ms
    else forall m | m in ms :: m.op.opId != op.opId
  }

  lemma {:induction false} SettleTracks(ms: seq<Stored>, ack: Ack, m: Stored)
    requires m in ms
    ensures m.op.opId != ack.opId ==> m in Settle(ms, ack)
    ensures m.op.opId == ack.opId ==> Tracked(Settle(ms, ack), m.op, ack)
    decreases |ms|
  {
    var front, last := ms[..|ms| - 1], ms[|ms| - 1];
    assert ms == front + [last];
    if m.op.opId == ack.opId {
      SettleRefusesOnly(ms, ack);
    }
    if m in front {
      SettleTracks(front, ack, m);
    }
  }

  lemma {:induction false} SettleRefusesOnly(ms: seq<Stored>, ack: Ack)
    ensures forall m | m in Settle(ms, ack) && m.op.opId == ack.opId :: ack.status.Done? && ack.status.outcome.Rejected?
    decreases |ms|
  {
    if ms != [] {
      SettleRefusesOnly(ms[..|ms| - 1], ack);
    }
  }

  lemma {:induction false} TrackedStays(ms: seq<Stored>, op: Mutation, ack: Ack, other: Ack)
    requires Tracked(ms, op, ack) && op.opId != other.opId
    ensures Tracked(Settle(ms, other), op, ack)
  {
    if ack.status.Done? && ack.status.outcome.Rejected? {
      SettleTracks(ms, other, Stored(op, Refused(ack.status.outcome.code)));
    } else {
      forall m | m in Settle(ms, other) ensures m.op.opId != op.opId {
        SettleOrigin(ms, other, m);
      }
    }
  }

  /** No operation is forgotten: one that is not acknowledged stays as it is, and
      every other one is tracked by its own acknowledgement. */
  lemma {:induction false} SettleAllTracks(ms: seq<Stored>, acks: seq<Ack>, m: Stored)
    requires m in ms && forall i, j | 0 <= i < j < |acks| :: acks[i].opId != acks[j].opId
    ensures (forall j | 0 <= j < |acks| :: acks[j].opId != m.op.opId) ==> m in SettleAll(ms, acks)
    ensures forall j | 0 <= j < |acks| && acks[j].opId == m.op.opId :: Tracked(SettleAll(ms, acks), m.op, acks[j])
    decreases |acks|
  {
    hide Tracked, Settle;
    if acks != [] {
      var n := |acks| - 1;
      var front := acks[..n];
      SettleAllTracks(ms, front, m);
      assert forall j | 0 <= j < n :: front[j] == acks[j];
      if acks[n].opId == m.op.opId {
        SettleTracks(SettleAll(ms, front), acks[n], m);
      } else {
        forall j | 0 <= j < n && acks[j].opId == m.op.opId ensures Tracked(SettleAll(ms, acks), m.op, acks[j]) {
          TrackedStays(SettleAll(ms, front), m.op, acks[j], acks[n]);
        }
        if forall j | 0 <= j < |acks| :: acks[j].opId != m.op.opId {
          SettleTracks(SettleAll(ms, front), acks[n], m);
        }
      }
    }
  }

  lemma {:induction false} OutboxSettles(w: Site, d: Device, ms: seq<Stored>, issued: seq<Mutation>, done: nat,
                                         acks: seq<Ack>)
    requires OutboxInv(w, d, ms, issued, done) && Numbering(d, issued)
    requires done + |acks| <= |issued| && AcksFit(w, issued[done..done + |acks|], acks)
    ensures OutboxInv(w, d, SettleAll(ms, acks), issued, done + |acks|)
  {
    hide SettleAll;
    var batch := issued[done..done + |acks|];
    assert forall i | 0 <= i < |acks| :: acks[i].opId == batch[i].opId && batch[i] == PendingOps(ms)[i];
    SettleAllRemoves(ms, acks);
    assert issued[done..][|acks|..] == issued[done + |acks|..];
    hide PendingOps, SettleAll;
    forall m | m in SettleAll(ms, acks) && m.status.Refused?
      ensures m.op.opId.device == d && m.op.opId in w.outcomes && w.outcomes[m.op.opId] == Rejected(m.status.code)
    {
      SettleAllOrigin(ms, acks, m);
      if m !in ms {
        var i :| 0 <= i < |acks| && acks[i] == Ack(m.op.opId, Done(Rejected(m.status.code)));
        assert Truthful(w, acks[i]) && batch[i].opId == acks[i].opId;
      }
    }
  }
}
