/** Retried and split requests: an operation is settled by its first handling. */
module Batches {
  import opened Prelude
  import opened Rows
  import opened Mutations
  import opened Server

  /** Handling `op` again changes nothing and is answered with `ack`. */
  predicate Settled(s: Account, d: Device, op: Mutation, ack: Ack)
    requires d in s.marks
  {
    if op.opId in s.receipts then
      && s.receipts[op.opId].device == d
      && s.receipts[op.opId].clientSeq == op.clientSeq
      && ack == Ack(op.opId, Done(s.receipts[op.opId].outcome))
    else
      op.clientSeq <= s.marks[d] && !SeqTaken(s.receipts, d, op.clientSeq) && ack == Ack(op.opId, AlreadyProcessed)
  }

  lemma {:induction false} HandleSettles(r: Rules, s: Account, d: Device, op: Mutation)
    requires d in s.marks && Handle(r, s, d, op).Ok?
    ensures var (after, ack) := Handle(r, s, d, op).value;
            d in after.marks && Settled(after, d, op, ack)
  {
    hide ApplyMutation;
  }

  lemma {:induction false} HandleKeepsSettled(r: Rules, s: Account, d: Device, op: Mutation, other: Mutation, ack: Ack)
    requires d in s.marks && Handle(r, s, d, op).Ok? && Settled(s, d, other, ack)
    requires op.opId != other.opId && op.clientSeq != other.clientSeq
    ensures d in Handle(r, s, d, op).value.0.marks && Settled(Handle(r, s, d, op).value.0, d, other, ack)
  {
    hide ApplyMutation;
  }

  lemma {:induction false} ProcessSettles(r: Rules, s: Account, d: Device, ops: seq<Mutation>)
    requires d in s.marks && Increasing(ops) && DistinctIds(ops) && Process(r, s, d, ops).Ok?
    ensures var (after, acks) := Process(r, s, d, ops).value;
            forall i | 0 <= i < |ops| :: Settled(after, d, ops[i], acks[i])
    decreases |ops|
  {
    if ops != [] {
      var front := ops[..|ops| - 1];
      ProcessSettles(r, s, d, front);
      var (mid, acks) := Process(r, s, d, front).value;
      HandleSettles(r, mid, d, ops[|ops| - 1]);
      forall i | 0 <= i < |front|
        ensures Settled(Process(r, s, d, ops).value.0, d, ops[i], acks[i])
      {
        assert front[i] == ops[i];
        HandleKeepsSettled(r, mid, d, ops[|ops| - 1], ops[i], acks[i]);
      }
    }
  }

  lemma {:induction false} SettledReplays(r: Rules, s: Account, d: Device, ops: seq<Mutation>, acks: seq<Ack>)
    requires d in s.marks && |acks| == |ops|
    requires forall i | 0 <= i < |ops| :: Settled(s, d, ops[i], acks[i])
    ensures Process(r, s, d, ops) == Ok((s, acks))
    decreases |ops|
  {
    if ops != [] {
      var n := |ops| - 1;
      SettledReplays(r, s, d, ops[..n], acks[..n]);
      assert Settled(s, d, ops[n], acks[n]);
      assert acks == acks[..n] + [acks[n]];
    }
  }

  lemma {:induction false} ProcessConcat(r: Rules, s: Account, d: Device, a: seq<Mutation>, b: seq<Mutation>)
    requires d in s.marks
    ensures var first := Process(r, s, d, a);
            Process(r, s, d, a + b)
            == if first.Err? then first
               else
                 var second := Process(r, first.value.0, d, b);
                 if second.Err? then second else Ok((second.value.0, first.value.1 + second.value.1))
    decreases |b|
  {
    if b == [] {
      assert a + b == a;
      if Process(r, s, d, a).Ok? {
        var acks := Process(r, s, d, a).value.1;
        assert acks + [] == acks;
      }
    } else {
      var n := |b| - 1;
      ProcessConcat(r, s, d, a, b[..n]);
      assert (a + b)[..|a + b| - 1] == a + b[..n] && (a + b)[|a + b| - 1] == b[n];
      var first, front := Process(r, s, d, a), Process(r, s, d, a + b[..n]);
      if front.Ok? {
        var second := Process(r, first.value.0, d, b[..n]);
        var last := Handle(r, front.value.0, d, b[n]);
        if last.Ok? {
          assert front.value.1 + [last.value.1] == first.value.1 + (second.value.1 + [last.value.1]);
        }
      }
    }
  }

  /** Sending `b1` and, its answer lost, `b1 + b2` reaches the state and gets
      the answer of sending `b1 + b2` once. */
  lemma {:induction false} SplitBatchIsOneBatch(r: Rules, s: Account, d: Device, b1: seq<Mutation>, b2: seq<Mutation>,
                             lostCursor: nat, lostLimit: Option<nat>, cursor: nat, limit: Option<nat>)
    requires ServeSync(r, s, d, cursor, b1 + b2, limit).Ok?
    requires CheckCaller(s, d, lostCursor).None? && PageLimit(lostLimit).Some?
    ensures var lost := ServeSync(r, s, d, lostCursor, b1, lostLimit);
            && lost.Ok?
            && ServeSync(r, lost.value.0, d, cursor, b1 + b2, limit) == ServeSync(r, s, d, cursor, b1 + b2, limit)
  {
    hide Process, Page;
    CheckedPrefix(b1, b2);
    SplitProcess(r, s, d, b1, b2);
    ProcessOnlyAdds(r, s, d, b1);
  }

  lemma {:induction false} CheckedPrefix(b1: seq<Mutation>, b2: seq<Mutation>)
    requires CheckBatch(b1 + b2).None?
    ensures CheckBatch(b1).None? && Increasing(b1) && DistinctIds(b1)
  {
    assert forall i | 0 <= i < |b1| :: b1[i] == (b1 + b2)[i];
  }

  lemma {:induction false} SplitProcess(r: Rules, s: Account, d: Device, b1: seq<Mutation>, b2: seq<Mutation>)
    requires d in s.marks && Increasing(b1) && DistinctIds(b1) && Process(r, s, d, b1 + b2).Ok?
    ensures Process(r, s, d, b1).Ok? && d in Process(r, s, d, b1).value.0.marks
    ensures Process(r, Process(r, s, d, b1).value.0, d, b1 + b2) == Process(r, s, d, b1 + b2)
  {
    ProcessConcat(r, s, d, b1, b2);
    hide Process, Increasing, DistinctIds;
    var (mid, acks) := Process(r, s, d, b1).value;
    ProcessSettles(r, s, d, b1);
    SettledReplays(r, mid, d, b1, acks);
    ProcessConcat(r, mid, d, b1, b2);
  }

  predicate OnlyAdds(s: Account, after: Account, d: Device)
    requires d in s.marks
  {
    && after.minAvail == s.minAvail && after.revoked == s.revoked && after.closed == s.closed
    && s.nextSeq <= after.nextSeq
    && s.marks.Keys == after.marks.Keys && s.marks[d] <= after.marks[d]
  }

  lemma {:induction false} HandleOnlyAdds(r: Rules, s: Account, d: Device, op: Mutation)
    requires d in s.marks && Handle(r, s, d, op).Ok?
    ensures OnlyAdds(s, Handle(r, s, d, op).value.0, d)
  {
    hide ApplyMutation;
  }

  lemma {:induction false} ProcessOnlyAdds(r: Rules, s: Account, d: Device, ops: seq<Mutation>)
    requires d in s.marks && Process(r, s, d, ops).Ok?
    ensures OnlyAdds(s, Process(r, s, d, ops).value.0, d)
    decreases |ops|
  {
    hide Handle;
    if ops != [] {
      ProcessOnlyAdds(r, s, d, ops[..|ops| - 1]);
      HandleOnlyAdds(r, Process(r, s, d, ops[..|ops| - 1]).value.0, d, ops[|ops| - 1]);
    }
  }
}
