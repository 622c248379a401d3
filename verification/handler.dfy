/** The `sync` handler as it is written: receipts read once before the loop,
    counters in local variables, tables committed at the end. */
module Handler {
  import opened Prelude
  import opened Rows
  import opened Mutations
  import opened Server
  import Batches

  lemma {:induction false} IncreasingNext(ops: seq<Mutation>, i: nat)
    requires i < |ops| && Increasing(ops[..i])
    requires 0 < ops[i].clientSeq && (i > 0 ==> ops[i - 1].clientSeq < ops[i].clientSeq)
    ensures Increasing(ops[..i + 1])
  {
    assert forall a | 0 <= a < i :: ops[..i][a] == ops[a];
    forall a, b | 0 <= a < b < i + 1 ensures ops[a].clientSeq < ops[b].clientSeq {
      if b < i {
        assert ops[..i][a].clientSeq < ops[..i][b].clientSeq;
      } else if a < i - 1 {
        assert ops[..i][a].clientSeq < ops[..i][i - 1].clientSeq;
      }
    }
  }

  lemma {:induction false} DistinctNext(ops: seq<Mutation>, i: nat)
    requires i < |ops| && DistinctIds(ops[..i]) && forall j | 0 <= j < i :: ops[j].opId != ops[i].opId
    ensures DistinctIds(ops[..i + 1])
  {
    assert forall a | 0 <= a < i :: ops[..i][a] == ops[a];
  }

  /** `validate_batch`: one pass with the previous sequence number and the set
      of ids seen so far. */
  method ValidateBatch(ops: seq<Mutation>) returns (error: Option<SyncError>)
    ensures error == CheckBatch(ops)
  {
    if |ops| > MAX_SYNC_OPS {
      return Some(BadRequest);
    }
    var previousSeq := 0;
    var opIds: set<OpId> := {};
    for i := 0 to |ops|
      invariant Increasing(ops[..i]) && DistinctIds(ops[..i])
      invariant opIds == set j | 0 <= j < i :: ops[j].opId
      invariant previousSeq == if i == 0 then 0 else ops[i - 1].clientSeq
    {
      var op := ops[i];
      if op.clientSeq <= 0 {
        return Some(SequenceMismatch);
      }
      if op.clientSeq <= previousSeq {
        return Some(SequenceMismatch);
      }
      if op.opId in opIds {
        return Some(SequenceMismatch);
      }
      IncreasingNext(ops, i);
      DistinctNext(ops, i);
      opIds := opIds + {op.opId};
      previousSeq := op.clientSeq;
    }
    assert ops[..|ops|] == ops;
    return None;
  }

  lemma {:induction false} BatchIsChecked(ops: seq<Mutation>)
    requires CheckBatch(ops).None?
    ensures Increasing(ops) && DistinctIds(ops)
  {
  }

  lemma {:induction false} CallerIsKnown(s: Account, d: Device, cursor: nat)
    requires CheckCaller(s, d, cursor).None?
    ensures d in s.marks
  {
  }

  class SyncHandler {
    var table: Table
    var log: map<nat, Entry>
    var nextServerSeq: nat
    var minAvailableSeq: nat
    var opReceipts: map<OpId, Receipt>
    var lastClientSeq: map<Device, nat>
    var revoked: set<Device>
    var closed: bool

    constructor (s: Account)
      ensures State() == s
    {
      table, log, nextServerSeq, minAvailableSeq := s.table, s.log, s.nextSeq, s.minAvail;
      opReceipts, lastClientSeq, revoked, closed := s.receipts, s.marks, s.revoked, s.closed;
    }

    function State(): Account
      reads this
    {
      Account(table, log, nextServerSeq, minAvailableSeq, opReceipts, lastClientSeq, revoked, closed)
    }

    method Sync(r: Rules, device: Device, cursor: nat, ops: seq<Mutation>, limit: Option<nat>)
      returns (response: Result<Response, SyncError>)
      modifies this
      ensures var spec := ServeSync(r, old(State()), device, cursor, ops, limit);
              if spec.Ok? then response == Ok(spec.value.1) && State() == spec.value.0
              else response == Err(spec.error) && State() == old(State())
    {
      hide CheckBatch, CheckCaller, PageLimit;
      var pageLimit := PageLimit(limit);
      if pageLimit.None? {
        return Err(BadRequest);
      }
      var malformed := ValidateBatch(ops);
      if malformed.Some? {
        return Err(malformed.value);
      }
      var refused := CheckCaller(State(), device, cursor);
      if refused.Some? {
        return Err(refused.value);
      }

      hide Page, Process;
      BatchIsChecked(ops);
      CallerIsKnown(State(), device, cursor);
      var done := RunOperations(r, State(), device, ops);
      if done.Err? {
        return Err(done.error);
      }
      var (tx, acks) := done.value;

      table, log, nextServerSeq, opReceipts := tx.table, tx.log, tx.nextSeq, tx.receipts;
      lastClientSeq := tx.marks;
      Batches.ProcessOnlyAdds(r, old(State()), device, ops);
      response := Ok(Page(tx, cursor, pageLimit.value, acks));
    }
  }

  /** The receipts a running batch has added are those of its own operations. */
  ghost predicate OnlyOwnReceipts(before: map<OpId, Receipt>, live: map<OpId, Receipt>, ops: seq<Mutation>, i: nat)
    requires i <= |ops|
  {
    (forall o :: o in before ==> o in live && live[o] == before[o]) &&
    (forall o :: o in live && o !in before ==>
       exists j :: 0 <= j < i && ops[j].opId == o && ops[j].clientSeq == live[o].clientSeq)
  }

  lemma {:induction false} OwnReceiptsGrow(before: map<OpId, Receipt>, live: map<OpId, Receipt>, after: map<OpId,
                                           Receipt>,
                        ops: seq<Mutation>, i: nat)
    requires i < |ops| && OnlyOwnReceipts(before, live, ops, i)
    requires after == live || (ops[i].opId !in live && ops[i].opId in after
                               && after[ops[i].opId].clientSeq == ops[i].clientSeq
                               && after == live[ops[i].opId := after[ops[i].opId]])
    ensures OnlyOwnReceipts(before, after, ops, i + 1)
  {
    forall o | o in after && o !in before
      ensures exists j :: 0 <= j < i + 1 && ops[j].opId == o && ops[j].clientSeq == after[o].clientSeq
    {
      if o in live {
        var j :| 0 <= j < i && ops[j].opId == o && ops[j].clientSeq == live[o].clientSeq;
        assert o != ops[i].opId || after == live;
      } else {
        assert ops[i].opId == o;
      }
    }
  }

  function ReceiptsByOp(receipts: map<OpId, Receipt>, ops: seq<Mutation>): map<OpId, Receipt> {
    map o | o in receipts && (exists j :: 0 <= j < |ops| && ops[j].opId == o) :: receipts[o]
  }

  function ReceiptsBySeq(receipts: map<OpId, Receipt>, d: Device, ops: seq<Mutation>): set<(int, OpId)> {
    set o | o in receipts && receipts[o].device == d
            && (exists j :: 0 <= j < |ops| && ops[j].clientSeq == receipts[o].clientSeq)
          :: (receipts[o].clientSeq, o)
  }

  /** The prefetched lookups agree with the live receipts for this operation. */
  ghost predicate LookupsFit(live: map<OpId, Receipt>, d: Device, op: Mutation,
                             byOp: map<OpId, Receipt>, bySeq: set<(int, OpId)>)
  {
    && (op.opId in byOp <==> op.opId in live)
    && (op.opId in live ==> byOp[op.opId] == live[op.opId])
    && ((exists p :: p in bySeq && p.0 == op.clientSeq) <==> SeqTaken(live, d, op.clientSeq))
    && (op.opId !in live ==>
          ((exists p :: p in bySeq && p.0 == op.clientSeq && p.1 != op.opId)
           <==> SeqTaken(live, d, op.clientSeq)))
  }

  /** Receipts read before the loop answer every later lookup of the loop the
      way the live table would. */
  lemma {:induction false} LookupsAgree(before: map<OpId, Receipt>, live: map<OpId, Receipt>, d: Device,
                                        ops: seq<Mutation>, i: nat)
    requires i < |ops| && Increasing(ops) && DistinctIds(ops)
    requires OnlyOwnReceipts(before, live, ops, i)
    ensures LookupsFit(live, d, ops[i], ReceiptsByOp(before, ops), ReceiptsBySeq(before, d, ops))
  {
    if SeqTaken(live, d, ops[i].clientSeq) {
      var o :| o in live && live[o].device == d && live[o].clientSeq == ops[i].clientSeq;
      assert o in before;
      assert (before[o].clientSeq, o) in ReceiptsBySeq(before, d, ops);
    }
  }

  lemma {:induction false} ProcessNext(r: Rules, s: Account, d: Device, ops: seq<Mutation>, i: nat, tx: Account,
                                       acks: seq<Ack>)
    requires d in s.marks && d in tx.marks && i < |ops|
    requires Process(r, s, d, ops[..i]) == Ok((tx, acks))
    ensures var step := Handle(r, tx, d, ops[i]);
            && (step.Ok? ==> Process(r, s, d, ops[..i + 1]) == Ok((step.value.0, acks + [step.value.1])))
            && (step.Err? ==> Process(r, s, d, ops) == Err(step.error))
  {
    assert ops[..i + 1][..i] == ops[..i];
    if Handle(r, tx, d, ops[i]).Err? {
      ProcessErrorSticks(r, s, d, ops, i + 1);
    }
  }

  /** One turn of the loop. `lastSeq` is the watermark at the start of the
      request and `expected` the running counter. */
  method RunOperation(r: Rules, tx: Account, device: Device, mutation: Mutation, lastSeq: nat, expected: nat,
                      byOp: map<OpId, Receipt>, bySeq: set<(int, OpId)>)
    returns (result: Result<(Account, Ack), SyncError>, next: nat)
    requires device in tx.marks && expected == tx.marks[device] + 1
    requires lastSeq < mutation.clientSeq ==> tx.marks[device] < mutation.clientSeq
    requires lastSeq < expected
    requires LookupsFit(tx.receipts, device, mutation, byOp, bySeq)
    ensures result == Handle(r, tx, device, mutation)
    ensures next == if result.Ok? then result.value.0.marks[device] + 1 else expected
  {
    next := expected;
    if mutation.opId in byOp {
      var receipt := byOp[mutation.opId];
      if receipt.device != device || receipt.clientSeq != mutation.clientSeq {
        return Err(SequenceMismatch), expected;
      }
      return Ok((tx, Ack(mutation.opId, Done(receipt.outcome)))), expected;
    }
    if mutation.clientSeq <= lastSeq {
      if exists p :: p in bySeq && p.0 == mutation.clientSeq && p.1 != mutation.opId {
        return Err(SequenceMismatch), expected;
      }
      return Ok((tx, Ack(mutation.opId, AlreadyProcessed))), expected;
    }
    if mutation.clientSeq != expected {
      return Err(SequenceMismatch), expected;
    }
    if exists p :: p in bySeq && p.0 == mutation.clientSeq {
      return Err(SequenceMismatch), expected;
    }
    var (after, outcome) := Execute(r, tx, device, mutation);
    return Ok((after, Ack(mutation.opId, Done(outcome)))), expected + 1;
  }

  lemma {:induction false} HandleReceipts(r: Rules, s: Account, d: Device, op: Mutation)
    requires d in s.marks && Handle(r, s, d, op).Ok?
    ensures var t := Handle(r, s, d, op).value.0;
            || (t.receipts == s.receipts && t.marks == s.marks)
            || (op.opId !in s.receipts && op.opId in t.receipts && t.receipts[op.opId].clientSeq == op.clientSeq
                && t.receipts == s.receipts[op.opId := t.receipts[op.opId]]
                && op.clientSeq == s.marks[d] + 1 && t.marks == s.marks[d := s.marks[d] + 1])
  {
  }

  /** The running counter is at the watermark or behind an operation handled. */
  ghost predicate Reached(ops: seq<Mutation>, i: nat, lastSeq: nat, expected: nat)
    requires i <= |ops|
  {
    expected == lastSeq + 1 || exists j :: 0 <= j < i && ops[j].clientSeq == expected - 1
  }

  lemma {:induction false} ReachedIsBehind(ops: seq<Mutation>, i: nat, lastSeq: nat, expected: nat)
    requires i < |ops| && Increasing(ops) && Reached(ops, i, lastSeq, expected)
    ensures lastSeq < ops[i].clientSeq ==> expected <= ops[i].clientSeq
  {
  }

  lemma {:induction false} ReachedNext(ops: seq<Mutation>, i: nat, lastSeq: nat, expected: nat, next: nat)
    requires i < |ops| && Reached(ops, i, lastSeq, expected)
    requires next == expected || ops[i].clientSeq == next - 1
    ensures Reached(ops, i + 1, lastSeq, next)
  {
  }

  /** The loop over the operations of a request. */
  method RunOperations(r: Rules, s: Account, device: Device, ops: seq<Mutation>)
    returns (result: Result<(Account, seq<Ack>), SyncError>)
    requires device in s.marks && Increasing(ops) && DistinctIds(ops)
    ensures result == Process(r, s, device, ops)
  {
    var lastSeq := s.marks[device];
    var byOp := ReceiptsByOp(s.receipts, ops);
    var bySeq := ReceiptsBySeq(s.receipts, device, ops);
    var expected := lastSeq + 1;
    var tx := s;
    var acks: seq<Ack> := [];
    for i := 0 to |ops|
      invariant Process(r, s, device, ops[..i]) == Ok((tx, acks))
      invariant device in tx.marks && expected == tx.marks[device] + 1 && lastSeq < expected
      invariant Reached(ops, i, lastSeq, expected)
      invariant OnlyOwnReceipts(s.receipts, tx.receipts, ops, i)
    {
      hide Handle, Process, Increasing, DistinctIds, OnlyOwnReceipts, LookupsFit, ReceiptsByOp, ReceiptsBySeq, Reached;
      LookupsAgree(s.receipts, tx.receipts, device, ops, i);
      ReachedIsBehind(ops, i, lastSeq, expected);
      ProcessNext(r, s, device, ops, i, tx, acks);
      var done, next := RunOperation(r, tx, device, ops[i], lastSeq, expected, byOp, bySeq);
      if done.Err? {
        return Err(done.error);
      }
      HandleReceipts(r, tx, device, ops[i]);
      OwnReceiptsGrow(s.receipts, tx.receipts, done.value.0.receipts, ops, i);
      ReachedNext(ops, i, lastSeq, expected, next);
      tx, acks, expected := done.value.0, acks + [done.value.1], next;
    }
    assert ops[..|ops|] == ops;
    return Ok((tx, acks));
  }
}
