/**
 The account side of the sync protocol (apps/api/src/sync.rs): one committed
 transaction is one step on the account's tables. `Handle` treats one operation
 against the live tables; the handler itself prefetches receipts and keeps
 counters in local variables, and is proved to compute the same.
 */
module Server {
  import opened Prelude
  import opened Rows
  import opened Mutations

  /** A device of some account; two accounts never share a device. */
  type Device = string

  /** A fresh UUID, modelled as the device that drew it and a counter. */
  datatype OpId = OpId(device: Device, n: int)

  datatype Mutation = Mutation(opId: OpId, clientSeq: int, change: Change)

  datatype Outcome = Applied(seqNo: nat) | Rejected(code: Code)

  datatype Receipt = Receipt(device: Device, clientSeq: int, outcome: Outcome)

  /** A change_log row: the operation and the patch as it was logged. */
  datatype Entry = Entry(opId: OpId, change: Change)

  datatype Account = Account(
    table: Table,
    log: map<nat, Entry>,
    nextSeq: nat,
    minAvail: nat,
    receipts: map<OpId, Receipt>,
    marks: map<Device, nat>,
    revoked: set<Device>,
    closed: bool)

  datatype AckStatus = Done(outcome: Outcome) | AlreadyProcessed

  datatype Ack = Ack(opId: OpId, status: AckStatus)

  datatype LogRow = LogRow(seqNo: nat, entry: Entry)

  datatype Response = Response(acks: seq<Ack>, changes: seq<LogRow>, nextCursor: nat, hasMore: bool)

  datatype SyncError =
    | BadRequest
    | SequenceMismatch
    | InvalidCursor
    | CursorExpired
    | Unauthorized
    | DeviceNotFound
    | DeviceRevoked

  const MAX_SYNC_OPS := 100
  const MAX_SYNC_CHANGES := 500

  // ---------------------------------------------------------------------
  // One operation, with live lookups
  // ---------------------------------------------------------------------

  predicate SeqTaken(receipts: map<OpId, Receipt>, d: Device, n: int) {
    exists o :: o in receipts && receipts[o].device == d && receipts[o].clientSeq == n
  }

  /** Run one operation that has not been seen before. */
  function Execute(r: Rules, s: Account, d: Device, op: Mutation): (result: (Account, Outcome))
    requires d in s.marks
  {
    var applied := ApplyMutation(r, s.table, op.change, s.nextSeq);
    var outcome := if applied.Ok? then Applied(s.nextSeq) else Rejected(applied.error);
    var noted := s.(receipts := s.receipts[op.opId := Receipt(d, op.clientSeq, outcome)],
                    marks := s.marks[d := s.marks[d] + 1]);
    if applied.Ok? then
      var entry := Entry(op.opId, op.change.(patch := applied.value.logged));
      (noted.(table := applied.value.table, log := s.log[s.nextSeq := entry], nextSeq := s.nextSeq + 1), outcome)
    else
      (noted, outcome)
  }

  function Handle(r: Rules, s: Account, d: Device, op: Mutation): Result<(Account, Ack), SyncError>
    requires d in s.marks
  {
    if op.opId in s.receipts then
      var seen := s.receipts[op.opId];
      if seen.device != d || seen.clientSeq != op.clientSeq then Err(SequenceMismatch)
      else Ok((s, Ack(op.opId, Done(seen.outcome))))
    else if op.clientSeq <= s.marks[d] then
      if SeqTaken(s.receipts, d, op.clientSeq) then Err(SequenceMismatch)
      else Ok((s, Ack(op.opId, AlreadyProcessed)))
    else if op.clientSeq != s.marks[d] + 1 || SeqTaken(s.receipts, d, op.clientSeq) then
      Err(SequenceMismatch)
    else
      var (next, outcome) := Execute(r, s, d, op);
      Ok((next, Ack(op.opId, Done(outcome))))
  }

  function Process(r: Rules, s: Account, d: Device, ops: seq<Mutation>): (result: Result<(Account, seq<Ack>),
                   SyncError>)
    requires d in s.marks
    ensures result.Ok? ==> d in result.value.0.marks && |result.value.1| == |ops|
    decreases |ops|
  {
    if ops == [] then Ok((s, []))
    else
      var front :- Process(r, s, d, ops[..|ops| - 1]);
      var last :- Handle(r, front.0, d, ops[|ops| - 1]);
      Ok((last.0, front.1 + [last.1]))
  }

  lemma {:induction false} ProcessErrorSticks(r: Rules, s: Account, d: Device, ops: seq<Mutation>, i: nat)
    requires d in s.marks && i <= |ops|
    requires Process(r, s, d, ops[..i]).Err?
    ensures Process(r, s, d, ops) == Process(r, s, d, ops[..i])
    decreases |ops|
  {
    if i == |ops| {
      assert ops[..i] == ops;
    } else {
      assert ops[..|ops| - 1][..i] == ops[..i];
      ProcessErrorSticks(r, s, d, ops[..|ops| - 1], i);
    }
  }

  // ---------------------------------------------------------------------
  // One request
  // ---------------------------------------------------------------------

  predicate Increasing(ops: seq<Mutation>) {
    (forall i | 0 <= i < |ops| :: 0 < ops[i].clientSeq) &&
    (forall i, j | 0 <= i < j < |ops| :: ops[i].clientSeq < ops[j].clientSeq)
  }

  predicate DistinctIds(ops: seq<Mutation>) {
    forall i, j | 0 <= i < j < |ops| :: ops[i].opId != ops[j].opId
  }

  /** The sequence numbers in [lo, hi) that the log still holds, ascending. */
  function Held(log: map<nat, Entry>, lo: nat, hi: nat): (held: seq<nat>)
    ensures forall i | 0 <= i < |held| :: held[i] in log && lo <= held[i] < hi
    decreases hi - lo
  {
    if hi <= lo then []
    else (if lo in log then [lo] else []) + Held(log, lo + 1, hi)
  }

  function LogRows(log: map<nat, Entry>, ns: seq<nat>): (rows: seq<LogRow>)
    requires forall i | 0 <= i < |ns| :: ns[i] in log
    ensures |rows| == |ns|
    ensures forall i | 0 <= i < |ns| :: rows[i] == LogRow(ns[i], log[ns[i]])
  {
    seq(|ns|, i requires 0 <= i < |ns| => LogRow(ns[i], log[ns[i]]))
  }

  function Page(s: Account, cursor: nat, limit: nat, acks: seq<Ack>): Response {
    var unread := Held(s.log, cursor + 1, s.nextSeq);
    var page := LogRows(s.log, if |unread| <= limit then unread else unread[..limit]);
    Response(acks, page, if page == [] then cursor else page[|page| - 1].seqNo, limit < |unread|)
  }

  function PageLimit(limit: Option<nat>): Option<nat> {
    if limit.None? then Some(MAX_SYNC_CHANGES)
    else if 1 <= limit.value <= MAX_SYNC_CHANGES then limit
    else None
  }

  function CheckBatch(ops: seq<Mutation>): Option<SyncError> {
    if MAX_SYNC_OPS < |ops| then Some(BadRequest)
    else if !Increasing(ops) || !DistinctIds(ops) then Some(SequenceMismatch)
    else None
  }

  function CheckCaller(s: Account, d: Device, cursor: nat): Option<SyncError> {
    if s.closed then Some(Unauthorized)
    else if cursor > s.nextSeq - 1 then Some(InvalidCursor)
    else if cursor < s.minAvail - 1 then Some(CursorExpired)
    else if d !in s.marks then Some(DeviceNotFound)
    else if d in s.revoked then Some(DeviceRevoked)
    else None
  }

  /** The transaction of `sync`; an error leaves the tables as they were. */
  function ServeSync(r: Rules, s: Account, d: Device, cursor: nat, ops: seq<Mutation>, limit: Option<nat>)
    : Result<(Account, Response), SyncError>
  {
    if PageLimit(limit).None? then Err(BadRequest)
    else if CheckBatch(ops).Some? then Err(CheckBatch(ops).value)
    else if CheckCaller(s, d, cursor).Some? then Err(CheckCaller(s, d, cursor).value)
    else
      var done :- Process(r, s, d, ops);
      Ok((done.0, Page(done.0, cursor, PageLimit(limit).value, done.1)))
  }
}
