/**
 Switching accounts on disk (crates/native-accounts/src/switch.rs): a journal
 and the active account in the registry, each saved atomically. A crash stops an
 operation after any of its durable writes.
 */
module Switch {
  import opened Prelude

  type AccountId = string

  datatype Phase = Prepared | RestartRequired | VerifyingTarget | Failed

  datatype Journal = Journal(phase: Phase, source: AccountId, target: AccountId, generation: nat,
                             errorCode: Option<string>)

  datatype Registry = Registry(active: AccountId, accounts: set<AccountId>)

  /** What is durable: accounts.json and the switch journal. */
  datatype Disk = Disk(registry: Option<Registry>, journal: Option<Journal>)

  datatype Fault =
    | RegistryMissing
    | AlreadyActive
    | NotRegistered
    | TargetInvalid
    | AnotherPending
    | NoJournal
    | WrongRequest
    | WrongPhase
    | NeitherSourceNorTarget
    | InvalidJournal

  datatype Outcome =
    | Prepares(journal: Journal)
    | Requested
    | Aborted
    | NothingToAbort
    | Finished
    | NoSwitch
    | TargetCommitted
    | SwitchFailed
    | Refused(fault: Fault)

  /** `valid` and `verdict` are what `verify_target_identity` finds. */
  datatype Op =
    | Prepare(target: AccountId, valid: bool, generation: nat)
    | Request(target: AccountId, generation: nat)
    | Abort
    | Recover(verdict: bool)
    | Finish
    | Rollback(code: string)

  function SaveJournal(d: Disk, j: Journal): Disk {
    d.(journal := Some(j))
  }

  function RemoveJournal(d: Disk): Disk {
    d.(journal := None)
  }

  function SaveActive(d: Disk, id: AccountId): Disk
    requires d.registry.Some?
  {
    d.(registry := Some(d.registry.value.(active := id)))
  }

  /** A journal that `load` refuses. */
  predicate Invalid(d: Disk) {
    d.journal.Some? && d.journal.value.source == d.journal.value.target
  }

  // ---------------------------------------------------------------------
  // What each operation makes durable, write by write
  // ---------------------------------------------------------------------

  function PrepareWrites(d: Disk, target: AccountId, valid: bool, generation: nat): (seq<Disk>, Outcome) {
    if d.registry.None? then ([], Refused(RegistryMissing))
    else
      var from := d.registry.value.active;
      if from == target then ([], Refused(AlreadyActive))
      else if target !in d.registry.value.accounts then ([], Refused(NotRegistered))
      else if !valid then ([], Refused(TargetInvalid))
      else if Invalid(d) then ([], Refused(InvalidJournal))
      else if d.journal.Some? && d.journal.value.target != target then ([], Refused(AnotherPending))
      else if d.journal.Some? && (d.journal.value.phase == Prepared || d.journal.value.phase == RestartRequired) then
        ([], Prepares(d.journal.value))
      else
        var j := Journal(Prepared, from, target, generation, None);
        ([SaveJournal(d, j)], Prepares(j))
  }

  function RequestWrites(d: Disk, target: AccountId, generation: nat): (seq<Disk>, Outcome) {
    if Invalid(d) then ([], Refused(InvalidJournal))
    else if d.journal.None? then ([], Refused(NoJournal))
    else
      var j := d.journal.value;
      if j.target != target || j.generation != generation then ([], Refused(WrongRequest))
      else
        match j.phase
        case Prepared => ([SaveJournal(d, j.(phase := RestartRequired))], Requested)
        case RestartRequired => ([], Requested)
        case _ => ([], Refused(WrongPhase))
  }

  function AbortWrites(d: Disk): (seq<Disk>, Outcome) {
    if Invalid(d) then ([], Refused(InvalidJournal))
    else if d.journal.None? then ([], NothingToAbort)
    else if d.journal.value.phase == Prepared then ([RemoveJournal(d)], Aborted)
    else ([], Refused(WrongPhase))
  }

  function FinishWrites(d: Disk): (seq<Disk>, Outcome) {
    if Invalid(d) then ([], Refused(InvalidJournal))
    else if d.journal.None? then ([], Finished)
    else if d.journal.value.phase != VerifyingTarget then ([], Refused(WrongPhase))
    else if d.registry.None? then ([], Refused(RegistryMissing))
    else if d.registry.value.active != d.journal.value.target then ([], Refused(NeitherSourceNorTarget))
    else ([RemoveJournal(d)], Finished)
  }

  /** Mark the switch failed, then put the source back if it is not active. */
  function FailWrites(d: Disk, j: Journal, code: string): seq<Disk>
    requires d.registry.Some?
  {
    var failed := SaveJournal(d, j.(phase := Failed, errorCode := Some(code)));
    if d.registry.value.active == j.target then [failed, SaveActive(failed, j.source)] else [failed]
  }

  function RollbackWrites(d: Disk, code: string): (seq<Disk>, Outcome) {
    if Invalid(d) then ([], Refused(InvalidJournal))
    else if d.journal.None? then ([], Refused(NoJournal))
    else if d.registry.None? then ([], Refused(RegistryMissing))
    else (FailWrites(d, d.journal.value, code), SwitchFailed)
  }

  function RecoverWrites(d: Disk, verdict: bool): (seq<Disk>, Outcome) {
    if Invalid(d) then ([], Refused(InvalidJournal))
    else if d.journal.None? then ([], NoSwitch)
    else
      var j := d.journal.value;
      if j.phase == Failed then
        if d.registry.None? then ([], SwitchFailed)
        else if d.registry.value.active != j.source && d.registry.value.active != j.target then
          ([], Refused(NeitherSourceNorTarget))
        else if d.registry.value.active == j.target then ([SaveActive(d, j.source)], SwitchFailed)
        else ([], SwitchFailed)
      else if j.phase == Prepared then ([RemoveJournal(d)], NoSwitch)
      else if d.registry.None? then ([], Refused(RegistryMissing))
      else if d.registry.value.active != j.source && d.registry.value.active != j.target then
        ([], Refused(NeitherSourceNorTarget))
      else if j.target !in d.registry.value.accounts then ([], Refused(NotRegistered))
      else if !verdict then (FailWrites(d, j, "TARGET_INVALID"), SwitchFailed)
      else
        var verifying := SaveJournal(d, j.(phase := VerifyingTarget));
        (if d.registry.value.active != j.target then [verifying, SaveActive(verifying, j.target)] else [verifying],
         TargetCommitted)
  }

  function Run(d: Disk, op: Op): (seq<Disk>, Outcome) {
    match op
    case Prepare(target, valid, generation) => PrepareWrites(d, target, valid, generation)
    case Request(target, generation) => RequestWrites(d, target, generation)
    case Abort => AbortWrites(d)
    case Recover(verdict) => RecoverWrites(d, verdict)
    case Finish => FinishWrites(d)
    case Rollback(code) => RollbackWrites(d, code)
  }

  /** The disk after the first `n` writes of an operation. */
  function CutAfter(d: Disk, op: Op, n: nat): Disk
    requires n <= |Run(d, op).0|
  {
    if n == 0 then d else Run(d, op).0[n - 1]
  }

  /** The disk after the whole operation. */
  function Completed(d: Disk, op: Op): Disk {
    CutAfter(d, op, |Run(d, op).0|)
  }

  // ---------------------------------------------------------------------
  // The operations as they are written
  // ---------------------------------------------------------------------

  /** The two files; `written` is every state the disk went through. */
  class DataRoot {
    var registry: Option<Registry>
    var journal: Option<Journal>
    ghost var written: seq<Disk>

    constructor (d: Disk)
      ensures State() == d && written == []
    {
      registry, journal := d.registry, d.journal;
      written := [];
    }

    function State(): Disk
      reads this
    {
      Disk(registry, journal)
    }

    method PersistJournal(j: Journal)
      modifies this
      ensures State() == SaveJournal(old(State()), j) && written == old(written) + [State()]
    {
      journal := Some(j);
      written := written + [State()];
    }

    method DeleteJournal()
      modifies this
      ensures State() == RemoveJournal(old(State())) && written == old(written) + [State()]
    {
      journal := None;
      written := written + [State()];
    }

    method PersistActive(id: AccountId)
      requires registry.Some?
      modifies this
      ensures State() == SaveActive(old(State()), id) && written == old(written) + [State()]
    {
      registry := Some(registry.value.(active := id));
      written := written + [State()];
    }

    method PrepareAccountSwitch(target: AccountId, valid: bool, generation: nat) returns (outcome: Outcome)
      modifies this
      ensures written == old(written) + Run(old(State()), Prepare(target, valid, generation)).0
      ensures outcome == Run(old(State()), Prepare(target, valid, generation)).1
      ensures State() == Completed(old(State()), Prepare(target, valid, generation))
    {
      if registry.None? {
        return Refused(RegistryMissing);
      }
      var from := registry.value.active;
      if from == target {
        return Refused(AlreadyActive);
      }
      if target !in registry.value.accounts {
        return Refused(NotRegistered);
      }
      if !valid {
        return Refused(TargetInvalid);
      }
      if Invalid(State()) {
        return Refused(InvalidJournal);
      }
      if journal.Some? {
        var existing := journal.value;
        if existing.target != target {
          return Refused(AnotherPending);
        }
        if existing.phase == Prepared || existing.phase == RestartRequired {
          return Prepares(existing);
        }
      }
      var j := Journal(Prepared, from, target, generation, None);
      PersistJournal(j);
      return Prepares(j);
    }

    method RequestAccountSwitch(target: AccountId, generation: nat) returns (outcome: Outcome)
      modifies this
      ensures written == old(written) + Run(old(State()), Request(target, generation)).0
      ensures outcome == Run(old(State()), Request(target, generation)).1
      ensures State() == Completed(old(State()), Request(target, generation))
    {
      if Invalid(State()) {
        return Refused(InvalidJournal);
      }
      if journal.None? {
        return Refused(NoJournal);
      }
      var j := journal.value;
      if j.target != target || j.generation != generation {
        return Refused(WrongRequest);
      }
      match j.phase {
        case Prepared => PersistJournal(j.(phase := RestartRequired));
        case RestartRequired =>
        case _ => return Refused(WrongPhase);
      }
      return Requested;
    }

    method AbortPreparedSwitch() returns (outcome: Outcome)
      modifies this
      ensures written == old(written) + Run(old(State()), Abort).0 && outcome == Run(old(State()), Abort).1
      ensures State() == Completed(old(State()), Abort)
    {
      if Invalid(State()) {
        return Refused(InvalidJournal);
      }
      if journal.None? {
        return NothingToAbort;
      }
      if journal.value.phase == Prepared {
        DeleteJournal();
        return Aborted;
      }
      return Refused(WrongPhase);
    }

    method FinishPendingSwitch() returns (outcome: Outcome)
      modifies this
      ensures written == old(written) + Run(old(State()), Finish).0 && outcome == Run(old(State()), Finish).1
      ensures State() == Completed(old(State()), Finish)
    {
      if Invalid(State()) {
        return Refused(InvalidJournal);
      }
      if journal.Some? {
        if journal.value.phase != VerifyingTarget {
          return Refused(WrongPhase);
        }
        if registry.None? {
          return Refused(RegistryMissing);
        }
        if registry.value.active != journal.value.target {
          return Refused(NeitherSourceNorTarget);
        }
        DeleteJournal();
      }
      return Finished;
    }

    method RollbackPendingSwitch(code: string) returns (outcome: Outcome)
      modifies this
      ensures written == old(written) + Run(old(State()), Rollback(code)).0
      ensures outcome == Run(old(State()), Rollback(code)).1
      ensures State() == Completed(old(State()), Rollback(code))
    {
      if Invalid(State()) {
        return Refused(InvalidJournal);
      }
      if journal.None? {
        return Refused(NoJournal);
      }
      if registry.None? {
        return Refused(RegistryMissing);
      }
      var j := journal.value;
      PersistJournal(j.(phase := Failed, errorCode := Some(code)));
      if registry.value.active == j.target {
        PersistActive(j.source);
      }
      return SwitchFailed;
    }

    method RecoverPendingSwitch(verdict: bool) returns (outcome: Outcome)
      modifies this
      ensures written == old(written) + Run(old(State()), Recover(verdict)).0
      ensures outcome == Run(old(State()), Recover(verdict)).1
      ensures State() == Completed(old(State()), Recover(verdict))
    {
      if Invalid(State()) {
        return Refused(InvalidJournal);
      }
      if journal.None? {
        return NoSwitch;
      }
      var j := journal.value;
      if j.phase == Failed {
        if registry.Some? {
          if registry.value.active != j.source && registry.value.active != j.target {
            return Refused(NeitherSourceNorTarget);
          }
          if registry.value.active == j.target {
            PersistActive(j.source);
          }
        }
        return SwitchFailed;
      }
      if j.phase == Prepared {
        DeleteJournal();
        return NoSwitch;
      }
      if registry.None? {
        return Refused(RegistryMissing);
      }
      if registry.value.active != j.source && registry.value.active != j.target {
        return Refused(NeitherSourceNorTarget);
      }
      if j.target !in registry.value.accounts {
        return Refused(NotRegistered);
      }
      if !verdict {
        PersistJournal(j.(phase := Failed, errorCode := Some("TARGET_INVALID")));
        if registry.value.active == j.target {
          PersistActive(j.source);
        }
        return SwitchFailed;
      }
      if registry.value.active != j.target {
        PersistJournal(j.(phase := VerifyingTarget));
        PersistActive(j.target);
      } else {
        PersistJournal(j.(phase := VerifyingTarget));
      }
      return TargetCommitted;
    }
  }

  // ---------------------------------------------------------------------
  // Recovery converges
  // ---------------------------------------------------------------------

  /** Any number of recoveries, each cut after some write. */
  ghost predicate CutRecoveries(verdict: bool, ds: seq<Disk>) {
    |ds| >= 1 && forall i | 0 <= i < |ds| - 1 :: IsCut(ds[i], Recover(verdict), ds[i + 1])
  }

  /** `d'` is the disk after some of the writes of an operation. */
  ghost predicate IsCut(d: Disk, op: Op, d': Disk) {
    exists n: nat :: n <= |Run(d, op).0| && d' == CutAfter(d, op, n)
  }

  lemma {:induction false} OneCutConverges(d: Disk, verdict: bool, n: nat)
    requires n <= |Run(d, Recover(verdict)).0|
    ensures Completed(CutAfter(d, Recover(verdict), n), Recover(verdict)) == Completed(d, Recover(verdict))
  {
  }

  lemma {:induction false} CutConverges(d: Disk, verdict: bool, d': Disk)
    requires IsCut(d, Recover(verdict), d')
    ensures Completed(d', Recover(verdict)) == Completed(d, Recover(verdict))
  {
    hide Run, Completed, CutAfter;
    var n: nat :| n <= |Run(d, Recover(verdict)).0| && d' == CutAfter(d, Recover(verdict), n);
    OneCutConverges(d, verdict, n);
  }

  /** Recoveries cut anywhere, any number of times, and then one that completes
      leave the disk as one uninterrupted recovery would have. */
  lemma {:induction false} RecoveryConverges(verdict: bool, ds: seq<Disk>)
    requires CutRecoveries(verdict, ds)
    ensures Completed(ds[|ds| - 1], Recover(verdict)) == Completed(ds[0], Recover(verdict))
    decreases |ds|
  {
    if |ds| > 1 {
      hide Run, Completed, IsCut;
      assert IsCut(ds[0], Recover(verdict), ds[0 + 1]);
      CutConverges(ds[0], verdict, ds[1]);
      forall i | 0 <= i < |ds[1..]| - 1 ensures IsCut(ds[1..][i], Recover(verdict), ds[1..][i + 1]) {
        assert ds[1..][i] == ds[i + 1] && ds[1..][i + 1] == ds[i + 1 + 1];
      }
      RecoveryConverges(verdict, ds[1..]);
    }
  }

  // ---------------------------------------------------------------------
  // Safety of every run
  // ---------------------------------------------------------------------

  ghost predicate Safe(d: Disk) {
    && d.registry.Some?
    && (d.journal.Some? ==>
          var j, active := d.journal.value, d.registry.value.active;
          && j.source != j.target
          && (active == j.source || active == j.target)
          && (j.phase == Prepared || j.phase == RestartRequired ==> active == j.source))
  }

  /** One durable write; `verified` says whether the target was found valid in
      the operation that makes it. */
  ghost predicate SafeWrite(before: Disk, after: Disk, verified: bool) {
    && Safe(before) && Safe(after)
    && after.registry.value.accounts == before.registry.value.accounts
    && (after.journal.None? && before.journal.Some? ==>
          var j, active := before.journal.value, before.registry.value.active;
          || (j.phase == Prepared && active == j.source)
          || (j.phase == VerifyingTarget && active == j.target))
    && (after.registry.value.active != before.registry.value.active ==>
          && before.journal.Some? && after.journal == before.journal
          && var j, active := before.journal.value, after.registry.value.active;
             || (active == j.target && j.phase == VerifyingTarget && verified)
             || (active == j.source && j.phase == Failed))
  }

  /** The target becomes active only when it was verified in that same recovery
      and VERIFYING_TARGET is already durable; the journal goes only while it
      is PREPARED on the source or VERIFYING_TARGET on the target. */
  lemma {:induction false} EveryWriteIsSafe(d: Disk, op: Op, n: nat)
    requires Safe(d) && n < |Run(d, op).0|
    ensures SafeWrite(CutAfter(d, op, n), CutAfter(d, op, n + 1), op == Recover(true))
  {
  }

  lemma {:induction false} CutIsSafe(d: Disk, op: Op, n: nat)
    requires Safe(d) && n <= |Run(d, op).0|
    ensures Safe(CutAfter(d, op, n))
  {
    if n > 0 {
      CutIsSafe(d, op, n - 1);
      EveryWriteIsSafe(d, op, n - 1);
    }
  }

  /** Operations in any order, each of them cut after any write or complete, or
      an account registered in between. */
  ghost predicate IsRun(ds: seq<Disk>) {
    && |ds| >= 1
    && ds[0].registry.Some? && ds[0].journal.None?
    && forall i | 0 <= i < |ds| - 1 :: Moves(ds[i], ds[i + 1])
  }

  ghost predicate Moves(d: Disk, d': Disk) {
    || (exists op: Op :: IsCut(d, op, d'))
    || (exists id :: d.registry.Some?
                     && d' == d.(registry := Some(d.registry.value.(accounts := d.registry.value.accounts + {id}))))
  }

  lemma {:induction false} MoveIsSafe(d: Disk, d': Disk)
    requires Safe(d) && Moves(d, d')
    ensures Safe(d')
  {
    if op: Op :| IsCut(d, op, d') {
      var n: nat :| n <= |Run(d, op).0| && d' == CutAfter(d, op, n);
      CutIsSafe(d, op, n);
    }
  }

  lemma {:induction false} RunsAreSafe(ds: seq<Disk>, i: nat)
    requires IsRun(ds) && i < |ds|
    ensures Safe(ds[i])
  {
    hide Moves;
    if i > 0 {
      RunsAreSafe(ds, i - 1);
      assert Moves(ds[i - 1], ds[i - 1 + 1]);
      MoveIsSafe(ds[i - 1], ds[i]);
    }
  }

  /** After a completed recovery a failed switch has its source active, and a
      verified one its target with a journal that `finish` accepts. */
  lemma {:induction false} RecoveryDecides(d: Disk, verdict: bool)
    requires Safe(d) && d.journal.Some?
    ensures var (j, after) := (d.journal.value, Completed(d, Recover(verdict)));
            && (j.phase == Failed ==> after.registry.value.active == j.source && after.journal == d.journal)
            && (j.phase == Prepared ==> after.registry.value.active == j.source && after.journal == None)
            && (j.phase == RestartRequired || j.phase == VerifyingTarget ==>
                  && (j.target in d.registry.value.accounts && verdict ==>
                        && after.registry.value.active == j.target
                        && after.journal == Some(j.(phase := VerifyingTarget))
                        && Run(after, Finish).1 == Finished && Completed(after, Finish).journal == None)
                  && (j.target in d.registry.value.accounts && !verdict ==>
                        && after.registry.value.active == j.source
                        && after.journal.Some? && after.journal.value.phase == Failed))
  {
  }

  /** A rollback cut after any write is completed by the next recovery, whatever
      that finds about the target. */
  lemma {:induction false} RollbackSticks(d: Disk, code: string, n: nat, verdict: bool)
    requires Safe(d) && d.journal.Some? && 1 <= n <= |Run(d, Rollback(code)).0|
    ensures Completed(CutAfter(d, Rollback(code), n), Recover(verdict)) == Completed(d, Rollback(code))
    ensures Completed(d, Rollback(code)).registry.value.active == d.journal.value.source
  {
  }

  /** A switch from no journal to its end: with a valid target it leaves the
      target active and no journal, however often each recovery was cut; with an
      invalid one it leaves the source active and FAILED. */
  lemma {:induction false} SwitchCompletes(d: Disk, target: AccountId, generation: nat, verdict: bool, ds: seq<Disk>)
    requires Safe(d) && d.journal.None? && target in d.registry.value.accounts && target != d.registry.value.active
    requires var asked := Completed(Completed(d, Prepare(target, true, generation)), Request(target, generation));
             CutRecoveries(verdict, ds) && ds[0] == asked
    ensures var recovered := Completed(ds[|ds| - 1], Recover(verdict));
            var after := Completed(recovered, Finish);
            && after.registry.Some? && after.registry.value.accounts == d.registry.value.accounts
            && (if verdict then after.registry.value.active == target && after.journal.None?
                else
                  && after.registry.value.active == d.registry.value.active
                  && after.journal.Some? && after.journal.value.phase == Failed)
  {
    hide CutRecoveries;
    RecoveryConverges(verdict, ds);
    hide CutAfter;
    WhatIsAsked(d, target, generation, verdict);
  }

  lemma {:induction false} WhatIsAsked(d: Disk, target: AccountId, generation: nat, verdict: bool)
    requires Safe(d) && d.journal.None? && target in d.registry.value.accounts && target != d.registry.value.active
    ensures var asked := Completed(Completed(d, Prepare(target, true, generation)), Request(target, generation));
            var recovered := Completed(asked, Recover(verdict));
            && asked == d.(journal := Some(Journal(RestartRequired, d.registry.value.active, target, generation, None)))
            && recovered.registry.Some? && recovered.registry.value.accounts == d.registry.value.accounts
            && recovered.journal.Some?
            && (if verdict then
                  && recovered.registry.value.active == target
                  && Completed(recovered, Finish) == recovered.(journal := None)
                else
                  && recovered.registry.value.active == d.registry.value.active
                  && recovered.journal.value.phase == Failed && Completed(recovered, Finish) == recovered)
  {
  }

  /** A restart is granted exactly for the switch that was prepared, and then
      stands until the next recovery. */
  lemma {:induction false} RequestGranted(d: Disk, target: AccountId, generation: nat)
    requires Safe(d)
    ensures var (steps, outcome) := Run(d, Request(target, generation));
            && (outcome == Requested <==>
                  && d.journal.Some? && d.journal.value.target == target && d.journal.value.generation == generation
                  && (d.journal.value.phase == Prepared || d.journal.value.phase == RestartRequired))
            && (outcome == Requested ==>
                  Completed(d, Request(target, generation))
                  == d.(journal := Some(d.journal.value.(phase := RestartRequired))))
            && (outcome != Requested ==> steps == [])
  {
  }

  /** A switch can be prepared exactly when the target is another registered,
      valid account and no journal names a different one, even a failed one. */
  lemma {:induction false} PrepareAccepted(d: Disk, target: AccountId, valid: bool, generation: nat)
    requires Safe(d)
    ensures Run(d, Prepare(target, valid, generation)).1.Prepares? <==>
              && target != d.registry.value.active && target in d.registry.value.accounts && valid
              && (d.journal.Some? ==> d.journal.value.target == target)
  {
  }

  ghost predicate FailedOn(d: Disk, target: AccountId) {
    d.journal.Some? && d.journal.value.phase == Failed && d.journal.value.target == target
  }

  /** A failed journal gives way only to a preparation of its own target. */
  lemma {:induction false} FailedOpStays(d: Disk, op: Op, n: nat)
    requires Safe(d) && d.journal.Some? && FailedOn(d, d.journal.value.target) && n <= |Run(d, op).0|
    ensures var target, after := d.journal.value.target, CutAfter(d, op, n);
            FailedOn(after, target) || (op.Prepare? && op.target == target && Run(d, op).1.Prepares? && n == 1)
  {
  }

  ghost predicate Stretch(ds: seq<Disk>) {
    |ds| >= 1 && Safe(ds[0]) && forall i | 0 <= i < |ds| - 1 :: Moves(ds[i], ds[i + 1])
  }

  /** The next write prepares `target` again. */
  ghost predicate PreparesAgain(d: Disk, d': Disk, target: AccountId) {
    exists valid, generation {:trigger Prepare(target, valid, generation)} ::
      Run(d, Prepare(target, valid, generation)).1.Prepares? && d' == Completed(d, Prepare(target, valid, generation))
  }

  lemma {:induction false} FailedMoveStays(d: Disk, d': Disk, target: AccountId)
    requires Safe(d) && FailedOn(d, target) && Moves(d, d')
    ensures FailedOn(d', target) || PreparesAgain(d, d', target)
  {
    if op: Op :| IsCut(d, op, d') {
      var n: nat :| n <= |Run(d, op).0| && d' == CutAfter(d, op, n);
      FailedOpStays(d, op, n);
      if !FailedOn(d', target) {
        assert d' == Completed(d, Prepare(target, op.valid, op.generation));
      }
    }
  }

  /** So a failed switch keeps every switch to a third account from being
      prepared, in any run in which its own target is not prepared again. */
  lemma {:induction false} FailedSwitchBlocksOthers(ds: seq<Disk>, target: AccountId)
    requires Stretch(ds) && FailedOn(ds[0], target)
    requires forall i | 0 <= i < |ds| - 1 :: !PreparesAgain(ds[i], ds[i + 1], target)
    ensures Safe(ds[|ds| - 1]) && FailedOn(ds[|ds| - 1], target)
    ensures forall third, valid, generation | third != target ::
              !Run(ds[|ds| - 1], Prepare(third, valid, generation)).1.Prepares?
    decreases |ds|
  {
    hide Moves, Run, PreparesAgain, FailedOn, Safe;
    if |ds| > 1 {
      var front := ds[..|ds| - 1];
      assert forall i | 0 <= i < |ds| - 1 :: Moves(ds[i], ds[i + 1]);
      FailedSwitchBlocksOthers(front, target);
      assert Moves(ds[|ds| - 2], ds[|ds| - 2 + 1]) && !PreparesAgain(ds[|ds| - 2], ds[|ds| - 2 + 1], target);
      FailedMoveStays(ds[|ds| - 2], ds[|ds| - 1], target);
      MoveIsSafe(ds[|ds| - 2], ds[|ds| - 1]);
    }
    LastBlocks(ds[|ds| - 1], target);
  }

  lemma {:induction false} LastBlocks(d: Disk, target: AccountId)
    requires Safe(d) && FailedOn(d, target)
    ensures forall third, valid, generation | third != target :: !Run(d, Prepare(third, valid, generation)).1.Prepares?
  {
  }

  /** And that preparation lifts it: with the source put back, the failed target
      is accepted as any other, and once it is aborted so is every other account. */
  lemma {:induction false} PreparingAgainLifts(d: Disk, valid: bool, generation: nat, third: AccountId, again: nat)
    requires Safe(d) && d.journal.Some? && FailedOn(d, d.journal.value.target)
    ensures var target := d.journal.value.target;
            Run(d, Prepare(target, valid, generation)).1.Prepares? <==>
              valid && target in d.registry.value.accounts && d.registry.value.active == d.journal.value.source
    ensures var target := d.journal.value.target;
            Run(d, Prepare(target, valid, generation)).1.Prepares? ==>
              var after := Completed(Completed(d, Prepare(target, valid, generation)), Abort);
              && after == d.(journal := None)
              && (Run(after, Prepare(third, true, again)).1.Prepares? <==>
                    third != d.registry.value.active && third in d.registry.value.accounts)
  {
  }
}
