/**
 Moving the legacy database into an account, and the fresh install
 (crates/native-accounts/src/migration.rs). Every save or rename is durable on
 its own; a crash stops a start after any of them. A database is its contents,
 and a fingerprint is equality of contents.
 */
module Migration {
  import opened Prelude

  type AccountId = string

  type FileName = string

  type Content = string

  const DEFAULT: AccountId := "default"

  datatype Phase = NotStarted | BackupCreated | CopyVerified | RegistryCommitted | Complete | RequiresReview | Failed

  /** The migration state file. */
  datatype Progress = Progress(phase: Phase, backup: Option<FileName>, target: Option<AccountId>)

  /** Without an email it is the anonymous account. */
  datatype Account = Account(id: AccountId, email: Option<string>)

  datatype Registry = Registry(active: AccountId, accounts: seq<Account>)

  /** A database file: its contents, or None if it cannot be read. */
  type Database = Option<Content>

  datatype Disk = Disk(
    legacy: Option<Database>,
    backups: map<FileName, Database>,
    databases: map<AccountId, Database>,
    registry: Option<Registry>,
    migration: Option<Progress>)

  datatype Ownership = Anonymous | Bound(email: string) | Ambiguous

  /** `classify_legacy_database`, as a function of the contents, and what a
      database holds that is created by opening it. */
  datatype Env = Env(classify: Content -> Ownership, boundEmail: Content -> Option<string>, empty: Content)

  /** Names drawn for one start. */
  datatype Draw = Draw(accountId: AccountId, backup: FileName, quarantine: FileName)

  datatype Outcome = Opened(account: AccountId) | NeedsReview | MigrationFailed | Refused | FreshInstall

  function NewRegistry(): Registry {
    Registry(DEFAULT, [Account(DEFAULT, None)])
  }

  // ---------------------------------------------------------------------
  // Registry lookups
  // ---------------------------------------------------------------------

  function Find(accounts: seq<Account>, id: AccountId): (found: Option<Account>)
    ensures found.None? <==> forall i | 0 <= i < |accounts| :: accounts[i].id != id
    ensures found.Some? ==> found.value.id == id && found.value in accounts
    decreases |accounts|
  {
    if accounts == [] then None
    else if accounts[0].id == id then Some(accounts[0])
    else Find(accounts[1..], id)
  }

  function FindByEmail(accounts: seq<Account>, email: string): (found: Option<Account>)
    ensures found.Some? ==> found.value.email == Some(email) && found.value in accounts
    decreases |accounts|
  {
    if accounts == [] then None
    else if accounts[0].email == Some(email) then Some(accounts[0])
    else FindByEmail(accounts[1..], email)
  }

  function WithAccount(accounts: seq<Account>, account: Account): seq<Account> {
    if Find(accounts, account.id).Some? then accounts else accounts + [account]
  }

  lemma {:induction false} FindAppended(accounts: seq<Account>, account: Account, id: AccountId)
    ensures Find(accounts + [account], id)
         == if Find(accounts, id).Some? then Find(accounts, id) else if account.id == id then Some(account) else None
    decreases |accounts|
  {
    if accounts == [] {
      assert [account][1..] == [];
    } else {
      assert (accounts + [account])[1..] == accounts[1..] + [account];
      FindAppended(accounts[1..], account, id);
    }
  }

  // ---------------------------------------------------------------------
  // The migration, write by write
  // ---------------------------------------------------------------------

  /** A start in progress: what it has made durable, the disk, and the state it
      holds in memory. */
  datatype Work = Work(steps: seq<Disk>, disk: Disk, st: Progress)

  function Durable(w: Work, d: Disk): Work {
    Work(w.steps + [d], d, w.st)
  }

  function SaveState(w: Work, st: Progress): Work {
    Work(w.steps + [w.disk.(migration := Some(st))], w.disk.(migration := Some(st)), st)
  }

  function OwnerAccount(own: Ownership, id: AccountId): Account {
    Account(id, if own.Bound? then Some(own.email) else None)
  }

  function TargetId(accounts: seq<Account>, own: Ownership, st: Progress, draw: Draw): AccountId {
    if !own.Bound? then DEFAULT
    else if st.target.Some? then st.target.value
    else if FindByEmail(accounts, own.email).Some? then FindByEmail(accounts, own.email).value.id
    else draw.accountId
  }

  /** The account the target id may already name. */
  predicate Matches(accounts: seq<Account>, own: Ownership, id: AccountId) {
    own.Bound? && Find(accounts, id).Some? ==> Find(accounts, id).value.email == Some(own.email)
  }

  /** Persist the target id before anything is copied. */
  function NoteTarget(w: Work, id: AccountId): Work {
    var st := w.st.(target := Some(id));
    if st.phase == NotStarted then SaveState(w, st) else w.(st := st)
  }

  /** `ensure_backup`. */
  function EnsureBackup(w: Work, c: Content, draw: Draw): Work {
    if w.st.backup.Some? && w.st.backup.value in w.disk.backups && w.disk.backups[w.st.backup.value] == Some(c) then w
    else
      SaveState(Durable(w, w.disk.(backups := w.disk.backups[draw.backup := Some(c)])),
                w.st.(phase := BackupCreated, backup := Some(draw.backup)))
  }

  /** Move an unequal target aside, copy the backup if there is no target. */
  function EnsureTarget(w: Work, c: Content, id: AccountId, draw: Draw): Work {
    var kept :=
      if id in w.disk.databases && w.disk.databases[id] != Some(c) then
        Durable(w, w.disk.(databases := w.disk.databases - {id},
                           backups := w.disk.backups[draw.quarantine := w.disk.databases[id]]))
      else w;
    if id in kept.disk.databases then kept
    else Durable(kept, kept.disk.(databases := kept.disk.databases[id := Some(c)]))
  }

  function Activated(accounts: seq<Account>, own: Ownership, id: AccountId): Registry {
    Registry(id, WithAccount(WithAccount(accounts, OwnerAccount(own, id)), Account(DEFAULT, None)))
  }

  function CommitTarget(w: Work, accounts: seq<Account>, own: Ownership, id: AccountId): Work {
    var verified := SaveState(w, w.st.(phase := CopyVerified));
    var active := Durable(verified, verified.disk.(registry := Some(Activated(accounts, own, id))));
    SaveState(SaveState(active, active.st.(phase := RegistryCommitted)), active.st.(phase := Complete))
  }

  function CurrentAccounts(d: Disk): seq<Account> {
    if d.registry.Some? then d.registry.value.accounts else NewRegistry().accounts
  }

  /** `run_migration` for a readable legacy database. */
  function RunMigration(d: Disk, c: Content, own: Ownership, st: Progress, draw: Draw): (seq<Disk>, Outcome) {
    if own == Ambiguous then
      var kept := EnsureBackup(Work([], d, st), c, draw);
      (SaveState(kept, kept.st.(phase := RequiresReview)).steps, NeedsReview)
    else
      var accounts := CurrentAccounts(d);
      var id := TargetId(accounts, own, st, draw);
      if !Matches(accounts, own, id) then ([d.(migration := Some(st.(phase := Failed)))], MigrationFailed)
      else
        var copied := EnsureTarget(EnsureBackup(NoteTarget(Work([], d, st), id), c, draw), c, id, draw);
        (CommitTarget(copied, accounts, own, id).steps, Opened(id))
  }

  /** The ownership a resumed migration goes by. */
  function ResumedOwnership(d: Disk, env: Env, c: Content, st: Progress): Ownership
    requires st.target.Some?
  {
    if st.phase == Failed || st.phase == NotStarted then env.classify(c)
    else if st.target.value == DEFAULT then Anonymous
    else
      var known := Find(CurrentAccounts(d), st.target.value);
      if d.registry.Some? && known.Some? && known.value.email.Some? then Bound(known.value.email.value)
      else if env.boundEmail(c).Some? then Bound(env.boundEmail(c).value)
      else env.classify(c)
  }

  /** Classifying a legacy database that is gone opens it, which creates it. */
  function ResumeWithout(d: Disk, env: Env, st: Progress, draw: Draw): (seq<Disk>, Outcome)
    requires st.target.Some? && d.legacy.None?
  {
    if d.registry.Some? || (st.phase != Failed && st.phase != NotStarted && st.target.value == DEFAULT)
      then ([], Refused)
    else
      var created := d.(legacy := Some(Some(env.empty)));
      var (steps, outcome) := RunMigration(created, env.empty, env.classify(env.empty), st, draw);
      ([created] + steps, outcome)
  }

  /** `resume_migration`. An unreadable legacy database makes it fail. */
  function Resume(d: Disk, env: Env, st: Progress, draw: Draw): (seq<Disk>, Outcome) {
    if st.target.None? then ([], Refused)
    else if d.registry.Some? && d.registry.value.active != DEFAULT && d.registry.value.active != st.target.value then
      ([], Refused)
    else if d.legacy.None? then ResumeWithout(d, env, st, draw)
    else if d.legacy.value.None? then
      var known := Find(CurrentAccounts(d), st.target.value);
      if st.phase != Failed && st.phase != NotStarted
         && (st.target.value == DEFAULT || (d.registry.Some? && known.Some? && known.value.email.Some?))
      then ([d.(migration := Some(st.(phase := Failed)))], MigrationFailed)
      else ([], Refused)
    else RunMigration(d, d.legacy.value.value, ResumedOwnership(d, env, d.legacy.value.value, st), st, draw)
  }

  predicate Readable(d: Disk, id: AccountId) {
    id in d.databases && d.databases[id].Some?
  }

  /** `ensure_active_account` without an installation marker. */
  function Start(d: Disk, env: Env, draw: Draw): (seq<Disk>, Outcome) {
    if d.migration.Some? && d.migration.value.phase == RequiresReview then ([], NeedsReview)
    else if d.registry.None? then
      if d.migration.Some? then
        if d.migration.value.phase == Complete then ([], Refused) else Resume(d, env, d.migration.value, draw)
      else if d.legacy.Some? then
        if d.legacy.value.None? then ([], Refused)
        else
          RunMigration(d, d.legacy.value.value, env.classify(d.legacy.value.value),
                       Progress(NotStarted, None, None), draw)
      else if d.databases != map[] then ([], Refused)
      else ([], FreshInstall)
    else
      var active := d.registry.value.active;
      if d.migration.None? then
        if active in d.databases then ([d], Opened(active)) else ([], Refused)
      else
        var st := d.migration.value;
        if st.target.None? then ([], Refused)
        else if st.phase == Complete then
          if Readable(d, active) && Readable(d, st.target.value) then ([d], Opened(active)) else ([], Refused)
        else if active != DEFAULT && active != st.target.value then ([], Refused)
        else Resume(d, env, st, draw)
  }

  function Cut(d: Disk, steps: seq<Disk>, n: nat): Disk
    requires n <= |steps|
  {
    if n == 0 then d else steps[n - 1]
  }

  function Completed(d: Disk, env: Env, draw: Draw): Disk {
    Cut(d, Start(d, env, draw).0, |Start(d, env, draw).0|)
  }

  // ---------------------------------------------------------------------
  // The code
  // ---------------------------------------------------------------------

  class DataRoot {
    var legacy: Option<Database>
    var backups: map<FileName, Database>
    var databases: map<AccountId, Database>
    var registry: Option<Registry>
    var migration: Option<Progress>
    var state: Progress
    ghost var written: seq<Disk>

    constructor (d: Disk, st: Progress)
      ensures State() == d && Now() == Work([], d, st)
    {
      legacy, backups, databases, registry, migration := d.legacy, d.backups, d.databases, d.registry, d.migration;
      state := st;
      written := [];
    }

    function State(): Disk
      reads this
    {
      Disk(legacy, backups, databases, registry, migration)
    }

    ghost function Now(): Work
      reads this
    {
      Work(written, State(), state)
    }

    /** `touch` and `save`. */
    method Touch(phase: Phase)
      modifies this
      ensures Now() == SaveState(old(Now()), old(state).(phase := phase))
    {
      state := state.(phase := phase);
      migration := Some(state);
      written := written + [State()];
    }

    method CreateBackup(c: Content, draw: Draw)
      modifies this
      ensures Now() == EnsureBackup(old(Now()), c, draw)
    {
      if state.backup.Some? {
        var name := state.backup.value;
        if name in backups && backups[name] == Some(c) {
          return;
        }
      }
      backups := backups[draw.backup := Some(c)];
      written := written + [State()];
      state := state.(backup := Some(draw.backup));
      Touch(BackupCreated);
    }

    method CreateTarget(c: Content, id: AccountId, draw: Draw)
      modifies this
      ensures Now() == EnsureTarget(old(Now()), c, id, draw)
    {
      if id in databases && databases[id] != Some(c) {
        backups := backups[draw.quarantine := databases[id]];
        databases := databases - {id};
        written := written + [State()];
      }
      if id !in databases {
        databases := databases[id := Some(c)];
        written := written + [State()];
      }
    }

    /** `run_migration_inner` and what `run_migration` does about its errors. */
    method Migrate(c: Content, own: Ownership, draw: Draw) returns (outcome: Outcome)
      requires written == []
      modifies this
      ensures written == RunMigration(old(State()), c, own, old(state), draw).0
      ensures outcome == RunMigration(old(State()), c, own, old(state), draw).1
    {
      hide EnsureBackup, EnsureTarget, TargetId, Matches, Activated;
      if own == Ambiguous {
        CreateBackup(c, draw);
        Touch(RequiresReview);
        return NeedsReview;
      }
      var accounts := if registry.Some? then registry.value.accounts else NewRegistry().accounts;
      var id := TargetId(accounts, own, state, draw);
      if !Matches(accounts, own, id) {
        Touch(Failed);
        return MigrationFailed;
      }
      state := state.(target := Some(id));
      if state.phase == NotStarted {
        Touch(NotStarted);
      }
      CreateBackup(c, draw);
      CreateTarget(c, id, draw);
      Commit(accounts, own, id);
      return Opened(id);
    }

    /** The last phases: the registry is saved between two saves of the state. */
    method Commit(accounts: seq<Account>, own: Ownership, id: AccountId)
      modifies this
      ensures Now() == CommitTarget(old(Now()), accounts, own, id)
    {
      hide Activated;
      Touch(CopyVerified);
      registry := Some(Activated(accounts, own, id));
      written := written + [State()];
      Touch(RegistryCommitted);
      Touch(Complete);
    }
  }

  // ---------------------------------------------------------------------
  // Resuming from any crash
  // ---------------------------------------------------------------------

  /** The accounts a finished migration leaves: the ones before, the target and
      the default account. */
  function Extended(base: seq<Account>, own: Ownership, id: AccountId): seq<Account> {
    Activated(base, own, id).accounts
  }

  /** Fixed facts of one migration: its source, whose it is, the target id, and
      the accounts there were. */
  datatype Job = Job(c: Content, own: Ownership, id: AccountId, base: seq<Account>)

  ghost predicate ValidJob(env: Env, job: Job) {
    && job.own == env.classify(job.c) && job.own != Ambiguous
    && (job.own == Anonymous <==> job.id == DEFAULT)
    && (job.own.Bound? ==> env.boundEmail(job.c) == Some(job.own.email))
    && Matches(job.base, job.own, job.id)
    && (Find(job.base, DEFAULT).Some? ==> Find(job.base, DEFAULT).value.email.None?)
  }

  /** A migration whose target id is durable. */
  ghost predicate Underway(d: Disk, job: Job) {
    && d.legacy == Some(Some(job.c))
    && d.migration.Some? && d.migration.value.target == Some(job.id) && d.migration.value.phase != RequiresReview
    && (d.registry.None? ==> job.base == NewRegistry().accounts)
    && (d.registry.Some? ==>
          && (d.registry.value.active == DEFAULT || d.registry.value.active == job.id)
          && (d.registry.value.accounts == job.base ||
              d.registry.value.accounts == Extended(job.base, job.own, job.id)))
    && (d.migration.value.phase == Complete ==> Finished(d, job))
  }

  ghost predicate Finished(d: Disk, job: Job) {
    && d.migration.Some? && d.migration.value.phase == Complete && d.migration.value.target == Some(job.id)
    && d.legacy == Some(Some(job.c))
    && job.id in d.databases && d.databases[job.id] == Some(job.c)
    && d.registry == Some(Registry(job.id, Extended(job.base, job.own, job.id)))
  }

  lemma {:induction false} ExtendedFinds(base: seq<Account>, own: Ownership, id: AccountId)
    requires own != Ambiguous && (own == Anonymous <==> id == DEFAULT)
    ensures var all := Extended(base, own, id);
            && (Find(base, id).Some? ==> Find(all, id) == Find(base, id))
            && (Find(base, id).None? ==> Find(all, id) == Some(OwnerAccount(own, id)))
            && Find(all, DEFAULT).Some?
            && (Find(base, DEFAULT).Some? ==> Find(all, DEFAULT) == Find(base, DEFAULT))
            && (Find(base, DEFAULT).None? ==> Find(all, DEFAULT).value.email.None?)
  {
    var more := WithAccount(base, OwnerAccount(own, id));
    FindAppended(base, OwnerAccount(own, id), id);
    FindAppended(base, OwnerAccount(own, id), DEFAULT);
    FindAppended(more, Account(DEFAULT, None), id);
    FindAppended(more, Account(DEFAULT, None), DEFAULT);
  }

  /** Extending twice adds nothing. */
  lemma {:induction false} ExtendedOnce(env: Env, job: Job)
    requires ValidJob(env, job)
    ensures var all := Extended(job.base, job.own, job.id);
            && Extended(all, job.own, job.id) == all
            && Matches(all, job.own, job.id)
  {
    ExtendedFinds(job.base, job.own, job.id);
  }

  lemma {:induction false} SameTarget(d: Disk, env: Env, job: Job, draw: Draw)
    requires ValidJob(env, job) && Underway(d, job)
    ensures var accounts := CurrentAccounts(d);
            && TargetId(accounts, job.own, d.migration.value, draw) == job.id
            && Matches(accounts, job.own, job.id)
            && Activated(accounts, job.own, job.id) == Registry(job.id, Extended(job.base, job.own, job.id))
  {
    ExtendedOnce(env, job);
    hide Extended, Find;
    var accounts := CurrentAccounts(d);
    assert accounts == job.base || accounts == Extended(job.base, job.own, job.id);
    assert Extended(accounts, job.own, job.id) == Extended(job.base, job.own, job.id);
    ActivatedIs(accounts, job.own, job.id);
  }

  lemma {:induction false} ActivatedIs(accounts: seq<Account>, own: Ownership, id: AccountId)
    ensures Activated(accounts, own, id) == Registry(id, Extended(accounts, own, id))
  {
  }

  /** A resumed migration goes on with the same owner. */
  lemma {:induction false} ResumesSameJob(d: Disk, env: Env, job: Job, draw: Draw)
    requires ValidJob(env, job) && Underway(d, job) && d.migration.value.phase != Complete
    ensures Start(d, env, draw) == RunMigration(d, job.c, job.own, d.migration.value, draw)
  {
    hide RunMigration, Extended, Find;
    ExtendedFinds(job.base, job.own, job.id);
    assert ResumedOwnership(d, env, job.c, d.migration.value) == job.own;
  }

  ghost predicate AllUnderway(w: Work, job: Job) {
    && Underway(w.disk, job) && w.disk.migration.value.phase != Complete
    && w.st.target == Some(job.id)
    && forall i | 0 <= i < |w.steps| :: Underway(w.steps[i], job)
  }

  lemma {:induction false} BackupKeeps(w: Work, job: Job, draw: Draw)
    requires AllUnderway(w, job)
    ensures AllUnderway(EnsureBackup(w, job.c, draw), job)
  {
    hide Extended;
  }

  lemma {:induction false} TargetKeeps(w: Work, job: Job, draw: Draw)
    requires AllUnderway(w, job)
    ensures var after := EnsureTarget(w, job.c, job.id, draw);
            && AllUnderway(after, job)
            && job.id in after.disk.databases && after.disk.databases[job.id] == Some(job.c)
  {
    hide Extended;
  }

  lemma {:induction false} CommitKeeps(w: Work, job: Job, accounts: seq<Account>)
    requires AllUnderway(w, job) && job.id in w.disk.databases && w.disk.databases[job.id] == Some(job.c)
    requires Activated(accounts, job.own, job.id) == Registry(job.id, Extended(job.base, job.own, job.id))
    ensures var after := CommitTarget(w, accounts, job.own, job.id);
            && Finished(after.disk, job) && Underway(after.disk, job)
            && |after.steps| > 0 && after.steps[|after.steps| - 1] == after.disk
            && forall i | 0 <= i < |after.steps| :: Underway(after.steps[i], job)
  {
    hide Extended, Activated;
  }

  /** From a durable target id on, a start cut anywhere can be resumed, and one
      that is not cut finishes. */
  lemma {:induction false} StartResumes(d: Disk, env: Env, job: Job, draw: Draw, n: nat)
    requires ValidJob(env, job) && Underway(d, job) && n <= |Start(d, env, draw).0|
    ensures Underway(Cut(d, Start(d, env, draw).0, n), job)
    ensures Finished(Completed(d, env, draw), job)
    ensures Start(d, env, draw).1 == Opened(job.id)
  {
    if d.migration.value.phase != Complete {
      ResumesSameJob(d, env, job, draw);
      SameTarget(d, env, job, draw);
      hide Start, Underway, RunMigration, Extended, Activated, TargetId, Matches, Finished;
      NoteKeeps(d, job);
      RunFinishes(d, job, d.migration.value, draw);
    }
  }

  /** A run that has noted its target id keeps it to the end. */
  lemma {:induction false} RunFinishes(d: Disk, job: Job, st: Progress, draw: Draw)
    requires job.own != Ambiguous && TargetId(CurrentAccounts(d), job.own, st, draw) == job.id
    requires Matches(CurrentAccounts(d), job.own, job.id)
    requires Activated(CurrentAccounts(d), job.own, job.id) == Registry(job.id, Extended(job.base, job.own, job.id))
    requires AllUnderway(NoteTarget(Work([], d, st), job.id), job)
    ensures var (steps, outcome) := RunMigration(d, job.c, job.own, st, draw);
            && outcome == Opened(job.id)
            && steps != [] && Finished(steps[|steps| - 1], job)
            && forall i | 0 <= i < |steps| :: Underway(steps[i], job)
  {
    hide AllUnderway, Underway, Finished, NoteTarget, EnsureBackup, EnsureTarget, CommitTarget, Activated, Extended,
      TargetId,
      Matches;
    var noted := NoteTarget(Work([], d, st), job.id);
    BackupKeeps(noted, job, draw);
    TargetKeeps(EnsureBackup(noted, job.c, draw), job, draw);
    CommitKeeps(EnsureTarget(EnsureBackup(noted, job.c, draw), job.c, job.id, draw), job, CurrentAccounts(d));
  }

  lemma {:induction false} NoteKeeps(d: Disk, job: Job)
    requires Underway(d, job) && d.migration.value.phase != Complete
    ensures AllUnderway(NoteTarget(Work([], d, d.migration.value), job.id), job)
  {
    hide Extended;
  }

  /** Starts cut after any write, each with names of its own. */
  ghost predicate CutStarts(env: Env, ds: seq<Disk>) {
    |ds| >= 1 && forall i | 0 <= i < |ds| - 1 :: IsCutStart(env, ds[i], ds[i + 1])
  }

  ghost predicate IsCutStart(env: Env, d: Disk, d': Disk) {
    exists draw: Draw, n: nat {:trigger CutStartBy(env, d, draw, n, d')} :: CutStartBy(env, d, draw, n, d')
  }

  ghost predicate CutStartBy(env: Env, d: Disk, draw: Draw, n: nat, d': Disk) {
    n <= |Start(d, env, draw).0| && d' == Cut(d, Start(d, env, draw).0, n)
  }

  /** Any number of cut starts and then a full one reach COMPLETE with the
      persisted id active, the target equal to the unchanged source, and no
      account added but the target and the default one. */
  lemma {:induction false} MigrationConverges(env: Env, ds: seq<Disk>, job: Job, draw: Draw)
    requires ValidJob(env, job) && CutStarts(env, ds) && Underway(ds[0], job)
    ensures Underway(ds[|ds| - 1], job)
    ensures Finished(Completed(ds[|ds| - 1], env, draw), job)
    decreases |ds|
  {
    hide ValidJob, Underway, Finished, Start, Completed, CutStartBy;
    if |ds| == 1 {
      StartResumes(ds[0], env, job, draw, 0);
    } else {
      var front := ds[..|ds| - 1];
      MigrationConverges(env, front, job, draw);
      assert IsCutStart(env, ds[|ds| - 2], ds[|ds| - 2 + 1]);
      CutStartKeeps(env, ds[|ds| - 2], ds[|ds| - 1], job);
      StartResumes(ds[|ds| - 1], env, job, draw, 0);
    }
  }

  lemma {:induction false} CutStartKeeps(env: Env, d: Disk, d': Disk, job: Job)
    requires ValidJob(env, job) && Underway(d, job) && IsCutStart(env, d, d')
    ensures Underway(d', job)
  {
    hide ValidJob, Underway, Finished, Start, Completed;
    var draw, n: nat :| CutStartBy(env, d, draw, n, d');
    StartResumes(d, env, job, draw, n);
  }

  // ---------------------------------------------------------------------
  // The first start
  // ---------------------------------------------------------------------

  function FirstJob(env: Env, c: Content, draw: Draw): Job {
    var own := env.classify(c);
    Job(c, own, if own.Bound? then draw.accountId else DEFAULT, NewRegistry().accounts)
  }

  /** Before the target id is durable a crash leaves the disk as it was; the id
      is durable with the first write. */
  lemma {:induction false} FirstStart(d: Disk, env: Env, c: Content, draw: Draw, n: nat)
    requires d.legacy == Some(Some(c)) && d.registry.None? && d.migration.None?
    requires env.classify(c) != Ambiguous && draw.accountId != DEFAULT
    requires env.classify(c).Bound? ==> env.boundEmail(c) == Some(env.classify(c).email)
    requires n <= |Start(d, env, draw).0|
    ensures ValidJob(env, FirstJob(env, c, draw))
    ensures 1 <= n ==> Underway(Cut(d, Start(d, env, draw).0, n), FirstJob(env, c, draw))
    ensures Finished(Completed(d, env, draw), FirstJob(env, c, draw))
  {
    var job := FirstJob(env, c, draw);
    FirstJobIsValid(env, c, draw);
    FirstNote(d, job);
    hide ValidJob, FirstJob, AllUnderway, Underway, Finished, NoteTarget, RunMigration, Extended, Find;
    ActivatedIs(CurrentAccounts(d), job.own, job.id);
    RunFinishes(d, job, Progress(NotStarted, None, None), draw);
  }

  lemma {:induction false} FirstJobIsValid(env: Env, c: Content, draw: Draw)
    requires env.classify(c) != Ambiguous && draw.accountId != DEFAULT
    requires env.classify(c).Bound? ==> env.boundEmail(c) == Some(env.classify(c).email)
    ensures var job := FirstJob(env, c, draw);
            && ValidJob(env, job)
            && job.c == c && job.own == env.classify(c) && job.base == NewRegistry().accounts
            && TargetId(NewRegistry().accounts, job.own, Progress(NotStarted, None, None), draw) == job.id
            && Matches(NewRegistry().accounts, job.own, job.id)
  {
    var job := FirstJob(env, c, draw);
    assert NewRegistry().accounts[1..] == [];
    assert Find(NewRegistry().accounts, job.id) == if job.id == DEFAULT then Some(Account(DEFAULT, None)) else None;
    if job.own.Bound? {
      assert FindByEmail(NewRegistry().accounts, job.own.email) == None;
    }
  }

  lemma {:induction false} FirstNote(d: Disk, job: Job)
    requires d.legacy == Some(Some(job.c)) && d.registry.None? && job.base == NewRegistry().accounts
    ensures AllUnderway(NoteTarget(Work([], d, Progress(NotStarted, None, None)), job.id), job)
  {
    hide Extended;
  }

  // ---------------------------------------------------------------------
  // When the active account may move
  // ---------------------------------------------------------------------

  /** One write: whoever becomes active is the target, and then a verified copy
      is in place and COPY_VERIFIED is durable. */
  ghost predicate ActiveMovesLate(before: Disk, after: Disk, id: AccountId, c: Content) {
    after.registry == before.registry
    || (after.registry.Some? && after.registry.value.active == id
        && before.migration.Some? && before.migration.value.phase == CopyVerified
        && id in before.databases && before.databases[id] == Some(c))
  }

  ghost predicate StepsMoveLate(d: Disk, w: Work, id: AccountId, c: Content) {
    && w.disk == Cut(d, w.steps, |w.steps|)
    && forall i | 0 <= i < |w.steps| :: ActiveMovesLate(Cut(d, w.steps, i), w.steps[i], id, c)
  }

  lemma {:induction false} DurableMovesLate(d: Disk, w: Work, next: Work, id: AccountId, c: Content)
    requires StepsMoveLate(d, w, id, c) && next.steps == w.steps + [next.disk]
    requires ActiveMovesLate(w.disk, next.disk, id, c)
    ensures StepsMoveLate(d, next, id, c)
  {
    forall i | 0 <= i < |next.steps| ensures ActiveMovesLate(Cut(d, next.steps, i), next.steps[i], id, c) {
      if i < |w.steps| {
        assert ActiveMovesLate(Cut(d, w.steps, i), w.steps[i], id, c);
        assert next.steps[i] == w.steps[i];
      }
    }
  }

  lemma {:induction false} BackupMovesLate(d: Disk, w: Work, id: AccountId, c: Content, draw: Draw)
    requires StepsMoveLate(d, w, id, c)
    ensures StepsMoveLate(d, EnsureBackup(w, c, draw), id, c)
  {
    hide StepsMoveLate;
    if EnsureBackup(w, c, draw) != w {
      var kept := Durable(w, w.disk.(backups := w.disk.backups[draw.backup := Some(c)]));
      DurableMovesLate(d, w, kept, id, c);
      DurableMovesLate(d, kept, EnsureBackup(w, c, draw), id, c);
    }
  }

  lemma {:induction false} TargetMovesLate(d: Disk, w: Work, id: AccountId, c: Content, draw: Draw)
    requires StepsMoveLate(d, w, id, c)
    ensures StepsMoveLate(d, EnsureTarget(w, c, id, draw), id, c)
  {
    hide StepsMoveLate;
    var kept := w;
    if id in w.disk.databases && w.disk.databases[id] != Some(c) {
      kept := Durable(w, w.disk.(databases := w.disk.databases - {id},
                                 backups := w.disk.backups[draw.quarantine := w.disk.databases[id]]));
      DurableMovesLate(d, w, kept, id, c);
    }
    if id !in kept.disk.databases {
      DurableMovesLate(d, kept, EnsureTarget(w, c, id, draw), id, c);
    }
  }

  lemma {:induction false} CommitMovesLate(d: Disk, w: Work, accounts: seq<Account>, own: Ownership, id: AccountId,
                                           c: Content)
    requires StepsMoveLate(d, w, id, c) && id in w.disk.databases && w.disk.databases[id] == Some(c)
    ensures StepsMoveLate(d, CommitTarget(w, accounts, own, id), id, c)
  {
    hide StepsMoveLate;
    var verified := SaveState(w, w.st.(phase := CopyVerified));
    DurableMovesLate(d, w, verified, id, c);
    var active := Durable(verified, verified.disk.(registry := Some(Activated(accounts, own, id))));
    DurableMovesLate(d, verified, active, id, c);
    var committed := SaveState(active, active.st.(phase := RegistryCommitted));
    DurableMovesLate(d, active, committed, id, c);
    DurableMovesLate(d, committed, CommitTarget(w, accounts, own, id), id, c);
  }

  /** In every migration, resumed or not, the active account moves only to the
      target, and only when COPY_VERIFIED and an equal copy are durable. */
  lemma {:induction false} MigrationMovesLate(d: Disk, c: Content, own: Ownership, st: Progress, draw: Draw, i: nat)
    requires own != Ambiguous && i < |RunMigration(d, c, own, st, draw).0|
    ensures var steps := RunMigration(d, c, own, st, draw).0;
            ActiveMovesLate(Cut(d, steps, i), steps[i], TargetId(CurrentAccounts(d), own, st, draw), c)
  {
    var accounts := CurrentAccounts(d);
    var id := TargetId(accounts, own, st, draw);
    hide TargetId, EnsureBackup, EnsureTarget, CommitTarget;
    if Matches(accounts, own, id) {
      var start := Work([], d, st);
      var w := NoteTarget(start, id);
      if w.st.phase == NotStarted {
        DurableMovesLate(d, start, w, id, c);
      }
      BackupMovesLate(d, w, id, c, draw);
      TargetMovesLate(d, EnsureBackup(w, c, draw), id, c, draw);
      TargetIsCopy(EnsureBackup(w, c, draw), c, id, draw);
      CommitMovesLate(d, EnsureTarget(EnsureBackup(w, c, draw), c, id, draw), accounts, own, id, c);
    }
  }

  lemma {:induction false} TargetIsCopy(w: Work, c: Content, id: AccountId, draw: Draw)
    ensures id in EnsureTarget(w, c, id, draw).disk.databases
    ensures EnsureTarget(w, c, id, draw).disk.databases[id] == Some(c)
  {
  }

  /** An ambiguous source commits nothing: no write touches the registry or an
      account's database. */
  lemma {:induction false} AmbiguousCommitsNothing(d: Disk, c: Content, st: Progress, draw: Draw, n: nat)
    requires n <= |RunMigration(d, c, Ambiguous, st, draw).0|
    ensures var cut := Cut(d, RunMigration(d, c, Ambiguous, st, draw).0, n);
            cut.registry == d.registry && cut.databases == d.databases && cut.legacy == d.legacy
  {
  }

  /** Without a durable target id a migration cannot go on: a start is refused
      and writes nothing. That happens when the first start of an ambiguous
      source is cut between its backup and its verdict. */
  lemma {:induction false} NoTargetNoProgress(d: Disk, env: Env, draw: Draw)
    requires d.migration.Some? && d.migration.value.target.None?
    requires d.migration.value.phase != RequiresReview
    ensures Start(d, env, draw) == ([], Refused)
  {
  }

  /** No start gets anywhere, whatever names it draws. */
  ghost predicate Blocked(env: Env, d: Disk) {
    forall draw :: Start(d, env, draw) == ([], Refused)
  }

  /** A first start leaves a state that blocks every later one exactly if its
      source is ambiguous and it is cut after the second of its three writes. */
  lemma {:induction false} AmbiguousCanBlock(d: Disk, env: Env, c: Content, draw: Draw, n: nat)
    requires d.legacy == Some(Some(c)) && d.registry.None? && d.migration.None?
    requires draw.accountId != DEFAULT
    requires env.classify(c).Bound? ==> env.boundEmail(c) == Some(env.classify(c).email)
    requires n <= |Start(d, env, draw).0|
    ensures env.classify(c) == Ambiguous ==> |Start(d, env, draw).0| == 3
    ensures Blocked(env, Cut(d, Start(d, env, draw).0, n)) <==> env.classify(c) == Ambiguous && n == 2
  {
    if env.classify(c) != Ambiguous {
      FirstStart(d, env, c, draw, n);
      hide Underway, Finished, ValidJob, FirstJob, RunMigration, Start;
      var cut := Cut(d, Start(d, env, draw).0, n);
      if n == 0 {
        FirstOpens(d, env, c, draw);
      } else {
        StartResumes(cut, env, FirstJob(env, c, draw), draw, 0);
      }
      assert Start(cut, env, draw).1 != Refused;
    } else {
      var cut := Cut(d, Start(d, env, draw).0, n);
      assert Start(cut, env, draw).1 == if n == 2 then Refused else NeedsReview;
      hide RunMigration;
      assert n == 2 ==> Blocked(env, cut);
    }
  }

  lemma {:induction false} FirstOpens(d: Disk, env: Env, c: Content, draw: Draw)
    requires d.legacy == Some(Some(c)) && d.registry.None? && d.migration.None? && env.classify(c) != Ambiguous
    ensures Start(d, env, draw).1 != Refused
  {
    hide TargetId, Matches, NoteTarget, EnsureBackup, EnsureTarget, CommitTarget;
  }

  /** And a blocked state stays as it is. */
  lemma {:induction false} BlockedForGood(env: Env, ds: seq<Disk>)
    requires CutStarts(env, ds) && Blocked(env, ds[0])
    ensures ds[|ds| - 1] == ds[0]
    decreases |ds|
  {
    hide Start;
    if |ds| > 1 {
      BlockedForGood(env, ds[..|ds| - 1]);
      assert IsCutStart(env, ds[|ds| - 2], ds[|ds| - 2 + 1]);
      var draw, n: nat :| CutStartBy(env, ds[|ds| - 2], draw, n, ds[|ds| - 1]);
      assert Start(ds[0], env, draw) == ([], Refused);
    }
  }

  /** Whether resuming a migration gets as far as classifying its source. */
  predicate Classifies(st: Progress) {
    st.target.Some? &&
    match st.phase
    case NotStarted | Failed => true
    case BackupCreated | CopyVerified | RegistryCommitted => st.target.value != DEFAULT
    case Complete | RequiresReview => false
  }

  /** A migration whose source is gone ends on the default account with a database
      created empty exactly if there is no registry and its source is classified;
      otherwise a start writes nothing. The other databases stay, also a verified
      copy of a bound account, which the registry then does not name; another
      database in the place of the default one is moved aside. */
  lemma {:induction false} VanishedSource(d: Disk, env: Env, draw: Draw)
    requires d.legacy.None? && d.migration.Some? && env.classify(env.empty) == Anonymous
    requires d.migration.value.phase == Complete ==> d.registry.None?
    ensures Start(d, env, draw).1.Opened? <==> d.registry.None? && Classifies(d.migration.value)
    ensures !Start(d, env, draw).1.Opened? ==>
              Start(d, env, draw) == ([], if d.migration.value.phase == RequiresReview then NeedsReview else Refused)
    ensures Start(d, env, draw).1.Opened? ==>
              Start(d, env, draw).1 == Opened(DEFAULT) && OpenedEmpty(d, env, draw, Completed(d, env, draw))
  {
    hide EnsureBackup, EnsureTarget, RunMigration, OpenedEmpty, CommitTarget;
    var created := d.(legacy := Some(Some(env.empty)));
    if d.registry.None? && Classifies(d.migration.value) {
      RunsOnEmpty(d, env, draw);
    }
  }

  /** What such a start leaves. */
  ghost predicate OpenedEmpty(d: Disk, env: Env, draw: Draw, done: Disk) {
    && done.legacy == Some(Some(env.empty))
    && done.registry == Some(NewRegistry())
    && done.migration.Some? && done.migration.value.phase == Complete && done.migration.value.target == Some(DEFAULT)
    && DEFAULT in done.databases && done.databases[DEFAULT] == Some(env.empty)
    && (forall id | id != DEFAULT ::
          && (id in done.databases <==> id in d.databases)
          && (id in d.databases ==> done.databases[id] == d.databases[id])
          && Find(done.registry.value.accounts, id) == None)
    && (DEFAULT in d.databases && d.databases[DEFAULT] != Some(env.empty) ==>
          draw.quarantine in done.backups && done.backups[draw.quarantine] == d.databases[DEFAULT])
  }

  lemma {:induction false} RunsOnEmpty(d: Disk, env: Env, draw: Draw)
    requires d.legacy.None? && d.registry.None? && d.migration.Some? && d.migration.value.phase != Complete
    requires env.classify(env.empty) == Anonymous
    ensures var created := d.(legacy := Some(Some(env.empty)));
            var (steps, outcome) := RunMigration(created, env.empty, Anonymous, d.migration.value, draw);
            && outcome == Opened(DEFAULT) && steps != []
            && OpenedEmpty(d, env, draw, steps[|steps| - 1])
  {
    hide EnsureBackup, EnsureTarget;
    var created := d.(legacy := Some(Some(env.empty)));
    var noted := NoteTarget(Work([], created, d.migration.value), DEFAULT);
    TargetIsNoted(Work([], created, d.migration.value), env.empty, DEFAULT, draw);
    BackupTouchesNoAccount(noted, env.empty, draw);
    var kept := EnsureBackup(noted, env.empty, draw);
    TargetIsCopy(kept, env.empty, DEFAULT, draw);
    TargetMovesAside(kept, env.empty, DEFAULT, draw);
    OnlyDefault();
    hide NoteTarget, Find;
    CommitEnds(EnsureTarget(kept, env.empty, DEFAULT, draw), NewRegistry().accounts, Anonymous, DEFAULT);
    hide CommitTarget;
  }

  lemma {:induction false} OnlyDefault()
    ensures Activated(NewRegistry().accounts, Anonymous, DEFAULT) == NewRegistry()
    ensures forall id | id != DEFAULT :: Find(NewRegistry().accounts, id) == None
  {
    assert NewRegistry().accounts[1..] == [];
  }

  lemma {:induction false} CommitEnds(w: Work, accounts: seq<Account>, own: Ownership, id: AccountId)
    ensures var steps := CommitTarget(w, accounts, own, id).steps;
            && steps != []
            && steps[|steps| - 1] == w.disk.(registry := Some(Activated(accounts, own, id)),
                                             migration := Some(w.st.(phase := Complete)))
  {
    hide Activated;
  }

  lemma {:induction false} TargetIsNoted(w: Work, c: Content, id: AccountId, draw: Draw)
    ensures EnsureTarget(EnsureBackup(NoteTarget(w, id), c, draw), c, id, draw).st.target == Some(id)
    ensures var noted := NoteTarget(w, id).disk;
            noted.legacy == w.disk.legacy && noted.registry == w.disk.registry && noted.databases == w.disk.databases
  {
  }

  /** At the worst time: the copy of a bound account is verified and in place, and
      the account that opens is the empty default one. */
  lemma {:induction false} VerifiedCopyIsForgotten(d: Disk, env: Env, draw: Draw, id: AccountId, c: Content)
    requires d.legacy.None? && d.registry.None? && env.classify(env.empty) == Anonymous && id != DEFAULT
    requires d.migration.Some? && d.migration.value.phase == CopyVerified && d.migration.value.target == Some(id)
    requires id in d.databases && d.databases[id] == Some(c)
    ensures Start(d, env, draw).1 == Opened(DEFAULT)
    ensures var done := Completed(d, env, draw);
            && id in done.databases && done.databases[id] == Some(c)
            && done.registry.Some? && Find(done.registry.value.accounts, id) == None
            && done.registry.value.active == DEFAULT
            && DEFAULT in done.databases && done.databases[DEFAULT] == Some(env.empty)
  {
    VanishedSource(d, env, draw);
    hide Start, Completed, Find;
  }

  lemma {:induction false} BackupTouchesNoAccount(w: Work, c: Content, draw: Draw)
    ensures var after := EnsureBackup(w, c, draw).disk;
            after.legacy == w.disk.legacy && after.registry == w.disk.registry && after.databases == w.disk.databases
  {
  }

  lemma {:induction false} TargetMovesAside(w: Work, c: Content, id: AccountId, draw: Draw)
    ensures var after := EnsureTarget(w, c, id, draw).disk;
            after.legacy == w.disk.legacy && after.registry == w.disk.registry
            && (forall other | other != id ::
                  && (other in after.databases <==> other in w.disk.databases)
                  && (other in w.disk.databases ==> after.databases[other] == w.disk.databases[other]))
            && (id in w.disk.databases && w.disk.databases[id] != Some(c) ==>
                  draw.quarantine in after.backups && after.backups[draw.quarantine] == w.disk.databases[id])
  {
  }
}
