/**
 The fresh install (`initialize_fresh` and `resume_fresh_installation` of
 crates/native-accounts/src/migration.rs): a marker file with a phase, the
 default account's database and the registry.
 */
module Installation {
  import opened Prelude

  datatype Phase = Prepared | DatabaseCreated | RegistryCommitted

  /** The default account's database: its contents, or None if unreadable. */
  type Database = Option<string>

  datatype Registry = Registry(active: string, accounts: set<string>)

  /** `strangers` says whether there is a legacy database, a migration state or
      another account's database. */
  datatype Disk = Disk(marker: Option<Phase>, database: Option<Database>, registry: Option<Registry>, strangers: bool)

  const DEFAULT := "default"

  const NEW_REGISTRY := Registry(DEFAULT, {DEFAULT})

  datatype Outcome = Opened | Refused

  function Current(d: Disk): Registry {
    if d.registry.Some? then d.registry.value else NEW_REGISTRY
  }

  /** `resume_fresh_installation`, write by write. */
  function ResumeSteps(d: Disk, phase: Phase): (seq<Disk>, Outcome) {
    var registry := Current(d);
    if d.strangers || registry.active != DEFAULT then ([], Refused)
    else
      var aside := d.(database := None);
      var ready := d.(database := if d.database.Some? && d.database.value.Some? then d.database else Some(Some("")));
      var created :=
        if d.database.Some? && d.database.value.Some? then []
        else if d.database.Some? then [aside, ready]
        else [ready];
      var marked := ready.(marker := Some(DatabaseCreated));
      var saved := marked.(registry := Some(registry));
      var committed := saved.(marker := Some(RegistryCommitted));
      var finished := ready.(registry := Some(registry), marker := None);
      match phase
      case Prepared => (created + [marked, saved, committed, committed, finished], Opened)
      case DatabaseCreated =>
        (created + [ready.(registry := Some(registry)), committed, committed, finished], Opened)
      case RegistryCommitted => (created + [ready.(registry := Some(registry)), finished], Opened)
  }

  /** A start of an installation that is not finished, or the first one. */
  function StartSteps(d: Disk): (seq<Disk>, Outcome) {
    if d.marker.Some? then ResumeSteps(d, d.marker.value)
    else
      var begun := d.(marker := Some(Prepared));
      var (rest, outcome) := ResumeSteps(begun, Prepared);
      ([begun] + rest, outcome)
  }

  function Cut(d: Disk, steps: seq<Disk>, n: nat): Disk
    requires n <= |steps|
  {
    if n == 0 then d else steps[n - 1]
  }

  class DataRoot {
    var marker: Option<Phase>
    var database: Option<Database>
    var registry: Option<Registry>
    const strangers: bool
    ghost var written: seq<Disk>

    constructor (d: Disk)
      ensures State() == d && written == []
    {
      marker, database, registry, strangers := d.marker, d.database, d.registry, d.strangers;
      written := [];
    }

    function State(): Disk
      reads this
    {
      Disk(marker, database, registry, strangers)
    }

    method SetMarker(m: Option<Phase>)
      modifies this
      ensures State() == old(State()).(marker := m) && written == old(written) + [State()]
    {
      marker := m;
      written := written + [State()];
    }

    method SaveRegistry(r: Registry)
      modifies this
      ensures State() == old(State()).(registry := Some(r)) && written == old(written) + [State()]
    {
      registry := Some(r);
      written := written + [State()];
    }

    /** `ensure_fresh_database`: a readable database is kept, another one is
        moved aside and replaced by an empty one. */
    method EnsureFreshDatabase()
      modifies this
      ensures var d := old(State());
              var ready := d.(database := if d.database.Some? && d.database.value.Some? then d.database
                                          else Some(Some("")));
              && State() == ready
              && written == old(written) + (if d.database.Some? && d.database.value.Some? then []
                                            else if d.database.Some? then [d.(database := None), ready] else [ready])
    {
      if database.Some? {
        if database.value.Some? {
          return;
        }
        database := None;
        written := written + [State()];
      }
      database := Some(Some(""));
      written := written + [State()];
    }

    method ResumeFreshInstallation(start: Phase) returns (outcome: Outcome)
      requires written == [] && marker == Some(start)
      modifies this
      ensures written == ResumeSteps(old(State()), start).0 && outcome == ResumeSteps(old(State()), start).1
    {
      var phase := start;
      var current := Current(State());
      if strangers || current.active != DEFAULT {
        return Refused;
      }
      EnsureFreshDatabase();
      if phase == Prepared {
        phase := DatabaseCreated;
        SetMarker(Some(phase));
      }
      if phase == DatabaseCreated {
        SaveRegistry(current);
        phase := RegistryCommitted;
        SetMarker(Some(phase));
      }
      SaveRegistry(current);
      SetMarker(None);
      return Opened;
    }
  }

  /** An installation in progress: nothing else on the disk, and the default
      account active if there is a registry. */
  ghost predicate Installing(d: Disk, registry: Registry) {
    !d.strangers && Current(d) == registry && registry.active == DEFAULT
  }

  ghost predicate Installed(d: Disk, registry: Registry) {
    d.marker.None? && d.registry == Some(registry) && d.database.Some? && d.database.value.Some?
  }

  /** Starts cut after any write, so that the marker still stands. */
  ghost predicate CutStarts(ds: seq<Disk>) {
    && |ds| >= 1
    && (forall i | 0 <= i < |ds| - 1 :: IsCut(ds[i], ds[i + 1]))
    && (forall i | 1 <= i < |ds| :: ds[i].marker.Some?)
  }

  ghost predicate IsCut(d: Disk, d': Disk) {
    exists n: nat :: n <= |StartSteps(d).0| && d' == Cut(d, StartSteps(d).0, n)
  }

  /** Every write but the last keeps the marker, the last one finishes. */
  ghost predicate Finishes(d: Disk, steps: seq<Disk>, registry: Registry) {
    && steps != [] && Installed(steps[|steps| - 1], registry)
    && forall i | 0 <= i < |steps| ::
         && Installing(steps[i], registry) && (i < |steps| - 1 ==> steps[i].marker.Some?)
         && (d.database.Some? && d.database.value.Some? ==> steps[i].database == d.database)
  }

  lemma {:induction false} ResumeFinishes(d: Disk, phase: Phase, registry: Registry)
    requires Installing(d, registry) && d.marker.Some?
    ensures Finishes(d, ResumeSteps(d, phase).0, registry) && ResumeSteps(d, phase).1 == Opened
  {
  }

  lemma {:induction false} OneStart(d: Disk, registry: Registry, n: nat)
    requires Installing(d, registry) && n <= |StartSteps(d).0|
    ensures Installing(Cut(d, StartSteps(d).0, n), registry)
    ensures Cut(d, StartSteps(d).0, n).marker.None? ==> n == 0 || n == |StartSteps(d).0|
    ensures Installed(Cut(d, StartSteps(d).0, |StartSteps(d).0|), registry)
    ensures d.database.Some? && d.database.value.Some? ==> Cut(d, StartSteps(d).0, n).database == d.database
    ensures StartSteps(d).1 == Opened
  {
    if d.marker.Some? {
      ResumeFinishes(d, d.marker.value, registry);
    } else {
      ResumeFinishes(d.(marker := Some(Prepared)), Prepared, registry);
    }
    hide ResumeSteps;
  }

  lemma {:induction false} CutKeeps(d: Disk, d': Disk, registry: Registry)
    requires Installing(d, registry) && IsCut(d, d')
    ensures Installing(d', registry)
    ensures d.database.Some? && d.database.value.Some? ==> d'.database == d.database
  {
    hide StartSteps, Installing;
    var n: nat :| n <= |StartSteps(d).0| && d' == Cut(d, StartSteps(d).0, n);
    OneStart(d, registry, n);
  }

  /** Cut starts and then a full one end with the marker gone, a readable
      database and the registry saved; a readable database is never replaced. */
  lemma {:induction false} InstallationConverges(ds: seq<Disk>, registry: Registry)
    requires CutStarts(ds) && Installing(ds[0], registry)
    ensures Installing(ds[|ds| - 1], registry)
    ensures var last := ds[|ds| - 1];
            && Installed(Cut(last, StartSteps(last).0, |StartSteps(last).0|), registry)
            && (ds[0].database.Some? && ds[0].database.value.Some? ==>
                  Cut(last, StartSteps(last).0, |StartSteps(last).0|).database == ds[0].database)
    decreases |ds|
  {
    InstallationKeeps(ds, registry);
    OneStart(ds[|ds| - 1], registry, |StartSteps(ds[|ds| - 1]).0|);
  }

  lemma {:induction false} InstallationKeeps(ds: seq<Disk>, registry: Registry)
    requires CutStarts(ds) && Installing(ds[0], registry)
    ensures Installing(ds[|ds| - 1], registry)
    ensures ds[0].database.Some? && ds[0].database.value.Some? ==> ds[|ds| - 1].database == ds[0].database
    decreases |ds|
  {
    hide StartSteps, Installing, IsCut;
    if |ds| > 1 {
      var n := |ds| - 1;
      InstallationKeeps(ds[..n], registry);
      assert IsCut(ds[n - 1], ds[n - 1 + 1]);
      CutKeeps(ds[n - 1], ds[n], registry);
    }
  }
}
