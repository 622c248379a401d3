/**
 Replacing accounts.json: the temporary file, the two-step fallback swap of
 `replace_file` (crates/native-accounts/src/paths.rs) and `load_with_recovery`
 (crates/native-accounts/src/registry.rs). A crash stops either after any of its
 durable steps.
 */
module Replace {
  import opened Prelude

  /** A valid registry, whatever it holds. */
  type Registry = string

  type Name = string

  /** A file that was completely written, or one a crash left half written. */
  datatype File = Whole(registry: Registry) | Torn

  datatype Swap = TornSwap | Names(source: Name, backup: Name)

  /** accounts.json, its replacement journal, and every other artefact: temporary
      files and files moved aside. */
  datatype Dir = Dir(target: Option<File>, journal: Option<Swap>, others: map<Name, File>)

  /** How the platform replaces an existing file: in one step; in two; in two
      with the second rename failing and the first undone or not. */
  datatype Way = OneStep | TwoSteps | Undone | Stuck

  datatype Loaded = Found(registry: Registry) | Nothing | Corrupt | SaveFailed

  // ---------------------------------------------------------------------
  // Saving, step by step
  // ---------------------------------------------------------------------

  function Put(d: Dir, name: Name, f: File): Dir {
    d.(others := d.others[name := f])
  }

  function Remove(d: Dir, name: Name): Dir {
    d.(others := d.others - {name})
  }

  function Named(d: Dir, name: Name): Option<File> {
    if name in d.others then Some(d.others[name]) else None
  }

  /** Rename an artefact to accounts.json. */
  function ToTarget(d: Dir, name: Name): Dir {
    Remove(d.(target := Named(d, name)), name)
  }

  /** Rename accounts.json to an artefact. */
  function Aside(d: Dir, name: Name): Dir
    requires d.target.Some?
  {
    Put(d.(target := None), name, d.target.value)
  }

  /** The second half of the two-step swap, once the old file is aside: the new
      file is renamed into place, or the old one is put back, or neither. */
  function SwapSteps(moved: Dir, temp: Name, backup: Name, way: Way): (steps: seq<Dir>)
    ensures steps != []
  {
    match way
    case Undone =>
      var back := ToTarget(moved, backup);
      var quiet := back.(journal := None);
      [back, quiet, Remove(quiet, temp)]
    case Stuck => [Remove(moved, temp)]
    case _ =>
      var swapped := ToTarget(moved, temp);
      var cleaned := Remove(swapped, backup);
      [swapped, cleaned, cleaned.(journal := None)]
  }

  /** The states of the directory after each step of `replace_file`, from the
      one in which the temporary file is written. */
  function ReplaceSteps(written: Dir, temp: Name, backup: Name, way: Way): (steps: seq<Dir>)
    ensures steps != []
  {
    if written.target.None? || way == OneStep then [ToTarget(written, temp)]
    else
      var marked := written.(journal := Some(TornSwap));
      var noted := written.(journal := Some(Names(temp, backup)));
      var moved := Aside(noted, backup);
      [marked, noted, moved] + SwapSteps(moved, temp, backup, way)
  }

  /** The states of the directory after each step of `write_json_atomic`. */
  function SaveSteps(d: Dir, registry: Registry, temp: Name, backup: Name, way: Way): (steps: seq<Dir>)
    ensures 3 <= |steps|
  {
    var written := Put(d, temp, Whole(registry));
    [Put(d, temp, Torn), written] + ReplaceSteps(written, temp, backup, way)
  }

  predicate Succeeds(d: Dir, way: Way) {
    d.target.None? || way == OneStep || way == TwoSteps
  }

  // ---------------------------------------------------------------------
  // Loading
  // ---------------------------------------------------------------------

  function WholeAt(d: Dir, name: Name): Option<Registry> {
    if name in d.others && d.others[name].Whole? then Some(d.others[name].registry) else None
  }

  /** The candidate a journal names: the intended file first, then the old one. */
  function Choice(d: Dir, swap: Swap): Option<Registry> {
    if swap.TornSwap? then None
    else if WholeAt(d, swap.source).Some? then WholeAt(d, swap.source)
    else WholeAt(d, swap.backup)
  }

  ghost predicate AgreeOn(d: Dir, registry: Registry) {
    (exists n :: n in d.others && d.others[n] == Whole(registry)) &&
    (forall n | n in d.others && d.others[n].Whole? :: d.others[n].registry == registry)
  }

  /** The registries that artefacts hold. */
  function Candidates(d: Dir): set<Registry> {
    set n | n in d.others && d.others[n].Whole? :: d.others[n].registry
  }

  lemma {:induction false} OnlyOne(s: set<Registry>)
    requires |s| == 1
    ensures forall x, y | x in s && y in s :: x == y
  {
    forall x, y | x in s && y in s ensures x == y {
      assert |s - {x}| == 0;
    }
  }

  /** What `load_with_recovery` finds, and what it saves again if it recovers. */
  function Recovered(d: Dir): (Loaded, bool) {
    if d.target.Some? && d.target.value.Whole? then (Found(d.target.value.registry), false)
    else if d.journal.Some? then
      var choice := Choice(d, d.journal.value);
      if choice.Some? then (Found(choice.value), true) else (Corrupt, false)
    else if |Candidates(d)| > 1 then (Corrupt, false)
    else if |Candidates(d)| == 1 then
      OnlyOne(Candidates(d));
      var registry :| registry in Candidates(d);
      (Found(registry), true)
    else if d.target.Some? || d.others != map[] then (Corrupt, false)
    else (Nothing, false)
  }

  /** The states of the directory after each step of `load_with_recovery`. */
  function LoadSteps(d: Dir, temp: Name, backup: Name, way: Way): seq<Dir> {
    var (loaded, again) := Recovered(d);
    if !again || !loaded.Found? then []
    else
      var steps := SaveSteps(d, loaded.registry, temp, backup, way);
      if d.journal.Some? && Succeeds(d, way) then steps + [steps[|steps| - 1].(journal := None)] else steps
  }

  /** What `load_with_recovery` answers. */
  function LoadResult(d: Dir, way: Way): Loaded {
    if Recovered(d).1 && !Succeeds(d, way) then SaveFailed else Recovered(d).0
  }

  /** The directory after the first `n` steps. */
  function Cut(d: Dir, steps: seq<Dir>, n: nat): Dir
    requires n <= |steps|
  {
    if n == 0 then d else steps[n - 1]
  }

  /** Names drawn for this save: never used before. */
  ghost predicate Fresh(d: Dir, temp: Name, backup: Name) {
    && temp != backup && temp !in d.others && backup !in d.others
    && (d.journal.Some? && d.journal.value.Names? ==>
          temp != d.journal.value.source && temp != d.journal.value.backup
          && backup != d.journal.value.source && backup != d.journal.value.backup)
  }

  // ---------------------------------------------------------------------
  // The code
  // ---------------------------------------------------------------------

  /** The directory; `steps` is every state it went through. */
  class DataRoot {
    var target: Option<File>
    var journal: Option<Swap>
    var others: map<Name, File>
    ghost var steps: seq<Dir>

    constructor (d: Dir)
      ensures State() == d && steps == []
    {
      target, journal, others := d.target, d.journal, d.others;
      steps := [];
    }

    function State(): Dir
      reads this
    {
      Dir(target, journal, others)
    }

    /** Create, write and sync the temporary file. */
    method WriteTemp(temp: Name, registry: Registry)
      modifies this`others, this`steps
      ensures steps == old(steps) + [Put(old(State()), temp, Torn), Put(old(State()), temp, Whole(registry))]
      ensures State() == Put(old(State()), temp, Whole(registry))
    {
      others := others[temp := Torn];
      steps := steps + [State()];
      others := others[temp := Whole(registry)];
      assert others == old(others)[temp := Whole(registry)];
      steps := steps + [State()];
    }

    method RenameToTarget(name: Name)
      modifies this
      ensures State() == ToTarget(old(State()), name) && steps == old(steps) + [State()]
    {
      target := if name in others then Some(others[name]) else None;
      others := others - {name};
      steps := steps + [State()];
    }

    method RemoveFile(name: Name)
      modifies this`others, this`steps
      ensures State() == Remove(old(State()), name) && steps == old(steps) + [State()]
    {
      others := others - {name};
      steps := steps + [State()];
    }

    method SetJournal(swap: Option<Swap>)
      modifies this`journal, this`steps
      ensures State() == old(State()).(journal := swap) && steps == old(steps) + [State()]
    {
      journal := swap;
      steps := steps + [State()];
    }

    method MoveAside(backup: Name)
      requires target.Some?
      modifies this
      ensures State() == Aside(old(State()), backup) && steps == old(steps) + [State()]
    {
      others := others[backup := target.value];
      target := None;
      steps := steps + [State()];
    }

    /** `write_json_atomic`. */
    method WriteJsonAtomic(registry: Registry, temp: Name, backup: Name, way: Way) returns (saved: bool)
      modifies this
      ensures var all := SaveSteps(old(State()), registry, temp, backup, way);
              steps == old(steps) + all && State() == all[|all| - 1]
      ensures saved == Succeeds(old(State()), way)
    {
      hide ReplaceSteps;
      WriteTemp(temp, registry);
      saved := ReplaceFile(temp, backup, way);
    }

    /** `replace_file`. */
    method ReplaceFile(temp: Name, backup: Name, way: Way) returns (saved: bool)
      modifies this
      ensures var all := ReplaceSteps(old(State()), temp, backup, way);
              steps == old(steps) + all && State() == all[|all| - 1]
      ensures saved == Succeeds(old(State()), way)
    {
      hide ToTarget, Remove, Aside, SwapSteps;
      if target.None? || way == OneStep {
        RenameToTarget(temp);
        return true;
      }
      SetJournal(Some(TornSwap));
      SetJournal(Some(Names(temp, backup)));
      MoveAside(backup);
      saved := SwapIn(temp, backup, way);
    }

    /** The second rename of the fallback and what follows it. */
    method SwapIn(temp: Name, backup: Name, way: Way) returns (saved: bool)
      requires way != OneStep
      modifies this
      ensures var all := SwapSteps(old(State()), temp, backup, way);
              steps == old(steps) + all && State() == all[|all| - 1]
      ensures saved == (way == TwoSteps)
    {
      hide ToTarget, Remove;
      if way == TwoSteps {
        RenameToTarget(temp);
        RemoveFile(backup);
        SetJournal(None);
        return true;
      }
      if way == Undone {
        RenameToTarget(backup);
        SetJournal(None);
      }
      RemoveFile(temp);
      return false;
    }

    /** `load_with_recovery`. */
    method LoadWithRecovery(temp: Name, backup: Name, way: Way) returns (loaded: Loaded)
      modifies this
      ensures var all := LoadSteps(old(State()), temp, backup, way);
              steps == old(steps) + all && State() == Cut(old(State()), all, |all|)
      ensures loaded == LoadResult(old(State()), way)
    {
      hide SaveSteps, Choice, Candidates;
      if target.Some? && target.value.Whole? {
        return Found(target.value.registry);
      }
      var (found, again) := Recovered(State());
      if !again || !found.Found? {
        return found;
      }
      var hadJournal := journal.Some?;
      ghost var all := SaveSteps(State(), found.registry, temp, backup, way);
      var saved := WriteJsonAtomic(found.registry, temp, backup, way);
      if !saved {
        return SaveFailed;
      }
      if hadJournal {
        SetJournal(None);
        assert all + [State()] == LoadSteps(old(State()), temp, backup, way);
      }
      return found;
    }
  }

  // ---------------------------------------------------------------------
  // Atomicity through recovery
  // ---------------------------------------------------------------------

  /** Loading gives `registry`: it is in place, or the journal leads to it. */
  ghost predicate Holds(d: Dir, registry: Registry) {
    || d.target == Some(Whole(registry))
    || (d.target.None? && d.journal.Some? && Choice(d, d.journal.value) == Some(registry))
  }

  lemma {:induction false} HoldsIsFound(d: Dir, registry: Registry)
    requires Holds(d, registry)
    ensures forall way :: LoadResult(d, way) == Found(registry)
  {
  }

  /** A crash at any point of a save, whatever way it goes and whatever earlier
      crashes left behind, keeps the old or the new registry. */
  lemma {:induction false} SaveIsAtomic(d: Dir, was: Registry, registry: Registry, temp: Name, backup: Name, way: Way,
                                        n: nat)
    requires Holds(d, was) && Fresh(d, temp, backup)
    requires n <= |SaveSteps(d, registry, temp, backup, way)|
    ensures var c := Cut(d, SaveSteps(d, registry, temp, backup, way), n); Holds(c, was) || Holds(c, registry)
  {
  }

  /** A save that reports success has the new registry in place, one that fails
      keeps the old one. */
  lemma {:induction false} SaveOutcome(d: Dir, was: Registry, registry: Registry, temp: Name, backup: Name, way: Way)
    requires Holds(d, was) && Fresh(d, temp, backup)
    ensures var all := SaveSteps(d, registry, temp, backup, way);
            if Succeeds(d, way) then all[|all| - 1].target == Some(Whole(registry))
            else Holds(all[|all| - 1], was)
  {
  }

  /** So does a crash at any point of the recovery: loading again gives the same. */
  lemma {:induction false} LoadIsStable(d: Dir, registry: Registry, temp: Name, backup: Name, way: Way, n: nat)
    requires Holds(d, registry) && Fresh(d, temp, backup) && n <= |LoadSteps(d, temp, backup, way)|
    ensures Holds(Cut(d, LoadSteps(d, temp, backup, way), n), registry)
    ensures n == |LoadSteps(d, temp, backup, way)| ==>
              Cut(d, LoadSteps(d, temp, backup, way), n).target == Some(Whole(registry))
  {
    HoldsIsFound(d, registry);
  }

  datatype Event = Save(new_: Registry) | Load

  /** Saves and loads in any order, each cut after any step or complete, with
      fresh names each time. */
  ghost predicate Happens(d: Dir, event: Event, d': Dir) {
    match event
    case Save(registry) =>
      exists temp, backup, way, n: nat {:trigger SaveCut(d, registry, temp, backup, way, n, d')} ::
        SaveCut(d, registry, temp, backup, way, n, d')
    case Load =>
      exists temp, backup, way, n: nat {:trigger LoadCut(d, temp, backup, way, n, d')} ::
        LoadCut(d, temp, backup, way, n, d')
  }

  ghost predicate SaveCut(d: Dir, registry: Registry, temp: Name, backup: Name, way: Way, n: nat, d': Dir) {
    && Fresh(d, temp, backup) && n <= |SaveSteps(d, registry, temp, backup, way)|
    && d' == Cut(d, SaveSteps(d, registry, temp, backup, way), n)
  }

  ghost predicate LoadCut(d: Dir, temp: Name, backup: Name, way: Way, n: nat, d': Dir) {
    && Fresh(d, temp, backup) && n <= |LoadSteps(d, temp, backup, way)|
    && d' == Cut(d, LoadSteps(d, temp, backup, way), n)
  }

  ghost predicate IsRun(ds: seq<Dir>, events: seq<Event>) {
    |ds| == |events| + 1 && forall i | 0 <= i < |events| :: Happens(ds[i], events[i], ds[i + 1])
  }

  /** In every run that starts with a registry in place, loading never finds
      nothing or an error: it finds the first registry or one that was saved. */
  lemma {:induction false} NeverLost(ds: seq<Dir>, events: seq<Event>, first: Registry,
                                     i: nat) returns (registry: Registry)
    requires IsRun(ds, events) && i < |ds| && Holds(ds[0], first)
    ensures Holds(ds[i], registry) && forall way :: LoadResult(ds[i], way) == Found(registry)
    ensures registry == first || exists j :: 0 <= j < i && events[j] == Save(registry)
  {
    hide SaveSteps, LoadSteps, Holds, LoadResult, Fresh;
    if i == 0 {
      registry := first;
    } else {
      var was := NeverLost(ds, events, first, i - 1);
      assert Happens(ds[i - 1], events[i - 1], ds[i - 1 + 1]);
      registry := HappensKeeps(ds[i - 1], events[i - 1], ds[i], was);
    }
    HoldsIsFound(ds[i], registry);
  }

  lemma {:induction false} HappensKeeps(d: Dir, event: Event, d': Dir, was: Registry) returns (registry: Registry)
    requires Holds(d, was) && Happens(d, event, d')
    ensures Holds(d', registry) && (registry == was || event == Save(registry))
  {
    hide SaveSteps, LoadSteps, Holds, Fresh, Cut;
    match event
    case Save(r) =>
      var temp, backup, way, n: nat :| SaveCut(d, r, temp, backup, way, n, d');
      SaveIsAtomic(d, was, r, temp, backup, way, n);
      registry := if Holds(d', was) then was else r;
    case Load =>
      var temp, backup, way, n: nat :| LoadCut(d, temp, backup, way, n, d');
      LoadIsStable(d, was, temp, backup, way, n);
      registry := was;
  }

  // ---------------------------------------------------------------------
  // The very first save
  // ---------------------------------------------------------------------

  lemma {:induction false} CandidatesPut(d: Dir, name: Name, f: File)
    requires name !in d.others
    ensures Candidates(Put(d, name, f)) == Candidates(d) + if f.Whole? then {f.registry} else {}
  {
    var more := Put(d, name, f);
    assert more.others[name] == f;
    forall x ensures x in Candidates(more) <==> x in Candidates(d) || (f.Whole? && x == f.registry) {
      if x in Candidates(d) {
        var n :| n in d.others && d.others[n].Whole? && d.others[n].registry == x;
        assert n in more.others && more.others[n] == d.others[n];
      }
    }
  }

  lemma {:induction false} SizeOfUnion(all: set<Registry>, registry: Registry)
    ensures |all + {registry}| == 1 <==> all <= {registry}
    ensures |all| == 1 <==> exists x :: all == {x}
  {
    if all <= {registry} {
      assert all + {registry} == {registry};
    }
    if |all + {registry}| == 1 {
      OnlyOne(all + {registry});
    }
    if |all| == 1 {
      var x :| x in all;
      OnlyOne(all);
      assert all == {x};
    }
  }

  /** What a load finds without registry and journal, in terms of the complete
      artefacts. */
  lemma {:induction false} FoundAmong(d: Dir)
    requires d.target.None? && d.journal.None?
    ensures Recovered(d).0 == Nothing <==> d.others == map[]
    ensures forall registry :: Recovered(d).0 == Found(registry) <==> Candidates(d) == {registry}
  {
    if |Candidates(d)| == 1 {
      OnlyOne(Candidates(d));
    }
    assert d.others == map[] ==> Candidates(d) == {};
    forall registry | Candidates(d) == {registry} ensures |Candidates(d)| == 1 {
    }
  }

  /** Without a registry in place a save is not protected. A load after a crash at
      any of its steps finds nothing, a registry or corruption as follows: until
      the temporary file is complete only what was there counts, but the half
      written file is one more artefact; once it is complete it must agree with
      what was there; and once it is in place it is the registry. */
  lemma {:induction false} FirstSaveCut(d: Dir, registry: Registry, temp: Name, backup: Name, way: Way, n: nat)
    requires d.target.None? && d.journal.None? && temp !in d.others
    requires n <= |SaveSteps(d, registry, temp, backup, way)|
    ensures |SaveSteps(d, registry, temp, backup, way)| == 3
    ensures var all, loaded := Candidates(d), Recovered(Cut(d, SaveSteps(d, registry, temp, backup, way), n)).0;
            && (loaded == Nothing <==> n == 0 && d.others == map[])
            && (forall r :: loaded == Found(r) <==>
                  if n < 2 then all == {r} else r == registry && (n == 3 || all <= {registry}))
  {
    hide Candidates;
    var torn, written := Put(d, temp, Torn), Put(d, temp, Whole(registry));
    CandidatesPut(d, temp, Torn);
    CandidatesPut(d, temp, Whole(registry));
    assert temp in torn.others && temp in written.others;
    FoundAmong(d);
    FoundAmong(torn);
    FoundAmong(written);
    assert SaveSteps(d, registry, temp, backup, way) == [torn, written, ToTarget(written, temp)];
    hide Recovered;
    assert Candidates(d) + {} == Candidates(d);
    forall r ensures Candidates(written) == {r} <==> r == registry && Candidates(d) <= {registry} {
      assert registry in Candidates(written);
    }
    assert Recovered(ToTarget(written, temp)).0 == Found(registry) by {
      InPlaceIsFound(ToTarget(written, temp), registry);
    }
  }

  lemma {:induction false} InPlaceIsFound(d: Dir, registry: Registry)
    requires d.target == Some(Whole(registry))
    ensures Recovered(d).0 == Found(registry)
  {
  }

  /** So a directory that a load accepts becomes one that no load accepts, and no
      load changes, exactly when it was empty and the temporary file is half
      written, or when it held one registry in artefacts and the temporary file
      is complete with another. */
  lemma {:induction false} FirstSaveCanBlock(d: Dir, registry: Registry, temp: Name, backup: Name, way: Way, n: nat)
    requires d.target.None? && d.journal.None? && temp !in d.others && Recovered(d).0 != Corrupt
    requires n <= |SaveSteps(d, registry, temp, backup, way)|
    ensures var cut := Cut(d, SaveSteps(d, registry, temp, backup, way), n);
            && (Recovered(cut).0 == Corrupt <==>
                  || (d.others == map[] && n == 1)
                  || (d.others != map[] && Candidates(d) != {registry} && n == 2))
            && (Recovered(cut).0 == Corrupt ==>
                  forall temp', backup', way' :: LoadSteps(cut, temp', backup', way') == [])
  {
    FirstSaveCut(d, registry, temp, backup, way, n);
    FoundAmong(d);
    RecoveredKinds(d);
    NoneComplete(d);
    var all, cut := Candidates(d), Cut(d, SaveSteps(d, registry, temp, backup, way), n);
    RecoveredKinds(cut);
    NothingToLoad(cut);
    hide Recovered, Candidates, SaveSteps, Cut, LoadSteps;
    assert Recovered(cut).0 == Found(registry)
      <==> if n < 2 then all == {registry} else n == 3 || all <= {registry};
    if d.others == map[] {
      assert all == {} && (n == 1 ==> forall r :: Recovered(cut).0 != Found(r));
    } else {
      var x :| Recovered(d).0 == Found(x);
      assert all == {x} && (all <= {registry} <==> x == registry) && (all == {registry} <==> x == registry);
      assert n < 2 ==> Recovered(cut).0 == Found(x);
    }
  }

  lemma {:induction false} NothingToLoad(d: Dir)
    ensures Recovered(d).0 == Corrupt ==> forall temp, backup, way :: LoadSteps(d, temp, backup, way) == []
  {
    hide Recovered;
  }

  lemma {:induction false} NoneComplete(d: Dir)
    ensures d.others == map[] ==> Candidates(d) == {}
  {
  }

  lemma {:induction false} RecoveredKinds(d: Dir)
    ensures Recovered(d).0 in {Nothing, Corrupt} || exists r :: Recovered(d).0 == Found(r)
  {
  }

  /** With neither a registry nor a journal, a load succeeds exactly when there
      is no artefact at all or the complete ones, at least one, agree. */
  lemma {:induction false} WithoutRegistry(d: Dir)
    requires d.target.None? && d.journal.None?
    ensures Recovered(d).0 == Nothing <==> d.others == map[]
    ensures Recovered(d).0.Found? <==> exists registry :: AgreeOn(d, registry)
    ensures forall registry :: Recovered(d).0 == Found(registry) ==> AgreeOn(d, registry)
  {
    var all := Candidates(d);
    if |all| == 1 {
      OnlyOne(all);
      var registry :| registry in all;
      forall n | n in d.others && d.others[n].Whole? ensures d.others[n].registry == registry {
        assert d.others[n].registry in all;
      }
      assert AgreeOn(d, registry);
    }
    forall registry | AgreeOn(d, registry) ensures |all| == 1 {
      assert all == {registry};
    }
  }
}
