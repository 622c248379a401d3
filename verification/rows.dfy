/**
 Synchronised rows and the changes that rewrite them: what `materialize`,
 `applyMutationToData` and `applyServerChange` of the web repository compute,
 and the last-writer-wins reading of a replayed change log.
 */
module Rows {
  import opened Prelude
  import opened Dates

  datatype Entity = List | Task | Step | DayPlan

  datatype Key = Key(entity: Entity, id: string)

  /** Column names; `Unknown` is any name outside the whitelists. */
  datatype Field =
    | Name | Color | Icon | Rank
    | ListId | Title | Note | Status | Important | DueOn | RemindAt | RemindTimezone
    | SeriesId | OccurrenceKey | Recurrence | CompletedAt | TagList
    | TaskId | IsCompleted | LocalDate
    | Unknown(name: string)

  datatype Value =
    | Null
    | Text(text: string)
    | Flag(flag: bool)
    | Tags(tags: seq<string>)
    | Object(json: string)

  type Fields = map<Field, Value>

  datatype Kind = Create | Patch | Delete | Restore

  datatype Change = Change(key: Key, kind: Kind, patch: Fields)

  /** A stored row without its clock columns. */
  datatype Data = Data(deleted: bool, fields: Fields)

  /** MUTABLE_FIELDS in the order of the source. */
  function MutableFieldList(e: Entity): seq<Field> {
    match e
    case Task => [ListId, Title, Note, Status, Important, DueOn, RemindAt, RemindTimezone, Rank,
                  SeriesId, OccurrenceKey, Recurrence, CompletedAt]
    case List => [Name, Color, Icon, Rank]
    case Step => [TaskId, Title, IsCompleted, Rank]
    case DayPlan => [TaskId, LocalDate, Rank]
  }

  predicate Mutable(e: Entity, f: Field) {
    match e
    case Task => f in {ListId, Title, Note, Status, Important, DueOn, RemindAt, RemindTimezone, Rank,
                       SeriesId, OccurrenceKey, Recurrence, CompletedAt}
    case List => f in {Name, Color, Icon, Rank}
    case Step => f in {TaskId, Title, IsCompleted, Rank}
    case DayPlan => f in {TaskId, LocalDate, Rank}
  }

  lemma {:induction false} MutableFieldListIsMutable(e: Entity)
    ensures forall f :: f in MutableFieldList(e) <==> Mutable(e, f)
  {
  }

  function Lookup(m: Fields, f: Field): Option<Value> {
    if f in m then Some(m[f]) else None
  }

  function OptionalText(v: Option<Value>): Value {
    if v.Some? && v.value.Text? && v.value.text != "" then v.value else Null
  }

  function RequiredText(v: Option<Value>, fallback: string): Value {
    if v.Some? && v.value.Text? then v.value else Text(fallback)
  }

  /** What `taskFromData`, `listFromData`, `stepFromData` and `dayPlanFromData`
      put into one column. */
  function Coerce(f: Field, v: Option<Value>): Value {
    match f
    case Name | Title | Note | TaskId => RequiredText(v, "")
    case Rank => RequiredText(v, "a0")
    case Status => if v == Some(Text("completed")) then Text("completed") else Text("open")
    case Important | IsCompleted => Flag(v == Some(Flag(true)))
    case DueOn => if v.Some? && v.value.Text? && IsDateOnly(v.value.text) then v.value else Null
    case LocalDate =>
      if v.Some? && v.value.Text? && IsDateOnly(v.value.text) then v.value else Text("1970-01-01")
    case Recurrence => if v.Some? && v.value.Object? then v.value else Null
    case _ => OptionalText(v)
  }

  function Materialize(e: Entity, d: Data): Data {
    Data(d.deleted, map f | f in MutableFieldList(e) :: Coerce(f, Lookup(d.fields, f)))
  }

  function MutablePatch(e: Entity, patch: Fields): Fields {
    map f | f in patch && Mutable(e, f) :: patch[f]
  }

  /** The effect of a kind with the field values it may write. */
  function Rewrite(base: Data, kind: Kind, fields: Fields): Data {
    match kind
    case Create => Data(false, fields)
    case Patch => Data(base.deleted, base.fields + fields)
    case Delete => Data(true, base.fields)
    case Restore => Data(false, base.fields + fields)
  }

  /** A change as the web client sees it: only mutable fields. */
  function ApplyChange(base: Data, c: Change): Data {
    Rewrite(base, c.kind, MutablePatch(c.key.entity, c.patch))
  }

  /** The loop over MUTABLE_FIELDS that copies the columns a patch names. */
  method CopyNamed(fields: Fields, patch: Fields, names: seq<Field>) returns (data: Fields)
    ensures data == fields + Picked(patch, names)
  {
    data := fields;
    for i := 0 to |names|
      invariant data == fields + Picked(patch, names[..i])
    {
      PickedNext(patch, names, i);
      if names[i] in patch {
        data := data[names[i] := patch[names[i]]];
      }
    }
    assert names[..|names|] == names;
  }

  /** `applyMutationToData` and `applyServerChange`, which differ only in where
      the id and the clock columns come from. */
  method ApplyToData(base: Data, c: Change) returns (data: Data)
    ensures data == ApplyChange(base, c)
  {
    data := if c.kind == Create then EMPTY_DATA else base;
    if c.kind == Delete {
      return data.(deleted := true);
    }
    if c.kind == Restore {
      data := data.(deleted := false);
    }
    var copied := CopyNamed(data.fields, c.patch, MutableFieldList(c.key.entity));
    data := data.(fields := copied);
    PickedAll(c.key.entity, c.patch);
  }

  function Picked(patch: Fields, names: seq<Field>): Fields {
    map f | f in names && f in patch :: patch[f]
  }

  lemma {:induction false} PickedNext(patch: Fields, names: seq<Field>, i: nat)
    requires i < |names|
    ensures Picked(patch, names[..i + 1])
         == if names[i] in patch then Picked(patch, names[..i])[names[i] := patch[names[i]]]
            else Picked(patch, names[..i])
  {
    assert names[..i + 1] == names[..i] + [names[i]];
  }

  lemma {:induction false} PickedAll(e: Entity, patch: Fields)
    ensures Picked(patch, MutableFieldList(e)) == MutablePatch(e, patch)
  {
    MutableFieldListIsMutable(e);
  }

  // ---------------------------------------------------------------------
  // Replaying changes onto one key
  // ---------------------------------------------------------------------

  const EMPTY_DATA := Data(false, map[])

  function Base(s: Option<Data>): Data {
    if s.Some? then s.value else EMPTY_DATA
  }

  function StepState(s: Option<Data>, k: Key, c: Change): Option<Data> {
    if c.key == k then Some(ApplyChange(Base(s), c)) else s
  }

  function Replay(s: Option<Data>, k: Key, cs: seq<Change>): Option<Data>
    decreases |cs|
  {
    if cs == [] then s else StepState(Replay(s, k, cs[..|cs| - 1]), k, cs[|cs| - 1])
  }

  lemma {:induction false} ReplayConcat(s: Option<Data>, k: Key, a: seq<Change>, b: seq<Change>)
    ensures Replay(s, k, a + b) == Replay(Replay(s, k, a), k, b)
    decreases |b|
  {
    if b == [] {
      assert a + b == a;
    } else {
      assert (a + b)[..|a + b| - 1] == a + b[..|b| - 1];
      ReplayConcat(s, k, a, b[..|b| - 1]);
    }
  }

  /** What can be observed of a row: that it exists, its deleted flag, and one
      displayed column. */
  datatype Slot = Presence | Deletion | Column(f: Field)

  predicate ValidSlot(e: Entity, slot: Slot) {
    slot.Column? ==> Mutable(e, slot.f)
  }

  function Read(s: Option<Data>, slot: Slot): Value {
    match slot
    case Presence => Flag(s.Some?)
    case Deletion => Flag(Base(s).deleted)
    case Column(f) => Coerce(f, Lookup(Base(s).fields, f))
  }

  /** Two states that no reader of a row of entity `e` can tell apart. */
  ghost predicate SameView(e: Entity, x: Option<Data>, y: Option<Data>) {
    forall slot | ValidSlot(e, slot) :: Read(x, slot) == Read(y, slot)
  }

  predicate Writes(c: Change, k: Key, slot: Slot) {
    c.key == k &&
    match slot
    case Presence => true
    case Deletion => c.kind != Patch
    case Column(f) => c.kind == Create || (c.kind != Delete && f in c.patch)
  }

  function Written(c: Change, slot: Slot): Value {
    match slot
    case Presence => Flag(true)
    case Deletion => Flag(c.kind == Delete)
    case Column(f) => Coerce(f, Lookup(c.patch, f))
  }

  predicate NoWrite(cs: seq<Change>, k: Key, slot: Slot) {
    forall i | 0 <= i < |cs| :: !Writes(cs[i], k, slot)
  }

  function LastWritten(cs: seq<Change>, k: Key, slot: Slot): Value
    requires !NoWrite(cs, k, slot)
    decreases |cs|
  {
    var last := cs[|cs| - 1];
    if Writes(last, k, slot) then Written(last, slot) else LastWritten(cs[..|cs| - 1], k, slot)
  }

  lemma {:induction false} StepRead(s: Option<Data>, k: Key, c: Change, slot: Slot)
    requires ValidSlot(k.entity, slot)
    ensures Read(StepState(s, k, c), slot) == if Writes(c, k, slot) then Written(c, slot) else Read(s, slot)
  {
  }

  /** Last writer wins: a replay leaves in each slot the last value written to
      it, or what was there before. */
  lemma {:induction false} ReadReplay(s: Option<Data>, k: Key, cs: seq<Change>, slot: Slot)
    requires ValidSlot(k.entity, slot)
    ensures Read(Replay(s, k, cs), slot)
         == if NoWrite(cs, k, slot) then Read(s, slot) else LastWritten(cs, k, slot)
    decreases |cs|
  {
    if cs != [] {
      ReadReplay(s, k, cs[..|cs| - 1], slot);
      StepRead(Replay(s, k, cs[..|cs| - 1]), k, cs[|cs| - 1], slot);
    }
  }

  /** States that agree on every slot a replay does not write end up alike. */
  lemma {:induction false} ReplayAgree(x: Option<Data>, y: Option<Data>, k: Key, cs: seq<Change>)
    requires forall slot | ValidSlot(k.entity, slot) && NoWrite(cs, k, slot) :: Read(x, slot) == Read(y, slot)
    ensures SameView(k.entity, Replay(x, k, cs), Replay(y, k, cs))
  {
    forall slot | ValidSlot(k.entity, slot)
      ensures Read(Replay(x, k, cs), slot) == Read(Replay(y, k, cs), slot)
    {
      ReadReplay(x, k, cs, slot);
      ReadReplay(y, k, cs, slot);
    }
  }

  /** Loading a state that already contains part of a log and then replaying the
      whole of that part again changes nothing a reader can see. */
  lemma {:induction false} ReplayOverLaterState(s: Option<Data>, loaded: Option<Data>, k: Key, seen: seq<Change>,
                                                unseen: seq<Change>)
    requires SameView(k.entity, loaded, Replay(s, k, seen))
    ensures SameView(k.entity, Replay(loaded, k, seen + unseen), Replay(s, k, seen + unseen))
  {
    forall slot | ValidSlot(k.entity, slot) && NoWrite(seen + unseen, k, slot)
      ensures Read(loaded, slot) == Read(s, slot)
    {
      assert NoWrite(seen, k, slot) by {
        forall i | 0 <= i < |seen| ensures !Writes(seen[i], k, slot) {
          assert seen[i] == (seen + unseen)[i];
        }
      }
      ReadReplay(s, k, seen, slot);
    }
    ReplayAgree(loaded, s, k, seen + unseen);
  }

  lemma {:induction false} CoerceIdempotent(f: Field, v: Option<Value>)
    ensures Coerce(f, Some(Coerce(f, v))) == Coerce(f, v)
  {
  }

  lemma {:induction false} MaterializeSameView(e: Entity, d: Data)
    ensures SameView(e, Some(Materialize(e, d)), Some(d))
  {
    MutableFieldListIsMutable(e);
    forall slot | ValidSlot(e, slot)
      ensures Read(Some(Materialize(e, d)), slot) == Read(Some(d), slot)
    {
      if slot.Column? {
        CoerceIdempotent(slot.f, Lookup(d.fields, slot.f));
      }
    }
  }

  /** Rows look alike exactly when they materialise to the same row. */
  lemma {:induction false} SameViewIffSameRow(e: Entity, x: Data, y: Data)
    ensures SameView(e, Some(x), Some(y)) <==> Materialize(e, x) == Materialize(e, y)
  {
    MutableFieldListIsMutable(e);
    var mx, my := Materialize(e, x), Materialize(e, y);
    if SameView(e, Some(x), Some(y)) {
      assert Read(Some(x), Deletion) == Read(Some(y), Deletion);
      forall f | f in MutableFieldList(e) ensures mx.fields[f] == my.fields[f] {
        assert Read(Some(x), Column(f)) == Read(Some(y), Column(f));
      }
      assert mx.fields.Keys == my.fields.Keys;
    }
    if mx == my {
      forall slot | ValidSlot(e, slot) ensures Read(Some(x), slot) == Read(Some(y), slot) {
        if slot.Column? {
          assert mx.fields[slot.f] == my.fields[slot.f];
        }
      }
    }
  }
}
