/**
 Server-side handling of one operation: parsing and validation of the patch
 (apps/api/src/mutation.rs) and the four kinds of write on the entity tables
 (apply_list, apply_task, apply_step and apply_day_plan of apps/api/src/sync.rs).
 */
module Mutations {
  import opened Prelude
  import opened Rows

  datatype Code =
    | ValidationFailed
    | EntityNotFound
    | EntityTombstoned
    | EntityAlreadyExists
    | InvalidState
    | InvalidParent
    | ConstraintViolation

  /** A table row; `rev` is the `server_rev` column. */
  datatype Row = Row(data: Data, rev: nat)

  type Table = map<Key, Row>

  /** What libraries that are not part of this model do: they are arbitrary, so
      every theorem holds for every choice. `uuid` and `date` parse a text and
      print the value again, as a table column prints it. */
  datatype Libraries = Libraries(
    uuid: string -> Option<string>,
    date: string -> Option<string>,
    instant: string -> bool,
    timezone: string -> bool,
    recurrence: string -> bool,
    normalizeTags: seq<string> -> Option<seq<string>>,
    idTakenElsewhere: Key -> bool)

  /** What is printed is parsed again as the same value. */
  ghost predicate Faithful(parse: string -> Option<string>) {
    forall s | parse(s).Some? :: parse(parse(s).value) == parse(s)
  }

  type Rules = r: Libraries | Faithful(r.uuid) && Faithful(r.date)
    ghost witness Libraries(s => None, s => None, s => false, s => false, s => false, ts => None, k => false)

  function Printed(parse: string -> Option<string>, v: Value): Value {
    if v.Text? && parse(v.text).Some? then Text(parse(v.text).value) else v
  }

  /** What a column holds of a value sent for it: ids and days are stored
      parsed, whatever their spelling. */
  function Canonical(r: Rules, f: Field, v: Value): Value {
    match f
    case ListId | SeriesId | TaskId => Printed(r.uuid, v)
    case DueOn | LocalDate => Printed(r.date, v)
    case _ => v
  }

  function Parsed(r: Rules, patch: Fields): Fields {
    map f | f in patch :: Canonical(r, f, patch[f])
  }

  const NIL_UUID := "00000000-0000-0000-0000-000000000000"

  predicate Whitespace(c: char) {
    c in {'\t', '\n', '\U{B}', '\U{C}', '\r', ' ', '\U{85}', '\U{A0}', '\U{1680}', '\U{2028}', '\U{2029}',
          '\U{202F}', '\U{205F}', '\U{3000}'}
    || '\U{2000}' <= c <= '\U{200A}'
  }

  predicate BoundedText(s: string, max: nat) {
    '\0' !in s && |s| <= max
  }

  predicate NonBlankText(s: string, max: nat) {
    BoundedText(s, max) && exists i :: 0 <= i < |s| && !Whitespace(s[i])
  }

  /** Every column a table of this entity stores. */
  predicate Column(e: Entity, f: Field) {
    Mutable(e, f) || (e == Task && f == TagList)
  }

  function Columns(e: Entity): (fs: set<Field>)
    ensures forall f :: f in fs <==> Column(e, f)
  {
    MutableFieldListIsMutable(e);
    (set f | f in MutableFieldList(e)) + (if e == Task then {TagList} else {})
  }

  predicate NullOr(v: Value, ok: string -> bool) {
    v == Null || (v.Text? && v.text != "" && ok(v.text))
  }

  /** Type, nullability and content rules of one stored column. */
  predicate ValidCell(r: Rules, e: Entity, f: Field, v: Value) {
    match f
    case Name => v.Text? && NonBlankText(v.text, 120)
    case Title => v.Text? && NonBlankText(v.text, 1000)
    case Rank => v.Text? && NonBlankText(v.text, 128)
    case Note => v.Text? && BoundedText(v.text, 100_000)
    case Color => v == Null || (v.Text? && BoundedText(v.text, 64))
    case Icon => v == Null || (v.Text? && BoundedText(v.text, 128))
    case Status => v == Text("open") || v == Text("completed")
    case Important | IsCompleted => v.Flag?
    case ListId | SeriesId => NullOr(v, s => r.uuid(s) == Some(s))
    case TaskId => v.Text? && v.text != "" && r.uuid(v.text) == Some(v.text)
    case DueOn => NullOr(v, s => r.date(s) == Some(s))
    case LocalDate => v.Text? && v.text != "" && r.date(v.text) == Some(v.text)
    case RemindAt | CompletedAt => NullOr(v, r.instant)
    case RemindTimezone => v == Null || (v.Text? && NonBlankText(v.text, 64) && r.timezone(v.text))
    case OccurrenceKey => v == Null || (v.Text? && NonBlankText(v.text, 64))
    case Recurrence => v == Null || (v.Object? && r.recurrence(v.json))
    case TagList => v.Tags? && r.normalizeTags(v.tags) == Some(v.tags)
    case Unknown(_) => false
  }

  predicate ValidFields(r: Rules, e: Entity, v: Fields) {
    v.Keys == Columns(e) && forall f | f in v :: ValidCell(r, e, f, v[f])
  }

  function EmptyFields(e: Entity): Fields {
    match e
    case List => map[Name := Text(""), Color := Null, Icon := Null, Rank := Text("a0")]
    case Task => map[ListId := Null, Title := Text(""), Note := Text(""), Status := Text("open"),
                     Important := Flag(false), TagList := Tags([]), DueOn := Null, RemindAt := Null,
                     RemindTimezone := Null, Rank := Text("a0"), SeriesId := Null, OccurrenceKey := Null,
                     Recurrence := Null, CompletedAt := Null]
    case Step => map[TaskId := Text(NIL_UUID), Title := Text(""), IsCompleted := Flag(false), Rank := Text("a0")]
    case DayPlan => map[TaskId := Text(NIL_UUID), LocalDate := Text(""), Rank := Text("a0")]
  }

  /** The patch with its tags normalised; None when they cannot be. */
  function NormalizedPatch(r: Rules, patch: Fields): Option<Fields> {
    if TagList !in patch then Some(patch)
    else if !patch[TagList].Tags? then None
    else
      var ts := r.normalizeTags(patch[TagList].tags);
      if ts.None? then None else Some(patch[TagList := Tags(ts.value)])
  }

  /** Parse, apply and validate a patch over existing column values: the new
      values, and the patch as it is logged, still spelled as it was sent. */
  function Merge(r: Rules, e: Entity, base: Fields, patch: Fields): (result: Result<(Fields, Fields), Code>)
    ensures result.Ok? ==> ValidFields(r, e, result.value.0)
    ensures result.Ok? ==> result.value.0 == base + Parsed(r, result.value.1)
    ensures result.Ok? ==> result.value.1.Keys == patch.Keys
  {
    var normalized := NormalizedPatch(r, patch);
    if normalized.None? then Err(ValidationFailed)
    else
      var values := base + Parsed(r, normalized.value);
      if ValidFields(r, e, values) then Ok((values, normalized.value)) else Err(ValidationFailed)
  }

  predicate Live(t: Table, k: Key) {
    k in t && !t[k].data.deleted
  }

  /** `ensure_active_list` and `ensure_active_task`. */
  predicate ParentActive(t: Table, e: Entity, v: Fields) {
    match e
    case List => true
    case Task => ListId in v && (v[ListId].Text? ==> Live(t, Key(List, v[ListId].text)))
    case Step | DayPlan => TaskId in v && v[TaskId].Text? && Live(t, Key(Task, v[TaskId].text))
  }

  predicate SameCell(a: Fields, b: Fields, f: Field) {
    f in a && f in b && a[f] == b[f] && a[f] != Null
  }

  /** The unique indexes on recurring tasks and on day-plan slots. */
  predicate Unique(t: Table, k: Key, v: Fields) {
    match k.entity
    case Task =>
      forall o | o in t && o.entity == Task && o != k ::
        !(SameCell(t[o].data.fields, v, SeriesId) && SameCell(t[o].data.fields, v, OccurrenceKey))
    case DayPlan =>
      forall o | o in t && o.entity == DayPlan && o != k ::
        !(SameCell(t[o].data.fields, v, TaskId) && SameCell(t[o].data.fields, v, LocalDate))
    case _ => true
  }

  predicate HasRequired(e: Entity, patch: Fields) {
    match e
    case List => Name in patch
    case Task => Title in patch
    case Step => TaskId in patch && Title in patch
    case DayPlan => TaskId in patch && LocalDate in patch
  }

  predicate NilParent(e: Entity, v: Fields) {
    (e == Step || e == DayPlan) && TaskId in v && v[TaskId] == Text(NIL_UUID)
  }

  function CheckStorable(r: Rules, t: Table, k: Key, v: Fields, creating: bool): Option<Code> {
    if !ParentActive(t, k.entity, v) then Some(InvalidParent)
    else if (creating && r.idTakenElsewhere(k)) || !Unique(t, k, v) then Some(ConstraintViolation)
    else None
  }

  /** A successful write: the table after it and the patch that goes into the
      change log. */
  datatype Write = Write(table: Table, logged: Fields)

  function ApplyCreate(r: Rules, t: Table, c: Change, seqNo: nat): Result<Write, Code> {
    if !HasRequired(c.key.entity, c.patch) then Err(ValidationFailed)
    else if c.key in t then Err(EntityAlreadyExists)
    else
      var merged :- Merge(r, c.key.entity, EmptyFields(c.key.entity), c.patch);
      if NilParent(c.key.entity, merged.0) then Err(ValidationFailed)
      else
        var refused := CheckStorable(r, t, c.key, merged.0, true);
        if refused.Some? then Err(refused.value)
        else Ok(Write(t[c.key := Row(Data(false, merged.0), seqNo)], merged.0))
  }

  function ApplyUpdate(r: Rules, t: Table, c: Change, seqNo: nat): Result<Write, Code>
    requires c.key in t && (c.kind == Patch || c.kind == Restore)
  {
    var merged :- Merge(r, c.key.entity, t[c.key].data.fields, c.patch);
    var refused := CheckStorable(r, t, c.key, merged.0, false);
    if refused.Some? then Err(refused.value)
    else
      var deleted := t[c.key].data.deleted && c.kind == Patch;
      Ok(Write(t[c.key := Row(Data(deleted, merged.0), seqNo)], merged.1))
  }

  function ApplyMutation(r: Rules, t: Table, c: Change, seqNo: nat): Result<Write, Code> {
    match c.kind
    case Create => ApplyCreate(r, t, c, seqNo)
    case Patch =>
      if c.key !in t then Err(EntityNotFound)
      else if t[c.key].data.deleted then Err(EntityTombstoned)
      else if c.patch == map[] then Err(ValidationFailed)
      else ApplyUpdate(r, t, c, seqNo)
    case Delete =>
      if c.key !in t then Err(EntityNotFound)
      else if t[c.key].data.deleted then Err(EntityTombstoned)
      else if c.patch != map[] then Err(ValidationFailed)
      else Ok(Write(t[c.key := Row(Data(true, t[c.key].data.fields), seqNo)], map[]))
    case Restore =>
      if c.key !in t then Err(EntityNotFound)
      else if !t[c.key].data.deleted then Err(InvalidState)
      else ApplyUpdate(r, t, c, seqNo)
  }

  predicate ValidTable(r: Rules, t: Table) {
    forall k | k in t :: ValidFields(r, k.entity, t[k].data.fields)
  }

  /** The one row an accepted operation rewrites, from what it logs. */
  function RowAfter(r: Rules, t: Table, c: Change, logged: Fields): Data {
    Rewrite(if c.key in t then t[c.key].data else EMPTY_DATA, c.kind, Parsed(r, logged))
  }

  lemma {:induction false} CanonicalTwice(r: Rules, f: Field, v: Value)
    ensures Canonical(r, f, Canonical(r, f, v)) == Canonical(r, f, v)
  {
  }

  lemma {:induction false} ValidIsParsed(r: Rules, e: Entity, v: Fields)
    requires ValidFields(r, e, v)
    ensures Parsed(r, v) == v
  {
    forall f | f in v ensures Canonical(r, f, v[f]) == v[f] {
      assert ValidCell(r, e, f, v[f]);
    }
  }

  lemma {:induction false} CreateEffect(r: Rules, t: Table, c: Change, seqNo: nat)
    requires c.kind == Create && ApplyCreate(r, t, c, seqNo).Ok?
    ensures var a := ApplyCreate(r, t, c, seqNo).value;
            && c.key !in t
            && a.table == t[c.key := Row(RowAfter(r, t, c, a.logged), seqNo)]
            && ValidFields(r, c.key.entity, a.logged)
  {
    ValidIsParsed(r, c.key.entity, ApplyCreate(r, t, c, seqNo).value.logged);
  }

  lemma {:induction false} UpdateEffect(r: Rules, t: Table, c: Change, seqNo: nat)
    requires c.key in t && (c.kind == Patch || c.kind == Restore) && ApplyUpdate(r, t, c, seqNo).Ok?
    requires c.kind == Patch ==> !t[c.key].data.deleted
    ensures var a := ApplyUpdate(r, t, c, seqNo).value;
            && a.table == t[c.key := Row(RowAfter(r, t, c, a.logged), seqNo)]
            && ValidFields(r, c.key.entity, RowAfter(r, t, c, a.logged).fields)
            && a.logged.Keys == c.patch.Keys
  {
  }

  /** What any accepted operation does: one row is rewritten by what is logged,
      parsed, stamped with the allocated sequence number, and stays valid. */
  lemma {:induction false} ApplyMutationEffect(r: Rules, t: Table, c: Change, seqNo: nat)
    requires ValidTable(r, t)
    requires ApplyMutation(r, t, c, seqNo).Ok?
    ensures var a := ApplyMutation(r, t, c, seqNo).value;
            && a.table == t[c.key := Row(RowAfter(r, t, c, a.logged), seqNo)]
            && ValidTable(r, a.table)
            && (c.kind == Create <==> c.key !in t)
            && (c.kind == Create ==> ValidFields(r, c.key.entity, a.logged))
            && (c.kind != Create ==> a.logged.Keys == c.patch.Keys)
  {
    match c.kind
    case Create => CreateEffect(r, t, c, seqNo);
    case Delete =>
    case _ => UpdateEffect(r, t, c, seqNo);
  }
}
