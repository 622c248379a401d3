/**
 Shared lists: optimistic concurrency by revision, receipts per operation id,
 membership and invitations (apps/api/src/shared.rs). One committed transaction
 on one list is one step.
 */
module Shared {
  import opened Prelude

  type User = string

  datatype Role = Owner | Editor | Viewer

  datatype Member = Member(role: Role, active: bool)

  datatype TaskRow = TaskRow(title: string, note: string, status: string, important: bool, dueOn: Option<string>,
                             deleted: bool)

  datatype Answer = Pending | Accepted | Declined

  datatype Invitation = Invitation(email: string, role: Role, answer: Answer, respondedBy: Option<User>)

  datatype Receipt = Receipt(actor: User, revision: nat)

  datatype SharedList = SharedList(
    revision: nat,
    deleted: bool,
    members: map<User, Member>,
    tasks: map<string, TaskRow>,
    invitations: map<string, Invitation>,
    receipts: map<string, Receipt>)

  /** `id` is the request's id or else a fresh one. */
  datatype Edit =
    | CreateTask(id: string, title: string, note: string, important: bool, dueOn: Option<string>)
    | PatchTask(id: string, newTitle: Option<string>, newNote: Option<string>, newStatus: Option<string>,
                newImportant: Option<bool>, newDueOn: Option<Option<string>>)
    | DeleteTask(id: string)
    | AddMember(id: string, email: string, roleName: string)
    | PatchMember(user: User, roleName: string)
    | RemoveMember(user: User)
    | DeleteList
    | Accept(id: string)
    | Decline(id: string)

  /** `header` is If-Match when present, and inside it the number if it is one;
      `freshId` is the id drawn for the receipt of a request that names none. */
  datatype Request = Request(actor: User, opId: Option<string>, freshId: string, header: Option<Option<int>>,
                             bodyRevision: Option<int>, edit: Edit)

  datatype Reply = Written(revision: nat) | AlreadyDone

  datatype Error =
    | Validation
    | ListNotFound
    | AccessRevoked
    | Forbidden
    | OpIdConflict
    | RevisionRequired
    | RevisionConflict(current: nat)
    | TaskNotFound
    | MemberNotFound
    | MemberExists
    | InvitationNotFound
    | InvitationNotPending
    | Database

  /** Text and date checks, registered addresses and task ids of other lists:
      arbitrary, so every theorem holds for every choice. */
  datatype Env = Env(
    title: string -> Option<string>,
    note: string -> Option<string>,
    dueOn: Option<string> -> bool,
    normalizeEmail: string -> Option<string>,
    emailOf: User -> Option<string>,
    idTakenElsewhere: string -> bool)

  // ---------------------------------------------------------------------
  // Checks
  // ---------------------------------------------------------------------

  function ParseRole(name: string): Option<Role> {
    match name
    case "owner" => Some(Owner)
    case "editor" => Some(Editor)
    case "viewer" => Some(Viewer)
    case _ => None
  }

  function ParseInviteRole(name: string): Option<Role> {
    var role := ParseRole(name);
    if role == Some(Owner) then None else role
  }

  function ExpectedRevision(q: Request): Result<int, Error> {
    if q.header == Some(None) then Err(Validation)
    else if q.header.Some? && q.bodyRevision.Some? && q.header.value.value != q.bodyRevision.value then Err(Validation)
    else if q.header.None? && q.bodyRevision.None? then Err(RevisionRequired)
    else
      var revision := if q.header.Some? then q.header.value.value else q.bodyRevision.value;
      if revision <= 0 then Err(Validation) else Ok(revision)
  }

  /** What is refused before the list is looked at. */
  predicate Malformed(env: Env, q: Request) {
    match q.edit
    case PatchTask(_, title, note, status, important, dueOn) =>
      title.None? && note.None? && status.None? && important.None? && dueOn.None?
    case AddMember(_, email, role) => ParseInviteRole(role).None? || env.normalizeEmail(email).None?
    case PatchMember(user, role) => ParseRole(role).None? || (user == q.actor && ParseRole(role) != Some(Owner))
    case RemoveMember(user) => user == q.actor
    case _ => false
  }

  predicate ActiveMember(s: SharedList, u: User) {
    u in s.members && s.members[u].active
  }

  /** `lock_access`. */
  function Access(s: SharedList, u: User): Result<Role, Error> {
    if !s.deleted && ActiveMember(s, u) then Ok(s.members[u].role)
    else if !s.deleted && u in s.members then Err(AccessRevoked)
    else Err(ListNotFound)
  }

  predicate Allowed(edit: Edit, role: Role) {
    match edit
    case CreateTask(_, _, _, _, _) | PatchTask(_, _, _, _, _, _) | DeleteTask(_) => role == Owner || role == Editor
    case _ => role == Owner
  }

  /** `replay_receipt`. */
  function Replayed(s: SharedList, q: Request): Result<bool, Error> {
    if q.opId.None? || q.opId.value !in s.receipts then Ok(false)
    else if s.receipts[q.opId.value].actor == q.actor then Ok(true)
    else Err(OpIdConflict)
  }

  predicate LiveTask(s: SharedList, id: string) {
    id in s.tasks && !s.tasks[id].deleted
  }

  /** What a replayed request is answered with. */
  function ReplayReply(s: SharedList, edit: Edit): (result: Result<Reply, Error>)
    ensures result.Ok? ==> result.value == AlreadyDone
  {
    match edit
    case PatchTask(id, _, _, _, _, _) => if LiveTask(s, id) then Ok(AlreadyDone) else Err(TaskNotFound)
    case PatchMember(user, _) => if ActiveMember(s, user) then Ok(AlreadyDone) else Err(MemberNotFound)
    case _ => Ok(AlreadyDone)
  }

  // ---------------------------------------------------------------------
  // Effects
  // ---------------------------------------------------------------------

  function OrElse<T>(o: Option<T>, d: T): T {
    if o.Some? then o.value else d
  }

  function Patched(env: Env, row: TaskRow, edit: Edit): Result<TaskRow, Error>
    requires edit.PatchTask?
  {
    var title := if edit.newTitle.Some? then env.title(edit.newTitle.value) else Some(row.title);
    var note := if edit.newNote.Some? then env.note(edit.newNote.value) else Some(row.note);
    var status := OrElse(edit.newStatus, row.status);
    var dueOn := OrElse(edit.newDueOn, row.dueOn);
    if title.None? || note.None? || !env.dueOn(dueOn) then Err(Validation)
    else if edit.newStatus.Some? && status != "open" && status != "completed" then Err(Validation)
    else Ok(TaskRow(title.value, note.value, status, OrElse(edit.newImportant, row.important), dueOn, row.deleted))
  }

  predicate IsMemberAddress(env: Env, s: SharedList, email: string) {
    exists u :: u in s.members && s.members[u].active && env.emailOf(u) == Some(email)
  }

  predicate PendingFor(s: SharedList, email: string, id: string) {
    id in s.invitations && s.invitations[id].email == email && s.invitations[id].answer == Pending
  }

  function Invited(s: SharedList, edit: Edit, email: string, role: Role): Result<SharedList, Error>
    requires edit.AddMember?
  {
    var open := set id | id in s.invitations && PendingFor(s, email, id);
    if open != {} then
      Ok(s.(invitations := map id | id in s.invitations ::
              if id in open then s.invitations[id].(role := role) else s.invitations[id]))
    else if edit.id in s.invitations then Err(Database)
    else Ok(s.(invitations := s.invitations[edit.id := Invitation(email, role, Pending, None)]))
  }

  /** The rows an accepted edit changes. */
  function Effect(env: Env, s: SharedList, edit: Edit): Result<SharedList, Error> {
    match edit
    case CreateTask(id, title, note, important, dueOn) =>
      if env.title(title).None? || env.note(note).None? || !env.dueOn(dueOn) then Err(Validation)
      else if id in s.tasks || env.idTakenElsewhere(id) then Err(Database)
      else
        Ok(s.(tasks := s.tasks[id := TaskRow(env.title(title).value, env.note(note).value, "open", important, dueOn,
                                             false)]))
    case PatchTask(id, _, _, _, _, _) =>
      if !LiveTask(s, id) then Err(TaskNotFound)
      else
        var row :- Patched(env, s.tasks[id], edit);
        Ok(s.(tasks := s.tasks[id := row]))
    case DeleteTask(id) =>
      if !LiveTask(s, id) then Err(TaskNotFound)
      else Ok(s.(tasks := s.tasks[id := s.tasks[id].(deleted := true)]))
    case AddMember(_, email, role) =>
      var address := env.normalizeEmail(email);
      if address.None? || ParseInviteRole(role).None? then Err(Validation)
      else if IsMemberAddress(env, s, address.value) then Err(MemberExists)
      else Invited(s, edit, address.value, ParseInviteRole(role).value)
    case PatchMember(user, role) =>
      if ParseRole(role).None? then Err(Validation)
      else if !ActiveMember(s, user) then Err(MemberNotFound)
      else Ok(s.(members := s.members[user := Member(ParseRole(role).value, true)]))
    case RemoveMember(user) =>
      if !ActiveMember(s, user) then Err(MemberNotFound)
      else Ok(s.(members := s.members[user := s.members[user].(active := false)]))
    case DeleteList => Ok(s.(deleted := true))
    case Accept(_) | Decline(_) => Err(Validation)
  }

  /** Bump the revision and insert the receipt. */
  function Commit(edited: SharedList, q: Request): (result: Result<(SharedList, Reply), Error>)
    ensures result.Err? <==> OrElse(q.opId, q.freshId) in edited.receipts
    ensures result.Ok? ==>
              var (after, reply) := result.value;
              && reply == Written(after.revision) && after.revision == edited.revision + 1
              && after.receipts.Keys == edited.receipts.Keys + {OrElse(q.opId, q.freshId)}
              && after.receipts[OrElse(q.opId, q.freshId)] == Receipt(q.actor, after.revision)
              && forall id | id in edited.receipts :: after.receipts[id] == edited.receipts[id]
  {
    var key := OrElse(q.opId, q.freshId);
    var next := edited.revision + 1;
    if key in edited.receipts then Err(Database)
    else Ok((edited.(revision := next, receipts := edited.receipts[key := Receipt(q.actor, next)]), Written(next)))
  }

  function ServeEdit(env: Env, s: SharedList, q: Request): Result<(SharedList, Reply), Error> {
    if Malformed(env, q) then Err(Validation)
    else
      var role :- Access(s, q.actor);
      if !Allowed(q.edit, role) then Err(Forbidden)
      else
        var replayed :- Replayed(s, q);
        if replayed then
          var reply :- ReplayReply(s, q.edit);
          Ok((s, reply))
        else
          var expected :- ExpectedRevision(q);
          if s.revision != expected then Err(RevisionConflict(s.revision))
          else
            var edited :- Effect(env, s, q.edit);
            Commit(edited, q)
  }

  /** Answering an invitation names no revision. */
  function ServeInvitation(env: Env, s: SharedList, q: Request, id: string, answer: Answer): Result<(SharedList,
                           Reply), Error> {
    if id !in s.invitations || env.emailOf(q.actor) != Some(s.invitations[id].email) || s.deleted then
      Err(InvitationNotFound)
    else
      var invitation := s.invitations[id];
      var replayed :- Replayed(s, q);
      if replayed || (invitation.answer == answer && invitation.respondedBy == Some(q.actor)) then
        if answer == Accepted && !ActiveMember(s, q.actor) then Err(InvitationNotPending) else Ok((s, AlreadyDone))
      else if invitation.answer != Pending then Err(InvitationNotPending)
      else
        Commit(Answered(s, q.actor, id, answer), q)
  }

  function Answered(s: SharedList, actor: User, id: string, answer: Answer): SharedList
    requires id in s.invitations
  {
    var members :=
      if answer == Accepted && !ActiveMember(s, actor) then s.members[actor := Member(s.invitations[id].role, true)]
      else s.members;
    s.(members := members,
       invitations := s.invitations[id := s.invitations[id].(answer := answer, respondedBy := Some(actor))])
  }

  /** One request; an error leaves the list as it was. */
  function Serve(env: Env, s: SharedList, q: Request): Result<(SharedList, Reply), Error> {
    match q.edit
    case Accept(id) => ServeInvitation(env, s, q, id, Accepted)
    case Decline(id) => ServeInvitation(env, s, q, id, Declined)
    case _ => ServeEdit(env, s, q)
  }

  function After(env: Env, s: SharedList, q: Request): SharedList {
    var result := Serve(env, s, q);
    if result.Ok? then result.value.0 else s
  }

  function Created(owner: User, op: string): SharedList {
    SharedList(1, false, map[owner := Member(Owner, true)], map[], map[], map[op := Receipt(owner, 1)])
  }

  // ---------------------------------------------------------------------
  // The handlers
  // ---------------------------------------------------------------------

  class SharedListHandler {
    var revision: nat
    var deleted: bool
    var members: map<User, Member>
    var tasks: map<string, TaskRow>
    var invitations: map<string, Invitation>
    var receipts: map<string, Receipt>

    /** `create_list`. */
    constructor (owner: User, op: string)
      ensures State() == Created(owner, op)
    {
      revision, deleted := 1, false;
      members := map[owner := Member(Owner, true)];
      tasks, invitations := map[], map[];
      receipts := map[op := Receipt(owner, 1)];
    }

    function State(): SharedList
      reads this
    {
      SharedList(revision, deleted, members, tasks, invitations, receipts)
    }

    /** The statements between the revision check and `bump_revision`. */
    method Write(env: Env, edit: Edit) returns (error: Option<Error>)
      modifies this
      ensures var effect := Effect(env, old(State()), edit);
              if effect.Ok? then error == None && State() == effect.value
              else error == Some(effect.error) && State() == old(State())
    {
      error := None;
      match edit {
        case CreateTask(id, title, note, important, dueOn) =>
          var t, n := env.title(title), env.note(note);
          if t.None? || n.None? || !env.dueOn(dueOn) { return Some(Validation); }
          if id in tasks || env.idTakenElsewhere(id) { return Some(Database); }
          tasks := tasks[id := TaskRow(t.value, n.value, "open", important, dueOn, false)];
        case PatchTask(id, _, _, _, _, _) =>
          if id !in tasks || tasks[id].deleted { return Some(TaskNotFound); }
          var row := Patched(env, tasks[id], edit);
          if row.Err? { return Some(row.error); }
          tasks := tasks[id := row.value];
        case DeleteTask(id) =>
          if id !in tasks || tasks[id].deleted { return Some(TaskNotFound); }
          tasks := tasks[id := tasks[id].(deleted := true)];
        case AddMember(_, email, roleName) =>
          var address, role := env.normalizeEmail(email), ParseInviteRole(roleName);
          if address.None? || role.None? { return Some(Validation); }
          if IsMemberAddress(env, State(), address.value) { return Some(MemberExists); }
          var invited := Invited(State(), edit, address.value, role.value);
          if invited.Err? { return Some(invited.error); }
          invitations := invited.value.invitations;
        case PatchMember(user, roleName) =>
          var role := ParseRole(roleName);
          if role.None? { return Some(Validation); }
          if user !in members || !members[user].active { return Some(MemberNotFound); }
          members := members[user := Member(role.value, true)];
        case RemoveMember(user) =>
          if user !in members || !members[user].active { return Some(MemberNotFound); }
          members := members[user := members[user].(active := false)];
        case DeleteList =>
          deleted := true;
        case _ =>
          return Some(Validation);
      }
    }

    /** Roll back to `before`. */
    method Rollback(before: SharedList)
      modifies this
      ensures State() == before
    {
      revision, deleted, members, tasks := before.revision, before.deleted, before.members, before.tasks;
      invitations, receipts := before.invitations, before.receipts;
    }

    /** `bump_revision` and `insert_receipt`. */
    method BumpAndRecord(q: Request) returns (result: Result<Reply, Error>)
      modifies this
      ensures var commit := Commit(old(State()), q);
              if commit.Ok? then State() == commit.value.0 && result == Ok(commit.value.1)
              else result == Err(commit.error)
    {
      revision := revision + 1;
      var key := OrElse(q.opId, q.freshId);
      if key in receipts {
        return Err(Database);
      }
      receipts := receipts[key := Receipt(q.actor, revision)];
      return Ok(Written(revision));
    }

    /** The handlers that change tasks, members or the list. */
    method HandleEdit(env: Env, q: Request) returns (result: Result<Reply, Error>)
      modifies this
      ensures var spec := ServeEdit(env, old(State()), q);
              if spec.Ok? then State() == spec.value.0 && result == Ok(spec.value.1)
              else State() == old(State()) && result == Err(spec.error)
    {
      hide Effect, Commit, ReplayReply, Malformed, Allowed, ExpectedRevision, Replayed, Access;
      var before := State();
      if Malformed(env, q) {
        return Err(Validation);
      }
      var role := Access(before, q.actor);
      if role.Err? {
        return Err(role.error);
      }
      if !Allowed(q.edit, role.value) {
        return Err(Forbidden);
      }
      var replayed := Replayed(before, q);
      if replayed.Err? {
        return Err(replayed.error);
      }
      if replayed.value {
        return ReplayReply(before, q.edit);
      }
      var expected := ExpectedRevision(q);
      if expected.Err? {
        return Err(expected.error);
      }
      if revision != expected.value {
        return Err(RevisionConflict(revision));
      }
      var failed := Write(env, q.edit);
      if failed.Some? {
        return Err(failed.value);
      }
      result := BumpAndRecord(q);
      if result.Err? {
        Rollback(before);
      }
    }

    /** `accept_invitation` and `decline_invitation`. */
    method HandleInvitation(env: Env, q: Request, id: string, answer: Answer) returns (result: Result<Reply, Error>)
      modifies this
      ensures var spec := ServeInvitation(env, old(State()), q, id, answer);
              if spec.Ok? then State() == spec.value.0 && result == Ok(spec.value.1)
              else State() == old(State()) && result == Err(spec.error)
    {
      hide Commit, Replayed;
      var before := State();
      if id !in invitations || env.emailOf(q.actor) != Some(invitations[id].email) || deleted {
        return Err(InvitationNotFound);
      }
      var invitation := invitations[id];
      var replayed := Replayed(before, q);
      if replayed.Err? {
        return Err(replayed.error);
      }
      if replayed.value || (invitation.answer == answer && invitation.respondedBy == Some(q.actor)) {
        if answer == Accepted && !ActiveMember(before, q.actor) {
          return Err(InvitationNotPending);
        }
        return Ok(AlreadyDone);
      }
      if invitation.answer != Pending {
        return Err(InvitationNotPending);
      }
      if answer == Accepted && (q.actor !in members || !members[q.actor].active) {
        members := members[q.actor := Member(invitation.role, true)];
      }
      invitations := invitations[id := invitation.(answer := answer, respondedBy := Some(q.actor))];
      result := BumpAndRecord(q);
      if result.Err? {
        Rollback(before);
      }
    }
  }

  // ---------------------------------------------------------------------
  // Every reachable list is linear
  // ---------------------------------------------------------------------

  ghost predicate OneReceiptPerRevision(s: SharedList) {
    && 1 <= s.revision
    && (forall o | o in s.receipts :: 1 <= s.receipts[o].revision <= s.revision)
    && (forall o, p | o in s.receipts && p in s.receipts && o != p :: s.receipts[o].revision != s.receipts[p].revision)
    && (forall n: nat | 1 <= n <= s.revision :: HasReceipt(s, n))
  }

  ghost predicate HasReceipt(s: SharedList, n: nat) {
    exists o :: o in s.receipts && s.receipts[o].revision == n
  }

  ghost predicate HasOwner(s: SharedList) {
    exists u :: u in s.members && s.members[u] == Member(Owner, true)
  }

  ghost predicate Linear(s: SharedList) {
    && OneReceiptPerRevision(s)
    && HasOwner(s)
    && NoOwnerInvites(s)
  }

  lemma {:induction false} CommitKeepsReceipts(edited: SharedList, q: Request)
    requires OneReceiptPerRevision(edited) && Commit(edited, q).Ok?
    ensures OneReceiptPerRevision(Commit(edited, q).value.0)
  {
    var after := Commit(edited, q).value.0;
    forall n: nat | 1 <= n <= after.revision ensures HasReceipt(after, n) {
      if n <= edited.revision {
        assert HasReceipt(edited, n);
        var o :| o in edited.receipts && edited.receipts[o].revision == n;
        assert o in after.receipts && after.receipts[o].revision == n;
      } else {
        assert OrElse(q.opId, q.freshId) in after.receipts;
      }
    }
  }

  /** The acting owner keeps the ownership, whatever is edited. */
  lemma {:induction false} EffectKeepsOwner(env: Env, s: SharedList, q: Request)
    requires !Malformed(env, q) && Access(s, q.actor) == Ok(Owner) && Effect(env, s, q.edit).Ok?
    ensures HasOwner(Effect(env, s, q.edit).value)
  {
    var after := Effect(env, s, q.edit).value;
    assert q.actor in after.members && after.members[q.actor] == Member(Owner, true);
  }

  ghost predicate NoOwnerInvites(s: SharedList) {
    forall i | i in s.invitations :: s.invitations[i].role != Owner
  }

  lemma {:induction false} EffectKeepsInvites(env: Env, s: SharedList, edit: Edit)
    requires NoOwnerInvites(s) && Effect(env, s, edit).Ok?
    ensures NoOwnerInvites(Effect(env, s, edit).value)
  {
    if edit.AddMember? {
      var address, role := env.normalizeEmail(edit.email).value, ParseInviteRole(edit.roleName).value;
      InvitedKeepsInvites(s, edit, address, role);
      hide Invited, IsMemberAddress;
    } else {
      assert Effect(env, s, edit).value.invitations == s.invitations;
    }
  }

  lemma {:induction false} InvitedKeepsInvites(s: SharedList, edit: Edit, email: string, role: Role)
    requires NoOwnerInvites(s) && edit.AddMember? && role != Owner && Invited(s, edit, email, role).Ok?
    ensures NoOwnerInvites(Invited(s, edit, email, role).value)
  {
    hide PendingFor;
  }

  lemma {:induction false} EffectLeavesReceipts(env: Env, s: SharedList, edit: Edit)
    requires Effect(env, s, edit).Ok?
    ensures var after := Effect(env, s, edit).value;
            && after.receipts == s.receipts && after.revision == s.revision
            && (edit.CreateTask? || edit.PatchTask? || edit.DeleteTask? ==> after.members == s.members)
  {
  }

  lemma {:induction false} SameReceipts(s: SharedList, after: SharedList)
    requires OneReceiptPerRevision(s) && after.receipts == s.receipts && after.revision == s.revision
    ensures OneReceiptPerRevision(after)
  {
    assert forall n: nat :: HasReceipt(s, n) ==> HasReceipt(after, n);
  }

  lemma {:induction false} EffectKeepsLinear(env: Env, s: SharedList, q: Request)
    requires Linear(s) && !Malformed(env, q) && Access(s, q.actor).Ok? && Allowed(q.edit, Access(s, q.actor).value)
    requires Effect(env, s, q.edit).Ok?
    ensures Linear(Effect(env, s, q.edit).value)
  {
    if Access(s, q.actor) == Ok(Owner) {
      EffectKeepsOwner(env, s, q);
    }
    hide Effect, OneReceiptPerRevision, Malformed;
    EffectKeepsInvites(env, s, q.edit);
    EffectLeavesReceipts(env, s, q.edit);
    SameReceipts(s, Effect(env, s, q.edit).value);
  }

  lemma {:induction false} AnsweredKeepsLinear(s: SharedList, actor: User, id: string, answer: Answer)
    requires Linear(s) && id in s.invitations
    ensures Linear(Answered(s, actor, id, answer))
    ensures Answered(s, actor, id, answer).receipts == s.receipts
    ensures Answered(s, actor, id, answer).revision == s.revision
  {
    var after := Answered(s, actor, id, answer);
    var u :| u in s.members && s.members[u] == Member(Owner, true);
    assert u in after.members && after.members[u] == Member(Owner, true);
    SameReceipts(s, after);
  }

  lemma {:induction false} CommitKeepsLinear(edited: SharedList, q: Request)
    requires Linear(edited) && Commit(edited, q).Ok?
    ensures Linear(Commit(edited, q).value.0)
  {
    CommitKeepsReceipts(edited, q);
    var after := Commit(edited, q).value.0;
    assert after.members == edited.members && after.invitations == edited.invitations;
    hide Commit, OneReceiptPerRevision;
    var u :| u in edited.members && edited.members[u] == Member(Owner, true);
    assert u in after.members && after.members[u] == Member(Owner, true);
  }

  /** The receipts of a list carry the revisions 1, 2, ..., revision, once each,
      some active member owns it, and no invitation grants ownership. */
  lemma {:induction false} ServeKeepsLinear(env: Env, s: SharedList, q: Request)
    requires Linear(s)
    ensures Linear(After(env, s, q))
  {
    hide Linear, Effect, Commit, Malformed, Access, Allowed, Replayed, ReplayReply, ExpectedRevision, Answered;
    var result := Serve(env, s, q);
    if result.Ok? && result.value.1.Written? {
      if q.edit.Accept? || q.edit.Decline? {
        var answer := if q.edit.Accept? then Accepted else Declined;
        AnsweredKeepsLinear(s, q.actor, q.edit.id, answer);
        CommitKeepsLinear(Answered(s, q.actor, q.edit.id, answer), q);
      } else {
        EffectKeepsLinear(env, s, q);
        CommitKeepsLinear(Effect(env, s, q.edit).value, q);
      }
    }
  }

  lemma {:induction false} CreatedIsLinear(owner: User, op: string)
    ensures Linear(Created(owner, op))
  {
    var s := Created(owner, op);
    assert op in s.receipts && s.receipts[op].revision == 1;
    assert HasReceipt(s, 1);
    assert owner in s.members && s.members[owner] == Member(Owner, true);
  }

  // ---------------------------------------------------------------------
  // Revisions and receipts of single requests
  // ---------------------------------------------------------------------

  /** A write moves the revision on by one and leaves a receipt of it; anything
      else, an error or a replay, leaves the list as it was. */
  lemma {:induction false} WriteOrNothing(env: Env, s: SharedList, q: Request)
    ensures var result, after := Serve(env, s, q), After(env, s, q);
            if result.Ok? && result.value.1.Written? then
              && after.revision == s.revision + 1 && result.value.1.revision == after.revision
              && OrElse(q.opId, q.freshId) !in s.receipts
              && after.receipts == s.receipts[OrElse(q.opId, q.freshId) := Receipt(q.actor, after.revision)]
              && (!q.edit.Accept? && !q.edit.Decline? ==> ExpectedRevision(q) == Ok(s.revision))
            else after == s
  {
    hide ServeEdit, ServeInvitation, ExpectedRevision, OrElse;
    if Serve(env, s, q).Ok? {
      if q.edit.Accept? || q.edit.Decline? {
        AnswerWritesOrNot(env, s, q, q.edit.id, if q.edit.Accept? then Accepted else Declined);
      } else {
        EditWritesOrNot(env, s, q);
      }
    }
  }

  lemma {:induction false} EditWritesOrNot(env: Env, s: SharedList, q: Request)
    requires ServeEdit(env, s, q).Ok?
    ensures var (after, reply) := ServeEdit(env, s, q).value;
            if reply.Written? then
              && after.revision == s.revision + 1 && reply.revision == after.revision
              && OrElse(q.opId, q.freshId) !in s.receipts
              && after.receipts == s.receipts[OrElse(q.opId, q.freshId) := Receipt(q.actor, after.revision)]
              && ExpectedRevision(q) == Ok(s.revision)
            else after == s
  {
    hide Malformed, Access, Allowed, ReplayReply, ExpectedRevision, Effect, Replayed, OrElse;
    if Effect(env, s, q.edit).Ok? {
      EffectLeavesReceipts(env, s, q.edit);
    }
  }

  lemma {:induction false} AnswerWritesOrNot(env: Env, s: SharedList, q: Request, id: string, answer: Answer)
    requires ServeInvitation(env, s, q, id, answer).Ok?
    ensures var (after, reply) := ServeInvitation(env, s, q, id, answer).value;
            if reply.Written? then
              && after.revision == s.revision + 1 && reply.revision == after.revision
              && OrElse(q.opId, q.freshId) !in s.receipts
              && after.receipts == s.receipts[OrElse(q.opId, q.freshId) := Receipt(q.actor, after.revision)]
            else after == s
  {
    hide Replayed, Answered, OrElse;
    AnswerLeavesReceipts(s, q.actor, id, answer);
  }

  lemma {:induction false} AnswerLeavesReceipts(s: SharedList, actor: User, id: string, answer: Answer)
    requires id in s.invitations
    ensures Answered(s, actor, id, answer).receipts == s.receipts
    ensures Answered(s, actor, id, answer).revision == s.revision
  {
  }

  predicate NamesTask(edit: Edit, id: string) {
    (edit.CreateTask? || edit.PatchTask? || edit.DeleteTask?) && edit.id == id
  }

  predicate NamesMember(q: Request, u: User) {
    ((q.edit.PatchMember? || q.edit.RemoveMember?) && q.edit.user == u) || (q.edit.Accept? && q.actor == u)
  }

  /** What a request may touch: the task and the member it names. No row is ever
      removed, and only deleting the list deletes it. */
  ghost predicate Local(q: Request, s: SharedList, after: SharedList) {
    && s.tasks.Keys <= after.tasks.Keys && s.members.Keys <= after.members.Keys
    && s.invitations.Keys <= after.invitations.Keys
    && (forall id | id in after.tasks && !NamesTask(q.edit, id) :: id in s.tasks && after.tasks[id] == s.tasks[id])
    && (forall u | u in after.members && !NamesMember(q, u) :: u in s.members && after.members[u] == s.members[u])
    && (!q.edit.AddMember? && !q.edit.Accept? && !q.edit.Decline? ==> after.invitations == s.invitations)
    && after.deleted == (s.deleted || q.edit.DeleteList?)
  }

  lemma {:induction false} EffectIsLocal(env: Env, s: SharedList, q: Request)
    requires Effect(env, s, q.edit).Ok?
    ensures Local(q, s, Effect(env, s, q.edit).value)
  {
    if q.edit.AddMember? {
      InviteIsLocal(env, s, q);
    } else if q.edit.PatchMember? || q.edit.RemoveMember? || q.edit.DeleteList? {
      MemberEditIsLocal(env, s, q);
    } else {
      TaskEditIsLocal(env, s, q);
    }
    hide Effect, Local;
  }

  lemma {:induction false} InviteIsLocal(env: Env, s: SharedList, q: Request)
    requires q.edit.AddMember? && Effect(env, s, q.edit).Ok?
    ensures Local(q, s, Effect(env, s, q.edit).value)
  {
    hide IsMemberAddress, PendingFor;
  }

  lemma {:induction false} MemberEditIsLocal(env: Env, s: SharedList, q: Request)
    requires (q.edit.PatchMember? || q.edit.RemoveMember? || q.edit.DeleteList?) && Effect(env, s, q.edit).Ok?
    ensures Local(q, s, Effect(env, s, q.edit).value)
  {
  }

  lemma {:induction false} TaskEditIsLocal(env: Env, s: SharedList, q: Request)
    requires (q.edit.CreateTask? || q.edit.PatchTask? || q.edit.DeleteTask?) && Effect(env, s, q.edit).Ok?
    ensures Local(q, s, Effect(env, s, q.edit).value)
  {
    var after := Effect(env, s, q.edit).value;
    assert after == s.(tasks := s.tasks[q.edit.id := after.tasks[q.edit.id]]) by {
      hide Patched;
    }
    hide Effect;
  }

  lemma {:induction false} AnswerIsLocal(s: SharedList, q: Request, id: string, answer: Answer)
    requires id in s.invitations && (answer == Accepted <==> q.edit.Accept?) && (q.edit.Accept? || q.edit.Decline?)
    ensures Local(q, s, Answered(s, q.actor, id, answer))
  {
  }

  lemma {:induction false} ServeIsLocal(env: Env, s: SharedList, q: Request)
    ensures Local(q, s, After(env, s, q)) || After(env, s, q) == s
  {
    hide Effect, Answered, Malformed, Access, Allowed, ReplayReply, ExpectedRevision, Replayed;
    if q.edit.Accept? || q.edit.Decline? {
      if q.edit.id in s.invitations {
        AnswerIsLocal(s, q, q.edit.id, if q.edit.Accept? then Accepted else Declined);
      }
    } else if Effect(env, s, q.edit).Ok? {
      EffectIsLocal(env, s, q);
    }
  }

  /** An accepted patch of a task gives each named column the checked new value
      and keeps every other one. */
  lemma {:induction false} PatchKeepsUnnamed(env: Env, s: SharedList, q: Request)
    requires q.edit.PatchTask? && After(env, s, q) != s
    ensures LiveTask(s, q.edit.id) && LiveTask(After(env, s, q), q.edit.id)
    ensures var e, old_, new_ := q.edit, s.tasks[q.edit.id], After(env, s, q).tasks[q.edit.id];
            && Some(new_.title) == (if e.newTitle.Some? then env.title(e.newTitle.value) else Some(old_.title))
            && Some(new_.note) == (if e.newNote.Some? then env.note(e.newNote.value) else Some(old_.note))
            && new_.status == OrElse(e.newStatus, old_.status)
            && (e.newStatus.Some? ==> new_.status == "open" || new_.status == "completed")
            && new_.important == OrElse(e.newImportant, old_.important)
            && new_.dueOn == OrElse(e.newDueOn, old_.dueOn) && env.dueOn(new_.dueOn)
  {
    hide Malformed, Access, Allowed, ReplayReply, ExpectedRevision, Replayed;
  }

  /** A replayed operation id changes nothing, whatever else the request says. */
  lemma {:induction false} ReplayChangesNothing(env: Env, s: SharedList, q: Request)
    requires q.opId.Some? && q.opId.value in s.receipts
    ensures After(env, s, q) == s
  {
    WriteOrNothing(env, s, q);
    hide Serve;
  }

  // ---------------------------------------------------------------------
  // Runs
  // ---------------------------------------------------------------------

  /** The states of a list as it serves requests from its creation on. */
  ghost predicate IsRun(env: Env, owner: User, op: string, qs: seq<Request>, ss: seq<SharedList>) {
    && |ss| == |qs| + 1
    && ss[0] == Created(owner, op)
    && forall i | 0 <= i < |qs| :: ss[i + 1] == After(env, ss[i], qs[i])
  }

  lemma {:induction false} RunIsLinear(env: Env, owner: User, op: string, qs: seq<Request>, ss: seq<SharedList>, i: nat)
    requires IsRun(env, owner, op, qs, ss) && i < |ss|
    ensures Linear(ss[i])
  {
    hide After, Linear;
    if i == 0 {
      CreatedIsLinear(owner, op);
    } else {
      RunIsLinear(env, owner, op, qs, ss, i - 1);
      assert ss[i - 1 + 1] == After(env, ss[i - 1], qs[i - 1]);
      ServeKeepsLinear(env, ss[i - 1], qs[i - 1]);
    }
  }

  lemma {:induction false} RevisionsAscend(env: Env, owner: User, op: string, qs: seq<Request>, ss: seq<SharedList>,
                                           i: nat,
                                           j: nat)
    requires IsRun(env, owner, op, qs, ss) && i <= j < |ss|
    ensures ss[i].revision <= ss[j].revision
    ensures forall o | o in ss[i].receipts :: o in ss[j].receipts && ss[j].receipts[o] == ss[i].receipts[o]
    decreases j
  {
    if i < j {
      RevisionsAscend(env, owner, op, qs, ss, i, j - 1);
      assert ss[j - 1 + 1] == After(env, ss[j - 1], qs[j - 1]);
      WriteOrNothing(env, ss[j - 1], qs[j - 1]);
      hide After;
    }
  }

  ghost predicate Writes(env: Env, s: SharedList, q: Request) {
    Serve(env, s, q).Ok? && Serve(env, s, q).value.1.Written?
  }

  /** Of the edits that name one expected revision at most one succeeds, and it
      edits exactly the state of that revision. */
  lemma {:induction false} OneWriterPerRevision(env: Env, owner: User, op: string, qs: seq<Request>,
                                                ss: seq<SharedList>,
                                                i: nat, j: nat, revision: int)
    requires IsRun(env, owner, op, qs, ss) && i < |qs| && j < |qs|
    requires Writes(env, ss[i], qs[i]) && !qs[i].edit.Accept? && !qs[i].edit.Decline?
    requires Writes(env, ss[j], qs[j]) && !qs[j].edit.Accept? && !qs[j].edit.Decline?
    requires ExpectedRevision(qs[i]) == Ok(revision) && ExpectedRevision(qs[j]) == Ok(revision)
    ensures i == j && ss[i].revision == revision
  {
    WriteOrNothing(env, ss[i], qs[i]);
    WriteOrNothing(env, ss[j], qs[j]);
    hide Serve, ExpectedRevision, After;
    assert ss[i + 1] == After(env, ss[i], qs[i]) && ss[j + 1] == After(env, ss[j], qs[j]);
    if i < j {
      RevisionsAscend(env, owner, op, qs, ss, i + 1, j);
    } else if j < i {
      RevisionsAscend(env, owner, op, qs, ss, j + 1, i);
    }
  }

  /** A request retried after it succeeded, at any later time, changes nothing. */
  lemma {:induction false} RetryIsIdempotent(env: Env, owner: User, op: string, qs: seq<Request>, ss: seq<SharedList>,
                                             i: nat, j: nat)
    requires IsRun(env, owner, op, qs, ss) && i < j < |qs|
    requires Writes(env, ss[i], qs[i]) && qs[i].opId.Some? && qs[j] == qs[i]
    ensures ss[j + 1] == ss[j]
  {
    WriteOrNothing(env, ss[i], qs[i]);
    hide Serve, After;
    assert ss[i + 1] == After(env, ss[i], qs[i]) && ss[j + 1] == After(env, ss[j], qs[j]);
    RevisionsAscend(env, owner, op, qs, ss, i + 1, j);
    ReplayChangesNothing(env, ss[j], qs[j]);
  }

  /** A live list always has an active owner. */
  lemma {:induction false} AlwaysOwned(env: Env, owner: User, op: string, qs: seq<Request>, ss: seq<SharedList>, i: nat)
    requires IsRun(env, owner, op, qs, ss) && i < |ss| && !ss[i].deleted
    ensures exists u :: Access(ss[i], u) == Ok(Owner)
  {
    RunIsLinear(env, owner, op, qs, ss, i);
    var u :| u in ss[i].members && ss[i].members[u] == Member(Owner, true);
    assert Access(ss[i], u) == Ok(Owner);
  }
}
