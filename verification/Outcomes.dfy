/** The outcome of every call, told on the rows and records themselves: when it succeeds, what each refusal means, and
    everything it changes. */
module Outcomes {
  import opened Prelude
  import opened Redis
  import opened Tables
  import opened Calls
  import opened Integrity
  import opened StoreIntegrity
  import opened Owners
  import opened Authority
  import Outbox

  const HOUR: nat := 3600
  const DAY: nat := 86400

  predicate Known(role: Role) {
    role == OWNER || role == ADMIN || role == MEMBER
  }

  predicate IsMember(t: Tables, org: Id, user: Id) {
    (org, user) in t.members
  }

  predicate SoleOwner(t: Tables, org: Id, user: Id) {
    IsOwner(t, org, user) && forall k :: k in t.members && k.0 == org && t.members[k] == OWNER ==> k.1 == user
  }

  /** A refused call: nothing but the random numbers it drew is gone. */
  predicate Refused(s: State, a: Answer, drawn: set<Id> := {}) {
    a.state == s.(issued := s.issued + drawn) && a.events == [] && a.status != 200
  }

  /** A call that has just this effect on the tables, and none on the store. */
  predicate Writes(s: State, a: Answer, t: Tables, drawn: set<Id> := {}) {
    a.state == s.(tables := t, issued := s.issued + drawn) && a.events == [] && a.status == 200
  }

  /** A call that has just this effect on the store, and none on the tables. */
  predicate Stores(s: State, a: Answer, store: Store, drawn: set<Id> := {}) {
    a.state == s.(store := store, issued := s.issued + drawn) && a.events == [] && a.status == 200
  }

  /* ---------------- Organisations ---------------- */

  lemma CreateOrgOutcome(s: State, org: Id, actor: Id, name: string)
    requires Inv(s) && Enabled(s, OnOrg(CreateOrg(org, actor, name)))
    ensures var t, a := s.tables, Apply(s, OnOrg(CreateOrg(org, actor, name)));
      if actor in t.users
      then Writes(s, a, t.(orgs := t.orgs[org := Org(name, actor)], members := t.members[(org, actor) := OWNER]), {org})
      else Refused(s, a, {org}) && a.status == 500
  {
    hide PerformInvite, PerformWork, PerformAuth;
    assert org !in s.tables.orgs && (org, actor) !in s.tables.members;
  }

  /** The rows of everybody but one organisation. */
  ghost predicate WithoutOrg(t: Tables, after: Tables, org: Id) {
    && after.users == t.users
    && after.orgs.Keys == t.orgs.Keys - {org} && (forall o :: o in after.orgs ==> after.orgs[o] == t.orgs[o])
    && (forall k :: k in after.members <==> k in t.members && k.0 != org) && (forall k :: k in after.members ==> after.members[k] == t.members[k])
    && (forall p :: p in after.projects <==> p in t.projects && t.projects[p].org != org) && (forall p :: p in after.projects ==> after.projects[p] == t.projects[p])
    && (forall k :: k in after.tasks <==> k in t.tasks && t.tasks[k].org != org) && (forall k :: k in after.tasks ==> after.tasks[k] == t.tasks[k])
  }

  lemma CutOrgIsWithout(t: Tables, org: Id)
    requires Sound(t)
    ensures WithoutOrg(t, CutOrg(t, org), org)
  {
    forall k | k in t.tasks && t.tasks[k].org != org ensures k in CutOrg(t, org).tasks {
      assert SoundTask(t.projects, t.users, t.tasks[k]);
    }
  }

  lemma DeleteOrgOutcome(s: State, org: Id, actor: Id)
    requires Inv(s)
    ensures var t, a := s.tables, Apply(s, OnOrg(DeleteOrg(org, actor)));
      if org !in t.orgs then Refused(s, a) && a.status == 404
      else if !IsOwner(t, org, actor) then Refused(s, a) && a.status == 403
      else Writes(s, a, a.state.tables) && WithoutOrg(t, a.state.tables, org)
  {
    hide PerformInvite, PerformWork, PerformAuth;
    assert Sound(s.tables);
    hide Inv, Sound;
    CutOrgIsWithout(s.tables, org);
    hide CutOrg, WithoutOrg;
  }

  lemma MemberIsKnown(s: State, org: Id, user: Id)
    requires Inv(s) && IsMember(s.tables, org, user)
    ensures Known(s.tables.members[(org, user)]) && user in s.tables.users && org in s.tables.orgs
  {
  }

  lemma MemberAdded(t: Tables, org: Id, actor: Id, user: Id, role: Role)
    requires IsMember(t, org, actor) ==> org in t.orgs
    ensures var r := AddMemberOn(t, org, actor, user, role);
      if !Manages(t, org, actor) then r == Err(403)
      else if !Known(role) then r == Err(400)
      else if role == OWNER && !IsOwner(t, org, actor) then r == Err(403)
      else if IsMember(t, org, user) then r == Err(409)
      else if user !in t.users then r == Err(500)
      else r == Ok(t.(members := t.members[(org, user) := role]))
  {
  }

  lemma AddMemberOutcome(s: State, org: Id, actor: Id, user: Id, role: Role)
    requires Inv(s)
    ensures var t, a := s.tables, Apply(s, OnOrg(AddMember(org, actor, user, role)));
      if !Manages(t, org, actor) then Refused(s, a) && a.status == 403
      else if !Known(role) then Refused(s, a) && a.status == 400
      else if role == OWNER && !IsOwner(t, org, actor) then Refused(s, a) && a.status == 403
      else if IsMember(t, org, user) then Refused(s, a) && a.status == 409
      else if user !in t.users then Refused(s, a) && a.status == 500
      else Writes(s, a, t.(members := t.members[(org, user) := role]))
  {
    hide PerformInvite, PerformWork, PerformAuth, AddMemberOn, Known, IsOwner, Manages;
    if IsMember(s.tables, org, actor) { MemberIsKnown(s, org, actor); }
    hide Inv, IsMember;
    MemberAdded(s.tables, org, actor, user, role);
  }

  /** The count of owner rows tells whether an owner is the only one. */
  lemma CountTellsSole(t: Tables, org: Id, user: Id)
    requires IsOwner(t, org, user)
    ensures |t.Owners(org)| <= 1 <==> SoleOwner(t, org, user)
  {
    var owners := t.Owners(org);
    assert (org, user) in owners;
    if SoleOwner(t, org, user) {
      assert owners == {(org, user)};
    } else {
      var k :| k in t.members && k.0 == org && t.members[k] == OWNER && k.1 != user;
      assert k in owners;
      assert {k, (org, user)} <= owners;
      SubsetSize({k, (org, user)}, owners);
    }
  }

  lemma ChangeRoleOutcome(s: State, org: Id, actor: Id, user: Id, role: Role)
    ensures var t, a := s.tables, Apply(s, OnOrg(ChangeRole(org, actor, user, role)));
      if !IsOwner(t, org, actor) then Refused(s, a) && a.status == 403
      else if !Known(role) then Refused(s, a) && a.status == 400
      else if !IsMember(t, org, user) then Refused(s, a) && a.status == 404
      else if SoleOwner(t, org, user) && role != OWNER then Refused(s, a) && a.status == 400
      else Writes(s, a, t.(members := t.members[(org, user) := role]))
  {
    hide PerformInvite, PerformWork, PerformAuth;
    if IsOwner(s.tables, org, user) { CountTellsSole(s.tables, org, user); }
  }

  lemma RemoveMemberOutcome(s: State, org: Id, actor: Id, user: Id)
    ensures var t, a := s.tables, Apply(s, OnOrg(RemoveMember(org, actor, user)));
      if !Manages(t, org, actor) then Refused(s, a) && a.status == 403
      else if !IsMember(t, org, user) then Refused(s, a) && a.status == 404
      else if IsOwner(t, org, user) && !IsOwner(t, org, actor) then Refused(s, a) && a.status == 403
      else if SoleOwner(t, org, user) then Refused(s, a) && a.status == 400
      else Writes(s, a, t.(members := t.members - {(org, user)}))
  {
    hide PerformInvite, PerformWork, PerformAuth;
    if IsOwner(s.tables, org, user) { CountTellsSole(s.tables, org, user); }
  }

  lemma TransferOutcome(s: State, org: Id, actor: Id, user: Id)
    ensures var t, a := s.tables, Apply(s, OnOrg(Transfer(org, actor, user)));
      if !IsOwner(t, org, actor) then Refused(s, a) && a.status == 403
      else if actor == user then Refused(s, a) && a.status == 400
      else if !IsMember(t, org, user) then Refused(s, a) && a.status == 404
      else if IsOwner(t, org, user) then Refused(s, a) && a.status == 400
      else Writes(s, a, t.(members := t.members[(org, user) := OWNER][(org, actor) := ADMIN]))
  {
    hide PerformInvite, PerformWork, PerformAuth;
  }

  /* ---------------- Invites ---------------- */

  /** The hash is in the organisation's index set. */
  predicate InIndex(store: Store, org: Id, h: Id) {
    IndexKey(org) in store && store[IndexKey(org)].Members? && h in store[IndexKey(org)].ids
  }

  /** A record under this key that can still be read. */
  predicate Readable(store: Store, now: Time, key: Key) {
    key in store && store[key].Record? && now < store[key].expiry
  }

  /** Only the named entries of the store differ, and of the organisation's index only the named hash. */
  ghost predicate OnlyTouches(store: Store, after: Store, key: Key, org: Id, h: Id) {
    && (forall k :: k != key && k != IndexKey(org) ==> (k in store <==> k in after) && (k in store ==> after[k] == store[k]))
    && (forall x :: x != h ==> (InIndex(after, org, x) <==> InIndex(store, org, x)))
  }

  lemma IndexRead(store: Store, org: Id, h: Id)
    ensures InIndex(store, org, h) <==> h in SetMembers(store, IndexKey(org))
  {
  }

  lemma InviteStored(store: Store, now: Time, org: Id, h: Id, value: Json, ttl: nat)
    ensures var after := SetAdd(SetJson(store, now, InviteKey(h), value, ttl), IndexKey(org), h);
      && InviteKey(h) in after && after[InviteKey(h)] == Record(value, now + ttl)
      && InIndex(after, org, h) && OnlyTouches(store, after, InviteKey(h), org, h)
  {
    var mid := SetJson(store, now, InviteKey(h), value, ttl);
    assert SetMembers(mid, IndexKey(org)) == SetMembers(store, IndexKey(org));
    var after := SetAdd(mid, IndexKey(org), h);
    forall x | x != h ensures InIndex(after, org, x) <==> InIndex(store, org, x) {
      IndexRead(store, org, x);
    }
  }

  lemma CreateInviteOutcome(s: State, org: Id, actor: Id, role: Role, ttl: Option<nat>, h: Id)
    ensures var t, a := s.tables, Apply(s, OnInvite(CreateInvite(org, actor, role, ttl, h)));
      if !Manages(t, org, actor) then Refused(s, a, {h}) && a.status == 403
      else if !Known(role) then Refused(s, a, {h}) && a.status == 400
      else if role == OWNER && !IsOwner(t, org, actor) then Refused(s, a, {h}) && a.status == 403
      else
        && Stores(s, a, a.state.store, {h})
        && InviteKey(h) in a.state.store
        && a.state.store[InviteKey(h)] == Record(InviteJson(org, role, actor, s.clock), s.clock + if ttl.None? || ttl == Some(0) then DAY else ttl.value)
        && InIndex(a.state.store, org, h)
        && OnlyTouches(s.store, a.state.store, InviteKey(h), org, h)
  {
    hide PerformOrg, PerformWork, PerformAuth, SetAdd, SetJson, OnlyTouches, InIndex;
    var t := if ttl.None? || ttl == Some(0) then DAY else ttl.value;
    InviteStored(s.store, s.clock, org, h, InviteJson(org, role, actor, s.clock), t);
  }

  /** What a token names: a readable invite of this organisation. */
  predicate Names(store: Store, now: Time, org: Id, h: Id) {
    Readable(store, now, InviteKey(h)) && store[InviteKey(h)].value.InviteJson? && store[InviteKey(h)].value.org == org
  }

  lemma IndexPruned(s: State, org: Id)
    requires Inv(s)
    ensures var after := Pruned(s.store, s.clock, org);
      && (forall h :: InIndex(after, org, h) <==> Names(s.store, s.clock, org, h))
      && (forall k :: k != IndexKey(org) ==> (k in s.store <==> k in after) && (k in s.store ==> after[k] == s.store[k]))
  {
    var after := Pruned(s.store, s.clock, org);
    assert SetMembers(after, IndexKey(org)) == set h | h in SetMembers(s.store, IndexKey(org)) && OrgInvite(s.store, s.clock, org, h);
    forall h ensures InIndex(after, org, h) <==> Names(s.store, s.clock, org, h) {
      IndexRead(after, org, h);
      if Names(s.store, s.clock, org, h) { assert h in SetMembers(s.store, IndexKey(org)); }
    }
  }

  lemma ListInvitesOutcome(s: State, org: Id, actor: Id)
    requires Inv(s)
    ensures var t, a := s.tables, Apply(s, OnInvite(ListInvites(org, actor)));
      if !Manages(t, org, actor) then Refused(s, a) && a.status == 403
      else
        && Stores(s, a, a.state.store)
        && (forall h :: InIndex(a.state.store, org, h) <==> Names(s.store, s.clock, org, h))
        && (forall k :: k != IndexKey(org) ==> (k in s.store <==> k in a.state.store) && (k in s.store ==> a.state.store[k] == s.store[k]))
  {
    hide PerformOrg, PerformWork, PerformAuth;
    IndexPruned(s, org);
    hide Pruned, InIndex, Names, Inv;
  }

  lemma InviteDropped(store: Store, org: Id, h: Id)
    ensures var after := SetRemove(Del(store, InviteKey(h)), IndexKey(org), h);
      InviteKey(h) !in after && !InIndex(after, org, h) && OnlyTouches(store, after, InviteKey(h), org, h)
  {
    var mid := Del(store, InviteKey(h));
    var after := SetRemove(mid, IndexKey(org), h);
    assert SetMembers(mid, IndexKey(org)) == SetMembers(store, IndexKey(org));
    assert SetMembers(after, IndexKey(org)) == SetMembers(mid, IndexKey(org)) - {h};
    hide SetRemove;
    forall x | x != h ensures InIndex(after, org, x) <==> InIndex(store, org, x) {
      IndexRead(after, org, x);
      IndexRead(store, org, x);
    }
    IndexRead(after, org, h);
  }

  lemma RevokeInviteOutcome(s: State, org: Id, actor: Id, h: Id)
    ensures var t, a := s.tables, Apply(s, OnInvite(RevokeInvite(org, actor, h)));
      if !Manages(t, org, actor) then Refused(s, a) && a.status == 403
      else if !Names(s.store, s.clock, org, h) then Refused(s, a) && a.status == 404
      else
        && Stores(s, a, a.state.store)
        && InviteKey(h) !in a.state.store && !InIndex(a.state.store, org, h)
        && OnlyTouches(s.store, a.state.store, InviteKey(h), org, h)
  {
    hide PerformOrg, PerformWork, PerformAuth;
    InviteDropped(s.store, org, h);
    hide SetRemove, Del, OnlyTouches, InIndex;
  }

  lemma InviteReadable(s: State, h: Id)
    requires Inv(s)
    ensures Readable(s.store, s.clock, InviteKey(h)) ==> s.store[InviteKey(h)].value.InviteJson?
  {
  }

  lemma JoinOutcome(s: State, h: Id, user: Id)
    requires Inv(s)
    ensures var t, a := s.tables, Apply(s, OnInvite(Join(h, user)));
      if !Readable(s.store, s.clock, InviteKey(h)) then Refused(s, a) && a.status == 404
      else
        var data := s.store[InviteKey(h)].value;
        if IsMember(t, data.org, user) then Refused(s, a) && a.status == 409
        else
          && a.state == s.(tables := a.state.tables, store := a.state.store) && a.events == []
          && InviteKey(h) !in a.state.store && !InIndex(a.state.store, data.org, h)
          && OnlyTouches(s.store, a.state.store, InviteKey(h), data.org, h)
          && if data.org in t.orgs && user in t.users
             then a.status == 200 && a.state.tables == t.(members := t.members[(data.org, user) := data.role])
             else a.status == 500 && a.state.tables == t
  {
    hide PerformOrg, PerformWork, PerformAuth;
    assert s.issued + {} == s.issued;
    InviteReadable(s, h);
    if Readable(s.store, s.clock, InviteKey(h)) { InviteDropped(s.store, s.store[InviteKey(h)].value.org, h); }
    hide SetRemove, Del, OnlyTouches, InIndex, Inv;
  }

  /* ---------------- Projects and tasks ---------------- */

  lemma CreateProjectOutcome(s: State, project: Id, org: Id, actor: Id, name: string)
    requires Inv(s) && Enabled(s, OnWork(CreateProject(project, org, actor, name)))
    ensures var t, a := s.tables, Apply(s, OnWork(CreateProject(project, org, actor, name)));
      if !Manages(t, org, actor) then Refused(s, a, {project}) && a.status == 403
      else Writes(s, a, t.(projects := t.projects[project := Project(org, name, actor)]), {project})
  {
    hide PerformOrg, PerformInvite, PerformAuth;
    assert Manages(s.tables, org, actor) ==> (org, actor) in s.tables.members;
    assert project !in s.tables.projects;
  }

  lemma DeleteProjectOutcome(s: State, project: Id, actor: Id)
    ensures var t, a := s.tables, Apply(s, OnWork(DeleteProject(project, actor)));
      if project !in t.projects then Refused(s, a) && a.status == 404
      else if !Manages(t, t.projects[project].org, actor) then Refused(s, a) && a.status == 403
      else
        && Writes(s, a, t.(projects := t.projects - {project}, tasks := a.state.tables.tasks))
        && (forall k :: k in a.state.tables.tasks <==> k in t.tasks && t.tasks[k].project != project)
        && (forall k :: k in a.state.tables.tasks ==> a.state.tables.tasks[k] == t.tasks[k])
  {
    hide PerformOrg, PerformInvite, PerformAuth;
  }

  lemma TaskRowCreated(t: Tables, task: Id, org: Id, project: Id, actor: Id, title: string, description: Option<string>, status: TaskStatus)
    requires task !in t.tasks
    requires IsMember(t, org, actor) ==> Known(t.members[(org, actor)]) && actor in t.users && org in t.orgs
    ensures var r := CreateTaskOn(t, task, org, project, actor, title, description, status);
      if !IsMember(t, org, actor) then r == Err(403)
      else if status != TODO && status != IN_PROGRESS && status != DONE then r == Err(400)
      else if project !in t.projects || t.projects[project].org != org then r == Err(404)
      else if |title| > 200 then r == Err(500)
      else r == Ok(t.(tasks := t.tasks[task := Task(org, project, title, description, status, actor, None)]))
  {
  }

  lemma CreateTaskOutcome(s: State, task: Id, org: Id, project: Id, actor: Id, title: string, description: Option<string>, status: TaskStatus)
    requires Inv(s) && Enabled(s, OnWork(CreateTask(task, org, project, actor, title, description, status)))
    ensures var t, a := s.tables, Apply(s, OnWork(CreateTask(task, org, project, actor, title, description, status)));
      if !IsMember(t, org, actor) then Refused(s, a, {task}) && a.status == 403
      else if status != TODO && status != IN_PROGRESS && status != DONE then Refused(s, a, {task}) && a.status == 400
      else if project !in t.projects || t.projects[project].org != org then Refused(s, a, {task}) && a.status == 404
      else if |title| > 200 then Refused(s, a, {task}) && a.status == 500
      else Writes(s, a, t.(tasks := t.tasks[task := Task(org, project, title, description, status, actor, None)]), {task})
  {
    hide PerformOrg, PerformInvite, PerformAuth, CreateTaskOn;
    if IsMember(s.tables, org, actor) { MemberIsKnown(s, org, actor); }
    assert task !in s.tables.tasks;
    hide Inv, Known;
    TaskRowCreated(s.tables, task, org, project, actor, title, description, status);
  }

  lemma DeleteTaskOutcome(s: State, task: Id, actor: Id)
    ensures var t, a := s.tables, Apply(s, OnWork(DeleteTask(task, actor)));
      if task !in t.tasks then Refused(s, a) && a.status == 404
      else if !IsMember(t, t.tasks[task].org, actor) then Refused(s, a) && a.status == 403
      else if !Manages(t, t.tasks[task].org, actor) && t.tasks[task].createdBy != actor then Refused(s, a) && a.status == 403
      else Writes(s, a, t.(tasks := t.tasks - {task}))
  {
    hide PerformOrg, PerformInvite, PerformAuth;
  }

  /** The rights an update needs, and the sense its values must make. */
  predicate MayPatch(t: Tables, task: Task, actor: Id, patch: Patch) {
    && IsMember(t, task.org, actor)
    && (patch.status.Some? ==> Manages(t, task.org, actor) || task.assignedTo == Some(actor))
    && (patch.assignedTo.Some? ==> Manages(t, task.org, actor))
  }

  predicate Sensible(t: Tables, task: Task, patch: Patch) {
    && (patch.status.Some? && patch.status.value.Some? ==> patch.status.value.value in {TODO, IN_PROGRESS, DONE})
    && (patch.assignedTo.Some? && patch.assignedTo.value.Some? ==> IsMember(t, task.org, patch.assignedTo.value.value))
  }

  /** A stranger is told 403 first; then a bad status 400, a missing right 403, a bad assignee 400. */
  function Reason(t: Tables, task: Task, actor: Id, patch: Patch): int {
    if !IsMember(t, task.org, actor) then 403
    else if patch.status.Some? && patch.status.value.Some? && patch.status.value.value !in {TODO, IN_PROGRESS, DONE} then 400
    else if !MayPatch(t, task, actor, patch) then 403
    else 400
  }

  predicate NotNull(patch: Patch) {
    && (patch.title.Some? ==> patch.title.value.Some? && |patch.title.value.value| <= 200)
    && (patch.status.Some? ==> patch.status.value.Some?)
  }

  /** Each column of the row is the value given for it, or as it was. */
  predicate Columns(task: Task, patch: Patch, after: Task) {
    && after.org == task.org && after.project == task.project && after.createdBy == task.createdBy
    && (match patch.title case Some(v) => Some(after.title) == v case None => after.title == task.title)
    && (match patch.description case Some(v) => after.description == v case None => after.description == task.description)
    && (match patch.status case Some(v) => Some(after.status) == v case None => after.status == task.status)
    && (match patch.assignedTo case Some(v) => after.assignedTo == v case None => after.assignedTo == task.assignedTo)
  }

  /** The event names the task and everything about its assignment. */
  predicate Announces(e: Outbox.Event, id: Id, task: Task, actor: Id, now: Time) {
    && e.org == Some(task.org) && e.project == Some(task.project) && e.task == Some(id)
    && task.assignedTo.Some? && e.assignedTo == Outbox.Assigned(task.assignedTo.value)
    && e.assignedBy == Some(actor) && e.title == Some(task.title) && e.ts == Some(now)
  }

  lemma UpdateTaskOutcome(s: State, id: Id, actor: Id, patch: Patch)
    requires Inv(s)
    ensures var t, a := s.tables, Apply(s, OnWork(UpdateTask(id, actor, patch)));
      if id !in t.tasks then Refused(s, a) && a.status == 404
      else
        var task := t.tasks[id];
        if !MayPatch(t, task, actor, patch) || !Sensible(t, task, patch) then
          Refused(s, a) && a.status == Reason(t, task, actor, patch)
        else if !NotNull(patch) then Refused(s, a) && a.status == 500
        else
          && id in a.state.tables.tasks && Columns(task, patch, a.state.tables.tasks[id])
          && a.state == s.(tables := t.(tasks := t.tasks[id := a.state.tables.tasks[id]]), issued := s.issued + {}) && a.status == 200
          && var after := a.state.tables.tasks[id];
             if after.assignedTo.Some? && after.assignedTo != task.assignedTo
             then |a.events| == 1 && Announces(a.events[0], id, after, actor, s.clock)
             else a.events == []
  {
    hide PerformOrg, PerformInvite, PerformAuth;
    if id in s.tables.tasks { PatchOutcome(s.tables, s.clock, id, actor, patch); }
    hide UpdateTaskOn, Columns, MayPatch, Sensible, NotNull, Announces, Reason;
  }

  lemma PatchOutcome(t: Tables, now: Time, id: Id, actor: Id, patch: Patch)
    requires Sound(t) && id in t.tasks
    ensures var task, r := t.tasks[id], UpdateTaskOn(t, now, id, actor, patch);
      if !MayPatch(t, task, actor, patch) || !Sensible(t, task, patch) then
        r == Err(Reason(t, task, actor, patch))
      else if !NotNull(patch) then r.Err? && r.status == 500
      else
        && r.Ok? && id in r.value.0.tasks && Columns(task, patch, r.value.0.tasks[id])
        && r.value.0 == t.(tasks := t.tasks[id := r.value.0.tasks[id]])
        && var after := r.value.0.tasks[id];
           if after.assignedTo.Some? && after.assignedTo != task.assignedTo
           then |r.value.1| == 1 && Announces(r.value.1[0], id, after, actor, now)
           else r.value.1 == []
  {
    assert Sensible(t, t.tasks[id], patch) && patch.assignedTo.Some? && patch.assignedTo.value.Some? ==> patch.assignedTo.value.value in t.users;
  }

  /* ---------------- Sessions and one-time tokens ---------------- */

  lemma RegisterOutcome(s: State, user: Id, password: string)
    ensures var t, a := s.tables, Apply(s, OnAuth(Register(user, password)));
      if user in t.users then Refused(s, a, {user}) && a.status == 500
      else Writes(s, a, t.(users := t.users[user := User(false, password)]), {user})
  {
    hide PerformOrg, PerformInvite, PerformWork;
  }

  lemma LoginOutcome(s: State, user: Id, h: Id, sid: Id)
    ensures var a := Apply(s, OnAuth(Login(user, h, sid)));
      if user !in s.tables.users then Refused(s, a, {h, sid}) && a.status == 401
      else Stores(s, a, s.store[RefreshKey(h) := Record(SessionJson(sid, user, s.clock, None), s.clock + 14 * DAY)], {h, sid})
  {
    hide PerformOrg, PerformInvite, PerformWork;
  }

  lemma RotateOutcome(s: State, h: Id, next: Id, sid: Id)
    requires Inv(s)
    ensures var a := Apply(s, OnAuth(Rotate(h, next, sid)));
      if !Readable(s.store, s.clock, RefreshKey(h)) then Refused(s, a, {next, sid}) && a.status == 401
      else
        var was := s.store[RefreshKey(h)].value;
        && was.SessionJson?
        && Stores(s, a, (s.store - {RefreshKey(h)})[RefreshKey(next) := Record(SessionJson(sid, was.uid, s.clock, Some(was.sid)), s.clock + 14 * DAY)], {next, sid})
  {
    hide PerformOrg, PerformInvite, PerformWork;
  }

  lemma LogoutOutcome(s: State, h: Id)
    ensures Stores(s, Apply(s, OnAuth(Logout(h))), s.store - {RefreshKey(h)})
  {
    hide PerformOrg, PerformInvite, PerformWork;
  }

  lemma AskVerifyOutcome(s: State, user: Id, h: Id)
    ensures var t, a := s.tables, Apply(s, OnAuth(AskVerify(user, h)));
      if user !in t.users then Refused(s, a, {h}) && a.status == 404
      else if t.users[user].verified then Stores(s, a, s.store, {h})
      else Stores(s, a, s.store[EmailKey(h) := Record(TokenJson(user, s.clock), s.clock + DAY)], {h})
  {
    hide PerformOrg, PerformInvite, PerformWork;
  }

  /** The token is gone, and one user has changed. */
  predicate Uses(s: State, a: Answer, key: Key, uid: Id, user: User) {
    && a.state == s.(tables := s.tables.(users := s.tables.users[uid := user]), store := s.store - {key}, issued := s.issued + {})
    && a.events == [] && a.status == 200
  }

  /** A token nobody can read, or whose user is missing: 400, and the tables are as they were. */
  predicate Unusable(s: State, a: Answer, key: Key) {
    && a.status == 400 && a.events == []
    && a.state == s.(store := if Readable(s.store, s.clock, key) then s.store - {key} else s.store, issued := s.issued + {})
  }

  lemma VerifyOutcome(s: State, h: Id)
    requires Inv(s)
    ensures var t, a, key := s.tables, Apply(s, OnAuth(Verify(h))), EmailKey(h);
      if Readable(s.store, s.clock, key) && s.store[key].value.uid in t.users
      then var uid := s.store[key].value.uid; Uses(s, a, key, uid, t.users[uid].(verified := true))
      else Unusable(s, a, key)
  {
    hide PerformOrg, PerformInvite, PerformWork;
  }

  lemma AskResetOutcome(s: State, user: Id, h: Id)
    ensures var a := Apply(s, OnAuth(AskReset(user, h)));
      Stores(s, a, if user in s.tables.users then s.store[ResetKey(h) := Record(TokenJson(user, s.clock), s.clock + HOUR)] else s.store, {h})
  {
    hide PerformOrg, PerformInvite, PerformWork;
  }

  lemma ResetPasswordOutcome(s: State, h: Id, password: string)
    requires Inv(s)
    ensures var t, a, key := s.tables, Apply(s, OnAuth(ResetPassword(h, password))), ResetKey(h);
      if Readable(s.store, s.clock, key) && s.store[key].value.uid in t.users
      then var uid := s.store[key].value.uid; Uses(s, a, key, uid, t.users[uid].(password := password))
      else Unusable(s, a, key)
  {
    hide PerformOrg, PerformInvite, PerformWork;
  }

  lemma TickOutcome(s: State, seconds: nat)
    ensures Apply(s, Tick(seconds)) == Answer(s.(clock := s.clock + seconds), 200, [])
  {
    assert s.issued + {} == s.issued;
  }
}
