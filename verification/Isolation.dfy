/** Organisations do not interfere: what one holds, and every answer it gets, is the same in a run from which all
    calls addressed to other organisations have been deleted. */
module Isolation {
  import opened Prelude
  import opened Redis
  import opened Tables
  import opened Calls
  import opened Integrity
  import opened StoreIntegrity
  import Outbox

  /* ---------------- What one organisation holds ---------------- */

  function OrgIn(t: Tables, org: Id): Option<Org> {
    if org in t.orgs then Some(t.orgs[org]) else None
  }

  function ProjectIn(t: Tables, org: Id, project: Id): Option<Project> {
    if project in t.projects && t.projects[project].org == org then Some(t.projects[project]) else None
  }

  function TaskIn(t: Tables, org: Id, task: Id): Option<Task> {
    if task in t.tasks && t.tasks[task].org == org then Some(t.tasks[task]) else None
  }

  /** A live invite to the organisation, with its time limit. */
  function InviteIn(store: Store, now: Time, org: Id, h: Id): Option<Entry> {
    if OrgInvite(store, now, org, h) then Some(store[InviteKey(h)]) else None
  }

  ghost predicate SameRows(t: Tables, u: Tables, org: Id) {
    && t.users.Keys == u.users.Keys
    && OrgIn(t, org) == OrgIn(u, org)
    && (forall user :: t.MemberRole(org, user) == u.MemberRole(org, user))
    && (forall p :: ProjectIn(t, org, p) == ProjectIn(u, org, p))
    && (forall k :: TaskIn(t, org, k) == TaskIn(u, org, k))
  }

  ghost predicate SameInvites(a: Store, b: Store, now: Time, org: Id) {
    && (forall h :: InviteIn(a, now, org, h) == InviteIn(b, now, org, h))
    && SetMembers(a, IndexKey(org)) == SetMembers(b, IndexKey(org))
  }

  /** Two states in which the organisation is the same; the second has drawn no identifier the first has not. */
  ghost predicate Same(s: State, r: State, org: Id) {
    && s.clock == r.clock && r.issued <= s.issued
    && SameRows(s.tables, r.tables, org)
    && SameInvites(s.store, r.store, s.clock, org)
  }

  /** The organisation a call turns out to concern. Tasks, projects and tokens are looked up to find it. */
  function Addressee(s: State, c: Call): Option<Id> {
    match c
    case Tick(_) => None
    case OnAuth(_) => None
    case OnOrg(o) => Some(o.org)
    case OnInvite(i) => InviteAddressee(s.store, s.clock, i)
    case OnWork(w) => WorkAddressee(s.tables, w)
  }

  function InviteAddressee(store: Store, now: Time, c: InviteCall): Option<Id> {
    if !c.Join? then Some(c.org)
    else
      var data := GetJson(store, now, InviteKey(c.hash));
      if data.Some? && data.value.InviteJson? then Some(data.value.org) else None
  }

  function WorkAddressee(t: Tables, c: WorkCall): Option<Id> {
    match c
    case CreateProject(_, org, _, _) => Some(org)
    case CreateTask(_, org, _, _, _, _, _) => Some(org)
    case DeleteProject(project, _) => if project in t.projects then Some(t.projects[project].org) else None
    case UpdateTask(task, _, _) => if task in t.tasks then Some(t.tasks[task].org) else None
    case DeleteTask(task, _) => if task in t.tasks then Some(t.tasks[task].org) else None
  }

  /* ---------------- Calls of the organisation see only it ---------------- */

  lemma SameOwners(t: Tables, u: Tables, org: Id)
    requires SameRows(t, u, org)
    ensures t.Owners(org) == u.Owners(org)
  {
    forall k: (Id, Id) | k.0 == org ensures k in t.members <==> k in u.members
      ensures k in t.members ==> t.members[k] == u.members[k] {
      assert t.MemberRole(org, k.1) == u.MemberRole(org, k.1);
    }
  }

  ghost predicate SameResult(r: Result<Tables>, q: Result<Tables>, org: Id) {
    if r.Err? then q == r else q.Ok? && SameRows(r.value, q.value, org)
  }

  /** The rows of an organisation after a change, told from the rows before it. */
  lemma RowsFollow(t: Tables, u: Tables, t': Tables, u': Tables, org: Id)
    requires SameRows(t, u, org)
    requires t'.users.Keys == u'.users.Keys && OrgIn(t', org) == OrgIn(u', org)
    requires forall x :: t.MemberRole(org, x) == u.MemberRole(org, x) ==> t'.MemberRole(org, x) == u'.MemberRole(org, x)
    requires forall p :: ProjectIn(t, org, p) == ProjectIn(u, org, p) ==> ProjectIn(t', org, p) == ProjectIn(u', org, p)
    requires forall k :: TaskIn(t, org, k) == TaskIn(u, org, k) ==> TaskIn(t', org, k) == TaskIn(u', org, k)
    ensures SameRows(t', u', org)
  {
  }

  lemma SameOrgVerdict(t: Tables, u: Tables, c: OrgCall)
    requires SameRows(t, u, c.org)
    ensures PerformOrg(t, c).Ok? <==> PerformOrg(u, c).Ok?
    ensures PerformOrg(t, c).Err? ==> PerformOrg(u, c) == PerformOrg(t, c)
  {
    SameOwners(t, u, c.org);
    assert t.MemberRole(c.org, c.actor) == u.MemberRole(c.org, c.actor);
    assert OrgIn(t, c.org) == OrgIn(u, c.org);
    if !c.CreateOrg? && !c.DeleteOrg? {
      assert t.MemberRole(c.org, c.user) == u.MemberRole(c.org, c.user);
    }
  }

  lemma OwnCutOrg(t: Tables, u: Tables, org: Id)
    requires SameRows(t, u, org)
    ensures SameRows(CutOrg(t, org), CutOrg(u, org), org)
  {
    RowsFollow(t, u, CutOrg(t, org), CutOrg(u, org), org);
  }

  lemma OwnMembers(t: Tables, u: Tables, t': Tables, u': Tables, org: Id)
    requires SameRows(t, u, org)
    requires t' == t.(members := t'.members) && u' == u.(members := u'.members)
    requires forall x :: t.MemberRole(org, x) == u.MemberRole(org, x) ==> t'.MemberRole(org, x) == u'.MemberRole(org, x)
    ensures SameRows(t', u', org)
  {
    assert forall p :: ProjectIn(t', org, p) == ProjectIn(t, org, p) && ProjectIn(u', org, p) == ProjectIn(u, org, p);
    assert forall k :: TaskIn(t', org, k) == TaskIn(t, org, k) && TaskIn(u', org, k) == TaskIn(u, org, k);
    assert OrgIn(t', org) == OrgIn(t, org) && OrgIn(u', org) == OrgIn(u, org);
    RowsFollow(t, u, t', u', org);
  }

  lemma OwnCreateOrg(t: Tables, u: Tables, org: Id, actor: Id, name: string)
    requires SameRows(t, u, org) && CreateOrgOn(t, org, actor, name).Ok? && CreateOrgOn(u, org, actor, name).Ok?
    ensures SameRows(CreateOrgOn(t, org, actor, name).value, CreateOrgOn(u, org, actor, name).value, org)
  {
    var t', u' := CreateOrgOn(t, org, actor, name).value, CreateOrgOn(u, org, actor, name).value;
    assert forall p :: ProjectIn(t', org, p) == ProjectIn(t, org, p) && ProjectIn(u', org, p) == ProjectIn(u, org, p);
    assert forall k :: TaskIn(t', org, k) == TaskIn(t, org, k) && TaskIn(u', org, k) == TaskIn(u, org, k);
    RowsFollow(t, u, t', u', org);
  }

  lemma OwnInsert(t: Tables, u: Tables, org: Id, user: Id, role: Role)
    requires SameRows(t, u, org)
    ensures SameResult(InsertMember(t, org, user, role), InsertMember(u, org, user, role), org)
  {
    assert t.MemberRole(org, user) == u.MemberRole(org, user) && OrgIn(t, org) == OrgIn(u, org);
    var r, q := InsertMember(t, org, user, role), InsertMember(u, org, user, role);
    if r.Ok? && q.Ok? {
      OwnMembers(t, u, r.value, q.value, org);
    }
  }

  lemma OwnUpdateRole(t: Tables, u: Tables, org: Id, user: Id, role: Role)
    requires SameRows(t, u, org)
    ensures SameRows(UpdateRole(t, org, user, role), UpdateRole(u, org, user, role), org)
  {
    assert t.MemberRole(org, user) == u.MemberRole(org, user);
    OwnMembers(t, u, UpdateRole(t, org, user, role), UpdateRole(u, org, user, role), org);
  }

  lemma OwnCutMember(t: Tables, u: Tables, org: Id, user: Id)
    requires SameRows(t, u, org)
    ensures SameRows(CutMember(t, org, user), CutMember(u, org, user), org)
  {
    OwnMembers(t, u, CutMember(t, org, user), CutMember(u, org, user), org);
  }

  lemma OwnOrgCall(t: Tables, u: Tables, c: OrgCall)
    requires SameRows(t, u, c.org)
    ensures SameResult(PerformOrg(t, c), PerformOrg(u, c), c.org)
  {
    SameOrgVerdict(t, u, c);
    if PerformOrg(t, c).Ok? {
      hide SameRows, UpdateRole, CutMember, CutOrg, InsertMember;
      match c
      case CreateOrg(org, actor, name) => OwnCreateOrg(t, u, org, actor, name);
      case DeleteOrg(org, _) => OwnCutOrg(t, u, org);
      case AddMember(org, _, user, role) => OwnInsert(t, u, org, user, role);
      case ChangeRole(org, _, user, role) => OwnUpdateRole(t, u, org, user, role);
      case RemoveMember(org, _, user) => OwnCutMember(t, u, org, user);
      case Transfer(org, actor, user) =>
        OwnUpdateRole(t, u, org, user, OWNER);
        OwnUpdateRole(UpdateRole(t, org, user, OWNER), UpdateRole(u, org, user, OWNER), org, actor, ADMIN);
    }
  }

  /* Invites. */

  lemma SameLookup(a: Store, b: Store, now: Time, org: Id, h: Id)
    requires SameInvites(a, b, now, org)
    ensures OrgInvite(a, now, org, h) == OrgInvite(b, now, org, h)
    ensures OrgInvite(a, now, org, h) ==> a[InviteKey(h)] == b[InviteKey(h)]
  {
    assert InviteIn(a, now, org, h) == InviteIn(b, now, org, h);
  }

  lemma InvitesFollow(a: Store, b: Store, a': Store, b': Store, now: Time, org: Id)
    requires SameInvites(a, b, now, org)
    requires SetMembers(a', IndexKey(org)) == SetMembers(b', IndexKey(org))
    requires forall h :: InviteIn(a, now, org, h) == InviteIn(b, now, org, h) ==> InviteIn(a', now, org, h) == InviteIn(b', now, org, h)
    ensures SameInvites(a', b', now, org)
  {
  }

  lemma OwnCreateInvite(a: Store, b: Store, now: Time, org: Id, h: Id, value: Json, ttl: nat)
    requires SameInvites(a, b, now, org) && WellTyped(a) && WellTyped(b)
    ensures SameInvites(SetAdd(SetJson(a, now, InviteKey(h), value, ttl), IndexKey(org), h),
                        SetAdd(SetJson(b, now, InviteKey(h), value, ttl), IndexKey(org), h), now, org)
  {
    var x, y := SetJson(a, now, InviteKey(h), value, ttl), SetJson(b, now, InviteKey(h), value, ttl);
    assert SetMembers(x, IndexKey(org)) == SetMembers(a, IndexKey(org)) && SetMembers(y, IndexKey(org)) == SetMembers(b, IndexKey(org));
    InvitesFollow(a, b, SetAdd(x, IndexKey(org), h), SetAdd(y, IndexKey(org), h), now, org);
  }

  lemma OwnDropInvite(a: Store, b: Store, now: Time, org: Id, h: Id)
    requires SameInvites(a, b, now, org) && WellTyped(a) && WellTyped(b)
    ensures SameInvites(SetRemove(Del(a, InviteKey(h)), IndexKey(org), h), SetRemove(Del(b, InviteKey(h)), IndexKey(org), h), now, org)
  {
    var x, y := Del(a, InviteKey(h)), Del(b, InviteKey(h));
    assert SetMembers(x, IndexKey(org)) == SetMembers(a, IndexKey(org)) && SetMembers(y, IndexKey(org)) == SetMembers(b, IndexKey(org));
    IndexAfterRemove(x, org, h, org);
    IndexAfterRemove(y, org, h, org);
    InvitesFollow(a, b, SetRemove(x, IndexKey(org), h), SetRemove(y, IndexKey(org), h), now, org);
  }

  lemma PrunedIndex(a: Store, now: Time, org: Id)
    requires WellTyped(a)
    ensures SetMembers(Pruned(a, now, org), IndexKey(org)) == set h | h in SetMembers(a, IndexKey(org)) && OrgInvite(a, now, org, h)
    ensures forall h :: InviteIn(Pruned(a, now, org), now, org, h) == InviteIn(a, now, org, h)
  {
  }

  lemma OwnPrune(a: Store, b: Store, now: Time, org: Id)
    requires SameInvites(a, b, now, org) && WellTyped(a) && WellTyped(b)
    ensures SameInvites(Pruned(a, now, org), Pruned(b, now, org), now, org)
  {
    PrunedIndex(a, now, org);
    PrunedIndex(b, now, org);
    forall h ensures OrgInvite(a, now, org, h) == OrgInvite(b, now, org, h) { SameLookup(a, b, now, org, h); }
    hide Pruned;
    InvitesFollow(a, b, Pruned(a, now, org), Pruned(b, now, org), now, org);
  }

  lemma OwnJoin(t: Tables, u: Tables, a: Store, b: Store, now: Time, hash: Id, actor: Id, org: Id)
    requires SameRows(t, u, org) && SameInvites(a, b, now, org) && WellTyped(a) && WellTyped(b)
    requires OrgInvite(a, now, org, hash)
    ensures OrgInvite(b, now, org, hash)
    ensures SameResult(JoinOn(t, a, now, hash, actor).1, JoinOn(u, b, now, hash, actor).1, org)
    ensures SameInvites(JoinOn(t, a, now, hash, actor).0, JoinOn(u, b, now, hash, actor).0, now, org)
  {
    assert t.MemberRole(org, actor) == u.MemberRole(org, actor);
    SameLookup(a, b, now, org, hash);
    OwnDropInvite(a, b, now, org, hash);
    OwnInsert(t, u, org, actor, a[InviteKey(hash)].value.role);
    hide SameRows, SameInvites, SetRemove, Del, InsertMember;
  }

  ghost predicate SameStored(r: Result<Store>, q: Result<Store>, now: Time, org: Id) {
    if r.Err? then q == r else q.Ok? && SameInvites(r.value, q.value, now, org)
  }

  lemma OwnCreateCall(t: Tables, u: Tables, a: Store, b: Store, now: Time, org: Id, actor: Id, role: Role, ttl: Option<nat>, hash: Id)
    requires SameRows(t, u, org) && SameInvites(a, b, now, org) && WellTyped(a) && WellTyped(b)
    ensures SameStored(CreateInviteOn(t, a, now, org, actor, role, ttl, hash), CreateInviteOn(u, b, now, org, actor, role, ttl, hash), now, org)
  {
    assert t.MemberRole(org, actor) == u.MemberRole(org, actor);
    OwnCreateInvite(a, b, now, org, hash, InviteJson(org, role, actor, now), InviteTtl(ttl));
    hide SameRows, SameInvites, SetAdd, SetJson;
  }

  lemma OwnListCall(t: Tables, u: Tables, a: Store, b: Store, now: Time, org: Id, actor: Id)
    requires SameRows(t, u, org) && SameInvites(a, b, now, org) && WellTyped(a) && WellTyped(b)
    ensures SameStored(ListInvitesOn(t, a, now, org, actor), ListInvitesOn(u, b, now, org, actor), now, org)
  {
    assert t.MemberRole(org, actor) == u.MemberRole(org, actor);
    OwnPrune(a, b, now, org);
    hide SameRows, SameInvites, Pruned;
  }

  lemma OwnRevokeCall(t: Tables, u: Tables, a: Store, b: Store, now: Time, org: Id, actor: Id, hash: Id)
    requires SameRows(t, u, org) && SameInvites(a, b, now, org) && WellTyped(a) && WellTyped(b)
    ensures SameStored(RevokeInviteOn(t, a, now, org, actor, hash), RevokeInviteOn(u, b, now, org, actor, hash), now, org)
  {
    assert t.MemberRole(org, actor) == u.MemberRole(org, actor);
    SameLookup(a, b, now, org, hash);
    OwnDropInvite(a, b, now, org, hash);
    hide SameRows, SameInvites, SetRemove, Del, OrgInvite;
  }

  lemma OwnInviteCall(t: Tables, u: Tables, a: Store, b: Store, now: Time, c: InviteCall, org: Id)
    requires SameRows(t, u, org) && SameInvites(a, b, now, org) && WellTyped(a) && WellTyped(b)
    requires InviteAddressee(a, now, c) == Some(org)
    ensures InviteAddressee(b, now, c) == Some(org)
    ensures SameResult(PerformInvite(t, a, now, c).1, PerformInvite(u, b, now, c).1, org)
    ensures SameInvites(PerformInvite(t, a, now, c).0, PerformInvite(u, b, now, c).0, now, org)
  {
    hide SameRows, SameInvites, WellTyped, CreateInviteOn, ListInvitesOn, RevokeInviteOn, JoinOn;
    match c
    case CreateInvite(_, actor, role, ttl, hash) => OwnCreateCall(t, u, a, b, now, org, actor, role, ttl, hash);
    case ListInvites(_, actor) => OwnListCall(t, u, a, b, now, org, actor);
    case RevokeInvite(_, actor, hash) => OwnRevokeCall(t, u, a, b, now, org, actor, hash);
    case Join(hash, actor) => OwnJoin(t, u, a, b, now, hash, actor, org);
  }

  /* Projects and tasks. */

  lemma OwnWork(t: Tables, u: Tables, t': Tables, u': Tables, org: Id)
    requires SameRows(t, u, org)
    requires t' == t.(projects := t'.projects, tasks := t'.tasks) && u' == u.(projects := u'.projects, tasks := u'.tasks)
    requires forall p :: ProjectIn(t, org, p) == ProjectIn(u, org, p) ==> ProjectIn(t', org, p) == ProjectIn(u', org, p)
    requires forall k :: TaskIn(t, org, k) == TaskIn(u, org, k) ==> TaskIn(t', org, k) == TaskIn(u', org, k)
    ensures SameRows(t', u', org)
  {
    assert forall x :: t'.MemberRole(org, x) == t.MemberRole(org, x) && u'.MemberRole(org, x) == u.MemberRole(org, x);
    assert OrgIn(t', org) == OrgIn(t, org) && OrgIn(u', org) == OrgIn(u, org);
    RowsFollow(t, u, t', u', org);
  }

  ghost predicate SameWork(r: Result<(Tables, seq<Outbox.Event>)>, q: Result<(Tables, seq<Outbox.Event>)>, org: Id) {
    if r.Err? then q == r else q.Ok? && q.value.1 == r.value.1 && SameRows(r.value.0, q.value.0, org)
  }

  lemma SameUpdateVerdict(t: Tables, u: Tables, task: Id, actor: Id, patch: Patch, org: Id)
    requires SameRows(t, u, org) && task in t.tasks && t.tasks[task].org == org
    ensures task in u.tasks && u.tasks[task] == t.tasks[task]
    ensures UpdateTaskCheck(t, t.tasks[task], actor, patch) == UpdateTaskCheck(u, t.tasks[task], actor, patch)
    ensures Patched(t, t.tasks[task], patch) == Patched(u, t.tasks[task], patch)
  {
    assert t.MemberRole(org, actor) == u.MemberRole(org, actor);
    assert TaskIn(t, org, task) == TaskIn(u, org, task);
    if patch.assignedTo.Some? && patch.assignedTo.value.Some? {
      assert t.MemberRole(org, patch.assignedTo.value.value) == u.MemberRole(org, patch.assignedTo.value.value);
    }
  }

  lemma OwnTaskRow(t: Tables, u: Tables, task: Id, row: Task, org: Id)
    requires SameRows(t, u, org)
    ensures SameRows(t.(tasks := t.tasks[task := row]), u.(tasks := u.tasks[task := row]), org)
  {
    var t', u' := t.(tasks := t.tasks[task := row]), u.(tasks := u.tasks[task := row]);
    assert forall p :: ProjectIn(t', org, p) == ProjectIn(t, org, p) && ProjectIn(u', org, p) == ProjectIn(u, org, p);
    OwnWork(t, u, t', u', org);
  }

  lemma OwnUpdateTask(t: Tables, u: Tables, now: Time, task: Id, actor: Id, patch: Patch, org: Id)
    requires SameRows(t, u, org) && task in t.tasks && t.tasks[task].org == org
    ensures task in u.tasks && u.tasks[task] == t.tasks[task]
    ensures SameWork(UpdateTaskOn(t, now, task, actor, patch), UpdateTaskOn(u, now, task, actor, patch), org)
  {
    SameUpdateVerdict(t, u, task, actor, patch, org);
    hide SameRows, UpdateTaskCheck, Patched;
    if Patched(t, t.tasks[task], patch).Ok? {
      OwnTaskRow(t, u, task, Patched(t, t.tasks[task], patch).value, org);
    }
  }

  lemma OwnProjectCall(t: Tables, u: Tables, now: Time, c: WorkCall, org: Id)
    requires SameRows(t, u, org) && WorkAddressee(t, c) == Some(org)
    requires c.DeleteProject? || (c.CreateProject? && c.project !in t.projects && c.project !in u.projects)
    ensures WorkAddressee(u, c) == Some(org)
    ensures SameWork(PerformWork(t, now, c), PerformWork(u, now, c), org)
  {
    assert t.MemberRole(org, c.actor) == u.MemberRole(org, c.actor) && OrgIn(t, org) == OrgIn(u, org);
    assert ProjectIn(t, org, c.project) == ProjectIn(u, org, c.project);
    var r, q := PerformWork(t, now, c), PerformWork(u, now, c);
    if r.Ok? {
      OwnWork(t, u, r.value.0, q.value.0, org);
    }
  }

  lemma OwnCutTask(t: Tables, u: Tables, task: Id, org: Id)
    requires SameRows(t, u, org)
    ensures SameRows(CutTask(t, task), CutTask(u, task), org)
  {
    var t', u' := CutTask(t, task), CutTask(u, task);
    assert forall p :: ProjectIn(t', org, p) == ProjectIn(t, org, p) && ProjectIn(u', org, p) == ProjectIn(u, org, p);
    OwnWork(t, u, t', u', org);
  }

  lemma OwnDeleteTask(t: Tables, u: Tables, now: Time, c: WorkCall, org: Id)
    requires SameRows(t, u, org) && WorkAddressee(t, c) == Some(org) && c.DeleteTask?
    ensures WorkAddressee(u, c) == Some(org)
    ensures SameWork(PerformWork(t, now, c), PerformWork(u, now, c), org)
  {
    assert t.MemberRole(org, c.actor) == u.MemberRole(org, c.actor);
    assert TaskIn(t, org, c.task) == TaskIn(u, org, c.task);
    OwnCutTask(t, u, c.task, org);
    hide SameRows, CutTask;
  }

  lemma OwnCreateTask(t: Tables, u: Tables, now: Time, c: WorkCall, org: Id)
    requires SameRows(t, u, org) && WorkAddressee(t, c) == Some(org)
    requires c.CreateTask? && c.task !in t.tasks && c.task !in u.tasks
    ensures WorkAddressee(u, c) == Some(org)
    ensures SameWork(PerformWork(t, now, c), PerformWork(u, now, c), org)
  {
    assert t.MemberRole(org, c.actor) == u.MemberRole(org, c.actor) && OrgIn(t, org) == OrgIn(u, org);
    assert ProjectIn(t, org, c.project) == ProjectIn(u, org, c.project);
    OwnTaskRow(t, u, c.task, Task(org, c.project, c.title, c.description, c.status, c.actor, None), org);
  }

  lemma OwnWorkCall(t: Tables, u: Tables, now: Time, c: WorkCall, org: Id)
    requires SameRows(t, u, org) && WorkAddressee(t, c) == Some(org)
    requires c.CreateProject? ==> c.project !in t.projects && c.project !in u.projects
    requires c.CreateTask? ==> c.task !in t.tasks && c.task !in u.tasks
    ensures WorkAddressee(u, c) == Some(org)
    ensures SameWork(PerformWork(t, now, c), PerformWork(u, now, c), org)
  {
    match c
    case UpdateTask(task, actor, patch) => OwnUpdateTask(t, u, now, task, actor, patch, org);
    case CreateProject(_, _, _, _) => OwnProjectCall(t, u, now, c, org);
    case DeleteProject(_, _) => OwnProjectCall(t, u, now, c, org);
    case CreateTask(_, _, _, _, _, _, _) => OwnCreateTask(t, u, now, c, org);
    case DeleteTask(_, _) => OwnDeleteTask(t, u, now, c, org);
  }

  /* ---------------- Calls of other organisations leave it alone ---------------- */

  lemma OtherCutOrg(t: Tables, other: Id, org: Id)
    requires Sound(t) && other != org
    ensures SameRows(t, CutOrg(t, other), org)
  {
    forall k ensures TaskIn(t, org, k) == TaskIn(CutOrg(t, other), org, k) {
      if k in t.tasks { assert SoundTask(t.projects, t.users, t.tasks[k]); }
    }
  }

  lemma OtherMembers(t: Tables, c: OrgCall, org: Id)
    requires c.org != org && !c.DeleteOrg? && PerformOrg(t, c).Ok?
    ensures SameRows(t, PerformOrg(t, c).value, org)
  {
  }

  lemma OtherOrgCall(t: Tables, c: OrgCall, org: Id)
    requires Sound(t) && c.org != org && PerformOrg(t, c).Ok?
    ensures SameRows(t, PerformOrg(t, c).value, org)
  {
    hide Sound, SameRows, CutOrg;
    if c.DeleteOrg? {
      OtherCutOrg(t, c.org, org);
    } else {
      OtherMembers(t, c, org);
      hide PerformOrg;
    }
  }

  lemma OtherCutProject(t: Tables, project: Id, org: Id)
    requires Sound(t) && project in t.projects && t.projects[project].org != org
    ensures SameRows(t, CutProject(t, project), org)
  {
    forall k ensures TaskIn(t, org, k) == TaskIn(CutProject(t, project), org, k) {
      if k in t.tasks { assert SoundTask(t.projects, t.users, t.tasks[k]); }
    }
  }

  lemma OtherTaskRow(t: Tables, task: Id, row: Task, org: Id)
    requires task in t.tasks ==> t.tasks[task].org != org
    requires row.org != org
    ensures SameRows(t, t.(tasks := t.tasks[task := row]), org)
  {
  }

  lemma OtherWorkCall(t: Tables, now: Time, c: WorkCall, org: Id)
    requires Sound(t) && WorkAddressee(t, c) != Some(org) && PerformWork(t, now, c).Ok?
    requires c.CreateProject? ==> c.project !in t.projects
    requires c.CreateTask? ==> c.task !in t.tasks
    ensures SameRows(t, PerformWork(t, now, c).value.0, org)
  {
    match c
    case DeleteProject(project, _) => OtherCutProject(t, project, org);
    case UpdateTask(task, _, patch) => OtherTaskRow(t, task, Patched(t, t.tasks[task], patch).value, org);
    case CreateTask(task, other, project, actor, title, description, status) =>
      OtherTaskRow(t, task, Task(other, project, title, description, status, actor, None), org);
    case _ =>
  }

  lemma OtherInvite(a: Store, now: Time, issued: set<Id>, other: Id, h: Id, value: Json, ttl: nat, org: Id)
    requires StoreInv(a, now, issued) && h !in issued && value.InviteJson? && value.org == other && other != org
    ensures SameInvites(a, SetAdd(SetJson(a, now, InviteKey(h), value, ttl), IndexKey(other), h), now, org)
  {
    assert InviteKey(h) !in a;
  }

  lemma OtherDrop(a: Store, now: Time, other: Id, h: Id, org: Id)
    requires WellTyped(a) && OrgInvite(a, now, other, h) && other != org
    ensures SameInvites(a, SetRemove(Del(a, InviteKey(h)), IndexKey(other), h), now, org)
  {
    var x := Del(a, InviteKey(h));
    assert SetMembers(x, IndexKey(org)) == SetMembers(a, IndexKey(org));
    IndexAfterRemove(x, other, h, org);
  }

  lemma OtherPrune(a: Store, now: Time, other: Id, org: Id)
    requires WellTyped(a) && other != org
    ensures SameInvites(a, Pruned(a, now, other), now, org)
  {
  }

  lemma OtherInviteCall(t: Tables, a: Store, now: Time, issued: set<Id>, c: InviteCall, org: Id)
    requires StoreInv(a, now, issued) && Draws(OnInvite(c)) !! issued
    requires InviteAddressee(a, now, c) != Some(org)
    ensures SameInvites(a, PerformInvite(t, a, now, c).0, now, org)
    ensures PerformInvite(t, a, now, c).1.Ok? ==> SameRows(t, PerformInvite(t, a, now, c).1.value, org)
  {
    match c
    case CreateInvite(other, actor, role, ttl, hash) => OtherInvite(a, now, issued, other, hash, InviteJson(other, role, actor, now), InviteTtl(ttl), org);
    case ListInvites(other, _) => OtherPrune(a, now, other, org);
    case RevokeInvite(other, _, hash) => if OrgInvite(a, now, other, hash) { OtherDrop(a, now, other, hash, org); }
    case Join(hash, _) => if Live(a, now, InviteKey(hash)) { OtherDrop(a, now, a[InviteKey(hash)].value.org, hash, org); }
  }

  /* ---------------- One call ---------------- */

  lemma TransitiveRows(t: Tables, t': Tables, u: Tables, org: Id)
    requires SameRows(t, t', org) && SameRows(t, u, org)
    ensures SameRows(t', u, org)
  {
    forall x ensures t'.MemberRole(org, x) == u.MemberRole(org, x) { assert t.MemberRole(org, x) == t'.MemberRole(org, x); }
    forall p ensures ProjectIn(t', org, p) == ProjectIn(u, org, p) { assert ProjectIn(t, org, p) == ProjectIn(t', org, p); }
    forall k ensures TaskIn(t', org, k) == TaskIn(u, org, k) { assert TaskIn(t, org, k) == TaskIn(t', org, k); }
  }

  lemma TransitiveInvites(a: Store, a': Store, b: Store, now: Time, org: Id)
    requires SameInvites(a, a', now, org) && SameInvites(a, b, now, org)
    ensures SameInvites(a', b, now, org)
  {
    forall h ensures InviteIn(a', now, org, h) == InviteIn(b, now, org, h) { assert InviteIn(a, now, org, h) == InviteIn(a', now, org, h); }
  }

  /** Stores that agree on the organisation's invites list the same items. */
  lemma SameItems(a: Store, b: Store, now: Time, org: Id)
    requires SameInvites(a, b, now, org)
    ensures Items(a, now, org, SetMembers(a, IndexKey(org))) == Items(b, now, org, SetMembers(b, IndexKey(org)))
  {
    var x, y := Items(a, now, org, SetMembers(a, IndexKey(org))), Items(b, now, org, SetMembers(b, IndexKey(org)));
    forall h ensures OrgInvite(a, now, org, h) == OrgInvite(b, now, org, h) && (OrgInvite(a, now, org, h) ==> ItemOf(a, now, h) == ItemOf(b, now, h)) {
      SameLookup(a, b, now, org, h);
    }
    assert forall item :: item in x ==> item in y;
    assert forall item :: item in y ==> item in x;
  }

  lemma OwnCall(s: State, r: State, c: Call, org: Id)
    requires Inv(s) && Inv(r) && Same(s, r, org) && Enabled(s, c) && Addressee(s, c) == Some(org)
    ensures Enabled(r, c) && Addressee(r, c) == Some(org)
    ensures Same(Apply(s, c).state, Apply(r, c).state, org)
    ensures Apply(s, c).status == Apply(r, c).status && Apply(s, c).events == Apply(r, c).events
  {
    hide SameRows, SameInvites, PerformOrg, PerformInvite, PerformWork, Sound, Owned;
    match c
    case OnOrg(o) => OwnOrgCall(s.tables, r.tables, o);
    case OnInvite(i) => OwnInviteCall(s.tables, r.tables, s.store, r.store, s.clock, i, org);
    case OnWork(w) => OwnWorkCall(s.tables, r.tables, s.clock, w, org);
  }

  lemma OtherCall(s: State, r: State, c: Call, org: Id)
    requires Inv(s) && Same(s, r, org) && Enabled(s, c) && !c.Tick? && !c.OnAuth? && Addressee(s, c) != Some(org)
    ensures Same(Apply(s, c).state, r, org)
  {
    SameInvitesRefl(s.store, s.clock, org);
    hide SameRows, SameInvites, PerformOrg, PerformInvite, PerformWork, Owned;
    var after := Apply(s, c).state;
    match c
    case OnOrg(o) => if PerformOrg(s.tables, o).Ok? { OtherOrgCall(s.tables, o, org); TransitiveRows(s.tables, after.tables, r.tables, org); }
    case OnWork(w) =>
      if PerformWork(s.tables, s.clock, w).Ok? { OtherWorkCall(s.tables, s.clock, w, org); TransitiveRows(s.tables, after.tables, r.tables, org); }
    case OnInvite(i) =>
      OtherInviteCall(s.tables, s.store, s.clock, s.issued, i, org);
      TransitiveInvites(s.store, after.store, r.store, s.clock, org);
      if PerformInvite(s.tables, s.store, s.clock, i).1.Ok? { TransitiveRows(s.tables, after.tables, r.tables, org); }
  }

  lemma SameInvitesRefl(a: Store, now: Time, org: Id)
    ensures SameInvites(a, a, now, org)
  {
  }

  /* Shared calls: the clock, and users with their sessions and tokens. */

  lemma LaterInvites(a: Store, b: Store, now: Time, later: Time, org: Id)
    requires SameInvites(a, b, now, org) && now <= later
    ensures SameInvites(a, b, later, org)
  {
    forall h ensures InviteIn(a, later, org, h) == InviteIn(b, later, org, h) {
      assert InviteIn(a, now, org, h) == InviteIn(b, now, org, h);
    }
  }

  lemma AuthInvites(t: Tables, a: Store, now: Time, c: AuthCall, org: Id)
    ensures SameInvites(a, PerformAuth(t, a, now, c).0, now, org)
  {
  }

  lemma AuthKeys(t: Tables, a: Store, now: Time, c: AuthCall)
    ensures var r := PerformAuth(t, a, now, c).1; var t' := if r.Ok? then r.value else t;
      && t' == t.(users := t'.users)
      && t'.users.Keys == t.users.Keys + if c.Register? then {c.user} else {}
  {
    if PerformAuth(t, a, now, c).1.Ok? { AuthCallTables(t, a, now, c); }
  }

  lemma OwnUsers(t: Tables, u: Tables, t': Tables, u': Tables, org: Id)
    requires SameRows(t, u, org)
    requires t' == t.(users := t'.users) && u' == u.(users := u'.users) && t'.users.Keys == u'.users.Keys
    ensures SameRows(t', u', org)
  {
    assert OrgIn(t', org) == OrgIn(t, org) && OrgIn(u', org) == OrgIn(u, org);
    assert forall x :: t'.MemberRole(org, x) == t.MemberRole(org, x) && u'.MemberRole(org, x) == u.MemberRole(org, x);
    assert forall p :: ProjectIn(t', org, p) == ProjectIn(t, org, p) && ProjectIn(u', org, p) == ProjectIn(u, org, p);
    assert forall k :: TaskIn(t', org, k) == TaskIn(t, org, k) && TaskIn(u', org, k) == TaskIn(u, org, k);
    RowsFollow(t, u, t', u', org);
  }

  lemma AuthRows(t: Tables, u: Tables, a: Store, b: Store, now: Time, c: AuthCall, org: Id)
    requires SameRows(t, u, org)
    ensures var r, q := PerformAuth(t, a, now, c).1, PerformAuth(u, b, now, c).1;
      SameRows(if r.Ok? then r.value else t, if q.Ok? then q.value else u, org)
  {
    var r, q := PerformAuth(t, a, now, c).1, PerformAuth(u, b, now, c).1;
    AuthKeys(t, a, now, c);
    AuthKeys(u, b, now, c);
    hide PerformAuth;
    OwnUsers(t, u, if r.Ok? then r.value else t, if q.Ok? then q.value else u, org);
  }

  lemma SharedCall(s: State, r: State, c: Call, org: Id)
    requires Same(s, r, org) && Enabled(s, c) && (c.Tick? || c.OnAuth?)
    ensures Enabled(r, c)
    ensures Same(Apply(s, c).state, Apply(r, c).state, org)
  {
    hide SameRows, SameInvites, PerformAuth;
    var s', r' := Apply(s, c).state, Apply(r, c).state;
    if c.Tick? {
      LaterInvites(s.store, r.store, s.clock, s'.clock, org);
    } else {
      AuthRows(s.tables, r.tables, s.store, r.store, s.clock, c.a, org);
      AuthInvites(s.tables, s.store, s.clock, c.a, org);
      AuthInvites(r.tables, r.store, s.clock, c.a, org);
      TransitiveInvites(s.store, s'.store, r.store, s.clock, org);
      InvitesSymmetric(s'.store, r.store, s.clock, org);
      TransitiveInvites(r.store, r'.store, s'.store, s.clock, org);
      InvitesSymmetric(r'.store, s'.store, s.clock, org);
    }
  }

  lemma InvitesSymmetric(a: Store, b: Store, now: Time, org: Id)
    requires SameInvites(a, b, now, org)
    ensures SameInvites(b, a, now, org)
  {
    forall h ensures InviteIn(b, now, org, h) == InviteIn(a, now, org, h) { assert InviteIn(a, now, org, h) == InviteIn(b, now, org, h); }
  }

  /* ---------------- Whole runs ---------------- */

  predicate Kept(s: State, c: Call, org: Id) {
    c.Tick? || c.OnAuth? || Addressee(s, c) == Some(org)
  }

  /** The run without the calls that turn out to concern other organisations, or none. */
  function Purged(s: State, calls: seq<Call>, n: nat, org: Id): seq<Call>
    requires n <= |calls|
  {
    if n == 0 then []
    else Purged(s, calls, n - 1, org) + if Kept(At(s, calls, n - 1), calls[n - 1], org) then [calls[n - 1]] else []
  }

  /** A reply: its status, the events it committed, and the items of a listing. */
  datatype Heard = Heard(status: int, events: seq<Outbox.Event>, items: set<InviteItem>)

  function Reported(s: State, c: Call): set<InviteItem> {
    if c.OnInvite? && c.i.ListInvites? && Apply(s, c).status == 200
    then Items(s.store, s.clock, c.i.org, SetMembers(s.store, IndexKey(c.i.org)))
    else {}
  }

  function Told(s: State, c: Call, org: Id): seq<Heard> {
    if Addressee(s, c) == Some(org) then [Heard(Apply(s, c).status, Apply(s, c).events, Reported(s, c))] else []
  }

  /** What the organisation's callers were told, in order. */
  function Replies(s: State, calls: seq<Call>, n: nat, org: Id): seq<Heard>
    requires n <= |calls|
  {
    if n == 0 then []
    else Replies(s, calls, n - 1, org) + Told(At(s, calls, n - 1), calls[n - 1], org)
  }

  lemma {:induction false} RepliesPrefix(s: State, calls: seq<Call>, c: Call, n: nat, org: Id)
    requires n <= |calls|
    ensures Replies(s, calls + [c], n, org) == Replies(s, calls, n, org)
  {
    hide Apply, Addressee, Told;
    if n > 0 {
      RepliesPrefix(s, calls, c, n - 1, org);
      AtPrefix(s, calls, c, n - 1);
    }
  }

  lemma RepliesSnoc(s: State, calls: seq<Call>, c: Call, org: Id)
    requires Valid(s, calls) && Enabled(At(s, calls, |calls|), c)
    ensures Valid(s, calls + [c])
    ensures At(s, calls + [c], |calls| + 1) == Apply(At(s, calls, |calls|), c).state
    ensures Replies(s, calls + [c], |calls| + 1, org) == Replies(s, calls, |calls|, org) + Told(At(s, calls, |calls|), c, org)
  {
    hide Apply, Enabled, Addressee, Told;
    Snoc(s, calls, c);
    RepliesPrefix(s, calls, c, |calls|, org);
    AtPrefix(s, calls, c, |calls|);
  }

  lemma SameRefl(s: State, org: Id)
    ensures Same(s, s, org)
  {
  }

  lemma OwnReport(s: State, r: State, c: Call, org: Id)
    requires Same(s, r, org) && Addressee(s, c) == Some(org) && Apply(s, c).status == Apply(r, c).status
    ensures Reported(s, c) == Reported(r, c)
  {
    SameItems(s.store, r.store, s.clock, org);
    hide Apply, Items, SameInvites, SameRows;
  }

  lemma SharedHasNoAddressee(s: State, c: Call)
    requires c.Tick? || c.OnAuth?
    ensures Addressee(s, c).None?
  {
  }

  /** One more call of the full run, beside a purged run that has kept up so far. */
  lemma KeepUp(s0: State, before: seq<Call>, s: State, c: Call, org: Id)
    requires Valid(s0, before) && Inv(s) && Inv(At(s0, before, |before|)) && Enabled(s, c)
    requires Same(s, At(s0, before, |before|), org)
    ensures var after := before + if Kept(s, c, org) then [c] else [];
      && Valid(s0, after)
      && Same(Apply(s, c).state, At(s0, after, |after|), org)
      && Replies(s0, after, |after|, org) == Replies(s0, before, |before|, org) + Told(s, c, org)
  {
    hide Apply, Enabled, Inv, Same, Addressee, Reported;
    var r := At(s0, before, |before|);
    if c.Tick? || c.OnAuth? {
      SharedCall(s, r, c, org);
      SharedHasNoAddressee(s, c);
      SharedHasNoAddressee(r, c);
      RepliesSnoc(s0, before, c, org);
    } else if Addressee(s, c) == Some(org) {
      OwnCall(s, r, c, org);
      OwnReport(s, r, c, org);
      RepliesSnoc(s0, before, c, org);
    } else {
      OtherCall(s, r, c, org);
      assert before + [] == before;
    }
  }

  /** Deleting from a run every call that concerns another organisation leaves a run in which this one has the same
      members, projects, tasks, live invites and index, and its callers were told the same. */
  lemma {:induction false} Isolation(now: Time, calls: seq<Call>, n: nat, org: Id)
    requires Valid(Start(now), calls) && n <= |calls|
    ensures var purged := Purged(Start(now), calls, n, org);
      && Valid(Start(now), purged)
      && Same(At(Start(now), calls, n), At(Start(now), purged, |purged|), org)
      && Replies(Start(now), calls, n, org) == Replies(Start(now), purged, |purged|, org)
  {
    hide Apply, Enabled, Inv, Same, Addressee, Kept;
    var s0 := Start(now);
    if n == 0 {
      SameRefl(s0, org);
    } else {
      var c, s := calls[n - 1], At(s0, calls, n - 1);
      var before := Purged(s0, calls, n - 1, org);
      Isolation(now, calls, n - 1, org);
      Reachable(now, calls, n - 1);
      Reachable(now, before, |before|);
      assert Enabled(s, c);
      KeepUp(s0, before, s, c, org);
    }
  }
}
