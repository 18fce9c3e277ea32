/** Who may change what: every change any call makes to a membership or to a task was that caller's to make. */
module Authority {
  import opened Prelude
  import opened Redis
  import opened Tables
  import opened Calls
  import opened Integrity
  import opened StoreIntegrity
  import opened Owners

  predicate Manages(t: Tables, org: Id, user: Id) {
    t.MemberRole(org, user) == Some(OWNER) || t.MemberRole(org, user) == Some(ADMIN)
  }

  /* ---------------- Memberships ---------------- */

  /** The calls that may turn a user's place in an organisation from `was` into `next`. */
  predicate MayMove(t: Tables, c: OrgCall, org: Id, user: Id, was: Option<Role>, next: Option<Role>) {
    && c.org == org
    && match c
       case CreateOrg(_, actor, _) => org !in t.orgs && user == actor && was.None? && next == Some(OWNER)
       case DeleteOrg(_, actor) => IsOwner(t, org, actor) && next.None?
       case AddMember(_, actor, u, role) =>
         Manages(t, org, actor) && (role == OWNER ==> IsOwner(t, org, actor)) && u == user && was.None? && next == Some(role)
       case ChangeRole(_, actor, u, role) => IsOwner(t, org, actor) && u == user && was.Some? && next == Some(role)
       case RemoveMember(_, actor, u) =>
         Manages(t, org, actor) && (was == Some(OWNER) ==> IsOwner(t, org, actor)) && u == user && next.None?
       case Transfer(_, actor, u) =>
         && IsOwner(t, org, actor)
         && ((user == u && was.Some? && next == Some(OWNER)) || (user == actor && next == Some(ADMIN)))
  }

  /** A user takes up a live invite to the organisation, in the role it was issued for. */
  predicate MayJoin(s: State, c: InviteCall, org: Id, user: Id, was: Option<Role>, next: Option<Role>) {
    && c.Join? && c.actor == user && was.None?
    && OrgInvite(s.store, s.clock, org, c.hash)
    && next == Some(s.store[InviteKey(c.hash)].value.role)
  }

  lemma OrgCallMoves(t: Tables, c: OrgCall, org: Id, user: Id)
    requires PerformOrg(t, c).Ok?
    requires Sound(t) && PerformOrg(t, c).value.MemberRole(org, user) != t.MemberRole(org, user)
    ensures MayMove(t, c, org, user, t.MemberRole(org, user), PerformOrg(t, c).value.MemberRole(org, user))
  {
  }

  lemma JoinMoves(s: State, c: InviteCall, org: Id, user: Id)
    requires Inv(s)
    requires var r := PerformInvite(s.tables, s.store, s.clock, c).1; r.Ok? && r.value.MemberRole(org, user) != s.tables.MemberRole(org, user)
    ensures MayJoin(s, c, org, user, s.tables.MemberRole(org, user), PerformInvite(s.tables, s.store, s.clock, c).1.value.MemberRole(org, user))
  {
  }

  /** Every change of a membership, in any reachable state and by any call, is authorised: nobody but an owner makes,
      unmakes or removes an owner or changes a role, nobody but a manager adds or removes, and apart from that a user
      only ever founds, or takes up an invite as issued. */
  lemma MembershipChangesAreAuthorised(s: State, c: Call, org: Id, user: Id)
    requires Inv(s)
    ensures var was, next := s.tables.MemberRole(org, user), Apply(s, c).state.tables.MemberRole(org, user);
      || next == was
      || (c.OnOrg? && MayMove(s.tables, c.o, org, user, was, next))
      || (c.OnInvite? && MayJoin(s, c.i, org, user, was, next))
  {
    hide PerformOrg, PerformInvite, PerformWork, PerformAuth, MayMove, MayJoin;
    match c
    case OnOrg(o) =>
      if PerformOrg(s.tables, o).Ok? && PerformOrg(s.tables, o).value.MemberRole(org, user) != s.tables.MemberRole(org, user) {
        OrgCallMoves(s.tables, o, org, user);
      }
    case OnInvite(i) =>
      var r := PerformInvite(s.tables, s.store, s.clock, i).1;
      if r.Ok? && r.value.MemberRole(org, user) != s.tables.MemberRole(org, user) { JoinMoves(s, i, org, user); }
    case OnWork(w) => if PerformWork(s.tables, s.clock, w).Ok? { WorkCallMembers(s.tables, s.clock, w); }
    case OnAuth(a) => if PerformAuth(s.tables, s.store, s.clock, a).1.Ok? { AuthCallTables(s.tables, s.store, s.clock, a); }
    case Tick(_) =>
  }

  /* ---------------- Tasks ---------------- */

  function TaskAt(t: Tables, id: Id): Option<Task> {
    if id in t.tasks then Some(t.tasks[id]) else None
  }

  /** What a member may change of a task: managers anything; an assignee also the status; everybody title and
      description. A new assignee is a member. */
  predicate MayEdit(t: Tables, actor: Id, was: Task, next: Task) {
    && next.org == was.org && next.project == was.project && next.createdBy == was.createdBy
    && t.MemberRole(was.org, actor).Some?
    && next.status in ALLOWED_STATUSES
    && (next.status != was.status ==> Manages(t, was.org, actor) || was.assignedTo == Some(actor))
    && (next.assignedTo != was.assignedTo ==>
          && Manages(t, was.org, actor)
          && (next.assignedTo.Some? ==> t.MemberRole(was.org, next.assignedTo.value).Some?))
  }

  predicate MayWork(t: Tables, c: WorkCall, id: Id, was: Option<Task>, next: Option<Task>) {
    match c
    case CreateTask(task, org, project, actor, _, _, _) =>
      && task == id && next.Some? && next.value.org == org && next.value.createdBy == actor && next.value.assignedTo.None?
      && t.MemberRole(org, actor).Some?
      && project in t.projects && t.projects[project].org == org && next.value.project == project
    case UpdateTask(task, actor, _) => task == id && was.Some? && next.Some? && MayEdit(t, actor, was.value, next.value)
    case DeleteTask(task, actor) =>
      && task == id && was.Some? && next.None?
      && t.MemberRole(was.value.org, actor).Some?
      && (Manages(t, was.value.org, actor) || was.value.createdBy == actor)
    case DeleteProject(project, actor) => was.Some? && next.None? && was.value.project == project && Manages(t, was.value.org, actor)
    case CreateProject(_, _, _, _) => false
  }

  lemma EditAllowed(t: Tables, now: Time, id: Id, actor: Id, patch: Patch)
    requires Sound(t) && UpdateTaskOn(t, now, id, actor, patch).Ok?
    ensures MayEdit(t, actor, t.tasks[id], UpdateTaskOn(t, now, id, actor, patch).value.0.tasks[id])
  {
    assert SoundTask(t.projects, t.users, t.tasks[id]);
  }

  lemma WorkAllowed(t: Tables, now: Time, c: WorkCall, id: Id)
    requires Sound(t) && PerformWork(t, now, c).Ok?
    requires TaskAt(PerformWork(t, now, c).value.0, id) != TaskAt(t, id)
    ensures MayWork(t, c, id, TaskAt(t, id), TaskAt(PerformWork(t, now, c).value.0, id))
  {
    if c.UpdateTask? {
      EditAllowed(t, now, c.task, c.actor, c.patch);
      hide MayEdit;
    } else if id in t.tasks {
      assert SoundTask(t.projects, t.users, t.tasks[id]);
    }
  }

  lemma TasksCutWithOrg(t: Tables, c: OrgCall, id: Id)
    requires Sound(t) && PerformOrg(t, c).Ok?
    requires TaskAt(PerformOrg(t, c).value, id) != TaskAt(t, id)
    ensures c.DeleteOrg? && id in t.tasks && t.tasks[id].org == c.org && IsOwner(t, c.org, c.actor)
    ensures TaskAt(PerformOrg(t, c).value, id).None?
  {
    if id in t.tasks { assert SoundTask(t.projects, t.users, t.tasks[id]); }
  }

  /** Every change of a task, in any reachable state and by any call, is authorised, cascades included: a project's
      deletion takes its tasks on a manager's request, an organisation's on an owner's. */
  lemma TaskChangesAreAuthorised(s: State, c: Call, id: Id)
    requires Inv(s)
    ensures var was, next := TaskAt(s.tables, id), TaskAt(Apply(s, c).state.tables, id);
      || next == was
      || (c.OnWork? && MayWork(s.tables, c.w, id, was, next))
      || (c.OnOrg? && c.o.DeleteOrg? && was.Some? && next.None? && was.value.org == c.o.org && IsOwner(s.tables, c.o.org, c.o.actor))
  {
    hide PerformOrg, PerformInvite, PerformWork, PerformAuth, MayWork;
    match c
    case OnOrg(o) =>
      if PerformOrg(s.tables, o).Ok? && TaskAt(PerformOrg(s.tables, o).value, id) != TaskAt(s.tables, id) { TasksCutWithOrg(s.tables, o, id); }
    case OnInvite(i) => if PerformInvite(s.tables, s.store, s.clock, i).1.Ok? { InviteCallTables(s.tables, s.store, s.clock, i); }
    case OnWork(w) =>
      if PerformWork(s.tables, s.clock, w).Ok? && TaskAt(PerformWork(s.tables, s.clock, w).value.0, id) != TaskAt(s.tables, id) {
        WorkAllowed(s.tables, s.clock, w, id);
      }
    case OnAuth(a) => if PerformAuth(s.tables, s.store, s.clock, a).1.Ok? { AuthCallTables(s.tables, s.store, s.clock, a); }
    case Tick(_) =>
  }
}
