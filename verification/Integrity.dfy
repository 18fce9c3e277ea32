/** What holds of the tables and the store in every reachable state. */
module Integrity {
  import opened Prelude
  import opened Redis
  import opened Tables
  import opened Calls

  /** Relational integrity: every reference lands, and a task lies in a project of its own organisation. */
  ghost predicate Sound(t: Tables) {
    && SoundOrgs(t.users, t.orgs)
    && SoundMembers(t.orgs, t.users, t.members)
    && SoundProjects(t.orgs, t.users, t.projects)
    && SoundTasks(t.projects, t.users, t.tasks)
  }

  ghost predicate SoundMembers(orgs: map<Id, Org>, users: map<Id, User>, members: map<(Id, Id), Role>) {
    forall k :: k in members ==> k.0 in orgs && k.1 in users && members[k] in ALLOWED_ROLES
  }

  ghost predicate SoundOrgs(users: map<Id, User>, orgs: map<Id, Org>) {
    forall o :: o in orgs ==> orgs[o].createdBy in users
  }

  ghost predicate SoundProjects(orgs: map<Id, Org>, users: map<Id, User>, projects: map<Id, Project>) {
    forall p :: p in projects ==> projects[p].org in orgs && projects[p].createdBy in users
  }

  ghost predicate SoundTasks(projects: map<Id, Project>, users: map<Id, User>, tasks: map<Id, Task>) {
    forall k :: k in tasks ==> SoundTask(projects, users, tasks[k])
  }

  ghost predicate SoundTask(projects: map<Id, Project>, users: map<Id, User>, task: Task) {
    && task.project in projects
    && projects[task.project].org == task.org
    && task.status in ALLOWED_STATUSES
    && |task.title| <= MAX_TITLE
    && task.createdBy in users
    && (task.assignedTo.Some? ==> task.assignedTo.value in users)
  }

  /** Every organisation has an owner. */
  ghost predicate Owned(t: Tables) {
    forall org :: org in t.orgs ==> t.Owners(org) != {}
  }

  lemma OwnerIn(t: Tables, org: Id, user: Id)
    requires t.MemberRole(org, user) == Some(OWNER)
    ensures t.Owners(org) != {}
  {
    assert (org, user) in t.Owners(org);
  }

  /** Taking the OWNER role from one member leaves the other owners. */
  lemma OneOwnerFewer(t: Tables, after: Tables, org: Id, user: Id)
    requires t.MemberRole(org, user) == Some(OWNER)
    requires after == CutMember(t, org, user) || exists role :: role != OWNER && after == UpdateRole(t, org, user, role)
    ensures after.Owners(org) == t.Owners(org) - {(org, user)}
    ensures |after.Owners(org)| == |t.Owners(org)| - 1
  {
    assert (org, user) in t.Owners(org);
  }

  lemma OwnersElsewhere(t: Tables, after: Tables, org: Id)
    requires forall k: (Id, Id) :: k.0 == org ==> (k in t.members <==> k in after.members)
    requires forall k: (Id, Id) :: k.0 == org && k in t.members ==> t.members[k] == after.members[k]
    ensures after.Owners(org) == t.Owners(org)
  {
  }

  /** The same rows in every organisation but one. */
  ghost predicate SameElsewhere(t: Tables, after: Tables, org: Id) {
    forall k: (Id, Id) :: k.0 != org ==> (k in t.members <==> k in after.members) && (k in t.members ==> t.members[k] == after.members[k])
  }

  lemma OwnedElsewhere(t: Tables, after: Tables, org: Id)
    requires Owned(t) && SameElsewhere(t, after, org) && after.orgs.Keys <= t.orgs.Keys + {org}
    requires org in after.orgs ==> after.Owners(org) != {}
    ensures Owned(after)
  {
    forall o | o in after.orgs ensures after.Owners(o) != {} {
      if o != org { OwnersElsewhere(t, after, o); }
    }
  }

  /* Each call keeps every organisation owned. */

  lemma CreateOrgOwned(t: Tables, org: Id, creator: Id, name: string)
    requires Owned(t) && CreateOrgOn(t, org, creator, name).Ok?
    ensures Owned(CreateOrgOn(t, org, creator, name).value)
  {
    var after := CreateOrgOn(t, org, creator, name).value;
    OwnerIn(after, org, creator);
    OwnedElsewhere(t, after, org);
  }

  lemma CutOrgOwned(t: Tables, org: Id)
    requires Owned(t)
    ensures Owned(CutOrg(t, org))
  {
    OwnedElsewhere(t, CutOrg(t, org), org);
  }

  lemma InsertMemberOwned(t: Tables, org: Id, user: Id, role: Role)
    requires Owned(t) && InsertMember(t, org, user, role).Ok?
    ensures Owned(InsertMember(t, org, user, role).value)
  {
    var after := InsertMember(t, org, user, role).value;
    var owner :| owner in t.Owners(org);
    OwnerIn(after, org, owner.1);
    OwnedElsewhere(t, after, org);
  }

  lemma ChangeRoleOwned(t: Tables, org: Id, actor: Id, user: Id, role: Role)
    requires Owned(t) && ChangeRoleOn(t, org, actor, user, role).Ok?
    ensures Owned(ChangeRoleOn(t, org, actor, user, role).value)
  {
    var after := UpdateRole(t, org, user, role);
    if role == OWNER {
      OwnerIn(after, org, user);
    } else if t.MemberRole(org, user) == Some(OWNER) {
      OneOwnerFewer(t, after, org, user);
    } else {
      OwnerIn(after, org, actor);
    }
    OwnedElsewhere(t, after, org);
  }

  lemma RemoveMemberOwned(t: Tables, org: Id, actor: Id, user: Id)
    requires Owned(t) && Sound(t) && RemoveMemberOn(t, org, actor, user).Ok?
    ensures Owned(RemoveMemberOn(t, org, actor, user).value)
  {
    var after := CutMember(t, org, user);
    if t.MemberRole(org, user) == Some(OWNER) {
      OneOwnerFewer(t, after, org, user);
    } else {
      assert (org, user) in t.members;
      var owner :| owner in t.Owners(org);
      OwnerIn(after, org, owner.1);
    }
    OwnedElsewhere(t, after, org);
  }

  lemma TransferOwned(t: Tables, org: Id, actor: Id, user: Id)
    requires Owned(t) && TransferOn(t, org, actor, user).Ok?
    ensures Owned(TransferOn(t, org, actor, user).value)
  {
    var after := TransferOn(t, org, actor, user).value;
    OwnerIn(after, org, user);
    OwnedElsewhere(t, after, org);
  }

  lemma SameMembersOwned(t: Tables, after: Tables)
    requires Owned(t) && after.members == t.members && after.orgs == t.orgs
    ensures Owned(after)
  {
    forall org | org in after.orgs ensures after.Owners(org) != {} { OwnersElsewhere(t, after, org); }
  }

  /** A transfer hands the role over: the same number of owners before, between its two updates never fewer, and
      after; nobody else's role changes. */
  lemma TransferHandsOver(t: Tables, org: Id, actor: Id, user: Id)
    requires TransferOn(t, org, actor, user).Ok?
    ensures var midway, after := UpdateRole(t, org, user, OWNER), TransferOn(t, org, actor, user).value;
      && t.MemberRole(org, actor) == Some(OWNER) && after.MemberRole(org, actor) == Some(ADMIN)
      && t.MemberRole(org, user).Some? && t.MemberRole(org, user).value != OWNER
      && after.MemberRole(org, user) == Some(OWNER)
      && midway.Owners(org) == t.Owners(org) + {(org, user)}
      && |midway.Owners(org)| == |t.Owners(org)| + 1
      && |after.Owners(org)| == |t.Owners(org)|
      && (forall k: (Id, Id) :: k != (org, actor) && k != (org, user) ==> (k in after.members <==> k in t.members))
      && (forall k :: k in t.members && k != (org, actor) && k != (org, user) ==> after.members[k] == t.members[k])
  {
    var midway := UpdateRole(t, org, user, OWNER);
    assert midway.Owners(org) == t.Owners(org) + {(org, user)};
    OneOwnerFewer(midway, UpdateRole(midway, org, actor, ADMIN), org, actor);
  }

  lemma CutOrgSound(t: Tables, org: Id)
    requires Sound(t)
    ensures Sound(CutOrg(t, org))
  {
  }

  lemma UpdateTaskSound(t: Tables, now: Time, id: Id, actor: Id, patch: Patch)
    requires Sound(t) && UpdateTaskOn(t, now, id, actor, patch).Ok?
    ensures Sound(UpdateTaskOn(t, now, id, actor, patch).value.0)
  {
    var after := UpdateTaskOn(t, now, id, actor, patch).value.0;
    assert SoundTask(t.projects, t.users, t.tasks[id]);
    assert SoundTask(t.projects, t.users, after.tasks[id]);
  }

  lemma OrgCallSound(t: Tables, c: OrgCall)
    requires Sound(t) && PerformOrg(t, c).Ok?
    ensures Sound(PerformOrg(t, c).value)
  {
    if c.DeleteOrg? { CutOrgSound(t, c.org); }
  }

  lemma OrgCallKeeps(t: Tables, c: OrgCall)
    requires Sound(t) && Owned(t) && PerformOrg(t, c).Ok?
    ensures Sound(PerformOrg(t, c).value) && Owned(PerformOrg(t, c).value)
  {
    OrgCallSound(t, c);
    hide Sound, Owned;
    match c
    case CreateOrg(org, actor, name) => CreateOrgOwned(t, org, actor, name);
    case DeleteOrg(org, actor) => CutOrgOwned(t, org);
    case AddMember(org, actor, user, role) => InsertMemberOwned(t, org, user, role);
    case ChangeRole(org, actor, user, role) => ChangeRoleOwned(t, org, actor, user, role);
    case RemoveMember(org, actor, user) => RemoveMemberOwned(t, org, actor, user);
    case Transfer(org, actor, user) => TransferOwned(t, org, actor, user);
  }

  /** Projects and tasks touch neither members nor organisations. */
  lemma WorkCallMembers(t: Tables, now: Time, c: WorkCall)
    requires PerformWork(t, now, c).Ok?
    ensures PerformWork(t, now, c).value.0.members == t.members && PerformWork(t, now, c).value.0.orgs == t.orgs
    ensures PerformWork(t, now, c).value.0.users == t.users
  {
  }

  lemma WorkCallSound(t: Tables, now: Time, c: WorkCall)
    requires Sound(t) && PerformWork(t, now, c).Ok?
    ensures Sound(PerformWork(t, now, c).value.0)
  {
    if c.UpdateTask? { UpdateTaskSound(t, now, c.task, c.actor, c.patch); }
  }

  lemma WorkCallKeeps(t: Tables, now: Time, c: WorkCall)
    requires Sound(t) && Owned(t) && PerformWork(t, now, c).Ok?
    ensures Sound(PerformWork(t, now, c).value.0) && Owned(PerformWork(t, now, c).value.0)
  {
    WorkCallSound(t, now, c);
    WorkCallMembers(t, now, c);
    SameMembersOwned(t, PerformWork(t, now, c).value.0);
    hide PerformWork, Sound, Owned;
  }

  /** Sessions and one-time tokens touch no table but users. */
  lemma AuthCallTables(t: Tables, store: Store, now: Time, c: AuthCall)
    requires PerformAuth(t, store, now, c).1.Ok?
    ensures var after := PerformAuth(t, store, now, c).1.value;
      && after == t.(users := after.users)
      && after.users.Keys == t.users.Keys + if c.Register? then {c.user} else {}
  {
  }

  lemma MoreUsersSound(t: Tables, after: Tables)
    requires Sound(t) && after == t.(users := after.users) && t.users.Keys <= after.users.Keys
    ensures Sound(after)
  {
  }

  lemma AuthCallKeeps(t: Tables, store: Store, now: Time, c: AuthCall)
    requires Sound(t) && Owned(t) && PerformAuth(t, store, now, c).1.Ok?
    ensures Sound(PerformAuth(t, store, now, c).1.value) && Owned(PerformAuth(t, store, now, c).1.value)
  {
    hide PerformAuth, Sound, Owned;
    AuthCallTables(t, store, now, c);
    MoreUsersSound(t, PerformAuth(t, store, now, c).1.value);
    SameMembersOwned(t, PerformAuth(t, store, now, c).1.value);
  }

  /** Every stored invite grants an allowed role. */
  ghost predicate RolesAllowed(store: Store) {
    forall h :: InviteKey(h) in store && store[InviteKey(h)].Record? && store[InviteKey(h)].value.InviteJson? ==>
      store[InviteKey(h)].value.role in ALLOWED_ROLES
  }

  lemma InviteCallKeeps(t: Tables, store: Store, now: Time, c: InviteCall)
    requires Sound(t) && Owned(t) && RolesAllowed(store) && PerformInvite(t, store, now, c).1.Ok?
    ensures Sound(PerformInvite(t, store, now, c).1.value) && Owned(PerformInvite(t, store, now, c).1.value)
  {
    if c.Join? {
      var InviteJson(org, role, _, _) := GetJson(store, now, InviteKey(c.hash)).value;
      InsertMemberOwned(t, org, c.actor, role);
    }
  }
}
