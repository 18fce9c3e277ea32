/** Whether every assignee is still a member: not an invariant, and exactly how it is broken. */
module Assignees {
  import opened Prelude
  import opened Tables
  import opened Calls
  import opened Integrity
  import opened StoreIntegrity
  import Redis

  /** A task assigned to somebody who is not a member of its organisation. */
  predicate Stranded(t: Tables, task: Id) {
    && task in t.tasks && t.tasks[task].assignedTo.Some?
    && t.MemberRole(t.tasks[task].org, t.tasks[task].assignedTo.value).None?
  }

  ghost predicate AssigneesAreMembers(t: Tables) {
    forall task :: !Stranded(t, task)
  }

  predicate AssignedIn(t: Tables, task: Id, org: Id, user: Id) {
    task in t.tasks && t.tasks[task].org == org && t.tasks[task].assignedTo == Some(user)
  }

  /** The call removes a member who still has a task of the organisation. */
  ghost predicate RemovesAnAssignee(s: State, c: Call) {
    && c.OnOrg? && c.o.RemoveMember? && Apply(s, c).status == 200
    && exists task :: AssignedIn(s.tables, task, c.o.org, c.o.user)
  }

  lemma RemovalStrands(t: Tables, org: Id, user: Id)
    requires AssigneesAreMembers(t)
    ensures !AssigneesAreMembers(CutMember(t, org, user)) <==> exists task :: AssignedIn(t, task, org, user)
  {
    var after := CutMember(t, org, user);
    forall task ensures Stranded(after, task) <==> AssignedIn(t, task, org, user) && (org, user) in t.members {
      assert !Stranded(t, task);
    }
    forall task | AssignedIn(t, task, org, user) ensures Stranded(after, task) {
      assert !Stranded(t, task);
    }
  }

  /** A call that takes no membership away, except with the organisation, strands nobody. */
  lemma OrgCallStrands(t: Tables, c: OrgCall)
    requires Sound(t) && AssigneesAreMembers(t) && PerformOrg(t, c).Ok? && !c.RemoveMember?
    ensures AssigneesAreMembers(PerformOrg(t, c).value)
  {
    forall task ensures !Stranded(PerformOrg(t, c).value, task) {
      assert !Stranded(t, task);
    }
  }

  lemma WorkCallStrands(t: Tables, now: Time, c: WorkCall)
    requires AssigneesAreMembers(t) && PerformWork(t, now, c).Ok?
    ensures AssigneesAreMembers(PerformWork(t, now, c).value.0)
  {
    forall task ensures !Stranded(PerformWork(t, now, c).value.0, task) {
      assert !Stranded(t, task);
    }
  }

  lemma InviteCallStrands(t: Tables, store: Redis.Store, now: Time, c: InviteCall)
    requires AssigneesAreMembers(t) && PerformInvite(t, store, now, c).1.Ok?
    ensures AssigneesAreMembers(PerformInvite(t, store, now, c).1.value)
  {
    forall task ensures !Stranded(PerformInvite(t, store, now, c).1.value, task) {
      assert !Stranded(t, task);
    }
  }

  lemma SameTasksSameMembers(t: Tables, after: Tables)
    requires AssigneesAreMembers(t) && after.tasks == t.tasks && after.members == t.members
    ensures AssigneesAreMembers(after)
  {
    forall task ensures !Stranded(after, task) {
      assert !Stranded(t, task);
    }
  }

  /** From a reachable state where every assignee is a member, a call breaks that if and only if it is a successful
      removal of a member to whom a task of the organisation is assigned. */
  lemma OnlyRemovalStrands(s: State, c: Call)
    requires Inv(s) && AssigneesAreMembers(s.tables)
    ensures !AssigneesAreMembers(Apply(s, c).state.tables) <==> RemovesAnAssignee(s, c)
  {
    hide PerformOrg, PerformInvite, PerformWork, PerformAuth, AssigneesAreMembers, Stranded, AssignedIn, Inv;
    assert Sound(s.tables) by { InvIsSound(s); }
    match c
    case OnOrg(o) =>
      if o.RemoveMember? {
        RemovalIsCut(s.tables, o);
        RemovalStrands(s.tables, o.org, o.user);
      } else if PerformOrg(s.tables, o).Ok? {
        OrgCallStrands(s.tables, o);
      }
    case OnInvite(i) =>
      if PerformInvite(s.tables, s.store, s.clock, i).1.Ok? { InviteCallStrands(s.tables, s.store, s.clock, i); }
    case OnWork(w) => if PerformWork(s.tables, s.clock, w).Ok? { WorkCallStrands(s.tables, s.clock, w); }
    case OnAuth(a) =>
      if PerformAuth(s.tables, s.store, s.clock, a).1.Ok? {
        AuthCallTables(s.tables, s.store, s.clock, a);
        SameTasksSameMembers(s.tables, PerformAuth(s.tables, s.store, s.clock, a).1.value);
      }
    case Tick(_) =>
  }

  lemma InvIsSound(s: State)
    requires Inv(s)
    ensures Sound(s.tables)
  {
  }

  lemma RemovalIsCut(t: Tables, c: OrgCall)
    requires c.RemoveMember?
    ensures PerformOrg(t, c).Ok? ==> PerformOrg(t, c).value == CutMember(t, c.org, c.user)
    ensures PerformOrg(t, c).Err? ==> PerformOrg(t, c).status != 200
  {
  }
}
