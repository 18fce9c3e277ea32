/** Assignments and the events they put in the outbox. */
module Assignments {
  import opened Prelude
  import opened Tables
  import opened Calls
  import opened Integrity
  import opened StoreIntegrity
  import Outbox

  /** The committed values of a task's assignee, one after each call while the task exists. */
  function History(s: State, calls: seq<Call>, n: nat, task: Id): seq<Option<Id>>
    requires n <= |calls|
  {
    if n == 0 then []
    else
      var tasks := At(s, calls, n).tables.tasks;
      History(s, calls, n - 1, task) + if task in tasks then [tasks[task].assignedTo] else []
  }

  /** The places where the value is set and differs from the one before. */
  function Changes(history: seq<Option<Id>>): seq<Id> {
    if |history| <= 1 then []
    else
      var last := |history| - 1;
      Changes(history[..last]) + if history[last].Some? && history[last] != history[last - 1] then [history[last].value] else []
  }

  /** The events of a run, in commit order. */
  function Events(s: State, calls: seq<Call>, n: nat): seq<Outbox.Event>
    requires n <= |calls|
  {
    if n == 0 then [] else Events(s, calls, n - 1) + Reply(s, calls, n - 1).events
  }

  /** Whom the events naming a task are for. */
  function Targets(events: seq<Outbox.Event>, task: Id): seq<Outbox.Assignee> {
    if events == [] then []
    else
      var last := |events| - 1;
      Targets(events[..last], task) + if events[last].task == Some(task) then [events[last].assignedTo] else []
  }

  function Assignees(ids: seq<Id>): seq<Outbox.Assignee> {
    seq(|ids|, i requires 0 <= i < |ids| => Outbox.Assigned(ids[i]))
  }

  lemma {:induction false} TargetsConcat(a: seq<Outbox.Event>, b: seq<Outbox.Event>, task: Id)
    ensures Targets(a + b, task) == Targets(a, task) + Targets(b, task)
  {
    if b == [] {
      assert a + b == a;
    } else {
      assert (a + b)[..|a + b| - 1] == a + b[..|b| - 1];
      TargetsConcat(a, b[..|b| - 1], task);
    }
  }

  function AssigneeOf(t: Tables, task: Id): Option<Option<Id>> {
    if task in t.tasks then Some(t.tasks[task].assignedTo) else None
  }

  lemma UpdateTaskEvents(t: Tables, now: Time, id: Id, actor: Id, patch: Patch)
    requires UpdateTaskOn(t, now, id, actor, patch).Ok?
    ensures var (after, events) := UpdateTaskOn(t, now, id, actor, patch).value;
      && id in t.tasks && id in after.tasks
      && (forall k :: k != id ==> AssigneeOf(after, k) == AssigneeOf(t, k))
      && (if after.tasks[id].assignedTo.Some? && after.tasks[id].assignedTo != t.tasks[id].assignedTo
          then |events| == 1 && events[0].task == Some(id) && events[0].assignedTo == Outbox.Assigned(after.tasks[id].assignedTo.value)
          else events == [])
  {
  }

  lemma WorkCallEvents(t: Tables, now: Time, c: WorkCall, task: Id)
    requires PerformWork(t, now, c).Ok?
    requires c.CreateTask? && c.task == task ==> task !in t.tasks
    ensures var (after, events) := PerformWork(t, now, c).value;
      && (events != [] ==> c.UpdateTask? && |events| == 1)
      && (task in after.tasks && task !in t.tasks ==> c.CreateTask? && c.task == task && after.tasks[task].assignedTo.None?)
      && (!c.UpdateTask? && task in t.tasks && task in after.tasks ==> after.tasks[task] == t.tasks[task])
  {
  }

  /** A task starts unassigned under a new identifier, and the events for it tell each change to a new assignee. */
  ghost predicate Tells(before: Option<Option<Id>>, after: Option<Option<Id>>, targets: seq<Outbox.Assignee>, isNew: bool) {
    && (before.None? && after.Some? ==> after.value.None? && isNew)
    && targets == if before.Some? && after.Some? && after.value.Some? && after != before then [Outbox.Assigned(after.value.value)] else []
  }

  lemma OneTarget(events: seq<Outbox.Event>, task: Id)
    requires |events| == 1
    ensures Targets(events, task) == if events[0].task == Some(task) then [events[0].assignedTo] else []
  {
    assert events[..0] == [];
  }

  lemma WorkTells(t: Tables, now: Time, c: WorkCall, task: Id)
    requires PerformWork(t, now, c).Ok?
    requires c.CreateTask? && c.task == task ==> task !in t.tasks
    ensures var (after, events) := PerformWork(t, now, c).value;
      Tells(AssigneeOf(t, task), AssigneeOf(after, task), Targets(events, task), c.CreateTask? && c.task == task)
  {
    WorkCallEvents(t, now, c, task);
    if c.UpdateTask? {
      UpdateTaskEvents(t, now, c.task, c.actor, c.patch);
      var events := UpdateTaskOn(t, now, c.task, c.actor, c.patch).value.1;
      if events != [] { OneTarget(events, task); }
      hide UpdateTaskOn;
    }
  }

  lemma NewTaskIsNew(s: State, c: WorkCall)
    requires Inv(s) && Enabled(s, OnWork(c))
    ensures c.CreateTask? ==> c.task !in s.issued && c.task !in s.tables.tasks
  {
  }

  /** Organisation calls only ever remove tasks. */
  lemma OrgCallTasks(t: Tables, c: OrgCall, task: Id)
    requires PerformOrg(t, c).Ok? && task in PerformOrg(t, c).value.tasks
    ensures task in t.tasks && PerformOrg(t, c).value.tasks[task] == t.tasks[task]
  {
  }

  /** What one call does to a task's assignee, and the events it commits for the task. */
  lemma AssignmentStep(s: State, c: Call, task: Id)
    requires Inv(s) && Enabled(s, c)
    ensures var a := Apply(s, c);
      Tells(AssigneeOf(s.tables, task), AssigneeOf(a.state.tables, task), Targets(a.events, task), task !in s.issued)
  {
    hide PerformInvite, PerformAuth, PerformWork, PerformOrg, Inv;
    match c
    case Tick(_) =>
    case OnOrg(o) =>
      if PerformOrg(s.tables, o).Ok? && task in PerformOrg(s.tables, o).value.tasks { OrgCallTasks(s.tables, o, task); }
    case OnInvite(i) =>
      if PerformInvite(s.tables, s.store, s.clock, i).1.Ok? { InviteCallTables(s.tables, s.store, s.clock, i); }
    case OnAuth(a) =>
      if PerformAuth(s.tables, s.store, s.clock, a).1.Ok? { AuthCallTables(s.tables, s.store, s.clock, a); }
    case OnWork(w) =>
      if PerformWork(s.tables, s.clock, w).Ok? { NewTaskIsNew(s, w); WorkTells(s.tables, s.clock, w, task); }
  }

  /** For every task and run, the events naming the task match one for one, in order, the places in its committed
      assignee history where the value is set and differs from the one before. */
  lemma {:induction false} EventsAreChanges(now: Time, calls: seq<Call>, n: nat, task: Id)
    requires Valid(Start(now), calls) && n <= |calls|
    ensures Matches(At(Start(now), calls, n), Events(Start(now), calls, n), History(Start(now), calls, n, task), task)
  {
    hide Apply, Inv, Enabled, Matches;
    if n == 0 {
      NothingYet(now, task);
    } else {
      EventsAreChanges(now, calls, n - 1, task);
      Reachable(now, calls, n - 1);
      Reachable(now, calls, n);
      var s, c := At(Start(now), calls, n - 1), calls[n - 1];
      assert Enabled(s, c);
      AssignmentStep(s, c, task);
      IssuedKept(s, c);
      if task in Apply(s, c).state.tables.tasks { TaskIssued(Apply(s, c).state, task); }
      ExtendHistory(s, Apply(s, c), task, Events(Start(now), calls, n - 1), History(Start(now), calls, n - 1, task));
    }
  }

  ghost predicate Matches(s: State, events: seq<Outbox.Event>, history: seq<Option<Id>>, task: Id) {
    && Targets(events, task) == Assignees(Changes(history))
    && (history != [] ==> task in s.issued)
    && (task in s.tables.tasks ==> history != [] && history[|history| - 1] == s.tables.tasks[task].assignedTo)
  }

  lemma NothingYet(now: Time, task: Id)
    ensures Matches(Start(now), [], [], task)
  {
  }

  lemma IssuedKept(s: State, c: Call)
    ensures s.issued <= Apply(s, c).state.issued
  {
    hide PerformAuth, PerformInvite, PerformOrg, PerformWork;
  }

  lemma TaskIssued(s: State, task: Id)
    requires Inv(s) && task in s.tables.tasks
    ensures task in s.issued
  {
  }

  lemma ExtendHistory(s: State, a: Answer, task: Id, events: seq<Outbox.Event>, history: seq<Option<Id>>)
    requires Tells(AssigneeOf(s.tables, task), AssigneeOf(a.state.tables, task), Targets(a.events, task), task !in s.issued)
    requires Matches(s, events, history, task) && s.issued <= a.state.issued
    requires task in a.state.tables.tasks ==> task in a.state.issued
    ensures Matches(a.state, events + a.events, history + if task in a.state.tables.tasks then [a.state.tables.tasks[task].assignedTo] else [], task)
  {
    TargetsConcat(events, a.events, task);
    hide Targets;
    if task in a.state.tables.tasks {
      var longer := history + [a.state.tables.tasks[task].assignedTo];
      assert longer[..|longer| - 1] == history;
      if history != [] && task !in s.tables.tasks {
        assert false;
      }
    } else {
      assert history + [] == history;
    }
  }

  /* ---------------- Who may be assigned ---------------- */

  /** Call i assigned the task to the user, on the request of a manager, when the user was a member. */
  ghost predicate AssignedBy(s: State, calls: seq<Call>, i: nat, task: Id, user: Id)
    requires i < |calls|
  {
    && calls[i].OnWork? && calls[i].w.UpdateTask? && calls[i].w.task == task
    && calls[i].w.patch.assignedTo == Some(Some(user))
    && Reply(s, calls, i).status == 200
    && var t := At(s, calls, i).tables;
       && task in t.tasks
       && t.MemberRole(t.tasks[task].org, user).Some?
       && t.MemberRole(t.tasks[task].org, calls[i].w.actor).Some?
       && t.MemberRole(t.tasks[task].org, calls[i].w.actor).value in MANAGERS
  }

  lemma NewAssigneeByWork(t: Tables, now: Time, c: WorkCall, task: Id, user: Id)
    requires PerformWork(t, now, c).Ok?
    requires AssigneeOf(PerformWork(t, now, c).value.0, task) == Some(Some(user)) && AssigneeOf(t, task) != Some(Some(user))
    ensures c.UpdateTask? && c.task == task && c.patch.assignedTo == Some(Some(user)) && task in t.tasks
    ensures var org := t.tasks[task].org;
      && t.MemberRole(org, user).Some?
      && t.MemberRole(org, c.actor).Some? && t.MemberRole(org, c.actor).value in MANAGERS
  {
  }

  lemma NewAssignee(s: State, c: Call, task: Id, user: Id)
    requires AssigneeOf(Apply(s, c).state.tables, task) == Some(Some(user)) && AssigneeOf(s.tables, task) != Some(Some(user))
    ensures c.OnWork? && c.w.UpdateTask? && c.w.task == task && c.w.patch.assignedTo == Some(Some(user))
    ensures Apply(s, c).status == 200 && task in s.tables.tasks
    ensures var org := s.tables.tasks[task].org;
      && s.tables.MemberRole(org, user).Some?
      && s.tables.MemberRole(org, c.w.actor).Some? && s.tables.MemberRole(org, c.w.actor).value in MANAGERS
  {
    hide PerformInvite, PerformAuth, PerformWork, PerformOrg;
    match c
    case OnAuth(a) =>
      if PerformAuth(s.tables, s.store, s.clock, a).1.Ok? { AuthCallTables(s.tables, s.store, s.clock, a); }
    case OnInvite(i) =>
      if PerformInvite(s.tables, s.store, s.clock, i).1.Ok? { InviteCallTables(s.tables, s.store, s.clock, i); }
    case OnOrg(o) => if PerformOrg(s.tables, o).Ok? { OrgCallTasks(s.tables, o, task); }
    case OnWork(w) => NewAssigneeByWork(s.tables, s.clock, w, task, user);
    case Tick(_) =>
  }

  /** Every assignee was a member of the task's organisation when assigned, in the call since which the task has been
      theirs, though perhaps not any more. */
  lemma {:induction false} AssigneeWasMember(now: Time, calls: seq<Call>, n: nat, task: Id, user: Id) returns (i: nat)
    requires n <= |calls| && AssigneeOf(At(Start(now), calls, n).tables, task) == Some(Some(user))
    ensures i < n && AssignedBy(Start(now), calls, i, task, user)
    ensures forall k :: i < k <= n ==> AssigneeOf(At(Start(now), calls, k).tables, task) == Some(Some(user))
  {
    assert n > 0;
    var s, c := At(Start(now), calls, n - 1), calls[n - 1];
    if AssigneeOf(s.tables, task) == Some(Some(user)) {
      i := AssigneeWasMember(now, calls, n - 1, task, user);
    } else {
      i := n - 1;
      NewAssignee(s, c, task, user);
    }
    hide Apply;
  }
}
