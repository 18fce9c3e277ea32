/** The services and the dispatchers together: from an assignment to its notification. */
module EndToEnd {
  import opened Prelude
  import opened Tables
  import opened Outbox
  import opened Serial
  import Calls
  import Assignments
  import Integrity
  import StoreIntegrity
  import W = Workers

  /** The system moves by a service call or by a step of a dispatcher; anybody may enqueue any row at any time. */
  datatype Move = Service(call: Calls.Call) | Dispatch(step: W.Step)

  /** What a service call means to the dispatchers' side: its clock, its users, and the row it inserts in its own
      transaction. */
  function Effects(s: Calls.State, c: Calls.Call): seq<W.Step> {
    var a := Calls.Apply(s, c);
    match c
    case Tick(seconds) => [W.Tick(seconds)]
    case OnAuth(auth) => if auth.Register? && a.status == 200 then [W.Register(auth.user)] else []
    case OnWork(_) => if a.events == [] then [] else [W.Enqueue(TaskAssigned, Object(a.events[0]))]
    case _ => []
  }

  function CallsOf(moves: seq<Move>): seq<Calls.Call> {
    if moves == [] then []
    else
      var last := moves[|moves| - 1];
      CallsOf(moves[..|moves| - 1]) + if last.Service? then [last.call] else []
  }

  function StateOf(now: Time, moves: seq<Move>): Calls.State {
    Calls.At(Calls.Start(now), CallsOf(moves), |CallsOf(moves)|)
  }

  function StepsOf(now: Time, moves: seq<Move>): seq<W.Step> {
    if moves == [] then []
    else
      var before, last := moves[..|moves| - 1], moves[|moves| - 1];
      StepsOf(now, before) + match last
                             case Service(call) => Effects(StateOf(now, before), call)
                             case Dispatch(step) => [step]
  }

  ghost predicate Valid(now: Time, moves: seq<Move>)
    decreases |moves|
  {
    moves != [] ==>
      && Valid(now, moves[..|moves| - 1])
      && W.Valid(W.Start(now), StepsOf(now, moves))
      && match moves[|moves| - 1]
         case Service(call) => Calls.Enabled(StateOf(now, moves[..|moves| - 1]), call)
         case Dispatch(step) => !step.Tick? && !step.Register?
  }

  /** The outbox as the dispatchers see it. */
  ghost function SysOf(now: Time, moves: seq<Move>): W.Sys
    requires W.Valid(W.Start(now), StepsOf(now, moves))
  {
    W.Run(W.Start(now), StepsOf(now, moves))
  }

  /** The rows the services inserted for a task, in order. */
  ghost function TaskRows(now: Time, moves: seq<Move>, task: Id): seq<RowId>
    requires Valid(now, moves)
  {
    if moves == [] then []
    else
      var before, last := moves[..|moves| - 1], moves[|moves| - 1];
      ValidOutbox(now, before);
      TaskRows(now, before, task)
        + if last.Service? && Names(StateOf(now, before), last.call, task) then [|SysOf(now, before).db.rows|] else []
  }

  predicate Names(s: Calls.State, c: Calls.Call, task: Id) {
    var events := Calls.Apply(s, c).events;
    events != [] && events[0].task == Some(task)
  }

  lemma ValidOutbox(now: Time, moves: seq<Move>)
    requires Valid(now, moves)
    ensures W.Valid(W.Start(now), StepsOf(now, moves))
  {
  }

  /** The calls of a valid run form a valid run of calls. */
  lemma {:induction false} ValidCalls(now: Time, moves: seq<Move>)
    requires Valid(now, moves)
    ensures Calls.Valid(Calls.Start(now), CallsOf(moves))
  {
    if moves != [] {
      var before, last := moves[..|moves| - 1], moves[|moves| - 1];
      ValidCalls(now, before);
      if last.Service? {
        Calls.Snoc(Calls.Start(now), CallsOf(before), last.call);
      } else {
        assert CallsOf(moves) == CallsOf(before);
      }
    }
  }

  /* ---------------- Both sides agree ---------------- */

  lemma OrgCallUsers(t: Tables, c: Calls.OrgCall)
    requires Calls.PerformOrg(t, c).Ok?
    ensures Calls.PerformOrg(t, c).value.users == t.users
  {
  }

  lemma CallUsers(s: Calls.State, c: Calls.Call)
    ensures var a := Calls.Apply(s, c);
      && a.state.clock == s.clock + (if c.Tick? then c.seconds else 0)
      && a.state.tables.users.Keys == s.tables.users.Keys + if c.OnAuth? && c.a.Register? && a.status == 200 then {c.a.user} else {}
  {
    match c
    case OnAuth(auth) =>
      if Calls.PerformAuth(s.tables, s.store, s.clock, auth).1.Ok? { Integrity.AuthCallTables(s.tables, s.store, s.clock, auth); }
      hide Calls.PerformAuth;
    case OnOrg(o) =>
      if Calls.PerformOrg(s.tables, o).Ok? { OrgCallUsers(s.tables, o); }
      hide Calls.PerformOrg;
    case OnInvite(i) =>
      if Calls.PerformInvite(s.tables, s.store, s.clock, i).1.Ok? { StoreIntegrity.InviteCallTables(s.tables, s.store, s.clock, i); }
      hide Calls.PerformInvite;
    case OnWork(w) =>
      if Calls.PerformWork(s.tables, s.clock, w).Ok? { Integrity.WorkCallMembers(s.tables, s.clock, w); }
      hide Calls.PerformWork;
    case _ =>
  }

  lemma StateStep(now: Time, moves: seq<Move>, call: Calls.Call)
    requires Valid(now, moves + [Service(call)])
    ensures Valid(now, moves) && Calls.Enabled(StateOf(now, moves), call)
    ensures StateOf(now, moves + [Service(call)]) == Calls.Apply(StateOf(now, moves), call).state
    ensures W.Valid(W.Start(now), StepsOf(now, moves + [Service(call)]))
    ensures StepsOf(now, moves + [Service(call)]) == StepsOf(now, moves) + Effects(StateOf(now, moves), call)
  {
    hide Calls.Apply, Effects, W.Valid, Calls.Enabled;
    var longer := moves + [Service(call)];
    assert longer[..|longer| - 1] == moves;
    ValidCalls(now, moves);
    Calls.Snoc(Calls.Start(now), CallsOf(moves), call);
  }

  lemma EffectsStep(now: Time, moves: seq<Move>, call: Calls.Call)
    requires Valid(now, moves + [Service(call)])
    ensures Valid(now, moves)
    ensures StateOf(now, moves + [Service(call)]) == Calls.Apply(StateOf(now, moves), call).state
    ensures var steps := Effects(StateOf(now, moves), call);
      if steps == [] then SysOf(now, moves + [Service(call)]) == SysOf(now, moves)
      else W.Enabled(SysOf(now, moves), steps[0]) && SysOf(now, moves + [Service(call)]) == W.Next(SysOf(now, moves), steps[0])
  {
    hide Calls.Apply, Effects, W.Next, W.Enabled, Valid, StateOf, StepsOf;
    StateStep(now, moves, call);
    ValidOutbox(now, moves);
    var steps := Effects(StateOf(now, moves), call);
    AtMostOneEffect(StateOf(now, moves), call);
    var all := StepsOf(now, moves + [Service(call)]);
    if steps == [] {
      assert all == StepsOf(now, moves);
    } else {
      assert all == StepsOf(now, moves) + [steps[0]];
      assert all[..|all| - 1] == StepsOf(now, moves);
    }
  }

  lemma AtMostOneEffect(s: Calls.State, c: Calls.Call)
    ensures |Effects(s, c)| <= 1
  {
  }

  lemma DispatchStep(now: Time, moves: seq<Move>, step: W.Step)
    requires Valid(now, moves + [Dispatch(step)])
    ensures Valid(now, moves) && !step.Tick? && !step.Register?
    ensures StateOf(now, moves + [Dispatch(step)]) == StateOf(now, moves)
    ensures CallsOf(moves + [Dispatch(step)]) == CallsOf(moves)
    ensures W.Enabled(SysOf(now, moves), step) && SysOf(now, moves + [Dispatch(step)]) == W.Next(SysOf(now, moves), step)
  {
    var longer := moves + [Dispatch(step)];
    assert longer[..|longer| - 1] == moves;
    hide Calls.Apply, Effects, W.Next;
    var all := StepsOf(now, longer);
    assert all == StepsOf(now, moves) + [step];
    assert all[..|all| - 1] == StepsOf(now, moves);
    assert CallsOf(longer) == CallsOf(moves);
  }

  ghost predicate InSync(s: Calls.State, d: W.Sys) {
    d.clock == s.clock && d.users == s.tables.users.Keys
  }

  lemma SyncStep(s: Calls.State, d: W.Sys, c: Calls.Call)
    requires InSync(s, d)
    requires Effects(s, c) != [] ==> W.Enabled(d, Effects(s, c)[0])
    ensures InSync(Calls.Apply(s, c).state, if Effects(s, c) == [] then d else W.Next(d, Effects(s, c)[0]))
  {
    CallUsers(s, c);
    hide Calls.Apply;
  }

  /** The two sides share their clock and their users. */
  lemma {:induction false} Synchronised(now: Time, moves: seq<Move>)
    requires Valid(now, moves)
    ensures InSync(StateOf(now, moves), SysOf(now, moves))
  {
    hide Calls.Apply, Effects;
    if moves != [] {
      var before, last := moves[..|moves| - 1], moves[|moves| - 1];
      assert moves == before + [last];
      Synchronised(now, before);
      if last.Service? {
        EffectsStep(now, before, last.call);
        SyncStep(StateOf(now, before), SysOf(now, before), last.call);
      } else {
        DispatchStep(now, before, last.step);
      }
    }
  }

  /* ---------------- The rows of a task ---------------- */

  /** Row `id` announces the assignment of the task to a registered user. */
  ghost predicate Carries(d: W.Sys, id: RowId, task: Id, target: Assignee) {
    && id < |d.db.rows|
    && d.db.rows[id].eventType == TaskAssigned
    && d.db.rows[id].payload.Object?
    && d.db.rows[id].payload.event.task == Some(task)
    && d.db.rows[id].payload.event.assignedTo == target
    && target.Assigned? && target.user in d.users
  }

  lemma StillCarries(d: W.Sys, step: W.Step, id: RowId, task: Id, target: Assignee)
    requires W.Inv(d) && W.Enabled(d, step) && Carries(d, id, task, target)
    ensures Carries(W.Next(d, step), id, task, target)
  {
    W.TextKept(d, step, id);
  }

  /** A call that commits an event for a task assigns it to a registered user and inserts one row. */
  lemma NewRowCarries(s: Calls.State, d: W.Sys, c: Calls.Call, task: Id)
    requires StoreIntegrity.Inv(s) && Calls.Enabled(s, c) && InSync(s, d) && Names(s, c, task)
    ensures Effects(s, c) == [W.Enqueue(TaskAssigned, Object(Calls.Apply(s, c).events[0]))]
    ensures var target := Calls.Apply(s, c).events[0].assignedTo;
      && Assignments.Targets(Calls.Apply(s, c).events, task) == [target]
      && Carries(W.Next(d, Effects(s, c)[0]), |d.db.rows|, task, target)
  {
    assert c.OnWork?;
    EventForRegistered(s, c.w, task);
    Assignments.OneTarget(Calls.Apply(s, c).events, task);
  }

  lemma EventForRegistered(s: Calls.State, c: Calls.WorkCall, task: Id)
    requires StoreIntegrity.Inv(s) && Names(s, Calls.OnWork(c), task)
    ensures var events := Calls.Apply(s, Calls.OnWork(c)).events;
      && |events| == 1 && events[0].assignedTo.Assigned? && events[0].assignedTo.user in s.tables.users
  {
    assert c.UpdateTask?;
    Integrity.UpdateTaskSound(s.tables, s.clock, c.task, c.actor, c.patch);
    var after := Calls.UpdateTaskOn(s.tables, s.clock, c.task, c.actor, c.patch).value.0;
    assert Integrity.SoundTask(after.projects, after.users, after.tasks[c.task]);
  }

  lemma NoRowNoTarget(s: Calls.State, c: Calls.Call, task: Id)
    requires !Names(s, c, task)
    ensures Assignments.Targets(Calls.Apply(s, c).events, task) == []
  {
    if Calls.Apply(s, c).events != [] {
      assert c.OnWork? && c.w.UpdateTask?;
      Assignments.OneTarget(Calls.Apply(s, c).events, task);
    }
  }

  ghost predicate RowsMatch(d: W.Sys, ids: seq<RowId>, targets: seq<Assignee>, task: Id) {
    && |ids| == |targets|
    && (forall k :: 0 <= k < |ids| ==> Carries(d, ids[k], task, targets[k]))
    && (forall j, k :: 0 <= j < k < |ids| ==> ids[j] < ids[k])
  }

  lemma StillMatch(d: W.Sys, step: W.Step, ids: seq<RowId>, targets: seq<Assignee>, task: Id)
    requires W.Inv(d) && W.Enabled(d, step) && RowsMatch(d, ids, targets, task)
    ensures RowsMatch(W.Next(d, step), ids, targets, task)
  {
    hide W.Inv, W.Enabled, W.Next, Carries;
    forall k | 0 <= k < |ids| ensures Carries(W.Next(d, step), ids[k], task, targets[k]) {
      StillCarries(d, step, ids[k], task, targets[k]);
    }
  }

  lemma OneMoreMatch(d: W.Sys, step: W.Step, ids: seq<RowId>, targets: seq<Assignee>, task: Id, target: Assignee)
    requires W.Enabled(d, step)
    requires RowsMatch(d, ids, targets, task) && RowsMatch(W.Next(d, step), ids, targets, task)
    requires Carries(W.Next(d, step), |d.db.rows|, task, target)
    ensures RowsMatch(W.Next(d, step), ids + [|d.db.rows|], targets + [target], task)
  {
    hide W.Enabled, W.Next;
    assert forall k :: 0 <= k < |ids| ==> Carries(d, ids[k], task, targets[k]);
  }

  lemma {:induction false} EventsPrefix(s: Calls.State, calls: seq<Calls.Call>, c: Calls.Call, n: nat)
    requires n <= |calls|
    ensures Assignments.Events(s, calls + [c], n) == Assignments.Events(s, calls, n)
  {
    hide Calls.Apply;
    if n > 0 {
      Calls.AtPrefix(s, calls, c, n - 1);
      EventsPrefix(s, calls, c, n - 1);
    }
  }

  lemma EventsSnoc(s: Calls.State, calls: seq<Calls.Call>, c: Calls.Call)
    ensures Assignments.Events(s, calls + [c], |calls| + 1)
         == Assignments.Events(s, calls, |calls|) + Calls.Apply(Calls.At(s, calls, |calls|), c).events
  {
    hide Calls.Apply;
    EventsPrefix(s, calls, c, |calls|);
    Calls.AtPrefix(s, calls, c, |calls|);
  }

  function EventsOf(now: Time, moves: seq<Move>): seq<Event> {
    Assignments.Events(Calls.Start(now), CallsOf(moves), |CallsOf(moves)|)
  }

  lemma SysInv(now: Time, moves: seq<Move>)
    requires Valid(now, moves)
    ensures W.Inv(SysOf(now, moves))
  {
    W.RunInv(now, StepsOf(now, moves));
  }

  lemma StateInv(now: Time, moves: seq<Move>)
    requires Valid(now, moves)
    ensures StoreIntegrity.Inv(StateOf(now, moves))
  {
    ValidCalls(now, moves);
    StoreIntegrity.Reachable(now, CallsOf(moves), |CallsOf(moves)|);
  }

  ghost predicate Matched(now: Time, moves: seq<Move>, task: Id)
    requires Valid(now, moves)
  {
    RowsMatch(SysOf(now, moves), TaskRows(now, moves, task), Assignments.Targets(EventsOf(now, moves), task), task)
  }

  ghost function After(d: W.Sys, steps: seq<W.Step>): W.Sys
    requires steps != [] ==> W.Enabled(d, steps[0])
  {
    if steps == [] then d else W.Next(d, steps[0])
  }

  lemma CallMatch(s: Calls.State, d: W.Sys, c: Calls.Call, ids: seq<RowId>, targets: seq<Assignee>, task: Id)
    requires StoreIntegrity.Inv(s) && W.Inv(d) && InSync(s, d) && Calls.Enabled(s, c)
    requires RowsMatch(d, ids, targets, task)
    requires Effects(s, c) != [] ==> W.Enabled(d, Effects(s, c)[0])
    ensures RowsMatch(After(d, Effects(s, c)), ids + if Names(s, c, task) then [|d.db.rows|] else [],
                      targets + Assignments.Targets(Calls.Apply(s, c).events, task), task)
  {
    hide Calls.Apply, Effects, W.Next, W.Inv, W.Enabled, StoreIntegrity.Inv, RowsMatch, Carries, InSync, Names, Calls.Enabled;
    var steps := Effects(s, c);
    if steps != [] {
      StillMatch(d, steps[0], ids, targets, task);
    }
    if Names(s, c, task) {
      NewRowCarries(s, d, c, task);
      OneMoreMatch(d, steps[0], ids, targets, task, Calls.Apply(s, c).events[0].assignedTo);
    } else {
      NoRowNoTarget(s, c, task);
      assert targets + [] == targets && ids + [] == ids;
    }
  }

  lemma TargetsStep(now: Time, moves: seq<Move>, c: Calls.Call, task: Id)
    ensures Assignments.Targets(EventsOf(now, moves + [Service(c)]), task)
         == Assignments.Targets(EventsOf(now, moves), task) + Assignments.Targets(Calls.Apply(StateOf(now, moves), c).events, task)
  {
    hide Calls.Apply;
    var longer := moves + [Service(c)];
    assert longer[..|longer| - 1] == moves;
    EventsSnoc(Calls.Start(now), CallsOf(moves), c);
    Assignments.TargetsConcat(EventsOf(now, moves), Calls.Apply(StateOf(now, moves), c).events, task);
  }

  lemma TaskRowsStep(now: Time, moves: seq<Move>, c: Calls.Call, task: Id)
    requires Valid(now, moves + [Service(c)]) && Valid(now, moves)
    ensures TaskRows(now, moves + [Service(c)], task)
         == TaskRows(now, moves, task) + if Names(StateOf(now, moves), c, task) then [|SysOf(now, moves).db.rows|] else []
  {
    hide Names, StateOf, SysOf;
    var longer := moves + [Service(c)];
    assert longer[..|longer| - 1] == moves;
  }

  lemma ServiceMatch(now: Time, moves: seq<Move>, c: Calls.Call, task: Id)
    requires Valid(now, moves + [Service(c)]) && Valid(now, moves) && Matched(now, moves, task)
    requires Calls.Enabled(StateOf(now, moves), c)
    ensures Matched(now, moves + [Service(c)], task)
  {
    hide Calls.Apply, Effects, W.Next, W.Inv, W.Enabled, W.Run, W.Valid, StoreIntegrity.Inv, RowsMatch, InSync, Names, Calls.Enabled, Valid, StepsOf, CallsOf, EventsOf, TaskRows, StateOf;
    ValidOutbox(now, moves);
    EffectsStep(now, moves, c);
    SysInv(now, moves);
    StateInv(now, moves);
    Synchronised(now, moves);
    CallMatch(StateOf(now, moves), SysOf(now, moves), c, TaskRows(now, moves, task), Assignments.Targets(EventsOf(now, moves), task), task);
    TargetsStep(now, moves, c, task);
    TaskRowsStep(now, moves, c, task);
  }

  lemma DispatchMatch(now: Time, moves: seq<Move>, step: W.Step, task: Id)
    requires Valid(now, moves + [Dispatch(step)]) && Valid(now, moves) && Matched(now, moves, task)
    ensures Matched(now, moves + [Dispatch(step)], task)
  {
    DispatchStep(now, moves, step);
    SysInv(now, moves);
    var longer := moves + [Dispatch(step)];
    assert longer[..|longer| - 1] == moves;
    hide W.Next, W.Inv, W.Enabled, W.Run, W.Valid, RowsMatch, Valid, StepsOf, CallsOf;
    var ids := TaskRows(now, moves, task);
    assert ids + [] == ids;
    StillMatch(SysOf(now, moves), step, ids, Assignments.Targets(EventsOf(now, moves), task), task);
  }

  lemma {:induction false} TaskRowsMatch(now: Time, moves: seq<Move>, task: Id)
    requires Valid(now, moves)
    ensures Matched(now, moves, task)
  {
    hide Matched, SysOf, TaskRows, StepsOf, Effects, StateOf, W.Valid;
    if moves == [] {
      NothingMatched(now, task);
    } else {
      var before, last := moves[..|moves| - 1], moves[|moves| - 1];
      assert moves == before + [last];
      TaskRowsMatch(now, before, task);
      match last
      case Service(c) => ServiceMatch(now, before, c, task);
      case Dispatch(step) => DispatchMatch(now, before, step, task);
    }
  }

  lemma NothingMatched(now: Time, task: Id)
    ensures Valid(now, []) && Matched(now, [], task)
  {
  }

  /** Row `id` is one assignment of the task, and it has exactly one notification, to the assignee, once SENT, and none
      before. */
  ghost predicate Delivers(d: W.Sys, id: RowId, task: Id, assignee: Id) {
    && Carries(d, id, task, Assigned(assignee))
    && NotesFrom(d.db.notes, id)
       == if d.db.rows[id].status == SENT then [Note(id, assignee, d.db.rows[id].payload.event)] else []
  }

  lemma CarriedIsDelivered(d: W.Sys, id: RowId, task: Id, assignee: Id)
    requires Consistent(d.db) && Carries(d, id, task, Assigned(assignee))
    ensures Delivers(d, id, task, assignee)
  {
  }

  /** For every task, in every run of services and any number of dispatchers: the rows inserted for the task match one
      for one, in order, the places in its committed assignee history where the value is set and differs from the one
      before; and each has at most one notification, to that assignee, exactly one once it is SENT. */
  lemma AssignmentsAreDelivered(now: Time, moves: seq<Move>, task: Id)
    requires Valid(now, moves)
    ensures var calls := CallsOf(moves);
      var rows, assignees := TaskRows(now, moves, task), Assignments.Changes(Assignments.History(Calls.Start(now), calls, |calls|, task));
      && |rows| == |assignees|
      && (forall j, k :: 0 <= j < k < |rows| ==> rows[j] < rows[k])
      && (forall k :: 0 <= k < |rows| ==> Delivers(SysOf(now, moves), rows[k], task, assignees[k]))
  {
    var calls, d := CallsOf(moves), SysOf(now, moves);
    TaskRowsMatch(now, moves, task);
    ValidCalls(now, moves);
    Assignments.EventsAreChanges(now, calls, |calls|, task);
    W.ExactlyOnceDelivery(now, StepsOf(now, moves));
    hide W.Run, W.Valid, Valid, StepsOf, Consistent, Carries, Delivers, TaskRows, Assignments.Events, Assignments.History, Assignments.Changes;
    var rows, assignees := TaskRows(now, moves, task), Assignments.Changes(Assignments.History(Calls.Start(now), calls, |calls|, task));
    forall k | 0 <= k < |rows| ensures Delivers(d, rows[k], task, assignees[k]) {
      CarriedIsDelivered(d, rows[k], task, assignees[k]);
    }
  }

  /* ---------------- Services without dispatchers ---------------- */

  function MovesOf(calls: seq<Calls.Call>): seq<Move> {
    if calls == [] then [] else MovesOf(calls[..|calls| - 1]) + [Service(calls[|calls| - 1])]
  }

  function RowFor(s: Calls.State, c: Calls.Call): seq<Row> {
    var events := Calls.Apply(s, c).events;
    if events == [] then [] else [NewRow(TaskAssigned, Object(events[0]), s.clock)]
  }

  /** The rows the first n calls insert. */
  function RowsOf(s: Calls.State, calls: seq<Calls.Call>, n: nat): seq<Row>
    requires n <= |calls|
  {
    if n == 0 then [] else RowsOf(s, calls, n - 1) + RowFor(Calls.At(s, calls, n - 1), calls[n - 1])
  }

  lemma {:induction false} RowsPrefix(s: Calls.State, calls: seq<Calls.Call>, c: Calls.Call, n: nat)
    requires n <= |calls|
    ensures RowsOf(s, calls + [c], n) == RowsOf(s, calls, n)
  {
    hide RowFor;
    if n > 0 {
      RowsPrefix(s, calls, c, n - 1);
      Calls.AtPrefix(s, calls, c, n - 1);
    }
  }

  /** A service call can always be made, and no dispatcher stirs. */
  lemma ServiceMoves(now: Time, moves: seq<Move>, c: Calls.Call)
    requires Valid(now, moves) && Calls.Enabled(StateOf(now, moves), c)
    ensures Valid(now, moves + [Service(c)])
  {
    var longer, steps := moves + [Service(c)], Effects(StateOf(now, moves), c);
    assert longer[..|longer| - 1] == moves;
    ValidOutbox(now, moves);
    AtMostOneEffect(StateOf(now, moves), c);
    hide Calls.Apply, StateOf, Calls.Enabled, W.Next;
    if steps != [] {
      assert W.Enabled(SysOf(now, moves), steps[0]) by { EffectEnabled(StateOf(now, moves), SysOf(now, moves), c); }
      W.RunSnoc(W.Start(now), StepsOf(now, moves), steps[0]);
      assert steps == [steps[0]];
    } else {
      assert StepsOf(now, moves) + [] == StepsOf(now, moves);
    }
  }

  lemma EffectEnabled(s: Calls.State, d: W.Sys, c: Calls.Call)
    requires Effects(s, c) != []
    ensures W.Enabled(d, Effects(s, c)[0])
  {
    hide Calls.Apply;
  }

  lemma EffectOnRows(s: Calls.State, d: W.Sys, c: Calls.Call)
    requires InSync(s, d) && (Effects(s, c) != [] ==> W.Enabled(d, Effects(s, c)[0]))
    ensures var t := After(d, Effects(s, c));
      t.workers == d.workers && t.locks == d.locks && t.db == Db(d.db.rows + RowFor(s, c), d.db.notes)
  {
    OnlyWorkHasEvents(s, c);
    hide Calls.Apply;
  }

  lemma OnlyWorkHasEvents(s: Calls.State, c: Calls.Call)
    ensures !c.OnWork? ==> Calls.Apply(s, c).events == []
  {
    hide Calls.PerformOrg, Calls.PerformInvite, Calls.PerformAuth;
  }

  /** The system after these calls alone: no dispatcher has stirred, and the outbox holds the rows of their events. */
  ghost predicate Untouched(now: Time, calls: seq<Calls.Call>, moves: seq<Move>) {
    && Valid(now, moves) && CallsOf(moves) == calls
    && W.Valid(W.Start(now), StepsOf(now, moves))
    && var d := SysOf(now, moves);
       d.workers == map[] && d.locks == map[] && d.db == Db(RowsOf(Calls.Start(now), calls, |calls|), [])
  }

  lemma UntouchedStep(now: Time, calls: seq<Calls.Call>, moves: seq<Move>, c: Calls.Call)
    requires Untouched(now, calls, moves) && Calls.Enabled(Calls.At(Calls.Start(now), calls, |calls|), c)
    ensures Untouched(now, calls + [c], moves + [Service(c)])
  {
    hide Calls.Apply, Effects, RowFor, Calls.Enabled, W.Next, W.Enabled, W.Run, W.Valid, Calls.At, Calls.Start, Valid, StepsOf, InSync;
    assert (moves + [Service(c)])[..|moves + [Service(c)]| - 1] == moves;
    ServiceMoves(now, moves, c);
    ValidOutbox(now, moves + [Service(c)]);
    EffectsStep(now, moves, c);
    Synchronised(now, moves);
    EffectOnRows(StateOf(now, moves), SysOf(now, moves), c);
    RowsPrefix(Calls.Start(now), calls, c, |calls|);
    Calls.AtPrefix(Calls.Start(now), calls, c, |calls|);
  }

  lemma UntouchedStart(now: Time)
    ensures Untouched(now, [], [])
  {
  }

  /** A run of calls is a run of the whole system: it leaves the dispatchers idle and inserts the rows of its events. */
  lemma {:induction false} ServicesAlone(now: Time, calls: seq<Calls.Call>)
    requires Calls.Valid(Calls.Start(now), calls)
    ensures Untouched(now, calls, MovesOf(calls))
    decreases |calls|
  {
    hide Untouched, Calls.Apply, Calls.Enabled, Calls.Valid;
    if calls == [] {
      UntouchedStart(now);
    } else {
      var before, c := calls[..|calls| - 1], calls[|calls| - 1];
      assert before + [c] == calls;
      ValidBefore(now, before, c);
      ServicesAlone(now, before);
      UntouchedStep(now, before, MovesOf(before), c);
    }
  }

  lemma ValidBefore(now: Time, before: seq<Calls.Call>, c: Calls.Call)
    requires Calls.Valid(Calls.Start(now), before + [c])
    ensures Calls.Valid(Calls.Start(now), before)
    ensures Calls.Enabled(Calls.At(Calls.Start(now), before, |before|), c)
  {
    hide Calls.Apply, Calls.Enabled;
    var calls := before + [c];
    forall n | 0 <= n < |before| ensures Calls.Enabled(Calls.At(Calls.Start(now), before, n), before[n]) {
      Calls.AtPrefix(Calls.Start(now), before, c, n);
      assert Calls.Enabled(Calls.At(Calls.Start(now), calls, n), calls[n]);
    }
    Calls.AtPrefix(Calls.Start(now), before, c, |before|);
    assert Calls.Enabled(Calls.At(Calls.Start(now), calls, |before|), calls[|before|]);
  }
}
