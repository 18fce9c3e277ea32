/** The task service as written, each method proved to be the call of the same name in `Calls`. */
module TaskService {
  import opened Prelude
  import opened Redis
  import opened Tables
  import opened EventText
  import opened Calls
  import opened Database
  import opened Integrity
  import OrganizationService
  import Outbox

  method CreateTask(db: Session, id: Id, org: Id, project: Id, requester: Id, title: string, description: Option<string>, status: TaskStatus)
    returns (r: Result<()>)
    requires db.Fresh()
    modifies db
    ensures Flushed(CreateTaskOn(old(db.committed), id, org, project, requester, title, description, status), r, old(db.committed), db.committed)
    ensures db.outbox == old(db.outbox)
  {
    var _ :- OrganizationService.RequireRole(db, org, requester, {OWNER, ADMIN, MEMBER});
    if status !in ALLOWED_STATUSES {
      return Err(400);
    }
    if project !in db.work.projects || db.work.projects[project].org != org {
      return Err(404);
    }
    var _ :- db.CreateTask(id, Task(org, project, title, description, status, requester, None));
    db.Commit();
    return Ok(());
  }

  /** The outbox rows for a call's events. */
  function RowsFor(events: seq<Outbox.Event>, now: Time): seq<Outbox.Row> {
    seq(|events|, i requires 0 <= i < |events| => Outbox.NewRow(Outbox.TaskAssigned, Outbox.Object(events[i]), now))
  }

  /** The checks before the row is touched. */
  method CheckUpdate(db: Session, task: TaskRow, requester: Id, patch: Patch) returns (r: Result<()>)
    requires task.id in db.work.tasks && task.Maps(task.id, db.work.tasks[task.id]) && task.Values() == DraftOf(db.work.tasks[task.id])
    ensures r == UpdateTaskCheck(db.work, db.work.tasks[task.id], requester, patch)
  {
    var member := db.work.MemberRole(task.org, requester);
    if member.None? {
      return Err(403);
    }
    var admin := member.value in {OWNER, ADMIN};
    var assignee := task.assignedTo == Some(requester);
    if patch.status.Some? {
      var status := patch.status.value;
      if status.Some? && status.value !in ALLOWED_STATUSES {
        return Err(400);
      }
      if !(admin || assignee) {
        return Err(403);
      }
    }
    if patch.assignedTo.Some? {
      if !admin {
        return Err(403);
      }
      if patch.assignedTo.value.Some? && db.work.MemberRole(task.org, patch.assignedTo.value.value).None? {
        return Err(400);
      }
    }
    return Ok(());
  }

  /** Whoever sets the status is a manager or the assignee, and whoever assigns is a manager. */
  ghost predicate Permits(t: Tables, task: Task, requester: Id, data: seq<Setting>) {
    && t.MemberRole(task.org, requester).Some?
    && var manager := t.MemberRole(task.org, requester) == Some(OWNER) || t.MemberRole(task.org, requester) == Some(ADMIN);
       && ((exists i :: 0 <= i < |data| && data[i].Status?) ==> manager || task.assignedTo == Some(requester))
       && ((exists i :: 0 <= i < |data| && data[i].AssignedTo?) ==> manager)
  }

  /** One row more, announcing the assignment, exactly when there is a new assignee. */
  ghost predicate Queued(before: seq<Outbox.Row>, after: seq<Outbox.Row>, id: Id, was: Task, task: Task, requester: Id, now: Time) {
    if task.assignedTo.Some? && task.assignedTo != was.assignedTo then
      && |after| == |before| + 1 && after[..|before|] == before
      && var row := after[|before|];
         && row.payload.Object?
         && row == Outbox.Row(Outbox.TaskAssigned, row.payload, Outbox.PENDING, 0, None, None, now, None)
         && var e := row.payload.event;
            e == Outbox.Event(Some(task.org), Some(task.project), Some(id), Outbox.Assigned(task.assignedTo.value),
                              Some(requester), Some(task.title), Some(now), e.size)
    else after == before
  }

  lemma PermitsIfChecked(t: Tables, task: Task, requester: Id, data: seq<Setting>)
    requires UpdateTaskCheck(t, task, requester, PatchOf(data)).Ok?
    ensures Permits(t, task, requester, data)
  {
    PatchHas(data);
    hide PatchOf;
  }

  lemma QueuedIfEmitted(t: Tables, now: Time, id: Id, requester: Id, patch: Patch, before: seq<Outbox.Row>)
    requires UpdateTaskOn(t, now, id, requester, patch).Ok?
    ensures id in t.tasks && id in UpdateTaskOn(t, now, id, requester, patch).value.0.tasks
    ensures var (after, events) := UpdateTaskOn(t, now, id, requester, patch).value;
      Queued(before, before + RowsFor(events, now), id, t.tasks[id], after.tasks[id], requester, now)
  {
  }

  /** The object the service loaded is the one the repository changes, so the old assignee is read first. The event is
      inserted before the one commit; `trigger` says whether a dispatch is requested after it. */
  method UpdateTask(db: Session, id: Id, requester: Id, data: seq<Setting>, now: Time) returns (r: Result<TaskRow?>, trigger: bool)
    requires db.Fresh() && SoundTasks(db.committed.projects, db.committed.users, db.committed.tasks)
    modifies db
    ensures match UpdateTaskOn(old(db.committed), now, id, requester, PatchOf(data))
      case Ok((t, events)) =>
        && db.committed == t && db.outbox == old(db.outbox) + RowsFor(events, now)
        && trigger == (events != [])
        && r.Ok? && r.value != null && r.value.Values() == DraftOf(t.tasks[id])
      case Err(status) => r == Err(status) && !trigger && db.committed == old(db.committed) && db.outbox == old(db.outbox)
    ensures r.Ok? ==>
      && id in old(db.committed).tasks && id in db.committed.tasks
      && SetFrom(data, old(db.committed).tasks[id], db.committed.tasks[id])
      && Permits(old(db.committed), old(db.committed).tasks[id], requester, data)
      && Queued(old(db.outbox), db.outbox, id, old(db.committed).tasks[id], db.committed.tasks[id], requester, now)
  {
    hide UpdateTaskCheck, PatchOf, AssignmentEvent, Permits, Queued, SetFrom;
    trigger := false;
    var task := db.GetTask(id);
    if task == null {
      return Err(404), false;
    }
    var patch := PatchOf(data);
    var checked := CheckUpdate(db, task, requester, patch);
    if checked.Err? {
      return Err(checked.status), false;
    }
    var oldAssignee := task.assignedTo;
    r := db.UpdateTask(id, data);
    if r.Err? {
      return r, false;
    }
    var updated := r.value;
    if patch.assignedTo.Some? {
      var newAssignee := updated.assignedTo;
      if newAssignee.Some? && newAssignee != oldAssignee {
        var event := AssignmentEvent(updated.org, updated.project, updated.id, newAssignee.value, requester, updated.title.value, now);
        db.EnqueueOutbox(Outbox.TaskAssigned, Outbox.Object(event), now);
        trigger := true;
      }
    }
    db.Commit();
    PermitsIfChecked(old(db.committed), old(db.committed).tasks[id], requester, data);
    QueuedIfEmitted(old(db.committed), now, id, requester, patch, old(db.outbox));
    hide UpdateTaskOn;
  }

  method DeleteTask(db: Session, id: Id, requester: Id) returns (r: Result<()>)
    requires db.Fresh()
    modifies db
    ensures Flushed(DeleteTaskOn(old(db.committed), id, requester), r, old(db.committed), db.committed)
    ensures db.outbox == old(db.outbox)
  {
    var task := db.GetTask(id);
    if task == null {
      return Err(404);
    }
    var member := db.work.MemberRole(task.org, requester);
    if member.None? {
      return Err(403);
    }
    var admin := member.value in {OWNER, ADMIN};
    var creator := task.createdBy == requester;
    if !(admin || creator) {
      return Err(403);
    }
    var deleted := db.DeleteTask(id);
    if deleted == 0 {
      return Err(404);
    }
    db.Commit();
    return Ok(());
  }
}
