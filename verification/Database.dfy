/** The database session of one request, with the repositories' statements on it. */
module Database {
  import opened Prelude
  import opened Redis
  import opened Tables
  import opened Integrity
  import Outbox

  /** The values of a task's columns as an object holds them before a flush: a null the column would refuse is
      possible. */
  datatype Draft = Draft(title: Option<string>, description: Option<string>, status: Option<TaskStatus>, assignedTo: Option<Id>)

  /** One entry of the dictionary of changes. */
  datatype Setting =
    | Title(title: Option<string>)
    | Description(description: Option<string>)
    | Status(status: Option<TaskStatus>)
    | AssignedTo(user: Option<Id>)

  function TitleIn(s: Setting): Option<Option<string>> {
    if s.Title? then Some(s.title) else None
  }

  function DescriptionIn(s: Setting): Option<Option<string>> {
    if s.Description? then Some(s.description) else None
  }

  function StatusIn(s: Setting): Option<Option<TaskStatus>> {
    if s.Status? then Some(s.status) else None
  }

  function AssigneeIn(s: Setting): Option<Option<Id>> {
    if s.AssignedTo? then Some(s.user) else None
  }

  /** `value` is that of the last entry for a column, or `before` if there is none. */
  ghost predicate LastOr<T(!new)>(data: seq<Setting>, column: Setting -> Option<T>, before: T, value: T) {
    || (exists i :: 0 <= i < |data| && column(data[i]) == Some(value) && forall j :: i < j < |data| ==> column(data[j]).None?)
    || ((forall i :: 0 <= i < |data| ==> column(data[i]).None?) && value == before)
  }

  /** The columns after an update: each the last value given for it, or as it was. */
  ghost predicate SetFrom(data: seq<Setting>, before: Task, after: Task) {
    && after.org == before.org && after.project == before.project && after.createdBy == before.createdBy
    && LastOr(data, TitleIn, Some(before.title), Some(after.title))
    && LastOr(data, DescriptionIn, before.description, after.description)
    && LastOr(data, StatusIn, Some(before.status), Some(after.status))
    && LastOr(data, AssigneeIn, before.assignedTo, after.assignedTo)
  }

  function DraftOf(task: Task): Draft {
    Draft(Some(task.title), task.description, Some(task.status), task.assignedTo)
  }

  /** The dictionary, as the fields it sets. */
  function PatchOf(data: seq<Setting>): Patch {
    if data == [] then Patch(None, None, None, None)
    else
      var patch := PatchOf(data[..|data| - 1]);
      match data[|data| - 1]
      case Title(v) => patch.(title := Some(v))
      case Description(v) => patch.(description := Some(v))
      case Status(v) => patch.(status := Some(v))
      case AssignedTo(v) => patch.(assignedTo := Some(v))
  }

  lemma LastOrOneMore<T(!new)>(data: seq<Setting>, s: Setting, column: Setting -> Option<T>, before: T, value: T)
    requires column(s).None? ==> LastOr(data, column, before, value)
    requires column(s).Some? ==> column(s) == Some(value)
    ensures LastOr(data + [s], column, before, value)
  {
    var longer := data + [s];
    if column(s).Some? {
      assert longer[|data|] == s;
    } else if i :| 0 <= i < |data| && column(data[i]) == Some(value) && forall j :: i < j < |data| ==> column(data[j]).None? {
      assert longer[i] == data[i];
    }
  }

  /** What the dictionary comes to: for each column, the last value given. */
  lemma {:induction false} PatchIsLast(data: seq<Setting>, draft: Draft)
    ensures LastOr(data, TitleIn, draft.title, PatchOf(data).title.GetOr(draft.title))
    ensures LastOr(data, DescriptionIn, draft.description, PatchOf(data).description.GetOr(draft.description))
    ensures LastOr(data, StatusIn, draft.status, PatchOf(data).status.GetOr(draft.status))
    ensures LastOr(data, AssigneeIn, draft.assignedTo, PatchOf(data).assignedTo.GetOr(draft.assignedTo))
  {
    hide LastOr;
    if data == [] {
      NoSetting(draft);
    } else {
      var before, s := data[..|data| - 1], data[|data| - 1];
      PatchIsLast(before, draft);
      assert before + [s] == data;
      LastOrOneMore(before, s, TitleIn, draft.title, PatchOf(data).title.GetOr(draft.title));
      LastOrOneMore(before, s, DescriptionIn, draft.description, PatchOf(data).description.GetOr(draft.description));
      LastOrOneMore(before, s, StatusIn, draft.status, PatchOf(data).status.GetOr(draft.status));
      LastOrOneMore(before, s, AssigneeIn, draft.assignedTo, PatchOf(data).assignedTo.GetOr(draft.assignedTo));
    }
  }

  lemma NoSetting(draft: Draft)
    ensures LastOr([], TitleIn, draft.title, draft.title) && LastOr([], DescriptionIn, draft.description, draft.description)
    ensures LastOr([], StatusIn, draft.status, draft.status) && LastOr([], AssigneeIn, draft.assignedTo, draft.assignedTo)
  {
  }

  /** A column is in the dictionary exactly if some entry sets it. */
  lemma {:induction false} PatchHas(data: seq<Setting>)
    ensures PatchOf(data).title.Some? <==> exists i :: 0 <= i < |data| && data[i].Title?
    ensures PatchOf(data).description.Some? <==> exists i :: 0 <= i < |data| && data[i].Description?
    ensures PatchOf(data).status.Some? <==> exists i :: 0 <= i < |data| && data[i].Status?
    ensures PatchOf(data).assignedTo.Some? <==> exists i :: 0 <= i < |data| && data[i].AssignedTo?
  {
    if data != [] {
      var before := data[..|data| - 1];
      PatchHas(before);
      assert forall i :: 0 <= i < |before| ==> before[i] == data[i];
      assert data == before + [data[|data| - 1]];
    }
  }

  /** The row an update flushes has its columns set from the dictionary. */
  lemma PatchedIsSet(t: Tables, task: Task, data: seq<Setting>)
    requires Patched(t, task, PatchOf(data)).Ok?
    ensures SetFrom(data, task, Patched(t, task, PatchOf(data)).value)
  {
    PatchIsLast(data, DraftOf(task));
    hide LastOr, PatchOf;
  }

  function Drafted(draft: Draft, patch: Patch): Draft {
    Draft(patch.title.GetOr(draft.title), patch.description.GetOr(draft.description),
          patch.status.GetOr(draft.status), patch.assignedTo.GetOr(draft.assignedTo))
  }

  /** The row a flush of the object writes, or the integrity error it raises. */
  function Stored(t: Tables, task: Task, draft: Draft): Result<Task> {
    if draft.title.None? || |draft.title.value| > MAX_TITLE || draft.status.None?
       || (draft.assignedTo.Some? && draft.assignedTo.value !in t.users) then Err(500)
    else Ok(Task(task.org, task.project, draft.title.value, draft.description, draft.status.value, task.createdBy, draft.assignedTo))
  }

  /** Judging the object as a whole is judging the changes: what was stored already is storable. */
  lemma StoredIsPatched(t: Tables, task: Task, patch: Patch)
    requires SoundTask(t.projects, t.users, task)
    ensures Stored(t, task, Drafted(DraftOf(task), patch)) == Patched(t, task, patch)
  {
  }

  /** A mapped task object. */
  class TaskRow {
    const id: Id
    const org: Id
    const project: Id
    const createdBy: Id
    var title: Option<string>
    var description: Option<string>
    var status: Option<TaskStatus>
    var assignedTo: Option<Id>

    constructor (id: Id, task: Task)
      ensures Maps(id, task) && Values() == DraftOf(task)
    {
      this.id, org, project, createdBy := id, task.org, task.project, task.createdBy;
      title, description, status, assignedTo := Some(task.title), task.description, Some(task.status), task.assignedTo;
    }

    /** The object stands for this row, whatever its settable fields hold now. */
    ghost predicate Maps(id: Id, task: Task) {
      this.id == id && org == task.org && project == task.project && createdBy == task.createdBy
    }

    function Values(): Draft
      reads this
    {
      Draft(title, description, status, assignedTo)
    }

    method SetAttr(s: Setting)
      modifies this
      ensures Values() == Drafted(old(Values()), PatchOf([s]))
      ensures match s
        case Title(v) => Values() == old(Values()).(title := v)
        case Description(v) => Values() == old(Values()).(description := v)
        case Status(v) => Values() == old(Values()).(status := v)
        case AssignedTo(v) => Values() == old(Values()).(assignedTo := v)
    {
      assert [s][..0] == [];
      match s {
        case Title(v) => title := v;
        case Description(v) => description := v;
        case Status(v) => status := v;
        case AssignedTo(v) => assignedTo := v;
      }
    }
  }

  /** `committed` and `outbox` are what every session sees; `work` and `queued` are what this one has flushed. */
  class Session {
    var committed: Tables
    var work: Tables
    var outbox: seq<Outbox.Row>
    var queued: seq<Outbox.Row>
    var identity: map<Id, TaskRow>

    /** A session at the start of a request. */
    predicate Fresh()
      reads this
    {
      work == committed && queued == [] && identity == map[]
    }

    method Commit()
      modifies this`committed, this`outbox, this`queued
      ensures committed == work && outbox == old(outbox + queued) && queued == []
    {
      committed, outbox, queued := work, outbox + queued, [];
    }

    /* ---------------- Organisations ---------------- */

    method CreateOrg(id: Id, org: Org) returns (r: Result<()>)
      modifies this`work
      ensures Flushed(InsertOrg(old(work), id, org), r, old(work), work)
    {
      r := Flush(InsertOrg(work, id, org));
    }

    method AddMember(org: Id, user: Id, role: Role) returns (r: Result<()>)
      modifies this`work
      ensures Flushed(InsertMember(old(work), org, user, role), r, old(work), work)
    {
      r := Flush(InsertMember(work, org, user, role));
    }

    method DeleteOrg(id: Id) returns (count: nat)
      modifies this`work
      ensures work == CutOrg(old(work), id) && count == if id in old(work).orgs then 1 else 0
    {
      count := if id in work.orgs then 1 else 0;
      work := CutOrg(work, id);
    }

    method RemoveMember(org: Id, user: Id) returns (count: nat)
      modifies this`work
      ensures work == CutMember(old(work), org, user) && count == if (org, user) in old(work).members then 1 else 0
    {
      count := if (org, user) in work.members then 1 else 0;
      work := CutMember(work, org, user);
    }

    method SetRole(org: Id, user: Id, role: Role) returns (count: nat)
      modifies this`work
      ensures work == UpdateRole(old(work), org, user, role) && count == if (org, user) in old(work).members then 1 else 0
    {
      count := if (org, user) in work.members then 1 else 0;
      work := UpdateRole(work, org, user, role);
    }

    /** SELECT count(*) over the membership rows. */
    method CountMembersByRole(org: Id, role: Role) returns (count: nat)
      ensures role == OWNER ==> count == |work.Owners(org)|
    {
      var rows := set k | k in work.members && k.0 == org && work.members[k] == role;
      assert role == OWNER ==> rows == work.Owners(org);
      count := |rows|;
    }

    /* ---------------- Projects and tasks ---------------- */

    method CreateProject(id: Id, project: Project) returns (r: Result<()>)
      modifies this`work
      ensures Flushed(InsertProject(old(work), id, project), r, old(work), work)
    {
      r := Flush(InsertProject(work, id, project));
    }

    method DeleteProject(id: Id) returns (count: nat)
      modifies this`work
      ensures work == CutProject(old(work), id) && count == if id in old(work).projects then 1 else 0
    {
      count := if id in work.projects then 1 else 0;
      work := CutProject(work, id);
    }

    method CreateTask(id: Id, task: Task) returns (r: Result<()>)
      modifies this`work
      ensures Flushed(InsertTask(old(work), id, task), r, old(work), work)
    {
      r := Flush(InsertTask(work, id, task));
    }

    method DeleteTask(id: Id) returns (count: nat)
      modifies this`work
      ensures work == CutTask(old(work), id) && count == if id in old(work).tasks then 1 else 0
    {
      count := if id in work.tasks then 1 else 0;
      work := CutTask(work, id);
    }

    /** A row loaded twice in one session is one object. */
    method GetTask(id: Id) returns (row: TaskRow?)
      modifies this`identity
      ensures row == null <==> id !in work.tasks
      ensures row != null ==> identity == old(identity)[id := row]
      ensures row == null ==> identity == old(identity)
      ensures row != null && id in old(identity) ==> row == old(identity)[id]
      ensures row != null && id !in old(identity) ==> fresh(row) && row.Maps(id, work.tasks[id]) && row.Values() == DraftOf(work.tasks[id])
    {
      if id !in work.tasks {
        return null;
      }
      if id in identity {
        return identity[id];
      }
      row := new TaskRow(id, work.tasks[id]);
      identity := identity[id := row];
    }

    /** Load the row, set its attributes one after the other, flush. */
    method UpdateTask(id: Id, data: seq<Setting>) returns (r: Result<TaskRow?>)
      requires id in identity && id in work.tasks
      requires identity[id].Maps(id, work.tasks[id]) && identity[id].Values() == DraftOf(work.tasks[id])
      requires SoundTask(work.projects, work.users, work.tasks[id])
      modifies this`work, this`identity, identity[id]
      ensures identity == old(identity)
      ensures match Patched(old(work), old(work).tasks[id], PatchOf(data))
        case Ok(after) =>
          && r == Ok(identity[id])
          && work == old(work).(tasks := old(work).tasks[id := after])
          && identity[id].Values() == DraftOf(after)
        case Err(status) => r == Err(status) && work == old(work)
      ensures r.Ok? ==> id in work.tasks && SetFrom(data, old(work).tasks[id], work.tasks[id])
    {
      var row := GetTask(id);
      assert identity == old(identity);
      for i := 0 to |data|
        modifies row
        invariant row.Values() == Drafted(old(identity[id].Values()), PatchOf(data[..i]))
      {
        assert data[..i + 1][..i] == data[..i];
        row.SetAttr(data[i]);
      }
      assert data[..|data|] == data;
      StoredIsPatched(work, work.tasks[id], PatchOf(data));
      var after := Stored(work, work.tasks[id], row.Values());
      if after.Err? {
        return Err(after.status);
      }
      PatchedIsSet(work, work.tasks[id], data);
      work := work.(tasks := work.tasks[id := after.value]);
      return Ok(row);
    }

    /* ---------------- Users and the outbox ---------------- */

    method SaveUser(id: Id, user: User)
      modifies this`work
      ensures work == old(work).(users := old(work).users[id := user])
    {
      work := work.(users := work.users[id := user]);
    }

    method EnqueueOutbox(eventType: Outbox.EventType, payload: Outbox.Payload, now: Time)
      modifies this`queued
      ensures queued == old(queued) + [Outbox.NewRow(eventType, payload, now)]
    {
      queued := queued + [Outbox.NewRow(eventType, payload, now)];
    }

    method Flush(outcome: Result<Tables>) returns (r: Result<()>)
      modifies this`work
      ensures Flushed(outcome, r, old(work), work)
    {
      if outcome.Err? {
        return Err(outcome.status);
      }
      work := outcome.value;
      return Ok(());
    }
  }

  /** A statement either takes effect or raises. */
  ghost predicate Flushed<T>(outcome: Result<Tables>, r: Result<T>, before: Tables, after: Tables) {
    match outcome
    case Ok(t) => r.Ok? && after == t
    case Err(status) => r == Err(status) && after == before
  }
}
