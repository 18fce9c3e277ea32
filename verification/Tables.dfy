/** The relational tables and what the database itself enforces: keys, foreign keys, uniqueness, not-null, cascades. */
module Tables {
  import opened Prelude
  import opened Redis

  const MAX_TITLE: nat := 200

  datatype TaskStatus = TODO | IN_PROGRESS | DONE | OtherStatus(text: string)

  datatype User = User(verified: bool, password: string)
  datatype Org = Org(name: string, createdBy: Id)
  datatype Project = Project(org: Id, name: string, createdBy: Id)
  datatype Task = Task(org: Id, project: Id, title: string, description: Option<string>, status: TaskStatus,
                       createdBy: Id, assignedTo: Option<Id>)

  /** A membership row is found by its organisation and its user. */
  datatype Tables = Tables(users: map<Id, User>, orgs: map<Id, Org>, members: map<(Id, Id), Role>,
                           projects: map<Id, Project>, tasks: map<Id, Task>)
  {
    function MemberRole(org: Id, user: Id): Option<Role> {
      if (org, user) in members then Some(members[(org, user)]) else None
    }

    /** The owner rows of an organisation. */
    function Owners(org: Id): set<(Id, Id)> {
      set k | k in members && k.0 == org && members[k] == OWNER
    }
  }

  function Empty(): Tables {
    Tables(map[], map[], map[], map[], map[])
  }

  function InsertOrg(t: Tables, id: Id, org: Org): Result<Tables> {
    if id in t.orgs || org.createdBy !in t.users then Err(500)
    else Ok(t.(orgs := t.orgs[id := org]))
  }

  function InsertMember(t: Tables, org: Id, user: Id, role: Role): Result<Tables> {
    if (org, user) in t.members || org !in t.orgs || user !in t.users then Err(500)
    else Ok(t.(members := t.members[(org, user) := role]))
  }

  function InsertProject(t: Tables, id: Id, project: Project): Result<Tables> {
    if id in t.projects || project.org !in t.orgs || project.createdBy !in t.users then Err(500)
    else Ok(t.(projects := t.projects[id := project]))
  }

  function InsertTask(t: Tables, id: Id, task: Task): Result<Tables> {
    if id in t.tasks || task.org !in t.orgs || task.project !in t.projects || task.createdBy !in t.users
       || |task.title| > MAX_TITLE then Err(500)
    else Ok(t.(tasks := t.tasks[id := task]))
  }

  /** Deleting an organisation takes its members and projects with it, and with the projects their tasks. */
  function CutOrg(t: Tables, org: Id): Tables {
    Tables(t.users,
           t.orgs - {org},
           map k | k in t.members && k.0 != org :: t.members[k],
           map p | p in t.projects && t.projects[p].org != org :: t.projects[p],
           map k | k in t.tasks && t.tasks[k].org != org
                     && !(t.tasks[k].project in t.projects && t.projects[t.tasks[k].project].org == org) :: t.tasks[k])
  }

  function CutMember(t: Tables, org: Id, user: Id): Tables {
    t.(members := t.members - {(org, user)})
  }

  function CutProject(t: Tables, id: Id): Tables {
    t.(projects := t.projects - {id},
       tasks := map k | k in t.tasks && t.tasks[k].project != id :: t.tasks[k])
  }

  function CutTask(t: Tables, id: Id): Tables {
    t.(tasks := t.tasks - {id})
  }

  /** UPDATE org_members: no row, no change. */
  function UpdateRole(t: Tables, org: Id, user: Id, role: Role): Tables {
    if (org, user) in t.members then t.(members := t.members[(org, user) := role]) else t
  }

  /* ---------------- Task updates ---------------- */

  /** The fields a request sets; a field can be set to null. */
  datatype Patch = Patch(title: Option<Option<string>>, description: Option<Option<string>>,
                         status: Option<Option<TaskStatus>>, assignedTo: Option<Option<Id>>)

  /** The row an update flushes, or the integrity error of the flush. */
  function Patched(t: Tables, task: Task, patch: Patch): Result<Task> {
    if (patch.title.Some? && (patch.title.value.None? || |patch.title.value.value| > MAX_TITLE))
       || (patch.status.Some? && patch.status.value.None?)
       || (patch.assignedTo.Some? && patch.assignedTo.value.Some? && patch.assignedTo.value.value !in t.users)
    then Err(500)
    else
      Ok(task.(title := if patch.title.Some? then patch.title.value.value else task.title,
               description := if patch.description.Some? then patch.description.value else task.description,
               status := if patch.status.Some? then patch.status.value.value else task.status,
               assignedTo := if patch.assignedTo.Some? then patch.assignedTo.value else task.assignedTo))
  }
}
