/** Every service call as a step on the shared state: what the tables and the store hold afterwards, and the reply.
    A call that fails leaves the tables as they were, whatever it did to the store before failing. */
module Calls {
  import opened Prelude
  import opened Redis
  import opened Tables
  import Outbox
  import opened EventText

  const INVITE_TTL: nat := 60 * 60 * 24
  const EMAIL_TTL: nat := 60 * 60 * 24
  const RESET_TTL: nat := 60 * 60
  const REFRESH_TTL: nat := 14 * 24 * 60 * 60

  const ALLOWED_ROLES: set<Role> := {OWNER, ADMIN, MEMBER}
  const MANAGERS: set<Role> := {OWNER, ADMIN}
  const ALLOWED_STATUSES: set<TaskStatus> := {TODO, IN_PROGRESS, DONE}

  /** `issued` holds every identifier and token hash ever drawn at random. */
  datatype State = State(tables: Tables, store: Store, clock: Time, issued: set<Id>)

  datatype OrgCall =
    | CreateOrg(org: Id, actor: Id, name: string)
    | DeleteOrg(org: Id, actor: Id)
    | AddMember(org: Id, actor: Id, user: Id, role: Role)
    | ChangeRole(org: Id, actor: Id, user: Id, role: Role)
    | RemoveMember(org: Id, actor: Id, user: Id)
    | Transfer(org: Id, actor: Id, user: Id)

  datatype InviteCall =
    | CreateInvite(org: Id, actor: Id, role: Role, ttl: Option<nat>, hash: Id)
    | ListInvites(org: Id, actor: Id)
    | RevokeInvite(org: Id, actor: Id, hash: Id)
    | Join(hash: Id, actor: Id)

  datatype WorkCall =
    | CreateProject(project: Id, org: Id, actor: Id, name: string)
    | DeleteProject(project: Id, actor: Id)
    | CreateTask(task: Id, org: Id, project: Id, actor: Id, title: string, description: Option<string>, status: TaskStatus)
    | UpdateTask(task: Id, actor: Id, patch: Patch)
    | DeleteTask(task: Id, actor: Id)

  datatype AuthCall =
    | Register(user: Id, password: string)
    | Login(user: Id, hash: Id, sid: Id)
    | Rotate(hash: Id, next: Id, sid: Id)
    | Logout(hash: Id)
    | AskVerify(user: Id, hash: Id)
    | Verify(hash: Id)
    | AskReset(user: Id, hash: Id)
    | ResetPassword(hash: Id, password: string)

  datatype Call = Tick(seconds: nat) | OnOrg(o: OrgCall) | OnInvite(i: InviteCall) | OnWork(w: WorkCall) | OnAuth(a: AuthCall)

  /** The state after a call, the HTTP status of its reply, and the outbox events it committed. */
  datatype Answer = Answer(state: State, status: int, events: seq<Outbox.Event>)

  /** What a call draws at random. */
  function Draws(c: Call): set<Id> {
    match c
    case Tick(_) => {}
    case OnOrg(o) => if o.CreateOrg? then {o.org} else {}
    case OnInvite(i) => if i.CreateInvite? then {i.hash} else {}
    case OnWork(w) => if w.CreateProject? then {w.project} else if w.CreateTask? then {w.task} else {}
    case OnAuth(a) =>
      match a
      case Register(user, _) => {user}
      case Login(_, hash, sid) => {hash, sid}
      case Rotate(_, next, sid) => {next, sid}
      case AskVerify(_, hash) => {hash}
      case AskReset(_, hash) => {hash}
      case _ => {}
  }

  /** Random identifiers and tokens are new. */
  predicate Enabled(s: State, c: Call) {
    Draws(c) !! s.issued
  }

  /* ---------------- Organisations ---------------- */

  function RequireRole(t: Tables, org: Id, user: Id, allowed: set<Role>): Result<Role> {
    var role := t.MemberRole(org, user);
    if role.None? || role.value !in allowed then Err(403) else Ok(role.value)
  }

  function CreateOrgOn(t: Tables, org: Id, creator: Id, name: string): Result<Tables> {
    var t1 :- InsertOrg(t, org, Org(name, creator));
    InsertMember(t1, org, creator, OWNER)
  }

  function DeleteOrgOn(t: Tables, org: Id, actor: Id): Result<Tables> {
    if org !in t.orgs then Err(404)
    else
      var _ :- RequireRole(t, org, actor, {OWNER});
      Ok(CutOrg(t, org))
  }

  function AddMemberOn(t: Tables, org: Id, actor: Id, user: Id, role: Role): Result<Tables> {
    var own :- RequireRole(t, org, actor, MANAGERS);
    if role !in ALLOWED_ROLES then Err(400)
    else if role == OWNER && own != OWNER then Err(403)
    else if t.MemberRole(org, user).Some? then Err(409)
    else InsertMember(t, org, user, role)
  }

  function ChangeRoleOn(t: Tables, org: Id, actor: Id, user: Id, role: Role): Result<Tables> {
    var _ :- RequireRole(t, org, actor, {OWNER});
    if role !in ALLOWED_ROLES then Err(400)
    else if t.MemberRole(org, user).None? then Err(404)
    else if t.MemberRole(org, user).value == OWNER && role != OWNER && |t.Owners(org)| <= 1 then Err(400)
    else Ok(UpdateRole(t, org, user, role))
  }

  function RemoveMemberOn(t: Tables, org: Id, actor: Id, user: Id): Result<Tables> {
    var own :- RequireRole(t, org, actor, MANAGERS);
    var target := t.MemberRole(org, user);
    if target.None? then Err(404)
    else if target.value == OWNER && own != OWNER then Err(403)
    else if target.value == OWNER && |t.Owners(org)| <= 1 then Err(400)
    else Ok(CutMember(t, org, user))
  }

  function TransferOn(t: Tables, org: Id, actor: Id, user: Id): Result<Tables> {
    var _ :- RequireRole(t, org, actor, {OWNER});
    if actor == user then Err(400)
    else if t.MemberRole(org, user).None? then Err(404)
    else if t.MemberRole(org, user).value == OWNER then Err(400)
    else Ok(UpdateRole(UpdateRole(t, org, user, OWNER), org, actor, ADMIN))
  }

  /* ---------------- Invites ---------------- */

  function InviteTtl(ttl: Option<nat>): nat {
    if ttl.Some? && ttl.value != 0 then ttl.value else INVITE_TTL
  }

  function CreateInviteOn(t: Tables, store: Store, now: Time, org: Id, actor: Id, role: Role, ttl: Option<nat>, hash: Id): Result<Store> {
    var own :- RequireRole(t, org, actor, MANAGERS);
    if role !in ALLOWED_ROLES then Err(400)
    else if role == OWNER && own != OWNER then Err(403)
    else Ok(SetAdd(SetJson(store, now, InviteKey(hash), InviteJson(org, role, actor, now), InviteTtl(ttl)), IndexKey(org), hash))
  }

  /** The hashes whose invite is live and belongs to the organisation. */
  predicate OrgInvite(store: Store, now: Time, org: Id, hash: Id) {
    var data := GetJson(store, now, InviteKey(hash));
    data.Some? && data.value.InviteJson? && data.value.org == org
  }

  /** The store with an index cut down to `ids`. */
  function WithIndex(store: Store, org: Id, ids: set<Id>): Store {
    if ids == SetMembers(store, IndexKey(org)) then store
    else if ids == {} then store - {IndexKey(org)}
    else store[IndexKey(org) := Members(ids)]
  }

  /** The index without the hashes that no longer name a live invite of the organisation. */
  function Pruned(store: Store, now: Time, org: Id): Store {
    WithIndex(store, org, set h | h in SetMembers(store, IndexKey(org)) && OrgInvite(store, now, org, h))
  }

  datatype InviteItem = InviteItem(id: Id, role: Role, createdBy: Id, createdAt: Time, expiresIn: int)

  /** What a listing says of an invite. */
  function ItemOf(store: Store, now: Time, h: Id): InviteItem
    requires InviteKey(h) in store && store[InviteKey(h)].Record? && store[InviteKey(h)].value.InviteJson?
  {
    var data := store[InviteKey(h)].value;
    InviteItem(h, data.role, data.createdBy, data.createdAt, store[InviteKey(h)].expiry - now)
  }

  /** The items of the live invites of the organisation among some hashes. */
  function Items(store: Store, now: Time, org: Id, among: set<Id>): set<InviteItem> {
    set h | h in among && OrgInvite(store, now, org, h) :: ItemOf(store, now, h)
  }

  function ListInvitesOn(t: Tables, store: Store, now: Time, org: Id, actor: Id): Result<Store> {
    var _ :- RequireRole(t, org, actor, MANAGERS);
    Ok(Pruned(store, now, org))
  }

  function RevokeInviteOn(t: Tables, store: Store, now: Time, org: Id, actor: Id, hash: Id): Result<Store> {
    var _ :- RequireRole(t, org, actor, MANAGERS);
    if !OrgInvite(store, now, org, hash) then Err(404)
    else Ok(SetRemove(Del(store, InviteKey(hash)), IndexKey(org), hash))
  }

  /** The store and tables after a join: the invite is deleted before the membership is inserted. */
  function JoinOn(t: Tables, store: Store, now: Time, hash: Id, user: Id): (Store, Result<Tables>) {
    var data := GetJson(store, now, InviteKey(hash));
    if data.None? || !data.value.InviteJson? then (store, Err(404))
    else
      var InviteJson(org, role, _, _) := data.value;
      if t.MemberRole(org, user).Some? then (store, Err(409))
      else (SetRemove(Del(store, InviteKey(hash)), IndexKey(org), hash), InsertMember(t, org, user, role))
  }

  /* ---------------- Projects and tasks ---------------- */

  function CreateProjectOn(t: Tables, id: Id, org: Id, actor: Id, name: string): Result<Tables> {
    var _ :- RequireRole(t, org, actor, MANAGERS);
    InsertProject(t, id, Project(org, name, actor))
  }

  function DeleteProjectOn(t: Tables, id: Id, actor: Id): Result<Tables> {
    if id !in t.projects then Err(404)
    else
      var _ :- RequireRole(t, t.projects[id].org, actor, MANAGERS);
      Ok(CutProject(t, id))
  }

  function CreateTaskOn(t: Tables, id: Id, org: Id, project: Id, actor: Id, title: string, description: Option<string>, status: TaskStatus): Result<Tables> {
    var _ :- RequireRole(t, org, actor, ALLOWED_ROLES);
    if status !in ALLOWED_STATUSES then Err(400)
    else if project !in t.projects || t.projects[project].org != org then Err(404)
    else InsertTask(t, id, Task(org, project, title, description, status, actor, None))
  }

  /** What update_task refuses before it touches the row. */
  function UpdateTaskCheck(t: Tables, task: Task, actor: Id, patch: Patch): Result<()> {
    var role := t.MemberRole(task.org, actor);
    if role.None? then Err(403)
    else
      var admin := role.value in MANAGERS;
      if patch.status.Some? && patch.status.value.Some? && patch.status.value.value !in ALLOWED_STATUSES then Err(400)
      else if patch.status.Some? && !admin && task.assignedTo != Some(actor) then Err(403)
      else if patch.assignedTo.Some? && !admin then Err(403)
      else if patch.assignedTo.Some? && patch.assignedTo.value.Some?
              && t.MemberRole(task.org, patch.assignedTo.value.value).None? then Err(400)
      else Ok(())
  }

  function UpdateTaskOn(t: Tables, now: Time, id: Id, actor: Id, patch: Patch): Result<(Tables, seq<Outbox.Event>)> {
    if id !in t.tasks then Err(404)
    else
      var task := t.tasks[id];
      var _ :- UpdateTaskCheck(t, task, actor, patch);
      var after :- Patched(t, task, patch);
      var events :=
        if patch.assignedTo.Some? && after.assignedTo.Some? && after.assignedTo != task.assignedTo
        then [AssignmentEvent(after.org, after.project, id, after.assignedTo.value, actor, after.title, now)]
        else [];
      Ok((t.(tasks := t.tasks[id := after]), events))
  }

  function DeleteTaskOn(t: Tables, id: Id, actor: Id): Result<Tables> {
    if id !in t.tasks then Err(404)
    else
      var task := t.tasks[id];
      var role := t.MemberRole(task.org, actor);
      if role.None? then Err(403)
      else if role.value !in MANAGERS && task.createdBy != actor then Err(403)
      else Ok(CutTask(t, id))
  }

  /* ---------------- Sessions and one-time tokens ---------------- */

  function RotateOn(store: Store, now: Time, hash: Id, next: Id, sid: Id): Result<(Store, Id)> {
    var session := GetJson(store, now, RefreshKey(hash));
    if session.None? || !session.value.SessionJson? then Err(401)
    else
      var uid := session.value.uid;
      Ok((SetJson(Del(store, RefreshKey(hash)), now, RefreshKey(next), SessionJson(sid, uid, now, Some(session.value.sid)), REFRESH_TTL), uid))
  }

  /** Both one-time tokens work alike: look the token up, find its user, change the user, delete the token. */
  function UseToken(t: Tables, store: Store, now: Time, key: Key, change: User -> User): (Store, Result<Tables>) {
    var data := GetJson(store, now, key);
    if data.None? || !data.value.TokenJson? then (store, Err(400))
    else if data.value.uid !in t.users then (Del(store, key), Err(400))
    else (Del(store, key), Ok(t.(users := t.users[data.value.uid := change(t.users[data.value.uid])])))
  }

  /* ---------------- One call ---------------- */

  function PerformOrg(t: Tables, c: OrgCall): Result<Tables> {
    match c
    case CreateOrg(org, actor, name) => CreateOrgOn(t, org, actor, name)
    case DeleteOrg(org, actor) => DeleteOrgOn(t, org, actor)
    case AddMember(org, actor, user, role) => AddMemberOn(t, org, actor, user, role)
    case ChangeRole(org, actor, user, role) => ChangeRoleOn(t, org, actor, user, role)
    case RemoveMember(org, actor, user) => RemoveMemberOn(t, org, actor, user)
    case Transfer(org, actor, user) => TransferOn(t, org, actor, user)
  }

  function StoreOnly(t: Tables, store: Store, r: Result<Store>): (Store, Result<Tables>) {
    match r
    case Ok(after) => (after, Ok(t))
    case Err(status) => (store, Err(status))
  }

  function PerformInvite(t: Tables, store: Store, now: Time, c: InviteCall): (Store, Result<Tables>) {
    match c
    case CreateInvite(org, actor, role, ttl, hash) => StoreOnly(t, store, CreateInviteOn(t, store, now, org, actor, role, ttl, hash))
    case ListInvites(org, actor) => StoreOnly(t, store, ListInvitesOn(t, store, now, org, actor))
    case RevokeInvite(org, actor, hash) => StoreOnly(t, store, RevokeInviteOn(t, store, now, org, actor, hash))
    case Join(hash, actor) => JoinOn(t, store, now, hash, actor)
  }

  function NoEvents(r: Result<Tables>): Result<(Tables, seq<Outbox.Event>)> {
    match r
    case Ok(t) => Ok((t, []))
    case Err(status) => Err(status)
  }

  function PerformWork(t: Tables, now: Time, c: WorkCall): Result<(Tables, seq<Outbox.Event>)> {
    match c
    case CreateProject(project, org, actor, name) => NoEvents(CreateProjectOn(t, project, org, actor, name))
    case DeleteProject(project, actor) => NoEvents(DeleteProjectOn(t, project, actor))
    case CreateTask(task, org, project, actor, title, description, status) =>
      NoEvents(CreateTaskOn(t, task, org, project, actor, title, description, status))
    case UpdateTask(task, actor, patch) => UpdateTaskOn(t, now, task, actor, patch)
    case DeleteTask(task, actor) => NoEvents(DeleteTaskOn(t, task, actor))
  }

  function PerformAuth(t: Tables, store: Store, now: Time, c: AuthCall): (Store, Result<Tables>) {
    match c
    case Register(user, password) =>
      if user in t.users then (store, Err(500)) else (store, Ok(t.(users := t.users[user := User(false, password)])))
    case Login(user, hash, sid) =>
      if user !in t.users then (store, Err(401))
      else (SetJson(store, now, RefreshKey(hash), SessionJson(sid, user, now, None), REFRESH_TTL), Ok(t))
    case Rotate(hash, next, sid) =>
      (match RotateOn(store, now, hash, next, sid)
       case Ok((after, _)) => (after, Ok(t))
       case Err(status) => (store, Err(status)))
    case Logout(hash) => (Del(store, RefreshKey(hash)), Ok(t))
    case AskVerify(user, hash) =>
      if user !in t.users then (store, Err(404))
      else if t.users[user].verified then (store, Ok(t))
      else (SetJson(store, now, EmailKey(hash), TokenJson(user, now), EMAIL_TTL), Ok(t))
    case Verify(hash) => UseToken(t, store, now, EmailKey(hash), (u: User) => User(true, u.password))
    case AskReset(user, hash) =>
      if user !in t.users then (store, Ok(t))
      else (SetJson(store, now, ResetKey(hash), TokenJson(user, now), RESET_TTL), Ok(t))
    case ResetPassword(hash, password) => UseToken(t, store, now, ResetKey(hash), (u: User) => User(u.verified, password))
  }

  /** The store change stands whatever becomes of the transaction. */
  function Settle(s: State, store: Store, r: Result<(Tables, seq<Outbox.Event>)>): Answer {
    match r
    case Ok((t, events)) => Answer(s.(tables := t, store := store), 200, events)
    case Err(status) => Answer(s.(store := store), status, [])
  }

  /** One call, with what it drew marked as drawn. */
  function Apply(s: State, c: Call): Answer {
    var s' := s.(issued := s.issued + Draws(c));
    match c
    case Tick(seconds) => Answer(s'.(clock := s.clock + seconds), 200, [])
    case OnOrg(o) => Settle(s', s.store, NoEvents(PerformOrg(s.tables, o)))
    case OnInvite(i) => var (store, r) := PerformInvite(s.tables, s.store, s.clock, i); Settle(s', store, NoEvents(r))
    case OnWork(w) => Settle(s', s.store, PerformWork(s.tables, s.clock, w))
    case OnAuth(a) => var (store, r) := PerformAuth(s.tables, s.store, s.clock, a); Settle(s', store, NoEvents(r))
  }

  /* ---------------- Runs ---------------- */

  function Start(now: Time): State {
    State(Empty(), map[], now, {})
  }

  /** The state after the first n calls. */
  function At(s: State, calls: seq<Call>, n: nat): State
    requires n <= |calls|
  {
    if n == 0 then s else Apply(At(s, calls, n - 1), calls[n - 1]).state
  }

  /** The reply to call n. */
  function Reply(s: State, calls: seq<Call>, n: nat): Answer
    requires n < |calls|
  {
    Apply(At(s, calls, n), calls[n])
  }

  ghost predicate Valid(s: State, calls: seq<Call>) {
    forall n :: 0 <= n < |calls| ==> Enabled(At(s, calls, n), calls[n])
  }

  /** A call appended to a run leaves its earlier states. */
  lemma {:induction false} AtPrefix(s: State, calls: seq<Call>, c: Call, n: nat)
    requires n <= |calls|
    ensures At(s, calls + [c], n) == At(s, calls, n)
  {
    hide Apply;
    if n > 0 { AtPrefix(s, calls, c, n - 1); }
  }

  /** A valid run goes on with any call enabled at its end. */
  lemma Snoc(s: State, calls: seq<Call>, c: Call)
    requires Valid(s, calls) && Enabled(At(s, calls, |calls|), c)
    ensures Valid(s, calls + [c])
    ensures At(s, calls + [c], |calls| + 1) == Apply(At(s, calls, |calls|), c).state
    ensures Reply(s, calls + [c], |calls|) == Apply(At(s, calls, |calls|), c)
  {
    hide Apply, Enabled;
    AtPrefix(s, calls, c, |calls|);
    forall n | 0 <= n < |calls + [c]| ensures Enabled(At(s, calls + [c], n), (calls + [c])[n]) {
      AtPrefix(s, calls, c, n);
      if n < |calls| { assert Enabled(At(s, calls, n), calls[n]); }
    }
  }
}
