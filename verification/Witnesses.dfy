/** Runs that reach the cases the theorems allow: each is a short story, told for any identifiers. */
module Witnesses {
  import opened Prelude
  import opened Redis
  import opened Tables
  import opened Calls
  import opened Assignees
  import opened Owners
  import opened Invites
  import EventText
  import EndToEnd
  import Blocking
  import Outbox
  import Workers

  /** The first n calls run from an empty system at time 0 into `s`. */
  ghost predicate Reaches(calls: seq<Call>, n: nat, s: State) {
    && n <= |calls| && At(Start(0), calls, n) == s
    && forall k :: 0 <= k < n ==> Enabled(At(Start(0), calls, k), calls[k])
  }

  lemma Begin(calls: seq<Call>)
    ensures Reaches(calls, 0, Start(0))
  {
  }

  lemma LastState(calls: seq<Call>, n: nat, s: State)
    requires n < |calls| && At(Start(0), calls, n) == s
    ensures At(Start(0), calls, n + 1) == Apply(s, calls[n]).state
  {
    hide Apply, Start;
  }

  lemma ReachesNext(calls: seq<Call>, n: nat, s: State)
    requires Reaches(calls, n, s) && n < |calls| && Enabled(s, calls[n])
    requires At(Start(0), calls, n + 1) == Apply(s, calls[n]).state
    ensures Reaches(calls, n + 1, Apply(s, calls[n]).state)
  {
    hide Apply, Enabled, Start, At;
  }

  lemma Then(calls: seq<Call>, n: nat, s: State)
    requires Reaches(calls, n, s) && n < |calls| && Enabled(s, calls[n])
    ensures Reaches(calls, n + 1, Apply(s, calls[n]).state)
    ensures Reply(Start(0), calls, n) == Apply(s, calls[n]) && At(Start(0), calls, n) == s
  {
    hide Apply, Enabled, Start, At;
    LastState(calls, n, s);
    assert At(Start(0), calls, n) == s;
    hide Reaches;
    ReachesNext(calls, n, s);
  }

  lemma WholeRun(calls: seq<Call>, s: State)
    requires Reaches(calls, |calls|, s)
    ensures Valid(Start(0), calls) && At(Start(0), calls, |calls|) == s
  {
    hide Apply, Enabled, Start;
  }

  /* ---------------- What each call of the stories does ---------------- */

  lemma RegisterStep(s: State, user: Id)
    requires user !in s.issued && user !in s.tables.users
    ensures var c := OnAuth(Register(user, "secret"));
      && Enabled(s, c)
      && Apply(s, c) == Answer(s.(tables := s.tables.(users := s.tables.users[user := User(false, "secret")]), issued := s.issued + {user}), 200, [])
  {
  }

  lemma CreateOrgStep(s: State, org: Id, owner: Id)
    requires org !in s.issued && org !in s.tables.orgs && (org, owner) !in s.tables.members && owner in s.tables.users
    ensures var c := OnOrg(CreateOrg(org, owner, "team"));
      && Enabled(s, c)
      && Apply(s, c) == Answer(s.(tables := s.tables.(orgs := s.tables.orgs[org := Org("team", owner)],
                                                      members := s.tables.members[(org, owner) := OWNER]),
                                  issued := s.issued + {org}), 200, [])
  {
  }

  lemma AddMemberStep(s: State, org: Id, owner: Id, user: Id, role: Role)
    requires s.tables.MemberRole(org, owner) == Some(OWNER) && role in ALLOWED_ROLES
    requires s.tables.MemberRole(org, user).None? && org in s.tables.orgs && user in s.tables.users
    ensures var c := OnOrg(AddMember(org, owner, user, role));
      && Enabled(s, c)
      && Apply(s, c) == Answer(s.(tables := s.tables.(members := s.tables.members[(org, user) := role])), 200, [])
  {
    assert s.issued + {} == s.issued;
  }

  lemma RemoveMemberStep(s: State, org: Id, owner: Id, user: Id)
    requires s.tables.MemberRole(org, owner) == Some(OWNER) && s.tables.MemberRole(org, user) == Some(MEMBER)
    ensures var c := OnOrg(RemoveMember(org, owner, user));
      && Enabled(s, c)
      && Apply(s, c) == Answer(s.(tables := s.tables.(members := s.tables.members - {(org, user)})), 200, [])
  {
    assert s.issued + {} == s.issued;
  }

  lemma TransferStep(s: State, org: Id, owner: Id, user: Id)
    requires s.tables.MemberRole(org, owner) == Some(OWNER) && s.tables.MemberRole(org, user) == Some(MEMBER) && owner != user
    ensures var c := OnOrg(Transfer(org, owner, user));
      && Enabled(s, c)
      && Apply(s, c) == Answer(s.(tables := s.tables.(members := s.tables.members[(org, user) := OWNER][(org, owner) := ADMIN])), 200, [])
  {
    assert s.issued + {} == s.issued;
  }

  lemma DeleteOrgStep(s: State, org: Id, owner: Id)
    requires s.tables.MemberRole(org, owner) == Some(OWNER) && org in s.tables.orgs
    ensures var c := OnOrg(DeleteOrg(org, owner));
      && Enabled(s, c)
      && Apply(s, c) == Answer(s.(tables := CutOrg(s.tables, org)), 200, [])
  {
    assert s.issued + {} == s.issued;
  }

  lemma CreateInviteStep(s: State, org: Id, owner: Id, role: Role, h: Id)
    requires s.tables.MemberRole(org, owner) == Some(OWNER) && role in ALLOWED_ROLES && h !in s.issued
    ensures var c := OnInvite(CreateInvite(org, owner, role, None, h));
      && Enabled(s, c)
      && Apply(s, c) == Answer(s.(store := SetAdd(SetJson(s.store, s.clock, InviteKey(h), InviteJson(org, role, owner, s.clock), INVITE_TTL), IndexKey(org), h),
                                  issued := s.issued + {h}), 200, [])
  {
  }

  /** A join by a live invite of time 0 to an organisation that exists. */
  lemma JoinByInviteStep(s: State, org: Id, role: Role, issuer: Id, h: Id, user: Id)
    requires s.clock == 0 && s.store == SetAdd(SetJson(map[], 0, InviteKey(h), InviteJson(org, role, issuer, 0), INVITE_TTL), IndexKey(org), h)
    requires org in s.tables.orgs && user in s.tables.users && s.tables.MemberRole(org, user).None?
    ensures var c := OnInvite(Join(h, user));
      && Enabled(s, c)
      && Apply(s, c).status == 200
      && Apply(s, c).state.tables == s.tables.(members := s.tables.members[(org, user) := role])
  {
  }

  lemma CreateProjectStep(s: State, project: Id, org: Id, owner: Id)
    requires s.tables.MemberRole(org, owner) == Some(OWNER) && org in s.tables.orgs && owner in s.tables.users
    requires project !in s.issued && project !in s.tables.projects
    ensures var c := OnWork(CreateProject(project, org, owner, "work"));
      && Enabled(s, c)
      && Apply(s, c) == Answer(s.(tables := s.tables.(projects := s.tables.projects[project := Project(org, "work", owner)]),
                                  issued := s.issued + {project}), 200, [])
  {
  }

  lemma CreateTaskStep(s: State, task: Id, project: Id, org: Id, owner: Id, title: string)
    requires s.tables.MemberRole(org, owner) == Some(OWNER) && org in s.tables.orgs && owner in s.tables.users
    requires project in s.tables.projects && s.tables.projects[project].org == org && |title| <= MAX_TITLE
    requires task !in s.issued && task !in s.tables.tasks
    ensures var c := OnWork(CreateTask(task, org, project, owner, title, None, TODO));
      && Enabled(s, c)
      && Apply(s, c) == Answer(s.(tables := s.tables.(tasks := s.tables.tasks[task := Task(org, project, title, None, TODO, owner, None)]),
                                  issued := s.issued + {task}), 200, [])
  {
  }

  function Assign(user: Id): Patch {
    Patch(None, None, None, Some(Some(user)))
  }

  lemma AssignStep(s: State, task: Id, owner: Id, user: Id)
    requires task in s.tables.tasks && s.tables.tasks[task].assignedTo.None? && user in s.tables.users
    requires var org := s.tables.tasks[task].org; s.tables.MemberRole(org, owner) == Some(OWNER) && s.tables.MemberRole(org, user).Some?
    ensures var c, row := OnWork(UpdateTask(task, owner, Assign(user))), s.tables.tasks[task];
      && Enabled(s, c)
      && Apply(s, c) == Answer(s.(tables := s.tables.(tasks := s.tables.tasks[task := row.(assignedTo := Some(user))])), 200,
                               [EventText.AssignmentEvent(row.org, row.project, task, user, owner, row.title, s.clock)])
  {
    assert s.issued + {} == s.issued;
  }

  /* ---------------- The common beginning ---------------- */

  /** An owner and another user, an organisation with both, a project, and a task assigned to the other user. */
  datatype Cast = Cast(owner: Id, user: Id, org: Id, project: Id, task: Id) {
    predicate Distinct() {
      && owner != user && owner != org && owner != project && owner != task && user != org && user != project && user != task
      && org != project && org != task && project != task
    }
  }

  function Team(k: Cast): seq<Call> {
    [OnAuth(Register(k.owner, "secret")), OnAuth(Register(k.user, "secret")), OnOrg(CreateOrg(k.org, k.owner, "team")),
     OnOrg(AddMember(k.org, k.owner, k.user, MEMBER))]
  }

  function TeamState(k: Cast): State {
    State(Tables(map[k.owner := User(false, "secret"), k.user := User(false, "secret")],
                 map[k.org := Org("team", k.owner)],
                 map[(k.org, k.owner) := OWNER, (k.org, k.user) := MEMBER],
                 map[], map[]),
          map[], 0, {k.owner, k.user, k.org})
  }

  /** Any story that begins with the team. */
  lemma TeamForms(k: Cast, calls: seq<Call>)
    requires k.Distinct() && Team(k) <= calls
    ensures Reaches(calls, 4, TeamState(k))
    ensures forall n :: 0 <= n < 4 ==> Reply(Start(0), calls, n).events == []
    ensures Reply(Start(0), calls, 2).status == 200 && IsOwner(At(Start(0), calls, 3).tables, k.org, k.owner)
  {
    hide Reaches, Apply, Enabled;
    Begin(calls);
    var s0 := Start(0);
    RegisterStep(s0, k.owner);
    Then(calls, 0, s0);
    var s1 := Apply(s0, calls[0]).state;
    RegisterStep(s1, k.user);
    Then(calls, 1, s1);
    var s2 := Apply(s1, calls[1]).state;
    CreateOrgStep(s2, k.org, k.owner);
    Then(calls, 2, s2);
    var s3 := Apply(s2, calls[2]).state;
    AddMemberStep(s3, k.org, k.owner, k.user, MEMBER);
    Then(calls, 3, s3);
    assert Apply(s3, calls[3]).state == TeamState(k);
  }

  /** The owner makes a project with a task, and assigns it to the other user. */
  function Work(k: Cast, title: string): seq<Call> {
    [OnWork(CreateProject(k.project, k.org, k.owner, "work")),
     OnWork(CreateTask(k.task, k.org, k.project, k.owner, title, None, TODO)),
     OnWork(UpdateTask(k.task, k.owner, Assign(k.user)))]
  }

  function WorkState(k: Cast, title: string): State {
    var s := TeamState(k);
    s.(tables := s.tables.(projects := map[k.project := Project(k.org, "work", k.owner)],
                           tasks := map[k.task := Task(k.org, k.project, title, None, TODO, k.owner, Some(k.user))]),
       issued := s.issued + {k.project, k.task})
  }

  lemma WorkIsDone(k: Cast, title: string, calls: seq<Call>)
    requires k.Distinct() && |title| <= MAX_TITLE && Team(k) + Work(k, title) <= calls
    ensures Reaches(calls, 7, WorkState(k, title))
    ensures forall n :: 0 <= n < 6 ==> Reply(Start(0), calls, n).events == []
    ensures At(Start(0), calls, 6).clock == 0
    ensures Reply(Start(0), calls, 6).events == [EventText.AssignmentEvent(k.org, k.project, k.task, k.user, k.owner, title, 0)]
  {
    hide Reaches, Apply, Enabled;
    var done := Team(k) + Work(k, title);
    assert Team(k) <= calls by { assert calls[..7] == done; assert calls[..4] == done[..4]; }
    TeamForms(k, calls);
    var s4 := TeamState(k);
    assert forall n :: 0 <= n < 7 ==> calls[n] == done[n];
    CreateProjectStep(s4, k.project, k.org, k.owner);
    Then(calls, 4, s4);
    var s5 := Apply(s4, calls[4]).state;
    CreateTaskStep(s5, k.task, k.project, k.org, k.owner, title);
    Then(calls, 5, s5);
    var s6 := Apply(s5, calls[5]).state;
    AssignStep(s6, k.task, k.owner, k.user);
    Then(calls, 6, s6);
    assert Apply(s6, calls[6]).state == WorkState(k, title);
  }

  /* ---------------- The stories ---------------- */

  /** A run after which an assignee is no member: the owner removes the user to whom the task is assigned. */
  lemma RemovalStrandsAnAssignee(k: Cast)
    requires k.Distinct()
    ensures var calls := Team(k) + Work(k, "plan") + [OnOrg(RemoveMember(k.org, k.owner, k.user))];
      && Valid(Start(0), calls)
      && AssigneesAreMembers(At(Start(0), calls, 7).tables)
      && Stranded(At(Start(0), calls, 8).tables, k.task)
  {
    hide Reaches, Apply, Enabled, Valid, At, Start;
    var calls := Team(k) + Work(k, "plan") + [OnOrg(RemoveMember(k.org, k.owner, k.user))];
    WorkIsDone(k, "plan", calls);
    var s7 := WorkState(k, "plan");
    RemoveMemberStep(s7, k.org, k.owner, k.user);
    Then(calls, 7, s7);
    WholeRun(calls, Apply(s7, calls[7]).state);
  }

  /** A run in which an owner's grant chain passes through somebody demoted before the grant was taken up: the founder
      issues an OWNER invite, hands ownership over, and only then the newcomer joins. */
  lemma DemotedIssuer(k: Cast, newcomer: Id, h: Id)
    requires k.Distinct() && newcomer != h && newcomer !in {k.owner, k.user, k.org} && h !in {k.owner, k.user, k.org}
    ensures var calls := Team(k) + [OnAuth(Register(newcomer, "secret")), OnInvite(CreateInvite(k.org, k.owner, OWNER, None, h)),
                                    OnOrg(Transfer(k.org, k.owner, k.user)), OnInvite(Join(h, newcomer))];
      && Valid(Start(0), calls)
      && Provenance(Start(0), calls, k.org, newcomer, Granted(7, 5, k.owner, Founded(2)), 8)
      && !IsOwner(At(Start(0), calls, 7).tables, k.org, k.owner)
  {
    hide Reaches, Apply, Enabled, Valid, At, Start;
    var calls := Team(k) + [OnAuth(Register(newcomer, "secret")), OnInvite(CreateInvite(k.org, k.owner, OWNER, None, h)),
                            OnOrg(Transfer(k.org, k.owner, k.user)), OnInvite(Join(h, newcomer))];
    TeamForms(k, calls);
    var s4 := TeamState(k);
    RegisterStep(s4, newcomer);
    Then(calls, 4, s4);
    var s5 := Apply(s4, calls[4]).state;
    CreateInviteStep(s5, k.org, k.owner, OWNER, h);
    Then(calls, 5, s5);
    var s6 := Apply(s5, calls[5]).state;
    TransferStep(s6, k.org, k.owner, k.user);
    Then(calls, 6, s6);
    var s7 := Apply(s6, calls[6]).state;
    JoinByInviteStep(s7, k.org, OWNER, k.owner, h, newcomer);
    Then(calls, 7, s7);
    WholeRun(calls, Apply(s7, calls[7]).state);
    hide Reply;
    assert IsOwner(s4.tables, k.org, k.owner) && IsOwner(s5.tables, k.org, k.owner);
    assert Provenance(Start(0), calls, k.org, k.owner, Founded(2), 5) by { assert Founds(calls[2], k.org, k.owner); }
    assert OffersOwnership(calls[5], k.org, k.owner, h) && Accepts(calls[7], h, newcomer);
    assert IsOwner(At(Start(0), calls, 8).tables, k.org, newcomer) by { LastState(calls, 7, s7); }
  }

  /** A run in which a join burns an invite for nothing: the organisation has been deleted. */
  lemma DeletedOrgBurnsInvite(k: Cast, newcomer: Id, h: Id)
    requires k.Distinct() && newcomer != h && newcomer !in {k.owner, k.user, k.org} && h !in {k.owner, k.user, k.org}
    ensures var calls := Team(k) + [OnAuth(Register(newcomer, "secret")), OnInvite(CreateInvite(k.org, k.owner, MEMBER, None, h)),
                                    OnOrg(DeleteOrg(k.org, k.owner)), OnInvite(Join(h, newcomer))];
      && Valid(Start(0), calls)
      && Live(At(Start(0), calls, 7).store, 0, InviteKey(h))
      && FateAt(Start(0), calls, 8, h) == Consumed(k.org, MEMBER, newcomer, false)
      && InviteKey(h) !in At(Start(0), calls, 8).store
      && At(Start(0), calls, 8).tables == At(Start(0), calls, 7).tables
  {
    hide Reaches, Apply, Enabled, Valid, At, Start, FateAt;
    var calls := Team(k) + [OnAuth(Register(newcomer, "secret")), OnInvite(CreateInvite(k.org, k.owner, MEMBER, None, h)),
                            OnOrg(DeleteOrg(k.org, k.owner)), OnInvite(Join(h, newcomer))];
    TeamForms(k, calls);
    var s4 := TeamState(k);
    RegisterStep(s4, newcomer);
    Then(calls, 4, s4);
    var s5 := Apply(s4, calls[4]).state;
    CreateInviteStep(s5, k.org, k.owner, MEMBER, h);
    Then(calls, 5, s5);
    var s6 := Apply(s5, calls[5]).state;
    DeleteOrgStep(s6, k.org, k.owner);
    Then(calls, 6, s6);
    var s7 := Apply(s6, calls[6]).state;
    BurnStep(s7, k.org, MEMBER, k.owner, h, newcomer);
    Then(calls, 7, s7);
    var s8 := Apply(s7, calls[7]).state;
    WholeRun(calls, s8);
    Accounting(0, calls, 7, h);
    assert FateAt(Start(0), calls, 7, h) == Outstanding(k.org, MEMBER, k.owner, 0, INVITE_TTL);
    NextFateAt(calls, 7, h);
  }

  lemma NextFateAt(calls: seq<Call>, n: nat, h: Id)
    requires n < |calls|
    ensures FateAt(Start(0), calls, n + 1, h) == NextFate(FateAt(Start(0), calls, n, h), At(Start(0), calls, n), calls[n], h)
  {
    hide Apply, Start, NextFate;
  }

  lemma BurnStep(s: State, org: Id, role: Role, issuer: Id, h: Id, user: Id)
    requires s.clock == 0 && s.store == SetAdd(SetJson(map[], 0, InviteKey(h), InviteJson(org, role, issuer, 0), INVITE_TTL), IndexKey(org), h)
    requires org !in s.tables.orgs && s.tables.MemberRole(org, user).None?
    ensures var c := OnInvite(Join(h, user));
      && Enabled(s, c)
      && Apply(s, c).status == 500
      && Apply(s, c).state.tables == s.tables
      && Live(s.store, 0, InviteKey(h)) && InviteKey(h) !in Apply(s, c).state.store
  {
  }

  lemma TickStep(s: State, seconds: nat)
    ensures Enabled(s, Tick(seconds)) && Apply(s, Tick(seconds)) == Answer(s.(clock := s.clock + seconds), 200, [])
  {
    assert s.issued + {} == s.issued;
  }

  lemma RowsStep(calls: seq<Call>, n: nat)
    requires n < |calls|
    ensures EndToEnd.RowsOf(Start(0), calls, n + 1)
         == EndToEnd.RowsOf(Start(0), calls, n)
            + var events := Reply(Start(0), calls, n).events;
              if events == [] then [] else [Outbox.NewRow(Outbox.TaskAssigned, Outbox.Object(events[0]), At(Start(0), calls, n).clock)]
  {
    hide Apply, At, Start;
  }

  lemma {:induction false} NoRowsYet(calls: seq<Call>, n: nat)
    requires n <= |calls| && forall k :: 0 <= k < n ==> Reply(Start(0), calls, k).events == []
    ensures EndToEnd.RowsOf(Start(0), calls, n) == []
  {
    hide Apply, At, Start, EndToEnd.RowFor, Reply;
    if n > 0 {
      NoRowsYet(calls, n - 1);
      RowsStep(calls, n - 1);
    }
  }

  function Announced(k: Cast, title: string): seq<Call> {
    Team(k) + Work(k, title) + [Tick(1)]
  }

  function RowOf(k: Cast, title: string): Outbox.Row {
    Outbox.NewRow(Outbox.TaskAssigned, Outbox.Object(EventText.AssignmentEvent(k.org, k.project, k.task, k.user, k.owner, title, 0)), 0)
  }

  lemma AnnouncedRuns(k: Cast, title: string)
    requires k.Distinct() && |title| <= MAX_TITLE
    ensures Valid(Start(0), Announced(k, title)) && At(Start(0), Announced(k, title), 8).clock == 1
    ensures EndToEnd.RowsOf(Start(0), Announced(k, title), 8) == [RowOf(k, title)]
  {
    hide Reaches, Apply, Enabled, Valid, At, Start, Reply, EndToEnd.RowFor, EndToEnd.RowsOf, EventText.AssignmentEvent;
    var calls, s7 := Announced(k, title), WorkState(k, title);
    WorkIsDone(k, title, calls);
    TickStep(s7, 1);
    Then(calls, 7, s7);
    WholeRun(calls, Apply(s7, calls[7]).state);
    NoRowsYet(calls, 6);
    RowsStep(calls, 6);
    RowsStep(calls, 7);
  }

  /** A run of service calls that each succeed, from an empty system, after which a lone dispatcher is blocked for good
      whatever its limit: a permitted title that escapes to more than 1680 characters, and one assignment. */
  lemma OneTitleBlocks(k: Cast, title: string, w: Workers.WorkerId, limit: nat)
    requires k.Distinct() && |title| <= MAX_TITLE && EventText.TextWidth(title) > 1680 && limit > 0
    requires |k.owner| == |k.user| == |k.org| == |k.project| == |k.task| == EventText.UUID_WIDTH
    ensures var moves := EndToEnd.MovesOf(Announced(k, title));
      && Valid(Start(0), Announced(k, title))
      && EndToEnd.Valid(0, moves) && EndToEnd.CallsOf(moves) == Announced(k, title)
      && Blocking.Blocked(EndToEnd.SysOf(0, moves), w, 0, limit) && Blocking.Earlier(EndToEnd.SysOf(0, moves), 0)
  {
    hide Announced, RowOf, Apply, Enabled, Valid, At, Start, EndToEnd.RowsOf, EndToEnd.Valid, EndToEnd.StepsOf, EndToEnd.MovesOf,
      EndToEnd.CallsOf, EndToEnd.SysOf, EndToEnd.StateOf, Workers.Inv, Workers.Valid, Blocking.Blocked;
    assert |Announced(k, title)| == 8 by { EightCalls(k, title); }
    AnnouncedRuns(k, title);
    var moves := EndToEnd.MovesOf(Announced(k, title));
    EndToEnd.ServicesAlone(0, Announced(k, title));
    EndToEnd.ValidOutbox(0, moves);
    EndToEnd.SysInv(0, moves);
    assert EndToEnd.SysOf(0, moves).clock == 1 by { ClockOf(moves, Announced(k, title)); }
    BlockedByTitle(EndToEnd.SysOf(0, moves), k, title, w, limit);
  }

  /** There is such a title, so there is such a run. */
  lemma SomeRunBlocks(k: Cast, w: Workers.WorkerId, limit: nat) returns (title: string)
    requires k.Distinct() && limit > 0
    requires |k.owner| == |k.user| == |k.org| == |k.project| == |k.task| == EventText.UUID_WIDTH
    ensures |title| <= MAX_TITLE && Valid(Start(0), Announced(k, title))
    ensures var moves := EndToEnd.MovesOf(Announced(k, title));
      && EndToEnd.Valid(0, moves)
      && Blocking.Blocked(EndToEnd.SysOf(0, moves), w, 0, limit) && Blocking.Earlier(EndToEnd.SysOf(0, moves), 0)
  {
    hide Announced, Apply, Enabled, Valid, At, Start, EndToEnd.Valid, EndToEnd.StepsOf, EndToEnd.MovesOf, EndToEnd.SysOf,
      Blocking.Blocked, Blocking.Earlier, EventText.TextWidth;
    EventText.SomePermittedTitleDoesNotFit();
    title := seq(200, _ => '\U{1F600}');
    OneTitleBlocks(k, title, w, limit);
  }

  lemma EightCalls(k: Cast, title: string)
    ensures |Announced(k, title)| == 8
  {
  }

  lemma ClockOf(moves: seq<EndToEnd.Move>, calls: seq<Call>)
    requires EndToEnd.Valid(0, moves) && EndToEnd.CallsOf(moves) == calls
    ensures EndToEnd.SysOf(0, moves).clock == At(Start(0), calls, |calls|).clock
  {
    hide Apply, At, Start, EndToEnd.Valid, EndToEnd.SysOf, EndToEnd.StepsOf;
    EndToEnd.Synchronised(0, moves);
  }

  lemma BlockedByTitle(d: Workers.Sys, k: Cast, title: string, w: Workers.WorkerId, limit: nat)
    requires Workers.Inv(d) && d.workers == map[] && d.clock == 1 && limit > 0
    requires d.db.rows == [RowOf(k, title)]
    requires EventText.TextWidth(title) > 1680
    requires |k.owner| == |k.user| == |k.org| == |k.project| == |k.task| == EventText.UUID_WIDTH
    ensures Blocking.Blocked(d, w, 0, limit) && Blocking.Earlier(d, 0)
  {
    hide Workers.Inv;
    assert Outbox.Oversized(d.db.rows[0]);
    assert Blocking.Ahead(d.db.rows, 0) == {};
  }
}
