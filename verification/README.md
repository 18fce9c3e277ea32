# TaskFlow: a verified model

A Dafny model of the TaskFlow backend: the notification outbox and its concurrent dispatchers, organisation
membership, the invite store in Redis, projects, tasks and their cascades, refresh sessions and one-time tokens.
`dafny verify dfyconfig.toml` checks it all.

## How it is laid out

The model has three layers.

**Transitions.** `Redis` is the key-value store with its time limits, `Tables` the relational tables with what the
database enforces, `Calls` every service call as one step on both, and `Outbox` the rows, verdicts and claim query of
the outbox. A state reached by calls from an empty system is `Calls.At(Start(now), calls, n)`.

**The services as written.** `RedisClient.Client`, `Database.Session` and `NotificationService.DispatchSession` are
the mutable objects; `OrganizationService`, `ProjectService`, `TaskService`, `AuthService` and `NotificationService`
are the methods, statement by statement, on string keys and mapped row objects. Each is proved to do exactly what the
transition of the same name does, including its error replies, in the order the source checks them.

**Theorems.** The other modules prove properties of all runs of the transitions:

- *Outbox.* `Workers` interleaves any number of dispatchers statement by statement, with row locks, private copies,
  commits and aborts. Every such run is serialisable (`Workers.Serialisable`) and delivers each SENT row exactly once
  (`Workers.ExactlyOnceDelivery`). `RowLives` tells every column of a row from the times it was handled, and `Backoff`
  bounds how often it can fail. `Drain` says exactly when a lone dispatcher can empty the outbox and counts its
  dispatches; `Blocking` says exactly when a row stops it for good. `EndToEnd` joins services and dispatchers: a task's
  notifications are the changes of its assignee.
- *Organisations.* `Integrity` and `StoreIntegrity` hold the invariant of all reachable states, `Outcomes` when each call
  succeeds and all it then changes, `Authority` who may change what, `Owners` where ownership comes from, `Assignees`
  who stays a member, `Isolation` that organisations do not influence each other.
- *Invites.* `Invites` accounts for every invite, `InviteProtocol` interleaves the invite calls one Redis command at a
  time, `Undisturbed` shows that without interleaving they are the one-step calls, and
  `OrganizationService.ListInvites` with `OrganizationService.ListingIsTheQuery` is the refinement of the pruning loop
  to a plain query.
- *Witnesses.* `Witnesses` has runs from an empty system that reach the surprising cases below.
- *Tokens.* `Tokens` has refresh families and single use; `RedisText` and `KeySpaces` the separation of the keys as
  strings.

## What the proofs brought to light

- A row is judged by its type and text alone, and neither ever changes. So a FAILED row fails on every retry and never
  becomes SENT, and a SENT row has `attempts` 0 (`Backoff.DeliverableOnce`, `Backoff.FailuresSpread`).
- An assignment's notification fits its 2000-character column if and only if the title takes at most 1680 characters
  once escaped by `json.dumps` (`EventText.AssignmentFits`). Every permitted title within the basic plane does; 200
  characters beyond it take 2400. Such a row is never SENT and never FAILED, in any run
  (`Workers.OversizedNeverSettles`): whoever claims it rolls the whole batch back. A batch commits if and only if all
  its rows can be flushed (`NotificationService.DispatchOutbox`).
- So a lone dispatcher can empty the outbox if and only if every open row can be flushed (`Drain.DrainsExactlyIf`); a
  row that cannot stays as it is until its assignee is registered (`Drain.UnflushableStays`). And one that claims L rows
  at a time (the program claims 100) can ever commit again if and only if no unsent oversized row has fewer than L
  unsent rows that fit and are no younger than it (`Blocking.CommitsExactlyIf`). A registered user, an organisation, a
  project, a task with such a title and its assignment are enough to get there (`Witnesses.OneTitleBlocks`).
- Removing a member does not unassign tasks, so "every assignee is a member" is not an invariant
  (`Witnesses.RemovalStrandsAnAssignee`). It is broken exactly by removing a member who has a task assigned
  (`Assignees.OnlyRemovalStrands`). "Every assignee was a member when assigned" is an invariant
  (`Assignments.AssigneeWasMember`).
- Joining by an invite to an organisation that has been deleted uses the invite up for nothing
  (`Invites.JoinOutcomes`; `Witnesses.DeletedOrgBurnsInvite` is such a run). Joining again as a member leaves the invite
  intact.
- An OWNER invite outlives its issuer's ownership: a grant chain may pass through somebody demoted before the invite
  was used (`Witnesses.DemotedIssuer`).

## Conventions

- An identifier is its canonical text, and a token is identified with its hash: hashing does not collide on issued
  tokens. What is drawn at random is a parameter of the call that draws it; `Calls.Enabled` says it is new.
- Time is in whole seconds. A record is live until its expiry, and its remaining time is the difference.
- Settings have their default values.
- A reply is an HTTP status; a database error nobody catches is 500. A call that fails leaves the tables as they were,
  but what it did in Redis stands.
- Rows of the outbox are named by their place in insertion order.

## Model

| member | source | states |
|---|---|---|
| Workers.OneHolder | app/modules/notifications/repository.py:83-95 | In every state that keeps the invariant no outbox row is held by two dispatchers |
| Workers.InvKept | app/modules/notifications/service.py:99-133 | Every step of any dispatcher keeps locks consistent with claims and every private copy equal to the committed row it was loaded from |
| Workers.PublishIsBatch | app/modules/notifications/service.py:105-132 | Writing private row versions back at commit equals handling the rows one after the other on the tables |
| Workers.Serialisable | app/modules/notifications/service.py:99-133 | The committed tables after any interleaving of dispatchers, enqueues and aborts are those of the committed batches run whole in commit order, each over distinct rows eligible at its turn |
| Workers.ExactlyOnceDelivery | app/modules/notifications/service.py:99-133 | In every reachable state each SENT row has exactly its one notification, to its event's assignee, every other row none, every row is in a lawful state, and no row has two holders |
| Workers.PublishOnlyIfAllFlush | app/modules/notifications/service.py:83-88 | A batch is committed only if every row of it passes the flush |
| Workers.DispatchRuns | app/modules/notifications/service.py:99-133 | A claimed batch whose rows all pass the flush can run to its commit, and undisturbed it is one serial batch |
| Workers.StampIsLater | app/modules/notifications/service.py:101-105 | The time a dispatch works with is read after its claim |
| Workers.TextKept | app/modules/notifications/service.py:117-127 | No step changes a row's type or text |
| Workers.OversizedNeverSettles | app/modules/notifications/models.py:27 | In every run a deliverable row over the column width stays PENDING |
| Blocking.ClaimTakesOversized | app/modules/notifications/repository.py:83-95 | A claim of at least L rows holds an oversized row whenever some unsent one has fewer than L fitting unsent rows no younger than it |
| Blocking.CannotPublish | app/modules/notifications/service.py:83-88 | A dispatcher holding an oversized row cannot commit |
| Blocking.OversizedBlocksForGood | app/modules/notifications/service.py:129-132 | From then on no run of a lone dispatcher claiming at least L rows at a time, with aborts, registrations, time passing and enqueues in later seconds, commits, changes a row or delivers anything |
| Blocking.CommitsExactlyIf | app/infra/celery_app.py:22-27 | While something is unsent, some run of a lone dispatcher claiming L rows at a time commits a batch if and only if no unsent oversized row has fewer than L fitting unsent rows no younger than it |
| Witnesses.OneTitleBlocks | app/modules/tasks/service.py:133-161 | For every permitted title that escapes to over 1680 characters, a run of successful service calls from an empty system, ending in an assignment, leaves a lone dispatcher blocked for good whatever its limit |
| Witnesses.SomeRunBlocks | app/modules/tasks/schemas.py:27-28 | There is such a title of at most 200 characters, and so such a run |
| NotificationService.CreateNotificationFromEvent | app/modules/notifications/service.py:71-88 | It raises exactly for an unsupported type or a missing or bad assignee, fails at the flush exactly for an unknown user or an oversized payload, and else inserts the one notification |
| NotificationService.ClaimOutboxBatch | app/modules/notifications/repository.py:81-96 | Each claimed row is loaded as an object of its own holding the committed values |
| NotificationService.HandleRow | app/modules/notifications/service.py:106-130 | One pass changes the row to its processed version, which `RowLives` tells column by column, and adds its notification, or ends the dispatch exactly when the flush fails |
| NotificationService.HandleRows | app/modules/notifications/service.py:103-130 | The loop succeeds if and only if all rows flush, and then it has processed each of them and counted them |
| NotificationService.DispatchOutbox | app/modules/notifications/service.py:99-133 | The whole batch commits as if handled row by row if and only if all of it flushes; otherwise nothing changes |
| NotificationService.Commit | app/modules/notifications/service.py:132-132 | The commit writes exactly the claimed rows' versions and the added notifications |
| Serial.BatchRows | app/modules/notifications/service.py:105-130 | A batch changes each named row once, to its processed version, and no other row |
| Serial.ReplayConsistent | app/modules/notifications/service.py:107-132 | In every serial run SENT rows and notifications are in bijection, and PENDING, FAILED and SENT rows carry exactly the attempts, error and times their status allows |
| Serial.RowsOnlyAdvance | app/modules/notifications/service.py:117-127 | Between any two moments of a run a row keeps its text, SENT is final, and attempts never fall |
| Backoff.DelayRange | app/modules/notifications/service.py:126-127 | Each delay is monotone in attempts and lies in 2 to 256: the cap of 300 never binds |
| Backoff.SpreadStep | app/modules/notifications/service.py:126-127 | The closed form of the total delay grows by exactly the next delay |
| Backoff.FailuresSpread | app/modules/notifications/service.py:122-127 | Attempts equal the committed failures of a rejected row, and consecutive ones are at least a delay apart |
| Backoff.BackoffBound | app/modules/notifications/service.py:122-127 | After n failures the next retry is at least S(n) after the first, and any k + 1 failures take at least S(k) seconds |
| Backoff.DeliverableOnce | app/modules/notifications/service.py:112-120 | A deliverable row never fails and is handled exactly once, when it becomes SENT |
| RowLives.LifeOfARow | app/modules/notifications/service.py:105-130 | In every run, told from the times at which dispatches handled a row: never handled it is as inserted; an assignment was handled once, its sent time is that time, and it has its one notification; any other failed each time, keeps the first 1000 characters of its error and is due 2, 4, up to 256 seconds after the last |
| RowLives.LifeUnderDispatchers | app/modules/notifications/service.py:99-133 | The same of any dispatchers interleaved in any way |
| RowLives.OpenExactly | app/modules/notifications/repository.py:82-91 | A row is open exactly if it was never handled, or was rejected and its wait is over |
| RowLives.BatchNotes | app/modules/notifications/service.py:112-116 | A batch adds the one notification of each of its deliverable rows and of no other row |
| Claims.ClaimBatch | app/modules/notifications/repository.py:81-96 | The claim query always has an answer: the oldest open rows, as many as the limit allows |
| Drain.DispatchCloses | app/modules/notifications/service.py:99-133 | A lone dispatch whose claimed rows all flush runs to its commit and makes exactly its min(limit, n) claimed rows ineligible |
| Drain.UnflushableStays | app/modules/notifications/service.py:83-88 | A row that cannot be flushed stays as it is through every run of any dispatchers at whose end it still cannot |
| Drain.EveryRunIsRounds | app/modules/notifications/service.py:99-133 | What a lone dispatcher commits at a fixed clock, whatever it aborts, is a series of rounds, each claiming what is then open and flushing all of it |
| Drain.DrainTheorem | app/modules/notifications/service.py:99-133 | In every run of a lone dispatcher at a fixed clock the rows committed are the oldest open ones, oldest first and each once, and the outbox is empty if and only if it has committed ceil(n / limit) times |
| Drain.CanDrain | app/modules/notifications/service.py:99-133 | If every open row flushes, some run of the lone dispatcher empties the outbox |
| Drain.DrainsExactlyIf | app/modules/notifications/service.py:83-132 | Some run of the lone dispatcher at a fixed clock empties the outbox if and only if every open row flushes |
| EventText.AssignmentFits | app/modules/tasks/service.py:140-148 | An assignment's own event always decodes to its assignee, and flushes if and only if the assignee is registered and the escaped title is at most 1680 characters |
| EventText.WidthIsLength | app/modules/tasks/service.py:140-148 | The width of a title is the length of what json.dumps writes for it, escape by escape |
| EventText.SizeIsLength | app/modules/notifications/service.py:64-69 | The size of an assignment event is the length of its JSON text, keys, quotes and separators included |
| EventText.BasicPlaneTitlesFit | app/modules/tasks/schemas.py:27-28 | Every title of at most 200 characters of the basic plane fits |
| EventText.SomePermittedTitleDoesNotFit | app/modules/tasks/schemas.py:27-28 | A permitted title exists that does not fit |
| EndToEnd.ServicesAlone | app/modules/tasks/service.py:150-155 | Every run of service calls is a run of the whole system that leaves dispatchers idle and inserts exactly the rows of its events |
| EndToEnd.Synchronised | app/modules/notifications/models.py:20-24 | Services and dispatchers agree on the clock and on the registered users in every run |
| EndToEnd.TaskRowsMatch | app/modules/tasks/service.py:133-155 | The rows the services insert for a task carry, in order, the targets of the task's events, in every run with dispatchers alongside |
| EndToEnd.AssignmentsAreDelivered | app/modules/notifications/service.py:64-88 | For every task and run the outbox rows naming it match one for one, in order, the changes of its assignee to a new user; each has at most one notification, to that assignee, and exactly one once SENT |
| Assignments.UpdateTaskEvents | app/modules/tasks/service.py:133-150 | An update emits one event, for the new assignee, exactly when the assignee is set and differs from before, and no other task's assignee moves |
| Assignments.AssignmentStep | app/modules/tasks/service.py:98-169 | What any call does to a task's assignee is what its events for the task tell |
| Assignments.EventsAreChanges | app/modules/tasks/service.py:133-155 | Over any run the events naming a task are, in order, the places in its committed assignee history where the value is set and differs from the one before |
| Assignments.AssigneeWasMember | app/modules/tasks/service.py:123-131 | Whoever is assigned was assigned by a successful call of the run, since which the task has been theirs, on a manager's request, while a member of the task's organisation |
| Assignees.OnlyRemovalStrands | app/modules/organizations/service.py:138-160 | From a reachable state where every assignee is a member, a call breaks that if and only if it is a successful removal of a member to whom a task of the organisation is assigned |
| Witnesses.RemovalStrandsAnAssignee | app/modules/organizations/service.py:157-160 | A run from an empty system after which an assignee is no member |
| Integrity.TransferHandsOver | app/modules/organizations/service.py:247-266 | A transfer moves OWNER from requester to target, keeps the owner count, has one more between its two updates, and changes no third party's role |
| Integrity.OrgCallKeeps | app/modules/organizations/service.py:38-160 | Every organisation call keeps references intact, roles allowed and every organisation owned |
| Integrity.ChangeRoleOwned | app/modules/organizations/service.py:128-131 | The guard on demoting suffices to keep an owner |
| Integrity.RemoveMemberOwned | app/modules/organizations/service.py:150-155 | The guard on removing suffices to keep an owner |
| Integrity.TransferOwned | app/modules/organizations/service.py:258-264 | After a transfer every organisation still has an owner |
| Integrity.CutOrgSound | app/modules/tasks/models.py:24-34 | Deleting an organisation with its cascades leaves no dangling reference |
| Integrity.UpdateTaskSound | app/modules/tasks/service.py:117-135 | An update leaves the task in its project and organisation with an allowed status and a registered assignee |
| Integrity.WorkCallKeeps | app/modules/projects/service.py:20-65 | Every project and task call keeps references intact and organisations owned |
| Integrity.AuthCallTables | app/modules/auth/service.py:224-302 | Session and token calls touch no table but users, and add a user only by registering |
| Integrity.InviteCallKeeps | app/modules/organizations/service.py:268-293 | Invite calls keep references intact and organisations owned |
| StoreIntegrity.AuthCallKeepsInvites | app/modules/auth/service.py:127-210 | No session or token call changes an invite or an index |
| StoreIntegrity.PruneKeeps | app/modules/organizations/service.py:201-214 | Pruning an index keeps every live invite indexed |
| StoreIntegrity.InviteCallKeepsStore | app/modules/organizations/service.py:162-293 | Every invite call keeps live invites indexed, records of the right shape and one kind per token |
| StoreIntegrity.AuthCallKeepsStore | app/modules/auth/service.py:127-302 | Every session and token call keeps the same of the store |
| StoreIntegrity.CallKeepsInv | app/modules/tasks/service.py:53-69 | Every call keeps the whole invariant |
| StoreIntegrity.Reachable | app/modules/organizations/models.py:20-57 | In every reachable state references land, creators and assignees included, tasks lie in projects of their organisation, statuses and roles are allowed, every organisation has an owner, every live invite is indexed, and no token is of two kinds |
| Owners.CallNeedsOwner | app/modules/organizations/service.py:98-160 | A call no owner asked for changes no owner and creates no OWNER invite, when none is live |
| Owners.OwnersStandStill | app/modules/organizations/service.py:98-180 | A run of any length in which no owner of an organisation asks for anything, with no OWNER invite to it live, leaves its owners exactly as they were and no OWNER invite live |
| Owners.NewOwner | app/modules/organizations/service.py:98-133 | A user becomes owner only by founding, by a direct grant of an owner, or by an OWNER invite |
| Owners.OwnerInvitesIssued | app/modules/organizations/service.py:173-193 | A stored OWNER invite was created earlier in the run by somebody who was OWNER then |
| Owners.EveryOwnerHasAChain | app/modules/organizations/service.py:179-193 | In every run each OWNER membership rests on a finite chain of grants back to the organisation's creator, the last not undone since, each by somebody who was OWNER without a break up to issuing it |
| Witnesses.DemotedIssuer | app/modules/organizations/service.py:240-293 | A run in which the chain of an owner passes through somebody demoted before the grant was taken up |
| Authority.MembershipChangesAreAuthorised | app/modules/organizations/service.py:86-160 | Any change of any membership by any call is by an owner, or by a manager and not about an owner, or the user founding or taking up a live invite in the role it was issued for |
| Authority.TaskChangesAreAuthorised | app/modules/tasks/service.py:106-131 | Any change of any task by any call is one its caller may make: status by managers and the assignee, assignment by managers to members, deletion by managers and the creator, cascades by a manager or an owner |
| Outcomes.CreateOrgOutcome | app/modules/organizations/service.py:38-46 | Succeeds exactly for a registered user, with the organisation and the OWNER row and nothing else |
| Outcomes.DeleteOrgOutcome | app/modules/organizations/service.py:71-81 | 404, 403, or exactly the rows of the organisation gone |
| Outcomes.AddMemberOutcome | app/modules/organizations/service.py:98-116 | 403, 400, 409 or 500 each exactly when its check fails, or exactly the one row added |
| Outcomes.ChangeRoleOutcome | app/modules/organizations/service.py:118-136 | 403, 404 or 400 each exactly when its check fails, the last told by the owner rows themselves, or the target has the role and nothing else changed |
| Outcomes.RemoveMemberOutcome | app/modules/organizations/service.py:138-160 | 403, 404 or 400 each exactly when its check fails, or exactly the one row gone |
| Outcomes.TransferOutcome | app/modules/organizations/service.py:240-266 | 403, 400 or 404 each exactly when its check fails, or target OWNER, requester ADMIN and nothing else |
| Outcomes.CreateInviteOutcome | app/modules/organizations/service.py:162-196 | 403 or 400 each exactly when its check fails, or the record as asked for, expiring after the time asked for or a day, its hash in the index, and nothing else |
| Outcomes.ListInvitesOutcome | app/modules/organizations/service.py:198-214 | 403 to whoever does not manage, else the index holds exactly the live invites and nothing else has changed |
| Outcomes.RevokeInviteOutcome | app/modules/organizations/service.py:229-238 | 403, 404, or record and index entry gone and nothing else |
| Outcomes.JoinOutcome | app/modules/organizations/service.py:268-293 | 404, 409, or record and index entry gone with the membership as stored, or 500 without it |
| Outcomes.CreateProjectOutcome | app/modules/projects/service.py:20-39 | 403 to whoever does not manage, else exactly the one row added |
| Outcomes.DeleteProjectOutcome | app/modules/projects/service.py:50-65 | 404, 403, or exactly the project and its tasks gone |
| Outcomes.CreateTaskOutcome | app/modules/tasks/service.py:53-70 | 403, 400, 404 or 500 each exactly when its check fails, or exactly the one row added, unassigned |
| Outcomes.UpdateTaskOutcome | app/modules/tasks/service.py:98-155 | 404, 403, 400 or 500 each exactly when its check fails, or each column given has its value, each other is as it was, and one event names organisation, project, task, assignee, assigner, title and time exactly when the assignee is new |
| Outcomes.DeleteTaskOutcome | app/modules/tasks/service.py:182-199 | 404, 403 to whoever neither manages nor created it, or exactly the one row gone |
| Outcomes.RegisterOutcome | app/modules/auth/service.py:99-101 | Adds exactly one user, not verified, with the password given |
| Outcomes.LoginOutcome | app/modules/auth/service.py:141-150 | Stores exactly one session of the user, for fourteen days |
| Outcomes.RotateOutcome | app/modules/auth/service.py:167-194 | 401, or the old record gone and one new of the same user naming its predecessor, for fourteen days |
| Outcomes.LogoutOutcome | app/modules/auth/service.py:209-210 | Exactly the record is gone |
| Outcomes.AskVerifyOutcome | app/modules/auth/service.py:224-242 | 404, nothing for a verified user, or exactly one token for a day |
| Outcomes.VerifyOutcome | app/modules/auth/service.py:244-264 | The user is verified with the password kept and the token gone, or 400 with the tables as they were |
| Outcomes.AskResetOutcome | app/modules/auth/service.py:266-282 | Exactly one token for an hour, for a registered user only |
| Outcomes.ResetPasswordOutcome | app/modules/auth/service.py:284-302 | The user has the password given, verified or not as before, and the token gone, or 400 with the tables as they were |
| Isolation.OwnCall | app/modules/tasks/service.py:56-58 | A call concerning an organisation does and replies the same in two states that agree on it |
| Isolation.OtherCall | app/modules/projects/service.py:50-60 | A call that turns out to concern another organisation leaves this one's rows, live invites and index alone |
| Isolation.Isolation | app/modules/organizations/service.py:268-293 | Deleting from a run every call concerning other organisations leaves a valid run with the same members, projects, tasks, live invites and index of the chosen one, and the same replies to its callers: status, events and the items of each listing |
| Invites.Accounting | app/modules/organizations/service.py:187-194 | Over any run each issued invite is exactly one of live, expired, revoked and consumed, the store holds it as issued exactly while outstanding, and it made one member if consumed by a successful join, in exactly the organisation and role of the call that issued it, and none otherwise |
| Invites.FatesAreFinal | app/modules/organizations/service.py:229-238 | A revoked or consumed invite is never used, revoked or issued again |
| Invites.JoinOutcomes | app/modules/organizations/service.py:268-293 | A join gives exactly the invite's organisation and role, leaves the invite intact for an existing member, and burns it for a deleted organisation |
| Invites.ItemsAsIssued | app/modules/organizations/service.py:216-224 | In every reachable state each item of a listing has the role, issuer and time of the call that issued the invite, and what is left of the time that call gave it |
| Witnesses.DeletedOrgBurnsInvite | app/modules/organizations/service.py:71-81 | A run in which a join uses a live invite up for nothing, its organisation having been deleted |
| InviteProtocol.InvKept | app/modules/organizations/service.py:193-238 | Every single Redis command of any interleaved invite call keeps what each call relies on at its next command |
| InviteProtocol.IndexSafety | app/modules/organizations/service.py:193-214 | With any invite calls interleaved command by command, an invite whose create call returned stays in its organisation's index for as long as it is live |
| InviteProtocol.ListingComplete | app/modules/organizations/service.py:198-227 | A listing interleaved with other calls reports only its organisation's invites and misses none that was handed out before it read the index and is live when it ends |
| Undisturbed.EveryStage | app/modules/organizations/service.py:193-238 | A call whose commands nobody interleaves with stands, after each of them, where the one-step call says |
| Undisturbed.CreateUndisturbed | app/modules/organizations/service.py:193-194 | Its two commands do what the create call does |
| Undisturbed.RevokeUndisturbed | app/modules/organizations/service.py:232-238 | Its three commands do what the revoke call does |
| Undisturbed.JoinUndisturbed | app/modules/organizations/service.py:278-288 | Its commands do what the join call does to the store, refused or not |
| Undisturbed.ListUndisturbed | app/modules/organizations/service.py:201-227 | In whatever order it takes the hashes, it ends with the pruned index and reports exactly the live ones |
| OrganizationService.RequireRole | app/modules/organizations/service.py:86-92 | 403 for a stranger and for a role not allowed, else the member's role |
| OrganizationService.CreateOrganization | app/modules/organizations/service.py:38-46 | Commits the organisation together with its creator as OWNER, or nothing |
| OrganizationService.DeleteOrganization | app/modules/organizations/service.py:71-81 | Commits the deletion with its cascades on an owner's request, or nothing |
| OrganizationService.AddMember | app/modules/organizations/service.py:98-116 | Commits the membership, or refuses with the status the first failing check gives |
| OrganizationService.ChangeRole | app/modules/organizations/service.py:118-136 | Commits the new role unless it demotes the last owner, or refuses with the status of the first failing check |
| OrganizationService.RemoveMember | app/modules/organizations/service.py:138-160 | Commits the removal unless it removes the last owner, or refuses with the status of the first failing check |
| OrganizationService.TransferOwnership | app/modules/organizations/service.py:240-266 | Commits both role updates at once, or neither |
| OrganizationService.CreateInvite | app/modules/organizations/service.py:162-196 | Writes the record and indexes it, on the string keys, with the time limit it reports, or refuses and writes nothing |
| OrganizationService.RevokeInvite | app/modules/organizations/service.py:229-238 | Deletes the record and its index entry, or replies 404 to an invite of another organisation and changes nothing |
| OrganizationService.JoinByInvite | app/modules/organizations/service.py:268-293 | Uses the invite up, commits the membership and returns the organisation of its record; it uses the invite up even if the membership cannot be inserted |
| OrganizationService.ListInvites | app/modules/organizations/service.py:198-227 | The loop reports each live invite among the indexed hashes once, newest first, drops exactly the others from the index, and writes nothing else |
| OrganizationService.SortedFacts | app/modules/organizations/service.py:226-226 | The sort permutes the items into descending creation time |
| OrganizationService.ListingIsTheQuery | app/modules/organizations/service.py:198-227 | In every reachable state the listing is exactly the organisation's live invites, once each, with the role, issuer and time of the stored record and what is left of its time; the index afterwards is that set, and no other key has changed |
| OrganizationService.InviteKeyText | app/modules/organizations/invites.py:10-11 | The invite key is the text of the typed key |
| OrganizationService.InvitesIndexKeyText | app/modules/organizations/invites.py:14-15 | The index key is the text of the typed key |
| ProjectService.CreateProject | app/modules/projects/service.py:20-39 | Commits the project on a manager's request, or nothing |
| ProjectService.DeleteProject | app/modules/projects/service.py:50-65 | Finds the organisation through the project, and commits the deletion with its tasks, or nothing |
| TaskService.CreateTask | app/modules/tasks/service.py:37-70 | Commits the task only in a project of the organisation named, with an allowed status and unassigned |
| TaskService.CheckUpdate | app/modules/tasks/service.py:106-131 | The checks before an update, and the status of the first that fails |
| TaskService.UpdateTask | app/modules/tasks/service.py:98-169 | Commits the row with each column the last value given for it or as it was, and in the same transaction one outbox row that names every part of the assignment, exactly when the assignee is set and differs from the value read before the shared object was changed; a failing flush commits neither; setting the status needs a manager or the assignee, and assigning a manager |
| TaskService.DeleteTask | app/modules/tasks/service.py:182-199 | Commits the deletion for a manager or the creator, or nothing |
| Database.StoredIsPatched | app/modules/tasks/repository.py:53-57 | Flushing the changed object fails exactly when one of the changes cannot be stored |
| Database.PatchIsLast | app/modules/tasks/repository.py:53-54 | For each column the dictionary comes to the last value given for it |
| Database.PatchHas | app/modules/tasks/service.py:117-125 | A column is in the dictionary exactly if some entry sets it |
| Database.TaskRow.SetAttr | app/modules/tasks/repository.py:53-54 | One assignment gives its field the value and leaves every other |
| Database.Session.GetTask | app/modules/tasks/repository.py:41-44 | A row loaded twice in one session is one object |
| Database.Session.UpdateTask | app/modules/tasks/repository.py:46-58 | After the loop each column of the flushed row is the last value given for it or as it was, or the flush raises and no row changes |
| Database.Session.CountMembersByRole | app/modules/organizations/repository.py:76-80 | The count of OWNER rows is the number of owners |
| RedisClient.Client.SetRemove | app/infra/redis.py:61-65 | Removing the last member removes the key; a missing key is left missing |
| RedisClient.Client.SetJson | app/infra/redis.py:10-22 | The record is stored with its expiry, under this string and no other |
| RedisClient.Client.GetJson | app/infra/redis.py:24-35 | The record while it is live, and nothing after |
| RedisText.TextInjective | app/modules/auth/service.py:19-28 | Distinct keys of all five kinds have distinct strings, whatever the caller supplies as a hash |
| RedisText.SameWrite | app/modules/organizations/invites.py:10-15 | Writing under a key's string writes that key and leaves every other alone |
| RedisText.SameDelete | app/infra/redis.py:37-51 | Deleting a key's string deletes that key and leaves every other alone |
| KeySpaces.KeySpacesApart | app/modules/organizations/service.py:229-238 | Every call leaves the entries under the strings of other modules' keys unchanged |
| AuthService.RefreshKeyText | app/modules/auth/service.py:19-20 | The refresh key is the text of the typed key |
| AuthService.EmailKeyText | app/modules/auth/service.py:23-24 | The verification key is the text of the typed key |
| AuthService.ResetKeyText | app/modules/auth/service.py:27-28 | The reset key is the text of the typed key |
| AuthService.CreateRefreshSession | app/modules/auth/service.py:127-150 | A login stores one session of the user under the token drawn |
| AuthService.RotateRefreshSession | app/modules/auth/service.py:152-194 | The old session is gone, the new one carries the same user and names its predecessor; 401 changes nothing |
| AuthService.RevokeRefreshSession | app/modules/auth/service.py:196-210 | The session is gone, if there was one |
| AuthService.RequestEmailVerification | app/modules/auth/service.py:224-242 | A token is stored and returned exactly for a registered user not yet verified |
| AuthService.VerifyEmail | app/modules/auth/service.py:244-264 | The token's user is verified and the token used up; a token of a missing user is used up with 400 |
| AuthService.RequestPasswordReset | app/modules/auth/service.py:266-282 | A token is stored and returned exactly for a registered user |
| AuthService.ResetPassword | app/modules/auth/service.py:284-302 | The token's user has the new password and the token is used up |
| Tokens.NeverAgain | app/modules/auth/service.py:127-194 | A token once drawn and not live is never live again |
| Tokens.SingleUse | app/modules/auth/service.py:152-210 | After a call that used or ended a token succeeded, no later call succeeds with it |
| Tokens.OneKind | app/modules/auth/service.py:244-302 | The hash of a token is never that of a record of another kind, before or after |
| Tokens.OneSessionPerLogin | app/modules/auth/service.py:127-194 | In every run each login has at most one session descended from it, carrying the login's user |
| Tokens.SessionsBounded | app/modules/auth/service.py:127-210 | A user's live sessions never outnumber the user's logins |

## Left out

- Interleaving inside the owner-count checks, invite consumption, token rotation and `update_task`: the code takes no lock there, so each service call is one step. The properties of those calls are claims about serialised calls; `InviteProtocol` interleaves the commands of the invite calls, for the index only.
- The database inside `InviteProtocol`: the role check is done when a call begins, and a join's membership check is a parameter.
- The claim of the outbox is one step, as a statement; the re-check of rows changed while a statement runs is not modelled.
- A row's creation time is the moment it is committed, not the start of its transaction.
- `last_error` of a flush failure: the whole batch rolls back, so none is ever committed.
- The texts of Python's error messages are parameters of the malformed payloads; the length limit applied to them is modelled.
- JSON encoding is abstract: a payload is what decoding it gives, an event comes with the length of its text, and the length of an assignment's text assumes a time stamp with microseconds.
- Redis rounds remaining times; a key in its last half second can report 0. Whole seconds have no such key.
- Hashing, JWT and bcrypt: a token is its hash and a password is its text.
- `register` and `login` checks of email, user name, password and activity: only that a user exists.
- `update_organization` and `update_project` rename and describe; they change nothing any property here mentions.
- `list_members`, `list_my_orgs`, `list_projects`, `list_tasks`, `get_project` and `get_task` only check a role and read.
- Marking notifications read, counting unread ones, and pages ordered by a creation time that is not unique.
- The direct `task_assigned` Celery task bypasses the outbox, and nothing sends it.
- Deleting users: no code does it.
- The width of the other text columns and of `attempts`.
- Field limits of the request schemas other than the title's, and the `ttl_seconds` range: the model covers more requests than the routers admit.
- Beat, the broker and the trigger after an assignment are any dispatcher claiming at any time.
- Liveness: nothing is said about a dispatcher that stops, other than that its transaction aborts.
