/** Outbox rows, what the dispatcher makes of one, and the query that claims a batch. */
module Outbox {
  import opened Prelude

  /** Rows are never deleted, so a row is named by its place in insertion order. */
  type RowId = nat

  const MAX_ERROR: nat := 1000
  const MAX_PAYLOAD: nat := 2000
  const MAX_DELAY: nat := 300

  datatype EventType = TaskAssigned | OtherType(name: string)

  /** The value under "assigned_to" as uuid.UUID sees it. */
  datatype Assignee = Missing | Unparsable(why: string) | Assigned(user: Id)

  /** A JSON object. `size` is the length of json.dumps(event). */
  datatype Event = Event(org: Option<Id>, project: Option<Id>, task: Option<Id>, assignedTo: Assignee,
                         assignedBy: Option<Id>, title: Option<string>, ts: Option<Time>, size: nat)

  /** A stored text, represented by what json.loads makes of it. */
  datatype Payload = Malformed(why: string) | NotAnObject | Object(event: Event)

  datatype Status = PENDING | FAILED | SENT

  datatype Row = Row(eventType: EventType, payload: Payload, status: Status, attempts: nat,
                     lastError: Option<string>, nextRetryAt: Option<Time>, createdAt: Time, sentAt: Option<Time>)

  /** A notification. `origin` records the outbox row it was made from; the table has no such column. */
  datatype Note = Note(origin: RowId, user: Id, event: Event)

  function NewRow(eventType: EventType, payload: Payload, now: Time): Row {
    Row(eventType, payload, PENDING, 0, None, None, now, None)
  }

  datatype Verdict = Deliver(user: Id, event: Event) | Reject(error: string)

  /** The part of the loop body that runs before the flush: it depends on the row's type and text alone. */
  function Judge(eventType: EventType, payload: Payload): Verdict {
    match payload
    case Malformed(why) => Reject(why)
    case NotAnObject => Reject("Outbox payload must be a JSON object")
    case Object(event) =>
      if eventType.OtherType? then Reject("Unsupported outbox event type: " + eventType.name)
      else
        match event.assignedTo
        case Missing => Reject("'assigned_to'")
        case Unparsable(why) => Reject(why)
        case Assigned(user) => Deliver(user, event)
  }

  function VerdictOf(row: Row): Verdict {
    Judge(row.eventType, row.payload)
  }

  /** Whether the flush of the notification passes the foreign key and the column width. */
  predicate Flushes(users: set<Id>, verdict: Verdict) {
    verdict.Deliver? ==> verdict.user in users && verdict.event.size <= MAX_PAYLOAD
  }

  /** The text decodes to an assignee, but its notification does not fit the column. */
  predicate Oversized(row: Row) {
    VerdictOf(row).Deliver? && VerdictOf(row).event.size > MAX_PAYLOAD
  }

  function Truncate(s: string, n: nat): string {
    if |s| <= n then s else s[..n]
  }

  function Pow2(n: nat): (p: nat)
    ensures p >= 1
  {
    if n == 0 then 1 else 2 * Pow2(n - 1)
  }

  function Delay(attempts: nat): nat {
    Min(MAX_DELAY, Pow2(Min(attempts, 8)))
  }

  /** The row after one pass of the loop body at time `now`. */
  function Processed(row: Row, now: Time): Row {
    match VerdictOf(row)
    case Deliver(_, _) =>
      row.(status := SENT, sentAt := Some(now), lastError := None, nextRetryAt := None)
    case Reject(error) =>
      var attempts := row.attempts + 1;
      row.(attempts := attempts, status := FAILED, lastError := Some(Truncate(error, MAX_ERROR)),
           nextRetryAt := Some(now + Delay(attempts)))
  }

  function Sends(id: RowId, row: Row): seq<Note> {
    match VerdictOf(row)
    case Deliver(user, event) => [Note(id, user, event)]
    case Reject(_) => []
  }

  /* ---------------- The claim ---------------- */

  predicate Eligible(row: Row, now: Time) {
    row.status != SENT && (row.nextRetryAt.None? || row.nextRetryAt.value <= now)
  }

  /** The rows the claim may lock. */
  function Open(rows: seq<Row>, locked: set<RowId>, now: Time): set<RowId> {
    set id: RowId | id < |rows| && id !in locked && Eligible(rows[id], now)
  }

  ghost predicate Oldest(rows: seq<Row>, ids: seq<RowId>)
    requires forall i :: 0 <= i < |ids| ==> ids[i] < |rows|
  {
    forall i, j :: 0 <= i < j < |ids| ==> rows[ids[i]].createdAt <= rows[ids[j]].createdAt
  }

  /** Any answer the claim query may give: ORDER BY created_at leaves the order of ties open. */
  ghost predicate IsClaim(rows: seq<Row>, locked: set<RowId>, now: Time, limit: nat, ids: seq<RowId>) {
    var open := Open(rows, locked, now);
    && (forall i :: 0 <= i < |ids| ==> ids[i] in open)
    && NoDup(ids)
    && Oldest(rows, ids)
    && |ids| == Min(limit, |open|)
    && (forall i, r :: 0 <= i < |ids| && r in open && r !in ids ==> rows[ids[i]].createdAt <= rows[r].createdAt)
  }
}
