/** The dispatch loop as the service writes it: mapped row objects changed in place, one commit at the end. */
module NotificationService {
  import opened Prelude
  import opened Outbox
  import opened Serial
  import opened Workers

  /** A row object of the ORM session. */
  class OutboxRow {
    const id: RowId
    const eventType: EventType
    const payload: Payload
    const createdAt: Time
    var status: Status
    var attempts: nat
    var lastError: Option<string>
    var nextRetryAt: Option<Time>
    var sentAt: Option<Time>

    constructor (id: RowId, row: Row)
      ensures this.id == id && Version() == row
    {
      this.id, eventType, payload, createdAt := id, row.eventType, row.payload, row.createdAt;
      status, attempts, lastError := row.status, row.attempts, row.lastError;
      nextRetryAt, sentAt := row.nextRetryAt, row.sentAt;
    }

    /** The values a flush would send. */
    function Version(): Row
      reads this
    {
      Row(eventType, payload, status, attempts, lastError, nextRetryAt, createdAt, sentAt)
    }
  }

  /** A database session: `db` is what is committed, `added` the notifications flushed but not committed. */
  class DispatchSession {
    var db: Db
    var users: set<Id>
    var added: seq<Note>
  }

  /** What creating a notification can come to. */
  datatype Creation = Created | Raised(error: string) | FlushFailed

  /** The type check, the UUID conversion, the insert and its flush (app/modules/notifications/service.py:71-88). */
  method CreateNotificationFromEvent(session: DispatchSession, id: RowId, eventType: EventType, event: Event) returns (c: Creation)
    modifies session`added
    ensures match Judge(eventType, Object(event))
      case Reject(error) => c == Raised(error) && session.added == old(session.added)
      case Deliver(user, _) =>
        && c == (if Flushes(session.users, Judge(eventType, Object(event))) then Created else FlushFailed)
        && (c.Created? ==> session.added == old(session.added) + [Note(id, user, event)])
  {
    if eventType.OtherType? {
      return Raised("Unsupported outbox event type: " + eventType.name);
    }
    match event.assignedTo {
      case Missing => return Raised("'assigned_to'");
      case Unparsable(why) => return Raised(why);
      case Assigned(user) =>
        if user !in session.users || event.size > MAX_PAYLOAD {
          return FlushFailed;
        }
        session.added := session.added + [Note(id, user, event)];
        return Created;
    }
  }

  ghost predicate Distinct(rows: seq<OutboxRow>) {
    forall i, j :: 0 <= i < j < |rows| ==> rows[i] != rows[j]
  }

  /** `answer` is the database's answer to the claim query; each of its rows is loaded as an object. */
  method ClaimOutboxBatch(session: DispatchSession, answer: seq<RowId>) returns (rows: seq<OutboxRow>)
    requires InRange(session.db, answer)
    ensures |rows| == |answer| && Distinct(rows) && fresh(rows)
    ensures forall i :: 0 <= i < |rows| ==> rows[i].id == answer[i] && rows[i].Version() == session.db.rows[answer[i]]
  {
    rows := [];
    for i := 0 to |answer|
      invariant |rows| == i && Distinct(rows) && fresh(rows)
      invariant forall j :: 0 <= j < i ==> rows[j].id == answer[j] && rows[j].Version() == session.db.rows[answer[j]]
    {
      var row := new OutboxRow(answer[i], session.db.rows[answer[i]]);
      rows := rows + [row];
    }
  }

  /** One pass of the loop body: try to create the notification; a failure before the flush marks the row FAILED
      and sets its retry time; a failing flush ends the dispatch. */
  method HandleRow(session: DispatchSession, row: OutboxRow, now: Time) returns (ok: bool)
    modifies session`added, row
    ensures ok == Flushes(session.users, VerdictOf(old(row.Version())))
    ensures ok ==> row.Version() == Processed(old(row.Version()), now)
    ensures ok ==> session.added == old(session.added) + Sends(row.id, old(row.Version()))
  {
    var failure: Option<string> := None;
    match row.payload {
      case Malformed(why) => failure := Some(why);
      case NotAnObject => failure := Some("Outbox payload must be a JSON object");
      case Object(event) =>
        var created := CreateNotificationFromEvent(session, row.id, row.eventType, event);
        match created {
          case Raised(error) => failure := Some(error);
          case FlushFailed => return false;
          case Created =>
            row.status := SENT;
            row.sentAt := Some(now);
            row.lastError := None;
            row.nextRetryAt := None;
        }
    }
    if failure.Some? {
      row.attempts := row.attempts + 1;
      row.status := FAILED;
      row.lastError := Some(Truncate(failure.value, MAX_ERROR));
      row.nextRetryAt := Some(now + Delay(row.attempts));
    }
    return true;
  }

  /** The loop over the claimed rows (app/modules/notifications/service.py:105-130): on success every object holds its
      processed version. */
  method HandleRows(session: DispatchSession, rows: seq<OutboxRow>, ghost ids: seq<RowId>, ghost loaded: seq<Row>, now: Time)
    returns (ok: bool, processed: nat)
    requires |rows| == |ids| == |loaded| && Distinct(rows) && session.added == []
    requires forall i :: 0 <= i < |rows| ==> rows[i].id == ids[i] && rows[i].Version() == loaded[i]
    modifies session`added, rows
    ensures ok <==> forall i :: 0 <= i < |loaded| ==> Flushes(session.users, VerdictOf(loaded[i]))
    ensures ok ==> processed == |rows|
    ensures ok ==> forall i :: 0 <= i < |rows| ==> rows[i].Version() == Processed(loaded[i], now)
    ensures ok ==> session.added == SendsOf(ids, loaded)
  {
    processed := 0;
    for i := 0 to |rows|
      invariant processed == i
      invariant forall j :: 0 <= j < i ==> rows[j].Version() == Processed(loaded[j], now)
      invariant forall j :: i <= j < |rows| ==> rows[j].Version() == loaded[j]
      invariant forall j :: 0 <= j < i ==> Flushes(session.users, VerdictOf(loaded[j]))
      invariant session.added == SendsOf(ids[..i], loaded[..i])
    {
      assert ids[..i + 1][..i] == ids[..i] && loaded[..i + 1][..i] == loaded[..i];
      ok := HandleRow(session, rows[i], now);
      if !ok {
        return;
      }
      processed := processed + 1;
    }
    assert ids[..|rows|] == ids && loaded[..|rows|] == loaded;
    ok := true;
  }

  /** The whole batch commits, exactly as if each row were handled on the tables in turn, or, when any row of it cannot
      be flushed, nothing does (app/modules/notifications/service.py:99-133). */
  method DispatchOutbox(session: DispatchSession, limit: nat, locked: set<RowId>, claimedAt: Time, now: Time, answer: seq<RowId>)
    returns (r: Result<nat>)
    requires IsClaim(session.db.rows, locked, claimedAt, limit, answer)
    requires session.added == []
    modifies session`db, session`added
    ensures InRange(old(session.db), answer)
    ensures AllFlush(old(session.db), session.users, answer) ==>
              r == Ok(|answer|) && session.db == RunBatch(old(session.db), answer, now)
    ensures !AllFlush(old(session.db), session.users, answer) ==> r.Err? && session.db == old(session.db)
  {
    assert InRange(session.db, answer);
    var rows := ClaimOutboxBatch(session, answer);
    if rows == [] {
      return Ok(0);
    }
    ghost var loaded := Load(session.db.rows, answer);
    var ok, processed := HandleRows(session, rows, answer, loaded, now);
    if !ok {
      return Err(500);
    }
    PublishIsBatch(session.db, answer, Versions(rows), now);
    Commit(session, answer, rows);
    return Ok(processed);
  }

  /** The unit of work at commit: every changed object is written to its row. */
  method Commit(session: DispatchSession, ids: seq<RowId>, rows: seq<OutboxRow>)
    requires |rows| == |ids| && InRange(session.db, ids)
    modifies session`db, session`added
    ensures session.db == Db(WriteBack(old(session.db.rows), ids, Versions(rows)), old(session.db.notes) + old(session.added))
    ensures session.added == []
  {
    session.db := Db(WriteBack(session.db.rows, ids, Versions(rows)), session.db.notes + session.added);
    session.added := [];
  }

  function Versions(rows: seq<OutboxRow>): (versions: seq<Row>)
    reads rows
    ensures |versions| == |rows| && forall i :: 0 <= i < |rows| ==> versions[i] == rows[i].Version()
  {
    seq(|rows|, i requires 0 <= i < |rows| reads rows => rows[i].Version())
  }
}
