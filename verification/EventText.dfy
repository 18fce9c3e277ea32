/** How long the JSON text of an assignment event is, and so when its notification fits its column. */
module EventText {
  import opened Prelude
  import opened Outbox

  /** json.dumps with its default ensure_ascii: printable ASCII as is, short escapes, \uXXXX, and a surrogate pair
      beyond the basic plane. */
  function CharWidth(c: char): nat {
    if c == '"' || c == '\\' || c == '\n' || c == '\r' || c == '\t' || c as int == 8 || c as int == 12 then 2
    else if 0x20 <= c as int <= 0x7e then 1
    else if c as int < 0x1_0000 then 6
    else 12
  }

  function TextWidth(s: string): nat {
    if s == [] then 0 else TextWidth(s[..|s| - 1]) + CharWidth(s[|s| - 1])
  }

  /** Braces, the seven keys, quotes and separators. */
  const FRAME: nat := 108

  /** isoformat() of a UTC time with microseconds. */
  const STAMP_WIDTH: nat := 32

  const UUID_WIDTH: nat := 36

  function AssignmentSize(org: Id, project: Id, task: Id, assignee: Id, actor: Id, title: string): nat {
    FRAME + STAMP_WIDTH + |org| + |project| + |task| + |assignee| + |actor| + TextWidth(title)
  }

  function Hex(n: nat): char
    requires n < 16
  {
    "0123456789abcdef"[n]
  }

  /** A 16-bit unit as \\uXXXX. */
  function Unit(n: nat): string
    requires n < 0x1_0000
  {
    "\\u" + [Hex(n / 4096), Hex(n / 256 % 16), Hex(n / 16 % 16), Hex(n % 16)]
  }

  /** What json.dumps writes for a character of a string. */
  function Escaped(c: char): string {
    if c == '"' then "\\\""
    else if c == '\\' then "\\\\"
    else if c == '\n' then "\\n"
    else if c == '\r' then "\\r"
    else if c == '\t' then "\\t"
    else if c as int == 8 then "\\b"
    else if c as int == 12 then "\\f"
    else if 0x20 <= c as int <= 0x7e then [c]
    else if c as int < 0x1_0000 then Unit(c as int)
    else
      var n := c as int - 0x1_0000;
      assert n < 0x10_0000;
      Unit(0xd800 + n / 1024) + Unit(0xdc00 + n % 1024)
  }

  function EscapedText(s: string): string {
    if s == [] then [] else EscapedText(s[..|s| - 1]) + Escaped(s[|s| - 1])
  }

  /** The widths are those of the text json.dumps writes. */
  lemma {:induction false} WidthIsLength(s: string)
    ensures |EscapedText(s)| == TextWidth(s)
  {
    if s != [] { WidthIsLength(s[..|s| - 1]); }
  }

  /** The JSON text of an assignment event, with its keys in the order the service writes them. */
  function AssignmentText(org: Id, project: Id, task: Id, assignee: Id, actor: Id, title: string, stamp: string): string {
    "{\"org_id\": \"" + org + "\", \"project_id\": \"" + project + "\", \"task_id\": \"" + task
    + "\", \"assigned_to\": \"" + assignee + "\", \"assigned_by\": \"" + actor
    + "\", \"title\": \"" + EscapedText(title) + "\", \"ts\": \"" + stamp + "\"}"
  }

  /** The size of an event is the length of its text. */
  lemma SizeIsLength(org: Id, project: Id, task: Id, assignee: Id, actor: Id, title: string, stamp: string)
    requires |stamp| == STAMP_WIDTH
    ensures |AssignmentText(org, project, task, assignee, actor, title, stamp)| == AssignmentSize(org, project, task, assignee, actor, title)
  {
    WidthIsLength(title);
    hide EscapedText, TextWidth;
  }

  function AssignmentEvent(org: Id, project: Id, task: Id, assignee: Id, actor: Id, title: string, now: Time): Event {
    Event(Some(org), Some(project), Some(task), Assigned(assignee), Some(actor), Some(title), Some(now),
          AssignmentSize(org, project, task, assignee, actor, title))
  }

  lemma {:induction false} WidthAtMost(s: string, w: nat)
    requires forall i :: 0 <= i < |s| ==> CharWidth(s[i]) <= w
    ensures TextWidth(s) <= w * |s|
  {
    if s != [] {
      WidthAtMost(s[..|s| - 1], w);
      assert w * |s| == w * (|s| - 1) + w;
    }
  }

  lemma {:induction false} WidthExactly(s: string, w: nat)
    requires forall i :: 0 <= i < |s| ==> CharWidth(s[i]) == w
    ensures TextWidth(s) == w * |s|
  {
    if s != [] {
      WidthExactly(s[..|s| - 1], w);
      assert w * |s| == w * (|s| - 1) + w;
    }
  }

  /** An assignment's own event is always judged deliverable, and it can be flushed exactly when
      the assignee is registered and the escaped title is at most 1680 characters. */
  lemma AssignmentFits(users: set<Id>, org: Id, project: Id, task: Id, assignee: Id, actor: Id, title: string, now: Time)
    requires |org| == |project| == |task| == |assignee| == |actor| == UUID_WIDTH
    ensures var v := Judge(TaskAssigned, Object(AssignmentEvent(org, project, task, assignee, actor, title, now)));
      && v.Deliver? && v.user == assignee
      && (Flushes(users, v) <==> assignee in users && TextWidth(title) <= 1680)
  {
  }

  /** Every permitted title within the basic plane fits. */
  lemma BasicPlaneTitlesFit(title: string)
    requires |title| <= 200 && forall i :: 0 <= i < |title| ==> title[i] as int < 0x1_0000
    ensures TextWidth(title) <= 1680
  {
    WidthAtMost(title, 6);
  }

  /** Not every permitted title fits: 200 characters beyond the basic plane escape to 2400. */
  lemma SomePermittedTitleDoesNotFit()
    ensures var title := seq(200, _ => '\U{1F600}'); |title| == 200 && TextWidth(title) > 1680
  {
    WidthExactly(seq(200, _ => '\U{1F600}'), 12);
  }
}
