/** An invite call whose commands nobody interleaves with does, command by command, what the one-step call does: the
    two accounts of the same methods agree. */
module Undisturbed {
  import opened Prelude
  import opened Redis
  import opened Tables
  import opened Calls
  import opened InviteProtocol

  /** Only call `id` issues commands; `refused` is the answer of a join's membership check. */
  ghost predicate OnlyCall(s: Sys, id: CallId, refused: bool, steps: seq<Step>) {
    && InviteProtocol.Valid(s, steps)
    && forall k :: 0 <= k < |steps| ==> steps[k].Go? && steps[k].id == id && steps[k].refused == refused
  }

  /** The hashes of the index that name a live invite of the organisation, among these. */
  function Alive(store: Store, now: Time, org: Id, among: set<Id>): set<Id> {
    set h | h in among && OrgInvite(store, now, org, h)
  }

  /** Where a listing stands, told from the store as it was when it began. */
  predicate ListStage(before: Store, now: Time, org: Id, after: Store, q: Proc) {
    var ids := SetMembers(before, IndexKey(org));
    var alive := Alive(before, now, org, ids);
    match q
    case ListMembers(o) => o == org && after == before
    case ListGet(l) => l.org == org && l.todo <= ids && after == WithIndex(before, org, l.todo + alive) && l.items == alive - l.todo
    case ListTtl(l, h) =>
      && l.org == org && l.todo <= ids && h in alive && h !in l.todo
      && after == WithIndex(before, org, l.todo + alive) && l.items == alive - l.todo - {h}
    case ListRem(l, h) =>
      && l.org == org && l.todo <= ids && h in ids && h !in alive && h !in l.todo
      && after == WithIndex(before, org, l.todo + alive + {h}) && l.items == alive - l.todo
    case Listed(l) => after == WithIndex(before, org, alive) && l.items == alive
    case _ => false
  }

  predicate JoinStage(before: Store, now: Time, h: Id, refused: bool, after: Store, q: Proc) {
    var data := GetJson(before, now, InviteKey(h));
    if data.None? || !data.value.InviteJson? then (q == JoinGet(h) || q == Returned) && after == before
    else
      var org := data.value.org;
      match q
      case JoinGet(x) => x == h && after == before
      case JoinCheck(o, x) => o == org && x == h && after == before
      case JoinDel(o, x) => o == org && x == h && after == before && !refused
      case JoinRem(o, x) => o == org && x == h && after == Del(before, InviteKey(h)) && !refused
      case Returned => after == if refused then before else SetRemove(Del(before, InviteKey(h)), IndexKey(org), h)
      case _ => false
  }

  /** Where call `p` stands when it has come to `q`. */
  predicate Stage(before: Store, now: Time, p: Proc, refused: bool, after: Store, q: Proc) {
    match p
    case CreateSet(org, role, issuer, ttl, h) =>
      var put := SetJson(before, now, InviteKey(h), InviteJson(org, role, issuer, now), InviteTtl(ttl));
      || (q == p && after == before)
      || (q == CreateAdd(org, h) && after == put)
      || (q == Returned && after == SetAdd(put, IndexKey(org), h))
    case ListMembers(org) => ListStage(before, now, org, after, q)
    case JoinGet(h) => JoinStage(before, now, h, refused, after, q)
    case RevokeGet(org, h) =>
      if !OrgInvite(before, now, org, h) then (q == p || q == Returned) && after == before
      else
        || ((q == p || q == RevokeDel(org, h)) && after == before)
        || (q == RevokeRem(org, h) && after == Del(before, InviteKey(h)))
        || (q == Returned && after == SetRemove(Del(before, InviteKey(h)), IndexKey(org), h))
    case _ => false
  }

  lemma UnindexOne(store: Store, org: Id, ids: set<Id>, h: Id)
    requires ids <= SetMembers(store, IndexKey(org)) && h in ids
    ensures SetRemove(WithIndex(store, org, ids), IndexKey(org), h) == WithIndex(store, org, ids - {h})
    ensures SetMembers(WithIndex(store, org, ids), IndexKey(org)) == ids
  {
  }

  lemma SameRecord(store: Store, now: Time, org: Id, ids: set<Id>, h: Id)
    ensures OrgInvite(WithIndex(store, org, ids), now, org, h) == OrgInvite(store, now, org, h)
    ensures Ttl(WithIndex(store, org, ids), now, InviteKey(h)) == Ttl(store, now, InviteKey(h))
    ensures OrgInvite(store, now, org, h) ==> Ttl(store, now, InviteKey(h)) > 0
  {
  }

  lemma ListCommand(before: Store, org: Id, s: Sys, q: Proc, pick: Id, refused: bool)
    requires ListStage(before, s.clock, org, s.store, q) && !q.Listed?
    requires q.ListGet? && q.l.todo != {} ==> pick in q.l.todo
    ensures var (after, r) := Command(s, q, pick, refused); ListStage(before, s.clock, org, after, r)
  {
    var ids := SetMembers(before, IndexKey(org));
    var alive := Alive(before, s.clock, org, ids);
    match q
    case ListMembers(_) => assert ids + alive == ids && alive - ids == {};
    case ListGet(l) =>
      if l.todo == {} {
        assert l.todo + alive == alive && alive - l.todo == alive;
      } else {
        SameRecord(before, s.clock, org, l.todo + alive, pick);
        if pick in alive {
          assert l.todo - {pick} + alive == l.todo + alive && alive - (l.todo - {pick}) - {pick} == alive - l.todo;
        } else {
          assert l.todo - {pick} + alive + {pick} == l.todo + alive && alive - (l.todo - {pick}) == alive - l.todo;
        }
      }
    case ListTtl(l, h) =>
      SameRecord(before, s.clock, org, l.todo + alive, h);
      assert alive - l.todo - {h} + {h} == alive - l.todo;
    case ListRem(l, h) =>
      UnindexOne(before, org, l.todo + alive + {h}, h);
      assert l.todo + alive + {h} - {h} == l.todo + alive;
  }

  lemma StageCommand(before: Store, p: Proc, s: Sys, q: Proc, pick: Id, refused: bool)
    requires Stage(before, s.clock, p, refused, s.store, q) && !q.Listed? && !q.Returned?
    requires q.ListGet? && q.l.todo != {} ==> pick in q.l.todo
    ensures var (after, r) := Command(s, q, pick, refused); Stage(before, s.clock, p, refused, after, r)
  {
    if p.ListMembers? { ListCommand(before, p.org, s, q, pick, refused); }
    hide ListStage, WithIndex, SetRemove, SetAdd;
  }

  lemma {:induction false} EveryStage(s: Sys, id: CallId, p: Proc, refused: bool, steps: seq<Step>, n: nat)
    requires id in s.calls && s.calls[id] == p && (p.CreateSet? || p.ListMembers? || p.JoinGet? || p.RevokeGet?)
    requires OnlyCall(s, id, refused, steps) && n <= |steps|
    ensures var t := InviteProtocol.At(s, steps, n);
      t.clock == s.clock && id in t.calls && Stage(s.store, s.clock, p, refused, t.store, t.calls[id])
  {
    hide Command, Stage, InviteProtocol.Enabled, Next;
    if n == 0 {
      FirstStage(s.store, s.clock, p, refused);
    } else {
      EveryStage(s, id, p, refused, steps, n - 1);
      var t, step := InviteProtocol.At(s, steps, n - 1), steps[n - 1];
      assert InviteProtocol.Enabled(t, step);
      OneCommand(t, step);
      StageCommand(s.store, p, t, t.calls[id], step.pick, refused);
    }
  }

  lemma OneCommand(t: Sys, step: Step)
    requires InviteProtocol.Enabled(t, step) && step.Go?
    ensures step.id in t.calls && !t.calls[step.id].Returned? && !t.calls[step.id].Listed?
    ensures t.calls[step.id].ListGet? && t.calls[step.id].l.todo != {} ==> step.pick in t.calls[step.id].l.todo
    ensures var next := Next(t, step);
      && next.clock == t.clock && step.id in next.calls
      && (next.store, next.calls[step.id]) == Command(t, t.calls[step.id], step.pick, step.refused)
  {
    hide Command;
  }

  lemma FirstStage(store: Store, now: Time, p: Proc, refused: bool)
    requires p.CreateSet? || p.ListMembers? || p.JoinGet? || p.RevokeGet?
    ensures Stage(store, now, p, refused, store, p)
  {
  }

  /* ---------------- The four calls ---------------- */

  lemma CreateUndisturbed(s: Sys, id: CallId, p: Proc, refused: bool, steps: seq<Step>, t: Tables)
    requires id in s.calls && s.calls[id] == p && p.CreateSet? && OnlyCall(s, id, refused, steps)
    ensures var end, r := InviteProtocol.At(s, steps, |steps|), CreateInviteOn(t, s.store, s.clock, p.org, p.issuer, p.role, p.ttl, p.hash);
      id in end.calls && (end.calls[id].Returned? && r.Ok? ==> end.store == r.value)
  {
    EveryStage(s, id, p, refused, steps, |steps|);
    hide InviteProtocol.At, OnlyCall;
  }

  lemma RevokeUndisturbed(s: Sys, id: CallId, p: Proc, refused: bool, steps: seq<Step>, t: Tables, actor: Id)
    requires id in s.calls && s.calls[id] == p && p.RevokeGet? && OnlyCall(s, id, refused, steps)
    ensures var end, r := InviteProtocol.At(s, steps, |steps|), RevokeInviteOn(t, s.store, s.clock, p.org, actor, p.hash);
      && id in end.calls
      && (end.calls[id].Returned? && RequireRole(t, p.org, actor, MANAGERS).Ok? ==> end.store == if r.Ok? then r.value else s.store)
  {
    EveryStage(s, id, p, refused, steps, |steps|);
    hide InviteProtocol.At, OnlyCall;
  }

  lemma JoinUndisturbed(s: Sys, id: CallId, p: Proc, refused: bool, steps: seq<Step>, t: Tables, user: Id)
    requires id in s.calls && s.calls[id] == p && p.JoinGet? && OnlyCall(s, id, refused, steps)
    ensures var end, data := InviteProtocol.At(s, steps, |steps|), GetJson(s.store, s.clock, InviteKey(p.hash));
      && id in end.calls
      && (end.calls[id].Returned? && (data.Some? && data.value.InviteJson? ==> refused == t.MemberRole(data.value.org, user).Some?)
          ==> end.store == JoinOn(t, s.store, s.clock, p.hash, user).0)
  {
    EveryStage(s, id, p, refused, steps, |steps|);
    hide InviteProtocol.At, OnlyCall;
  }

  /** Whatever order the listing takes the hashes in, it ends with the pruned index and reports the live invites. */
  lemma ListUndisturbed(s: Sys, id: CallId, p: Proc, refused: bool, steps: seq<Step>)
    requires id in s.calls && s.calls[id] == p && p.ListMembers? && OnlyCall(s, id, refused, steps)
    ensures var end := InviteProtocol.At(s, steps, |steps|);
      && id in end.calls
      && (end.calls[id].Listed? ==>
            && end.store == Pruned(s.store, s.clock, p.org)
            && end.calls[id].l.items == Alive(s.store, s.clock, p.org, SetMembers(s.store, IndexKey(p.org))))
  {
    EveryStage(s, id, p, refused, steps, |steps|);
    hide InviteProtocol.At, OnlyCall;
    assert Alive(s.store, s.clock, p.org, SetMembers(s.store, IndexKey(p.org)))
        == set h | h in SetMembers(s.store, IndexKey(p.org)) && OrgInvite(s.store, s.clock, p.org, h);
  }
}
