/** The invite calls interleaved one Redis command at a time: any number of create, list, join and revoke calls run
    together, each between two of its commands at any moment, while records expire and other modules use the store. */
module InviteProtocol {
  import opened Prelude
  import opened Redis
  import opened Calls

  type CallId = nat

  /** A listing under way: the hashes it has not looked at and those it reports. `due` records the invites of the
      organisation that had been handed out when the index was read. */
  datatype Listing = Listing(org: Id, due: set<Id>, todo: set<Id>, items: set<Id>)

  /** A call at the command it issues next. */
  datatype Proc =
    | CreateSet(org: Id, role: Role, issuer: Id, ttl: Option<nat>, hash: Id)
    | CreateAdd(org: Id, hash: Id)
    | ListMembers(org: Id)
    | ListGet(l: Listing)
    | ListTtl(l: Listing, hash: Id)
    | ListRem(l: Listing, hash: Id)
    | Listed(l: Listing)
    | JoinGet(hash: Id)
    | JoinCheck(org: Id, hash: Id)
    | JoinDel(org: Id, hash: Id)
    | JoinRem(org: Id, hash: Id)
    | RevokeGet(org: Id, hash: Id)
    | RevokeDel(org: Id, hash: Id)
    | RevokeRem(org: Id, hash: Id)
    | Returned

  /** `drawn` maps each token hash to the organisation it was drawn for, `written` holds the hashes whose record has
      been written, and `handed` those whose create call has returned. */
  datatype Sys = Sys(store: Store, clock: Time, calls: map<CallId, Proc>, drawn: map<Id, Id>, written: set<Id>, handed: set<Id>) {
    predicate LiveInvite(h: Id) {
      Live(store, clock, InviteKey(h))
    }

    function Index(org: Id): set<Id> {
      SetMembers(store, IndexKey(org))
    }
  }

  /** `Go` lets a call issue its next command; `pick` is the hash a listing turns to, and `refused` the answer of the
      membership check of a join. `Elsewhere` is any command on a key of another module. */
  datatype Step =
    | Begin(id: CallId, p: Proc)
    | Go(id: CallId, pick: Id, refused: bool)
    | Elsewhere(key: Key, entry: Option<Entry>)
    | Tick(seconds: nat)

  function Start(now: Time): Sys {
    Sys(map[], now, map[], map[], {}, {})
  }

  /** A call begins once its requester's role is checked; a create call with a hash just drawn. */
  predicate Opening(s: Sys, p: Proc) {
    match p
    case CreateSet(_, _, _, _, h) => h !in s.drawn
    case ListMembers(_) => true
    case JoinGet(_) => true
    case RevokeGet(_, _) => true
    case _ => false
  }

  predicate Enabled(s: Sys, step: Step) {
    match step
    case Begin(id, p) => id !in s.calls && Opening(s, p)
    case Go(id, pick, _) =>
      && id in s.calls && !s.calls[id].Returned? && !s.calls[id].Listed?
      && (s.calls[id].ListGet? && s.calls[id].l.todo != {} ==> pick in s.calls[id].l.todo)
    case Elsewhere(key, _) => !key.InviteKey? && !key.IndexKey?
    case Tick(_) => true
  }

  /** One command of a call, and where the call stands after it. */
  function Command(s: Sys, p: Proc, pick: Id, refused: bool): (Store, Proc) {
    var store, now := s.store, s.clock;
    match p
    case CreateSet(org, role, issuer, ttl, h) =>
      (SetJson(store, now, InviteKey(h), InviteJson(org, role, issuer, now), InviteTtl(ttl)), CreateAdd(org, h))
    case CreateAdd(org, h) => (SetAdd(store, IndexKey(org), h), Returned)
    case ListMembers(org) =>
      var due := set h | h in s.handed && h in s.drawn && s.drawn[h] == org;
      (store, ListGet(Listing(org, due, s.Index(org), {})))
    case ListGet(l) =>
      if l.todo == {} then (store, Listed(l))
      else
        var rest := l.(todo := l.todo - {pick});
        (store, if OrgInvite(store, now, l.org, pick) then ListTtl(rest, pick) else ListRem(rest, pick))
    case ListTtl(l, h) =>
      (store, if Ttl(store, now, InviteKey(h)) <= 0 then ListRem(l, h) else ListGet(l.(items := l.items + {h})))
    case ListRem(l, h) => (SetRemove(store, IndexKey(l.org), h), ListGet(l))
    case JoinGet(h) =>
      var data := GetJson(store, now, InviteKey(h));
      (store, if data.None? || !data.value.InviteJson? then Returned else JoinCheck(data.value.org, h))
    case JoinCheck(org, h) => (store, if refused then Returned else JoinDel(org, h))
    case JoinDel(org, h) => (Del(store, InviteKey(h)), JoinRem(org, h))
    case JoinRem(org, h) => (SetRemove(store, IndexKey(org), h), Returned)
    case RevokeGet(org, h) => (store, if OrgInvite(store, now, org, h) then RevokeDel(org, h) else Returned)
    case RevokeDel(org, h) => (Del(store, InviteKey(h)), RevokeRem(org, h))
    case RevokeRem(org, h) => (SetRemove(store, IndexKey(org), h), Returned)
    case _ => (store, p)
  }

  function Next(s: Sys, step: Step): Sys {
    match step
    case Begin(id, p) =>
      s.(calls := s.calls[id := p], drawn := if p.CreateSet? then s.drawn[p.hash := p.org] else s.drawn)
    case Go(id, pick, refused) =>
      if id !in s.calls then s
      else
        var p := s.calls[id];
        var (store, q) := Command(s, p, pick, refused);
        s.(store := store, calls := s.calls[id := q],
           written := if p.CreateSet? then s.written + {p.hash} else s.written,
           handed := if p.CreateAdd? then s.handed + {p.hash} else s.handed)
    case Elsewhere(key, entry) => s.(store := if entry.Some? then s.store[key := entry.value] else Del(s.store, key))
    case Tick(seconds) => s.(clock := s.clock + seconds)
  }

  function At(s: Sys, steps: seq<Step>, n: nat): Sys
    requires n <= |steps|
  {
    if n == 0 then s else Next(At(s, steps, n - 1), steps[n - 1])
  }

  ghost predicate Valid(s: Sys, steps: seq<Step>) {
    forall n :: 0 <= n < |steps| ==> Enabled(At(s, steps, n), steps[n])
  }

  /* ---------------- What every command keeps ---------------- */

  predicate Named(s: Sys, org: Id, h: Id) {
    h in s.written && h in s.drawn && s.drawn[h] == org
  }

  /** A hash whose record was written and is gone: no command writes it again. */
  predicate Dead(s: Sys, h: Id) {
    h in s.written && !s.LiveInvite(h)
  }

  ghost predicate ListingOk(s: Sys, l: Listing, have: set<Id>) {
    && (forall h :: h in have ==> Named(s, l.org, h))
    && (forall h :: h in l.due ==> Named(s, l.org, h) && (h in have || Dead(s, h)))
  }

  /** What a call knows at each of its commands. */
  ghost predicate ProcOk(s: Sys, p: Proc) {
    match p
    case CreateSet(org, _, _, _, h) => h in s.drawn && s.drawn[h] == org && h !in s.written
    case CreateAdd(org, h) => Named(s, org, h)
    case ListGet(l) => ListingOk(s, l, l.todo + l.items)
    case ListTtl(l, h) => ListingOk(s, l, l.todo + l.items + {h})
    case ListRem(l, h) => ListingOk(s, l, l.todo + l.items) && Dead(s, h)
    case Listed(l) => ListingOk(s, l, l.items)
    case JoinCheck(org, h) => Named(s, org, h)
    case JoinDel(org, h) => Named(s, org, h)
    case JoinRem(org, h) => Dead(s, h)
    case RevokeDel(org, h) => Named(s, org, h)
    case RevokeRem(org, h) => Dead(s, h)
    case _ => true
  }

  /** Two create calls never hold the same hash before its record is written. */
  ghost predicate OwnHashes(calls: map<CallId, Proc>) {
    forall i, j :: i in calls && j in calls && calls[i].CreateSet? && calls[j].CreateSet? && calls[i].hash == calls[j].hash ==> i == j
  }

  ghost predicate ProcsOk(s: Sys) {
    (forall id :: id in s.calls ==> ProcOk(s, s.calls[id])) && OwnHashes(s.calls)
  }

  ghost predicate StoreOk(s: Sys) {
    && s.written <= s.drawn.Keys
    && (forall h :: InviteKey(h) in s.store ==>
          s.store[InviteKey(h)].Record? && s.store[InviteKey(h)].value.InviteJson? && Named(s, s.store[InviteKey(h)].value.org, h))
    && (forall org :: IndexKey(org) in s.store ==> s.store[IndexKey(org)].Members?)
    && (forall org, h :: h in s.Index(org) ==> Named(s, org, h))
  }

  /** Index safety: an invite handed out stays in its organisation's index for as long as it is live. */
  ghost predicate Safe(s: Sys) {
    forall h :: h in s.handed ==> h in s.written && h in s.drawn && (s.LiveInvite(h) ==> h in s.Index(s.drawn[h]))
  }

  ghost predicate Inv(s: Sys) {
    ProcsOk(s) && StoreOk(s) && Safe(s)
  }

  /** Nothing a call relies on is undone: written hashes stay written, and dead ones dead. */
  ghost predicate Advances(s: Sys, t: Sys) {
    && s.written <= t.written
    && (forall h :: h in s.drawn ==> h in t.drawn && t.drawn[h] == s.drawn[h])
    && (forall h :: Dead(s, h) ==> Dead(t, h))
  }

  lemma StillOk(s: Sys, t: Sys, p: Proc)
    requires Advances(s, t) && ProcOk(s, p)
    requires p.CreateSet? ==> p.hash !in t.written
    ensures ProcOk(t, p)
  {
    hide Dead;
  }

  lemma Advancing(s: Sys, step: Step)
    requires Inv(s) && Enabled(s, step)
    ensures Advances(s, Next(s, step))
  {
    var t := Next(s, step);
    forall h | Dead(s, h) ensures Dead(t, h) {
      if step.Go? && s.calls[step.id].CreateSet? { assert ProcOk(s, s.calls[step.id]); }
    }
  }

  /** The command just issued leaves its call knowing what it needs for the next. */
  lemma OwnCommand(s: Sys, id: CallId, pick: Id, refused: bool)
    requires Inv(s) && Enabled(s, Go(id, pick, refused))
    ensures var t := Next(s, Go(id, pick, refused)); ProcOk(t, t.calls[id])
  {
    var p := s.calls[id];
    assert ProcOk(s, p);
    var t := Next(s, Go(id, pick, refused));
    if p.ListGet? || p.ListTtl? || p.ListRem? || p.ListMembers? {
      assert t == s.(store := t.store, calls := t.calls);
      ListCommand(s, p, pick, refused, t);
    }
  }

  lemma ListCommand(s: Sys, p: Proc, pick: Id, refused: bool, t: Sys)
    requires StoreOk(s) && Safe(s) && ProcOk(s, p)
    requires p.ListGet? || p.ListTtl? || p.ListRem? || p.ListMembers?
    requires p.ListGet? && p.l.todo != {} ==> pick in p.l.todo
    requires t == s.(store := Command(s, p, pick, refused).0, calls := t.calls)
    ensures ProcOk(t, Command(s, p, pick, refused).1)
  {
    match p
    case ListMembers(org) =>
    case ListGet(l) =>
      if l.todo != {} { assert l.todo - {pick} + l.items + {pick} == l.todo + l.items; }
      else { assert l.todo + l.items == l.items; }
    case ListTtl(l, h) => assert l.todo + (l.items + {h}) == l.todo + l.items + {h};
    case ListRem(l, h) => assert forall x :: Dead(s, x) ==> Dead(t, x);
  }

  lemma HashesKept(s: Sys, step: Step)
    requires ProcsOk(s) && Enabled(s, step)
    ensures OwnHashes(Next(s, step).calls)
  {
    var calls := Next(s, step).calls;
    forall i | i in calls && calls[i].CreateSet? ensures (step.Begin? && i == step.id) || (i in s.calls && s.calls[i] == calls[i] && calls[i].hash in s.drawn) {
      if i in s.calls && s.calls[i] == calls[i] { assert ProcOk(s, s.calls[i]); }
    }
  }

  lemma OtherCall(s: Sys, step: Step, id: CallId)
    requires Inv(s) && Enabled(s, step) && id in s.calls && (step.Go? ==> step.id != id)
    ensures ProcOk(Next(s, step), s.calls[id])
  {
    assert ProcOk(s, s.calls[id]);
    Advancing(s, step);
    hide ProcOk, Advances, Command, StoreOk, Safe;
    if s.calls[id].CreateSet? {
      assert s.calls[id].hash !in s.written by { Unwritten(s, s.calls[id]); }
    }
    StillOk(s, Next(s, step), s.calls[id]);
  }

  lemma Unwritten(s: Sys, p: Proc)
    requires p.CreateSet? && ProcOk(s, p)
    ensures p.hash !in s.written
  {
  }

  lemma ProcsKept(s: Sys, step: Step)
    requires Inv(s) && Enabled(s, step)
    ensures ProcsOk(Next(s, step))
  {
    HashesKept(s, step);
    if step.Go? { OwnCommand(s, step.id, step.pick, step.refused); }
    var t := Next(s, step);
    forall id | id in t.calls ensures ProcOk(t, t.calls[id]) {
      if step.Begin? && id == step.id {
        OpeningOk(s, step);
      } else if step.Go? && id == step.id {
      } else {
        OtherCall(s, step, id);
      }
      hide ProcOk, Command;
    }
    hide ProcOk, Command;
  }

  lemma OpeningOk(s: Sys, step: Step)
    requires Inv(s) && Enabled(s, step) && step.Begin?
    ensures ProcOk(Next(s, step), step.p)
  {
  }

  /** Only the last command of a create call adds to an index. */
  lemma IndexGrows(s: Sys, step: Step, org: Id, h: Id)
    requires h in Next(s, step).Index(org) && h !in s.Index(org) && Enabled(s, step)
    ensures step.Go? && s.calls[step.id] == CreateAdd(org, h)
  {
  }

  lemma StoreKept(s: Sys, step: Step)
    requires Inv(s) && Enabled(s, step)
    ensures StoreOk(Next(s, step))
  {
    var t := Next(s, step);
    if step.Go? { assert ProcOk(s, s.calls[step.id]); }
    forall org, h | h in t.Index(org) ensures Named(t, org, h) {
      if h !in s.Index(org) { IndexGrows(s, step, org, h); }
      assert Named(s, org, h);
    }
  }

  lemma SafeKept(s: Sys, step: Step)
    requires Inv(s) && Enabled(s, step)
    ensures Safe(Next(s, step))
  {
    if step.Go? { assert ProcOk(s, s.calls[step.id]); }
  }

  lemma InvKept(s: Sys, step: Step)
    requires Inv(s) && Enabled(s, step)
    ensures Inv(Next(s, step))
  {
    ProcsKept(s, step);
    StoreKept(s, step);
    SafeKept(s, step);
    hide Next;
  }

  lemma {:induction false} InvAlways(now: Time, steps: seq<Step>, n: nat)
    requires Valid(Start(now), steps) && n <= |steps|
    ensures Inv(At(Start(now), steps, n))
  {
    hide Inv, Next, Enabled;
    if n == 0 {
      assert Inv(Start(now)) by { StartInv(now); }
    } else {
      InvAlways(now, steps, n - 1);
      assert Enabled(At(Start(now), steps, n - 1), steps[n - 1]);
      InvKept(At(Start(now), steps, n - 1), steps[n - 1]);
    }
  }

  lemma StartInv(now: Time)
    ensures Inv(Start(now))
  {
  }

  /* ---------------- Main results ---------------- */

  /** Once a create call has returned, its hash is in its organisation's index for as long as the invite is live,
      whatever list, join and revoke calls run alongside. */
  lemma IndexSafety(now: Time, steps: seq<Step>, n: nat, h: Id)
    requires Valid(Start(now), steps) && n <= |steps|
    requires h in At(Start(now), steps, n).handed && At(Start(now), steps, n).LiveInvite(h)
    ensures var s := At(Start(now), steps, n); h in s.drawn && h in s.Index(s.drawn[h])
  {
    InvAlways(now, steps, n);
  }

  /** A listing that ran alongside all the others reports only invites of its organisation, and misses none that was
      handed out before it read the index and is live when it ends. */
  lemma ListingComplete(now: Time, steps: seq<Step>, n: nat, id: CallId, h: Id)
    requires Valid(Start(now), steps) && n <= |steps|
    requires var s := At(Start(now), steps, n); id in s.calls && s.calls[id].Listed?
    ensures var s := At(Start(now), steps, n);
      && (h in s.calls[id].l.items ==> h in s.drawn && s.drawn[h] == s.calls[id].l.org)
      && (h in s.calls[id].l.due && s.LiveInvite(h) ==> h in s.calls[id].l.items)
  {
    InvAlways(now, steps, n);
    var s := At(Start(now), steps, n);
    assert ProcOk(s, s.calls[id]);
  }
}
