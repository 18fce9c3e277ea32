/** What becomes of every invite, told from calls and their replies alone, and what the store holds of it. */
module Invites {
  import opened Prelude
  import opened Redis
  import opened Tables
  import opened Calls
  import opened StoreIntegrity

  /** An issued invite is outstanding (live, or expired once the clock reaches `expiry`), revoked or consumed. */
  datatype Fate =
    | Unissued
    | Outstanding(org: Id, role: Role, issuer: Id, issuedAt: Time, expiry: Time)
    | Revoked
    | Consumed(org: Id, role: Role, user: Id, seated: bool)

  /** Organisation and role are those the invite was created for. A consuming join that could not insert the membership
      replies 500. */
  function NextFate(f: Fate, s: State, c: Call, h: Id): Fate {
    var status := Apply(s, c).status;
    if !c.OnInvite? || c.i.ListInvites? || c.i.hash != h then f
    else
      match c.i
      case CreateInvite(org, actor, role, ttl, _) => if status == 200 then Outstanding(org, role, actor, s.clock, s.clock + InviteTtl(ttl)) else f
      case RevokeInvite(_, _, _) => if status == 200 then Revoked else f
      case Join(_, actor) => if f.Outstanding? && (status == 200 || status == 500) then Consumed(f.org, f.role, actor, status == 200) else f
  }

  function FateAt(s: State, calls: seq<Call>, n: nat, h: Id): Fate
    requires n <= |calls|
  {
    if n == 0 then Unissued else NextFate(FateAt(s, calls, n - 1, h), At(s, calls, n - 1), calls[n - 1], h)
  }

  function SeatIn(s: State, c: Call, h: Id): nat {
    if c.OnInvite? && c.i.Join? && c.i.hash == h && Apply(s, c).status == 200 then 1 else 0
  }

  /** How many joins with the token made a member. */
  function Seats(s: State, calls: seq<Call>, n: nat, h: Id): nat
    requires n <= |calls|
  {
    if n == 0 then 0 else Seats(s, calls, n - 1, h) + SeatIn(At(s, calls, n - 1), calls[n - 1], h)
  }

  function SeatOf(f: Fate): nat {
    if f.Consumed? && f.seated then 1 else 0
  }

  /** The store holds the invite's record exactly while it is outstanding, and the record is the invite as issued. */
  ghost predicate Agrees(s: State, f: Fate, h: Id) {
    && (InviteKey(h) in s.store <==> f.Outstanding?)
    && (f.Outstanding? ==> s.store[InviteKey(h)] == Record(InviteJson(f.org, f.role, f.issuer, f.issuedAt), f.expiry))
    && (!f.Unissued? ==> h in s.issued)
  }

  lemma JoinStep(s: State, f: Fate, user: Id, h: Id)
    requires Agrees(s, f, h)
    ensures Agrees(Apply(s, OnInvite(Join(h, user))).state, NextFate(f, s, OnInvite(Join(h, user)), h), h)
    ensures Apply(s, OnInvite(Join(h, user))).status == 200 ==> f.Outstanding?
  {
  }

  lemma OtherInviteStep(t: Tables, store: Store, now: Time, c: InviteCall, h: Id)
    requires WellTyped(store) && (!c.ListInvites? ==> c.hash != h)
    ensures InviteKey(h) in PerformInvite(t, store, now, c).0 <==> InviteKey(h) in store
    ensures InviteKey(h) in store ==> PerformInvite(t, store, now, c).0[InviteKey(h)] == store[InviteKey(h)]
  {
  }

  lemma RevokeStep(s: State, f: Fate, c: InviteCall, h: Id)
    requires Agrees(s, f, h) && c.RevokeInvite? && c.hash == h
    ensures Agrees(Apply(s, OnInvite(c)).state, NextFate(f, s, OnInvite(c), h), h)
  {
  }

  lemma CreateStep(s: State, f: Fate, c: InviteCall, h: Id)
    requires Agrees(s, f, h) && c.CreateInvite? && c.hash == h && Enabled(s, OnInvite(c))
    ensures Agrees(Apply(s, OnInvite(c)).state, NextFate(f, s, OnInvite(c), h), h)
  {
    assert f.Unissued?;
  }

  lemma FateStep(s: State, f: Fate, c: Call, h: Id)
    requires Inv(s) && Enabled(s, c) && Agrees(s, f, h)
    ensures Agrees(Apply(s, c).state, NextFate(f, s, c, h), h)
  {
    match c
    case OnInvite(i) =>
      if i.ListInvites? || i.hash != h {
        OtherInviteStep(s.tables, s.store, s.clock, i, h);
        hide PerformInvite;
      } else {
        match i
        case CreateInvite(_, _, _, _, _) => CreateStep(s, f, i, h);
        case RevokeInvite(_, _, _) => RevokeStep(s, f, i, h);
        case Join(_, user) => JoinStep(s, f, user, h);
      }
    case OnAuth(a) =>
      AuthCallKeepsInvites(s.tables, s.store, s.clock, a);
      hide PerformAuth;
    case _ =>
  }

  lemma SeatStep(s: State, f: Fate, c: Call, h: Id)
    requires Agrees(s, f, h) && Enabled(s, c)
    ensures SeatOf(NextFate(f, s, c, h)) == SeatOf(f) + SeatIn(s, c, h)
  {
    if c.OnInvite? && c.i.Join? && c.i.hash == h {
      JoinStep(s, f, c.i.actor, h);
    }
    hide Apply;
  }

  /** Call j created the invite, for this organisation and role. */
  ghost predicate IssuedAt(s: State, calls: seq<Call>, j: nat, h: Id, org: Id, role: Role) {
    && j < |calls| && calls[j].OnInvite? && calls[j].i.CreateInvite?
    && calls[j].i.hash == h && calls[j].i.org == org && calls[j].i.role == role
    && Reply(s, calls, j).status == 200
  }

  /** Call i joined the user with the invite: the one membership it made, and all it did to the tables, is this. */
  ghost predicate SeatedAt(s: State, calls: seq<Call>, i: nat, h: Id, org: Id, role: Role, user: Id) {
    && i < |calls| && calls[i] == OnInvite(Join(h, user)) && Reply(s, calls, i).status == 200
    && At(s, calls, i).tables.MemberRole(org, user).None?
    && At(s, calls, i + 1).tables == At(s, calls, i).tables.(members := At(s, calls, i).tables.members[(org, user) := role])
  }

  /** Call j issued it at this time for as long as the fate says: for the time asked for, or a day. */
  ghost predicate IssuedBy(s: State, calls: seq<Call>, j: nat, h: Id, f: Fate)
    requires f.Outstanding?
  {
    && IssuedAt(s, calls, j, h, f.org, f.role)
    && calls[j].i.actor == f.issuer && At(s, calls, j).clock == f.issuedAt
    && f.expiry == f.issuedAt + match calls[j].i.ttl case None => 86400 case Some(ttl) => if ttl == 0 then 86400 else ttl
  }

  /** The calls behind a fate: what is outstanding or consumed was issued for just that organisation and role, and
      what seated its user did so in one later call, with just that organisation and role. */
  ghost predicate Story(s: State, calls: seq<Call>, n: nat, h: Id, f: Fate) {
    && (f.Outstanding? ==> exists j: nat :: j < n && IssuedBy(s, calls, j, h, f))
    && (f.Consumed? ==> exists j: nat :: j < n && IssuedAt(s, calls, j, h, f.org, f.role))
    && (f.Consumed? && f.seated ==> exists i: nat :: i < n && SeatedAt(s, calls, i, h, f.org, f.role, f.user))
  }

  /** A successful join makes the member the record names. */
  lemma SeatMade(s: State, f: Fate, h: Id, user: Id)
    requires Agrees(s, f, h) && f.Outstanding? && Apply(s, OnInvite(Join(h, user))).status == 200
    ensures s.tables.MemberRole(f.org, user).None?
    ensures Apply(s, OnInvite(Join(h, user))).state.tables == s.tables.(members := s.tables.members[(f.org, user) := f.role])
  {
  }

  lemma StoryStep(s: State, calls: seq<Call>, n: nat, h: Id)
    requires n < |calls|
    requires Agrees(At(s, calls, n), FateAt(s, calls, n, h), h) && Story(s, calls, n, h, FateAt(s, calls, n, h))
    ensures Story(s, calls, n + 1, h, FateAt(s, calls, n + 1, h))
  {
    hide Agrees, Apply;
    var f, next, c := FateAt(s, calls, n, h), FateAt(s, calls, n + 1, h), calls[n];
    if next != f && next.Outstanding? {
      assert IssuedBy(s, calls, n, h, next);
    } else if next != f && next.Consumed? {
      var j: nat :| j < n && IssuedBy(s, calls, j, h, f);
      assert IssuedAt(s, calls, j, h, f.org, f.role);
      if next.seated {
        SeatMade(At(s, calls, n), f, h, c.i.actor);
        assert SeatedAt(s, calls, n, h, next.org, next.role, next.user);
      }
    }
  }

  /** Over any run of serialised calls each issued invite is exactly one of live, expired, revoked and consumed: it is
      live, as the store sees it, exactly while it is outstanding and its time has not come; and it has made one member
      if it was consumed by a join that succeeded, in exactly the organisation and role it was issued for, and none
      otherwise. */
  lemma {:induction false} Accounting(now: Time, calls: seq<Call>, n: nat, h: Id)
    requires Valid(Start(now), calls) && n <= |calls|
    ensures var s, f := At(Start(now), calls, n), FateAt(Start(now), calls, n, h);
      && Agrees(s, f, h)
      && (Live(s.store, s.clock, InviteKey(h)) <==> f.Outstanding? && s.clock < f.expiry)
      && Seats(Start(now), calls, n, h) == SeatOf(f)
      && Story(Start(now), calls, n, h, f)
  {
    hide Apply, Enabled, Inv, NextFate, SeatIn, Story;
    if n == 0 {
      assert Story(Start(now), calls, 0, h, Unissued) by { NoStory(Start(now), calls, h); }
    } else {
      Accounting(now, calls, n - 1, h);
      Reachable(now, calls, n - 1);
      var s, c := At(Start(now), calls, n - 1), calls[n - 1];
      assert Enabled(s, c);
      FateStep(s, FateAt(Start(now), calls, n - 1, h), c, h);
      SeatStep(s, FateAt(Start(now), calls, n - 1, h), c, h);
      StoryStep(Start(now), calls, n - 1, h);
    }
  }

  lemma NoStory(s: State, calls: seq<Call>, h: Id)
    ensures Story(s, calls, 0, h, Unissued)
  {
  }

  /** A fate once final stays: no later call consumes, revokes or reissues the invite. */
  lemma {:induction false} FatesAreFinal(now: Time, calls: seq<Call>, m: nat, n: nat, h: Id)
    requires Valid(Start(now), calls) && m <= n <= |calls|
    requires FateAt(Start(now), calls, m, h).Revoked? || FateAt(Start(now), calls, m, h).Consumed?
    ensures FateAt(Start(now), calls, n, h) == FateAt(Start(now), calls, m, h)
  {
    hide Inv, Apply, Enabled, NextFate;
    if m < n {
      FatesAreFinal(now, calls, m, n - 1, h);
      Accounting(now, calls, n - 1, h);
      var s, c := At(Start(now), calls, n - 1), calls[n - 1];
      assert Enabled(s, c);
      DeadInviteStep(s, FateAt(Start(now), calls, n - 1, h), c, h);
    }
  }

  lemma DeadInviteStep(s: State, f: Fate, c: Call, h: Id)
    requires Agrees(s, f, h) && (f.Revoked? || f.Consumed?) && Enabled(s, c)
    ensures NextFate(f, s, c, h) == f
  {
  }

  /** What a join comes to, in full. On success the one new membership is the invite's own organisation and role; a
      member who joins again leaves the invite intact; in an organisation since deleted it is burned for nothing. */
  lemma JoinOutcomes(s: State, h: Id, user: Id)
    requires Inv(s)
    ensures var a := Apply(s, OnInvite(Join(h, user)));
      if !Live(s.store, s.clock, InviteKey(h)) then a == Answer(s, 404, [])
      else
        var data := s.store[InviteKey(h)].value;
        if s.tables.MemberRole(data.org, user).Some? then a == Answer(s, 409, [])
        else
          && InviteKey(h) !in a.state.store && h !in SetMembers(a.state.store, IndexKey(data.org))
          && (a.status == 200 <==> data.org in s.tables.orgs && user in s.tables.users)
          && a.state.tables == (if a.status == 200 then s.tables.(members := s.tables.members[(data.org, user) := data.role]) else s.tables)
  {
    if Live(s.store, s.clock, InviteKey(h)) {
      IndexAfterRemove(Del(s.store, InviteKey(h)), s.store[InviteKey(h)].value.org, h, s.store[InviteKey(h)].value.org);
    }
  }

  /** In every reachable state what a listing says of an invite is what the call that issued it said: its role, its
      issuer and its time; and what is left of the time it was given. */
  lemma ItemsAsIssued(now: Time, calls: seq<Call>, n: nat, org: Id, item: InviteItem)
    requires Valid(Start(now), calls) && n <= |calls|
    requires var s := At(Start(now), calls, n); item in Items(s.store, s.clock, org, SetMembers(s.store, IndexKey(org)))
    ensures var s, f := At(Start(now), calls, n), FateAt(Start(now), calls, n, item.id);
      && f.Outstanding? && f.org == org
      && item.role == f.role && item.createdBy == f.issuer && item.createdAt == f.issuedAt
      && item.expiresIn == f.expiry - s.clock > 0
      && exists j: nat :: j < n && IssuedBy(Start(now), calls, j, item.id, f)
  {
    Accounting(now, calls, n, item.id);
    hide Apply, At, Start, FateAt, Valid, IssuedBy;
  }
}
