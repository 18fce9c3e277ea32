/** What holds of the store in every reachable state, and the invariant of whole runs. */
module StoreIntegrity {
  import opened Prelude
  import opened Redis
  import opened Tables
  import opened Calls
  import opened Integrity

  /** A live invite is in its organisation's index. */
  ghost predicate Indexed(store: Store, now: Time) {
    forall h :: Live(store, now, InviteKey(h)) && store[InviteKey(h)].value.InviteJson? ==>
      h in SetMembers(store, IndexKey(store[InviteKey(h)].value.org))
  }

  /** Hashes in the store were drawn, and a drawn hash names one record: a token of one kind is not also one of
      another. */
  ghost predicate Drawn(store: Store, issued: set<Id>) {
    && (forall key :: key in store && !key.IndexKey? ==> key.hash in issued)
    && (forall a, b :: a in store && b in store && !a.IndexKey? && !b.IndexKey? && a.hash == b.hash ==> a == b)
    && (forall org, h :: h in SetMembers(store, IndexKey(org)) ==> h in issued)
  }

  ghost predicate StoreInv(store: Store, now: Time, issued: set<Id>) {
    WellTyped(store) && RolesAllowed(store) && Indexed(store, now) && Drawn(store, issued)
  }

  predicate Fits(key: Key, value: Json) {
    match key
    case RefreshKey(_) => value.SessionJson?
    case EmailKey(_) => value.TokenJson?
    case ResetKey(_) => value.TokenJson?
    case InviteKey(_) => value.InviteJson? && value.role in ALLOWED_ROLES
    case IndexKey(_) => false
  }

  lemma SetKeeps(store: Store, now: Time, issued: set<Id>, key: Key, value: Json, ttl: nat)
    requires StoreInv(store, now, issued) && Fits(key, value) && !key.InviteKey? && key.hash !in issued
    ensures StoreInv(SetJson(store, now, key, value, ttl), now, issued + {key.hash})
  {
    var after := SetJson(store, now, key, value, ttl);
    assert forall org :: SetMembers(after, IndexKey(org)) == SetMembers(store, IndexKey(org));
  }

  lemma IndexAfterAdd(store: Store, org: Id, h: Id, other: Id)
    requires WellTyped(store)
    ensures SetMembers(SetAdd(store, IndexKey(org), h), IndexKey(other))
         == if other == org then SetMembers(store, IndexKey(org)) + {h} else SetMembers(store, IndexKey(other))
  {
  }

  lemma IndexAfterRemove(store: Store, org: Id, h: Id, other: Id)
    requires WellTyped(store)
    ensures SetMembers(SetRemove(store, IndexKey(org), h), IndexKey(other))
         == if other == org then SetMembers(store, IndexKey(org)) - {h} else SetMembers(store, IndexKey(other))
  {
  }

  lemma InviteKeeps(store: Store, now: Time, issued: set<Id>, org: Id, h: Id, value: Json, ttl: nat)
    requires StoreInv(store, now, issued) && Fits(InviteKey(h), value) && value.org == org && h !in issued
    ensures StoreInv(SetAdd(SetJson(store, now, InviteKey(h), value, ttl), IndexKey(org), h), now, issued + {h})
  {
    var put := SetJson(store, now, InviteKey(h), value, ttl);
    var after := SetAdd(put, IndexKey(org), h);
    forall o ensures SetMembers(after, IndexKey(o)) == SetMembers(store, IndexKey(o)) + if o == org then {h} else {} {
      IndexAfterAdd(put, org, h, o);
      assert SetMembers(put, IndexKey(o)) == SetMembers(store, IndexKey(o));
    }
  }

  lemma DelKeeps(store: Store, now: Time, issued: set<Id>, key: Key)
    requires StoreInv(store, now, issued) && !key.IndexKey?
    ensures StoreInv(Del(store, key), now, issued)
  {
    assert forall org :: SetMembers(Del(store, key), IndexKey(org)) == SetMembers(store, IndexKey(org));
  }

  lemma UnindexKeeps(store: Store, now: Time, issued: set<Id>, org: Id, h: Id)
    requires StoreInv(store, now, issued) && !Live(store, now, InviteKey(h))
    ensures StoreInv(SetRemove(store, IndexKey(org), h), now, issued)
  {
    var after := SetRemove(store, IndexKey(org), h);
    forall o ensures SetMembers(after, IndexKey(o)) == SetMembers(store, IndexKey(o)) - if o == org then {h} else {} {
      IndexAfterRemove(store, org, h, o);
    }
    forall x | Live(after, now, InviteKey(x)) ensures x in SetMembers(after, IndexKey(after[InviteKey(x)].value.org)) {
      assert Live(store, now, InviteKey(x));
    }
  }

  lemma PruneKeeps(store: Store, now: Time, issued: set<Id>, org: Id)
    requires StoreInv(store, now, issued)
    ensures StoreInv(Pruned(store, now, org), now, issued)
    ensures SetMembers(Pruned(store, now, org), IndexKey(org)) == set h | h in SetMembers(store, IndexKey(org)) && OrgInvite(store, now, org, h)
  {
    var after := Pruned(store, now, org);
    assert forall o :: o != org ==> SetMembers(after, IndexKey(o)) == SetMembers(store, IndexKey(o));
    forall x | Live(after, now, InviteKey(x)) ensures x in SetMembers(after, IndexKey(after[InviteKey(x)].value.org)) {
      assert Live(store, now, InviteKey(x));
    }
  }

  lemma MoreIssued(store: Store, now: Time, issued: set<Id>, more: set<Id>)
    requires StoreInv(store, now, issued) && issued <= more
    ensures StoreInv(store, now, more)
  {
  }

  lemma InviteCallKeepsStore(t: Tables, store: Store, now: Time, issued: set<Id>, c: InviteCall)
    requires StoreInv(store, now, issued) && Draws(OnInvite(c)) !! issued
    ensures StoreInv(PerformInvite(t, store, now, c).0, now, issued + Draws(OnInvite(c)))
  {
    MoreIssued(store, now, issued, issued + Draws(OnInvite(c)));
    match c
    case CreateInvite(org, actor, role, ttl, hash) =>
      if CreateInviteOn(t, store, now, org, actor, role, ttl, hash).Ok? {
        InviteKeeps(store, now, issued, org, hash, InviteJson(org, role, actor, now), InviteTtl(ttl));
      }
    case ListInvites(org, actor) => PruneKeeps(store, now, issued, org);
    case RevokeInvite(org, actor, hash) =>
      DelKeeps(store, now, issued, InviteKey(hash));
      UnindexKeeps(Del(store, InviteKey(hash)), now, issued, org, hash);
    case Join(hash, actor) =>
      DelKeeps(store, now, issued, InviteKey(hash));
      if Live(store, now, InviteKey(hash)) {
        UnindexKeeps(Del(store, InviteKey(hash)), now, issued, store[InviteKey(hash)].value.org, hash);
      }
  }

  lemma AuthCallKeepsStore(t: Tables, store: Store, now: Time, issued: set<Id>, c: AuthCall)
    requires StoreInv(store, now, issued) && Draws(OnAuth(c)) !! issued
    ensures StoreInv(PerformAuth(t, store, now, c).0, now, issued + Draws(OnAuth(c)))
  {
    var more := issued + Draws(OnAuth(c));
    MoreIssued(store, now, issued, more);
    match c
    case Login(user, hash, sid) =>
      SetKeeps(store, now, issued, RefreshKey(hash), SessionJson(sid, user, now, None), REFRESH_TTL);
      MoreIssued(SetJson(store, now, RefreshKey(hash), SessionJson(sid, user, now, None), REFRESH_TTL), now, issued + {hash}, more);
    case Rotate(hash, next, sid) =>
      if RotateOn(store, now, hash, next, sid).Ok? {
        var session := GetJson(store, now, RefreshKey(hash)).value;
        DelKeeps(store, now, issued, RefreshKey(hash));
        SetKeeps(Del(store, RefreshKey(hash)), now, issued, RefreshKey(next), SessionJson(sid, session.uid, now, Some(session.sid)), REFRESH_TTL);
        MoreIssued(RotateOn(store, now, hash, next, sid).value.0, now, issued + {next}, more);
      }
    case Logout(hash) => DelKeeps(store, now, more, RefreshKey(hash));
    case AskVerify(user, hash) => SetKeeps(store, now, issued, EmailKey(hash), TokenJson(user, now), EMAIL_TTL);
    case AskReset(user, hash) => SetKeeps(store, now, issued, ResetKey(hash), TokenJson(user, now), RESET_TTL);
    case Verify(hash) => DelKeeps(store, now, more, EmailKey(hash));
    case ResetPassword(hash, password) => DelKeeps(store, now, more, ResetKey(hash));
    case Register(_, _) =>
  }

  /** Sessions and one-time tokens leave invites and their indexes alone. */
  lemma AuthCallKeepsInvites(t: Tables, store: Store, now: Time, c: AuthCall)
    ensures forall h :: InviteKey(h) in store <==> InviteKey(h) in PerformAuth(t, store, now, c).0
    ensures forall h :: InviteKey(h) in store ==> PerformAuth(t, store, now, c).0[InviteKey(h)] == store[InviteKey(h)]
    ensures forall o :: IndexKey(o) in store <==> IndexKey(o) in PerformAuth(t, store, now, c).0
    ensures forall o :: IndexKey(o) in store ==> PerformAuth(t, store, now, c).0[IndexKey(o)] == store[IndexKey(o)]
  {
  }

  /* ---------------- Whole runs ---------------- */

  /** Every row's identifier was drawn, so it never comes back once the row is gone. */
  ghost predicate DrawnRows(t: Tables, issued: set<Id>) {
    t.orgs.Keys <= issued && t.projects.Keys <= issued && t.tasks.Keys <= issued
  }

  lemma OrgCallDrawn(t: Tables, issued: set<Id>, c: OrgCall)
    requires DrawnRows(t, issued) && PerformOrg(t, c).Ok?
    ensures DrawnRows(PerformOrg(t, c).value, issued + Draws(OnOrg(c)))
  {
  }

  lemma WorkCallDrawn(t: Tables, issued: set<Id>, now: Time, c: WorkCall)
    requires DrawnRows(t, issued) && PerformWork(t, now, c).Ok?
    ensures DrawnRows(PerformWork(t, now, c).value.0, issued + Draws(OnWork(c)))
  {
  }

  ghost predicate Inv(s: State) {
    && Sound(s.tables) && Owned(s.tables)
    && StoreInv(s.store, s.clock, s.issued)
    && DrawnRows(s.tables, s.issued)
  }

  lemma TableCallKeepsInv(s: State, c: Call)
    requires Inv(s) && Enabled(s, c) && (c.OnOrg? || c.OnWork?)
    ensures Inv(Apply(s, c).state)
  {
    MoreIssued(s.store, s.clock, s.issued, s.issued + Draws(c));
    if c.OnOrg? {
      if PerformOrg(s.tables, c.o).Ok? { OrgCallKeeps(s.tables, c.o); OrgCallDrawn(s.tables, s.issued, c.o); }
    } else {
      if PerformWork(s.tables, s.clock, c.w).Ok? { WorkCallKeeps(s.tables, s.clock, c.w); WorkCallDrawn(s.tables, s.issued, s.clock, c.w); }
    }
  }

  /** Invites touch no table but members. */
  lemma InviteCallTables(t: Tables, store: Store, now: Time, c: InviteCall)
    requires PerformInvite(t, store, now, c).1.Ok?
    ensures var after := PerformInvite(t, store, now, c).1.value;
      && after == t.(members := after.members)
      && (!c.Join? ==> after == t)
  {
  }

  lemma InviteCallKeepsInv(s: State, c: InviteCall)
    requires Inv(s) && Enabled(s, OnInvite(c))
    ensures Inv(Apply(s, OnInvite(c)).state)
  {
    InviteCallKeepsStore(s.tables, s.store, s.clock, s.issued, c);
    if PerformInvite(s.tables, s.store, s.clock, c).1.Ok? {
      InviteCallKeeps(s.tables, s.store, s.clock, c);
      InviteCallTables(s.tables, s.store, s.clock, c);
    }
  }

  lemma AuthCallKeepsInv(s: State, c: AuthCall)
    requires Inv(s) && Enabled(s, OnAuth(c))
    ensures Inv(Apply(s, OnAuth(c)).state)
  {
    AuthCallKeepsStore(s.tables, s.store, s.clock, s.issued, c);
    if PerformAuth(s.tables, s.store, s.clock, c).1.Ok? {
      AuthCallKeeps(s.tables, s.store, s.clock, c);
      AuthCallTables(s.tables, s.store, s.clock, c);
    }
  }

  lemma CallKeepsInv(s: State, c: Call)
    requires Inv(s) && Enabled(s, c)
    ensures Inv(Apply(s, c).state)
  {
    match c
    case Tick(_) =>
    case OnInvite(i) => InviteCallKeepsInv(s, i);
    case OnAuth(a) => AuthCallKeepsInv(s, a);
    case _ => TableCallKeepsInv(s, c);
  }

  lemma StartInv(now: Time)
    ensures Inv(Start(now))
  {
  }

  /** In every reachable state of serialised calls: references land, tasks lie in projects of their own
      organisation, statuses and roles are allowed, every organisation has an owner, the store is well typed, every
      live invite is indexed and no token is of two kinds. */
  lemma {:induction false} Reachable(now: Time, calls: seq<Call>, n: nat)
    requires Valid(Start(now), calls) && n <= |calls|
    ensures Inv(At(Start(now), calls, n))
  {
    hide Apply, Inv;
    if n == 0 {
      StartInv(now);
    } else {
      Reachable(now, calls, n - 1);
      assert Enabled(At(Start(now), calls, n - 1), calls[n - 1]);
      CallKeepsInv(At(Start(now), calls, n - 1), calls[n - 1]);
    }
  }
}
