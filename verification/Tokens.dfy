/** Refresh sessions and one-time tokens over whole runs. */
module Tokens {
  import opened Prelude
  import opened Redis
  import opened Tables
  import opened Calls
  import opened StoreIntegrity

  /* ---------------- A record is written once, under the hash just drawn ---------------- */

  /** The record key a call writes when it succeeds. */
  function Writes(c: Call): Option<Key> {
    match c
    case OnInvite(i) => if i.CreateInvite? then Some(InviteKey(i.hash)) else None
    case OnAuth(a) =>
      (match a
       case Login(_, hash, _) => Some(RefreshKey(hash))
       case Rotate(_, next, _) => Some(RefreshKey(next))
       case AskVerify(_, hash) => Some(EmailKey(hash))
       case AskReset(_, hash) => Some(ResetKey(hash))
       case _ => None)
    case _ => None
  }

  lemma AuthRecords(t: Tables, store: Store, now: Time, c: AuthCall, key: Key)
    requires key in PerformAuth(t, store, now, c).0
    ensures (key in store && PerformAuth(t, store, now, c).0[key] == store[key]) || Writes(OnAuth(c)) == Some(key)
  {
  }

  lemma InviteRecords(t: Tables, store: Store, now: Time, c: InviteCall, key: Key)
    requires key in PerformInvite(t, store, now, c).0 && !key.IndexKey?
    ensures (key in store && PerformInvite(t, store, now, c).0[key] == store[key]) || Writes(OnInvite(c)) == Some(key)
  {
  }

  lemma Records(s: State, c: Call, key: Key)
    requires key in Apply(s, c).state.store && !key.IndexKey?
    ensures (key in s.store && Apply(s, c).state.store[key] == s.store[key]) || Writes(c) == Some(key)
  {
    hide PerformAuth, PerformInvite, PerformOrg, PerformWork;
    match c
    case OnAuth(a) => AuthRecords(s.tables, s.store, s.clock, a, key);
    case OnInvite(i) => InviteRecords(s.tables, s.store, s.clock, i, key);
    case _ =>
  }

  lemma WritesDrawn(c: Call)
    requires Writes(c).Some?
    ensures !Writes(c).value.IndexKey? && Writes(c).value.hash in Draws(c)
  {
  }

  lemma ClockForward(s: State, c: Call)
    ensures s.clock <= Apply(s, c).state.clock && s.issued <= Apply(s, c).state.issued
    ensures Draws(c) <= Apply(s, c).state.issued
  {
    hide PerformAuth, PerformInvite, PerformOrg, PerformWork, Draws;
  }

  /** A token that was drawn and is not live, because used, revoked or expired, is never live again. */
  lemma {:induction false} NeverAgain(now: Time, calls: seq<Call>, m: nat, n: nat, key: Key)
    requires Valid(Start(now), calls) && m <= n <= |calls| && !key.IndexKey?
    requires key.hash in At(Start(now), calls, m).issued
    requires !Live(At(Start(now), calls, m).store, At(Start(now), calls, m).clock, key)
    ensures key.hash in At(Start(now), calls, n).issued
    ensures !Live(At(Start(now), calls, n).store, At(Start(now), calls, n).clock, key)
  {
    hide Apply, Writes, Draws;
    if m < n {
      NeverAgain(now, calls, m, n - 1, key);
      var s, c := At(Start(now), calls, n - 1), calls[n - 1];
      assert Enabled(s, c);
      ClockForward(s, c);
      if key in Apply(s, c).state.store {
        Records(s, c, key);
        if Writes(c).Some? { WritesDrawn(c); }
      }
    }
  }

  /** The record a call uses up or ends. */
  function Ends(c: Call): Option<Key> {
    match c
    case OnInvite(i) => if i.Join? || i.RevokeInvite? then Some(InviteKey(i.hash)) else None
    case OnAuth(a) =>
      (match a
       case Rotate(hash, _, _) => Some(RefreshKey(hash))
       case Logout(hash) => Some(RefreshKey(hash))
       case Verify(hash) => Some(EmailKey(hash))
       case ResetPassword(hash, _) => Some(ResetKey(hash))
       case _ => None)
    case _ => None
  }

  lemma EndedByInviteCall(t: Tables, store: Store, now: Time, c: InviteCall)
    requires WellTyped(store) && Ends(OnInvite(c)).Some? && PerformInvite(t, store, now, c).1.Ok?
    ensures Ends(OnInvite(c)).value !in PerformInvite(t, store, now, c).0
  {
  }

  lemma EndedByAuthCall(t: Tables, store: Store, now: Time, issued: set<Id>, c: AuthCall)
    requires StoreInv(store, now, issued) && Draws(OnAuth(c)) !! issued
    requires Ends(OnAuth(c)).Some? && PerformAuth(t, store, now, c).1.Ok?
    ensures Ends(OnAuth(c)).value !in PerformAuth(t, store, now, c).0
  {
  }

  lemma EndedIsGone(s: State, c: Call)
    requires Inv(s) && Enabled(s, c) && Ends(c).Some? && Apply(s, c).status == 200
    ensures Ends(c).value !in Apply(s, c).state.store
  {
    hide Ends, PerformOrg, PerformWork;
    if c.OnInvite? {
      if PerformInvite(s.tables, s.store, s.clock, c.i).1.Ok? { EndedByInviteCall(s.tables, s.store, s.clock, c.i); }
      hide PerformInvite;
    } else if c.OnAuth? {
      if PerformAuth(s.tables, s.store, s.clock, c.a).1.Ok? { EndedByAuthCall(s.tables, s.store, s.clock, s.issued, c.a); }
      hide PerformAuth;
    } else {
      NothingEnded(c);
    }
  }

  lemma NothingEnded(c: Call)
    requires !c.OnInvite? && !c.OnAuth?
    ensures Ends(c).None?
  {
  }

  predicate IsLogout(c: Call) {
    c.OnAuth? && c.a.Logout?
  }

  lemma EndingNeedsLive(s: State, c: Call)
    requires Ends(c).Some? && !IsLogout(c) && !Live(s.store, s.clock, Ends(c).value)
    ensures Apply(s, c).status != 200
  {
  }

  lemma EndedStaysEnded(now: Time, calls: seq<Call>, i: nat, j: nat)
    requires Valid(Start(now), calls) && i < j <= |calls|
    requires Ends(calls[i]).Some? && Reply(Start(now), calls, i).status == 200
    requires Ends(calls[i]).value.hash in At(Start(now), calls, i).issued
    ensures !Live(At(Start(now), calls, j).store, At(Start(now), calls, j).clock, Ends(calls[i]).value)
  {
    hide Inv, Enabled, Draws, Apply;
    var s := At(Start(now), calls, i);
    Reachable(now, calls, i);
    assert Enabled(s, calls[i]);
    EndedIsGone(s, calls[i]);
    EndsRecord(calls[i]);
    ClockForward(s, calls[i]);
    hide Ends;
    assert At(Start(now), calls, i + 1) == Apply(s, calls[i]).state;
    NeverAgain(now, calls, i + 1, j, Ends(calls[i]).value);
  }

  lemma EndsRecord(c: Call)
    requires Ends(c).Some?
    ensures !Ends(c).value.IndexKey?
  {
  }

  /** Every token works once: after a call that used or ended it succeeded, no later call can use it. A refresh token
      is used by rotation, an invite by a join; logging out or revoking ends a token that was drawn. */
  lemma SingleUse(now: Time, calls: seq<Call>, i: nat, j: nat, key: Key)
    requires Valid(Start(now), calls) && i < j < |calls| && !key.IndexKey?
    ensures Ends(calls[i]) == Ends(calls[j]) == Some(key) && !IsLogout(calls[j])
        && key.hash in At(Start(now), calls, i).issued && Reply(Start(now), calls, i).status == 200
        ==> Reply(Start(now), calls, j).status != 200
  {
    hide Apply, Live, Ends;
    if Ends(calls[i]) == Ends(calls[j]) == Some(key) && !IsLogout(calls[j])
       && key.hash in At(Start(now), calls, i).issued && Reply(Start(now), calls, i).status == 200 {
      EndedStaysEnded(now, calls, i, j);
      EndingNeedsLive(At(Start(now), calls, j), calls[j]);
    }
  }

  /** A hash drawn for a token of one kind is never, before or after, the hash of a record of another kind: a token of
      one kind is never accepted as another. */
  lemma {:induction false} OneKind(now: Time, calls: seq<Call>, i: nat, n: nat, other: Key)
    requires Valid(Start(now), calls) && i < |calls| && n <= |calls|
    requires Writes(calls[i]).Some? && !other.IndexKey?
    requires other != Writes(calls[i]).value && other.hash == Writes(calls[i]).value.hash
    ensures other !in At(Start(now), calls, n).store
  {
    hide Apply, Writes, Draws, Inv;
    var h := other.hash;
    WritesDrawn(calls[i]);
    if n <= i {
      Reachable(now, calls, n);
      IssuedGrows(now, calls, n, i);
      assert Enabled(At(Start(now), calls, i), calls[i]);
      NotIssuedNotStored(At(Start(now), calls, n), other);
    } else {
      OneKind(now, calls, i, n - 1, other);
      var s, c := At(Start(now), calls, n - 1), calls[n - 1];
      if other in Apply(s, c).state.store {
        Records(s, c, other);
        if i < n - 1 {
          IssuedGrows(now, calls, i + 1, n - 1);
          ClockForward(At(Start(now), calls, i), calls[i]);
          assert Enabled(s, c);
          WritesDrawn(c);
        }
      }
    }
  }

  lemma NotIssuedNotStored(s: State, key: Key)
    requires Inv(s) && !key.IndexKey? && key.hash !in s.issued
    ensures key !in s.store
  {
  }

  lemma {:induction false} IssuedGrows(now: Time, calls: seq<Call>, m: nat, n: nat)
    requires m <= n <= |calls|
    ensures At(Start(now), calls, m).issued <= At(Start(now), calls, n).issued
  {
    hide Apply;
    if m < n {
      IssuedGrows(now, calls, m, n - 1);
      ClockForward(At(Start(now), calls, n - 1), calls[n - 1]);
    }
  }

  /* ---------------- Refresh families ---------------- */

  /** Call i logged the user in. */
  predicate LoggedIn(s: State, calls: seq<Call>, i: nat, uid: Id)
    requires i < |calls|
  {
    calls[i].OnAuth? && calls[i].a.Login? && calls[i].a.user == uid && Reply(s, calls, i).status == 200
  }

  /** The login each refresh token descends from: its own, or that of the token it was rotated from. */
  function NextRoots(roots: map<Id, nat>, s: State, c: Call, n: nat): map<Id, nat> {
    if !c.OnAuth? || Apply(s, c).status != 200 then roots
    else
      match c.a
      case Login(_, hash, _) => roots[hash := n]
      case Rotate(hash, next, _) => if hash in roots then roots[next := roots[hash]] else roots
      case _ => roots
  }

  function Roots(s: State, calls: seq<Call>, n: nat): map<Id, nat>
    requires n <= |calls|
  {
    if n == 0 then map[] else NextRoots(Roots(s, calls, n - 1), At(s, calls, n - 1), calls[n - 1], n - 1)
  }

  /** Each stored session has a root, belongs to the user who logged in there, and is the only one with that root. */
  ghost predicate Families(s: State, calls: seq<Call>, n: nat, store: Store, roots: map<Id, nat>) {
    && (forall h :: RefreshKey(h) in store && store[RefreshKey(h)].Record? && store[RefreshKey(h)].value.SessionJson? ==>
          h in roots && roots[h] < n <= |calls| && LoggedIn(s, calls, roots[h], store[RefreshKey(h)].value.uid))
    && (forall a, b :: RefreshKey(a) in store && RefreshKey(b) in store && a in roots && b in roots && roots[a] == roots[b] ==> a == b)
    && (forall h :: h in roots ==> roots[h] < n)
  }

  lemma LoginFamily(s0: State, calls: seq<Call>, n: nat, roots: map<Id, nat>)
    requires n < |calls| && calls[n].OnAuth? && calls[n].a.Login?
    requires var s := At(s0, calls, n); Inv(s) && Enabled(s, calls[n]) && Families(s0, calls, n, s.store, roots)
    ensures var s := At(s0, calls, n); Families(s0, calls, n + 1, Apply(s, calls[n]).state.store, NextRoots(roots, s, calls[n], n))
  {
    hide LoggedIn;
    var s, c := At(s0, calls, n), calls[n].a;
    LoginLogsIn(s0, calls, n);
    hide At;
  }

  lemma LoginLogsIn(s: State, calls: seq<Call>, n: nat)
    requires n < |calls| && calls[n].OnAuth? && calls[n].a.Login?
    ensures Apply(At(s, calls, n), calls[n]).status == 200 ==> LoggedIn(s, calls, n, calls[n].a.user)
  {
  }

  lemma RotateFamily(s0: State, s: State, calls: seq<Call>, n: nat, roots: map<Id, nat>)
    requires n < |calls| && calls[n].OnAuth? && calls[n].a.Rotate?
    requires Inv(s) && Enabled(s, calls[n]) && Families(s0, calls, n, s.store, roots)
    ensures Families(s0, calls, n + 1, Apply(s, calls[n]).state.store, NextRoots(roots, s, calls[n], n))
  {
    hide LoggedIn;
    var Rotate(hash, next, _) := calls[n].a;
    assert RefreshKey(next) !in s.store;
    assert RefreshKey(hash) in s.store ==> s.store[RefreshKey(hash)].Record? && s.store[RefreshKey(hash)].value.SessionJson?;
  }

  lemma OtherFamily(s0: State, s: State, calls: seq<Call>, n: nat, roots: map<Id, nat>)
    requires n < |calls| && Families(s0, calls, n, s.store, roots)
    requires !(calls[n].OnAuth? && (calls[n].a.Rotate? || calls[n].a.Login?))
    ensures Families(s0, calls, n + 1, Apply(s, calls[n]).state.store, NextRoots(roots, s, calls[n], n))
  {
    hide LoggedIn;
    var after := Apply(s, calls[n]).state.store;
    forall h | RefreshKey(h) in after ensures RefreshKey(h) in s.store && after[RefreshKey(h)] == s.store[RefreshKey(h)] {
      Records(s, calls[n], RefreshKey(h));
    }
    assert NextRoots(roots, s, calls[n], n) == roots;
    hide Apply;
  }

  /** In every run of logins, rotations, logouts and expiry, each login has at most one session descended from it, and
      that session carries the login's user. */
  lemma {:induction false} OneSessionPerLogin(now: Time, calls: seq<Call>, n: nat)
    requires Valid(Start(now), calls) && n <= |calls|
    ensures Families(Start(now), calls, n, At(Start(now), calls, n).store, Roots(Start(now), calls, n))
  {
    hide Apply, Inv, Enabled, NextRoots, LoggedIn, Families;
    if n == 0 {
      NoFamilies(Start(now), calls);
    } else {
      OneSessionPerLogin(now, calls, n - 1);
      Reachable(now, calls, n - 1);
      var s, roots, c := At(Start(now), calls, n - 1), Roots(Start(now), calls, n - 1), calls[n - 1];
      assert Enabled(s, c);
      if c.OnAuth? && c.a.Login? { LoginFamily(Start(now), calls, n - 1, roots); }
      else if c.OnAuth? && c.a.Rotate? { RotateFamily(Start(now), s, calls, n - 1, roots); }
      else { OtherFamily(Start(now), s, calls, n - 1, roots); }
    }
  }

  lemma NoFamilies(s: State, calls: seq<Call>)
    ensures Families(s, calls, 0, map[], map[])
  {
  }

  function Sessions(s: State, uid: Id): set<Key> {
    set key | key in s.store && key.RefreshKey? && Live(s.store, s.clock, key)
                && s.store[key].value.SessionJson? && s.store[key].value.uid == uid
  }

  function Logins(s: State, calls: seq<Call>, n: nat, uid: Id): set<nat>
    requires n <= |calls|
  {
    set i: nat | i < n && LoggedIn(s, calls, i, uid)
  }

  /** A user's live sessions never outnumber the user's successful logins. */
  lemma SessionsBounded(now: Time, calls: seq<Call>, n: nat, uid: Id)
    requires Valid(Start(now), calls) && n <= |calls|
    ensures |Sessions(At(Start(now), calls, n), uid)| <= |Logins(Start(now), calls, n, uid)|
  {
    OneSessionPerLogin(now, calls, n);
    hide Apply, At, Roots, LoggedIn;
    var s, roots := At(Start(now), calls, n), Roots(Start(now), calls, n);
    var root := map key | key in Sessions(s, uid) :: roots[key.hash];
    InjectionSize(Sessions(s, uid), Logins(Start(now), calls, n, uid), root);
  }
}
