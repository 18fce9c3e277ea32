/** Where ownership comes from: only an OWNER makes an OWNER, over runs of any length. */
module Owners {
  import opened Prelude
  import opened Redis
  import opened Tables
  import opened Calls
  import opened Integrity
  import opened StoreIntegrity

  /* ---------------- Without an owner's request ---------------- */

  predicate IsOwner(t: Tables, org: Id, user: Id) {
    t.MemberRole(org, user) == Some(OWNER)
  }

  /** A call on the organisation, or for an invite to it, made by one of its owners. */
  predicate OwnersRequest(s: State, c: Call, org: Id) {
    match c
    case OnOrg(o) => o.org == org && IsOwner(s.tables, org, o.actor)
    case OnInvite(i) => i.CreateInvite? && i.org == org && IsOwner(s.tables, org, i.actor)
    case _ => false
  }

  predicate OwnerInvite(store: Store, now: Time, org: Id, h: Id) {
    OrgInvite(store, now, org, h) && store[InviteKey(h)].value.role == OWNER
  }

  ghost predicate NoOwnerInvite(store: Store, now: Time, org: Id) {
    forall h :: !OwnerInvite(store, now, org, h)
  }

  lemma OrgCallNeedsOwner(t: Tables, c: OrgCall, org: Id)
    requires PerformOrg(t, c).Ok?
    requires c.org == org ==> !c.CreateOrg? && !IsOwner(t, org, c.actor)
    ensures PerformOrg(t, c).value.Owners(org) == t.Owners(org)
  {
    if c.org != org {
      OwnersElsewhere(t, PerformOrg(t, c).value, org);
    }
  }

  lemma InviteCallNeedsOwner(t: Tables, store: Store, now: Time, issued: set<Id>, c: InviteCall, org: Id)
    requires StoreInv(store, now, issued) && Draws(OnInvite(c)) !! issued && NoOwnerInvite(store, now, org)
    requires !(c.CreateInvite? && c.org == org && IsOwner(t, org, c.actor))
    ensures var (after, r) := PerformInvite(t, store, now, c);
      NoOwnerInvite(after, now, org) && (r.Ok? ==> r.value.Owners(org) == t.Owners(org))
  {
    var (after, r) := PerformInvite(t, store, now, c);
    OwnerInvitesKept(t, store, now, c, org);
    if c.Join? && r.Ok? {
      assert !OwnerInvite(store, now, org, c.hash);
    }
  }

  lemma OwnerInvitesKept(t: Tables, store: Store, now: Time, c: InviteCall, org: Id)
    requires NoOwnerInvite(store, now, org)
    requires !(c.CreateInvite? && c.org == org && IsOwner(t, org, c.actor))
    ensures NoOwnerInvite(PerformInvite(t, store, now, c).0, now, org)
  {
    var after := PerformInvite(t, store, now, c).0;
    forall h ensures !OwnerInvite(after, now, org, h) {
      assert !OwnerInvite(store, now, org, h);
    }
  }

  ghost predicate Quiet(s: State, org: Id) {
    NoOwnerInvite(s.store, s.clock, org) && org in s.issued
  }

  lemma TickNeedsOwner(s: State, seconds: nat, org: Id)
    requires Quiet(s, org)
    ensures Quiet(Apply(s, Tick(seconds)).state, org)
  {
    var after := Apply(s, Tick(seconds)).state;
    forall h ensures !OwnerInvite(after.store, after.clock, org, h) {
      assert !OwnerInvite(s.store, s.clock, org, h);
    }
  }

  lemma WorkCallNeedsOwner(s: State, c: WorkCall, org: Id)
    requires Quiet(s, org)
    ensures Quiet(Apply(s, OnWork(c)).state, org) && Apply(s, OnWork(c)).state.tables.Owners(org) == s.tables.Owners(org)
  {
    if PerformWork(s.tables, s.clock, c).Ok? {
      WorkCallMembers(s.tables, s.clock, c);
      OwnersElsewhere(s.tables, PerformWork(s.tables, s.clock, c).value.0, org);
    }
    hide PerformWork;
  }

  lemma AuthCallNeedsOwner(s: State, c: AuthCall, org: Id)
    requires Quiet(s, org)
    ensures Quiet(Apply(s, OnAuth(c)).state, org) && Apply(s, OnAuth(c)).state.tables.Owners(org) == s.tables.Owners(org)
  {
    AuthCallKeepsInvites(s.tables, s.store, s.clock, c);
    var (after, r) := PerformAuth(s.tables, s.store, s.clock, c);
    if r.Ok? {
      AuthCallTables(s.tables, s.store, s.clock, c);
      OwnersElsewhere(s.tables, r.value, org);
    }
    hide PerformAuth;
    forall h ensures !OwnerInvite(after, s.clock, org, h) {
      assert !OwnerInvite(s.store, s.clock, org, h);
    }
  }

  lemma CallNeedsOwner(s: State, c: Call, org: Id)
    requires Inv(s) && Enabled(s, c) && Quiet(s, org) && !OwnersRequest(s, c, org)
    ensures Quiet(Apply(s, c).state, org)
    ensures Apply(s, c).state.tables.Owners(org) == s.tables.Owners(org)
  {
    match c
    case Tick(seconds) => TickNeedsOwner(s, seconds, org);
    case OnOrg(o) => hide PerformOrg; if PerformOrg(s.tables, o).Ok? { OrgCallNeedsOwner(s.tables, o, org); }
    case OnInvite(i) => hide PerformInvite; InviteCallNeedsOwner(s.tables, s.store, s.clock, s.issued, i, org);
    case OnWork(w) => WorkCallNeedsOwner(s, w, org);
    case OnAuth(a) => AuthCallNeedsOwner(s, a, org);
  }

  /** A run in which no owner of an organisation asks for anything on it, started with no OWNER invite to it live,
      leaves its owners exactly as they were and no OWNER invite live. */
  lemma {:induction false} OwnersStandStill(s: State, calls: seq<Call>, n: nat, org: Id)
    requires Inv(s) && Valid(s, calls) && n <= |calls| && org in s.issued
    requires NoOwnerInvite(s.store, s.clock, org)
    requires forall k :: 0 <= k < n ==> !OwnersRequest(At(s, calls, k), calls[k], org)
    ensures var after := At(s, calls, n);
      && Inv(after) && org in after.issued
      && after.tables.Owners(org) == s.tables.Owners(org)
      && NoOwnerInvite(after.store, after.clock, org)
  {
    hide Apply, Inv;
    if n > 0 {
      OwnersStandStill(s, calls, n - 1, org);
      var before := At(s, calls, n - 1);
      assert Enabled(before, calls[n - 1]) && !OwnersRequest(before, calls[n - 1], org);
      CallNeedsOwner(before, calls[n - 1], org);
      CallKeepsInv(before, calls[n - 1]);
    }
  }

  /* ---------------- Grant chains ---------------- */

  /** How somebody came by the OWNER role: as founder in call `at`, or in call `at` by a grant made in call `issued`
      (an invite is granted when it is created) by somebody who owned the organisation then. */
  datatype Chain = Founded(at: nat) | Granted(at: nat, issued: nat, granter: Id, upto: Chain)

  /** Call `at` made `user` an owner by itself. */
  predicate DirectGrant(c: Call, org: Id, granter: Id, user: Id) {
    && c.OnOrg?
    && c.o.org == org && c.o.actor == granter
    && match c.o
       case AddMember(_, _, u, role) => u == user && role == OWNER
       case ChangeRole(_, _, u, role) => u == user && role == OWNER
       case Transfer(_, _, u) => u == user
       case _ => false
  }

  predicate Founds(c: Call, org: Id, user: Id) {
    c.OnOrg? && c.o.CreateOrg? && c.o.org == org && c.o.actor == user
  }

  predicate OffersOwnership(c: Call, org: Id, granter: Id, h: Id) {
    c.OnInvite? && c.i.CreateInvite? && c.i.org == org && c.i.actor == granter && c.i.role == OWNER && c.i.hash == h
  }

  predicate Accepts(c: Call, h: Id, user: Id) {
    c.OnInvite? && c.i == Join(h, user)
  }

  /** Every link of the chain is a successful call of the run, earlier than `bound`, after which the user has been an
      owner up to `bound`, and each granter's own chain reaches up to the moment the grant was issued. */
  ghost predicate Provenance(s: State, calls: seq<Call>, org: Id, user: Id, chain: Chain, bound: nat)
    decreases chain
  {
    && chain.at < bound <= |calls|
    && Reply(s, calls, chain.at).status == 200
    && (forall k :: chain.at < k <= bound ==> IsOwner(At(s, calls, k).tables, org, user))
    && match chain
       case Founded(at) => Founds(calls[at], org, user)
       case Granted(at, issued, granter, upto) =>
         && issued <= at
         && IsOwner(At(s, calls, issued).tables, org, granter)
         && Reply(s, calls, issued).status == 200
         && (|| (issued == at && DirectGrant(calls[at], org, granter, user))
             || exists h :: OffersOwnership(calls[issued], org, granter, h) && Accepts(calls[at], h, user))
         && Provenance(s, calls, org, granter, upto, issued)
  }

  lemma OneCallLater(s: State, calls: seq<Call>, org: Id, user: Id, chain: Chain, bound: nat)
    requires bound < |calls| && Provenance(s, calls, org, user, chain, bound)
    requires IsOwner(At(s, calls, bound + 1).tables, org, user)
    ensures Provenance(s, calls, org, user, chain, bound + 1)
  {
    hide Apply, At, Reply, IsOwner, Founds, DirectGrant, OffersOwnership, Accepts;
  }

  /** A stored OWNER invite was created by somebody who was an owner then. */
  ghost predicate InviteIssued(s: State, calls: seq<Call>, n: nat, h: Id, issued: nat)
    requires n <= |calls|
  {
    var store := At(s, calls, n).store;
    && issued < n
    && InviteKey(h) in store && store[InviteKey(h)].Record? && store[InviteKey(h)].value.InviteJson?
    && var data := store[InviteKey(h)].value;
       && OffersOwnership(calls[issued], data.org, data.createdBy, h)
       && IsOwner(At(s, calls, issued).tables, data.org, data.createdBy)
       && Reply(s, calls, issued).status == 200
  }

  ghost predicate HoldsOwnerInvite(store: Store, h: Id) {
    && InviteKey(h) in store && store[InviteKey(h)].Record? && store[InviteKey(h)].value.InviteJson?
    && store[InviteKey(h)].value.role == OWNER
  }

  lemma NewOwnerInvite(s: State, c: Call, h: Id)
    requires HoldsOwnerInvite(Apply(s, c).state.store, h)
    ensures var after := Apply(s, c).state.store[InviteKey(h)].value;
      || (HoldsOwnerInvite(s.store, h) && s.store[InviteKey(h)].value == after)
      || (OffersOwnership(c, after.org, after.createdBy, h) && IsOwner(s.tables, after.org, after.createdBy) && Apply(s, c).status == 200)
  {
    match c
    case OnAuth(a) => AuthCallKeepsInvites(s.tables, s.store, s.clock, a);
    case OnInvite(i) =>
    case _ =>
  }

  lemma {:induction false} OwnerInvitesIssued(now: Time, calls: seq<Call>, n: nat, h: Id) returns (issued: nat)
    requires n <= |calls| && HoldsOwnerInvite(At(Start(now), calls, n).store, h)
    ensures InviteIssued(Start(now), calls, n, h, issued)
  {
    assert n > 0;
    var before := At(Start(now), calls, n - 1);
    NewOwnerInvite(before, calls[n - 1], h);
    var data := At(Start(now), calls, n).store[InviteKey(h)].value;
    if HoldsOwnerInvite(before.store, h) && before.store[InviteKey(h)].value == data {
      issued := OwnerInvitesIssued(now, calls, n - 1, h);
    } else {
      issued := n - 1;
    }
  }

  lemma NewOwnerByOrgCall(t: Tables, c: OrgCall, org: Id, user: Id)
    requires PerformOrg(t, c).Ok? && IsOwner(PerformOrg(t, c).value, org, user) && !IsOwner(t, org, user)
    ensures Founds(OnOrg(c), org, user) || (DirectGrant(OnOrg(c), org, c.actor, user) && IsOwner(t, org, c.actor))
  {
  }

  lemma NewOwnerByInvite(t: Tables, store: Store, now: Time, c: InviteCall, org: Id, user: Id)
    requires var r := PerformInvite(t, store, now, c).1; r.Ok? && IsOwner(r.value, org, user)
    requires !IsOwner(t, org, user)
    ensures c.Join? && c.actor == user && HoldsOwnerInvite(store, c.hash) && store[InviteKey(c.hash)].value.org == org
  {
  }

  /** The ways a call makes a new owner. */
  lemma NewOwner(s: State, c: Call, org: Id, user: Id)
    requires IsOwner(Apply(s, c).state.tables, org, user) && !IsOwner(s.tables, org, user)
    ensures Apply(s, c).status == 200
    ensures || Founds(c, org, user)
            || (exists granter :: DirectGrant(c, org, granter, user) && IsOwner(s.tables, org, granter))
            || (exists h :: Accepts(c, h, user) && HoldsOwnerInvite(s.store, h) && s.store[InviteKey(h)].value.org == org)
  {
    hide PerformOrg, PerformInvite, PerformWork, PerformAuth;
    match c
    case OnOrg(o) => NewOwnerByOrgCall(s.tables, o, org, user);
    case OnInvite(i) =>
      NewOwnerByInvite(s.tables, s.store, s.clock, i, org, user);
      assert Accepts(c, i.hash, user);
    case OnWork(w) => WorkCallMembers(s.tables, s.clock, w);
    case OnAuth(a) => AuthCallTables(s.tables, s.store, s.clock, a);
    case Tick(_) =>
  }

  /** In every run, each OWNER membership rests on a finite chain of grants back to the organisation's creator, whose
      last link gave the user the role and has not been undone since. */
  lemma {:induction false} EveryOwnerHasAChain(now: Time, calls: seq<Call>, n: nat, org: Id, user: Id) returns (chain: Chain)
    requires n <= |calls| && IsOwner(At(Start(now), calls, n).tables, org, user)
    ensures Provenance(Start(now), calls, org, user, chain, n)
    decreases n
  {
    hide Apply;
    assert n > 0;
    var s, before, c := Start(now), At(Start(now), calls, n - 1), calls[n - 1];
    if IsOwner(before.tables, org, user) {
      chain := EveryOwnerHasAChain(now, calls, n - 1, org, user);
      OneCallLater(s, calls, org, user, chain, n - 1);
    } else {
      NewOwner(before, c, org, user);
      if Founds(c, org, user) {
        chain := Founded(n - 1);
      } else if granter :| DirectGrant(c, org, granter, user) && IsOwner(before.tables, org, granter) {
        var upto := EveryOwnerHasAChain(now, calls, n - 1, org, granter);
        chain := Granted(n - 1, n - 1, granter, upto);
      } else {
        var h :| Accepts(c, h, user) && HoldsOwnerInvite(before.store, h) && before.store[InviteKey(h)].value.org == org;
        var issued := OwnerInvitesIssued(now, calls, n - 1, h);
        var granter := before.store[InviteKey(h)].value.createdBy;
        var upto := EveryOwnerHasAChain(now, calls, issued, org, granter);
        chain := Granted(n - 1, issued, granter, upto);
      }
    }
  }
}
