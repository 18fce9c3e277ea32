/** The organisation service as written: statements on the session and commands on Redis, one after the other. Each
    method is proved to be the call of the same name in `Calls`. */
module OrganizationService {
  import opened Prelude
  import opened Redis
  import opened RedisText
  import opened Tables
  import opened Calls
  import opened Database
  import opened RedisClient
  import opened StoreIntegrity

  function InviteKeyText(hash: Id): (key: string)
    ensures key == Text(InviteKey(hash))
  {
    "org_invite:" + hash
  }

  function InvitesIndexKeyText(org: Id): (key: string)
    ensures key == Text(IndexKey(org))
  {
    "org_invites:" + org
  }

  method RequireRole(db: Session, org: Id, user: Id, allowed: set<Role>) returns (r: Result<Role>)
    ensures r == Calls.RequireRole(db.work, org, user, allowed)
  {
    var member := db.work.MemberRole(org, user);
    if member.None? {
      return Err(403);
    }
    if member.value !in allowed {
      return Err(403);
    }
    return Ok(member.value);
  }

  /* ---------------- Members ---------------- */

  method CreateOrganization(db: Session, org: Id, name: string, creator: Id) returns (r: Result<()>)
    requires db.Fresh()
    modifies db
    ensures Flushed(CreateOrgOn(old(db.committed), org, creator, name), r, old(db.committed), db.committed)
    ensures db.outbox == old(db.outbox)
  {
    var _ :- db.CreateOrg(org, Org(name, creator));
    var _ :- db.AddMember(org, creator, OWNER);
    db.Commit();
    return Ok(());
  }

  method DeleteOrganization(db: Session, org: Id, requester: Id) returns (r: Result<()>)
    requires db.Fresh()
    modifies db
    ensures Flushed(DeleteOrgOn(old(db.committed), org, requester), r, old(db.committed), db.committed)
    ensures db.outbox == old(db.outbox)
  {
    if org !in db.work.orgs {
      return Err(404);
    }
    var _ :- RequireRole(db, org, requester, {OWNER});
    var deleted := db.DeleteOrg(org);
    if deleted == 0 {
      return Err(404);
    }
    db.Commit();
    return Ok(());
  }

  method AddMember(db: Session, org: Id, requester: Id, user: Id, role: Role) returns (r: Result<()>)
    requires db.Fresh()
    modifies db
    ensures Flushed(AddMemberOn(old(db.committed), org, requester, user, role), r, old(db.committed), db.committed)
    ensures db.outbox == old(db.outbox)
  {
    var own :- RequireRole(db, org, requester, {OWNER, ADMIN});
    if role !in ALLOWED_ROLES {
      return Err(400);
    }
    if role == OWNER && own != OWNER {
      return Err(403);
    }
    if db.work.MemberRole(org, user).Some? {
      return Err(409);
    }
    var _ :- db.AddMember(org, user, role);
    db.Commit();
    return Ok(());
  }

  method ChangeRole(db: Session, org: Id, requester: Id, user: Id, role: Role) returns (r: Result<()>)
    requires db.Fresh()
    modifies db
    ensures Flushed(ChangeRoleOn(old(db.committed), org, requester, user, role), r, old(db.committed), db.committed)
    ensures db.outbox == old(db.outbox)
  {
    var _ :- RequireRole(db, org, requester, {OWNER});
    if role !in ALLOWED_ROLES {
      return Err(400);
    }
    var member := db.work.MemberRole(org, user);
    if member.None? {
      return Err(404);
    }
    if member.value == OWNER && role != OWNER {
      var owners := db.CountMembersByRole(org, OWNER);
      if owners <= 1 {
        return Err(400);
      }
    }
    var updated := db.SetRole(org, user, role);
    if updated == 0 {
      return Err(404);
    }
    db.Commit();
    return Ok(());
  }

  method RemoveMember(db: Session, org: Id, requester: Id, user: Id) returns (r: Result<()>)
    requires db.Fresh()
    modifies db
    ensures Flushed(RemoveMemberOn(old(db.committed), org, requester, user), r, old(db.committed), db.committed)
    ensures db.outbox == old(db.outbox)
  {
    var own :- RequireRole(db, org, requester, {OWNER, ADMIN});
    var target := db.work.MemberRole(org, user);
    if target.None? {
      return Err(404);
    }
    if target.value == OWNER {
      if own != OWNER {
        return Err(403);
      }
      var owners := db.CountMembersByRole(org, OWNER);
      if owners <= 1 {
        return Err(400);
      }
    }
    var removed := db.RemoveMember(org, user);
    if removed == 0 {
      return Err(404);
    }
    db.Commit();
    return Ok(());
  }

  method TransferOwnership(db: Session, org: Id, requester: Id, newOwner: Id) returns (r: Result<()>)
    requires db.Fresh()
    modifies db
    ensures Flushed(TransferOn(old(db.committed), org, requester, newOwner), r, old(db.committed), db.committed)
    ensures db.outbox == old(db.outbox)
  {
    var _ :- RequireRole(db, org, requester, {OWNER});
    if requester == newOwner {
      return Err(400);
    }
    var member := db.work.MemberRole(org, newOwner);
    if member.None? {
      return Err(404);
    }
    if member.value == OWNER {
      return Err(400);
    }
    var promoted := db.SetRole(org, newOwner, OWNER);
    if promoted == 0 {
      return Err(404);
    }
    var demoted := db.SetRole(org, requester, ADMIN);
    if demoted == 0 {
      return Err(404);
    }
    db.Commit();
    return Ok(());
  }

  /* ---------------- Invites ---------------- */

  /** What a call does to the store when it may refuse. */
  ghost predicate Stored<T>(outcome: Result<Store>, r: Result<T>, before: Store, after: Store) {
    match outcome
    case Ok(store) => r.Ok? && after == store
    case Err(status) => r == Err(status) && after == before
  }

  /** `hash` is the hash of the token just drawn. The record is written before the index. */
  method CreateInvite(db: Session, redis: Client, org: Id, requester: Id, role: Role, ttlSeconds: Option<nat>, hash: Id) returns (r: Result<nat>)
    requires db.Fresh() && redis.Valid()
    modifies redis
    ensures redis.Valid() && redis.clock == old(redis.clock)
    ensures Stored(CreateInviteOn(db.committed, old(redis.store), redis.clock, org, requester, role, ttlSeconds, hash), r, old(redis.store), redis.store)
    ensures r.Ok? ==> r.value == Redis.Ttl(redis.store, redis.clock, InviteKey(hash))
  {
    hide Client.Valid;
    var own :- RequireRole(db, org, requester, {OWNER, ADMIN});
    if role !in ALLOWED_ROLES {
      return Err(400);
    }
    if role == OWNER && own != OWNER {
      return Err(403);
    }
    var ttl := if ttlSeconds.Some? && ttlSeconds.value != 0 then ttlSeconds.value else INVITE_TTL;
    redis.SetJson(InviteKeyText(hash), InviteJson(org, role, requester, redis.clock), ttl, InviteKey(hash));
    redis.SetAdd(InvitesIndexKeyText(org), hash, IndexKey(org));
    return Ok(ttl);
  }

  method RevokeInvite(db: Session, redis: Client, org: Id, requester: Id, invite: Id) returns (r: Result<()>)
    requires db.Fresh() && redis.Valid()
    modifies redis
    ensures redis.Valid() && redis.clock == old(redis.clock)
    ensures Stored(RevokeInviteOn(db.committed, old(redis.store), redis.clock, org, requester, invite), r, old(redis.store), redis.store)
  {
    hide Client.Valid, Redis.SetRemove, Redis.Del;
    var _ :- RequireRole(db, org, requester, {OWNER, ADMIN});
    var key := InviteKeyText(invite);
    var data := redis.GetJson(key, InviteKey(invite));
    if data.None? || !data.value.InviteJson? || data.value.org != org {
      return Err(404);
    }
    var _ := redis.Del(key, InviteKey(invite));
    redis.SetRemove(InvitesIndexKeyText(org), invite, IndexKey(org));
    return Ok(());
  }

  /** The record is deleted, and the hash dropped from the index, before the membership is inserted; what deleting
      returns is not looked at. */
  method JoinByInvite(db: Session, redis: Client, hash: Id, user: Id) returns (r: Result<Id>)
    requires db.Fresh() && redis.Valid()
    modifies db, redis
    ensures redis.Valid() && redis.clock == old(redis.clock)
    ensures redis.store == JoinOn(old(db.committed), old(redis.store), redis.clock, hash, user).0
    ensures Flushed(JoinOn(old(db.committed), old(redis.store), redis.clock, hash, user).1, r, old(db.committed), db.committed)
    ensures db.outbox == old(db.outbox)
    ensures r.Ok? ==> InviteKey(hash) in old(redis.store) && old(redis.store)[InviteKey(hash)].Record?
                      && old(redis.store)[InviteKey(hash)].value.InviteJson? && r.value == old(redis.store)[InviteKey(hash)].value.org
  {
    hide Client.Valid, Redis.SetRemove, Redis.Del;
    var key := InviteKeyText(hash);
    var data := redis.GetJson(key, InviteKey(hash));
    if data.None? || !data.value.InviteJson? {
      return Err(404);
    }
    var org, role := data.value.org, data.value.role;
    if db.work.MemberRole(org, user).Some? {
      return Err(409);
    }
    var _ := redis.Del(key, InviteKey(hash));
    redis.SetRemove(InvitesIndexKeyText(org), hash, IndexKey(org));
    var _ :- db.AddMember(org, user, role);
    db.Commit();
    return Ok(org);
  }

  /* ---------------- Listing ---------------- */

  ghost predicate NewestFirst(items: seq<InviteItem>) {
    forall i, j :: 0 <= i < j < |items| ==> items[i].createdAt >= items[j].createdAt
  }

  /** The item goes after those at least as new: equal ones keep their order. */
  function Insert(items: seq<InviteItem>, item: InviteItem): seq<InviteItem> {
    if items == [] || items[|items| - 1].createdAt >= item.createdAt then items + [item]
    else Insert(items[..|items| - 1], item) + [items[|items| - 1]]
  }

  /** A stable sort on creation time, newest first. */
  function Sorted(items: seq<InviteItem>): seq<InviteItem> {
    if items == [] then [] else Insert(Sorted(items[..|items| - 1]), items[|items| - 1])
  }

  lemma {:induction false} InsertKeeps(items: seq<InviteItem>, item: InviteItem)
    ensures multiset(Insert(items, item)) == multiset(items) + multiset{item}
  {
    if items != [] {
      InsertKeeps(items[..|items| - 1], item);
      assert items == items[..|items| - 1] + [items[|items| - 1]];
    }
  }

  lemma {:induction false} InsertOrders(items: seq<InviteItem>, item: InviteItem)
    requires NewestFirst(items)
    ensures NewestFirst(Insert(items, item))
  {
    if items != [] && items[|items| - 1].createdAt < item.createdAt {
      var front, last := items[..|items| - 1], items[|items| - 1];
      InsertOrders(front, item);
      InsertKeeps(front, item);
      forall i | 0 <= i < |Insert(front, item)| ensures Insert(front, item)[i].createdAt >= last.createdAt {
        assert Insert(front, item)[i] in multiset(front) + multiset{item};
      }
    }
  }

  lemma NoneOlder()
    ensures NewestFirst([])
  {
  }

  lemma {:induction false} SortedFacts(items: seq<InviteItem>)
    ensures multiset(Sorted(items)) == multiset(items)
    ensures NewestFirst(Sorted(items))
  {
    hide NewestFirst, Insert;
    if items == [] {
      assert NewestFirst([]) by { NoneOlder(); }
    } else {
      var front, last := items[..|items| - 1], items[|items| - 1];
      SortedFacts(front);
      InsertKeeps(Sorted(front), last);
      InsertOrders(Sorted(front), last);
      assert items == front + [last];
    }
  }

  /** The listing so far: the index has lost just the hashes looked at that name no live invite of the organisation,
      and the others looked at are reported. */
  ghost predicate Listing(before: Store, after: Store, now: Time, org: Id, todo: set<Id>, kept: set<Id>, items: seq<InviteItem>) {
    var ids := SetMembers(before, IndexKey(org));
    && todo <= kept <= ids
    && after == WithIndex(before, org, kept)
    && (forall h :: h in ids - todo ==> (h in kept <==> OrgInvite(before, now, org, h)))
    && multiset(items) == multiset(Items(before, now, org, ids - todo))
  }

  lemma SameRecords(before: Store, now: Time, org: Id, kept: set<Id>, h: Id)
    ensures Redis.GetJson(WithIndex(before, org, kept), now, InviteKey(h)) == Redis.GetJson(before, now, InviteKey(h))
    ensures Redis.Ttl(WithIndex(before, org, kept), now, InviteKey(h)) == Redis.Ttl(before, now, InviteKey(h))
  {
  }

  lemma DropOne(before: Store, after: Store, now: Time, org: Id, todo: set<Id>, kept: set<Id>, items: seq<InviteItem>, h: Id)
    requires Listing(before, after, now, org, todo, kept, items) && h in todo && !OrgInvite(before, now, org, h)
    ensures Listing(before, Redis.SetRemove(after, IndexKey(org), h), now, org, todo - {h}, kept - {h}, items)
  {
    var ids := SetMembers(before, IndexKey(org));
    assert SetMembers(after, IndexKey(org)) == kept;
    assert Items(before, now, org, ids - (todo - {h})) == Items(before, now, org, ids - todo);
  }

  lemma ReportOne(before: Store, after: Store, now: Time, org: Id, todo: set<Id>, kept: set<Id>, items: seq<InviteItem>, h: Id)
    requires Listing(before, after, now, org, todo, kept, items) && h in todo && OrgInvite(before, now, org, h)
    ensures Listing(before, after, now, org, todo - {h}, kept, items + [ItemOf(before, now, h)])
  {
    var ids := SetMembers(before, IndexKey(org));
    var found := Items(before, now, org, ids - todo);
    assert Items(before, now, org, ids - (todo - {h})) == found + {ItemOf(before, now, h)};
    assert ItemOf(before, now, h) !in found;
  }

  /** The index is read once; each hash in it, in whatever order, is reported or dropped from the index. No time passes
      inside the call here, so a record that was read has time left; `InviteProtocol` lets time pass. */
  method ListInvites(db: Session, redis: Client, org: Id, requester: Id) returns (r: Result<seq<InviteItem>>)
    requires db.Fresh() && redis.Valid()
    modifies redis
    ensures redis.Valid() && redis.clock == old(redis.clock)
    ensures Stored(ListInvitesOn(db.committed, old(redis.store), redis.clock, org, requester), r, old(redis.store), redis.store)
    ensures r.Ok? ==> NewestFirst(r.value)
    ensures r.Ok? ==> multiset(r.value) == multiset(Items(old(redis.store), redis.clock, org, SetMembers(old(redis.store), IndexKey(org))))
  {
    hide Listing, Client.Valid, WithIndex;
    var _ :- RequireRole(db, org, requester, {OWNER, ADMIN});
    var idxKey := InvitesIndexKeyText(org);
    var ids := redis.SetMembers(idxKey, IndexKey(org));
    var items: seq<InviteItem> := [];
    var todo := ids;
    ghost var before, now, kept := redis.store, redis.clock, ids;
    ListingStarts(before, now, org);
    while todo != {}
      invariant redis.Valid() && redis.clock == now
      invariant Listing(before, redis.store, now, org, todo, kept, items)
    {
      var id :| id in todo;
      ListingReads(before, redis.store, now, org, todo, kept, items, id);
      var data := redis.GetJson(InviteKeyText(id), InviteKey(id));
      var stale := data.None? || !data.value.InviteJson? || data.value.org != org;
      var expiresIn := 0;
      if !stale {
        expiresIn := redis.Ttl(InviteKeyText(id), InviteKey(id));
        stale := expiresIn <= 0;
      }
      if stale {
        DropOne(before, redis.store, now, org, todo, kept, items, id);
        redis.SetRemove(idxKey, id, IndexKey(org));
        todo, kept := todo - {id}, kept - {id};
        continue;
      }
      ReportOne(before, redis.store, now, org, todo, kept, items, id);
      todo := todo - {id};
      items := items + [InviteItem(id, data.value.role, data.value.createdBy, data.value.createdAt, expiresIn)];
    }
    ListingEnds(before, redis.store, now, org, kept, items);
    SortedFacts(items);
    return Ok(Sorted(items));
  }

  lemma ListingStarts(before: Store, now: Time, org: Id)
    ensures Listing(before, before, now, org, SetMembers(before, IndexKey(org)), SetMembers(before, IndexKey(org)), [])
  {
    var ids := SetMembers(before, IndexKey(org));
    assert Items(before, now, org, ids - ids) == {};
  }

  /** A listing reads the records as they were when it began. */
  lemma ListingReads(before: Store, after: Store, now: Time, org: Id, todo: set<Id>, kept: set<Id>, items: seq<InviteItem>, h: Id)
    requires Listing(before, after, now, org, todo, kept, items)
    ensures Redis.GetJson(after, now, InviteKey(h)) == Redis.GetJson(before, now, InviteKey(h))
    ensures Redis.Ttl(after, now, InviteKey(h)) == Redis.Ttl(before, now, InviteKey(h))
  {
    SameRecords(before, now, org, kept, h);
  }

  lemma ListingEnds(before: Store, after: Store, now: Time, org: Id, kept: set<Id>, items: seq<InviteItem>)
    requires Listing(before, after, now, org, {}, kept, items)
    ensures after == Pruned(before, now, org)
    ensures multiset(items) == multiset(Items(before, now, org, SetMembers(before, IndexKey(org))))
  {
    var ids := SetMembers(before, IndexKey(org));
    assert kept == set h | h in ids && OrgInvite(before, now, org, h);
    assert ids - {} == ids;
  }

  lemma Twice(items: seq<InviteItem>, i: nat, j: nat)
    requires i < j < |items| && items[i] == items[j]
    ensures multiset(items)[items[i]] >= 2
  {
    assert items == items[..j] + [items[j]] + items[j + 1..];
    assert items[i] in items[..j];
  }

  /** The items found are of the organisation's live invites, each once. */
  lemma EachOnce(store: Store, now: Time, org: Id, among: set<Id>, items: seq<InviteItem>)
    requires multiset(items) == multiset(Items(store, now, org, among))
    ensures forall h :: h in among && OrgInvite(store, now, org, h) ==> exists i :: 0 <= i < |items| && items[i].id == h
    ensures forall i :: 0 <= i < |items| ==> OrgInvite(store, now, org, items[i].id) && items[i] == ItemOf(store, now, items[i].id)
    ensures forall i, j :: 0 <= i < j < |items| ==> items[i].id != items[j].id
  {
    var found := Items(store, now, org, among);
    forall i | 0 <= i < |items| ensures items[i] in found {
      assert items[i] in multiset(items);
    }
    forall h | h in among && OrgInvite(store, now, org, h) ensures exists i :: 0 <= i < |items| && items[i].id == h {
      assert ItemOf(store, now, h) in found;
      assert ItemOf(store, now, h) in multiset(items);
    }
    forall i, j | 0 <= i < j < |items| ensures items[i].id != items[j].id {
      assert multiset(found)[items[i]] <= 1;
      if items[i] == items[j] { Twice(items, i, j); }
    }
  }

  /** The item says what the stored record says, and how long it has left. */
  predicate Describes(store: Store, now: Time, org: Id, item: InviteItem) {
    && InviteKey(item.id) in store && store[InviteKey(item.id)].Record?
    && store[InviteKey(item.id)].value == InviteJson(org, item.role, item.createdBy, item.createdAt)
    && item.expiresIn == store[InviteKey(item.id)].expiry - now > 0
  }

  /** In every reachable state the listing is the plain query: exactly the organisation's live invites, whether or not
      the index still holds expired ones; afterwards the index holds just those, and nothing else has changed. */
  lemma ListingIsTheQuery(store: Store, now: Time, issued: set<Id>, org: Id, items: seq<InviteItem>)
    requires StoreInv(store, now, issued)
    requires multiset(items) == multiset(Items(store, now, org, SetMembers(store, IndexKey(org))))
    ensures forall h :: OrgInvite(store, now, org, h) <==> exists i :: 0 <= i < |items| && items[i].id == h
    ensures forall i :: 0 <= i < |items| ==> Describes(store, now, org, items[i])
    ensures forall i, j :: 0 <= i < j < |items| ==> items[i].id != items[j].id
    ensures forall h :: h in SetMembers(Pruned(store, now, org), IndexKey(org)) <==> OrgInvite(store, now, org, h)
    ensures forall key :: key != IndexKey(org) ==> (key in store <==> key in Pruned(store, now, org)) && (key in store ==> Pruned(store, now, org)[key] == store[key])
  {
    assert forall h :: OrgInvite(store, now, org, h) ==> h in SetMembers(store, IndexKey(org));
    hide StoreInv;
    assert forall h :: OrgInvite(store, now, org, h) ==> Describes(store, now, org, ItemOf(store, now, h));
    EachOnce(store, now, org, SetMembers(store, IndexKey(org)), items);
    hide Items;
  }
}
