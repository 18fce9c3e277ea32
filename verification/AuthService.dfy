/** Refresh sessions and one-time tokens as written, each method proved to be the call of the same name in `Calls`.
    A method is passed the hash of the token it is given or draws. */
module AuthService {
  import opened Prelude
  import opened Redis
  import opened RedisText
  import opened Tables
  import opened Calls
  import opened Database
  import opened RedisClient

  function RefreshKeyText(hash: Id): (key: string)
    ensures key == Text(RefreshKey(hash))
  {
    "rt:" + hash
  }

  function EmailKeyText(hash: Id): (key: string)
    ensures key == Text(EmailKey(hash))
  {
    "email_verify:" + hash
  }

  function ResetKeyText(hash: Id): (key: string)
    ensures key == Text(ResetKey(hash))
  {
    "pwd_reset:" + hash
  }

  /** A call's effect on the store, its reply, and its effect on the tables. */
  ghost predicate Does<T>(outcome: (Store, Result<Tables>), r: Result<T>, redis: Client, db: Session, before: Tables)
    reads redis, db
  {
    && redis.Valid() && redis.store == outcome.0
    && Flushed(outcome.1, r, before, db.committed)
  }

  /* ---------------- Refresh sessions ---------------- */

  method CreateRefreshSession(redis: Client, user: Id, hash: Id, sid: Id)
    requires redis.Valid()
    modifies redis
    ensures redis.Valid() && redis.clock == old(redis.clock)
    ensures forall t: Tables :: user in t.users ==> PerformAuth(t, old(redis.store), redis.clock, Login(user, hash, sid)) == (redis.store, Ok(t))
  {
    redis.SetJson(RefreshKeyText(hash), SessionJson(sid, user, redis.clock, None), REFRESH_TTL, RefreshKey(hash));
  }

  /** The old record is deleted before the new one is written, under a token just drawn. */
  method RotateRefreshSession(redis: Client, hash: Id, next: Id, sid: Id) returns (r: Result<Id>)
    requires redis.Valid()
    modifies redis
    ensures redis.Valid() && redis.clock == old(redis.clock)
    ensures match RotateOn(old(redis.store), redis.clock, hash, next, sid)
      case Ok((store, user)) => r == Ok(user) && redis.store == store
      case Err(status) => r == Err(status) && redis.store == old(redis.store)
  {
    hide Client.Valid;
    var oldKey := RefreshKeyText(hash);
    var session := redis.GetJson(oldKey, RefreshKey(hash));
    if session.None? || !session.value.SessionJson? {
      return Err(401);
    }
    var user := session.value.uid;
    var _ := redis.Del(oldKey, RefreshKey(hash));
    redis.SetJson(RefreshKeyText(next), SessionJson(sid, user, redis.clock, Some(session.value.sid)), REFRESH_TTL, RefreshKey(next));
    return Ok(user);
  }

  method RevokeRefreshSession(redis: Client, hash: Id)
    requires redis.Valid()
    modifies redis
    ensures redis.Valid() && redis.clock == old(redis.clock)
    ensures forall t: Tables :: PerformAuth(t, old(redis.store), redis.clock, Logout(hash)) == (redis.store, Ok(t))
  {
    var _ := redis.Del(RefreshKeyText(hash), RefreshKey(hash));
  }

  /* ---------------- One-time tokens ---------------- */

  method RequestEmailVerification(db: Session, redis: Client, user: Id, hash: Id) returns (r: Result<Option<Id>>)
    requires db.Fresh() && redis.Valid()
    modifies redis
    ensures redis.clock == old(redis.clock)
    ensures Does(PerformAuth(db.committed, old(redis.store), redis.clock, AskVerify(user, hash)), r, redis, db, db.committed)
    ensures r.Ok? ==> user in db.committed.users && r.value == if db.committed.users[user].verified then None else Some(hash)
  {
    if user !in db.work.users {
      return Err(404);
    }
    if db.work.users[user].verified {
      return Ok(None);
    }
    redis.SetJson(EmailKeyText(hash), TokenJson(user, redis.clock), EMAIL_TTL, EmailKey(hash));
    return Ok(Some(hash));
  }

  /** The user is committed before the token is deleted; a verified user is left alone but the token goes all the same. */
  method VerifyEmail(db: Session, redis: Client, hash: Id) returns (r: Result<()>)
    requires db.Fresh() && redis.Valid()
    modifies db, redis
    ensures redis.clock == old(redis.clock) && db.outbox == old(db.outbox)
    ensures Does(PerformAuth(old(db.committed), old(redis.store), redis.clock, Verify(hash)), r, redis, db, old(db.committed))
  {
    hide Client.Valid;
    var key := EmailKeyText(hash);
    var data := redis.GetJson(key, EmailKey(hash));
    if data.None? || !data.value.TokenJson? {
      return Err(400);
    }
    var uid := data.value.uid;
    if uid !in db.work.users {
      var _ := redis.Del(key, EmailKey(hash));
      return Err(400);
    }
    var user := db.work.users[uid];
    if !user.verified {
      db.SaveUser(uid, user.(verified := true));
      db.Commit();
    }
    var _ := redis.Del(key, EmailKey(hash));
    return Ok(());
  }

  method RequestPasswordReset(db: Session, redis: Client, user: Id, hash: Id) returns (token: Option<Id>)
    requires db.Fresh() && redis.Valid()
    modifies redis
    ensures redis.clock == old(redis.clock)
    ensures Does(PerformAuth(db.committed, old(redis.store), redis.clock, AskReset(user, hash)), Ok(token), redis, db, db.committed)
    ensures token == if user in db.committed.users then Some(hash) else None
  {
    if user !in db.work.users {
      return None;
    }
    redis.SetJson(ResetKeyText(hash), TokenJson(user, redis.clock), RESET_TTL, ResetKey(hash));
    return Some(hash);
  }

  method ResetPassword(db: Session, redis: Client, hash: Id, password: string) returns (r: Result<()>)
    requires db.Fresh() && redis.Valid()
    modifies db, redis
    ensures redis.clock == old(redis.clock) && db.outbox == old(db.outbox)
    ensures Does(PerformAuth(old(db.committed), old(redis.store), redis.clock, Calls.ResetPassword(hash, password)), r, redis, db, old(db.committed))
  {
    hide Client.Valid;
    var key := ResetKeyText(hash);
    var data := redis.GetJson(key, ResetKey(hash));
    if data.None? || !data.value.TokenJson? {
      return Err(400);
    }
    var uid := data.value.uid;
    if uid !in db.work.users {
      var _ := redis.Del(key, ResetKey(hash));
      return Err(400);
    }
    var user := db.work.users[uid];
    db.SaveUser(uid, user.(password := password));
    db.Commit();
    var _ := redis.Del(key, ResetKey(hash));
    return Ok(());
  }
}
