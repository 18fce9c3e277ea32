/** The key-value store as the services use it: JSON records with a time limit, and index sets. */
module Redis {
  import opened Prelude

  datatype Role = OWNER | ADMIN | MEMBER | OtherRole(text: string)

  /** Every key the services build, before it is written out as text (see `RedisText`). */
  datatype Key =
    | RefreshKey(hash: Id)
    | EmailKey(hash: Id)
    | ResetKey(hash: Id)
    | InviteKey(hash: Id)
    | IndexKey(org: Id)

  datatype Json =
    | InviteJson(org: Id, role: Role, createdBy: Id, createdAt: Time)
    | SessionJson(sid: Id, uid: Id, createdAt: Time, rotatedFrom: Option<Id>)
    | TokenJson(uid: Id, createdAt: Time)

  /** A record is readable until `expiry`. */
  datatype Entry = Record(value: Json, expiry: Time) | Members(ids: set<Id>)

  type Store = map<Key, Entry>

  predicate Live(store: Store, now: Time, key: Key) {
    key in store && store[key].Record? && now < store[key].expiry
  }

  function GetJson(store: Store, now: Time, key: Key): Option<Json> {
    if Live(store, now, key) then Some(store[key].value) else None
  }

  function SetJson(store: Store, now: Time, key: Key, value: Json, ttl: nat): Store {
    store[key := Record(value, now + ttl)]
  }

  function Del(store: Store, key: Key): Store {
    store - {key}
  }

  function SetMembers(store: Store, key: Key): set<Id> {
    if key in store && store[key].Members? then store[key].ids else {}
  }

  function SetAdd(store: Store, key: Key, id: Id): Store {
    store[key := Members(SetMembers(store, key) + {id})]
  }

  /** Redis drops a set that becomes empty. */
  function SetRemove(store: Store, key: Key, id: Id): Store {
    var rest := SetMembers(store, key) - {id};
    if key !in store || store[key].Record? then store
    else if rest == {} then store - {key}
    else store[key := Members(rest)]
  }

  /** -2 for a key that is gone. */
  function Ttl(store: Store, now: Time, key: Key): int {
    if Live(store, now, key) then store[key].expiry - now else -2
  }

  /** Index keys hold sets and every other key holds a record of its own kind, so no command meets a value of the
      wrong type and no reader a record of the wrong shape. */
  predicate WellTyped(store: Store) {
    forall key :: key in store ==>
      match key
      case RefreshKey(_) => store[key].Record? && store[key].value.SessionJson?
      case EmailKey(_) => store[key].Record? && store[key].value.TokenJson?
      case ResetKey(_) => store[key].Record? && store[key].value.TokenJson?
      case InviteKey(_) => store[key].Record? && store[key].value.InviteJson?
      case IndexKey(_) => store[key].Members?
  }
}
