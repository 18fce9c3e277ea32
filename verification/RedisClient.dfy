/** The Redis commands on the strings the services pass. The ghost `store` is the typed store those strings stand for:
    every method does to it what the command of `Redis` does. */
module RedisClient {
  import opened Prelude
  import opened Redis
  import opened RedisText

  class Client {
    var data: TextStore
    var clock: Time
    ghost var store: Store

    ghost predicate Valid()
      reads this
    {
      Represents(data, store)
    }

    constructor (clock: Time)
      ensures Valid() && store == map[] && this.clock == clock
    {
      this.data, this.clock, store := map[], clock, map[];
    }

    method GetJson(key: string, ghost k: Key) returns (value: Option<Json>)
      requires Valid() && key == Text(k)
      ensures value == Redis.GetJson(store, clock, k)
    {
      hide Represents, Text;
      SameLookup(data, store, k);
      if key in data && data[key].Record? && clock < data[key].expiry {
        return Some(data[key].value);
      }
      return None;
    }

    method SetJson(key: string, value: Json, ttl: nat, ghost k: Key)
      requires Valid() && key == Text(k)
      modifies this`data, this`store
      ensures Valid() && store == Redis.SetJson(old(store), clock, k, value, ttl)
    {
      hide Represents, Text;
      SameWrite(data, store, k, Record(value, clock + ttl));
      data := data[key := Record(value, clock + ttl)];
      store := Redis.SetJson(store, clock, k, value, ttl);
    }

    method Del(key: string, ghost k: Key) returns (removed: nat)
      requires Valid() && key == Text(k)
      modifies this`data, this`store
      ensures Valid() && store == Redis.Del(old(store), k)
      ensures removed == if k in old(store) then 1 else 0
    {
      hide Represents, Text;
      SameLookup(data, store, k);
      SameDelete(data, store, k);
      removed := if key in data then 1 else 0;
      data := data - {key};
      store := Redis.Del(store, k);
    }

    method SetMembers(key: string, ghost k: Key) returns (ids: set<Id>)
      requires Valid() && key == Text(k)
      ensures ids == Redis.SetMembers(store, k)
    {
      hide Represents, Text;
      SameLookup(data, store, k);
      ids := if key in data && data[key].Members? then data[key].ids else {};
    }

    method SetAdd(key: string, id: Id, ghost k: Key)
      requires Valid() && key == Text(k)
      modifies this`data, this`store
      ensures Valid() && store == Redis.SetAdd(old(store), k, id)
    {
      hide Represents, Text;
      var ids := SetMembers(key, k);
      SameWrite(data, store, k, Members(ids + {id}));
      data := data[key := Members(ids + {id})];
      store := Redis.SetAdd(store, k, id);
    }

    method SetRemove(key: string, id: Id, ghost k: Key)
      requires Valid() && key == Text(k)
      modifies this`data, this`store
      ensures Valid() && store == Redis.SetRemove(old(store), k, id)
    {
      hide Represents, Text;
      SameLookup(data, store, k);
      var rest := SetMembers(key, k);
      rest := rest - {id};
      if key in data && data[key].Members? {
        if rest == {} {
          SameDelete(data, store, k);
          data := data - {key};
        } else {
          SameWrite(data, store, k, Members(rest));
          data := data[key := Members(rest)];
        }
      }
      store := Redis.SetRemove(store, k, id);
    }

    method Ttl(key: string, ghost k: Key) returns (seconds: int)
      requires Valid() && key == Text(k)
      ensures seconds == Redis.Ttl(store, clock, k)
    {
      hide Represents, Text;
      SameLookup(data, store, k);
      seconds := if key in data && data[key].Record? && clock < data[key].expiry then data[key].expiry - clock else -2;
    }
  }
}
