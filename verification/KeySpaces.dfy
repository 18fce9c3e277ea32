/** Each module keeps to its own keys, on the concrete strings in the store. */
module KeySpaces {
  import opened Redis
  import opened RedisText
  import opened Calls
  import opened StoreIntegrity

  /** The keys a call may touch. */
  predicate Own(c: Call, key: Key) {
    match c
    case OnInvite(_) => key.InviteKey? || key.IndexKey?
    case OnAuth(_) => !key.InviteKey? && !key.IndexKey?
    case _ => false
  }

  lemma InviteCallKeepsTokens(s: State, c: InviteCall, key: Key)
    requires !Own(OnInvite(c), key)
    ensures var after := PerformInvite(s.tables, s.store, s.clock, c).0;
      (key in s.store <==> key in after) && (key in s.store ==> after[key] == s.store[key])
  {
  }

  lemma OwnKeysOnly(s: State, c: Call, key: Key)
    requires !Own(c, key)
    ensures var after := Apply(s, c).state.store;
      (key in s.store <==> key in after) && (key in s.store ==> after[key] == s.store[key])
  {
    hide PerformInvite, PerformAuth, PerformOrg, PerformWork;
    match c
    case OnInvite(i) => InviteCallKeepsTokens(s, i, key);
    case OnAuth(a) => AuthCallKeepsInvites(s.tables, s.store, s.clock, a);
    case _ =>
  }

  /** On the strings: whatever hashes callers supply, in a store that holds the state before a call and one that holds
      the state after it, the text of a key of another module names the same entry or none. */
  lemma KeySpacesApart(s: State, c: Call, key: Key, before: TextStore, after: TextStore)
    requires Represents(before, s.store) && Represents(after, Apply(s, c).state.store)
    requires !Own(c, key)
    ensures Text(key) in before <==> Text(key) in after
    ensures Text(key) in before ==> after[Text(key)] == before[Text(key)]
  {
    OwnKeysOnly(s, c, key);
    hide Apply, Represents;
    SameLookup(before, s.store, key);
    SameLookup(after, Apply(s, c).state.store, key);
  }
}
