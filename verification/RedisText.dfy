/** The keys as the strings Redis sees. Distinct keys have distinct texts, whatever text a caller supplies as a
    hash, so a store over strings does exactly what the typed store does. */
module RedisText {
  import opened Redis

  function Prefix(key: Key): string {
    match key
    case RefreshKey(_) => "rt:"
    case EmailKey(_) => "email_verify:"
    case ResetKey(_) => "pwd_reset:"
    case InviteKey(_) => "org_invite:"
    case IndexKey(_) => "org_invites:"
  }

  function Suffix(key: Key): string {
    match key
    case IndexKey(org) => org
    case _ => key.hash
  }

  function Text(key: Key): string {
    Prefix(key) + Suffix(key)
  }

  lemma PrefixDecides(a: Key, b: Key)
    requires Text(a) == Text(b)
    ensures Prefix(a) == Prefix(b)
  {
    var s, t := Text(a), Text(b);
    assert s[0] == Prefix(a)[0] && s[1] == Prefix(a)[1] && s[2] == Prefix(a)[2];
    assert t[0] == Prefix(b)[0] && t[1] == Prefix(b)[1] && t[2] == Prefix(b)[2];
    if |Prefix(a)| > 10 && |Prefix(b)| > 10 {
      assert s[10] == Prefix(a)[10] && t[10] == Prefix(b)[10];
    }
  }

  /** Key-space separation on the concrete strings. */
  lemma TextInjective(a: Key, b: Key)
    requires Text(a) == Text(b)
    ensures a == b
  {
    PrefixDecides(a, b);
    assert Text(a)[|Prefix(a)|..] == Suffix(a);
    assert Text(b)[|Prefix(b)|..] == Suffix(b);
  }

  type TextStore = map<string, Entry>

  /** `text` is `store` with its keys written out. */
  ghost predicate Represents(text: TextStore, store: Store) {
    && (forall key :: key in store ==> Text(key) in text && text[Text(key)] == store[key])
    && (forall s :: s in text ==> exists key :: key in store && Text(key) == s)
  }

  lemma SameLookup(text: TextStore, store: Store, key: Key)
    requires Represents(text, store)
    ensures Text(key) in text <==> key in store
    ensures key in store ==> text[Text(key)] == store[key]
  {
    if Text(key) in text {
      var other :| other in store && Text(other) == Text(key);
      TextInjective(other, key);
    }
  }

  /** Writing at a key's text is writing at the key: every other key is left alone. */
  lemma SameWrite(text: TextStore, store: Store, key: Key, entry: Entry)
    requires Represents(text, store)
    ensures Represents(text[Text(key) := entry], store[key := entry])
  {
    var put, puts := text[Text(key) := entry], store[key := entry];
    forall other | other in puts ensures Text(other) in put && put[Text(other)] == puts[other] {
      if other != key && Text(other) == Text(key) { TextInjective(other, key); }
    }
    hide Text;
    forall s | s in put ensures exists k :: k in puts && Text(k) == s {
      if s == Text(key) {
        assert key in puts;
      } else {
        var k :| k in store && Text(k) == s;
        assert k in puts;
      }
    }
  }

  /** Deleting a key's text is deleting the key. */
  lemma SameDelete(text: TextStore, store: Store, key: Key)
    requires Represents(text, store)
    ensures Represents(text - {Text(key)}, store - {key})
  {
    var cut, cuts := text - {Text(key)}, store - {key};
    forall other | other in cuts ensures Text(other) in cut && cut[Text(other)] == cuts[other] {
      if Text(other) == Text(key) { TextInjective(other, key); }
    }
    hide Text;
    forall s | s in cut ensures exists k :: k in cuts && Text(k) == s {
      var k :| k in store && Text(k) == s;
      assert k in cuts;
    }
  }
}
