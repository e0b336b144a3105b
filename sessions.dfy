/**
 * The session cache (a Redis instance behind a thin wrapper): keys
 * `auth_<token>` map to the user's id text with a time-to-live in seconds.
 * Expiry itself is not modelled; the TTL a key was set with is recorded.
 */
module Sessions {
  import opened Values
  import opened JsText

  /** A value with the TTL (seconds) it was stored with. */
  datatype CacheEntry = CacheEntry(value: string, ttl: nat)

  const AuthPrefix := "auth_"

  /** Twenty-four hours, the lifetime of a session. */
  const SessionTtl: nat := 86400

  /**
   * The cache key for an `X-Token` header: the template literal
   * `auth_${token}` turns a missing header into the text `undefined`.
   */
  function SessionKey(token: Option<string>): (k: string)
    ensures token.Some? ==> k == AuthPrefix + token.value
    ensures token.None? ==> k == AuthPrefix + "undefined"
  {
    AuthPrefix + token.GetOr("undefined")
  }

  /** `redisClient.get(key)`, as the handlers test it: a miss or an empty value is falsy. */
  function Lookup(entries: map<string, CacheEntry>, key: string): (r: Option<string>)
    ensures r.Some? <==> key in entries && entries[key].value != ""
    ensures r.Some? ==> r.value == entries[key].value
  {
    if key in entries && entries[key].value != "" then Some(entries[key].value) else None
  }

  /** The user id text a token resolves to, if it resolves. */
  function SessionUser(entries: map<string, CacheEntry>, token: Option<string>): (r: Option<string>)
    ensures r.Some? ==> r.value != ""
    ensures r.Some? <==> SessionKey(token) in entries && entries[SessionKey(token)].value != ""
    ensures r.Some? ==> r.value == entries[SessionKey(token)].value
  {
    Lookup(entries, SessionKey(token))
  }

  /** Different present tokens have different keys. */
  lemma SessionKeyInjective(a: string, b: string)
    ensures SessionKey(Some(a)) == SessionKey(Some(b)) <==> a == b
  {
    if SessionKey(Some(a)) == SessionKey(Some(b)) {
      assert a == SessionKey(Some(a))[|AuthPrefix|..];
      assert b == SessionKey(Some(b))[|AuthPrefix|..];
    }
  }

  /** A request without a token shares its key with the token `undefined`. */
  lemma MissingTokenIsUndefined()
    ensures SessionKey(None) == SessionKey(Some("undefined"))
    ensures forall t :: SessionKey(None) == SessionKey(Some(t)) <==> t == "undefined"
  {
    forall t
      ensures SessionKey(None) == SessionKey(Some(t)) <==> t == "undefined"
    {
      SessionKeyInjective(t, "undefined");
    }
  }

  /** After `set(key, value, ttl)` with a non-empty value, `get(key)` yields that value; other keys read as before. */
  lemma LookupAfterSet(entries: map<string, CacheEntry>, key: string, value: string, ttl: nat, other: string)
    requires value != ""
    ensures Lookup(entries[key := CacheEntry(value, ttl)], key) == Some(value)
    ensures other != key ==> Lookup(entries[key := CacheEntry(value, ttl)], other) == Lookup(entries, other)
  {
  }

  /** After `del(key)`, `get(key)` misses; other keys read as before. */
  lemma LookupAfterDel(entries: map<string, CacheEntry>, key: string, other: string)
    ensures Lookup(entries - {key}, key).None?
    ensures other != key ==> Lookup(entries - {key}, other) == Lookup(entries, other)
  {
  }

  class SessionCache {
    var entries: map<string, CacheEntry>

    constructor ()
      ensures entries == map[]
    {
      entries := map[];
    }

    /** `get(key)`. */
    function Get(key: string): (r: Option<string>)
      reads this
      ensures r.Some? <==> key in entries && entries[key].value != ""
      ensures r.Some? ==> r.value == entries[key].value
    {
      Lookup(entries, key)
    }

    /** `set(key, value, duration)`: SETEX, which replaces any previous value. */
    method Set(key: string, value: string, duration: nat)
      modifies this
      ensures entries == old(entries)[key := CacheEntry(value, duration)]
    {
      entries := entries[key := CacheEntry(value, duration)];
    }

    /** `del(key)`. */
    method Del(key: string)
      modifies this
      ensures entries == old(entries) - {key}
    {
      entries := entries - {key};
    }
  }
}
