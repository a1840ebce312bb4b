/**
 * `CacheService` (bot/src/services/cache.service.ts): a Redis-backed cache
 * of JSON values with an expiry per key. The store is a map from key to the
 * value and the second at which it expires; the clock is a parameter. A
 * failing client is a flag: every operation then swallows the error, `get`
 * answering null and the writes changing nothing.
 */
module CacheService {
  import opened Wrappers

  /** `config.cache.ttl`: 1200 seconds unless the environment says otherwise. */
  const DefaultTtl: int := 1200

  /** A stored value and the second from which it is gone. */
  datatype Entry<V> = Entry(value: V, expiresAt: int)

  /** What reading `key` at second `now` finds: the value while it has not expired. */
  function Lookup<V>(m: map<string, Entry<V>>, key: string, now: int): Option<V>
  {
    if key in m && now < m[key].expiresAt then Some(m[key].value) else None
  }

  /**
   * `SET key value EX ttl`: the key holds the value for `ttl` seconds from
   * `now`; Redis refuses an expiry that is not positive, leaving the store as
   * it was.
   */
  function Store<V>(m: map<string, Entry<V>>, key: string, value: V, now: int, ttl: int)
    : (r: map<string, Entry<V>>)
    ensures ttl > 0 ==> forall t :: now <= t < now + ttl ==> Lookup(r, key, t) == Some(value)
    ensures ttl > 0 ==> forall t :: t >= now + ttl ==> Lookup(r, key, t) == None
    ensures ttl <= 0 ==> r == m
    ensures forall k, t :: k != key ==> Lookup(r, k, t) == Lookup(m, k, t)
  {
    if ttl <= 0 then m else m[key := Entry(value, now + ttl)]
  }

  /** `DEL key`: the key reads as absent from then on; every other key is untouched. */
  function Remove<V>(m: map<string, Entry<V>>, key: string): (r: map<string, Entry<V>>)
    ensures forall t :: Lookup(r, key, t) == None
    ensures forall k, t :: k != key ==> Lookup(r, k, t) == Lookup(m, k, t)
  {
    m - {key}
  }

  /**
   * The glob of `KEYS`, over the characters of the key: `*` matches any run
   * of characters, `?` any one character, `\` makes the next character
   * literal, and every other character matches itself. Redis matches the
   * UTF-8 bytes of the key instead, which agrees with this on ASCII keys
   * such as every key the bot builds.
   */
  predicate Matches(p: string, s: string)
    decreases |p| + |s|
  {
    if p == [] then s == []
    else if p[0] == '*' then Matches(p[1..], s) || (s != [] && Matches(p, s[1..]))
    else if s == [] then false
    else if p[0] == '?' then Matches(p[1..], s[1..])
    else if p[0] == '\\' && |p| >= 2 then p[1] == s[0] && Matches(p[2..], s[1..])
    else p[0] == s[0] && Matches(p[1..], s[1..])
  }

  /** A pattern with none of the characters `*`, `?` and `\`. */
  predicate Plain(p: string)
  {
    forall i :: 0 <= i < |p| ==> p[i] != '*' && p[i] != '?' && p[i] != '\\'
  }

  /** `*` matches every key. */
  lemma {:induction false} StarMatchesAll(s: string)
    ensures Matches("*", s)
    decreases |s|
  {
    if s != [] {
      StarMatchesAll(s[1..]);
    }
  }

  /** A plain pattern matches exactly itself. */
  lemma {:induction false} PlainMatchesItself(p: string, s: string)
    requires Plain(p)
    ensures Matches(p, s) <==> s == p
    decreases |p|
  {
    if p != [] && s != [] {
      PlainMatchesItself(p[1..], s[1..]);
      assert p == [p[0]] + p[1..];
      assert s == [s[0]] + s[1..];
    }
  }

  /** A plain prefix followed by `*` matches exactly the keys that start with that prefix. */
  lemma {:induction false} PrefixStarMatches(prefix: string, s: string)
    requires Plain(prefix)
    ensures Matches(prefix + "*", s) <==> |prefix| <= |s| && s[..|prefix|] == prefix
    decreases |prefix|
  {
    var p := prefix + "*";
    if prefix == [] {
      assert p == "*";
      StarMatchesAll(s);
    } else {
      assert p[0] == prefix[0] && p[1..] == prefix[1..] + "*";
      if s != [] {
        PrefixStarMatches(prefix[1..], s[1..]);
        if |prefix| <= |s| {
          assert s[..|prefix|] == [s[0]] + s[1..][..|prefix| - 1];
          assert prefix == [prefix[0]] + prefix[1..];
        }
      }
    }
  }

  /** The keys `KEYS pattern` lists at second `now`: only those that have not expired. */
  function Matching<V>(m: map<string, Entry<V>>, pattern: string, now: int): (r: set<string>)
    ensures forall k :: k in r <==> Lookup(m, k, now).Some? && Matches(pattern, k)
  {
    set k | k in m && now < m[k].expiresAt && Matches(pattern, k)
  }

  /**
   * `DEL` of all the keys `KEYS pattern` lists at second `now`: from then on
   * no matching key reads as present and the others read as before. An
   * expired entry is not listed, so it stays stored (unreadable) as it was.
   */
  function RemoveMatching<V>(m: map<string, Entry<V>>, pattern: string, now: int): (r: map<string, Entry<V>>)
    ensures forall k, t :: now <= t ==>
              Lookup(r, k, t) == if Matches(pattern, k) then None else Lookup(m, k, t)
    ensures forall k :: k in r ==> k in m && r[k] == m[k]
    ensures forall k :: k in m ==> (k in r <==> !(Matches(pattern, k) && now < m[k].expiresAt))
    ensures Matching(m, pattern, now) == {} ==> r == m
  {
    m - Matching(m, pattern, now)
  }

  /** The shared cache client and the store behind it. */
  class Cache<V> {
    /** The store: each key's value and expiry. */
    var entries: map<string, Entry<V>>
    /** The client errs on every command (the connection is down). */
    var failing: bool

    constructor()
      ensures entries == map[] && !failing
    {
      entries := map[];
      failing := false;
    }

    /**
     * `get`: the value stored under `key` unless it has expired; null when
     * there is none, and null as well when the client fails.
     */
    method Get(key: string, now: int) returns (r: Option<V>)
      ensures r == if failing then None else Lookup(entries, key, now)
    {
      if failing {
        return None;
      }
      r := Lookup(entries, key, now);
    }

    /**
     * `set`: store `value` under `key` for `ttl` seconds (1200 by default);
     * an error, whether from the client or from a non-positive expiry, is
     * swallowed and leaves the store as it was.
     */
    method Set(key: string, value: V, now: int, ttl: int := DefaultTtl)
      modifies this
      ensures failing == old(failing)
      ensures entries == if failing then old(entries) else Store(old(entries), key, value, now, ttl)
    {
      if failing {
        return;
      }
      entries := Store(entries, key, value, now, ttl);
    }

    /** `delete`: remove `key`; an error is swallowed. */
    method Delete(key: string)
      modifies this
      ensures failing == old(failing)
      ensures entries == if failing then old(entries) else Remove(old(entries), key)
    {
      if failing {
        return;
      }
      entries := Remove(entries, key);
    }

    /**
     * `deletePattern`: list the live keys matching `pattern` at second `now`
     * and delete them, issuing the delete only when the list is not empty; an
     * error is swallowed. `issued` tells whether the delete was sent.
     */
    method DeletePattern(pattern: string, now: int) returns (issued: bool)
      modifies this
      ensures failing == old(failing)
      ensures entries == if failing then old(entries) else RemoveMatching(old(entries), pattern, now)
      ensures issued <==> !failing && Matching(old(entries), pattern, now) != {}
    {
      if failing {
        return false;
      }
      var keys := Matching(entries, pattern, now);
      issued := |keys| > 0;
      if issued {
        entries := entries - keys;
      }
    }
  }

  /** Reading a key before its expiry gives back the value just stored; from the expiry on it is gone. */
  lemma SetThenGet<V>(m: map<string, Entry<V>>, key: string, value: V, now: int, ttl: int, t: int)
    requires ttl > 0 && now <= t
    ensures Lookup(Store(m, key, value, now, ttl), key, t) == if t < now + ttl then Some(value) else None
  {
  }

  /** A delete by pattern with a plain prefix and `*` removes exactly the keys with that prefix. */
  lemma RemovePrefix<V>(m: map<string, Entry<V>>, prefix: string, now: int, k: string, t: int)
    requires Plain(prefix) && now <= t
    ensures Lookup(RemoveMatching(m, prefix + "*", now), k, t)
            == if |prefix| <= |k| && k[..|prefix|] == prefix then None else Lookup(m, k, t)
  {
    PrefixStarMatches(prefix, k);
  }

  /** An entry that has expired is not listed, so a delete by pattern sends nothing for it. */
  lemma ExpiredNotDeleted<V>(m: map<string, Entry<V>>, pattern: string, now: int)
    requires forall k :: k in m ==> m[k].expiresAt <= now
    ensures Matching(m, pattern, now) == {}
    ensures RemoveMatching(m, pattern, now) == m
  {
  }
}
