/** CacheService: a time-to-live cache kept in two maps, the values and
    their expiry instants, with lazy eviction on lookup, a sweep of expired
    entries, and removal of the job and user entries by key prefix. Times
    are milliseconds; the clock is the `now` argument. */
module Cache {
  import opened Streams
  import opened Text

  const DefaultTtl: int := 300000

  /** The two maps of the service. */
  datatype CacheState<V> = CacheState(cache: map<string, V>, cacheTimestamps: map<string, int>)

  /** The two maps have the same keys. */
  predicate SameKeys<V>(st: CacheState<V>) {
    st.cache.Keys == st.cacheTimestamps.Keys
  }

  /** `isValid`: the key has an expiry and it is still ahead of `now`. */
  predicate IsValid<V>(st: CacheState<V>, key: string, now: int) {
    key in st.cacheTimestamps && now < st.cacheTimestamps[key]
  }

  /** `put(key, value, ttlMs)`. */
  function Put<V>(st: CacheState<V>, key: string, value: V, ttlMs: int, now: int): (r: CacheState<V>)
    ensures key in r.cache && r.cache[key] == value
    ensures forall t :: IsValid(r, key, t) <==> t < now + ttlMs
    ensures forall k :: k != key ==>
      && (k in r.cache <==> k in st.cache) && (k in r.cache ==> r.cache[k] == st.cache[k])
      && (k in r.cacheTimestamps <==> k in st.cacheTimestamps)
      && (k in r.cacheTimestamps ==> r.cacheTimestamps[k] == st.cacheTimestamps[k])
    ensures SameKeys(st) ==> SameKeys(r)
  {
    CacheState(st.cache[key := value], st.cacheTimestamps[key := now + ttlMs])
  }

  /** `remove(key)`. */
  function Remove<V>(st: CacheState<V>, key: string): (r: CacheState<V>)
    ensures key !in r.cache && key !in r.cacheTimestamps
    ensures forall k :: k != key ==>
      && (k in r.cache <==> k in st.cache) && (k in r.cache ==> r.cache[k] == st.cache[k])
      && (k in r.cacheTimestamps <==> k in st.cacheTimestamps)
      && (k in r.cacheTimestamps ==> r.cacheTimestamps[k] == st.cacheTimestamps[k])
    ensures SameKeys(st) ==> SameKeys(r)
  {
    CacheState(st.cache - {key}, st.cacheTimestamps - {key})
  }

  /** What `get` returns and the state it leaves. */
  datatype Lookup<V> = Lookup(value: Option<V>, after: CacheState<V>)

  /** `get(key)`: an entry that is no longer valid is removed from both maps
      and reads as null; a valid one is returned and nothing changes. */
  function Get<V>(st: CacheState<V>, key: string, now: int): (r: Lookup<V>)
    ensures !IsValid(st, key, now) ==> r.value.None? && r.after == Remove(st, key)
    ensures IsValid(st, key, now) ==> r.after == st
    ensures IsValid(st, key, now) && SameKeys(st) ==> r.value == Some(st.cache[key])
  {
    if !IsValid(st, key, now) then Lookup(None, Remove(st, key))
    else Lookup(if key in st.cache then Some(st.cache[key]) else None, st)
  }

  /** A value put with a time to live is read back until it expires, and
      from then on reads as null and is evicted. */
  lemma PutThenGet<V>(st: CacheState<V>, key: string, value: V, ttlMs: int, putAt: int, now: int)
    ensures var lookup := Get(Put(st, key, value, ttlMs, putAt), key, now);
      && (now < putAt + ttlMs ==> lookup.value == Some(value))
      && (now >= putAt + ttlMs ==> lookup.value.None? && key !in lookup.after.cache && key !in lookup.after.cacheTimestamps)
  {
  }

  /** `containsKey`. */
  predicate ContainsKey<V>(st: CacheState<V>, key: string, now: int) {
    IsValid(st, key, now) && key in st.cache
  }

  /** `containsKey` agrees with what `get` would return. */
  lemma ContainsKeyAgreesWithGet<V>(st: CacheState<V>, key: string, now: int)
    requires SameKeys(st)
    ensures ContainsKey(st, key, now) <==> Get(st, key, now).value.Some?
  {
  }

  /** `cleanupExpiredEntries`: drops every entry whose expiry is not ahead of
      `now`, from both maps. */
  function CleanupExpired<V>(st: CacheState<V>, now: int): (r: CacheState<V>)
    ensures SameKeys(st) ==> SameKeys(r)
  {
    CacheState(
      map k | k in st.cache && !(k in st.cacheTimestamps && now >= st.cacheTimestamps[k]) :: st.cache[k],
      map k | k in st.cacheTimestamps && now < st.cacheTimestamps[k] :: st.cacheTimestamps[k])
  }

  /** The sweep keeps exactly the valid entries, unchanged. */
  lemma CleanupKeepsExactlyTheValid<V>(st: CacheState<V>, now: int, k: string)
    requires SameKeys(st)
    ensures var r := CleanupExpired(st, now);
      && (k in r.cache <==> k in st.cache && IsValid(st, k, now))
      && (k in r.cache ==> r.cache[k] == st.cache[k] && r.cacheTimestamps[k] == st.cacheTimestamps[k])
  {
  }

  /** After a sweep every remaining entry is valid, so a lookup at the same
      instant evicts nothing. */
  lemma CleanupLeavesOnlyValid<V>(st: CacheState<V>, now: int, k: string)
    requires SameKeys(st) && k in CleanupExpired(st, now).cache
    ensures Get(CleanupExpired(st, now), k, now) == Lookup(Some(st.cache[k]), CleanupExpired(st, now))
  {
  }

  /** Keys of the cached job lists and statistics. */
  predicate IsJobKey(key: string) {
    StartsWith(key, "recent_jobs_") || StartsWith(key, "jobs_location_") || key == "job_statistics"
  }

  /** Both maps without the keys `drop` selects (`entrySet().removeIf`). */
  function RemoveKeysWhere<V>(st: CacheState<V>, drop: string -> bool): (r: CacheState<V>)
    ensures forall k :: k in r.cache <==> k in st.cache && !drop(k)
    ensures forall k :: k in r.cacheTimestamps <==> k in st.cacheTimestamps && !drop(k)
    ensures forall k :: k in r.cache ==> r.cache[k] == st.cache[k]
    ensures forall k :: k in r.cacheTimestamps ==> r.cacheTimestamps[k] == st.cacheTimestamps[k]
    ensures SameKeys(st) ==> SameKeys(r)
  {
    CacheState(map k | k in st.cache && !drop(k) :: st.cache[k],
               map k | k in st.cacheTimestamps && !drop(k) :: st.cacheTimestamps[k])
  }

  /** `invalidateJobCaches`. */
  function InvalidateJobCaches<V>(st: CacheState<V>): CacheState<V> {
    RemoveKeysWhere(st, IsJobKey)
  }

  /** `"user_" + userId + "_"`; a null id is rendered as "null". */
  function UserPrefix(userId: Option<int>): string {
    "user_" + (if userId.Some? then IntToString(userId.value) else "null") + "_"
  }

  /** The key belongs to the given user's cached data. */
  predicate IsUserKey(userId: Option<int>, key: string) {
    StartsWith(key, UserPrefix(userId))
  }

  /** `invalidateUserCaches(userId)`. */
  function InvalidateUserCaches<V>(st: CacheState<V>, userId: Option<int>): CacheState<V> {
    RemoveKeysWhere(st, (k: string) => IsUserKey(userId, k))
  }

  /** The job invalidation removes exactly the job keys, and every other
      entry survives with its value and expiry. */
  lemma InvalidateJobCachesIsExact<V>(st: CacheState<V>, k: string)
    ensures var r := InvalidateJobCaches(st);
      && (k in r.cache <==> k in st.cache && !IsJobKey(k))
      && (k in r.cache ==> r.cache[k] == st.cache[k])
      && (k in r.cacheTimestamps <==> k in st.cacheTimestamps && !IsJobKey(k))
  {
  }

  /** The keys the job invalidation removes, by example. */
  lemma JobKeyExamples()
    ensures IsJobKey("recent_jobs_10") && IsJobKey("jobs_location_remote") && IsJobKey("job_statistics")
    ensures !IsJobKey("job_statistics_old") && !IsJobKey("recent_jobs") && !IsJobKey("user_1_jobs_location_x")
  {
    assert "recent_jobs_10"[..12] == "recent_jobs_";
    assert "jobs_location_remote"[..14] == "jobs_location_";
    assert "job_statistics_old"[..12][0] != "recent_jobs_"[0];
    assert "job_statistics_old"[..14][3] != "jobs_location_"[3];
    assert "user_1_jobs_location_x"[..12][0] != "recent_jobs_"[0];
    assert "user_1_jobs_location_x"[..14][0] != "jobs_location_"[0];
  }

  /** The string has no underscore. */
  predicate NoUnderscore(s: string) {
    forall i :: 0 <= i < |s| ==> s[i] != '_'
  }

  /** Two underscore-free words each followed by an underscore: when one
      such word begins the other's text, the words are equal. */
  lemma {:induction false} UnderscoreEndsTheWord(d1: string, d2: string, rest: string)
    requires NoUnderscore(d1) && NoUnderscore(d2)
    requires StartsWith(d2 + "_" + rest, d1 + "_")
    ensures d1 == d2
    decreases |d1|
  {
    var text := d2 + "_" + rest;
    assert text[..|d1| + 1] == d1 + "_";
    if d1 == [] {
      assert text[0] == '_';
    } else {
      assert text[0] == d1[0];
      assert d2 != [];
      assert text[1..] == d2[1..] + "_" + rest;
      assert text[1..][..|d1[1..]| + 1] == d1[1..] + "_";
      UnderscoreEndsTheWord(d1[1..], d2[1..], rest);
      assert d1 == [d1[0]] + d1[1..] && d2 == [d2[0]] + d2[1..];
    }
  }

  /** The prefix of user `a` begins a key of user `b` only when `a` and `b`
      are the same user: the underscore after the number stops user 1 from
      matching user 12. */
  lemma UserPrefixSeparatesUsers(a: int, b: int, rest: string)
    requires StartsWith(UserPrefix(Some(b)) + rest, UserPrefix(Some(a)))
    ensures a == b
  {
    var sa, sb := IntToString(a), IntToString(b);
    var key := UserPrefix(Some(b)) + rest;
    var prefix := UserPrefix(Some(a));
    assert key[5..] == sb + "_" + rest;
    assert prefix[5..] == sa + "_";
    assert key[5..][..|sa| + 1] == sa + "_" by {
      assert key[..|prefix|] == prefix;
    }
    UnderscoreEndsTheWord(sa, sb, rest);
    IntToStringInjective(a, b);
  }

  /** The user invalidation removes exactly the keys under that user's
      prefix; in particular another user's keys all survive. */
  lemma InvalidateUserCachesIsExact<V>(st: CacheState<V>, userId: int, other: int, rest: string)
    requires other != userId
    ensures var r := InvalidateUserCaches(st, Some(userId));
      && (forall k :: k in r.cache <==> k in st.cache && !IsUserKey(Some(userId), k))
      && (UserPrefix(Some(other)) + rest in st.cache ==> UserPrefix(Some(other)) + rest in r.cache)
  {
    if StartsWith(UserPrefix(Some(other)) + rest, UserPrefix(Some(userId))) {
      UserPrefixSeparatesUsers(userId, other, rest);
    }
  }

  class CacheService<V> {
    var cache: map<string, V>
    var cacheTimestamps: map<string, int>

    function Model(): CacheState<V>
      reads this
    {
      CacheState(cache, cacheTimestamps)
    }

    ghost predicate Valid()
      reads this
    {
      SameKeys(Model())
    }

    constructor ()
      ensures Valid() && cache == map[] && cacheTimestamps == map[]
    {
      cache := map[];
      cacheTimestamps := map[];
    }

    method PutWithTtl(key: string, value: V, ttlMs: int, now: int)
      modifies this
      ensures Model() == Put(old(Model()), key, value, ttlMs, now)
      ensures old(Valid()) ==> Valid()
    {
      cache := cache[key := value];
      cacheTimestamps := cacheTimestamps[key := now + ttlMs];
    }

    /** `put(key, value)`: the default time to live of five minutes. */
    method PutDefault(key: string, value: V, now: int)
      modifies this
      ensures Model() == Put(old(Model()), key, value, DefaultTtl, now)
      ensures old(Valid()) ==> Valid()
    {
      PutWithTtl(key, value, DefaultTtl, now);
    }

    method GetValue(key: string, now: int) returns (value: Option<V>)
      modifies this
      ensures Lookup(value, Model()) == Get(old(Model()), key, now)
      ensures old(Valid()) ==> Valid()
    {
      if !IsValid(Model(), key, now) {
        RemoveKey(key);
        return None;
      }
      value := if key in cache then Some(cache[key]) else None;
    }

    method RemoveKey(key: string)
      modifies this
      ensures Model() == Remove(old(Model()), key)
      ensures old(Valid()) ==> Valid()
    {
      cache := cache - {key};
      cacheTimestamps := cacheTimestamps - {key};
    }

    method Clear()
      modifies this
      ensures cache == map[] && cacheTimestamps == map[]
      ensures Valid()
    {
      cache := map[];
      cacheTimestamps := map[];
    }

    method CleanupExpiredEntries(now: int)
      modifies this
      ensures Model() == CleanupExpired(old(Model()), now)
      ensures old(Valid()) ==> Valid()
    {
      cache := map k | k in cache && !(k in cacheTimestamps && now >= cacheTimestamps[k]) :: cache[k];
      cacheTimestamps := map k | k in cacheTimestamps && now < cacheTimestamps[k] :: cacheTimestamps[k];
    }

    /** `size()`: sweeps first, then counts what is left. */
    method Size(now: int) returns (n: nat)
      modifies this
      ensures Model() == CleanupExpired(old(Model()), now)
      ensures n == |cache|
      ensures old(Valid()) ==> Valid()
    {
      CleanupExpiredEntries(now);
      n := |cache|;
    }

    method InvalidateJobs()
      modifies this
      ensures Model() == InvalidateJobCaches(old(Model()))
      ensures old(Valid()) ==> Valid()
    {
      cache := map k | k in cache && !IsJobKey(k) :: cache[k];
      cacheTimestamps := map k | k in cacheTimestamps && !IsJobKey(k) :: cacheTimestamps[k];
    }

    method InvalidateUser(userId: Option<int>)
      modifies this
      ensures Model() == InvalidateUserCaches(old(Model()), userId)
      ensures old(Valid()) ==> Valid()
    {
      ghost var after := InvalidateUserCaches(Model(), userId);
      cache := map k | k in cache && !IsUserKey(userId, k) :: cache[k];
      cacheTimestamps := map k | k in cacheTimestamps && !IsUserKey(userId, k) :: cacheTimestamps[k];
      assert cache == after.cache;
      assert cacheTimestamps == after.cacheTimestamps;
    }
  }
}
