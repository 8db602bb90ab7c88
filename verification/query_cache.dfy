/**
 * The in-memory query cache: one map from string keys to entries stamped with the
 * time they were stored, a fixed time-to-live, lazy eviction on read, explicit
 * invalidation of one key or of every key.
 *
 * Time is an integer number of milliseconds given by the caller (the difference of
 * two JavaScript `Date`s is a whole number of milliseconds).
 */
module QueryCache {
  import opened Optional

  /** Five minutes, in milliseconds. */
  const CACHE_TTL: int := 5 * 60 * 1000

  datatype Entry<T> = Entry(data: T, timestamp: int)

  /** An entry is expired once its age is strictly greater than the TTL. */
  predicate IsExpired<T>(e: Entry<T>, now: int)
  {
    now - e.timestamp > CACHE_TTL
  }

  /** What a read of `key` at time `now` returns for the store `m`. */
  function Peek<T>(m: map<string, Entry<T>>, key: string, now: int): (r: Option<T>)
    ensures r.Some? <==> key in m && now - m[key].timestamp <= CACHE_TTL
    ensures r.Some? ==> r.value == m[key].data
  {
    if key !in m then None
    else if IsExpired(m[key], now) then None
    else Some(m[key].data)
  }

  /** The store after a read of `key` at time `now`: an expired entry is dropped. */
  function Evict<T>(m: map<string, Entry<T>>, key: string, now: int): (r: map<string, Entry<T>>)
    ensures forall k :: k in m && k != key ==> k in r && r[k] == m[k]
    ensures forall k :: k in r ==> k in m && r[k] == m[k]
    ensures key in r <==> key in m && now - m[key].timestamp <= CACHE_TTL
  {
    if key in m && IsExpired(m[key], now) then m - {key} else m
  }

  /** The shared store. */
  class Cache<T> {
    var entries: map<string, Entry<T>>

    constructor ()
      ensures entries == map[]
    {
      entries := map[];
    }

    /** Reads `key` at time `now`, dropping the entry if it has expired. */
    method Get(key: string, now: int) returns (r: Option<T>)
      modifies this
      ensures r == Peek(old(entries), key, now)
      ensures entries == Evict(old(entries), key, now)
      ensures key !in old(entries) ==> r.None? && entries == old(entries)
      ensures key in old(entries) && IsExpired(old(entries)[key], now) ==>
                r.None? && entries == old(entries) - {key}
      ensures key in old(entries) && !IsExpired(old(entries)[key], now) ==>
                r == Some(old(entries)[key].data) && entries == old(entries)
    {
      if key !in entries {
        return None;
      }
      var item := entries[key];
      if now - item.timestamp > CACHE_TTL {
        entries := entries - {key};
        return None;
      }
      r := Some(item.data);
    }

    /** Stores `data` under `key`, stamped with `now`, replacing any earlier entry. */
    method Set(key: string, data: T, now: int)
      modifies this
      ensures entries == old(entries)[key := Entry(data, now)]
    {
      var item := Entry(data, now);
      entries := entries[key := item];
    }

    /** Drops the entry for `key`, if there is one. */
    method Invalidate(key: string)
      modifies this
      ensures entries == old(entries) - {key}
      ensures key !in old(entries) ==> entries == old(entries)
    {
      entries := entries - {key};
    }

    /** Drops every entry. */
    method InvalidateAll()
      modifies this
      ensures entries == map[]
      ensures forall k, t :: Peek(entries, k, t) == None
    {
      entries := map[];
    }
  }

  /** A key that is absent (never stored, or removed) reads as a miss and changes nothing. */
  lemma AbsentKeyMisses<T>(m: map<string, Entry<T>>, key: string, now: int)
    requires key !in m
    ensures Peek(m, key, now) == None
    ensures Evict(m, key, now) == m
  {
  }

  /** A stored value is read back exactly while its age is at most the TTL, and
      is a miss (and dropped) afterwards. */
  lemma SetThenGet<T>(m: map<string, Entry<T>>, key: string, v: T, t: int, now: int)
    ensures now - t <= CACHE_TTL ==>
              Peek(m[key := Entry(v, t)], key, now) == Some(v) &&
              Evict(m[key := Entry(v, t)], key, now) == m[key := Entry(v, t)]
    ensures now - t > CACHE_TTL ==>
              Peek(m[key := Entry(v, t)], key, now) == None &&
              Evict(m[key := Entry(v, t)], key, now) == m - {key}
  {
  }

  /** The expiry boundary is strict: an entry aged exactly the TTL is still a hit,
      one millisecond later it is gone. */
  lemma ExpiryBoundary<T>(m: map<string, Entry<T>>, key: string, v: T, t: int)
    ensures Peek(m[key := Entry(v, t)], key, t + CACHE_TTL) == Some(v)
    ensures Peek(m[key := Entry(v, t)], key, t + CACHE_TTL + 1) == None
  {
  }

  /** A later store under the same key wins, whatever was there before. */
  lemma LastSetWins<T>(m: map<string, Entry<T>>, key: string, v1: T, t1: int, v2: T, t2: int, now: int)
    requires now - t2 <= CACHE_TTL
    ensures Peek(m[key := Entry(v1, t1)][key := Entry(v2, t2)], key, now) == Some(v2)
  {
  }

  /** Storing under one key leaves what every other key reads unchanged. */
  lemma SetLeavesOtherKeys<T>(m: map<string, Entry<T>>, key: string, v: T, t: int, other: string, now: int)
    requires other != key
    ensures Peek(m[key := Entry(v, t)], other, now) == Peek(m, other, now)
  {
  }

  /** Reading twice at the same time gives the same answer, and the second read
      changes nothing. */
  lemma GetIdempotent<T>(m: map<string, Entry<T>>, key: string, now: int)
    ensures Peek(Evict(m, key, now), key, now) == Peek(m, key, now)
    ensures Evict(Evict(m, key, now), key, now) == Evict(m, key, now)
  {
  }

  /** Within the TTL window, repeated reads at increasing times keep returning the
      same value and leave the store as it was. */
  lemma RepeatedHits<T>(m: map<string, Entry<T>>, key: string, t1: int, t2: int)
    requires t1 <= t2
    requires Peek(m, key, t2).Some?
    ensures Peek(m, key, t1) == Peek(m, key, t2)
    ensures Evict(m, key, t1) == m
    ensures Peek(Evict(m, key, t1), key, t2) == Peek(m, key, t2)
  {
  }

  /** Invalidation is a miss for that key afterwards, leaves every other key's read
      alone, and doing it twice is the same as once. */
  lemma InvalidateMisses<T>(m: map<string, Entry<T>>, key: string, other: string, now: int)
    ensures Peek(m - {key}, key, now) == None
    ensures other != key ==> Peek(m - {key}, other, now) == Peek(m, other, now)
    ensures (m - {key}) - {key} == m - {key}
  {
  }

  /** After every entry is dropped, every read misses. */
  lemma ClearedStoreMisses<T>(m: map<string, Entry<T>>, key: string, now: int)
    requires m == map[]
    ensures Peek(m, key, now) == None
  {
  }
}
