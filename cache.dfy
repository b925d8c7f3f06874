/** The backend's in-memory cache: a map from key to `{data, expires}` with a per-entry time to
    live and lazy eviction on read. Time is the caller's `Date.now()` in milliseconds, passed in. */
module TtlCache {
  import opened Wrappers

  datatype Entry<T> = Entry(data: T, expires: int)

  /** The time to live, in seconds, when the caller gives none. */
  const DefaultTtlSeconds: int := 60

  /** `now + ttl * 1000`: the last millisecond at which the entry is still served. */
  function ExpiresAt(now: int, ttlSeconds: int): int
  {
    now + ttlSeconds * 1000
  }

  /** What a read of `key` at `now` returns: nothing for a key never stored, nothing for an entry
      whose expiry is strictly before `now`, the stored data otherwise. */
  function Read<T>(entries: map<string, Entry<T>>, key: string, now: int): Option<T>
  {
    if key !in entries then None
    else if now > entries[key].expires then None
    else Some(entries[key].data)
  }

  /** The entries after that read: an expired entry is deleted, nothing else changes. */
  function AfterRead<T>(entries: map<string, Entry<T>>, key: string, now: int): map<string, Entry<T>>
  {
    if key in entries && now > entries[key].expires then entries - {key} else entries
  }

  /** The entries after storing `data` under `key` at `now`: any earlier entry is replaced. */
  function Store<T>(entries: map<string, Entry<T>>, key: string, data: T, ttlSeconds: int, now: int)
    : map<string, Entry<T>>
  {
    entries[key := Entry(data, ExpiresAt(now, ttlSeconds))]
  }

  class Cache<T> {
    var entries: map<string, Entry<T>>

    constructor ()
      ensures entries == map[]
    {
      entries := map[];
    }

    /** `setCache(key, data, ttl = 60)`. */
    method Set(key: string, data: T, now: int, ttlSeconds: int := DefaultTtlSeconds)
      modifies this
      ensures entries == Store(old(entries), key, data, ttlSeconds, now)
      ensures key in entries && entries[key].data == data
      ensures forall k :: k != key ==> (k in entries <==> k in old(entries))
      ensures forall k :: k != key && k in entries ==> entries[k] == old(entries)[k]
    {
      entries := entries[key := Entry(data, now + ttlSeconds * 1000)];
    }

    /** `getCache(key)`. */
    method Get(key: string, now: int) returns (r: Option<T>)
      modifies this
      ensures r == Read(old(entries), key, now)
      ensures entries == AfterRead(old(entries), key, now)
    {
      if key !in entries {
        return None;
      }
      var item := entries[key];
      if now > item.expires {
        entries := entries - {key};
        return None;
      }
      r := Some(item.data);
    }
  }

  /** A key that was never stored reads as absent and the read changes nothing. */
  lemma ReadUnknownKey<T>(entries: map<string, Entry<T>>, key: string, now: int)
    requires key !in entries
    ensures Read(entries, key, now) == None
    ensures AfterRead(entries, key, now) == entries
  {
  }

  /** After storing `data` at `t` with time to live `ttl`, a read at `now` returns `data` exactly when
      `now <= t + ttl * 1000` (the expiry test is strict), whatever was stored under the key before. */
  lemma ReadAfterStore<T>(entries: map<string, Entry<T>>, key: string, data: T, ttlSeconds: int, t: int, now: int)
    ensures Read(Store(entries, key, data, ttlSeconds, t), key, now)
            == if now <= t + ttlSeconds * 1000 then Some(data) else None
  {
  }

  /** A read of an expired entry returns nothing, removes that key, and leaves every other key as it was. */
  lemma ExpiredReadEvicts<T>(entries: map<string, Entry<T>>, key: string, now: int)
    requires key in entries && now > entries[key].expires
    ensures Read(entries, key, now) == None
    ensures var after := AfterRead(entries, key, now);
      && key !in after
      && (forall k :: k != key ==> (k in after <==> k in entries))
      && (forall k :: k != key && k in after ==> after[k] == entries[k])
  {
  }

  /** A read never disturbs what a read of another key sees. */
  lemma ReadsAreIndependent<T>(entries: map<string, Entry<T>>, key: string, other: string, now: int, later: int)
    requires other != key
    ensures Read(AfterRead(entries, key, now), other, later) == Read(entries, other, later)
  {
  }

  /** Storing without a time to live keeps the entry for 60 seconds. */
  lemma DefaultTtlIsOneMinute<T>(entries: map<string, Entry<T>>, key: string, data: T, t: int)
    ensures Read(Store(entries, key, data, DefaultTtlSeconds, t), key, t + 60000) == Some(data)
    ensures Read(Store(entries, key, data, DefaultTtlSeconds, t), key, t + 60001) == None
  {
  }

  /** Two minutes of caching, read back one second before, exactly at, and one second after expiry. */
  method StandingsScenario<T>(x: T, t: int) returns (before: Option<T>, at: Option<T>, after: Option<T>, evicted: bool)
    ensures before == Some(x) && at == Some(x)
    ensures after == None && evicted
  {
    var c := new Cache<T>();
    c.Set("standings", x, t, 120);
    before := c.Get("standings", t + 119000);
    at := c.Get("standings", t + 120000);
    after := c.Get("standings", t + 121000);
    evicted := "standings" !in c.entries;
  }
}
