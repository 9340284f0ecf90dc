/** The in-memory response cache: the module-level dict `_cache` with
    `get_cached` and `set_cached`. Each entry is `(data, timestamp)`; the clock
    (`time.time()`) is the parameter `now`. */
module TtlCaches {
  import opened Wrappers

  /** `CACHE_TTL` when `CLAWSEARCH_CACHE_TTL` is not set. */
  const DefaultTtl: int := 300

  /** An entry is served while less than `ttl` seconds have passed since it was stored. */
  predicate IsFresh(ts: int, now: int, ttl: int) {
    now - ts < ttl
  }

  /** What `get_cached(key)` returns: the stored data exactly when the key is present and
      still fresh. */
  function Lookup<D>(m: map<string, (D, int)>, key: string, now: int, ttl: int): (r: Option<D>)
    ensures r.Some? <==> key in m && now - m[key].1 < ttl
    ensures r.Some? ==> r.value == m[key].0
  {
    if key in m && IsFresh(m[key].1, now, ttl) then Some(m[key].0) else None
  }

  /** The cache after `get_cached(key)`: exactly an expired entry for `key` is dropped,
      every other entry is kept as it was, and a missing key leaves the map untouched. */
  function AfterGet<D>(m: map<string, (D, int)>, key: string, now: int, ttl: int): (r: map<string, (D, int)>)
    ensures r.Keys == if key in m && !IsFresh(m[key].1, now, ttl) then m.Keys - {key} else m.Keys
    ensures forall k :: k in r ==> r[k] == m[k]
    ensures key in m && !IsFresh(m[key].1, now, ttl) ==> |r| == |m| - 1
    ensures key !in m ==> r == m
  {
    if key in m && !IsFresh(m[key].1, now, ttl) then m - {key} else m
  }

  /** The cache after `set_cached(key, data)`: `key` is added or overwritten with
      `(data, now)` and every other entry is kept. */
  function AfterSet<D>(m: map<string, (D, int)>, key: string, data: D, now: int): (r: map<string, (D, int)>)
    ensures r.Keys == m.Keys + {key}
    ensures r[key] == (data, now)
    ensures forall k :: k in m && k != key ==> r[k] == m[k]
  {
    m[key := (data, now)]
  }

  class TtlCache<D> {
    /** `CACHE_TTL`, read once at start-up. */
    const ttl: int
    /** `_cache`: key to `(data, timestamp)`. */
    var entries: map<string, (D, int)>

    constructor (ttl: int)
      ensures this.ttl == ttl && entries == map[]
    {
      this.ttl := ttl;
      entries := map[];
    }

    /** `get_cached(key)` at time `now`. */
    method GetCached(key: string, now: int) returns (r: Option<D>)
      modifies this
      ensures r == Lookup(old(entries), key, now, ttl)
      ensures entries == AfterGet(old(entries), key, now, ttl)
    {
      if key in entries {
        var (data, ts) := entries[key];
        if now - ts < ttl {
          return Some(data);
        }
        entries := entries - {key};
      }
      return None;
    }

    /** `set_cached(key, data)` at time `now`. */
    method SetCached(key: string, data: D, now: int)
      modifies this
      ensures entries == AfterSet(old(entries), key, data, now)
    {
      entries := entries[key := (data, now)];
    }
  }

  // ---------------------------------------------------------------------------
  // Properties of the cache operations

  /** Once an entry has expired it stays expired: no later read serves it. */
  lemma ExpiryIsPermanent<D>(m: map<string, (D, int)>, key: string, t: int, later: int, ttl: int)
    requires key in m && !IsFresh(m[key].1, t, ttl) && t <= later
    ensures Lookup(m, key, later, ttl) == None
    ensures Lookup(AfterGet(m, key, t, ttl), key, later, ttl) == None
  {
  }

  /** A read never changes what any key reads as at the same time. */
  lemma GetIsIdempotent<D>(m: map<string, (D, int)>, key: string, k: string, now: int, ttl: int)
    ensures Lookup(AfterGet(m, key, now, ttl), k, now, ttl) == Lookup(m, k, now, ttl)
    ensures AfterGet(AfterGet(m, key, now, ttl), key, now, ttl) == AfterGet(m, key, now, ttl)
  {
  }

  /** A read of `key` after `set_cached(key, data)` serves `data` for the next `ttl`
      seconds and nothing from then on; other keys read as before. */
  lemma SetThenGet<D>(m: map<string, (D, int)>, key: string, data: D, t: int, now: int, ttl: int)
    ensures Lookup(AfterSet(m, key, data, t), key, now, ttl) == if now - t < ttl then Some(data) else None
    ensures forall k :: k != key ==> Lookup(AfterSet(m, key, data, t), k, now, ttl) == Lookup(m, k, now, ttl)
  {
  }

  /** With a positive `ttl`, a read at the moment of writing returns what was written. */
  lemma SetThenGetSameMoment<D>(m: map<string, (D, int)>, key: string, data: D, now: int, ttl: int)
    requires ttl > 0
    ensures Lookup(AfterSet(m, key, data, now), key, now, ttl) == Some(data)
    ensures AfterGet(AfterSet(m, key, data, now), key, now, ttl) == AfterSet(m, key, data, now)
  {
  }

  /** With `ttl` zero or negative (a `CLAWSEARCH_CACHE_TTL` of 0 or less) nothing written is ever served. */
  lemma NonPositiveTtlDisablesCache<D>(m: map<string, (D, int)>, key: string, data: D, t: int, now: int, ttl: int)
    requires ttl <= 0 && t <= now
    ensures Lookup(AfterSet(m, key, data, t), key, now, ttl) == None
  {
  }

  /** Written at `t` with the default TTL of 300 seconds: served 299 seconds later, gone 301 seconds later. */
  lemma DefaultTtlWindow<D>(m: map<string, (D, int)>, key: string, data: D, t: int)
    ensures Lookup(AfterSet(m, key, data, t), key, t + 299, DefaultTtl) == Some(data)
    ensures Lookup(AfterSet(m, key, data, t), key, t + 300, DefaultTtl) == None
    ensures Lookup(AfterSet(m, key, data, t), key, t + 301, DefaultTtl) == None
  {
  }

  /** The class used as the source uses it: write at `t` with the default TTL, read back
      299 seconds later, then read again 301 seconds later, when the entry has expired and
      the read has removed it. */
  method ExpiryScenario<D>(key: string, data: D, t: int) returns (hit: Option<D>, miss: Option<D>, left: map<string, (D, int)>)
    ensures hit == Some(data)
    ensures miss == None
    ensures left == map[]
  {
    var c := new TtlCache<D>(DefaultTtl);
    c.SetCached(key, data, t);
    hit := c.GetCached(key, t + 299);
    miss := c.GetCached(key, t + 301);
    left := c.entries;
  }
}
