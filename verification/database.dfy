/**
 * The client-side database: the latest info per entity type, and a per-UUID instance cache
 * whose entries are fresh for a strict 5000 ms window after their registration time.
 * The clock is a parameter (`now`, in milliseconds).
 */
module Database {
  import opened Wrappers
  import opened Location
  import opened World
  import opened ScopedInfo

  const CACHE_DURATION_MS: int := 5000

  /** The freshness rule of `getFreshInstance`, over the cache and its timestamp map (missing stamp reads as 0). */
  function FreshEntry<V>(cache: map<Uuid, V>, stamps: map<Uuid, int>, u: Uuid, now: int): (r: Option<V>)
    ensures u !in cache ==> r.None?
    ensures r.Some? ==> u in cache && r.value == cache[u]
  {
    if u !in cache then None
    else
      var lastUpdate := if u in stamps then stamps[u] else 0;
      if now - lastUpdate < CACHE_DURATION_MS then Some(cache[u]) else None
  }

  /** An entry registered at `t` is returned exactly while `now - t < 5000`. */
  lemma FreshWindow<V>(cache: map<Uuid, V>, stamps: map<Uuid, int>, u: Uuid, x: V, t: int, now: int)
    ensures FreshEntry(cache[u := x], stamps[u := t], u, now) == if now - t < CACHE_DURATION_MS then Some(x) else None
  {
  }

  /** Registering one UUID leaves every other UUID's freshness as it was. */
  lemma OtherEntriesUnaffected<V>(cache: map<Uuid, V>, stamps: map<Uuid, int>, u: Uuid, x: V, t: int, w: Uuid, now: int)
    requires w != u
    ensures FreshEntry(cache[u := x], stamps[u := t], w, now) == FreshEntry(cache, stamps, w, now)
  {
  }

  /** Without new registrations, a stale entry stays stale as time goes on. */
  lemma StaleStaysStale<V>(cache: map<Uuid, V>, stamps: map<Uuid, int>, u: Uuid, now: int, later: int)
    requires now <= later && FreshEntry(cache, stamps, u, now).None?
    ensures FreshEntry(cache, stamps, u, later).None?
  {
  }

  class EthologyDatabase {
    var database: map<EntityType, MobScopedInfo>
    var instanceCache: map<Uuid, MobScopedInfo>
    var cacheTimestamps: map<Uuid, int>
    var isScanned: bool

    /** The instance cache and its timestamps are written and cleared together. */
    ghost predicate Valid()
      reads this
    {
      instanceCache.Keys == cacheTimestamps.Keys
    }

    constructor()
      ensures Valid() && database == map[] && instanceCache == map[] && cacheTimestamps == map[] && !isScanned
    {
      database := map[];
      instanceCache := map[];
      cacheTimestamps := map[];
      isScanned := false;
    }

    function Get(t: EntityType): (r: Option<MobScopedInfo>)
      reads this
      ensures r.Some? <==> t in database
      ensures r.Some? ==> r.value == database[t]
    {
      if t in database then Some(database[t]) else None
    }

    function GetFreshInstance(u: Uuid, now: int): Option<MobScopedInfo>
      reads this
    {
      FreshEntry(instanceCache, cacheTimestamps, u, now)
    }

    /**
     * Stores `info` for its type; an info that carries a UUID is also cached under it,
     * stamped with `now`.
     */
    method Register(t: EntityType, info: MobScopedInfo, now: int)
      requires Valid()
      modifies this`database, this`instanceCache, this`cacheTimestamps
      ensures Valid()
      ensures database == old(database)[t := info]
      ensures info.uuid.Some? ==> instanceCache == old(instanceCache)[info.uuid.value := info] &&
                                  cacheTimestamps == old(cacheTimestamps)[info.uuid.value := now]
      ensures info.uuid.None? ==> instanceCache == old(instanceCache) && cacheTimestamps == old(cacheTimestamps)
      ensures Get(t) == Some(info)
      ensures info.uuid.Some? ==> GetFreshInstance(info.uuid.value, now) == Some(info)
    {
      database := database[t := info];
      if info.uuid.Some? {
        instanceCache := instanceCache[info.uuid.value := info];
        cacheTimestamps := cacheTimestamps[info.uuid.value := now];
      }
    }

    method SetScanned(scanned: bool)
      modifies this`isScanned
      ensures isScanned == scanned
    {
      isScanned := scanned;
    }

    method Clear()
      modifies this
      ensures Valid()
      ensures database == map[] && instanceCache == map[] && cacheTimestamps == map[] && !isScanned
    {
      database := map[];
      instanceCache := map[];
      cacheTimestamps := map[];
      isScanned := false;
    }
  }
}
