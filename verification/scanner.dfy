/**
 * The client's scan entry points.  An archetype scan analyses the type locally, stores a
 * result it gets, and asks the server whenever a connection exists.  A targeted scan
 * analyses the living target locally; when a fresh server result for the same uuid is cached
 * it merges that result's capabilities into the local one and asks nothing, otherwise it
 * stores the local result (if any) and asks the server about that instance.
 * The level, the connection and the clock are parameters; the request sent is the result.
 */
module EthologyScanner {
  import opened Wrappers
  import opened Location
  import opened World
  import opened Traits
  import opened ScopedInfo
  import opened TraitManager
  import opened GoalParserRegistry
  import opened EntityAnalyzer
  import opened Database
  import opened RequestScan

  /** The snapshot of the fresh cached info for `u`, if any. */
  function FreshSnapshot(db: EthologyDatabase, u: Uuid, now: int): Option<InfoValue>
    reads db, db.instanceCache.Values
  {
    match db.GetFreshInstance(u, now)
    case Some(info) => Some(info.Snapshot())
    case None => None
  }

  /**
   * The targeted scan as values: the info it stores (if any) and whether it sends a request.
   * With both a local result and a fresh cached one, the cached capabilities are added to the
   * local ones and nothing is sent; otherwise the local result is stored as it is and a
   * request is sent.
   */
  function TargetedScan(local: Option<InfoValue>, cached: Option<InfoValue>): (Option<InfoValue>, bool) {
    if local.Some? && cached.Some? then
      (Some(local.value.(capabilities := AddAllById(local.value.capabilities, cached.value.capabilities))), false)
    else
      (local, true)
  }

  /**
   * A merge keeps everything local except the capabilities, and those answer every id as
   * the local list followed by the cached list would: a local capability wins over a cached
   * one with the same id, and a cached one fills in an id the local list lacks.  Cached
   * current states never enter.  Distinct ids stay distinct.
   */
  lemma MergeEffect(local: InfoValue, cached: InfoValue, id: ResourceLocation)
    ensures var merged := TargetedScan(Some(local), Some(cached)).0.value;
            merged.currentStates == local.currentStates && merged.traits == local.traits &&
            merged.uuid == local.uuid && merged.entityId == local.entityId &&
            merged.maxHealth == local.maxHealth && merged.attackDamage == local.attackDamage &&
            merged.movementSpeed == local.movementSpeed && merged.armor == local.armor &&
            FirstById(merged.capabilities, id) == FirstById(local.capabilities + cached.capabilities, id) &&
            (UniqueIds(local.capabilities) ==> UniqueIds(merged.capabilities))
  {
    AddAllKeepsFirst(local.capabilities, cached.capabilities, id);
    if UniqueIds(local.capabilities) {
      AddAllKeepsUnique(local.capabilities, cached.capabilities);
    }
  }

  /** The database's three maps: the latest info per type, the instance cache and its timestamps. */
  function Maps(db: EthologyDatabase): (map<EntityType, MobScopedInfo>, map<Uuid, MobScopedInfo>, map<Uuid, int>)
    reads db
  {
    (db.database, db.instanceCache, db.cacheTimestamps)
  }

  /**
   * The maps are `before` with one registration added: `info` is the entry for type `t` and,
   * stamped `now`, the cached instance for `u`; every other type, uuid and stamp is as it was.
   */
  predicate RegisteredOnly(db: EthologyDatabase, before: (map<EntityType, MobScopedInfo>, map<Uuid, MobScopedInfo>, map<Uuid, int>),
                           t: EntityType, u: Uuid, info: MobScopedInfo, now: int)
    reads db
  {
    Maps(db) == (before.0[t := info], before.1[u := info], before.2[u := now])
  }

  /**
   * What an archetype scan of `t` leaves in the database: with a level and a successful
   * analysis, its result registered for `t` and cached under the created entity's uuid;
   * otherwise the maps as they were.
   */
  ghost predicate ArchetypeScanDone(a: AnalysisEnv, t: EntityType, created: Created, levelPresent: bool, now: int,
                                    db: EthologyDatabase,
                                    before: (map<EntityType, MobScopedInfo>, map<Uuid, MobScopedInfo>, map<Uuid, int>))
    requires a.h.Valid()
    reads db, db.database.Values
  {
    var analysis := ArchetypeAnalysis(a, t, created).0;
    if levelPresent && analysis.Some? then
      t in db.database && db.database[t].Snapshot() == analysis.value &&
      RegisteredOnly(db, before, t, created.entity.uuid, db.database[t], now)
    else
      Maps(db) == before
  }

  /**
   * What a connected targeted scan of `target` leaves behind, given the fresh cached snapshot
   * for its uuid: the request of `TargetedScan`; when that stores an info, the info registered
   * for the target's type and cached under the target's uuid; otherwise the maps as they were.
   */
  ghost predicate TargetedScanDone(a: AnalysisEnv, target: LivingEntity, cached: Option<InfoValue>, now: int,
                                   db: EthologyDatabase,
                                   before: (map<EntityType, MobScopedInfo>, map<Uuid, MobScopedInfo>, map<Uuid, int>),
                                   request: Option<RequestScanPayload>)
    requires a.h.Valid()
    reads db, db.database.Values
  {
    var outcome := TargetedScan(InstanceAnalysis(a, target), cached);
    request == (if outcome.1 then Some(RequestScanPayload(target.etype.key, Some(target.uuid))) else None) &&
    if outcome.0.Some? then
      target.etype in db.database && db.database[target.etype].Snapshot() == outcome.0.value &&
      RegisteredOnly(db, before, target.etype, target.uuid, db.database[target.etype], now)
    else
      Maps(db) == before
  }

  /** `scanEntity`: nothing without a level; otherwise analyse, store, and ask the server when connected. */
  method ScanEntity(h: Classes.Hierarchy, manager: EthologyTraitManager, registry: GoalParserRegistry, debug: bool,
                    db: EthologyDatabase, t: EntityType, created: Created,
                    levelPresent: bool, connected: bool, now: int) returns (request: Option<RequestScanPayload>)
    requires h.Valid() && db.Valid()
    modifies db`database, db`instanceCache, db`cacheTimestamps
    ensures db.Valid()
    ensures !levelPresent ==> request.None? && unchanged(db)
    ensures levelPresent ==> request == if connected then Some(RequestScanPayload(t.key, None)) else None
    ensures levelPresent && ArchetypeAnalysis(AnalysisEnvOf(h, manager, registry, debug), t, created).0.Some? ==>
              db.database.Keys == old(db.database.Keys) + {t} && fresh(db.database[t]) &&
              db.database[t].Snapshot() == ArchetypeAnalysis(AnalysisEnvOf(h, manager, registry, debug), t, created).0.value
    ensures ArchetypeAnalysis(AnalysisEnvOf(h, manager, registry, debug), t, created).0.None? ==> unchanged(db)
    ensures ArchetypeScanDone(AnalysisEnvOf(h, manager, registry, debug), t, created, levelPresent, now, db, old(Maps(db)))
  {
    if !levelPresent {
      return None;
    }
    var info, _ := AnalyzeArchetype(h, manager, registry, debug, t, created);
    if info.Some? {
      db.Register(t, info.value, now);
    }
    if connected {
      request := Some(RequestScanPayload(t.key, None));
    } else {
      request := None;
    }
  }

  /**
   * `scanTargetedEntity`: nothing without a connection.  Otherwise the info stored and the
   * request sent are those of `TargetedScan` on the local analysis and the fresh cached info.
   */
  method ScanTargetedEntity(h: Classes.Hierarchy, manager: EthologyTraitManager, registry: GoalParserRegistry, debug: bool,
                            db: EthologyDatabase, target: LivingEntity,
                            connected: bool, now: int) returns (request: Option<RequestScanPayload>)
    requires h.Valid() && db.Valid()
    modifies db`database, db`instanceCache, db`cacheTimestamps
    ensures db.Valid()
    ensures !connected ==> request.None? && unchanged(db)
    ensures connected ==>
              var outcome := TargetedScan(InstanceAnalysis(AnalysisEnvOf(h, manager, registry, debug), target),
                                          old(FreshSnapshot(db, target.uuid, now)));
              request == (if outcome.1 then Some(RequestScanPayload(target.etype.key, Some(target.uuid))) else None) &&
              (outcome.0.Some? ==>
                 db.database.Keys == old(db.database.Keys) + {target.etype} && fresh(db.database[target.etype]) &&
                 db.database[target.etype].Snapshot() == outcome.0.value &&
                 db.GetFreshInstance(target.uuid, now) == Some(db.database[target.etype])) &&
              (outcome.0.None? ==> unchanged(db))
    ensures connected ==>
              TargetedScanDone(AnalysisEnvOf(h, manager, registry, debug), target, old(FreshSnapshot(db, target.uuid, now)),
                               now, db, old(Maps(db)), request)
  {
    if !connected {
      return None;
    }
    var localInfo := AnalyzeInstance(h, manager, registry, debug, target);
    var cachedInfo := db.GetFreshInstance(target.uuid, now);
    var send := true;
    if localInfo.Some? {
      send := StoreLocal(db, target.etype, localInfo.value, cachedInfo, now);
    }
    request := if send then Some(RequestScanPayload(target.etype.key, Some(target.uuid))) else None;
  }

  /**
   * The storing half of `scanTargetedEntity` once the local analysis succeeded: with a fresh
   * cached info its capabilities are added to the local ones and nothing is sent; either way
   * the local info is registered, and a request is sent exactly when there was no cached info.
   */
  method StoreLocal(db: EthologyDatabase, t: EntityType, local: MobScopedInfo, cached: Option<MobScopedInfo>, now: int)
    returns (send: bool)
    requires db.Valid() && local.Valid() && local.uuid.Some?
    requires cached.Some? ==> cached.value != local
    modifies db`database, db`instanceCache, db`cacheTimestamps, local`capabilities
    ensures db.Valid() && local.Valid()
    ensures send <==> cached.None?
    ensures local.Snapshot() ==
              TargetedScan(Some(old(local.Snapshot())), if cached.Some? then Some(old(cached.value.Snapshot())) else None).0.value
    ensures db.database == old(db.database)[t := local]
    ensures RegisteredOnly(db, old(Maps(db)), t, local.uuid.value, local, now)
    ensures db.GetFreshInstance(local.uuid.value, now) == Some(local)
  {
    if cached.Some? {
      local.AddAllCapabilities(cached.value.capabilities);
      send := false;
    } else {
      send := true;
    }
    db.Register(t, local, now);
  }
}
