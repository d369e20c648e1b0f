/**
 * The server side of a scan request: a per-player token-bucket rate limiter, the
 * per-type archetype cache, and the map of scans in progress.  Threads are not
 * modelled: the main-thread part of a request and the completion callback of an
 * analysis are two separate sequential steps.
 */
module PacketHandler {
  import opened Wrappers
  import opened Location
  import opened World
  import opened ScopedInfo
  import opened RequestScan

  /** Per-player limiters allow a burst of 10 and refill 2 tokens per second. */
  const LIMITER_CAPACITY: int := 10
  const LIMITER_REFILL_PER_SECOND: real := 2.0

  // ---- the token bucket -----------------------------------------------------------------------

  /** A limiter's mutable part: its tokens and the time of its last refill. */
  datatype Bucket = Bucket(tokens: real, last: int)

  /** `refill()`: elapsed time times the rate is added, capped at capacity; only a positive delta moves the clock. */
  function Refilled(capacity: int, ratePerMs: real, b: Bucket, now: int): (r: Bucket)
    ensures now <= b.last ==> r == b
    ensures now > b.last ==> r.last == now
    ensures 0.0 <= ratePerMs && b.tokens <= capacity as real ==> b.tokens <= r.tokens <= capacity as real
  {
    var delta := now - b.last;
    if delta > 0 then
      var added := b.tokens + delta as real * ratePerMs;
      Bucket(if added < capacity as real then added else capacity as real, now)
    else b
  }

  /** `tryAcquire()`: refill, then take one token if at least one is there. */
  function Acquired(capacity: int, ratePerMs: real, b: Bucket, now: int): (r: (bool, Bucket))
    ensures r.0 <==> Refilled(capacity, ratePerMs, b, now).tokens >= 1.0
    ensures r.1.last == Refilled(capacity, ratePerMs, b, now).last
    ensures r.1.tokens == Refilled(capacity, ratePerMs, b, now).tokens - (if r.0 then 1.0 else 0.0)
  {
    var f := Refilled(capacity, ratePerMs, b, now);
    if f.tokens >= 1.0 then (true, f.(tokens := f.tokens - 1.0)) else (false, f)
  }

  /** The limiter invariant: between zero and capacity tokens. */
  predicate BucketValid(capacity: int, ratePerMs: real, b: Bucket) {
    0.0 <= ratePerMs && 0.0 <= b.tokens <= capacity as real
  }

  lemma AcquireKeepsValid(capacity: int, ratePerMs: real, b: Bucket, now: int)
    requires BucketValid(capacity, ratePerMs, b)
    ensures BucketValid(capacity, ratePerMs, Acquired(capacity, ratePerMs, b, now).1)
  {
  }

  /** `n` acquisitions in a row at one instant: how many succeeded, and the final bucket. */
  function AcquireRepeatedly(capacity: int, ratePerMs: real, b: Bucket, now: int, n: nat): (nat, Bucket) {
    if n == 0 then (0, b)
    else
      var prev := AcquireRepeatedly(capacity, ratePerMs, b, now, n - 1);
      var step := Acquired(capacity, ratePerMs, prev.1, now);
      (prev.0 + (if step.0 then 1 else 0), step.1)
  }

  /** From a full bucket, `n <= capacity` acquisitions at the refill instant all succeed. */
  lemma {:induction false} BurstDrains(capacity: int, ratePerMs: real, t: int, n: nat)
    requires n <= capacity
    ensures AcquireRepeatedly(capacity, ratePerMs, Bucket(capacity as real, t), t, n) ==
            (n, Bucket((capacity - n) as real, t))
  {
    if n > 0 {
      BurstDrains(capacity, ratePerMs, t, n - 1);
    }
  }

  /**
   * A new limiter grants exactly `capacity` requests at the instant it was created, and
   * refuses the next one.
   */
  lemma CapacityThenRefusal(capacity: nat, ratePerMs: real, t: int)
    ensures AcquireRepeatedly(capacity, ratePerMs, Bucket(capacity as real, t), t, capacity + 1).0 == capacity
    ensures !Acquired(capacity, ratePerMs, AcquireRepeatedly(capacity, ratePerMs, Bucket(capacity as real, t), t, capacity).1, t).0
  {
    BurstDrains(capacity, ratePerMs, t, capacity);
  }

  /** An exhausted bucket grants one more request once the elapsed time times the rate reaches a whole token. */
  lemma RecoversAfterWait(capacity: int, ratePerMs: real, t: int, d: int)
    requires capacity >= 1 && 0.0 <= ratePerMs && d > 0
    ensures Acquired(capacity, ratePerMs, Bucket(0.0, t), t + d).0 <==> d as real * ratePerMs >= 1.0
  {
  }

  /** With the per-player settings, an exhausted limiter grants again after exactly 500 ms. */
  lemma PlayerLimiterWait(t: int, d: int)
    requires d > 0
    ensures Acquired(LIMITER_CAPACITY, LIMITER_REFILL_PER_SECOND / 1000.0, Bucket(0.0, t), t + d).0 <==> d >= 500
  {
    RecoversAfterWait(LIMITER_CAPACITY, LIMITER_REFILL_PER_SECOND / 1000.0, t, d);
  }

  class RateLimiter {
    const capacity: int
    const refillRatePerMs: real
    var tokens: real
    var lastRefillTimestamp: int

    function State(): Bucket
      reads this
    {
      Bucket(tokens, lastRefillTimestamp)
    }

    ghost predicate Valid()
      reads this
    {
      BucketValid(capacity, refillRatePerMs, State())
    }

    /** A new limiter starts full, its clock at creation time. */
    constructor(capacity: int, refillRatePerSecond: real, now: int)
      ensures this.capacity == capacity && refillRatePerMs == refillRatePerSecond / 1000.0
      ensures State() == Bucket(capacity as real, now)
      ensures Valid() <==> 0 <= capacity && 0.0 <= refillRatePerSecond
    {
      this.capacity := capacity;
      refillRatePerMs := refillRatePerSecond / 1000.0;
      tokens := capacity as real;
      lastRefillTimestamp := now;
    }

    method Refill(now: int)
      modifies this`tokens, this`lastRefillTimestamp
      ensures State() == Refilled(capacity, refillRatePerMs, old(State()), now)
    {
      var delta := now - lastRefillTimestamp;
      if delta > 0 {
        var tokensToAdd := delta as real * refillRatePerMs;
        tokens := if capacity as real < tokens + tokensToAdd then capacity as real else tokens + tokensToAdd;
        lastRefillTimestamp := now;
      }
    }

    method TryAcquire(now: int) returns (ok: bool)
      requires Valid()
      modifies this`tokens, this`lastRefillTimestamp
      ensures Valid()
      ensures (ok, State()) == Acquired(capacity, refillRatePerMs, old(State()), now)
    {
      AcquireKeepsValid(capacity, refillRatePerMs, State(), now);
      Refill(now);
      if tokens >= 1.0 {
        tokens := tokens - 1.0;
        return true;
      }
      return false;
    }
  }

  // ---- the archetype scan bookkeeping ------------------------------------------------------------

  /** A `PENDING_SCANS` entry: a future already completed with a result, or an analysis under way. */
  datatype Pending = Completed(result: Option<InfoValue>) | Analyzing(entity: LivingEntity)

  /**
   * `computeIfAbsent` as written: an existing entry is joined; otherwise the lambda's future
   * is stored, which on a failed or non-living creation is an already-completed null
   * future that no completion step will ever remove.
   */
  function BeginScanAsWritten(pending: map<EntityType, Pending>, t: EntityType, created: Created): (r: map<EntityType, Pending>)
    ensures t in r
  {
    if t in pending then pending
    else if created.Living? then pending[t := Analyzing(created.entity)]
    else pending[t := Completed(None)]
  }

  /** A failed creation stays pending forever: later requests never start an analysis, whatever creation would give. */
  lemma AsWrittenNeverRetries(t: EntityType, failure: Created, later: Created)
    requires !failure.Living?
    ensures var p := BeginScanAsWritten(map[], t, failure);
            p[t] == Completed(None) && BeginScanAsWritten(p, t, later) == p
  {
  }

  /**
   * Starting a scan as evidently intended: an existing entry is joined; a living entity
   * starts an analysis; a failed creation records nothing, so a later request retries.
   */
  function BeginScan(pending: map<EntityType, Pending>, t: EntityType, created: Created): (r: map<EntityType, Pending>)
    ensures t in pending ==> r == pending
    ensures t !in pending && created.Living? ==> r == pending[t := Analyzing(created.entity)]
    ensures t !in pending && !created.Living? ==> r == pending
  {
    if t in pending then pending
    else if created.Living? then pending[t := Analyzing(created.entity)]
    else pending
  }

  /** After a failed creation, the next request with a living entity starts an analysis. */
  lemma FailedCreationIsRetried(pending: map<EntityType, Pending>, t: EntityType, failure: Created, e: LivingEntity)
    requires t !in pending && !failure.Living?
    ensures BeginScan(BeginScan(pending, t, failure), t, Living(e))[t] == Analyzing(e)
  {
  }

  /** Every entry `BeginScan` leaves is an analysis under way. */
  predicate OnlyAnalyzing(pending: map<EntityType, Pending>) {
    forall t | t in pending :: pending[t].Analyzing?
  }

  lemma BeginScanOnlyAnalyzing(pending: map<EntityType, Pending>, t: EntityType, created: Created)
    requires OnlyAnalyzing(pending)
    ensures OnlyAnalyzing(BeginScan(pending, t, created))
  {
  }

  /** What the completion step makes of an analysis result: the instance UUID is cleared. */
  function ArchetypeResult(analysis: Option<InfoValue>): (r: Option<InfoValue>)
    ensures r.Some? <==> analysis.Some?
    ensures r.Some? ==> r.value.uuid.None? && r.value == analysis.value.(uuid := None)
  {
    if analysis.Some? then Some(analysis.value.(uuid := None)) else None
  }

  /** The outcome of one request on the main thread. */
  datatype Outcome =
    | RateLimited                           // refused by the limiter: nothing else happens
    | InstanceResult(info: Option<InfoValue>) // a living instance was analysed; `None` is a failed analysis, no reply
    | Dropped                               // failed the type validation
    | CacheHit(cached: InfoValue)           // replied from the archetype cache
    | Joined(scan: Pending)                 // waits on this pending scan
    | NotStarted                            // creation failed: no reply

  /** The type-validation guard, checked before any cache access. */
  predicate Rejects(payload: RequestScanPayload, t: EntityType) {
    (t.key == PIG_KEY && payload.typeId != PIG_KEY) || t.noAnalysis || !t.canSummon
  }

  class ScanHandler {
    var archetypeCache: map<EntityType, InfoValue>
    var pendingScans: map<EntityType, Pending>
    var playerLimiters: map<Uuid, RateLimiter>

    /** `EntityAnalyzer.analyze(living)` on the worker pool; `None` is an analysis that threw. */
    const analyze: LivingEntity -> Option<InfoValue>

    ghost predicate Valid()
      reads this, playerLimiters.Values
    {
      (forall p | p in playerLimiters ::
         playerLimiters[p].Valid() && playerLimiters[p].capacity == LIMITER_CAPACITY &&
         playerLimiters[p].refillRatePerMs == LIMITER_REFILL_PER_SECOND / 1000.0) &&
      (forall p, q | p in playerLimiters && q in playerLimiters && p != q :: playerLimiters[p] != playerLimiters[q]) &&
      OnlyAnalyzing(pendingScans) &&
      (forall t | t in archetypeCache :: archetypeCache[t].uuid.None?)
    }

    /** The bucket `tryAcquire` starts from: the player's limiter, or a full new one created at `now`. */
    function BucketFor(player: Uuid, now: int): Bucket
      reads this, playerLimiters.Values
    {
      if player in playerLimiters then playerLimiters[player].State() else Bucket(LIMITER_CAPACITY as real, now)
    }

    constructor(analyze: LivingEntity -> Option<InfoValue>)
      ensures Valid() && archetypeCache == map[] && pendingScans == map[] && playerLimiters == map[]
      ensures this.analyze == analyze
    {
      archetypeCache := map[];
      pendingScans := map[];
      playerLimiters := map[];
      this.analyze := analyze;
    }

    /** `PLAYER_LIMITERS.computeIfAbsent(player, ...)`. */
    method LimiterFor(player: Uuid, now: int) returns (l: RateLimiter)
      requires Valid()
      modifies this`playerLimiters
      ensures Valid() && player in playerLimiters && l == playerLimiters[player]
      ensures player in old(playerLimiters) ==> playerLimiters == old(playerLimiters)
      ensures player !in old(playerLimiters) ==> fresh(l) && l.State() == Bucket(LIMITER_CAPACITY as real, now) &&
                                                  playerLimiters == old(playerLimiters)[player := l]
    {
      if player in playerLimiters {
        l := playerLimiters[player];
      } else {
        l := new RateLimiter(LIMITER_CAPACITY, LIMITER_REFILL_PER_SECOND, now);
        playerLimiters := playerLimiters[player := l];
      }
    }

    /**
     * `handleScanRequest`, main-thread part.  `living` is the server level's lookup of
     * living entities by UUID; `created` is what creating the requested type would give.
     */
    method HandleScanRequest(player: Uuid, payload: RequestScanPayload, now: int,
                             registry: EntityRegistry, living: map<Uuid, LivingEntity>, created: Created)
      returns (outcome: Outcome)
      requires Valid()
      modifies this, playerLimiters.Values
      ensures Valid()
      ensures player in playerLimiters
      ensures var acquired := Acquired(LIMITER_CAPACITY, LIMITER_REFILL_PER_SECOND / 1000.0, old(BucketFor(player, now)), now);
              (outcome.RateLimited? <==> !acquired.0) && playerLimiters[player].State() == acquired.1
      ensures forall p | p in old(playerLimiters) && p != player ::
                p in playerLimiters && playerLimiters[p] == old(playerLimiters[p]) &&
                playerLimiters[p].State() == old(playerLimiters[p].State())
      ensures outcome.RateLimited? ==> archetypeCache == old(archetypeCache) && pendingScans == old(pendingScans)
      ensures !outcome.RateLimited? && payload.instanceId.Some? && payload.instanceId.value in living ==>
                outcome == InstanceResult(analyze(living[payload.instanceId.value]))
      ensures outcome.InstanceResult? ==> payload.instanceId.Some? && payload.instanceId.value in living
      ensures outcome.InstanceResult? || outcome.Dropped? || outcome.CacheHit? || outcome.RateLimited? ==>
                archetypeCache == old(archetypeCache) && pendingScans == old(pendingScans)
      ensures var t := registry.Get(payload.typeId);
              !outcome.RateLimited? && !outcome.InstanceResult? ==>
                (outcome.Dropped? <==> Rejects(payload, t)) &&
                (!Rejects(payload, t) && t in old(archetypeCache) ==> outcome == CacheHit(old(archetypeCache)[t])) &&
                (!Rejects(payload, t) && t !in old(archetypeCache) ==>
                   archetypeCache == old(archetypeCache) &&
                   pendingScans == BeginScan(old(pendingScans), t, created) &&
                   outcome == (if t in pendingScans then Joined(pendingScans[t]) else NotStarted))
    {
      var ok := Acquire(player, now);
      if !ok {
        return RateLimited;
      }
      outcome := Dispatch(payload, registry, living, created);
    }

    /**
     * The limiter step of `handleScanRequest`: the player's limiter, created on first use,
     * takes one token if it can; no other player's limiter changes.
     */
    method Acquire(player: Uuid, now: int) returns (ok: bool)
      requires Valid()
      modifies this`playerLimiters, playerLimiters.Values
      ensures Valid() && player in playerLimiters
      ensures (ok, playerLimiters[player].State()) ==
              Acquired(LIMITER_CAPACITY, LIMITER_REFILL_PER_SECOND / 1000.0, old(BucketFor(player, now)), now)
      ensures forall p | p in old(playerLimiters) && p != player ::
                p in playerLimiters && playerLimiters[p] == old(playerLimiters[p]) &&
                playerLimiters[p].State() == old(playerLimiters[p].State())
    {
      var limiter := LimiterFor(player, now);
      ok := limiter.TryAcquire(now);
    }

    /**
     * The part of `handleScanRequest` after the rate limiter let the request through: a live
     * instance is analysed directly; otherwise the requested type is validated, looked up in
     * the archetype cache, and on a miss its scan is begun or joined.
     */
    method Dispatch(payload: RequestScanPayload, registry: EntityRegistry, living: map<Uuid, LivingEntity>,
                    created: Created)
      returns (outcome: Outcome)
      requires Valid()
      modifies this`pendingScans
      ensures Valid()
      ensures !outcome.RateLimited?
      ensures payload.instanceId.Some? && payload.instanceId.value in living ==>
                outcome == InstanceResult(analyze(living[payload.instanceId.value]))
      ensures outcome.InstanceResult? ==> payload.instanceId.Some? && payload.instanceId.value in living
      ensures outcome.InstanceResult? || outcome.Dropped? || outcome.CacheHit? ==> pendingScans == old(pendingScans)
      ensures var t := registry.Get(payload.typeId);
              !outcome.InstanceResult? ==>
                (outcome.Dropped? <==> Rejects(payload, t)) &&
                (!Rejects(payload, t) && t in archetypeCache ==> outcome == CacheHit(archetypeCache[t])) &&
                (!Rejects(payload, t) && t !in archetypeCache ==>
                   pendingScans == BeginScan(old(pendingScans), t, created) &&
                   outcome == (if t in pendingScans then Joined(pendingScans[t]) else NotStarted))
    {
      if payload.instanceId.Some? && payload.instanceId.value in living {
        return InstanceResult(analyze(living[payload.instanceId.value]));
      }
      var t := registry.Get(payload.typeId);
      if Rejects(payload, t) {
        return Dropped;
      }
      if t in archetypeCache {
        return CacheHit(archetypeCache[t]);
      }
      pendingScans := BeginScan(pendingScans, t, created);
      BeginScanOnlyAnalyzing(old(pendingScans), t, created);
      outcome := if t in pendingScans then Joined(pendingScans[t]) else NotStarted;
    }

    /**
     * The completion callback of the analysis for `t`: the result, with its UUID cleared,
     * is cached only when the analysis produced one; the pending entry is always removed.
     * The returned value is what every joined requester is sent.
     */
    method CompleteScan(t: EntityType) returns (result: Option<InfoValue>)
      requires Valid() && t in pendingScans
      modifies this`archetypeCache, this`pendingScans
      ensures Valid()
      ensures result == ArchetypeResult(analyze(old(pendingScans)[t].entity))
      ensures pendingScans == old(pendingScans) - {t}
      ensures result.Some? ==> archetypeCache == old(archetypeCache)[t := result.value]
      ensures result.None? ==> archetypeCache == old(archetypeCache)
    {
      result := ArchetypeResult(analyze(pendingScans[t].entity));
      if result.Some? {
        archetypeCache := archetypeCache[t := result.value];
      }
      pendingScans := pendingScans - {t};
    }

    /** `clearCache()`: the archetype cache, the pending scans and the limiters are all dropped. */
    method ClearCache()
      modifies this`archetypeCache, this`pendingScans, this`playerLimiters
      ensures Valid()
      ensures archetypeCache == map[] && pendingScans == map[] && playerLimiters == map[]
    {
      archetypeCache := map[];
      pendingScans := map[];
      playerLimiters := map[];
    }
  }
}
