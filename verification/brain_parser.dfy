/**
 * The brain pass: the sensor types, then the memory types, then the activities of every
 * priority map are looked up in the catalog, and each trait found is offered to the info's
 * title-deduplicated trait list.
 */
module BrainParser {
  import opened Wrappers
  import opened Location
  import opened World
  import opened Traits
  import opened ScopedInfo
  import opened TraitManager
  import opened GoalParserRegistry

  // ---- specification --------------------------------------------------------------------------

  /** The catalog traits of `keys`, in order; a key without a trait contributes nothing. */
  function Hits(c: Catalog, keys: seq<Key>): (r: seq<Trait>)
    ensures |r| <= |keys|
  {
    if keys == [] then []
    else Hits(c, keys[..|keys| - 1]) + match c.Lookup(keys[|keys| - 1]) case Some(t) => [t] case None => []
  }

  lemma {:induction false} HitsAppend(c: Catalog, a: seq<Key>, b: seq<Key>)
    ensures Hits(c, a + b) == Hits(c, a) + Hits(c, b)
    decreases |b|
  {
    if b == [] {
      assert a + b == a;
    } else {
      assert (a + b)[..|a + b| - 1] == a + b[..|b| - 1];
      HitsAppend(c, a, b[..|b| - 1]);
    }
  }

  /** A trait is among the hits exactly when one of the keys looks it up. */
  lemma {:induction false} HitsExact(c: Catalog, keys: seq<Key>, t: Trait)
    ensures t in Hits(c, keys) <==> exists i | 0 <= i < |keys| :: c.Lookup(keys[i]) == Some(t)
    decreases |keys|
  {
    if keys != [] {
      var init := keys[..|keys| - 1];
      HitsExact(c, init, t);
      if t in Hits(c, init) {
        var i :| 0 <= i < |init| && c.Lookup(init[i]) == Some(t);
        assert keys[i] == init[i];
      }
      if i :| 0 <= i < |keys| && c.Lookup(keys[i]) == Some(t) {
        if i < |init| {
          assert init[i] == keys[i];
        }
      }
    }
  }

  function SensorKeys(sensors: seq<ResourceLocation>): (r: seq<Key>)
    ensures |r| == |sensors| && forall i | 0 <= i < |r| :: r[i] == SensorKey(sensors[i])
  {
    seq(|sensors|, i requires 0 <= i < |sensors| => SensorKey(sensors[i]))
  }

  function MemoryKeys(memories: seq<Memory>): (r: seq<Key>)
    ensures |r| == |memories| && forall i | 0 <= i < |r| :: r[i] == MemoryKey(memories[i].key)
  {
    seq(|memories|, i requires 0 <= i < |memories| => MemoryKey(memories[i].key))
  }

  function ActivityKeysIn(activities: seq<ResourceLocation>): (r: seq<Key>)
    ensures |r| == |activities| && forall i | 0 <= i < |r| :: r[i] == ActivityKey(activities[i])
  {
    seq(|activities|, i requires 0 <= i < |activities| => ActivityKey(activities[i]))
  }

  /** The keys of one more sensor are the keys so far, then that sensor's key. */
  lemma SensorKeysSnoc(sensors: seq<ResourceLocation>, i: nat)
    requires i < |sensors|
    ensures SensorKeys(sensors[..i + 1]) == SensorKeys(sensors[..i]) + [SensorKey(sensors[i])]
  {
    assert SensorKeys(sensors[..i + 1]) == SensorKeys(sensors[..i]) + [SensorKey(sensors[i])];
  }

  lemma MemoryKeysSnoc(memories: seq<Memory>, i: nat)
    requires i < |memories|
    ensures MemoryKeys(memories[..i + 1]) == MemoryKeys(memories[..i]) + [MemoryKey(memories[i].key)]
  {
    assert MemoryKeys(memories[..i + 1]) == MemoryKeys(memories[..i]) + [MemoryKey(memories[i].key)];
  }

  lemma ActivityKeysInSnoc(activities: seq<ResourceLocation>, i: nat)
    requires i < |activities|
    ensures ActivityKeysIn(activities[..i + 1]) == ActivityKeysIn(activities[..i]) + [ActivityKey(activities[i])]
  {
    assert ActivityKeysIn(activities[..i + 1]) == ActivityKeysIn(activities[..i]) + [ActivityKey(activities[i])];
  }

  /** The activity keys of every priority map, in order. */
  function ActivityKeys(byPriority: seq<seq<ResourceLocation>>): seq<Key> {
    if byPriority == [] then []
    else ActivityKeys(byPriority[..|byPriority| - 1]) + ActivityKeysIn(byPriority[|byPriority| - 1])
  }

  /** Every activity key consulted is one of an activity of some priority map. */
  lemma {:induction false} ActivityKeysSound(byPriority: seq<seq<ResourceLocation>>, k: Key)
    requires k in ActivityKeys(byPriority)
    ensures k.ActivityKey?
    ensures exists i, j | 0 <= i < |byPriority| && 0 <= j < |byPriority[i]| :: byPriority[i][j] == k.activity
    decreases |byPriority|
  {
    var init, last := byPriority[..|byPriority| - 1], byPriority[|byPriority| - 1];
    if k in ActivityKeys(init) {
      ActivityKeysSound(init, k);
      var i, j :| 0 <= i < |init| && 0 <= j < |init[i]| && init[i][j] == k.activity;
      assert byPriority[i] == init[i];
    } else {
      var j :| 0 <= j < |last| && ActivityKeysIn(last)[j] == k;
      assert byPriority[|byPriority| - 1][j] == k.activity;
    }
  }

  /** Every activity of every priority map is consulted. */
  lemma {:induction false} ActivityKeysComplete(byPriority: seq<seq<ResourceLocation>>, i: nat, j: nat)
    requires i < |byPriority| && j < |byPriority[i]|
    ensures ActivityKey(byPriority[i][j]) in ActivityKeys(byPriority)
    decreases |byPriority|
  {
    var init, last := byPriority[..|byPriority| - 1], byPriority[|byPriority| - 1];
    if i < |init| {
      assert init[i] == byPriority[i];
      ActivityKeysComplete(init, i, j);
    } else {
      assert ActivityKeysIn(last)[j] == ActivityKey(byPriority[i][j]);
    }
  }

  /** Every activity of every priority map is consulted, and nothing else. */
  lemma ActivityKeysExact(byPriority: seq<seq<ResourceLocation>>, k: Key)
    ensures k in ActivityKeys(byPriority) <==>
              k.ActivityKey? && exists i, j | 0 <= i < |byPriority| && 0 <= j < |byPriority[i]| :: byPriority[i][j] == k.activity
  {
    if k in ActivityKeys(byPriority) {
      ActivityKeysSound(byPriority, k);
    }
    if k.ActivityKey? && exists i, j | 0 <= i < |byPriority| && 0 <= j < |byPriority[i]| :: byPriority[i][j] == k.activity {
      var i, j :| 0 <= i < |byPriority| && 0 <= j < |byPriority[i]| && byPriority[i][j] == k.activity;
      ActivityKeysComplete(byPriority, i, j);
    }
  }

  /** A trait is hit by a sensor key exactly when some sensor of the brain looks it up. */
  lemma SensorHitsExact(c: Catalog, sensors: seq<ResourceLocation>, t: Trait)
    ensures t in Hits(c, SensorKeys(sensors)) <==>
              exists i | 0 <= i < |sensors| :: c.Lookup(SensorKey(sensors[i])) == Some(t)
  {
    var sk := SensorKeys(sensors);
    HitsExact(c, sk, t);
    if i :| 0 <= i < |sensors| && c.Lookup(SensorKey(sensors[i])) == Some(t) {
      assert c.Lookup(sk[i]) == Some(t);
    }
  }

  /** A trait is hit by a memory key exactly when some memory of the brain looks it up. */
  lemma MemoryHitsExact(c: Catalog, memories: seq<Memory>, t: Trait)
    ensures t in Hits(c, MemoryKeys(memories)) <==>
              exists i | 0 <= i < |memories| :: c.Lookup(MemoryKey(memories[i].key)) == Some(t)
  {
    var mk := MemoryKeys(memories);
    HitsExact(c, mk, t);
    if i :| 0 <= i < |memories| && c.Lookup(MemoryKey(memories[i].key)) == Some(t) {
      assert c.Lookup(mk[i]) == Some(t);
    }
  }

  /** A trait is hit by an activity key exactly when some activity of the brain looks it up. */
  lemma ActivityHitsExact(c: Catalog, byPriority: seq<seq<ResourceLocation>>, t: Trait)
    ensures t in Hits(c, ActivityKeys(byPriority)) <==>
              exists i, j | 0 <= i < |byPriority| && 0 <= j < |byPriority[i]| ::
                c.Lookup(ActivityKey(byPriority[i][j])) == Some(t)
  {
    var ak := ActivityKeys(byPriority);
    HitsExact(c, ak, t);
    if k :| 0 <= k < |ak| && c.Lookup(ak[k]) == Some(t) {
      ActivityKeysSound(byPriority, ak[k]);
      var i, j :| 0 <= i < |byPriority| && 0 <= j < |byPriority[i]| && byPriority[i][j] == ak[k].activity;
      assert ActivityKey(byPriority[i][j]) == ak[k];
    }
    if i, j :| 0 <= i < |byPriority| && 0 <= j < |byPriority[i]| && c.Lookup(ActivityKey(byPriority[i][j])) == Some(t) {
      ActivityKeysComplete(byPriority, i, j);
      var k :| 0 <= k < |ak| && ak[k] == ActivityKey(byPriority[i][j]);
      assert c.Lookup(ak[k]) == Some(t);
    }
  }

  /** The keys `parse` consults: sensors, then memories, then activities. */
  function BrainKeys(b: Brain): seq<Key> {
    SensorKeys(b.sensors) + MemoryKeys(b.memories) + ActivityKeys(b.behaviorsByPriority)
  }

  /** The traits the brain pass offers, in order. */
  function BrainTraits(c: Catalog, b: Brain): seq<Trait> {
    Hits(c, BrainKeys(b))
  }

  /**
   * Only catalog entries of the brain's own sensor types, memory types and activities
   * contribute, and each of them does.
   */
  lemma BrainTraitsExact(c: Catalog, b: Brain, t: Trait)
    ensures t in BrainTraits(c, b) <==>
              (exists i | 0 <= i < |b.sensors| :: c.Lookup(SensorKey(b.sensors[i])) == Some(t)) ||
              (exists i | 0 <= i < |b.memories| :: c.Lookup(MemoryKey(b.memories[i].key)) == Some(t)) ||
              (exists i, j | 0 <= i < |b.behaviorsByPriority| && 0 <= j < |b.behaviorsByPriority[i]| ::
                 c.Lookup(ActivityKey(b.behaviorsByPriority[i][j])) == Some(t))
  {
    var sk, mk, ak := SensorKeys(b.sensors), MemoryKeys(b.memories), ActivityKeys(b.behaviorsByPriority);
    HitsAppend(c, sk + mk, ak);
    HitsAppend(c, sk, mk);
    SensorHitsExact(c, b.sensors, t);
    MemoryHitsExact(c, b.memories, t);
    ActivityHitsExact(c, b.behaviorsByPriority, t);
  }

  /** The brain pass on the info value `v`: only the trait list changes. */
  function BrainSpec(c: Catalog, b: Brain, v: InfoValue): (r: InfoValue)
    ensures r == v.(traits := r.traits)
    ensures UniqueTitles(v.traits) ==> UniqueTitles(r.traits)
  {
    AddAllByTitleKeepsUnique(v.traits, BrainTraits(c, b));
    v.(traits := AddAllByTitle(v.traits, BrainTraits(c, b)))
  }

  // ---- the running code -------------------------------------------------------------------------

  /** The common loop body: look one key up and offer its trait, if any. */
  lemma OfferStep(c: Catalog, keys: seq<Key>, k: Key, s: seq<Trait>)
    ensures Hits(c, keys + [k]) == Hits(c, keys) + match c.Lookup(k) case Some(t) => [t] case None => []
    ensures AddAllByTitle(s, Hits(c, keys + [k])) ==
              match c.Lookup(k) case Some(t) => AddByTitle(AddAllByTitle(s, Hits(c, keys)), t) case None => AddAllByTitle(s, Hits(c, keys))
  {
    assert (keys + [k])[..|keys|] == keys;
    AddAllByTitleOneMore(s, Hits(c, keys), match c.Lookup(k) case Some(t) => [t] case None => []);
  }

  /** `parseSensors`. */
  method ParseSensors(manager: EthologyTraitManager, b: Brain, info: MobScopedInfo)
    modifies info`traits
    ensures info.traits == AddAllByTitle(old(info.traits), Hits(manager.Contents(), SensorKeys(b.sensors)))
  {
    ghost var t0 := info.traits;
    ghost var c := manager.Contents();
    var i := 0;
    while i < |b.sensors|
      invariant 0 <= i <= |b.sensors|
      invariant info.traits == AddAllByTitle(t0, Hits(c, SensorKeys(b.sensors[..i])))
    {
      SensorKeysSnoc(b.sensors, i);
      OfferStep(c, SensorKeys(b.sensors[..i]), SensorKey(b.sensors[i]), t0);
      var found := manager.GetSensorTrait(b.sensors[i]);
      if found.Some? {
        AddUniqueTrait(info, found.value);
      }
      i := i + 1;
    }
    assert b.sensors[..i] == b.sensors;
  }

  /** `parseMemories`. */
  method ParseMemories(manager: EthologyTraitManager, b: Brain, info: MobScopedInfo)
    modifies info`traits
    ensures info.traits == AddAllByTitle(old(info.traits), Hits(manager.Contents(), MemoryKeys(b.memories)))
  {
    ghost var t0 := info.traits;
    ghost var c := manager.Contents();
    var i := 0;
    while i < |b.memories|
      invariant 0 <= i <= |b.memories|
      invariant info.traits == AddAllByTitle(t0, Hits(c, MemoryKeys(b.memories[..i])))
    {
      MemoryKeysSnoc(b.memories, i);
      OfferStep(c, MemoryKeys(b.memories[..i]), MemoryKey(b.memories[i].key), t0);
      var found := manager.GetMemoryTrait(b.memories[i].key);
      if found.Some? {
        AddUniqueTrait(info, found.value);
      }
      i := i + 1;
    }
    assert b.memories[..i] == b.memories;
  }

  /** The inner loop of `parseActivities`: the activities of one priority map. */
  method ParseActivitySet(manager: EthologyTraitManager, activities: seq<ResourceLocation>, info: MobScopedInfo)
    modifies info`traits
    ensures info.traits == AddAllByTitle(old(info.traits), Hits(manager.Contents(), ActivityKeysIn(activities)))
  {
    ghost var t0 := info.traits;
    ghost var c := manager.Contents();
    var i := 0;
    while i < |activities|
      invariant 0 <= i <= |activities|
      invariant info.traits == AddAllByTitle(t0, Hits(c, ActivityKeysIn(activities[..i])))
    {
      ActivityKeysInSnoc(activities, i);
      OfferStep(c, ActivityKeysIn(activities[..i]), ActivityKey(activities[i]), t0);
      var found := manager.GetActivityTrait(activities[i]);
      if found.Some? {
        AddUniqueTrait(info, found.value);
      }
      i := i + 1;
    }
    assert activities[..i] == activities;
  }

  /** `parseActivities`: every priority map, in order. */
  method ParseActivities(manager: EthologyTraitManager, b: Brain, info: MobScopedInfo)
    modifies info`traits
    ensures info.traits == AddAllByTitle(old(info.traits), Hits(manager.Contents(), ActivityKeys(b.behaviorsByPriority)))
  {
    ghost var t0 := info.traits;
    ghost var c := manager.Contents();
    var ps := b.behaviorsByPriority;
    var i := 0;
    while i < |ps|
      invariant 0 <= i <= |ps|
      invariant info.traits == AddAllByTitle(t0, Hits(c, ActivityKeys(ps[..i])))
    {
      assert ps[..i + 1][..i] == ps[..i];
      HitsAppend(c, ActivityKeys(ps[..i]), ActivityKeysIn(ps[i]));
      AddAllByTitleAppend(t0, Hits(c, ActivityKeys(ps[..i])), Hits(c, ActivityKeysIn(ps[i])));
      ParseActivitySet(manager, ps[i], info);
      i := i + 1;
    }
    assert ps[..i] == ps;
  }

  /** `parse`: sensors, then memories, then activities. */
  method Parse(manager: EthologyTraitManager, e: LivingEntity, info: MobScopedInfo)
    modifies info`traits
    ensures info.traits == AddAllByTitle(old(info.traits), BrainTraits(manager.Contents(), e.brain))
    ensures UniqueTitles(old(info.traits)) ==> UniqueTitles(info.traits)
  {
    ghost var t0 := info.traits;
    ghost var c := manager.Contents();
    var b := e.brain;
    ParseSensors(manager, b, info);
    ParseMemories(manager, b, info);
    ParseActivities(manager, b, info);
    ghost var sk, mk, ak := SensorKeys(b.sensors), MemoryKeys(b.memories), ActivityKeys(b.behaviorsByPriority);
    HitsAppend(c, sk + mk, ak);
    HitsAppend(c, sk, mk);
    AddAllByTitleAppend(t0, Hits(c, sk), Hits(c, mk));
    AddAllByTitleAppend(t0, Hits(c, sk) + Hits(c, mk), Hits(c, ak));
    AddAllByTitleKeepsUnique(t0, BrainTraits(c, b));
  }
}
