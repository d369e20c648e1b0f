/**
 * The inspector registries: four independent exact-key tables from a goal class, a sensor
 * type, a memory type or an activity to the inspector registered for it.  The inspector
 * kinds are type parameters; the registries never call them.
 */
module Registries {
  import opened Wrappers
  import opened Location
  import opened Classes

  /** `map.get(key)`, with `None` for null. */
  function Lookup<K, V>(m: map<K, V>, key: K): (r: Option<V>)
    ensures r.Some? <==> key in m
    ensures r.Some? ==> r.value == m[key]
  {
    if key in m then Some(m[key]) else None
  }

  /** A `put` is seen by the next `get` of its key and by no other key. */
  lemma PutThenGet<K, V>(m: map<K, V>, key: K, v: V, other: K)
    ensures Lookup(m[key := v], key) == Some(v)
    ensures other != key ==> Lookup(m[key := v], other) == Lookup(m, other)
  {
  }

  class EthologyRegistries<G, S, M, A> {
    var goalInspectors: map<ClassName, G>
    var sensorInspectors: map<ResourceLocation, S>
    var memoryInspectors: map<ResourceLocation, M>
    var activityInspectors: map<ResourceLocation, A>

    constructor()
      ensures goalInspectors == map[] && sensorInspectors == map[]
      ensures memoryInspectors == map[] && activityInspectors == map[]
    {
      goalInspectors, sensorInspectors, memoryInspectors, activityInspectors := map[], map[], map[], map[];
    }

    /** `registerGoal`: overwrites any inspector registered for exactly this class. */
    method RegisterGoal(goalClass: ClassName, inspector: G)
      modifies this`goalInspectors
      ensures goalInspectors == old(goalInspectors)[goalClass := inspector]
      ensures GetGoalInspector(goalClass) == Some(inspector)
    {
      goalInspectors := goalInspectors[goalClass := inspector];
    }

    /** `getGoalInspector`: an exact match on the class, with no superclass walk. */
    function GetGoalInspector(goalClass: ClassName): (r: Option<G>)
      reads this
      ensures r.Some? <==> goalClass in goalInspectors
      ensures r.Some? ==> r.value == goalInspectors[goalClass]
    {
      Lookup(goalInspectors, goalClass)
    }

    method RegisterSensor(sensorType: ResourceLocation, inspector: S)
      modifies this`sensorInspectors
      ensures sensorInspectors == old(sensorInspectors)[sensorType := inspector]
      ensures GetSensorInspector(sensorType) == Some(inspector)
    {
      sensorInspectors := sensorInspectors[sensorType := inspector];
    }

    function GetSensorInspector(sensorType: ResourceLocation): (r: Option<S>)
      reads this
      ensures r.Some? <==> sensorType in sensorInspectors
      ensures r.Some? ==> r.value == sensorInspectors[sensorType]
    {
      Lookup(sensorInspectors, sensorType)
    }

    method RegisterMemory(memoryType: ResourceLocation, inspector: M)
      modifies this`memoryInspectors
      ensures memoryInspectors == old(memoryInspectors)[memoryType := inspector]
      ensures GetMemoryInspector(memoryType) == Some(inspector)
    {
      memoryInspectors := memoryInspectors[memoryType := inspector];
    }

    function GetMemoryInspector(memoryType: ResourceLocation): (r: Option<M>)
      reads this
      ensures r.Some? <==> memoryType in memoryInspectors
      ensures r.Some? ==> r.value == memoryInspectors[memoryType]
    {
      Lookup(memoryInspectors, memoryType)
    }

    method RegisterActivity(activity: ResourceLocation, inspector: A)
      modifies this`activityInspectors
      ensures activityInspectors == old(activityInspectors)[activity := inspector]
      ensures GetActivityInspector(activity) == Some(inspector)
    {
      activityInspectors := activityInspectors[activity := inspector];
    }

    function GetActivityInspector(activity: ResourceLocation): (r: Option<A>)
      reads this
      ensures r.Some? <==> activity in activityInspectors
      ensures r.Some? ==> r.value == activityInspectors[activity]
    {
      Lookup(activityInspectors, activity)
    }
  }
}
