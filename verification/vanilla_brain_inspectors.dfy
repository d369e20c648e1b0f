/**
 * The built-in brain inspectors: two sensor inspectors that describe their sensor
 * unconditionally, and four memory inspectors that describe a memory either by its current
 * value (a position or a UUID) or, when no value is present, as a capability.
 */
module VanillaBrainInspectors {
  import opened Wrappers
  import opened Location
  import opened World
  import opened Traits
  import Text

  datatype SensorInspector = HOGLIN_SENSOR | WARDEN_SENSOR

  datatype MemoryInspector = HOME_INSPECTOR | JOB_SITE_INSPECTOR | MEETING_POINT_INSPECTOR | ANGRY_AT_INSPECTOR

  function Ethology(path: string): ResourceLocation {
    ResourceLocation(MODID, path)
  }

  /** What a sensor inspector returns, whatever sensor it is given. */
  function InspectSensor(i: SensorInspector): (r: Option<Trait>)
    ensures r.Some? && r.value.category == SENSOR && r.value.args == []
  {
    match i
    case HOGLIN_SENSOR =>
      Some(Keyed(Ethology("sensor_hoglin"), Vanilla("warped_fungus"), "ethology.trait.sensor.hoglin_sensing", [], SENSOR))
    case WARDEN_SENSOR =>
      Some(Keyed(Ethology("sensor_warden"), Vanilla("sculk_sensor"), "ethology.trait.sensor.warden_sensing", [], SENSOR))
  }

  /** The registry key of the one memory type each memory inspector accepts. */
  function MemoryType(i: MemoryInspector): ResourceLocation {
    match i
    case HOME_INSPECTOR => Vanilla("home")
    case JOB_SITE_INSPECTOR => Vanilla("job_site")
    case MEETING_POINT_INSPECTOR => Vanilla("meeting_point")
    case ANGRY_AT_INSPECTOR => Vanilla("angry_at")
  }

  /** The id path, icon and key of the trait for a present value, then those for an absent one. */
  function MemoryParts(i: MemoryInspector): (string, Item, string, string, string) {
    match i
    case HOME_INSPECTOR =>
      ("memory_home", Vanilla("red_bed"), "ethology.trait.memory.home_set",
       "memory_home_capability", "ethology.trait.memory.can_have_home")
    case JOB_SITE_INSPECTOR =>
      ("memory_job", Vanilla("emerald"), "ethology.trait.memory.has_job",
       "memory_job_capability", "ethology.trait.memory.can_have_job")
    case MEETING_POINT_INSPECTOR =>
      ("memory_meeting", Vanilla("bell"), "ethology.trait.memory.meeting_point",
       "memory_meeting_capability", "ethology.trait.memory.can_meet")
    case ANGRY_AT_INSPECTOR =>
      ("memory_angry", Vanilla("tnt"), "ethology.trait.memory.angry_at",
       "memory_angry_capability", "ethology.trait.memory.can_get_angry")
  }

  /** `BlockPos.toShortString()`: "x, y, z". */
  function ShortString(x: int, y: int, z: int): string {
    Text.IntToString(x) + ", " + Text.IntToString(y) + ", " + Text.IntToString(z)
  }

  /**
   * The display argument of a present memory value: the position of a GlobalPos for the
   * position memories, the first eight characters of the UUID string for angry-at.  A value
   * of another kind fails the source's cast: `None`.
   */
  function ValueArg(i: MemoryInspector, v: Value): (r: Option<string>)
    ensures i.ANGRY_AT_INSPECTOR? && v.UuidV? ==> r == Some(UuidString(v.uuid)[..8]) && |r.value| == 8
    ensures !i.ANGRY_AT_INSPECTOR? && v.PosV? ==> r == Some(ShortString(v.x, v.y, v.z))
    ensures r.Some? <==> (if i.ANGRY_AT_INSPECTOR? then v.UuidV? else v.PosV?)
  {
    if i.ANGRY_AT_INSPECTOR? then
      (if v.UuidV? then Some(UuidString(v.uuid)[..8]) else None)
    else
      (if v.PosV? then Some(ShortString(v.x, v.y, v.z)) else None)
  }

  /**
   * What memory inspector `i` returns for the memory type `memoryType` and its value:
   * nothing for another memory type, the "set" trait with one argument for a present value,
   * the capability trait without arguments for an absent one.
   */
  function InspectMemory(i: MemoryInspector, memoryType: ResourceLocation, value: Option<Value>): (r: Option<Trait>)
    ensures memoryType != MemoryType(i) ==> r.None?
    ensures r.Some? ==> r.value.category == MEMORY
    ensures memoryType == MemoryType(i) && value.None? ==>
              r.Some? && r.value.args == [] && r.value.id == Ethology(MemoryParts(i).3)
    ensures memoryType == MemoryType(i) && value.Some? ==>
              (r.Some? <==> ValueArg(i, value.value).Some?) &&
              (r.Some? ==> r.value.args == [ValueArg(i, value.value).value] && r.value.id == Ethology(MemoryParts(i).0))
  {
    if memoryType != MemoryType(i) then None
    else
      var (setPath, icon, setKey, capabilityPath, capabilityKey) := MemoryParts(i);
      match value
      case Some(v) =>
        var arg :- ValueArg(i, v);
        Some(Keyed(Ethology(setPath), icon, setKey, [arg], MEMORY))
      case None =>
        Some(Keyed(Ethology(capabilityPath), icon, capabilityKey, [], MEMORY))
  }

  /** A present value and an absent one never give traits with the same id. */
  lemma PresentAndAbsentIdsDiffer(i: MemoryInspector, memoryType: ResourceLocation, v: Value)
    requires InspectMemory(i, memoryType, Some(v)).Some?
    ensures InspectMemory(i, memoryType, None).Some?
    ensures InspectMemory(i, memoryType, Some(v)).value.id != InspectMemory(i, memoryType, None).value.id
  {
    var (setPath, _, _, capabilityPath, _) := MemoryParts(i);
    assert |setPath| < |capabilityPath|;
  }
}
