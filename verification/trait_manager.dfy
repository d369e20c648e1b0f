/**
 * The trait catalog: a reload listener that turns the mod's JSON trait definitions into
 * four lookup tables (activities, sensors and memories by registry key, goals by class
 * name) and answers lookups, walking a goal class's superclass chain.
 */
module TraitManager {
  import opened Wrappers
  import opened Location
  import opened Classes
  import opened World
  import opened Traits
  import Text

  /**
   * A JSON element of a definition file.  An object is given by its primitive members,
   * each as the string `getAsString` returns; anything else is `JOther`.
   */
  datatype Json = JObject(props: map<string, string>) | JOther

  /** One loaded file: its resource location and its parsed content. */
  datatype Entry = Entry(location: ResourceLocation, json: Json)

  /** The key a trait is stored under: one table per trait type. */
  datatype Key =
    | ActivityKey(activity: ResourceLocation)
    | SensorKey(sensor: ResourceLocation)
    | MemoryKey(memory: ResourceLocation)
    | GoalKey(className: string)

  /** The four tables. */
  datatype Catalog = Catalog(activities: map<ResourceLocation, Trait>, sensors: map<ResourceLocation, Trait>,
                             memories: map<ResourceLocation, Trait>, goals: map<string, Trait>)
  {
    function Lookup(k: Key): Option<Trait> {
      match k
      case ActivityKey(l) => if l in activities then Some(activities[l]) else None
      case SensorKey(l) => if l in sensors then Some(sensors[l]) else None
      case MemoryKey(l) => if l in memories then Some(memories[l]) else None
      case GoalKey(n) => if n in goals then Some(goals[n]) else None
    }

    /** `map.put` into the table `k` belongs to. */
    function Put(k: Key, t: Trait): (r: Catalog)
      ensures r.Lookup(k) == Some(t)
      ensures forall k' | k' != k :: r.Lookup(k') == Lookup(k')
    {
      match k
      case ActivityKey(l) => this.(activities := activities[l := t])
      case SensorKey(l) => this.(sensors := sensors[l := t])
      case MemoryKey(l) => this.(memories := memories[l := t])
      case GoalKey(n) => this.(goals := goals[n := t])
    }
  }

  const EMPTY_CATALOG: Catalog := Catalog(map[], map[], map[], map[])

  /** The type switch on `typeStr.toLowerCase()`; any other string is an unknown type. */
  function TypeOfString(s: string): (r: Option<TraitType>)
    ensures r.Some? ==> r.value != STAT && Text.ToLower(s) == TypeName(r.value)
  {
    var lower := Text.ToLower(s);
    if lower == "activity" then Some(ACTIVITY)
    else if lower == "sensor" then Some(SENSOR)
    else if lower == "memory" then Some(MEMORY)
    else if lower == "goal" then Some(GOAL)
    else None
  }

  /** Every trait type but STAT is recognised from its own name, whatever the case of its letters. */
  lemma TypeOfStringInverse(s: string, t: TraitType)
    requires t != STAT
    ensures TypeOfString(s) == Some(t) <==> Text.ToLower(s) == TypeName(t)
  {
  }

  /** The key a trait is given when its definition names none. */
  function FallbackKey(location: ResourceLocation, t: TraitType): string {
    "ethology.trait." + TypeName(t) + "." + location.path
  }

  /**
   * `parseTrait`: the icon is the registered item named by the `icon` member (an unknown
   * item is air), replaced by a barrier when the stack is empty; the translation key is the
   * `translation_key` member or the fallback.  A missing or malformed icon throws: `None`.
   */
  function ParseTrait(location: ResourceLocation, props: map<string, string>, t: TraitType,
                      items: set<Item>): (r: Option<Trait>)
    ensures r.None? <==> "icon" !in props || ParseLocation(props["icon"]).None?
    ensures r.Some? ==> r.value.id == location && r.value.category == t && r.value.args == []
    ensures r.Some? ==> !r.value.icon.IsEmpty()
    ensures r.Some? ==> r.value.icon.item == BARRIER || r.value.icon.item in items
    ensures r.Some? ==>
              var named := ParseLocation(props["icon"]).value;
              r.value.icon == StackOf(if named in items && named != AIR then named else BARRIER)
    ensures r.Some? ==>
              r.value.translationKey == (if "translation_key" in props then props["translation_key"] else FallbackKey(location, t))
  {
    if "icon" !in props then None
    else
      var itemLoc :- ParseLocation(props["icon"]);
      var registered := if itemLoc in items then itemLoc else AIR;
      var icon := if StackOf(registered).IsEmpty() then BARRIER else registered;
      var key := if "translation_key" in props then props["translation_key"] else FallbackKey(location, t);
      Some(Keyed(location, icon, key, [], t))
  }

  /**
   * Where one entry lands, if it loads: its key and its trait.  The entry is skipped
   * (the source logs the exception) when it is not an object, lacks `type` or `target`,
   * has an unknown type, has a bad icon, or targets a malformed location.
   */
  function Placement(e: Entry, items: set<Item>): Option<(Key, Trait)> {
    if !e.json.JObject? then None
    else
      var props := e.json.props;
      if "type" !in props || "target" !in props then None
      else
        var t :- TypeOfString(props["type"]);
        var parsed :- ParseTrait(e.location, props, t, items);
        var target := props["target"];
        if t == GOAL then Some((GoalKey(target), parsed))
        else
          var loc :- ParseLocation(target);
          Some((if t == ACTIVITY then ActivityKey(loc) else if t == SENSOR then SensorKey(loc) else MemoryKey(loc), parsed))
  }

  function LoadEntry(c: Catalog, e: Entry, items: set<Item>): Catalog {
    match Placement(e, items)
    case None => c
    case Some((k, t)) => c.Put(k, t)
  }

  /** The catalog after loading `es` in order on top of `c`. */
  function LoadFrom(c: Catalog, es: seq<Entry>, items: set<Item>): Catalog {
    if es == [] then c else LoadEntry(LoadFrom(c, es[..|es| - 1], items), es[|es| - 1], items)
  }

  /** Loading two batches one after the other is loading their concatenation. */
  lemma {:induction false} LoadFromAppend(c: Catalog, a: seq<Entry>, b: seq<Entry>, items: set<Item>)
    ensures LoadFrom(c, a + b, items) == LoadFrom(LoadFrom(c, a, items), b, items)
    decreases |b|
  {
    if b == [] {
      assert a + b == a;
    } else {
      assert (a + b)[..|a + b| - 1] == a + b[..|b| - 1];
      LoadFromAppend(c, a, b[..|b| - 1], items);
    }
  }

  /** An entry that fails to load leaves the load of all the others as it would be without it. */
  lemma SkippedEntryIsIgnored(c: Catalog, before: seq<Entry>, bad: Entry, after: seq<Entry>, items: set<Item>)
    requires Placement(bad, items).None?
    ensures LoadFrom(c, before + [bad] + after, items) == LoadFrom(c, before + after, items)
  {
    LoadFromAppend(c, before + [bad], after, items);
    LoadFromAppend(c, before, after, items);
    assert (before + [bad])[..|before + [bad]| - 1] == before;
  }

  /** An unknown type string is one way an entry fails to load. */
  lemma UnknownTypeIsSkipped(e: Entry, items: set<Item>)
    requires e.json.JObject? && "type" in e.json.props
    requires TypeOfString(e.json.props["type"]).None?
    ensures Placement(e, items).None?
  {
  }

  /**
   * A key's entry is decided by the last entry placed under it: entries placed under other
   * keys do not disturb it.
   */
  lemma {:induction false} OtherKeysLeaveLookup(c: Catalog, es: seq<Entry>, k: Key, items: set<Item>)
    requires forall i | 0 <= i < |es| :: Placement(es[i], items).None? || Placement(es[i], items).value.0 != k
    ensures LoadFrom(c, es, items).Lookup(k) == c.Lookup(k)
    decreases |es|
  {
    if es != [] {
      var init := es[..|es| - 1];
      assert forall i | 0 <= i < |init| :: init[i] == es[i];
      OtherKeysLeaveLookup(c, init, k, items);
    }
  }

  /** The last entry placed under a key wins, whatever was loaded before it. */
  lemma LastEntryWins(c: Catalog, es: seq<Entry>, e: Entry, rest: seq<Entry>, items: set<Item>)
    requires Placement(e, items).Some?
    requires forall i | 0 <= i < |rest| ::
               Placement(rest[i], items).None? || Placement(rest[i], items).value.0 != Placement(e, items).value.0
    ensures LoadFrom(c, es + [e] + rest, items).Lookup(Placement(e, items).value.0) == Some(Placement(e, items).value.1)
  {
    LoadFromAppend(c, es + [e], rest, items);
    OtherKeysLeaveLookup(LoadFrom(c, es + [e], items), rest, Placement(e, items).value.0, items);
    assert (es + [e])[..|es + [e]| - 1] == es;
  }

  /** The catalog itself: the four tables `apply` fills. */
  class EthologyTraitManager {
    var activityTraits: map<ResourceLocation, Trait>
    var sensorTraits: map<ResourceLocation, Trait>
    var memoryTraits: map<ResourceLocation, Trait>
    var goalTraits: map<string, Trait>

    function Contents(): Catalog
      reads this
    {
      Catalog(activityTraits, sensorTraits, memoryTraits, goalTraits)
    }

    constructor()
      ensures Contents() == EMPTY_CATALOG
    {
      activityTraits, sensorTraits, memoryTraits, goalTraits := map[], map[], map[], map[];
    }

    /**
     * `apply`: clear the four tables, then load every entry in order, skipping the ones
     * that fail.  The result depends on the entries alone.
     */
    method Apply(entries: seq<Entry>, items: set<Item>)
      modifies this
      ensures Contents() == LoadFrom(EMPTY_CATALOG, entries, items)
    {
      activityTraits := map[];
      sensorTraits := map[];
      memoryTraits := map[];
      goalTraits := map[];
      var i := 0;
      while i < |entries|
        invariant 0 <= i <= |entries|
        invariant Contents() == LoadFrom(EMPTY_CATALOG, entries[..i], items)
      {
        assert entries[..i + 1][..i] == entries[..i];
        LoadOne(entries[i], items);
        i := i + 1;
      }
      assert entries[..i] == entries;
    }

    /** One pass of `apply`'s loop: the entry's trait lands under its key, or nothing changes. */
    method LoadOne(e: Entry, items: set<Item>)
      modifies this`activityTraits, this`sensorTraits, this`memoryTraits, this`goalTraits
      ensures Contents() == LoadEntry(old(Contents()), e, items)
    {
      if e.json.JObject? && "type" in e.json.props && "target" in e.json.props {
        var props := e.json.props;
        var t := TypeOfString(props["type"]);
        if t.Some? {
          var parsed := ParseTrait(e.location, props, t.value, items);
          if parsed.Some? {
            var target := props["target"];
            if t.value == GOAL {
              goalTraits := goalTraits[target := parsed.value];
            } else {
              var loc := ParseLocation(target);
              if loc.Some? {
                if t.value == ACTIVITY {
                  activityTraits := activityTraits[loc.value := parsed.value];
                } else if t.value == SENSOR {
                  sensorTraits := sensorTraits[loc.value := parsed.value];
                } else {
                  memoryTraits := memoryTraits[loc.value := parsed.value];
                }
              }
            }
          }
        }
      }
    }

    /** `getTrait(Activity)`, by the activity's registry key. */
    function GetActivityTrait(activity: ResourceLocation): (r: Option<Trait>)
      reads this
      ensures r == Contents().Lookup(ActivityKey(activity))
    {
      if activity in activityTraits then Some(activityTraits[activity]) else None
    }

    /** `getTrait(SensorType)`, by the sensor type's registry key. */
    function GetSensorTrait(sensor: ResourceLocation): (r: Option<Trait>)
      reads this
      ensures r == Contents().Lookup(SensorKey(sensor))
    {
      if sensor in sensorTraits then Some(sensorTraits[sensor]) else None
    }

    /** `getTrait(MemoryModuleType)`, by the memory type's registry key. */
    function GetMemoryTrait(memory: ResourceLocation): (r: Option<Trait>)
      reads this
      ensures r == Contents().Lookup(MemoryKey(memory))
    {
      if memory in memoryTraits then Some(memoryTraits[memory]) else None
    }

    /**
     * `getTrait(Class)`: walks from the goal class up its superclasses, stopping before
     * `Object`, and returns the trait of the first class whose name is registered.
     */
    method GetGoalTrait(h: Hierarchy, goalClass: ClassName) returns (r: Option<Trait>)
      requires h.Valid()
      ensures r == MostDerived(h, goalClass, goalTraits)
      ensures r.None? <==> forall i | 0 <= i < |Chain(h, goalClass)| :: Contents().Lookup(GoalKey(Chain(h, goalClass)[i])).None?
      ensures r.Some? ==> exists i | 0 <= i < |Chain(h, goalClass)| ::
                Contents().Lookup(GoalKey(Chain(h, goalClass)[i])) == r &&
                forall j | 0 <= j < i :: Contents().Lookup(GoalKey(Chain(h, goalClass)[j])).None?
    {
      r := WalkMostDerived(h, goalClass, goalTraits);
    }
  }
}
