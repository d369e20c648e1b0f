/**
 * The data generator: for every trait the mod documents it writes one definition object
 * (type, target, translation key, icon) under a file name derived from the target, and
 * three language entries (title, static and active description) under a translation key
 * derived the same way.  A run starts from empty tables, so every run writes the same files.
 */
module TraitProvider {
  import opened Wrappers
  import opened Location
  import opened World
  import opened Traits
  import opened TraitManager
  import Text

  /** One `activity`/`sensor`/`memory`/`goal` call: what `createJson` is given. */
  datatype TraitDef = TraitDef(category: TraitType, target: string, icon: Item,
                               title: string, staticDesc: string, activeDesc: Option<string>)

  /** `activity(...)`: the target is the printed registry key of the activity. */
  function ActivityDef(key: ResourceLocation, icon: Item, title: string, staticDesc: string, activeDesc: string): TraitDef {
    TraitDef(ACTIVITY, LocToString(key), icon, title, staticDesc, Some(activeDesc))
  }

  /** `sensor(...)`: no active description. */
  function SensorDef(key: ResourceLocation, icon: Item, title: string, staticDesc: string): TraitDef {
    TraitDef(SENSOR, LocToString(key), icon, title, staticDesc, None)
  }

  /** `memory(...)`: no active description. */
  function MemoryDef(key: ResourceLocation, icon: Item, title: string, staticDesc: string): TraitDef {
    TraitDef(MEMORY, LocToString(key), icon, title, staticDesc, None)
  }

  /** `goal(...)`: the target is the binary name of the goal class. */
  function GoalDef(goalClass: string, icon: Item, title: string, staticDesc: string, activeDesc: string): TraitDef {
    TraitDef(GOAL, goalClass, icon, title, staticDesc, Some(activeDesc))
  }

  // ---- names derived from a target -----------------------------------------------------

  /** ':' becomes '.', then every '.' becomes '_', then the result is lower-cased. */
  function KeyBase(target: string): (r: string)
    ensures |r| == |target|
    ensures ':' !in r && '.' !in r
    ensures forall i :: 0 <= i < |target| ==>
              r[i] == (if target[i] == ':' || target[i] == '.' then '_' else Text.LowerChar(target[i]))
  {
    Text.ToLower(Text.ReplaceChar(Text.ReplaceChar(target, ':', '.'), '.', '_'))
  }

  /** "ethology.trait.<type>.<key base>". */
  function TranslationKey(t: TraitType, target: string): (r: string)
    ensures |r| == |"ethology.trait."| + |TypeName(t)| + 1 + |target|
    ensures "ethology.trait." + TypeName(t) + "." <= r
  {
    "ethology.trait." + TypeName(t) + "." + KeyBase(target)
  }

  /** The file name: ':' and '.' each become '_' directly, then the result is lower-cased. */
  function FileName(t: TraitType, target: string): string {
    TypeName(t) + "_" + Text.ToLower(Text.ReplaceChar(Text.ReplaceChar(target, ':', '_'), '.', '_'))
  }

  /**
   * The two replacement orders agree: a file name is the type, '_' and the key base, so the
   * file and the translation key of a trait are named after the same string.
   */
  lemma FileNameIsKeyBase(t: TraitType, target: string)
    ensures FileName(t, target) == TypeName(t) + "_" + KeyBase(target)
  {
    var direct := Text.ToLower(Text.ReplaceChar(Text.ReplaceChar(target, ':', '_'), '.', '_'));
    var viaDot := KeyBase(target);
    assert |direct| == |viaDot|;
    forall i | 0 <= i < |target| ensures direct[i] == viaDot[i] {
      assert Text.ReplaceChar(target, ':', '_')[i] == (if target[i] == ':' then '_' else target[i]);
    }
    assert direct == viaDot;
  }

  /** The resource location the definition object is saved under. */
  function FileLocation(d: TraitDef): ResourceLocation {
    ResourceLocation(MODID, FileName(d.category, d.target))
  }

  /** The path of a saved definition, relative to the data-pack output folder. */
  function TraitPath(loc: ResourceLocation): string {
    MODID + "/" + MODID + "/ethology_traits/" + loc.path + ".json"
  }

  /** Two saved definitions with different paths never share an output file. */
  lemma TraitPathInjective(a: ResourceLocation, b: ResourceLocation)
    ensures TraitPath(a) == TraitPath(b) <==> a.path == b.path
  {
    var prefix := MODID + "/" + MODID + "/ethology_traits/";
    if TraitPath(a) == TraitPath(b) {
      assert |a.path| == |b.path|;
      assert a.path == TraitPath(a)[|prefix|..|prefix| + |a.path|];
      assert b.path == TraitPath(b)[|prefix|..|prefix| + |b.path|];
    }
  }

  // ---- what one call writes --------------------------------------------------------------

  /** The definition object: four string members. */
  function TraitJson(d: TraitDef): Json {
    JObject(map["type" := TypeName(d.category), "target" := d.target,
                "translation_key" := TranslationKey(d.category, d.target),
                "icon" := LocToString(d.icon)])
  }

  /** The three entries under `key`: ".title", ".static" and ".active". */
  function LangTriple(key: string, title: string, staticDesc: string, activeDesc: string): map<string, string> {
    map[key + ".title" := title, key + ".static" := staticDesc, key + ".active" := activeDesc]
  }

  /** The language entries of one definition; a missing active description repeats the static one. */
  function LangOf(d: TraitDef): map<string, string> {
    LangTriple(TranslationKey(d.category, d.target), d.title, d.staticDesc,
               if d.activeDesc.Some? then d.activeDesc.value else d.staticDesc)
  }

  /** The three keys are distinct, so each description is kept under its own key. */
  lemma LangTripleEntries(key: string, title: string, staticDesc: string, activeDesc: string)
    ensures LangTriple(key, title, staticDesc, activeDesc).Keys == {key + ".title", key + ".static", key + ".active"}
    ensures |LangTriple(key, title, staticDesc, activeDesc).Keys| == 3
    ensures LangTriple(key, title, staticDesc, activeDesc)[key + ".title"] == title
    ensures LangTriple(key, title, staticDesc, activeDesc)[key + ".static"] == staticDesc
    ensures LangTriple(key, title, staticDesc, activeDesc)[key + ".active"] == activeDesc
  {
    var t, s, a := key + ".title", key + ".static", key + ".active";
    assert t[|key| + 1] == 't' && s[|key| + 1] == 's' && a[|key| + 1] == 'a';
    assert t != s && t != a && s != a;
  }

  /** The three puts of one call, one after the other, add exactly the triple. */
  lemma PutsAreUnion(m: map<string, string>, key: string, title: string, staticDesc: string, activeDesc: string)
    ensures m[key + ".title" := title][key + ".static" := staticDesc][key + ".active" := activeDesc]
            == m + LangTriple(key, title, staticDesc, activeDesc)
  {
    LangTripleEntries(key, title, staticDesc, activeDesc);
  }

  /** Every definition gets all three entries; the active one falls back to the static description. */
  lemma LangOfEntries(d: TraitDef)
    ensures |LangOf(d).Keys| == 3
    ensures LangOf(d)[TranslationKey(d.category, d.target) + ".title"] == d.title
    ensures LangOf(d)[TranslationKey(d.category, d.target) + ".static"] == d.staticDesc
    ensures d.activeDesc.Some? ==> LangOf(d)[TranslationKey(d.category, d.target) + ".active"] == d.activeDesc.value
    ensures d.activeDesc.None? ==> LangOf(d)[TranslationKey(d.category, d.target) + ".active"] == d.staticDesc
  {
    LangTripleEntries(TranslationKey(d.category, d.target), d.title, d.staticDesc,
                      if d.activeDesc.Some? then d.activeDesc.value else d.staticDesc);
  }

  // ---- the generated definitions as the loader reads them -----------------------------------

  /** The catalog key a definition is meant for; `None` when its target is not a location. */
  function IntendedKey(d: TraitDef): Option<Key> {
    if d.category == GOAL then Some(GoalKey(d.target))
    else
      var loc :- ParseLocation(d.target);
      Some(if d.category == ACTIVITY then ActivityKey(loc)
           else if d.category == SENSOR then SensorKey(loc)
           else MemoryKey(loc))
  }

  predicate WellFormedLocation(l: ResourceLocation) {
    l.namespace != "" && ValidNamespace(l.namespace) && ValidPath(l.path)
  }

  /** The trait the loader builds from a generated file whose icon is a well-formed location. */
  function LoadedTrait(d: TraitDef, items: set<Item>): Trait {
    var registered := if d.icon in items then d.icon else AIR;
    Keyed(FileLocation(d), if registered == AIR then BARRIER else registered,
          TranslationKey(d.category, d.target), [], d.category)
  }

  /** The type member names the definition's own type. */
  lemma TypeMemberRead(t: TraitType)
    requires t != STAT
    ensures TypeOfString(TypeName(t)) == Some(t)
  {
    Text.ToLowerOfLower(TypeName(t));
    TypeOfStringInverse(TypeName(t), t);
  }

  /** The generated members parse into `LoadedTrait`: the icon reads back and the key is the written one. */
  lemma GeneratedTraitParses(d: TraitDef, items: set<Item>)
    requires WellFormedLocation(d.icon)
    ensures ParseTrait(FileLocation(d), TraitJson(d).props, d.category, items) == Some(LoadedTrait(d, items))
  {
    TraitJsonMembers(d);
    ParsePrinted(d.icon);
  }

  /** The four members of a generated object, as the loader reads them. */
  lemma TraitJsonMembers(d: TraitDef)
    ensures TraitJson(d).JObject?
    ensures "type" in TraitJson(d).props && TraitJson(d).props["type"] == TypeName(d.category)
    ensures "target" in TraitJson(d).props && TraitJson(d).props["target"] == d.target
    ensures "translation_key" in TraitJson(d).props &&
            TraitJson(d).props["translation_key"] == TranslationKey(d.category, d.target)
    ensures "icon" in TraitJson(d).props && TraitJson(d).props["icon"] == LocToString(d.icon)
  {
  }

  /** Where the loader files a generated object: under the key its target names, as `LoadedTrait`. */
  lemma GeneratedPlacement(d: TraitDef, items: set<Item>)
    requires d.category != STAT && WellFormedLocation(d.icon) && IntendedKey(d).Some?
    ensures Placement(Entry(FileLocation(d), TraitJson(d)), items) == Some((IntendedKey(d).value, LoadedTrait(d, items)))
  {
    var props := TraitJson(d).props;
    TraitJsonMembers(d);
    TypeMemberRead(d.category);
    GeneratedTraitParses(d, items);
    assert TypeOfString(props["type"]) == Some(d.category);
    assert ParseTrait(FileLocation(d), props, d.category, items) == Some(LoadedTrait(d, items));
    if d.category != GOAL {
      var loc := ParseLocation(d.target).value;
      assert IntendedKey(d).value == if d.category == ACTIVITY then ActivityKey(loc)
                                     else if d.category == SENSOR then SensorKey(loc) else MemoryKey(loc);
    }
  }

  /**
   * A generated file loads: the catalog files the trait under the key its target names,
   * with the translation key the language entries were written under, so the loaded trait's
   * title and descriptions are found.  The icon is the generated one when it is registered.
   */
  lemma GeneratedTraitLoads(d: TraitDef, items: set<Item>)
    requires d.category != STAT && WellFormedLocation(d.icon) && IntendedKey(d).Some?
    ensures Placement(Entry(FileLocation(d), TraitJson(d)), items) == Some((IntendedKey(d).value, LoadedTrait(d, items)))
    ensures LoadedTrait(d, items).id == FileLocation(d) && LoadedTrait(d, items).category == d.category
    ensures LoadedTrait(d, items).translationKey == TranslationKey(d.category, d.target)
    ensures TranslationKey(d.category, d.target) + ".title" in LangOf(d)
    ensures d.icon in items && d.icon != AIR ==> LoadedTrait(d, items).icon == StackOf(d.icon)
  {
    GeneratedPlacement(d, items);
    LangOfEntries(d);
  }

  /**
   * For the activity, sensor and memory helpers the target is a printed registry key, and a
   * well-formed key is read back as itself: the trait is filed under that activity, sensor
   * or memory.
   */
  lemma RegistryTargetRoundTrip(d: TraitDef, key: ResourceLocation)
    requires d.category in {ACTIVITY, SENSOR, MEMORY} && d.target == LocToString(key) && WellFormedLocation(key)
    ensures IntendedKey(d) == Some(if d.category == ACTIVITY then ActivityKey(key)
                                   else if d.category == SENSOR then SensorKey(key)
                                   else MemoryKey(key))
  {
    ParsePrinted(key);
  }

  // ---- what a sequence of calls writes ---------------------------------------------------

  /** The saved definitions after `createJson` for each of `ds` in order; a later file name overwrites. */
  function FilesAfter(files: map<ResourceLocation, Json>, ds: seq<TraitDef>): map<ResourceLocation, Json> {
    if ds == [] then files
    else FilesAfter(files, ds[..|ds| - 1])[FileLocation(ds[|ds| - 1]) := TraitJson(ds[|ds| - 1])]
  }

  /** The language entries after `createJson` for each of `ds` in order. */
  function LangAfter(lang: map<string, string>, ds: seq<TraitDef>): map<string, string> {
    if ds == [] then lang else LangAfter(lang, ds[..|ds| - 1]) + LangOf(ds[|ds| - 1])
  }

  /**
   * A location is saved exactly when it was there before or some definition is filed
   * under it, and then it holds the object of the last such definition.
   */
  lemma {:induction false} FilesAfterLookup(files: map<ResourceLocation, Json>, ds: seq<TraitDef>, i: nat)
    requires i < |ds|
    requires forall j | i < j < |ds| :: FileLocation(ds[j]) != FileLocation(ds[i])
    ensures FileLocation(ds[i]) in FilesAfter(files, ds)
    ensures FilesAfter(files, ds)[FileLocation(ds[i])] == TraitJson(ds[i])
  {
    if i < |ds| - 1 {
      var init := ds[..|ds| - 1];
      forall j | i < j < |init| ensures FileLocation(init[j]) != FileLocation(init[i]) {
        assert init[j] == ds[j];
      }
      FilesAfterLookup(files, init, i);
      assert init[i] == ds[i];
    }
  }

  /** Nothing but the earlier files and the definitions' own locations is saved. */
  lemma {:induction false} FilesAfterOnly(files: map<ResourceLocation, Json>, ds: seq<TraitDef>, loc: ResourceLocation)
    requires loc !in files
    requires forall j | 0 <= j < |ds| :: FileLocation(ds[j]) != loc
    ensures loc !in FilesAfter(files, ds)
  {
    if ds != [] {
      var init := ds[..|ds| - 1];
      forall j | 0 <= j < |init| ensures FileLocation(init[j]) != loc {
        assert init[j] == ds[j];
      }
      FilesAfterOnly(files, init, loc);
    }
  }

  /** Every definition's three entries are present after the calls (possibly rewritten by a later one). */
  lemma {:induction false} LangAfterCovers(lang: map<string, string>, ds: seq<TraitDef>, i: nat)
    requires i < |ds|
    ensures LangOf(ds[i]).Keys <= LangAfter(lang, ds).Keys
  {
    if i < |ds| - 1 {
      LangAfterCovers(lang, ds[..|ds| - 1], i);
      assert ds[..|ds| - 1][i] == ds[i];
    }
  }

  /** A key not written before and by no definition is not in the entries afterwards. */
  lemma {:induction false} LangAfterOnly(lang: map<string, string>, ds: seq<TraitDef>, k: string)
    requires k !in lang
    requires forall j | 0 <= j < |ds| :: k !in LangOf(ds[j])
    ensures k !in LangAfter(lang, ds)
  {
    if ds != [] {
      var init := ds[..|ds| - 1];
      forall j | 0 <= j < |init| ensures k !in LangOf(init[j]) {
        assert init[j] == ds[j];
      }
      LangAfterOnly(lang, init, k);
    }
  }

  // ---- manual translations ---------------------------------------------------------------

  /** One `manualTrait` call: a translation key and its three texts. */
  datatype ManualDef = ManualDef(key: string, title: string, staticDesc: string, activeDesc: string)

  function ManualLangAfter(lang: map<string, string>, ms: seq<ManualDef>): map<string, string> {
    if ms == [] then lang
    else
      var m := ms[|ms| - 1];
      ManualLangAfter(lang, ms[..|ms| - 1]) + LangTriple(m.key, m.title, m.staticDesc, m.activeDesc)
  }

  /** Every manual key gets its ".title", ".static" and ".active" entries. */
  lemma {:induction false} ManualLangCovers(lang: map<string, string>, ms: seq<ManualDef>, i: nat)
    requires i < |ms|
    ensures ms[i].key + ".title" in ManualLangAfter(lang, ms)
    ensures ms[i].key + ".static" in ManualLangAfter(lang, ms)
    ensures ms[i].key + ".active" in ManualLangAfter(lang, ms)
  {
    var m := ms[|ms| - 1];
    LangTripleEntries(m.key, m.title, m.staticDesc, m.activeDesc);
    if i < |ms| - 1 {
      ManualLangCovers(lang, ms[..|ms| - 1], i);
      assert ms[..|ms| - 1][i] == ms[i];
    }
  }

  const MANUAL_DEFS: seq<ManualDef> := [
    ManualDef("ethology.trait.stat.aquatic", "Aquatic", "Naturally adapted to water.", "Swimming."),
    ManualDef("ethology.trait.stat.aerial", "Aerial", "Capable of flight.", "Flying."),
    ManualDef("ethology.trait.stat.passive", "Passive", "Naturally harmless.", "Passive."),
    ManualDef("ethology.trait.stat.neutral", "Neutral", "Neutral until provoked.", "Neutral."),
    ManualDef("ethology.trait.stat.hostile", "Hostile", "Aggressive towards players.", "Hostile."),
    ManualDef("ethology.trait.goal.temptable", "Temptable", "Can be tempted with food.", "Being tempted."),
    ManualDef("ethology.trait.goal.fearful", "Fearful", "Avoids certain threats.", "Fleeing threat."),
    ManualDef("ethology.trait.goal.aggressive", "Aggressive", "Aggressive towards targets.", "Attacking target.")
  ]

  // ---- the documented traits, in the order they are written -----------------------------------

  const ACTIVITY_DEFS: seq<TraitDef> := [
    ActivityDef(Vanilla("core"), Vanilla("heart_of_the_sea"), "Core", "Essential brain function.", "Performing essential brain functions."),
    ActivityDef(Vanilla("idle"), Vanilla("clock"), "Idle", "Waiting for something to happen.", "Currently idle."),
    ActivityDef(Vanilla("work"), Vanilla("crafting_table"), "Working", "Can work at a job site.", "Working at job site."),
    ActivityDef(Vanilla("play"), Vanilla("poppy"), "Playing", "Can engage in play with others.", "Playing."),
    ActivityDef(Vanilla("rest"), Vanilla("red_bed"), "Resting", "Can Sleep.", "Sleeping."),
    ActivityDef(Vanilla("meet"), Vanilla("bell"), "Meeting", "Can Socialize at a meeting point.", "Socializing."),
    ActivityDef(Vanilla("panic"), Vanilla("sugar"), "Panic", "Can Flee from immediate danger.", "Panicking!"),
    ActivityDef(Vanilla("raid"), Vanilla("crossbow"), "Raiding", "Can participate in a raid.", "Raiding."),
    ActivityDef(Vanilla("pre_raid"), Vanilla("ominous_bottle"), "Pre-Raid", "Can prepare for a raid wave.", "Preparing to raid."),
    ActivityDef(Vanilla("hide"), Vanilla("shield"), "Hiding", "Can take cover from threats.", "Hiding."),
    ActivityDef(Vanilla("fight"), Vanilla("netherite_sword"), "Fighting", "Can engage in combat.", "Fighting target."),
    ActivityDef(Vanilla("celebrate"), Vanilla("firework_rocket"), "Celebrating", "Can celebrate a victory.", "Celebrating."),
    ActivityDef(Vanilla("admire_item"), Vanilla("gold_ingot"), "Admiring", "Can be distracted by a loved item.", "Admiring item."),
    ActivityDef(Vanilla("avoid"), Vanilla("cactus"), "Avoiding", "Can Keep distance from threats.", "Fleeing threat."),
    ActivityDef(Vanilla("ride"), Vanilla("saddle"), "Riding", "Can Ride another entity.", "Riding."),
    ActivityDef(Vanilla("play_dead"), Vanilla("bone"), "Playing Dead", "Can pretend to be dead.", "Playing dead."),
    ActivityDef(Vanilla("long_jump"), Vanilla("rabbit_foot"), "Leaping", "Can perform a long jump.", "Leaping."),
    ActivityDef(Vanilla("ram"), Vanilla("goat_horn"), "Ramming", "Can charge at a target.", "Ramming."),
    ActivityDef(Vanilla("tongue"), Vanilla("slime_ball"), "Tongue Attack", "Can use tongue to catch prey.", "Attacking with tongue."),
    ActivityDef(Vanilla("swim"), Vanilla("water_bucket"), "Swimming", "Can swim in water.", "Swimming."),
    ActivityDef(Vanilla("lay_spawn"), Vanilla("turtle_egg"), "Laying Spawn", "Can lay eggs or spawn offspring.", "Laying spawn."),
    ActivityDef(Vanilla("sniff"), Vanilla("moss_block"), "Sniffing", "Can searching for scents.", "Sniffing."),
    ActivityDef(Vanilla("investigate"), Vanilla("spyglass"), "Investigating", "Can check out a disturbance.", "Investigating."),
    ActivityDef(Vanilla("roar"), Vanilla("sculk_shrieker"), "Roaring", "Can emit a loud roar.", "Roaring."),
    ActivityDef(Vanilla("emerge"), Vanilla("dirt"), "Emerging", "Can emerge out of the ground.", "Emerging from ground."),
    ActivityDef(Vanilla("dig"), Vanilla("iron_shovel"), "Digging", "Can dig into the ground.", "Digging.")
  ]

  const SENSOR_DEFS: seq<TraitDef> := [
    SensorDef(Vanilla("nearest_items"), Vanilla("spyglass"), "Item Sense", "Can detect nearby items."),
    SensorDef(Vanilla("nearest_living_entities"), Vanilla("player_head"), "Mob Sense", "Can detect nearby mobs."),
    SensorDef(Vanilla("nearest_players"), Vanilla("player_head"), "Player Sense", "Can detect nearby players."),
    SensorDef(Vanilla("nearest_bed"), Vanilla("red_bed"), "Bed Sense", "Can locate beds."),
    SensorDef(Vanilla("hurt_by"), Vanilla("iron_axe"), "Damage Sense", "Remembers who hurt it."),
    SensorDef(Vanilla("villager_hostiles"), Vanilla("zombie_head"), "Threat Sense", "Detects zombies and raiders."),
    SensorDef(Vanilla("golem_detected"), Vanilla("iron_block"), "Golem Sense", "Detects Iron Golems."),
    SensorDef(Vanilla("piglin_specific_sensor"), Vanilla("gold_ingot"), "Piglin Logic", "Senses gold and hoglins."),
    SensorDef(Vanilla("hoglin_specific_sensor"), Vanilla("crimson_fungus"), "Hoglin Logic", "Senses piglins and repellents."),
    SensorDef(Vanilla("warden_entity_sensor"), Vanilla("sculk_sensor"), "Vibration Sense", "Detects vibrations."),
    SensorDef(Vanilla("is_in_water"), Vanilla("water_bucket"), "Hydro Sense", "Knows if it is in water.")
  ]

  const MEMORY_DEFS: seq<TraitDef> := [
    MemoryDef(Vanilla("home"), Vanilla("red_bed"), "Home", "Remembers home location."),
    MemoryDef(Vanilla("job_site"), Vanilla("emerald"), "Job Site", "Remembers workplace."),
    MemoryDef(Vanilla("meeting_point"), Vanilla("bell"), "Meeting Point", "Remembers gathering spot."),
    MemoryDef(Vanilla("attack_target"), Vanilla("diamond_sword"), "Target", "Focusing on an enemy."),
    MemoryDef(Vanilla("walk_target"), Vanilla("compass"), "Destination", "Moving towards a specific spot."),
    MemoryDef(Vanilla("angry_at"), Vanilla("blaze_powder"), "Anger", "Angry at a specific entity."),
    MemoryDef(Vanilla("liked_player"), Vanilla("cookie"), "Friendship", "Likes a specific player."),
    MemoryDef(Vanilla("hurt_by"), Vanilla("damaged_anvil"), "Grudge", "Remembers recent damage source."),
    MemoryDef(Vanilla("breed_target"), Vanilla("heart_of_the_sea"), "Mate", "Focusing on a partner.")
  ]

  const GOAL_PACKAGE := "net.minecraft.world.entity.ai.goal."
  const TARGET_GOAL_PACKAGE := "net.minecraft.world.entity.ai.goal.target."

  const GOAL_DEFS: seq<TraitDef> := [
    GoalDef(GOAL_PACKAGE + "FloatGoal", Vanilla("lily_pad"), "Buoyant", "Floats in water.", "Floating."),
    GoalDef(GOAL_PACKAGE + "PanicGoal", Vanilla("sugar"), "Skittish", "Runs away when hurt.", "Fleeing."),
    GoalDef(GOAL_PACKAGE + "LookAtPlayerGoal", Vanilla("ender_eye"), "Watchful", "Watches nearby players.", "Watching player."),
    GoalDef(GOAL_PACKAGE + "MeleeAttackGoal", Vanilla("iron_sword"), "Melee", "Attacks targets in close range.", "Attacking (Melee)."),
    GoalDef(GOAL_PACKAGE + "RangedBowAttackGoal", Vanilla("bow"), "Archer", "Shoots arrows at targets.", "Shooting arrows."),
    GoalDef(GOAL_PACKAGE + "TemptGoal", Vanilla("wheat"), "Temptable", "Follows players holding food.", "Being tempted."),
    GoalDef(GOAL_PACKAGE + "BreedGoal", Vanilla("egg"), "Breedable", "Can produce offspring.", "Breeding."),
    GoalDef(GOAL_PACKAGE + "AvoidEntityGoal", Vanilla("barrier"), "Fearful", "Avoids certain entities.", "Avoiding threat."),
    GoalDef(GOAL_PACKAGE + "FleeSunGoal", Vanilla("rotten_flesh"), "Photosensitive", "Burns in sunlight.", "Fleeing sun."),
    GoalDef(GOAL_PACKAGE + "EatBlockGoal", Vanilla("grass_block"), "Grazer", "Eats grass to regain health.", "Grazing."),
    GoalDef(GOAL_PACKAGE + "OpenDoorGoal", Vanilla("oak_door"), "Door User", "Can open doors.", "Opening door."),
    GoalDef(GOAL_PACKAGE + "BreakDoorGoal", Vanilla("iron_axe"), "Door Breaker", "Breaks down doors.", "Breaking door."),
    GoalDef(GOAL_PACKAGE + "SwellGoal", Vanilla("tnt"), "Explosive", "Detonates near targets.", "Exploding."),
    GoalDef(GOAL_PACKAGE + "SitWhenOrderedToGoal", Vanilla("lead"), "Obedient", "Sits when ordered.", "Sitting."),
    GoalDef(GOAL_PACKAGE + "FollowOwnerGoal", Vanilla("bone"), "Loyal", "Follows its owner.", "Following owner."),
    GoalDef(TARGET_GOAL_PACKAGE + "DefendVillageTargetGoal", Vanilla("shield"), "Guardian", "Defends the village.", "Defending village."),
    GoalDef(TARGET_GOAL_PACKAGE + "HurtByTargetGoal", Vanilla("iron_chestplate"), "Vengeful", "Attacks those who hurt it.", "Seeking vengeance."),
    GoalDef(TARGET_GOAL_PACKAGE + "NearestAttackableTargetGoal", Vanilla("crossbow"), "Aggressive", "Hunts specific enemies.", "Hunting target."),
    GoalDef(GOAL_PACKAGE + "RandomStrollGoal", Vanilla("leather_boots"), "Wanderer", "Roams randomly.", "Wandering."),
    GoalDef(GOAL_PACKAGE + "WaterAvoidingRandomStrollGoal", Vanilla("leather_boots"), "Land Wanderer", "Roams without entering water.", "Wandering (Land).")
  ]

  const TRAIT_DEFS: seq<TraitDef> := ACTIVITY_DEFS + SENSOR_DEFS + MEMORY_DEFS + GOAL_DEFS

  /** The entries written before the generated ones; a generated entry with the same key replaces one. */
  const FIXED_LANG: map<string, string> := map[
    "itemGroup.ethology" := "Ethology",
    "key.ethology.open" := "Open Ethology Journal",
    "key.category.ethology" := "Ethology",
    "ethology.trait.goal.unknown.title" := "Unknown Behavior",
    "ethology.trait.goal.unknown.static" := "Undocumented behavior.",
    "ethology.trait.goal.unknown.active" := "Performing unknown behavior."
  ]

  /** The language file: the fixed entries, then every collected entry on top. */
  function LangFile(langEntries: map<string, string>): (r: map<string, string>)
    ensures r.Keys == FIXED_LANG.Keys + langEntries.Keys
    ensures forall k | k in langEntries :: r[k] == langEntries[k]
    ensures forall k | k in FIXED_LANG && k !in langEntries :: r[k] == FIXED_LANG[k]
  {
    FIXED_LANG + langEntries
  }

  class EthologyTraitProvider {
    var traitsToSave: map<ResourceLocation, Json>
    var langEntries: map<string, string>

    constructor()
      ensures traitsToSave == map[] && langEntries == map[]
    {
      traitsToSave, langEntries := map[], map[];
    }

    /** `createJson`: three language entries and one definition object. */
    method CreateJson(d: TraitDef)
      modifies this
      ensures langEntries == old(langEntries) + LangOf(d)
      ensures traitsToSave == old(traitsToSave)[FileLocation(d) := TraitJson(d)]
    {
      var key := TranslationKey(d.category, d.target);
      ghost var before := langEntries;
      langEntries := langEntries[key + ".title" := d.title];
      langEntries := langEntries[key + ".static" := d.staticDesc];
      if d.activeDesc.Some? {
        langEntries := langEntries[key + ".active" := d.activeDesc.value];
      } else {
        langEntries := langEntries[key + ".active" := d.staticDesc];
      }
      PutsAreUnion(before, key, d.title, d.staticDesc, if d.activeDesc.Some? then d.activeDesc.value else d.staticDesc);
      traitsToSave := traitsToSave[FileLocation(d) := TraitJson(d)];
    }

    /** `manualTrait`: the three entries under a given key, and no definition object. */
    method ManualTrait(m: ManualDef)
      modifies this`langEntries
      ensures langEntries == old(langEntries) + LangTriple(m.key, m.title, m.staticDesc, m.activeDesc)
    {
      langEntries := langEntries[m.key + ".title" := m.title];
      langEntries := langEntries[m.key + ".static" := m.staticDesc];
      langEntries := langEntries[m.key + ".active" := m.activeDesc];
      PutsAreUnion(old(langEntries), m.key, m.title, m.staticDesc, m.activeDesc);
    }

    /** `addTraits`: `createJson` for each documented trait, in order. */
    method AddTraits(ds: seq<TraitDef>)
      modifies this
      ensures traitsToSave == FilesAfter(old(traitsToSave), ds)
      ensures langEntries == LangAfter(old(langEntries), ds)
    {
      for i := 0 to |ds|
        invariant traitsToSave == FilesAfter(old(traitsToSave), ds[..i])
        invariant langEntries == LangAfter(old(langEntries), ds[..i])
      {
        assert ds[..i + 1][..i] == ds[..i];
        CreateJson(ds[i]);
      }
      assert ds[..|ds|] == ds;
    }

    /** `addManualTranslations`: `manualTrait` for each manual key, in order. */
    method AddManualTranslations(ms: seq<ManualDef>)
      modifies this`langEntries
      ensures langEntries == ManualLangAfter(old(langEntries), ms)
    {
      for i := 0 to |ms|
        invariant langEntries == ManualLangAfter(old(langEntries), ms[..i])
      {
        assert ms[..i + 1][..i] == ms[..i];
        ManualTrait(ms[i]);
      }
      assert ms[..|ms| - 0] == ms;
    }

    /**
     * `run`: clears both tables, collects the documented traits and the manual keys, and
     * returns what is saved: the definition objects by location and the language file.
     * Nothing in the result depends on the state before the call, so every run writes the
     * same files.
     */
    method Run() returns (saved: map<ResourceLocation, Json>, lang: map<string, string>)
      modifies this
      ensures traitsToSave == FilesAfter(map[], TRAIT_DEFS)
      ensures langEntries == ManualLangAfter(LangAfter(map[], TRAIT_DEFS), MANUAL_DEFS)
      ensures saved == traitsToSave && lang == LangFile(langEntries)
    {
      traitsToSave := map[];
      langEntries := map[];
      AddTraits(TRAIT_DEFS);
      AddManualTranslations(MANUAL_DEFS);
      saved := traitsToSave;
      lang := LangFile(langEntries);
    }
  }

  /** `getName`. */
  const PROVIDER_NAME := "Ethology Traits & Lang"
}
