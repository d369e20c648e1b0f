/**
 * The analyser: archetype analysis (guards on the entity type, creation, analysis, disposal)
 * and instance analysis (uuid, stats, brain pass, the two goal passes, then the fallback
 * classification by entity class).
 */
module EntityAnalyzer {
  import opened Wrappers
  import opened Location
  import opened Classes
  import opened World
  import opened Traits
  import opened ScopedInfo
  import opened TraitManager
  import opened GoalParserRegistry
  import opened GoalParser
  import BrainParser

  /** Everything an instance analysis consults besides the entity. */
  datatype AnalysisEnv = AnalysisEnv(h: Hierarchy, catalog: Catalog,
                                     parsers: map<ClassName, GoalParserKind>, debug: bool)
  {
    function Goals(): GoalEnv {
      GoalEnv(h, catalog.goals, parsers, debug)
    }
  }

  function AnalysisEnvOf(h: Hierarchy, manager: EthologyTraitManager, registry: GoalParserRegistry, debug: bool): AnalysisEnv
    reads manager, registry
  {
    AnalysisEnv(h, manager.Contents(), registry.registry, debug)
  }

  // ---- stats -------------------------------------------------------------------------------

  /** The value of attribute `a` if the entity has it, else `dflt`. */
  function StatOr(e: LivingEntity, a: Attribute, dflt: real): real {
    if a in e.attributes then e.attributes[a] else dflt
  }

  /** `extractStats` on `v`: each stat is overwritten only when the entity has that attribute. */
  function StatsSpec(e: LivingEntity, v: InfoValue): InfoValue {
    v.(maxHealth := StatOr(e, MAX_HEALTH, v.maxHealth),
       attackDamage := StatOr(e, ATTACK_DAMAGE, v.attackDamage),
       movementSpeed := StatOr(e, MOVEMENT_SPEED, v.movementSpeed),
       armor := StatOr(e, ARMOR, v.armor))
  }

  method ExtractStats(e: LivingEntity, info: MobScopedInfo)
    modifies info`maxHealth, info`attackDamage, info`movementSpeed, info`armor
    ensures info.Snapshot() == StatsSpec(e, old(info.Snapshot()))
  {
    if MAX_HEALTH in e.attributes {
      info.SetMaxHealth(e.attributes[MAX_HEALTH]);
    }
    if ATTACK_DAMAGE in e.attributes {
      info.SetAttackDamage(e.attributes[ATTACK_DAMAGE]);
    }
    if MOVEMENT_SPEED in e.attributes {
      info.SetMovementSpeed(e.attributes[MOVEMENT_SPEED]);
    }
    if ARMOR in e.attributes {
      info.SetArmor(e.attributes[ARMOR]);
    }
  }

  // ---- fallbacks ---------------------------------------------------------------------------

  const AQUATIC: Trait := Titled(StackOf(Vanilla("water_bucket")), "Aquatic", "Lives and swims in water.")
  const AERIAL: Trait := Titled(StackOf(Vanilla("feather")), "Aerial", "Capable of flight.")
  const HOSTILE: Trait := Titled(StackOf(Vanilla("iron_sword")), "Hostile", "Naturally aggressive monster.")
  const PASSIVE: Trait := Titled(StackOf(Vanilla("grass_block")), "Passive", "Harmless ambient creature.")

  predicate IsAquatic(h: Hierarchy, e: LivingEntity)
    requires h.Valid()
  {
    (IsSubtype(h, e.cls, WATER_ANIMAL) || e.canBreatheUnderwater) && !IsSubtype(h, e.cls, ARMOR_STAND)
  }

  predicate IsFlying(h: Hierarchy, e: LivingEntity)
    requires h.Valid()
  {
    IsSubtype(h, e.cls, FLYING_ANIMAL)
  }

  predicate IsEnemy(h: Hierarchy, e: LivingEntity)
    requires h.Valid()
  {
    IsSubtype(h, e.cls, ENEMY)
  }

  predicate IsPeaceful(h: Hierarchy, e: LivingEntity)
    requires h.Valid()
  {
    (IsSubtype(h, e.cls, ANIMAL) || IsSubtype(h, e.cls, AMBIENT_CREATURE)) && !IsEnemy(h, e)
  }

  /** `applyFallbacks` on the trait list `ts`. */
  function Fallbacks(h: Hierarchy, e: LivingEntity, ts: seq<Trait>): seq<Trait>
    requires h.Valid()
  {
    var t1 := if IsAquatic(h, e) then AddByTitle(ts, AQUATIC) else ts;
    var t2 := if IsFlying(h, e) then AddByTitle(t1, AERIAL) else t1;
    var t3 := if IsEnemy(h, e) && !HasTitle(t2, "Hostile") then t2 + [HOSTILE] else t2;
    if IsPeaceful(h, e) && t3 == [] then t3 + [PASSIVE] else t3
  }

  /** The fallbacks only append, and never give a title twice. */
  lemma FallbacksAppendUnique(h: Hierarchy, e: LivingEntity, ts: seq<Trait>)
    requires h.Valid()
    ensures ts <= Fallbacks(h, e, ts)
    ensures UniqueTitles(ts) ==> UniqueTitles(Fallbacks(h, e, ts))
  {
    var t1 := if IsAquatic(h, e) then AddByTitle(ts, AQUATIC) else ts;
    var t2 := if IsFlying(h, e) then AddByTitle(t1, AERIAL) else t1;
    var t3 := if IsEnemy(h, e) && !HasTitle(t2, "Hostile") then t2 + [HOSTILE] else t2;
    if IsEnemy(h, e) && !HasTitle(t2, "Hostile") {
      assert t3 == AddByTitle(t2, HOSTILE);
    }
    var t4 := if IsPeaceful(h, e) && t3 == [] then AddByTitle(t3, PASSIVE) else t3;
    assert Fallbacks(h, e, ts) == t4;
    assert ts <= t2 <= t3;
  }

  /** Which titles a list has after one more trait. */
  lemma AppendTitle(s: seq<Trait>, t: Trait, title: string)
    ensures HasTitle(s + [t], title) <==> HasTitle(s, title) || title == t.title
  {
    if HasTitle(s, title) {
      var i :| 0 <= i < |s| && s[i].title == title;
      assert (s + [t])[i] == s[i];
    }
    if HasTitle(s + [t], title) {
      var i :| 0 <= i < |s + [t]| && (s + [t])[i].title == title;
      if i < |s| {
        assert s[i] == (s + [t])[i];
      }
    }
    assert (s + [t])[|s|] == t;
  }

  /** The titles after the fallbacks: the old ones and those of the fallbacks that applied. */
  lemma FallbackTitle(h: Hierarchy, e: LivingEntity, ts: seq<Trait>, title: string)
    requires h.Valid()
    ensures HasTitle(Fallbacks(h, e, ts), title) <==>
              HasTitle(ts, title) ||
              (title == "Aquatic" && IsAquatic(h, e)) ||
              (title == "Aerial" && IsFlying(h, e)) ||
              (title == "Hostile" && IsEnemy(h, e)) ||
              (title == "Passive" && IsPeaceful(h, e) && ts == [] && !IsAquatic(h, e) && !IsFlying(h, e))
  {
    var t1 := if IsAquatic(h, e) then AddByTitle(ts, AQUATIC) else ts;
    var t2 := if IsFlying(h, e) then AddByTitle(t1, AERIAL) else t1;
    var t3 := if IsEnemy(h, e) && !HasTitle(t2, "Hostile") then t2 + [HOSTILE] else t2;
    AppendTitle(ts, AQUATIC, title);
    AppendTitle(t1, AERIAL, title);
    AppendTitle(t2, HOSTILE, title);
    AppendTitle(t3, PASSIVE, title);
    AppendTitle(t2, HOSTILE, "Hostile");
    if t3 == [] {
      assert !IsAquatic(h, e) && !IsFlying(h, e) && ts == [];
    }
    if ts == [] && !IsAquatic(h, e) && !IsFlying(h, e) && IsPeaceful(h, e) {
      assert t3 == [];
    }
  }

  /**
   * The fallbacks add each of their four titles exactly under its condition: "Aquatic" for a
   * water animal or water breather that is not an armor stand, "Aerial" for a flying animal,
   * "Hostile" for an enemy, and "Passive" for a peaceful animal or ambient creature for which
   * nothing at all was found.
   */
  lemma FallbackTitles(h: Hierarchy, e: LivingEntity, ts: seq<Trait>)
    requires h.Valid()
    ensures HasTitle(Fallbacks(h, e, ts), "Aquatic") <==> HasTitle(ts, "Aquatic") || IsAquatic(h, e)
    ensures HasTitle(Fallbacks(h, e, ts), "Aerial") <==> HasTitle(ts, "Aerial") || IsFlying(h, e)
    ensures HasTitle(Fallbacks(h, e, ts), "Hostile") <==> HasTitle(ts, "Hostile") || IsEnemy(h, e)
    ensures HasTitle(Fallbacks(h, e, ts), "Passive") <==>
              HasTitle(ts, "Passive") || (IsPeaceful(h, e) && ts == [] && !IsAquatic(h, e) && !IsFlying(h, e))
  {
    FallbackTitle(h, e, ts, "Aquatic");
    FallbackTitle(h, e, ts, "Aerial");
    FallbackTitle(h, e, ts, "Hostile");
    FallbackTitle(h, e, ts, "Passive");
  }

  /** `applyFallbacks`. */
  method ApplyFallbacks(h: Hierarchy, e: LivingEntity, info: MobScopedInfo)
    requires h.Valid()
    modifies info`traits
    ensures info.traits == Fallbacks(h, e, old(info.traits))
  {
    ghost var t0 := info.traits;
    if IsAquatic(h, e) {
      AddUniqueTrait(info, AQUATIC);
    }
    ghost var t1 := info.traits;
    assert t1 == if IsAquatic(h, e) then AddByTitle(t0, AQUATIC) else t0;
    if IsFlying(h, e) {
      AddUniqueTrait(info, AERIAL);
    }
    ghost var t2 := info.traits;
    assert t2 == if IsFlying(h, e) then AddByTitle(t1, AERIAL) else t1;
    if IsEnemy(h, e) && !HasTitle(info.traits, "Hostile") {
      info.AddTrait(HOSTILE);
    }
    assert info.traits == if IsEnemy(h, e) && !HasTitle(t2, "Hostile") then t2 + [HOSTILE] else t2;
    if IsPeaceful(h, e) && info.traits == [] {
      info.AddTrait(PASSIVE);
    }
  }

  // ---- instance analysis -------------------------------------------------------------------

  /** The info after the uuid, the stats and the brain pass, before the goal passes. */
  function BeforeGoals(a: AnalysisEnv, e: LivingEntity): InfoValue {
    var v0 := Empty(e.etype.key).(uuid := Some(e.uuid));
    var v1 := StatsSpec(e, v0);
    if |e.brain.memories| > 0 then BrainParser.BrainSpec(a.catalog, e.brain, v1) else v1
  }

  /** `analyze(living)` as a value; `None` is an analysis that threw. */
  function InstanceAnalysis(a: AnalysisEnv, e: LivingEntity): Option<InfoValue>
    requires a.h.Valid()
  {
    GoalPasses(a, e, BeforeGoals(a, e))
  }

  /** The goal passes and the fallbacks on the info value `v`; `None` is a parser that threw. */
  function GoalPasses(a: AnalysisEnv, e: LivingEntity, v: InfoValue): Option<InfoValue>
    requires a.h.Valid()
  {
    var v3 :- CapabilitiesSpec(a.Goals(), e, v);
    var v4 :- CurrentStateSpec(a.Goals(), e, v3);
    Some(v4.(traits := Fallbacks(a.h, e, v4.traits)))
  }

  /** The brain traits offered to the empty trait list, when the brain has memories. */
  function BrainPart(a: AnalysisEnv, e: LivingEntity): seq<Trait> {
    if |e.brain.memories| > 0 then AddAllByTitle([], BrainParser.BrainTraits(a.catalog, e.brain)) else []
  }

  /** The parser traits of both passes, in the order they are offered. */
  function GoalParserPart(a: AnalysisEnv, e: LivingEntity): seq<Trait>
    requires a.h.Valid()
  {
    var env := a.Goals();
    ParserTraits(env, e.goalSelector) + ParserTraits(env, e.targetSelector) + ParserTraits(env, Running(e.goalSelector))
  }

  /** Before the goal passes: uuid, stats, empty id lists, and the brain part as the trait list. */
  lemma BeforeGoalsValue(a: AnalysisEnv, e: LivingEntity)
    ensures var v := BeforeGoals(a, e);
            v.entityId == e.etype.key && v.uuid == Some(e.uuid) &&
            v.maxHealth == StatOr(e, MAX_HEALTH, 0.0) && v.attackDamage == StatOr(e, ATTACK_DAMAGE, 0.0) &&
            v.movementSpeed == StatOr(e, MOVEMENT_SPEED, 0.0) && v.armor == StatOr(e, ARMOR, 0.0) &&
            v.capabilities == [] && v.currentStates == [] && v.traits == BrainPart(a, e) && UniqueTitles(v.traits)
  {
    AddAllByTitleKeepsUnique([], BrainParser.BrainTraits(a.catalog, e.brain));
  }

  /** A running goal is one of the goal selector's, so when no selector goal's parser throws, no running goal's does. */
  lemma RunningParsersSucceed(env: GoalEnv, e: LivingEntity)
    requires env.h.Valid()
    requires forall i | 0 <= i < |e.goalSelector + e.targetSelector| :: !ParserFails(env, (e.goalSelector + e.targetSelector)[i])
    ensures forall i | 0 <= i < |Running(e.goalSelector)| :: !ParserFails(env, Running(e.goalSelector)[i])
  {
    var all := e.goalSelector + e.targetSelector;
    forall i | 0 <= i < |Running(e.goalSelector)| ensures !ParserFails(env, Running(e.goalSelector)[i]) {
      var g := Running(e.goalSelector)[i];
      RunningExact(e.goalSelector, g);
      var k :| 0 <= k < |e.goalSelector| && e.goalSelector[k] == g;
      assert all[k] == g;
    }
  }

  /** An instance analysis fails exactly when the entity is a Mob and one of its goals' parsers throws. */
  lemma InstanceAnalysisSucceeds(a: AnalysisEnv, e: LivingEntity)
    requires a.h.Valid()
    ensures InstanceAnalysis(a, e).Some? <==>
              !IsSubtype(a.h, e.cls, MOB) ||
              forall i | 0 <= i < |e.goalSelector + e.targetSelector| :: !ParserFails(a.Goals(), (e.goalSelector + e.targetSelector)[i])
  {
    var env := a.Goals();
    var v2 := BeforeGoals(a, e);
    if IsSubtype(a.h, e.cls, MOB) {
      CapabilitiesEffect(env, e, v2);
      if CapabilitiesSpec(env, e, v2).Some? {
        CurrentStateEffect(env, e, CapabilitiesSpec(env, e, v2).value);
        RunningParsersSucceed(env, e);
      }
    }
  }

  /**
   * A successful instance analysis carries the entity's type key and uuid and the stats it
   * has (zero for the others); its capabilities are the catalog traits of both selectors,
   * its current states those of the running goals; its trait list is the brain traits (only
   * with memories), then the parser traits, then the fallbacks.
   */
  lemma InstanceAnalysisValue(a: AnalysisEnv, e: LivingEntity)
    requires a.h.Valid()
    ensures InstanceAnalysis(a, e).Some? ==>
              var r := InstanceAnalysis(a, e).value;
              var mob := IsSubtype(a.h, e.cls, MOB);
              var env := a.Goals();
              r.entityId == e.etype.key && r.uuid == Some(e.uuid) &&
              r.maxHealth == StatOr(e, MAX_HEALTH, 0.0) && r.attackDamage == StatOr(e, ATTACK_DAMAGE, 0.0) &&
              r.movementSpeed == StatOr(e, MOVEMENT_SPEED, 0.0) && r.armor == StatOr(e, ARMOR, 0.0) &&
              r.capabilities == (if mob then AddAllById([], OwnTraits(env, e.goalSelector) + OwnTraits(env, e.targetSelector)) else []) &&
              r.currentStates == (if mob then AddAllById([], OwnTraits(env, Running(e.goalSelector))) else []) &&
              r.traits == Fallbacks(a.h, e, if mob then AddAllByTitle(BrainPart(a, e), GoalParserPart(a, e)) else BrainPart(a, e))
  {
    var env := a.Goals();
    var v2 := BeforeGoals(a, e);
    BeforeGoalsValue(a, e);
    if IsSubtype(a.h, e.cls, MOB) {
      CapabilitiesEffect(env, e, v2);
      if CapabilitiesSpec(env, e, v2).Some? {
        var v3 := CapabilitiesSpec(env, e, v2).value;
        CurrentStateEffect(env, e, v3);
        AddAllByTitleAppend(v2.traits, ParserTraits(env, e.goalSelector) + ParserTraits(env, e.targetSelector),
                            ParserTraits(env, Running(e.goalSelector)));
      }
    }
  }

  /** A successful instance analysis has no duplicate capability or state id and no duplicate title. */
  lemma InstanceAnalysisUnique(a: AnalysisEnv, e: LivingEntity)
    requires a.h.Valid()
    ensures InstanceAnalysis(a, e).Some? ==>
              var r := InstanceAnalysis(a, e).value;
              UniqueIds(r.capabilities) && UniqueIds(r.currentStates) && UniqueTitles(r.traits)
  {
    var env := a.Goals();
    InstanceAnalysisValue(a, e);
    BeforeGoalsValue(a, e);
    AddAllByTitleKeepsUnique(BrainPart(a, e), GoalParserPart(a, e));
    AddAllKeepsUnique([], OwnTraits(env, e.goalSelector) + OwnTraits(env, e.targetSelector));
    AddAllKeepsUnique([], OwnTraits(env, Running(e.goalSelector)));
    FallbacksAppendUnique(a.h, e, AddAllByTitle(BrainPart(a, e), GoalParserPart(a, e)));
    FallbacksAppendUnique(a.h, e, BrainPart(a, e));
  }

  /** The first steps of `analyze(living)`: a new info with the entity's uuid and stats, then the brain pass. */
  method NewInstanceInfo(h: Hierarchy, manager: EthologyTraitManager, registry: GoalParserRegistry, debug: bool,
                         e: LivingEntity) returns (info: MobScopedInfo)
    ensures fresh(info) && info.Valid()
    ensures info.Snapshot() == BeforeGoals(AnalysisEnvOf(h, manager, registry, debug), e)
    ensures info.uuid == Some(e.uuid) && info.entityId == e.etype.key
  {
    info := new MobScopedInfo(e.etype.key);
    info.SetUuid(Some(e.uuid));
    ExtractStats(e, info);
    var hasComplexBrain := |e.brain.memories| > 0;
    if hasComplexBrain {
      BrainParser.Parse(manager, e, info);
    }
  }

  /** `analyze(living)`: a new info for the entity's type, filled in pass by pass. */
  method AnalyzeInstance(h: Hierarchy, manager: EthologyTraitManager, registry: GoalParserRegistry, debug: bool,
                         e: LivingEntity) returns (r: Option<MobScopedInfo>)
    requires h.Valid()
    ensures r.Some? <==> InstanceAnalysis(AnalysisEnvOf(h, manager, registry, debug), e).Some?
    ensures r.Some? ==> fresh(r.value) && r.value.Valid() &&
                        r.value.Snapshot() == InstanceAnalysis(AnalysisEnvOf(h, manager, registry, debug), e).value
    ensures r.Some? ==> r.value.uuid == Some(e.uuid) && r.value.entityId == e.etype.key
  {
    var info := NewInstanceInfo(h, manager, registry, debug, e);
    var ok := RunGoalPasses(h, manager, registry, debug, e, info);
    r := if ok then Some(info) else None;
  }

  /** The rest of `analyze(living)` after the brain pass: both goal passes, then the fallbacks. */
  method RunGoalPasses(h: Hierarchy, manager: EthologyTraitManager, registry: GoalParserRegistry, debug: bool,
                       e: LivingEntity, info: MobScopedInfo) returns (ok: bool)
    requires h.Valid() && info.Valid()
    modifies info`capabilities, info`currentStates, info`traits
    ensures info.Valid()
    ensures ok <==> GoalPasses(AnalysisEnvOf(h, manager, registry, debug), e, old(info.Snapshot())).Some?
    ensures ok ==> info.Snapshot() == GoalPasses(AnalysisEnvOf(h, manager, registry, debug), e, old(info.Snapshot())).value
  {
    ghost var a := AnalysisEnvOf(h, manager, registry, debug);
    assert a.Goals() == Env(h, manager, registry, debug);
    ok := ParseCapabilities(h, manager, registry, debug, e, info);
    if !ok {
      return;
    }
    ok := ParseCurrentState(h, manager, registry, debug, e, info);
    if !ok {
      return;
    }
    ApplyFallbacks(h, e, info);
  }

  // ---- archetype analysis ------------------------------------------------------------------

  /**
   * `analyze(type, level)` as a value: the result and whether the created entity was
   * discarded.  `created` is what `type.create(level)` gives; it is consulted only when
   * both guards pass.
   */
  function ArchetypeAnalysis(a: AnalysisEnv, t: EntityType, created: Created): (r: (Option<InfoValue>, bool))
    requires a.h.Valid()
    ensures r.0.Some? ==> r.1 && !t.noAnalysis && t.canSummon && created.Living?
    ensures t.noAnalysis || !t.canSummon ==> r == (None, false)
    ensures !t.noAnalysis && t.canSummon && created.Living? ==>
              r.0 == InstanceAnalysis(a, created.entity) && (r.1 <==> r.0.Some?)
    ensures !t.noAnalysis && t.canSummon && !created.Living? ==> r.0.None? && (r.1 <==> created.NonLiving?)
  {
    if t.noAnalysis || !t.canSummon then (None, false)
    else
      match created
      case Throws => (None, false)
      case NullEntity => (None, false)
      case NonLiving => (None, true)
      case Living(e) =>
        var result := InstanceAnalysis(a, e);
        (result, result.Some?)
  }

  /** `analyze(type, level)`. */
  method AnalyzeArchetype(h: Hierarchy, manager: EthologyTraitManager, registry: GoalParserRegistry, debug: bool,
                          t: EntityType, created: Created) returns (r: Option<MobScopedInfo>, discarded: bool)
    requires h.Valid()
    ensures r.Some? <==> ArchetypeAnalysis(AnalysisEnvOf(h, manager, registry, debug), t, created).0.Some?
    ensures r.Some? ==> fresh(r.value) && r.value.Valid() &&
                        r.value.Snapshot() == ArchetypeAnalysis(AnalysisEnvOf(h, manager, registry, debug), t, created).0.value
    ensures discarded == ArchetypeAnalysis(AnalysisEnvOf(h, manager, registry, debug), t, created).1
    ensures r.Some? ==> created.Living? && r.value.uuid == Some(created.entity.uuid)
  {
    if t.noAnalysis {
      return None, false;
    }
    if !t.canSummon {
      return None, false;
    }
    match created
    case Throws =>
      r, discarded := None, false;
    case NullEntity =>
      r, discarded := None, false;
    case NonLiving =>
      r, discarded := None, true;
    case Living(e) =>
      r := AnalyzeInstance(h, manager, registry, debug, e);
      discarded := r.Some?;
  }
}
