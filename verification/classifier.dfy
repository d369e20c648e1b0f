/**
 * Ecological classification: an aquatic and an aerial capability from the entity's
 * class and navigation, and exactly one of hostile / neutral / passive from an integer
 * hostility score built from the category, the attack damage and the target goals.
 */
module Classifier {
  import opened Wrappers
  import opened Location
  import opened Classes
  import opened World
  import opened Traits
  import opened ScopedInfo

  const HOSTILE_THRESHOLD: int := 80
  const NEUTRAL_THRESHOLD: int := 20

  const TARGET_TYPE: FieldRef := FieldRef(NEAREST_ATTACKABLE_TARGET_GOAL, "targetType")

  /** `createTrait(s, icon)`: id `ethology:classifier_<s>`, key `ethology.trait.stat.<s>`, no args, STAT. */
  function CreateTrait(suffix: string, icon: Item): (r: Trait)
    ensures r.id == ResourceLocation(MODID, "classifier_" + suffix)
    ensures r.translationKey == "ethology.trait.stat." + suffix
    ensures r.args == [] && r.category == STAT && r.icon == StackOf(icon)
  {
    Keyed(ResourceLocation(MODID, "classifier_" + suffix), icon, "ethology.trait.stat." + suffix, [], STAT)
  }

  predicate IsAquatic(h: Hierarchy, e: LivingEntity)
    requires h.Valid()
  {
    IsSubtype(h, e.cls, PATHFINDER_MOB) &&
    (IsSubtype(h, e.navigation, WATER_BOUND_NAVIGATION) || IsSubtype(h, e.navigation, AMPHIBIOUS_NAVIGATION))
  }

  /** The traits `analyzeEnvironment` adds, in order. */
  function EnvironmentTraits(h: Hierarchy, e: LivingEntity): (r: seq<Trait>)
    requires h.Valid()
    ensures HasId(r, ResourceLocation(MODID, "classifier_aquatic")) <==> IsAquatic(h, e)
    ensures HasId(r, ResourceLocation(MODID, "classifier_aerial")) <==> IsSubtype(h, e.cls, FLYING_ANIMAL)
    ensures |r| <= 2
  {
    var aquatic := CreateTrait("aquatic", Vanilla("water_bucket"));
    var aerial := CreateTrait("aerial", Vanilla("feather"));
    assert aquatic.id != aerial.id by {
      assert aquatic.id.path[12] != aerial.id.path[12];
    }
    var first := if IsAquatic(h, e) then [aquatic] else [];
    var second := if IsSubtype(h, e.cls, FLYING_ANIMAL) then [aerial] else [];
    var r := first + second;
    assert forall i | 0 <= i < |r| :: r[i] == aquatic || r[i] == aerial;
    assert IsAquatic(h, e) ==> r[0] == aquatic;
    assert IsSubtype(h, e.cls, FLYING_ANIMAL) ==> r[|r| - 1] == aerial;
    r
  }

  /** The score one target-selector entry contributes (its goal, unwrapped one level). */
  function GoalScore(h: Hierarchy, w: WrappedGoal): (r: int)
    requires h.Valid()
    ensures 0 <= r
  {
    var g := w.inner;
    if g.Plain? then
      (if IsSubtype(h, g.obj.cls, NEAREST_ATTACKABLE_TARGET_GOAL) then
         (if FieldValue(g.obj, TARGET_TYPE) == ClassV(PLAYER) then 100 else 10) else 0)
      + (if IsSubtype(h, g.obj.cls, HURT_BY_TARGET_GOAL) then 30 else 0)
      + (if IsSubtype(h, g.obj.cls, DEFEND_VILLAGE_TARGET_GOAL) then 10 else 0)
    else 0
  }

  /** The goal part of the score: the sum over the target selector. */
  function SelectorScore(h: Hierarchy, s: seq<WrappedGoal>): (r: int)
    requires h.Valid()
    ensures 0 <= r
  {
    if s == [] then 0 else SelectorScore(h, s[..|s| - 1]) + GoalScore(h, s[|s| - 1])
  }

  /** No single entry contributes more than the whole selector. */
  lemma {:induction false} SelectorScoreBound(h: Hierarchy, s: seq<WrappedGoal>, i: nat)
    requires h.Valid() && i < |s|
    ensures GoalScore(h, s[i]) <= SelectorScore(h, s)
  {
    if i < |s| - 1 {
      SelectorScoreBound(h, s[..|s| - 1], i);
    }
  }

  /** Category and damage part of the score. */
  function BaseScore(e: LivingEntity): (r: int)
    ensures 0 <= r <= 70
  {
    (if e.etype.category == MONSTER then 50 else 0)
    + (if ATTACK_DAMAGE in e.attributes && e.attributes[ATTACK_DAMAGE] > 0.0 then 20 else 0)
  }

  /** The hostility score; only a Mob's target selector contributes goals. */
  function HostilityScore(h: Hierarchy, e: LivingEntity): (r: int)
    requires h.Valid()
    ensures 0 <= r
  {
    BaseScore(e) + (if IsSubtype(h, e.cls, MOB) then SelectorScore(h, e.targetSelector) else 0)
  }

  /** The goal selector never affects the score. */
  lemma ScoreIgnoresGoalSelector(h: Hierarchy, e: LivingEntity, goals: seq<WrappedGoal>)
    requires h.Valid()
    ensures HostilityScore(h, e.(goalSelector := goals)) == HostilityScore(h, e)
  {
  }

  /** The threshold classification of a score. */
  function Band(score: int): (r: Trait)
    ensures r.id == ResourceLocation(MODID, "classifier_hostile") <==> score >= HOSTILE_THRESHOLD
    ensures r.id == ResourceLocation(MODID, "classifier_neutral") <==> NEUTRAL_THRESHOLD <= score < HOSTILE_THRESHOLD
    ensures r.id == ResourceLocation(MODID, "classifier_passive") <==> score < NEUTRAL_THRESHOLD
  {
    var hostile := CreateTrait("hostile", Vanilla("iron_sword"));
    var neutral := CreateTrait("neutral", Vanilla("shield"));
    var passive := CreateTrait("passive", Vanilla("grass_block"));
    assert hostile.id.path[11] == 'h' && neutral.id.path[11] == 'n' && passive.id.path[11] == 'p';
    if score >= HOSTILE_THRESHOLD then hostile
    else if score >= NEUTRAL_THRESHOLD then neutral
    else passive
  }

  /** The traits `analyzeHostility` adds: none for a non-summonable type, else exactly one band. */
  function HostilityTraits(h: Hierarchy, e: LivingEntity): (r: seq<Trait>)
    requires h.Valid()
    ensures !e.etype.canSummon <==> r == []
    ensures e.etype.canSummon ==> r == [Band(HostilityScore(h, e))]
  {
    if e.etype.canSummon then [Band(HostilityScore(h, e))] else []
  }

  /** A summonable Mob with a nearest-attackable goal aimed exactly at players is hostile. */
  lemma PlayerTargeterIsHostile(h: Hierarchy, e: LivingEntity, i: nat)
    requires h.Valid() && e.etype.canSummon && IsSubtype(h, e.cls, MOB) && i < |e.targetSelector|
    requires e.targetSelector[i].inner.Plain?
    requires IsSubtype(h, e.targetSelector[i].inner.obj.cls, NEAREST_ATTACKABLE_TARGET_GOAL)
    requires FieldValue(e.targetSelector[i].inner.obj, TARGET_TYPE) == ClassV(PLAYER)
    ensures HostilityTraits(h, e) == [CreateTrait("hostile", Vanilla("iron_sword"))]
  {
    SelectorScoreBound(h, e.targetSelector, i);
  }

  /** The score loop of `analyzeHostility`. */
  method ComputeScore(h: Hierarchy, e: LivingEntity) returns (score: int)
    requires h.Valid()
    ensures score == HostilityScore(h, e)
  {
    score := 0;
    if e.etype.category == MONSTER {
      score := score + 50;
    }
    if ATTACK_DAMAGE in e.attributes {
      var damage := e.attributes[ATTACK_DAMAGE];
      if damage > 0.0 {
        score := score + 20;
      }
    }
    if IsSubtype(h, e.cls, MOB) {
      var i := 0;
      while i < |e.targetSelector|
        invariant 0 <= i <= |e.targetSelector|
        invariant score == BaseScore(e) + SelectorScore(h, e.targetSelector[..i])
      {
        var goal := e.targetSelector[i].inner;
        if goal.Plain? && IsSubtype(h, goal.obj.cls, NEAREST_ATTACKABLE_TARGET_GOAL) {
          if FieldValue(goal.obj, TARGET_TYPE) == ClassV(PLAYER) {
            score := score + 100;
          } else {
            score := score + 10;
          }
        }
        if goal.Plain? && IsSubtype(h, goal.obj.cls, HURT_BY_TARGET_GOAL) {
          score := score + 30;
        }
        if goal.Plain? && IsSubtype(h, goal.obj.cls, DEFEND_VILLAGE_TARGET_GOAL) {
          score := score + 10;
        }
        assert e.targetSelector[..i + 1][..i] == e.targetSelector[..i];
        i := i + 1;
      }
      assert e.targetSelector[..i] == e.targetSelector;
    }
  }

  method AnalyzeEnvironment(h: Hierarchy, e: LivingEntity, info: MobScopedInfo)
    requires h.Valid() && info.Valid()
    modifies info`capabilities
    ensures info.Valid()
    ensures info.capabilities == AddAllById(old(info.capabilities), EnvironmentTraits(h, e))
  {
    info.AddAllCapabilities(EnvironmentTraits(h, e));
  }

  method AnalyzeHostility(h: Hierarchy, e: LivingEntity, info: MobScopedInfo)
    requires h.Valid() && info.Valid()
    modifies info`capabilities
    ensures info.Valid()
    ensures info.capabilities == AddAllById(old(info.capabilities), HostilityTraits(h, e))
  {
    if !e.etype.canSummon {
      return;
    }
    var score := ComputeScore(h, e);
    info.AddCapability(Band(score));
    assert [Band(score)][..0] == [];
  }

  /** `classify`: environment, then hostility. */
  method Classify(h: Hierarchy, e: LivingEntity, info: MobScopedInfo)
    requires h.Valid() && info.Valid()
    modifies info`capabilities
    ensures info.Valid()
    ensures info.capabilities ==
      AddAllById(AddAllById(old(info.capabilities), EnvironmentTraits(h, e)), HostilityTraits(h, e))
  {
    AnalyzeEnvironment(h, e, info);
    AnalyzeHostility(h, e, info);
  }
}
