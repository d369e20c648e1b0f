/**
 * The built-in goal inspectors: one per vanilla goal class the mod recognises.  The tempt,
 * breed, avoid and aggressive-target inspectors check the goal's class and read one of its
 * fields; the others describe their goal unconditionally.
 */
module VanillaGoalInspectors {
  import opened Wrappers
  import opened Location
  import opened Classes
  import opened World
  import opened Traits
  import opened GenericInspector
  import Text

  datatype GoalInspector =
    | TEMPT | BREED | AVOID_ENTITY
    | RANDOM_STROLL | WATER_AVOIDING_STROLL | FLOAT
    | EAT_BLOCK | OPEN_DOOR | BREAK_DOOR | SIT
    | MELEE_ATTACK | RANGED_BOW | SWELL
    | AGGRESSIVE_TARGET | HURT_BY_TARGET | DEFEND_VILLAGE
  {
    /** The inspectors that return a trait for any goal. */
    predicate Unconditional() {
      !(TEMPT? || BREED? || AVOID_ENTITY? || AGGRESSIVE_TARGET?)
    }
  }

  const TEMPT_ITEMS: FieldRef := FieldRef(TEMPT_GOAL, "items")
  const BREED_PARTNER: FieldRef := FieldRef(BREED_GOAL, "partnerClass")
  const AVOID_CLASS: FieldRef := FieldRef(AVOID_ENTITY_GOAL, "avoidClass")
  const TARGET_TYPE: FieldRef := FieldRef(NEAREST_ATTACKABLE_TARGET_GOAL, "targetType")

  function Ethology(path: string): ResourceLocation {
    ResourceLocation(MODID, path)
  }

  /** The id, icon and translation key of each unconditional inspector's trait. */
  function UnconditionalParts(i: GoalInspector): (string, Item, string)
    requires i.Unconditional()
  {
    match i
    case RANDOM_STROLL => ("vanilla_stroll", Vanilla("leather_boots"), "ethology.trait.goal.wanders")
    case WATER_AVOIDING_STROLL => ("vanilla_stroll_land", Vanilla("leather_boots"), "ethology.trait.goal.wanders_land")
    case FLOAT => ("vanilla_float", Vanilla("oak_boat"), "ethology.trait.goal.floats")
    case EAT_BLOCK => ("vanilla_eat_block", Vanilla("grass_block"), "ethology.trait.goal.eats_blocks")
    case OPEN_DOOR => ("vanilla_open_door", Vanilla("oak_door"), "ethology.trait.goal.opens_doors")
    case BREAK_DOOR => ("vanilla_break_door", Vanilla("iron_axe"), "ethology.trait.goal.breaks_doors")
    case SIT => ("vanilla_sit", Vanilla("oak_stairs"), "ethology.trait.goal.sits")
    case MELEE_ATTACK => ("vanilla_melee", Vanilla("iron_sword"), "ethology.trait.goal.melee_attack")
    case RANGED_BOW => ("vanilla_bow", Vanilla("bow"), "ethology.trait.goal.ranged_attack")
    case SWELL => ("vanilla_swell", Vanilla("tnt"), "ethology.trait.goal.explodes")
    case HURT_BY_TARGET => ("vanilla_hurt_by", Vanilla("shield"), "ethology.trait.goal.retaliates")
    case DEFEND_VILLAGE => ("vanilla_defend_village", Vanilla("bell"), "ethology.trait.goal.defends_village")
  }

  /**
   * `getArgs`: exactly one name: the first stack's name of a non-empty Ingredient, "Food"
   * for an empty one, "Items" for any other predicate.
   */
  function Args(itemsPredicate: Value, itemName: Item -> string): (r: seq<string>)
    ensures |r| == 1
    ensures itemsPredicate.IngredientV? && |itemsPredicate.stacks| > 0 ==> r == [itemName(itemsPredicate.stacks[0].item)]
    ensures itemsPredicate.IngredientV? && |itemsPredicate.stacks| == 0 ==> r == ["Food"]
    ensures !itemsPredicate.IngredientV? ==> r == ["Items"]
  {
    match itemsPredicate
    case IngredientV(stacks) => if |stacks| > 0 then [itemName(stacks[0].item)] else ["Food"]
    case _ => ["Items"]
  }

  /** A `Class<?>` field's value; `None` is null. */
  function ClassOf(v: Value): Option<ClassName> {
    if v.ClassV? then Some(v.cls) else None
  }

  /**
   * `getEntityNameFromClass`: "Unknown" for null, "Players" for a Player subtype, else the
   * description of the first registered type whose base class fits, else the simple name
   * with a trailing "Entity" stripped.
   */
  function EntityNameFromClass(h: Hierarchy, registry: EntityRegistry, c: Option<ClassName>): (r: string)
    requires h.Valid()
    ensures c.None? ==> r == "Unknown"
    ensures c.Some? && IsSubtype(h, c.value, PLAYER) ==> r == "Players"
    ensures c.Some? && !IsSubtype(h, c.value, PLAYER) ==>
              match FirstTypeAssignableTo(h, registry.types, c.value)
              case Some(t) => r == t.description
              case None => r == Text.StripSuffix(SimpleName(c.value), "Entity")
  {
    match c
    case None => "Unknown"
    case Some(cls) =>
      if IsSubtype(h, cls, PLAYER) then "Players"
      else match FirstTypeAssignableTo(h, registry.types, cls)
        case Some(t) => t.description
        case None => Text.StripSuffix(SimpleName(cls), "Entity")
  }

  /**
   * What inspector `i` returns for the goal object `goal`.  A null `targetType` makes the
   * aggressive inspector throw; here that is `None`.
   */
  function Inspect(h: Hierarchy, registry: EntityRegistry, itemName: Item -> string,
                   i: GoalInspector, goal: Obj): (r: Option<Trait>)
    requires h.Valid()
    ensures r.Some? ==> r.value.category == GOAL && r.value.id.namespace == MODID
    ensures i.Unconditional() ==> r.Some? && r.value.args == []
    ensures i.TEMPT? ==> (r.Some? <==> IsSubtype(h, goal.cls, TEMPT_GOAL))
    ensures i.BREED? ==> (r.Some? <==> IsSubtype(h, goal.cls, BREED_GOAL))
    ensures i.AVOID_ENTITY? ==> (r.Some? <==> IsSubtype(h, goal.cls, AVOID_ENTITY_GOAL))
    ensures i.AGGRESSIVE_TARGET? ==>
              (r.Some? <==> IsSubtype(h, goal.cls, NEAREST_ATTACKABLE_TARGET_GOAL) &&
                            ClassOf(FieldValue(goal, TARGET_TYPE)).Some?)
    ensures r.Some? ==> r.value.id == InspectorId(i, TargetIsPlayer(h, goal))
    ensures i.Unconditional() ==>
              r.value.id == Ethology(UnconditionalParts(i).0) && r.value.icon == StackOf(UnconditionalParts(i).1) &&
              r.value.translationKey == UnconditionalParts(i).2
    ensures i.TEMPT? && r.Some? ==>
              r.value.id == Ethology("vanilla_tempt") && r.value.icon == StackOf(WHEAT) &&
              r.value.translationKey == "ethology.trait.goal.temptable" &&
              r.value.args == Args(FieldValue(goal, TEMPT_ITEMS), itemName)
    ensures (i.BREED? || i.AVOID_ENTITY? || i.AGGRESSIVE_TARGET?) && r.Some? ==> |r.value.args| == 1
    ensures i.BREED? && r.Some? ==>
              r.value.id == Ethology("vanilla_breed") && r.value.icon == StackOf(Vanilla("heart_of_the_sea")) &&
              r.value.translationKey == "ethology.trait.goal.breed_goal" &&
              r.value.args == [EntityNameFromClass(h, registry, ClassOf(FieldValue(goal, BREED_PARTNER)))]
    ensures i.AVOID_ENTITY? && r.Some? ==>
              r.value.id == Ethology("vanilla_avoid") && r.value.icon == StackOf(BARRIER) &&
              r.value.translationKey == "ethology.trait.goal.fearful" &&
              r.value.args == [EntityNameFromClass(h, registry, ClassOf(FieldValue(goal, AVOID_CLASS)))]
    ensures i.AGGRESSIVE_TARGET? && r.Some? ==>
              var isPlayer := IsSubtype(h, ClassOf(FieldValue(goal, TARGET_TYPE)).value, PLAYER);
              r.value.id == (if isPlayer then Ethology("vanilla_aggro_player") else Ethology("vanilla_aggro_mob")) &&
              r.value.icon == StackOf(if isPlayer then Vanilla("iron_sword") else Vanilla("crossbow")) &&
              r.value.translationKey == "ethology.trait.goal.aggressive" &&
              r.value.args == [EntityNameFromClass(h, registry, ClassOf(FieldValue(goal, TARGET_TYPE)))]
    ensures i.AGGRESSIVE_TARGET? && r.Some? ==>
              (r.value.id == Ethology("vanilla_aggro_player") <==>
               IsSubtype(h, ClassOf(FieldValue(goal, TARGET_TYPE)).value, PLAYER))
  {
    match i
    case TEMPT => TemptTrait(h, itemName, goal)
    case BREED => BreedTrait(h, registry, goal)
    case AVOID_ENTITY => AvoidTrait(h, registry, goal)
    case AGGRESSIVE_TARGET => AggressiveTrait(h, registry, goal)
    case _ => Some(UnconditionalTrait(i))
  }

  /** `TEMPT_INSPECTOR`: a tempt goal gives the temptable trait with its items' name. */
  function TemptTrait(h: Hierarchy, itemName: Item -> string, goal: Obj): (r: Option<Trait>)
    requires h.Valid()
    ensures r.Some? <==> IsSubtype(h, goal.cls, TEMPT_GOAL)
    ensures r.Some? ==>
              r.value.id == Ethology("vanilla_tempt") && r.value.icon == StackOf(WHEAT) && r.value.category == GOAL &&
              r.value.translationKey == "ethology.trait.goal.temptable" &&
              r.value.args == Args(FieldValue(goal, TEMPT_ITEMS), itemName)
  {
    if !IsSubtype(h, goal.cls, TEMPT_GOAL) then None
    else Some(Keyed(Ethology("vanilla_tempt"), WHEAT, "ethology.trait.goal.temptable",
                    Args(FieldValue(goal, TEMPT_ITEMS), itemName), GOAL))
  }

  /** `BREED_INSPECTOR`: a breed goal gives the breed trait naming its partner class. */
  function BreedTrait(h: Hierarchy, registry: EntityRegistry, goal: Obj): (r: Option<Trait>)
    requires h.Valid()
    ensures r.Some? <==> IsSubtype(h, goal.cls, BREED_GOAL)
    ensures r.Some? ==>
              r.value.id == Ethology("vanilla_breed") && r.value.icon == StackOf(Vanilla("heart_of_the_sea")) &&
              r.value.category == GOAL && r.value.translationKey == "ethology.trait.goal.breed_goal" &&
              r.value.args == [EntityNameFromClass(h, registry, ClassOf(FieldValue(goal, BREED_PARTNER)))]
  {
    if !IsSubtype(h, goal.cls, BREED_GOAL) then None
    else Some(Keyed(Ethology("vanilla_breed"), Vanilla("heart_of_the_sea"), "ethology.trait.goal.breed_goal",
                    [EntityNameFromClass(h, registry, ClassOf(FieldValue(goal, BREED_PARTNER)))], GOAL))
  }

  /** `AVOID_ENTITY_INSPECTOR`: an avoid goal gives the fearful trait naming the avoided class. */
  function AvoidTrait(h: Hierarchy, registry: EntityRegistry, goal: Obj): (r: Option<Trait>)
    requires h.Valid()
    ensures r.Some? <==> IsSubtype(h, goal.cls, AVOID_ENTITY_GOAL)
    ensures r.Some? ==>
              r.value.id == Ethology("vanilla_avoid") && r.value.icon == StackOf(BARRIER) && r.value.category == GOAL &&
              r.value.translationKey == "ethology.trait.goal.fearful" &&
              r.value.args == [EntityNameFromClass(h, registry, ClassOf(FieldValue(goal, AVOID_CLASS)))]
  {
    if !IsSubtype(h, goal.cls, AVOID_ENTITY_GOAL) then None
    else Some(Keyed(Ethology("vanilla_avoid"), BARRIER, "ethology.trait.goal.fearful",
                    [EntityNameFromClass(h, registry, ClassOf(FieldValue(goal, AVOID_CLASS)))], GOAL))
  }

  /**
   * The aggressive-target inspector: a nearest-attackable-target goal with a non-null
   * target type gives the aggressive trait, its player or mob variant by the target class.
   */
  function AggressiveTrait(h: Hierarchy, registry: EntityRegistry, goal: Obj): (r: Option<Trait>)
    requires h.Valid()
    ensures r.Some? <==> IsSubtype(h, goal.cls, NEAREST_ATTACKABLE_TARGET_GOAL) &&
                         ClassOf(FieldValue(goal, TARGET_TYPE)).Some?
    ensures r.Some? ==>
              var isPlayer := TargetIsPlayer(h, goal);
              r.value.id == (if isPlayer then Ethology("vanilla_aggro_player") else Ethology("vanilla_aggro_mob")) &&
              r.value.icon == StackOf(if isPlayer then Vanilla("iron_sword") else Vanilla("crossbow")) &&
              r.value.category == GOAL && r.value.translationKey == "ethology.trait.goal.aggressive" &&
              r.value.args == [EntityNameFromClass(h, registry, ClassOf(FieldValue(goal, TARGET_TYPE)))]
  {
    if !IsSubtype(h, goal.cls, NEAREST_ATTACKABLE_TARGET_GOAL) then None
    else
      var targetType :- ClassOf(FieldValue(goal, TARGET_TYPE));
      var isPlayer := IsSubtype(h, targetType, PLAYER);
      Some(Keyed(if isPlayer then Ethology("vanilla_aggro_player") else Ethology("vanilla_aggro_mob"),
                 if isPlayer then Vanilla("iron_sword") else Vanilla("crossbow"),
                 "ethology.trait.goal.aggressive",
                 [EntityNameFromClass(h, registry, Some(targetType))], GOAL))
  }

  /** The trait of an inspector that answers every goal: its table entry, without arguments. */
  function UnconditionalTrait(i: GoalInspector): (r: Trait)
    requires i.Unconditional()
    ensures r.id == InspectorId(i, false) && r.id == Ethology(UnconditionalParts(i).0)
    ensures r.icon == StackOf(UnconditionalParts(i).1) && r.translationKey == UnconditionalParts(i).2
    ensures r.args == [] && r.category == GOAL
  {
    var (path, icon, key) := UnconditionalParts(i);
    Keyed(Ethology(path), icon, key, [], GOAL)
  }

  /**
   * No two inspectors share a trait id, so the id check of `addCapability` never lets one
   * inspector's trait hide another's.
   */
  lemma InspectorIdsDistinct(h: Hierarchy, registry: EntityRegistry, itemName: Item -> string,
                             i: GoalInspector, j: GoalInspector, g1: Obj, g2: Obj)
    requires h.Valid() && i != j
    requires Inspect(h, registry, itemName, i, g1).Some? && Inspect(h, registry, itemName, j, g2).Some?
    ensures Inspect(h, registry, itemName, i, g1).value.id != Inspect(h, registry, itemName, j, g2).value.id
  {
    InspectorOfId(i, TargetIsPlayer(h, g1));
    InspectorOfId(j, TargetIsPlayer(h, g2));
  }

  /** Whether the goal's `targetType` is a player class; a null one is not. */
  predicate TargetIsPlayer(h: Hierarchy, goal: Obj)
    requires h.Valid()
  {
    match ClassOf(FieldValue(goal, TARGET_TYPE))
    case Some(c) => IsSubtype(h, c, PLAYER)
    case None => false
  }

  /** The id of inspector `i`'s trait; the aggressive one's depends on whether its target is a player. */
  function InspectorId(i: GoalInspector, playerTarget: bool): ResourceLocation {
    match i
    case TEMPT => Ethology("vanilla_tempt")
    case BREED => Ethology("vanilla_breed")
    case AVOID_ENTITY => Ethology("vanilla_avoid")
    case AGGRESSIVE_TARGET => if playerTarget then Ethology("vanilla_aggro_player") else Ethology("vanilla_aggro_mob")
    case _ => Ethology(UnconditionalParts(i).0)
  }

  /** The inspector whose trait has the id path `p`, if any. */
  function InspectorOfPath(p: string): Option<GoalInspector> {
    if p == "vanilla_tempt" then Some(TEMPT)
    else if p == "vanilla_breed" then Some(BREED)
    else if p == "vanilla_avoid" then Some(AVOID_ENTITY)
    else if p == "vanilla_stroll" then Some(RANDOM_STROLL)
    else if p == "vanilla_stroll_land" then Some(WATER_AVOIDING_STROLL)
    else if p == "vanilla_float" then Some(FLOAT)
    else if p == "vanilla_eat_block" then Some(EAT_BLOCK)
    else if p == "vanilla_open_door" then Some(OPEN_DOOR)
    else if p == "vanilla_break_door" then Some(BREAK_DOOR)
    else if p == "vanilla_sit" then Some(SIT)
    else if p == "vanilla_melee" then Some(MELEE_ATTACK)
    else if p == "vanilla_bow" then Some(RANGED_BOW)
    else if p == "vanilla_swell" then Some(SWELL)
    else if p == "vanilla_aggro_player" || p == "vanilla_aggro_mob" then Some(AGGRESSIVE_TARGET)
    else if p == "vanilla_hurt_by" then Some(HURT_BY_TARGET)
    else if p == "vanilla_defend_village" then Some(DEFEND_VILLAGE)
    else None
  }

  /** An inspector's trait id names that inspector. */
  lemma InspectorOfId(i: GoalInspector, playerTarget: bool)
    ensures InspectorOfPath(InspectorId(i, playerTarget).path) == Some(i)
  {
  }
}
