/**
 * The engine-side values the core reads: items and stacks, field values of goal objects,
 * goals and their wrappers, brains, entity types and living entities.  They are plain data
 * here; the engine computations behind them (registries, localisation, entity creation)
 * enter the model as inputs.
 */
module World {
  import opened Wrappers
  import opened Location
  import opened Classes

  // ---- class names the core tests against -------------------------------------------

  const LIVING_ENTITY: ClassName := "net.minecraft.world.entity.LivingEntity"
  const MOB: ClassName := "net.minecraft.world.entity.Mob"
  const PATHFINDER_MOB: ClassName := "net.minecraft.world.entity.PathfinderMob"
  const PLAYER: ClassName := "net.minecraft.world.entity.player.Player"
  const FLYING_ANIMAL: ClassName := "net.minecraft.world.entity.animal.FlyingAnimal"
  const WATER_ANIMAL: ClassName := "net.minecraft.world.entity.animal.WaterAnimal"
  const ANIMAL: ClassName := "net.minecraft.world.entity.animal.Animal"
  const AMBIENT_CREATURE: ClassName := "net.minecraft.world.entity.ambient.AmbientCreature"
  const ENEMY: ClassName := "net.minecraft.world.entity.monster.Enemy"
  const ARMOR_STAND: ClassName := "net.minecraft.world.entity.decoration.ArmorStand"
  const WATER_BOUND_NAVIGATION: ClassName := "net.minecraft.world.entity.ai.navigation.WaterBoundPathNavigation"
  const AMPHIBIOUS_NAVIGATION: ClassName := "net.minecraft.world.entity.ai.navigation.AmphibiousPathNavigation"
  const WRAPPED_GOAL: ClassName := "net.minecraft.world.entity.ai.goal.WrappedGoal"
  const TEMPT_GOAL: ClassName := "net.minecraft.world.entity.ai.goal.TemptGoal"
  const BREED_GOAL: ClassName := "net.minecraft.world.entity.ai.goal.BreedGoal"
  const AVOID_ENTITY_GOAL: ClassName := "net.minecraft.world.entity.ai.goal.AvoidEntityGoal"
  const NEAREST_ATTACKABLE_TARGET_GOAL: ClassName := "net.minecraft.world.entity.ai.goal.target.NearestAttackableTargetGoal"
  const HURT_BY_TARGET_GOAL: ClassName := "net.minecraft.world.entity.ai.goal.target.HurtByTargetGoal"
  const DEFEND_VILLAGE_TARGET_GOAL: ClassName := "net.minecraft.world.entity.ai.goal.target.DefendVillageTargetGoal"
  const INGREDIENT: ClassName := "net.minecraft.world.item.crafting.Ingredient"
  const ITEM_STACK: ClassName := "net.minecraft.world.item.ItemStack"
  const ITEM: ClassName := "net.minecraft.world.item.Item"
  const JAVA_CLASS: ClassName := "java.lang.Class"
  const GLOBAL_POS: ClassName := "net.minecraft.core.GlobalPos"
  const JAVA_UUID: ClassName := "java.util.UUID"

  // ---- items ---------------------------------------------------------------------------

  /** An item is identified by its registry key. */
  type Item = ResourceLocation

  function Vanilla(path: string): ResourceLocation {
    ResourceLocation(DEFAULT_NAMESPACE, path)
  }

  const AIR: Item := Vanilla("air")
  const BARRIER: Item := Vanilla("barrier")
  const WHEAT: Item := Vanilla("wheat")

  datatype ItemStack = ItemStack(item: Item, count: int) {
    /** `ItemStack.isEmpty()`: air, or no items. */
    predicate IsEmpty() {
      item == AIR || count <= 0
    }
  }

  /** `new ItemStack(item)`. */
  function StackOf(item: Item): (r: ItemStack)
    ensures r.item == item && (r.IsEmpty() <==> item == AIR)
  {
    ItemStack(item, 1)
  }

  // ---- objects and field values -----------------------------------------------------------

  /** A field is named by the class that declares it and its name. */
  datatype FieldRef = FieldRef(owner: ClassName, name: string)

  /** A value held in an object field. */
  datatype Value =
    | Null
    | IngredientV(stacks: seq<ItemStack>)   // an Ingredient; `getItems()` is `stacks`
    | StackV(stack: ItemStack)
    | ItemV(item: Item)
    | ClassV(cls: ClassName)                // a `Class<?>` object
    | PosV(x: int, y: int, z: int)          // a GlobalPos, by its block position
    | UuidV(uuid: Uuid)
    | OtherV(cls: ClassName)                // any other object, by its runtime class

  /** `value.getClass()` for a non-null value. */
  function RuntimeClass(v: Value): ClassName
    requires !v.Null?
  {
    match v
    case IngredientV(_) => INGREDIENT
    case StackV(_) => ITEM_STACK
    case ItemV(_) => ITEM
    case ClassV(_) => JAVA_CLASS
    case PosV(_, _, _) => GLOBAL_POS
    case UuidV(_) => JAVA_UUID
    case OtherV(c) => c
  }

  /** `type.isInstance(v)`. */
  predicate IsInstance(h: Hierarchy, v: Value, t: ClassName)
    requires h.Valid()
  {
    !v.Null? && IsSubtype(h, RuntimeClass(v), t)
  }

  /**
   * An object: its runtime class and the values of its fields.  A field missing from
   * `values` is one whose reflective read fails.
   */
  datatype Obj = Obj(cls: ClassName, values: map<FieldRef, Value>)

  /** A reflective `field.get(target)`; `None` is a read that throws. */
  function ReadField(o: Obj, f: FieldRef): Option<Value> {
    if f in o.values then Some(o.values[f]) else None
  }

  /** A direct (access-transformed) field access; a field without a recorded value reads as null. */
  function FieldValue(o: Obj, f: FieldRef): Value {
    if f in o.values then o.values[f] else Null
  }

  // ---- goals -----------------------------------------------------------------------------

  /** A goal: either a `WrappedGoal` around another goal, or a plain goal object. */
  datatype Goal =
    | Wrapper(inner: Goal, running: bool)
    | Plain(obj: Obj)
  {
    function Class(): ClassName {
      if Wrapper? then WRAPPED_GOAL else obj.cls
    }
  }

  /** The entries of a goal selector are always wrappers. */
  type WrappedGoal = g: Goal | g.Wrapper? witness Wrapper(Plain(Obj(OBJECT, map[])), false)

  // ---- brains ----------------------------------------------------------------------------

  /** One entry of a brain's memory map: the memory type's registry key and its current value. */
  datatype Memory = Memory(key: ResourceLocation, value: Option<Value>)

  /**
   * A brain, by the registry keys of its sensor types, its memory entries, and the
   * activity keys of each priority map of its available behaviours, in iteration order.
   */
  datatype Brain = Brain(sensors: seq<ResourceLocation>, memories: seq<Memory>,
                         behaviorsByPriority: seq<seq<ResourceLocation>>)

  // ---- entity types and entities ------------------------------------------------------------

  datatype MobCategory = MONSTER | CREATURE | AMBIENT | AXOLOTLS | UNDERGROUND_WATER_CREATURE
                       | WATER_CREATURE | WATER_AMBIENT | MISC

  /**
   * A registered entity type: its key, whether it can be summoned, whether it carries the
   * mod's no-analysis tag, its category, whether it has default attributes, its localised
   * description and its base class.
   */
  datatype EntityType = EntityType(key: ResourceLocation, canSummon: bool, noAnalysis: bool,
                                   category: MobCategory, hasDefaultAttributes: bool,
                                   description: string, baseClass: ClassName)

  const PIG_KEY: ResourceLocation := Vanilla("pig")
  const ARMOR_STAND_KEY: ResourceLocation := Vanilla("armor_stand")
  const GIANT_KEY: ResourceLocation := Vanilla("giant")

  /** The entity-type registry in its iteration order; unknown keys map to the default (pig) entry. */
  datatype EntityRegistry = EntityRegistry(types: seq<EntityType>, defaultType: EntityType) {
    /** `ENTITY_TYPE.get(key)`. */
    function Get(key: ResourceLocation): (r: EntityType)
      ensures r.key == key || r == defaultType
    {
      GetIn(types, key, defaultType)
    }
  }

  function GetIn(ts: seq<EntityType>, key: ResourceLocation, dflt: EntityType): (r: EntityType)
    ensures r.key == key || r == dflt
    ensures (exists i | 0 <= i < |ts| :: ts[i].key == key) ==> r.key == key && r in ts
  {
    if ts == [] then dflt
    else if ts[0].key == key then ts[0]
    else GetIn(ts[1..], key, dflt)
  }

  datatype Attribute = MAX_HEALTH | ATTACK_DAMAGE | MOVEMENT_SPEED | ARMOR

  /**
   * A living entity: its UUID, type, runtime class, the runtime class of its navigation,
   * the attributes it has with their current values, its two goal selectors, its brain,
   * and whether it can breathe underwater.
   */
  datatype LivingEntity = LivingEntity(
    uuid: Uuid, etype: EntityType, cls: ClassName, navigation: ClassName,
    attributes: map<Attribute, real>,
    goalSelector: seq<WrappedGoal>, targetSelector: seq<WrappedGoal>,
    brain: Brain, canBreatheUnderwater: bool)

  /** What `EntityType.create(level)` produced. */
  datatype Created = Throws | NullEntity | NonLiving | Living(entity: LivingEntity)
}
