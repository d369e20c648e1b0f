/**
 * The goal-parser registry: parsers keyed by goal class and found for a goal by walking its
 * superclass chain, plus the three built-in parsers.  A parser turns a goal into (at most)
 * one titled trait and adds it to the info's title-deduplicated trait list.
 */
module GoalParserRegistry {
  import opened Wrappers
  import opened Classes
  import opened World
  import opened Traits
  import opened ScopedInfo
  import opened VanillaGoalInspectors

  datatype GoalParserKind = TEMPT_PARSER | AVOID_PARSER | NEAREST_ATTACKABLE_PARSER

  /** The parsers the registry starts with. */
  const DEFAULT_PARSERS: map<ClassName, GoalParserKind> :=
    map[TEMPT_GOAL := TEMPT_PARSER,
        AVOID_ENTITY_GOAL := AVOID_PARSER,
        NEAREST_ATTACKABLE_TARGET_GOAL := NEAREST_ATTACKABLE_PARSER]

  const RED_DYE: Item := Vanilla("red_dye")
  const CROSSBOW: Item := Vanilla("crossbow")

  /**
   * The trait parser `p` contributes for the goal object `goal`.  A null class field makes
   * the avoid and nearest-attackable parsers throw; that is `None`.
   */
  function ParserTrait(h: Hierarchy, p: GoalParserKind, goal: Obj): (r: Option<Trait>)
    requires h.Valid()
    ensures r.Some? ==> r.value.category == STAT && r.value.args == [] && r.value.id.namespace == ""
    ensures p.TEMPT_PARSER? ==> r.Some? && r.value.title == "Temptable"
    ensures p.TEMPT_PARSER? ==>
              var items := FieldValue(goal, TEMPT_ITEMS);
              r.value.icon == if items.IngredientV? && |items.stacks| > 0 then items.stacks[0] else StackOf(WHEAT)
    ensures p.AVOID_PARSER? ==> (r.Some? <==> ClassOf(FieldValue(goal, AVOID_CLASS)).Some?)
    ensures p.AVOID_PARSER? && r.Some? ==>
              r.value.title == "Fearful" &&
              r.value.description == "Flees from " + SimpleName(ClassOf(FieldValue(goal, AVOID_CLASS)).value)
    ensures p.NEAREST_ATTACKABLE_PARSER? ==> (r.Some? <==> ClassOf(FieldValue(goal, TARGET_TYPE)).Some?)
    ensures p.NEAREST_ATTACKABLE_PARSER? && r.Some? ==>
              (r.value.title == "Hostile" || r.value.title == "Hunter") &&
              (r.value.title == "Hostile" <==> IsSubtype(h, ClassOf(FieldValue(goal, TARGET_TYPE)).value, PLAYER))
  {
    match p
    case TEMPT_PARSER =>
      var items := FieldValue(goal, TEMPT_ITEMS);
      if items.IngredientV? && |items.stacks| > 0 then
        Some(Titled(items.stacks[0], "Temptable", "Follows players holding this."))
      else
        Some(Titled(StackOf(WHEAT), "Temptable", "Follows players holding food."))
    case AVOID_PARSER =>
      var scaredOf :- ClassOf(FieldValue(goal, AVOID_CLASS));
      Some(Titled(StackOf(BARRIER), "Fearful", "Flees from " + SimpleName(scaredOf)))
    case NEAREST_ATTACKABLE_PARSER =>
      var targetClass :- ClassOf(FieldValue(goal, TARGET_TYPE));
      if IsSubtype(h, targetClass, PLAYER) then
        Some(Titled(StackOf(RED_DYE), "Hostile", "Aggressive towards players."))
      else
        Some(Titled(StackOf(CROSSBOW), "Hunter", "Hunts " + SimpleName(targetClass) + "s."))
  }

  /** `addUniqueTrait`: adds `t` to the trait list unless a trait with its title is there. */
  method AddUniqueTrait(info: MobScopedInfo, t: Trait)
    modifies info`traits
    ensures info.traits == AddByTitle(old(info.traits), t)
  {
    if !HasTitle(info.traits, t.title) {
      info.AddTrait(t);
    }
  }

  /**
   * `parser.parse(goal, info)` for a built-in parser.  `ok` is false where the parser
   * throws, before it touches the info.
   */
  method Parse(h: Hierarchy, p: GoalParserKind, goal: Obj, info: MobScopedInfo) returns (ok: bool)
    requires h.Valid()
    modifies info`traits
    ensures ok <==> ParserTrait(h, p, goal).Some?
    ensures ok ==> info.traits == AddByTitle(old(info.traits), ParserTrait(h, p, goal).value)
    ensures !ok ==> info.traits == old(info.traits)
  {
    match p
    case TEMPT_PARSER =>
      var items := FieldValue(goal, TEMPT_ITEMS);
      if items.IngredientV? && |items.stacks| > 0 {
        AddUniqueTrait(info, Titled(items.stacks[0], "Temptable", "Follows players holding this."));
      } else {
        AddUniqueTrait(info, Titled(StackOf(WHEAT), "Temptable", "Follows players holding food."));
      }
      ok := true;
    case AVOID_PARSER =>
      var scaredOf := ClassOf(FieldValue(goal, AVOID_CLASS));
      if scaredOf.None? {
        return false;
      }
      AddUniqueTrait(info, Titled(StackOf(BARRIER), "Fearful", "Flees from " + SimpleName(scaredOf.value)));
      ok := true;
    case NEAREST_ATTACKABLE_PARSER =>
      var targetClass := ClassOf(FieldValue(goal, TARGET_TYPE));
      if targetClass.None? {
        return false;
      }
      if IsSubtype(h, targetClass.value, PLAYER) {
        AddUniqueTrait(info, Titled(StackOf(RED_DYE), "Hostile", "Aggressive towards players."));
      } else {
        AddUniqueTrait(info, Titled(StackOf(CROSSBOW), "Hunter", "Hunts " + SimpleName(targetClass.value) + "s."));
      }
      ok := true;
  }

  /** A parser registered for the goal's own class wins over any registered for a superclass. */
  lemma OwnClassWins(h: Hierarchy, m: map<ClassName, GoalParserKind>, c: ClassName, p: GoalParserKind)
    requires h.Valid() && c != OBJECT
    ensures MostDerived(h, c, m[c := p]) == Some(p)
  {
  }

  /**
   * With the built-in parsers only, a goal class gets a parser exactly when one of the three
   * parsed goal classes is on its superclass chain.
   */
  lemma DefaultParserFound(h: Hierarchy, c: ClassName)
    requires h.Valid()
    ensures MostDerived(h, c, DEFAULT_PARSERS).Some? <==>
              TEMPT_GOAL in Chain(h, c) || AVOID_ENTITY_GOAL in Chain(h, c) || NEAREST_ATTACKABLE_TARGET_GOAL in Chain(h, c)
  {
    var ch := Chain(h, c);
    if MostDerived(h, c, DEFAULT_PARSERS).None? {
      forall i | 0 <= i < |ch| ensures ch[i] != TEMPT_GOAL && ch[i] != AVOID_ENTITY_GOAL && ch[i] != NEAREST_ATTACKABLE_TARGET_GOAL {
        assert ch[i] !in DEFAULT_PARSERS;
      }
    }
  }

  class GoalParserRegistry {
    var registry: map<ClassName, GoalParserKind>

    /** The static initialiser: the three built-in parsers. */
    constructor()
      ensures registry == DEFAULT_PARSERS
    {
      registry := DEFAULT_PARSERS;
    }

    /** `register` overwrites any parser registered for exactly this class. */
    method Register(goalClass: ClassName, p: GoalParserKind)
      modifies this`registry
      ensures registry == old(registry)[goalClass := p]
    {
      registry := registry[goalClass := p];
    }

    /**
     * `getParser`: the parser of the most-derived class on the goal's superclass chain,
     * `Object` excluded, that has one.
     */
    method GetParser(h: Hierarchy, goal: Obj) returns (r: Option<GoalParserKind>)
      requires h.Valid()
      ensures r == MostDerived(h, goal.cls, registry)
      ensures r.None? <==> forall i | 0 <= i < |Chain(h, goal.cls)| :: Chain(h, goal.cls)[i] !in registry
    {
      r := WalkMostDerived(h, goal.cls, registry);
      assert r == FirstKeyed(Chain(h, goal.cls), registry);
    }
  }
}
