/**
 * The fallback goal inspector: it looks into an unknown goal object by reflection, first
 * for the items it reacts to, then for the living-entity classes it targets, and names at
 * most three of them.
 */
module GenericInspector {
  import opened Wrappers
  import opened Location
  import opened Classes
  import opened World
  import opened Traits
  import opened Reflection
  import Text

  const GENERIC_INTERACT: ResourceLocation := ResourceLocation(MODID, "generic_interact")
  const GENERIC_TARGET: ResourceLocation := ResourceLocation(MODID, "generic_target")
  const SPYGLASS: Item := Vanilla("spyglass")
  const TARGET_BLOCK: Item := Vanilla("target")
  const MAX_ARGS := 3

  /** No element occurs twice. */
  predicate NoDuplicates(s: seq<string>) {
    forall i, j | 0 <= i < j < |s| :: s[i] != s[j]
  }

  /** The index of the first occurrence of `x` in `s`. */
  function FirstOccurrence(s: seq<string>, x: string): (r: nat)
    requires x in s
    ensures r < |s| && s[r] == x
    ensures forall k | 0 <= k < r :: s[k] != x
  {
    var init := s[..|s| - 1];
    if x in init then FirstOccurrence(init, x) else |s| - 1
  }

  /**
   * `stream().distinct()`: the elements of `s`, each once, in the order of their first
   * occurrences.  The three properties together determine the result.
   */
  function Distinct(s: seq<string>): (r: seq<string>)
    ensures NoDuplicates(r)
    ensures forall x :: x in r <==> x in s
    ensures forall i, j | 0 <= i < j < |r| :: FirstOccurrence(s, r[i]) < FirstOccurrence(s, r[j])
    ensures |r| <= |s|
  {
    if s == [] then []
    else
      var d := Distinct(s[..|s| - 1]);
      DistinctSnoc(s, d);
      if s[|s| - 1] in d then d else d + [s[|s| - 1]]
  }

  /** One more element keeps the three properties of `Distinct`. */
  lemma DistinctSnoc(s: seq<string>, d: seq<string>)
    requires s != []
    requires NoDuplicates(d) && forall y :: y in d <==> y in s[..|s| - 1]
    requires forall i, j | 0 <= i < j < |d| && d[i] in s[..|s| - 1] && d[j] in s[..|s| - 1] ::
               FirstOccurrence(s[..|s| - 1], d[i]) < FirstOccurrence(s[..|s| - 1], d[j])
    ensures var r := if s[|s| - 1] in d then d else d + [s[|s| - 1]];
            NoDuplicates(r) && (forall y :: y in r <==> y in s) &&
            forall i, j | 0 <= i < j < |r| && r[i] in s && r[j] in s :: FirstOccurrence(s, r[i]) < FirstOccurrence(s, r[j])
  {
    var init, x := s[..|s| - 1], s[|s| - 1];
    assert s == init + [x];
    forall y | y in init ensures FirstOccurrence(s, y) == FirstOccurrence(init, y) < |s| - 1 {
      FirstOccurrenceInInit(s, y);
    }
  }

  /** An element of all but the last position first occurs where it first occurs there. */
  lemma FirstOccurrenceInInit(s: seq<string>, y: string)
    requires s != [] && y in s[..|s| - 1]
    ensures FirstOccurrence(s, y) == FirstOccurrence(s[..|s| - 1], y) < |s| - 1
  {
  }

  function Min(a: int, b: int): int {
    if a <= b then a else b
  }

  /** `stream().limit(n)`. */
  function Take(s: seq<string>, n: nat): (r: seq<string>)
    ensures |r| <= n && r <= s
    ensures |s| >= n ==> |r| == n
    ensures |s| < n ==> r == s
  {
    if |s| <= n then s else s[..n]
  }

  /** The names a list of reflected ingredients contributes: the first stack of each non-empty one. */
  function IngredientNames(vals: seq<Value>, itemName: Item -> string): seq<string> {
    if vals == [] then []
    else
      var v := vals[|vals| - 1];
      IngredientNames(vals[..|vals| - 1], itemName) +
      (if v.IngredientV? && |v.stacks| > 0 then [itemName(v.stacks[0].item)] else [])
  }

  /** The names a list of reflected item stacks contributes: each non-empty stack. */
  function StackNames(vals: seq<Value>, itemName: Item -> string): seq<string> {
    if vals == [] then []
    else
      var v := vals[|vals| - 1];
      StackNames(vals[..|vals| - 1], itemName) +
      (if v.StackV? && !v.stack.IsEmpty() then [itemName(v.stack.item)] else [])
  }

  /** The names a list of reflected items contributes: each item other than air. */
  function ItemNames(vals: seq<Value>, itemName: Item -> string): seq<string> {
    if vals == [] then []
    else
      var v := vals[|vals| - 1];
      ItemNames(vals[..|vals| - 1], itemName) + (if v.ItemV? && v.item != AIR then [itemName(v.item)] else [])
  }

  /** The first registered entity type whose base class is a subtype of `c`. */
  function FirstTypeAssignableTo(h: Hierarchy, types: seq<EntityType>, c: ClassName): (r: Option<EntityType>)
    requires h.Valid()
    ensures r.None? <==> forall i | 0 <= i < |types| :: !IsSubtype(h, types[i].baseClass, c)
    ensures r.Some? ==> exists i | 0 <= i < |types| :: types[i] == r.value && IsSubtype(h, r.value.baseClass, c) &&
                          forall j | 0 <= j < i :: !IsSubtype(h, types[j].baseClass, c)
  {
    if types == [] then None
    else if IsSubtype(h, types[0].baseClass, c) then Some(types[0])
    else
      var r := FirstTypeAssignableTo(h, types[1..], c);
      assert forall i | 1 <= i < |types| :: types[i] == types[1..][i - 1];
      r
  }

  /**
   * `getEntityName`: the description of the first registered type whose base class fits
   * `c`, otherwise the simple class name with every "Entity" removed.
   */
  function EntityName(h: Hierarchy, registry: EntityRegistry, c: ClassName): (r: string)
    requires h.Valid()
    ensures FirstTypeAssignableTo(h, registry.types, c).None? ==> r == Text.RemoveAll(SimpleName(c), "Entity")
    ensures FirstTypeAssignableTo(h, registry.types, c).Some? ==>
              r == FirstTypeAssignableTo(h, registry.types, c).value.description
  {
    match FirstTypeAssignableTo(h, registry.types, c)
    case Some(t) => t.description
    case None => Text.RemoveAll(SimpleName(c), "Entity")
  }

  /** The names a list of reflected classes contributes: one per living-entity class. */
  function EntityNames(h: Hierarchy, registry: EntityRegistry, vals: seq<Value>): (r: seq<string>)
    requires h.Valid()
    ensures |r| <= |vals|
  {
    if vals == [] then []
    else
      var v := vals[|vals| - 1];
      EntityNames(h, registry, vals[..|vals| - 1]) +
      (if v.ClassV? && IsSubtype(h, v.cls, LIVING_ENTITY) then [EntityName(h, registry, v.cls)] else [])
  }

  /** Every entity name comes from a reflected class that is a living entity. */
  lemma {:induction false} EntityNamesFromLivingClasses(h: Hierarchy, registry: EntityRegistry, vals: seq<Value>, k: nat)
    requires h.Valid() && k < |EntityNames(h, registry, vals)|
    ensures exists i | 0 <= i < |vals| :: vals[i].ClassV? && IsSubtype(h, vals[i].cls, LIVING_ENTITY) &&
              EntityNames(h, registry, vals)[k] == EntityName(h, registry, vals[i].cls)
  {
    var init := vals[..|vals| - 1];
    if k < |EntityNames(h, registry, init)| {
      EntityNamesFromLivingClasses(h, registry, init, k);
      var i :| 0 <= i < |init| && init[i].ClassV? && IsSubtype(h, init[i].cls, LIVING_ENTITY) &&
               EntityNames(h, registry, init)[k] == EntityName(h, registry, init[i].cls);
      assert vals[i] == init[i];
    } else {
      EntityNamesLast(h, registry, vals, k);
    }
  }

  /** A name past those of the earlier fields is the last field's. */
  lemma EntityNamesLast(h: Hierarchy, registry: EntityRegistry, vals: seq<Value>, k: nat)
    requires h.Valid() && vals != [] && |EntityNames(h, registry, vals[..|vals| - 1])| <= k < |EntityNames(h, registry, vals)|
    ensures vals[|vals| - 1].ClassV? && IsSubtype(h, vals[|vals| - 1].cls, LIVING_ENTITY)
    ensures EntityNames(h, registry, vals)[k] == EntityName(h, registry, vals[|vals| - 1].cls)
  {
  }

  /** The names of the first `n` values are a prefix of the names of all of them. */
  lemma {:induction false} EntityNamesPrefix(h: Hierarchy, registry: EntityRegistry, vals: seq<Value>, n: nat)
    requires h.Valid() && n <= |vals|
    ensures EntityNames(h, registry, vals[..n]) <= EntityNames(h, registry, vals)
    decreases |vals|
  {
    if n < |vals| {
      var init := vals[..|vals| - 1];
      EntityNamesPrefix(h, registry, init, n);
      assert init[..n] == vals[..n];
    } else {
      assert vals[..n] == vals;
    }
  }

  /**
   * Every reflected class that is a living entity contributes its name, right after the
   * names of the fields before it: the names follow field order.
   */
  lemma EntityNamesComplete(h: Hierarchy, registry: EntityRegistry, vals: seq<Value>, i: nat)
    requires h.Valid() && i < |vals| && vals[i].ClassV? && IsSubtype(h, vals[i].cls, LIVING_ENTITY)
    ensures |EntityNames(h, registry, vals[..i])| < |EntityNames(h, registry, vals)|
    ensures EntityNames(h, registry, vals)[|EntityNames(h, registry, vals[..i])|] == EntityName(h, registry, vals[i].cls)
  {
    assert vals[..i + 1][..i] == vals[..i];
    assert EntityNames(h, registry, vals[..i + 1]) ==
           EntityNames(h, registry, vals[..i]) + [EntityName(h, registry, vals[i].cls)];
    EntityNamesPrefix(h, registry, vals, i + 1);
  }

  /** Every name the item scan collects before `distinct`, in scan order. */
  function RawItemNames(h: Hierarchy, goal: Obj, itemName: Item -> string): seq<string>
    requires h.Valid()
  {
    IngredientNames(AllOfType(h, Some(goal), INGREDIENT), itemName) +
    StackNames(AllOfType(h, Some(goal), ITEM_STACK), itemName) +
    ItemNames(AllOfType(h, Some(goal), ITEM), itemName)
  }

  /**
   * `scanForItems`: the first three distinct item names in order of first occurrence,
   * ingredients first, then stacks, then items.
   */
  function ItemArgs(h: Hierarchy, goal: Obj, itemName: Item -> string): (r: seq<string>)
    requires h.Valid()
    ensures |r| <= MAX_ARGS && NoDuplicates(r)
    ensures r <= Distinct(RawItemNames(h, goal, itemName))
    ensures |r| == Min(MAX_ARGS, |Distinct(RawItemNames(h, goal, itemName))|)
    ensures forall x | x in r :: x in RawItemNames(h, goal, itemName)
    ensures r == [] <==> RawItemNames(h, goal, itemName) == []
  {
    var d := Distinct(RawItemNames(h, goal, itemName));
    var r := Take(d, MAX_ARGS);
    assert r == [] ==> d == [];
    assert d != [] ==> d[0] in RawItemNames(h, goal, itemName);
    r
  }

  /**
   * `scanForEntities`: the first three distinct names of living-entity classes held by the
   * goal, in order of first occurrence.
   */
  function EntityArgs(h: Hierarchy, registry: EntityRegistry, goal: Obj): (r: seq<string>)
    requires h.Valid()
    ensures |r| <= MAX_ARGS && NoDuplicates(r)
    ensures r <= Distinct(EntityNames(h, registry, AllOfType(h, Some(goal), JAVA_CLASS)))
    ensures |r| == Min(MAX_ARGS, |Distinct(EntityNames(h, registry, AllOfType(h, Some(goal), JAVA_CLASS)))|)
    ensures forall x | x in r :: x in EntityNames(h, registry, AllOfType(h, Some(goal), JAVA_CLASS))
    ensures r == [] <==> EntityNames(h, registry, AllOfType(h, Some(goal), JAVA_CLASS)) == []
  {
    var raw := EntityNames(h, registry, AllOfType(h, Some(goal), JAVA_CLASS));
    var d := Distinct(raw);
    var r := Take(d, MAX_ARGS);
    assert r == [] ==> d == [];
    assert d != [] ==> d[0] in raw;
    r
  }

  /**
   * The inspector's decision: an item trait when any item name is found, otherwise an entity
   * trait when any living-entity class is found, otherwise nothing.
   */
  function GenericInspection(h: Hierarchy, registry: EntityRegistry, itemName: Item -> string, goal: Obj): (r: Option<Trait>)
    requires h.Valid()
    ensures r.None? <==> ItemArgs(h, goal, itemName) == [] && EntityArgs(h, registry, goal) == []
    ensures ItemArgs(h, goal, itemName) != [] ==>
              r.Some? && r.value.id == GENERIC_INTERACT &&
              r.value.args == ItemArgs(h, goal, itemName) && r.value.icon == StackOf(SPYGLASS)
    ensures ItemArgs(h, goal, itemName) == [] && r.Some? ==>
              r.value.id == GENERIC_TARGET &&
              r.value.args == EntityArgs(h, registry, goal) && r.value.icon == StackOf(TARGET_BLOCK)
    ensures r.Some? ==> r.value.category == GOAL && 1 <= |r.value.args| <= MAX_ARGS
  {
    var itemArgs := ItemArgs(h, goal, itemName);
    if itemArgs != [] then
      Some(Keyed(GENERIC_INTERACT, SPYGLASS, "ethology.trait.goal.generic_interact", itemArgs, GOAL))
    else
      var entityArgs := EntityArgs(h, registry, goal);
      if entityArgs != [] then
        Some(Keyed(GENERIC_TARGET, TARGET_BLOCK, "ethology.trait.goal.generic_target", entityArgs, GOAL))
      else None
  }

  /** `scanForItems`, as the source runs it: three reflective reads, each followed by a collecting loop. */
  method ScanForItems(scanner: FieldScanner, goal: Obj, itemName: Item -> string) returns (names: seq<string>)
    requires scanner.Valid()
    modifies scanner`cache
    ensures scanner.Valid()
    ensures names == ItemArgs(scanner.h, goal, itemName)
  {
    var h := scanner.h;
    var all: seq<string> := [];
    var ingredients := scanner.GetAllFieldsOfType(Some(goal), INGREDIENT);
    var i := 0;
    while i < |ingredients|
      invariant 0 <= i <= |ingredients|
      invariant all == IngredientNames(ingredients[..i], itemName)
    {
      assert ingredients[..i + 1][..i] == ingredients[..i];
      var v := ingredients[i];
      if v.IngredientV? && |v.stacks| > 0 {
        all := all + [itemName(v.stacks[0].item)];
      }
      i := i + 1;
    }
    assert ingredients[..i] == ingredients;
    ghost var afterIngredients := all;

    var stacks := scanner.GetAllFieldsOfType(Some(goal), ITEM_STACK);
    i := 0;
    while i < |stacks|
      invariant 0 <= i <= |stacks|
      invariant all == afterIngredients + StackNames(stacks[..i], itemName)
    {
      assert stacks[..i + 1][..i] == stacks[..i];
      var v := stacks[i];
      if v.StackV? && !v.stack.IsEmpty() {
        all := all + [itemName(v.stack.item)];
      }
      i := i + 1;
    }
    assert stacks[..i] == stacks;
    ghost var afterStacks := all;

    var items := scanner.GetAllFieldsOfType(Some(goal), ITEM);
    i := 0;
    while i < |items|
      invariant 0 <= i <= |items|
      invariant all == afterStacks + ItemNames(items[..i], itemName)
    {
      assert items[..i + 1][..i] == items[..i];
      var v := items[i];
      if v.ItemV? && v.item != AIR {
        all := all + [itemName(v.item)];
      }
      i := i + 1;
    }
    assert items[..i] == items;
    names := Take(Distinct(all), MAX_ARGS);
  }

  /** The collecting loop of `scanForEntities`: a name for each living-entity class, in field order. */
  method CollectEntityNames(h: Hierarchy, registry: EntityRegistry, classes: seq<Value>) returns (all: seq<string>)
    requires h.Valid()
    ensures all == EntityNames(h, registry, classes)
  {
    all := [];
    var i := 0;
    while i < |classes|
      invariant 0 <= i <= |classes|
      invariant all == EntityNames(h, registry, classes[..i])
    {
      assert classes[..i + 1][..i] == classes[..i];
      var v := classes[i];
      if v.ClassV? && IsSubtype(h, v.cls, LIVING_ENTITY) {
        all := all + [EntityName(h, registry, v.cls)];
      }
      i := i + 1;
    }
    assert classes[..i] == classes;
  }

  /** `scanForEntities`: one reflective read of the goal's `Class` fields and a collecting loop. */
  method ScanForEntities(scanner: FieldScanner, registry: EntityRegistry, goal: Obj) returns (names: seq<string>)
    requires scanner.Valid()
    modifies scanner`cache
    ensures scanner.Valid()
    ensures names == EntityArgs(scanner.h, registry, goal)
  {
    var classes := scanner.GetAllFieldsOfType(Some(goal), JAVA_CLASS);
    var all := CollectEntityNames(scanner.h, registry, classes);
    names := Take(Distinct(all), MAX_ARGS);
  }

  /** `GenericGoalInspector.INSTANCE`: the entity scan runs only when the item scan found nothing. */
  method Inspect(scanner: FieldScanner, registry: EntityRegistry, itemName: Item -> string, goal: Obj)
    returns (r: Option<Trait>)
    requires scanner.Valid()
    modifies scanner`cache
    ensures scanner.Valid()
    ensures r == GenericInspection(scanner.h, registry, itemName, goal)
  {
    var itemArgs := ScanForItems(scanner, goal, itemName);
    if itemArgs != [] {
      return Some(Keyed(GENERIC_INTERACT, SPYGLASS, "ethology.trait.goal.generic_interact", itemArgs, GOAL));
    }
    var entityArgs := ScanForEntities(scanner, registry, goal);
    if entityArgs != [] {
      return Some(Keyed(GENERIC_TARGET, TARGET_BLOCK, "ethology.trait.goal.generic_target", entityArgs, GOAL));
    }
    return None;
  }
}
