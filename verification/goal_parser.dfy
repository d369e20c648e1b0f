/**
 * The goal pass: every goal of a mob's selectors is unwrapped; the catalog trait of its class
 * (or, in debug mode, a placeholder) is fed to the info's capability or current-state list,
 * and the goal's registered parser, if any, adds its titled trait to the trait list.
 * A parser that throws ends the pass; that is the `None` of the specification functions.
 */
module GoalParser {
  import opened Wrappers
  import opened Location
  import opened Classes
  import opened World
  import opened Traits
  import opened ScopedInfo
  import opened TraitManager
  import opened GoalParserRegistry
  import Text

  /** What a goal pass consults: the class graph, the catalog's goal table, the parsers and the debug switch. */
  datatype GoalEnv = GoalEnv(h: Hierarchy, goals: map<ClassName, Trait>,
                             parsers: map<ClassName, GoalParserKind>, debug: bool)

  /** The environment the running objects make up. */
  function Env(h: Hierarchy, manager: EthologyTraitManager, registry: GoalParserRegistry, debug: bool): GoalEnv
    reads manager, registry
  {
    GoalEnv(h, manager.goalTraits, registry.registry, debug)
  }

  // ---- one goal -----------------------------------------------------------------------------

  /** The goal object below every wrapper layer. */
  function Innermost(g: Goal): Obj {
    match g
    case Wrapper(inner, _) => Innermost(inner)
    case Plain(o) => o
  }

  /** `unwrap`: strips wrapper layers until a goal that is not a wrapper remains. */
  method Unwrap(g: Goal) returns (r: Obj)
    ensures Plain(r) == g || (g.Wrapper? && r == Innermost(g.inner))
    ensures r == Innermost(g)
  {
    var current := g;
    while current.Wrapper?
      invariant Innermost(current) == Innermost(g)
      invariant current == g || (g.Wrapper? && Innermost(current) == Innermost(g.inner))
      decreases current
    {
      current := current.inner;
    }
    r := current.obj;
  }

  /** The placeholder for an uncatalogued goal class: `ethology:debug_<simple name, lower-cased>`. */
  function DebugTrait(cls: ClassName): (r: Trait)
    ensures r.id.namespace == MODID && r.category == GOAL && r.icon.item == BARRIER
    ensures r.id.path == "debug_" + Text.ToLower(SimpleName(cls))
  {
    Keyed(ResourceLocation(MODID, "debug_" + Text.ToLower(SimpleName(cls))), BARRIER,
          "ethology.trait.goal.unknown", [], GOAL)
  }

  /** The trait the consumer receives for the goal object `o`: the catalog's, else the debug placeholder. */
  function OwnTrait(env: GoalEnv, o: Obj): Option<Trait>
    requires env.h.Valid()
  {
    match MostDerived(env.h, o.cls, env.goals)
    case Some(t) => Some(t)
    case None => if env.debug then Some(DebugTrait(o.cls)) else None
  }

  /** The consumer: `addCurrentState` when `toStates`, else `addCapability`. */
  function Consume(v: InfoValue, t: Trait, toStates: bool): InfoValue {
    if toStates then v.(currentStates := AddById(v.currentStates, t))
    else v.(capabilities := AddById(v.capabilities, t))
  }

  /** A registered parser that throws on this goal. */
  predicate ParserFails(env: GoalEnv, g: Goal)
    requires env.h.Valid()
  {
    var o := Innermost(g);
    MostDerived(env.h, o.cls, env.parsers).Some? &&
    ParserTrait(env.h, MostDerived(env.h, o.cls, env.parsers).value, o).None?
  }

  /** `parseGoal` on the info value `v`. */
  function ParseGoalSpec(env: GoalEnv, g: Goal, v: InfoValue, toStates: bool): Option<InfoValue>
    requires env.h.Valid()
  {
    var o := Innermost(g);
    var v1 := match OwnTrait(env, o)
      case Some(t) => Consume(v, t, toStates)
      case None => v;
    match MostDerived(env.h, o.cls, env.parsers)
    case None => Some(v1)
    case Some(p) =>
      var t :- ParserTrait(env.h, p, o);
      Some(v1.(traits := AddByTitle(v1.traits, t)))
  }

  // ---- many goals ---------------------------------------------------------------------------

  /** `parseGoal` on every goal of `gs`, in order, stopping at a parser that throws. */
  function ParseAll(env: GoalEnv, gs: seq<Goal>, v: InfoValue, toStates: bool): Option<InfoValue>
    requires env.h.Valid()
  {
    if gs == [] then Some(v)
    else
      var before :- ParseAll(env, gs[..|gs| - 1], v, toStates);
      ParseGoalSpec(env, gs[|gs| - 1], before, toStates)
  }

  /** What the consumer receives for one goal: its own trait, if any. */
  function OwnOf(env: GoalEnv, g: Goal): (r: seq<Trait>)
    requires env.h.Valid()
    ensures |r| <= 1
  {
    match OwnTrait(env, Innermost(g))
    case Some(t) => [t]
    case None => []
  }

  /** What the parser of one goal contributes, if it has one and it does not throw. */
  function ParsedOf(env: GoalEnv, g: Goal): (r: seq<Trait>)
    requires env.h.Valid()
    ensures |r| <= 1
  {
    var o := Innermost(g);
    match MostDerived(env.h, o.cls, env.parsers)
    case Some(p) => (if ParserTrait(env.h, p, o).Some? then [ParserTrait(env.h, p, o).value] else [])
    case None => []
  }

  /** The traits the consumer receives for `gs`, in order. */
  function OwnTraits(env: GoalEnv, gs: seq<Goal>): seq<Trait>
    requires env.h.Valid()
  {
    if gs == [] then [] else OwnTraits(env, gs[..|gs| - 1]) + OwnOf(env, gs[|gs| - 1])
  }

  /** The traits the parsers contribute for `gs`, in order. */
  function ParserTraits(env: GoalEnv, gs: seq<Goal>): seq<Trait>
    requires env.h.Valid()
  {
    if gs == [] then [] else ParserTraits(env, gs[..|gs| - 1]) + ParsedOf(env, gs[|gs| - 1])
  }

  /** What a successful pass over goals whose own traits are `own` and parser traits `parsed` makes of `v`. */
  function PassResult(v: InfoValue, own: seq<Trait>, parsed: seq<Trait>, toStates: bool): InfoValue {
    var v1 := if toStates then v.(currentStates := AddAllById(v.currentStates, own))
              else v.(capabilities := AddAllById(v.capabilities, own));
    v1.(traits := AddAllByTitle(v.traits, parsed))
  }

  /** One more goal extends both batches by what that goal contributes. */
  lemma ParseGoalStep(env: GoalEnv, g: Goal, v: InfoValue, own: seq<Trait>, parsed: seq<Trait>, toStates: bool)
    requires env.h.Valid()
    ensures ParseGoalSpec(env, g, PassResult(v, own, parsed, toStates), toStates).Some? <==> !ParserFails(env, g)
    ensures ParseGoalSpec(env, g, PassResult(v, own, parsed, toStates), toStates).Some? ==>
              ParseGoalSpec(env, g, PassResult(v, own, parsed, toStates), toStates).value ==
              PassResult(v, own + OwnOf(env, g), parsed + ParsedOf(env, g), toStates)
  {
    AddAllByIdOneMore(v.capabilities, own, OwnOf(env, g));
    AddAllByIdOneMore(v.currentStates, own, OwnOf(env, g));
    AddAllByTitleOneMore(v.traits, parsed, ParsedOf(env, g));
  }

  /** A pass over one more goal is the pass over the others, then that goal. */
  lemma ParseAllSnoc(env: GoalEnv, gs: seq<Goal>, g: Goal, v: InfoValue, toStates: bool)
    requires env.h.Valid()
    ensures ParseAll(env, gs + [g], v, toStates) ==
              if ParseAll(env, gs, v, toStates).None? then None
              else ParseGoalSpec(env, g, ParseAll(env, gs, v, toStates).value, toStates)
  {
    assert (gs + [g])[..|gs|] == gs;
  }

  /** No parser throws on one more goal exactly when none throws on the others nor on that goal. */
  lemma NoParserFailsSnoc(env: GoalEnv, gs: seq<Goal>, g: Goal)
    requires env.h.Valid()
    ensures (forall i | 0 <= i < |gs + [g]| :: !ParserFails(env, (gs + [g])[i])) <==>
            (forall i | 0 <= i < |gs| :: !ParserFails(env, gs[i])) && !ParserFails(env, g)
  {
    if forall i | 0 <= i < |gs| :: !ParserFails(env, gs[i]) {
      forall i | 0 <= i < |gs + [g]| ensures !ParserFails(env, (gs + [g])[i]) || ParserFails(env, g) {
        if i < |gs| {
          assert (gs + [g])[i] == gs[i];
        }
      }
    }
    if forall i | 0 <= i < |gs + [g]| :: !ParserFails(env, (gs + [g])[i]) {
      assert (gs + [g])[|gs|] == g;
      forall i | 0 <= i < |gs| ensures !ParserFails(env, gs[i]) {
        assert (gs + [g])[i] == gs[i];
      }
    }
  }

  /** A pass fails exactly when some goal's parser throws. */
  lemma {:induction false} ParseAllSucceeds(env: GoalEnv, gs: seq<Goal>, v: InfoValue, toStates: bool)
    requires env.h.Valid()
    ensures ParseAll(env, gs, v, toStates).Some? <==> forall i | 0 <= i < |gs| :: !ParserFails(env, gs[i])
    decreases |gs|
  {
    if gs != [] {
      var init, g := gs[..|gs| - 1], gs[|gs| - 1];
      assert gs == init + [g];
      NoParserFailsSnoc(env, init, g);
      ParseAllSucceeds(env, init, v, toStates);
      ParseAllValue(env, init, v, toStates);
      ParseAllSnoc(env, init, g, v, toStates);
      if ParseAll(env, init, v, toStates).Some? {
        ParseGoalStep(env, g, v, OwnTraits(env, init), ParserTraits(env, init), toStates);
      }
    }
  }

  /**
   * After a successful pass the consumer's list has received every catalog (or debug)
   * trait and the trait list every parser trait, each through its own deduplication, and
   * nothing else changed.
   */
  lemma {:induction false} ParseAllValue(env: GoalEnv, gs: seq<Goal>, v: InfoValue, toStates: bool)
    requires env.h.Valid()
    ensures ParseAll(env, gs, v, toStates).Some? ==>
              ParseAll(env, gs, v, toStates).value == PassResult(v, OwnTraits(env, gs), ParserTraits(env, gs), toStates)
    decreases |gs|
  {
    if gs == [] {
      assert AddAllById(v.capabilities, []) == v.capabilities;
      assert AddAllById(v.currentStates, []) == v.currentStates;
      assert AddAllByTitle(v.traits, []) == v.traits;
    } else {
      var init, g := gs[..|gs| - 1], gs[|gs| - 1];
      assert gs == init + [g];
      ParseAllValue(env, init, v, toStates);
      ParseAllSnoc(env, init, g, v, toStates);
      if ParseAll(env, init, v, toStates).Some? {
        ParseGoalStep(env, g, v, OwnTraits(env, init), ParserTraits(env, init), toStates);
      }
    }
  }

  /** Both halves together. */
  lemma ParseAllEffect(env: GoalEnv, gs: seq<Goal>, v: InfoValue, toStates: bool)
    requires env.h.Valid()
    ensures ParseAll(env, gs, v, toStates).Some? <==> forall i | 0 <= i < |gs| :: !ParserFails(env, gs[i])
    ensures ParseAll(env, gs, v, toStates).Some? ==>
              ParseAll(env, gs, v, toStates).value == PassResult(v, OwnTraits(env, gs), ParserTraits(env, gs), toStates)
  {
    ParseAllSucceeds(env, gs, v, toStates);
    ParseAllValue(env, gs, v, toStates);
  }

  /** Once a prefix has failed, the whole pass fails. */
  lemma ParsePrefixFails(env: GoalEnv, xs: seq<Goal>, ys: seq<Goal>, v: InfoValue, toStates: bool)
    requires env.h.Valid() && xs <= ys
    requires ParseAll(env, xs, v, toStates).None?
    ensures ParseAll(env, ys, v, toStates).None?
  {
    ParseAllEffect(env, xs, v, toStates);
    ParseAllEffect(env, ys, v, toStates);
    var i :| 0 <= i < |xs| && ParserFails(env, xs[i]);
    assert ys[i] == xs[i];
  }

  /** The running entries of a goal selector, in order. */
  function Running(gs: seq<WrappedGoal>): (r: seq<WrappedGoal>)
    ensures |r| <= |gs|
  {
    if gs == [] then []
    else Running(gs[..|gs| - 1]) + (if gs[|gs| - 1].running then [gs[|gs| - 1]] else [])
  }

  /** Exactly the running entries are kept. */
  lemma {:induction false} RunningExact(gs: seq<WrappedGoal>, g: WrappedGoal)
    ensures g in Running(gs) <==> g in gs && g.running
    decreases |gs|
  {
    if gs != [] {
      var init := gs[..|gs| - 1];
      RunningExact(init, g);
      assert gs == init + [gs[|gs| - 1]];
    }
  }

  // ---- the two passes -----------------------------------------------------------------------

  /** `parseCapabilities` on `v`: a Mob's goal selector, then its target selector, into the capabilities. */
  function CapabilitiesSpec(env: GoalEnv, e: LivingEntity, v: InfoValue): Option<InfoValue>
    requires env.h.Valid()
  {
    if !IsSubtype(env.h, e.cls, MOB) then Some(v)
    else
      var afterGoals :- ParseAll(env, e.goalSelector, v, false);
      ParseAll(env, e.targetSelector, afterGoals, false)
  }

  /** `parseCurrentState` on `v`: a Mob's running goal-selector entries, into the current states. */
  function CurrentStateSpec(env: GoalEnv, e: LivingEntity, v: InfoValue): Option<InfoValue>
    requires env.h.Valid()
  {
    if !IsSubtype(env.h, e.cls, MOB) then Some(v)
    else ParseAll(env, Running(e.goalSelector), v, true)
  }

  /**
   * The capability pass touches only the capabilities and the trait list: on success the
   * capabilities are the old ones fed with the own traits of both selectors, goal selector
   * first.
   */
  lemma CapabilitiesEffect(env: GoalEnv, e: LivingEntity, v: InfoValue)
    requires env.h.Valid() && IsSubtype(env.h, e.cls, MOB)
    ensures CapabilitiesSpec(env, e, v).Some? <==>
              forall i | 0 <= i < |e.goalSelector + e.targetSelector| :: !ParserFails(env, (e.goalSelector + e.targetSelector)[i])
    ensures CapabilitiesSpec(env, e, v).Some? ==>
              var r := CapabilitiesSpec(env, e, v).value;
              r.capabilities == AddAllById(v.capabilities, OwnTraits(env, e.goalSelector) + OwnTraits(env, e.targetSelector)) &&
              r.traits == AddAllByTitle(v.traits, ParserTraits(env, e.goalSelector) + ParserTraits(env, e.targetSelector)) &&
              r.currentStates == v.currentStates && r.uuid == v.uuid && r.entityId == v.entityId &&
              r.maxHealth == v.maxHealth && r.attackDamage == v.attackDamage &&
              r.movementSpeed == v.movementSpeed && r.armor == v.armor
  {
    var all := e.goalSelector + e.targetSelector;
    ParseAllEffect(env, e.goalSelector, v, false);
    forall i | 0 <= i < |e.goalSelector| ensures all[i] == e.goalSelector[i] {
    }
    forall i | 0 <= i < |e.targetSelector| ensures all[|e.goalSelector| + i] == e.targetSelector[i] {
    }
    if ParseAll(env, e.goalSelector, v, false).Some? {
      var mid := ParseAll(env, e.goalSelector, v, false).value;
      ParseAllEffect(env, e.targetSelector, mid, false);
      AddAllAppend(v.capabilities, OwnTraits(env, e.goalSelector), OwnTraits(env, e.targetSelector));
      AddAllByTitleAppend(v.traits, ParserTraits(env, e.goalSelector), ParserTraits(env, e.targetSelector));
      if ParseAll(env, e.targetSelector, mid, false).None? {
        var i :| 0 <= i < |e.targetSelector| && ParserFails(env, e.targetSelector[i]);
        assert all[|e.goalSelector| + i] == e.targetSelector[i];
      }
    } else {
      var i :| 0 <= i < |e.goalSelector| && ParserFails(env, e.goalSelector[i]);
      assert all[i] == e.goalSelector[i];
    }
  }

  /**
   * The current-state pass touches only the current states and the trait list, and consults
   * only the running entries of the goal selector.
   */
  lemma CurrentStateEffect(env: GoalEnv, e: LivingEntity, v: InfoValue)
    requires env.h.Valid() && IsSubtype(env.h, e.cls, MOB)
    ensures CurrentStateSpec(env, e, v).Some? <==>
              forall i | 0 <= i < |Running(e.goalSelector)| :: !ParserFails(env, Running(e.goalSelector)[i])
    ensures CurrentStateSpec(env, e, v).Some? ==>
              var r := CurrentStateSpec(env, e, v).value;
              r.currentStates == AddAllById(v.currentStates, OwnTraits(env, Running(e.goalSelector))) &&
              r.traits == AddAllByTitle(v.traits, ParserTraits(env, Running(e.goalSelector))) &&
              r.capabilities == v.capabilities && r.uuid == v.uuid && r.entityId == v.entityId &&
              r.maxHealth == v.maxHealth && r.attackDamage == v.attackDamage &&
              r.movementSpeed == v.movementSpeed && r.armor == v.armor
    ensures forall other: seq<WrappedGoal> :: CurrentStateSpec(env, e.(targetSelector := other), v) == CurrentStateSpec(env, e, v)
  {
    ParseAllEffect(env, Running(e.goalSelector), v, true);
  }

  // ---- the running code -----------------------------------------------------------------------

  /** The consumer handed to `parseGoal`. */
  method Feed(info: MobScopedInfo, t: Trait, toStates: bool)
    requires info.Valid()
    modifies info`capabilities, info`currentStates
    ensures info.Valid()
    ensures info.Snapshot() == Consume(old(info.Snapshot()), t, toStates)
  {
    if toStates {
      info.AddCurrentState(t);
    } else {
      info.AddCapability(t);
    }
  }

  /** The first half of `parseGoal`: the catalog trait of the goal, else in debug mode the placeholder, goes to the consumer. */
  method FeedOwn(h: Hierarchy, manager: EthologyTraitManager, registry: GoalParserRegistry, debug: bool,
                 inner: Obj, info: MobScopedInfo, toStates: bool)
    requires h.Valid() && info.Valid()
    modifies info`capabilities, info`currentStates
    ensures info.Valid()
    ensures info.Snapshot() == match OwnTrait(Env(h, manager, registry, debug), inner)
                                case Some(t) => Consume(old(info.Snapshot()), t, toStates)
                                case None => old(info.Snapshot())
  {
    var own := manager.GetGoalTrait(h, inner.cls);
    if own.Some? {
      Feed(info, own.value, toStates);
    } else if debug {
      Feed(info, DebugTrait(inner.cls), toStates);
    }
  }

  /**
   * `parseGoal`: unwrap, feed the catalog trait (or the debug placeholder) to the consumer,
   * then run the registered parser whether or not the catalog had an entry.
   */
  method ParseGoal(h: Hierarchy, manager: EthologyTraitManager, registry: GoalParserRegistry, debug: bool,
                   g: Goal, info: MobScopedInfo, toStates: bool) returns (ok: bool)
    requires h.Valid() && info.Valid()
    modifies info`capabilities, info`currentStates, info`traits
    ensures info.Valid()
    ensures ok <==> ParseGoalSpec(Env(h, manager, registry, debug), g, old(info.Snapshot()), toStates).Some?
    ensures ok ==> info.Snapshot() == ParseGoalSpec(Env(h, manager, registry, debug), g, old(info.Snapshot()), toStates).value
  {
    var inner := Unwrap(g);
    FeedOwn(h, manager, registry, debug, inner, info, toStates);
    var parser := registry.GetParser(h, inner);
    if parser.Some? {
      ok := Parse(h, parser.value, inner, info);
    } else {
      ok := true;
    }
  }

  /** The loop over one selector's entries, feeding the consumer; stops where a parser throws. */
  method ParseGoals(h: Hierarchy, manager: EthologyTraitManager, registry: GoalParserRegistry, debug: bool,
                    gs: seq<WrappedGoal>, info: MobScopedInfo, toStates: bool) returns (ok: bool)
    requires h.Valid() && info.Valid()
    modifies info`capabilities, info`currentStates, info`traits
    ensures info.Valid()
    ensures ok <==> ParseAll(Env(h, manager, registry, debug), gs, old(info.Snapshot()), toStates).Some?
    ensures ok ==> info.Snapshot() == ParseAll(Env(h, manager, registry, debug), gs, old(info.Snapshot()), toStates).value
  {
    ghost var env := Env(h, manager, registry, debug);
    ghost var v0 := info.Snapshot();
    var i := 0;
    while i < |gs|
      invariant 0 <= i <= |gs|
      invariant info.Valid()
      invariant ParseAll(env, gs[..i], v0, toStates) == Some(info.Snapshot())
    {
      assert gs[..i + 1] == gs[..i] + [gs[i]];
      ParseAllSnoc(env, gs[..i], gs[i], v0, toStates);
      ok := ParseGoal(h, manager, registry, debug, gs[i], info, toStates);
      if !ok {
        ParsePrefixFails(env, gs[..i + 1], gs, v0, toStates);
        return;
      }
      i := i + 1;
    }
    assert gs[..i] == gs;
    ok := true;
  }

  /** `parseCapabilities`: nothing for a non-Mob; otherwise the goal selector, then the target selector. */
  method ParseCapabilities(h: Hierarchy, manager: EthologyTraitManager, registry: GoalParserRegistry, debug: bool,
                           e: LivingEntity, info: MobScopedInfo) returns (ok: bool)
    requires h.Valid() && info.Valid()
    modifies info`capabilities, info`currentStates, info`traits
    ensures info.Valid()
    ensures ok <==> CapabilitiesSpec(Env(h, manager, registry, debug), e, old(info.Snapshot())).Some?
    ensures ok ==> info.Snapshot() == CapabilitiesSpec(Env(h, manager, registry, debug), e, old(info.Snapshot())).value
  {
    if !IsSubtype(h, e.cls, MOB) {
      return true;
    }
    ok := ParseGoals(h, manager, registry, debug, e.goalSelector, info, false);
    if ok {
      ok := ParseGoals(h, manager, registry, debug, e.targetSelector, info, false);
    }
  }

  /** `parseCurrentState`: nothing for a non-Mob; otherwise the running goal-selector entries. */
  method ParseCurrentState(h: Hierarchy, manager: EthologyTraitManager, registry: GoalParserRegistry, debug: bool,
                           e: LivingEntity, info: MobScopedInfo) returns (ok: bool)
    requires h.Valid() && info.Valid()
    modifies info`capabilities, info`currentStates, info`traits
    ensures info.Valid()
    ensures ok <==> CurrentStateSpec(Env(h, manager, registry, debug), e, old(info.Snapshot())).Some?
    ensures ok ==> info.Snapshot() == CurrentStateSpec(Env(h, manager, registry, debug), e, old(info.Snapshot())).value
  {
    if !IsSubtype(h, e.cls, MOB) {
      return true;
    }
    ok := ParseRunningGoals(h, manager, registry, debug, e.goalSelector, info);
  }

  /** The loop of `parseCurrentState`: each running entry goes to the current states. */
  method ParseRunningGoals(h: Hierarchy, manager: EthologyTraitManager, registry: GoalParserRegistry, debug: bool,
                           gs: seq<WrappedGoal>, info: MobScopedInfo) returns (ok: bool)
    requires h.Valid() && info.Valid()
    modifies info`capabilities, info`currentStates, info`traits
    ensures info.Valid()
    ensures ok <==> ParseAll(Env(h, manager, registry, debug), Running(gs), old(info.Snapshot()), true).Some?
    ensures ok ==> info.Snapshot() == ParseAll(Env(h, manager, registry, debug), Running(gs), old(info.Snapshot()), true).value
  {
    ghost var env := Env(h, manager, registry, debug);
    ghost var v0 := info.Snapshot();
    var i := 0;
    while i < |gs|
      invariant 0 <= i <= |gs|
      invariant info.Valid()
      invariant ParseAll(env, Running(gs[..i]), v0, true) == Some(info.Snapshot())
    {
      assert gs[..i + 1][..i] == gs[..i];
      ghost var done := Running(gs[..i]);
      if gs[i].running {
        assert Running(gs[..i + 1]) == done + [gs[i]];
        ParseAllSnoc(env, done, gs[i], v0, true);
        ok := ParseGoal(h, manager, registry, debug, gs[i], info, true);
        if !ok {
          RunningPrefix(gs, i);
          ParsePrefixFails(env, Running(gs[..i + 1]), Running(gs), v0, true);
          return;
        }
      } else {
        assert Running(gs[..i + 1]) == done;
      }
      i := i + 1;
    }
    assert gs[..i] == gs;
    ok := true;
  }

  /** The running entries of a prefix come first among all running entries. */
  lemma {:induction false} RunningPrefix(gs: seq<WrappedGoal>, i: nat)
    requires i < |gs|
    ensures Running(gs[..i + 1]) <= Running(gs)
    decreases |gs|
  {
    if i + 1 < |gs| {
      RunningPrefix(gs[..|gs| - 1], i);
      assert gs[..|gs| - 1][..i + 1] == gs[..i + 1];
    } else {
      assert gs[..i + 1] == gs;
    }
  }
}
