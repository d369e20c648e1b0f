/**
 * The trait record that every inspector, parser and the catalog produce, and that the
 * scoped info accumulates.  Two constructions occur: keyed traits
 * `(id, icon, translationKey, args, type)` and titled traits `(icon, title, description)`.
 */
module Traits {
  import opened Location
  import opened World

  datatype TraitType = ACTIVITY | SENSOR | MEMORY | GOAL | STAT

  /** `type.name().toLowerCase()`. */
  function TypeName(t: TraitType): string {
    match t
    case ACTIVITY => "activity"
    case SENSOR => "sensor"
    case MEMORY => "memory"
    case GOAL => "goal"
    case STAT => "stat"
  }

  /**
   * A trait.  A keyed trait's title is its (untranslated) translation key and its
   * description is empty; a titled trait's id is `("", title)`, whose empty namespace no
   * parsed location has, its key is empty, its args are empty and its type is STAT.
   */
  datatype Trait = Trait(id: ResourceLocation, icon: ItemStack, translationKey: string,
                         args: seq<string>, category: TraitType, title: string, description: string)

  /** `new MobTrait(id, new ItemStack(icon), key, args, type)`. */
  function Keyed(id: ResourceLocation, icon: Item, key: string, args: seq<string>, category: TraitType): (r: Trait)
    ensures r.id == id && r.icon == StackOf(icon) && r.translationKey == key && r.args == args
    ensures r.category == category && r.title == key
  {
    Trait(id, StackOf(icon), key, args, category, key, "")
  }

  /** `new MobTrait(icon, Component.literal(title), Component.literal(description))`. */
  function Titled(icon: ItemStack, title: string, description: string): (r: Trait)
    ensures r.icon == icon && r.title == title && r.description == description
    ensures r.id == ResourceLocation("", title)
  {
    Trait(ResourceLocation("", title), icon, "", [], STAT, title, description)
  }

  /** `list.stream().anyMatch(t -> t.title().getString().equals(title))`. */
  predicate HasTitle(s: seq<Trait>, title: string) {
    exists i | 0 <= i < |s| :: s[i].title == title
  }

  /** No two traits of `s` share a title. */
  predicate UniqueTitles(s: seq<Trait>) {
    forall i, j | 0 <= i < j < |s| :: s[i].title != s[j].title
  }

  /** The shared `addUniqueTrait` rule: append unless a trait with the same title is present. */
  function AddByTitle(s: seq<Trait>, t: Trait): (r: seq<Trait>)
    ensures HasTitle(s, t.title) ==> r == s
    ensures !HasTitle(s, t.title) ==> r == s + [t]
    ensures s <= r
    ensures UniqueTitles(s) ==> UniqueTitles(r)
    ensures HasTitle(r, t.title)
  {
    if HasTitle(s, t.title) then s
    else
      assert (s + [t])[|s|] == t;
      s + [t]
  }

  /** Offering every trait of `ts`, in order, to `AddByTitle`. */
  function AddAllByTitle(s: seq<Trait>, ts: seq<Trait>): seq<Trait> {
    if ts == [] then s else AddByTitle(AddAllByTitle(s, ts[..|ts| - 1]), ts[|ts| - 1])
  }

  /** Offering two batches one after the other is offering their concatenation. */
  lemma {:induction false} AddAllByTitleAppend(s: seq<Trait>, a: seq<Trait>, b: seq<Trait>)
    ensures AddAllByTitle(s, a + b) == AddAllByTitle(AddAllByTitle(s, a), b)
    decreases |b|
  {
    if b == [] {
      assert a + b == a;
    } else {
      assert (a + b)[..|a + b| - 1] == a + b[..|b| - 1];
      AddAllByTitleAppend(s, a, b[..|b| - 1]);
    }
  }

  /** Offering a batch of at most one more trait. */
  lemma AddAllByTitleOneMore(s: seq<Trait>, a: seq<Trait>, b: seq<Trait>)
    requires |b| <= 1
    ensures AddAllByTitle(s, a + b) == if b == [] then AddAllByTitle(s, a) else AddByTitle(AddAllByTitle(s, a), b[0])
  {
    if b == [] {
      assert a + b == a;
    } else {
      assert (a + b)[..|a + b| - 1] == a;
    }
  }

  /** However many traits are offered, no title ends up twice. */
  lemma {:induction false} AddAllByTitleKeepsUnique(s: seq<Trait>, ts: seq<Trait>)
    ensures UniqueTitles(s) ==> UniqueTitles(AddAllByTitle(s, ts))
    decreases |ts|
  {
    if ts != [] {
      AddAllByTitleKeepsUnique(s, ts[..|ts| - 1]);
    }
  }

  /** Every offered title ends up present, and nothing already present is lost. */
  lemma {:induction false} AddAllByTitleCovers(s: seq<Trait>, ts: seq<Trait>)
    ensures s <= AddAllByTitle(s, ts)
    ensures forall i | 0 <= i < |ts| :: HasTitle(AddAllByTitle(s, ts), ts[i].title)
    decreases |ts|
  {
    if ts != [] {
      var init := ts[..|ts| - 1];
      AddAllByTitleCovers(s, init);
      var before := AddAllByTitle(s, init);
      forall i | 0 <= i < |init| ensures HasTitle(AddAllByTitle(s, ts), ts[i].title) {
        assert ts[i] == init[i];
        var k :| 0 <= k < |before| && before[k].title == ts[i].title;
        assert AddAllByTitle(s, ts)[k] == before[k];
      }
    }
  }
}
