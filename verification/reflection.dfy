/**
 * The reflective field scanner: finds the fields of an object's class and superclasses
 * whose declared type fits a requested type, memoises that list per (class, type) pair,
 * and reads the matching non-null values out of an object.
 */
module Reflection {
  import opened Wrappers
  import opened Classes
  import opened World

  /** The declared field `d` of `owner` is kept by a scan for `t`: its type fits and it can be made accessible. */
  predicate Kept(h: Hierarchy, d: FieldDecl, t: ClassName)
    requires h.Valid()
  {
    IsSubtype(h, d.declaredType, t) && d.accessible
  }

  /** The fields of one class that a scan for `t` keeps, in declaration order. */
  function MatchingFields(h: Hierarchy, owner: ClassName, ds: seq<FieldDecl>, t: ClassName): (r: seq<FieldRef>)
    requires h.Valid()
    ensures |r| <= |ds|
  {
    if ds == [] then []
    else
      var init := MatchingFields(h, owner, ds[..|ds| - 1], t);
      var d := ds[|ds| - 1];
      if Kept(h, d, t) then init + [FieldRef(owner, d.name)] else init
  }

  /** A class's fields kept by the scan are exactly its declared fields whose type fits and that are accessible. */
  lemma {:induction false} MatchingFieldsExact(h: Hierarchy, owner: ClassName, ds: seq<FieldDecl>, t: ClassName)
    requires h.Valid()
    ensures forall i | 0 <= i < |MatchingFields(h, owner, ds, t)| ::
              MatchingFields(h, owner, ds, t)[i].owner == owner &&
              exists j | 0 <= j < |ds| :: ds[j].name == MatchingFields(h, owner, ds, t)[i].name && Kept(h, ds[j], t)
    ensures forall j | 0 <= j < |ds| && Kept(h, ds[j], t) :: FieldRef(owner, ds[j].name) in MatchingFields(h, owner, ds, t)
  {
    if ds != [] {
      var init, d := ds[..|ds| - 1], ds[|ds| - 1];
      var m, mi := MatchingFields(h, owner, ds, t), MatchingFields(h, owner, init, t);
      MatchingFieldsExact(h, owner, init, t);
      assert m == if Kept(h, d, t) then mi + [FieldRef(owner, d.name)] else mi;
      forall i | 0 <= i < |m|
        ensures m[i].owner == owner && exists j | 0 <= j < |ds| :: ds[j].name == m[i].name && Kept(h, ds[j], t)
      {
        if i < |mi| {
          var j :| 0 <= j < |init| && init[j].name == mi[i].name && Kept(h, init[j], t);
          assert ds[j] == init[j] && m[i] == mi[i];
        } else {
          assert ds[|ds| - 1] == d && m[i] == FieldRef(owner, d.name);
        }
      }
      forall j | 0 <= j < |ds| && Kept(h, ds[j], t) ensures FieldRef(owner, ds[j].name) in m {
        if j < |init| {
          assert ds[j] == init[j];
        }
      }
    }
  }

  /** The kept fields of every class of `chain`, the first class's fields first. */
  function ChainFields(h: Hierarchy, chain: seq<ClassName>, t: ClassName): seq<FieldRef>
    requires h.Valid()
  {
    if chain == [] then []
    else MatchingFields(h, chain[0], h.DeclaredFields(chain[0]), t) + ChainFields(h, chain[1..], t)
  }

  /** What `scanForFields(cls, t)` finds: the class's own kept fields, then each superclass's, excluding `Object`. */
  function ScanSpec(h: Hierarchy, cls: ClassName, t: ClassName): seq<FieldRef>
    requires h.Valid()
  {
    ChainFields(h, Chain(h, cls), t)
  }

  /** The kept fields of the chain that starts at `current`, none when there is no class left. */
  function FieldsFrom(h: Hierarchy, current: Option<ClassName>, t: ClassName): seq<FieldRef>
    requires h.Valid()
  {
    match current
    case Some(c) => ChainFields(h, Chain(h, c), t)
    case None => []
  }

  /** One step of a class's field loop: the next declared field is appended iff it is kept. */
  lemma MatchingFieldsStep(h: Hierarchy, owner: ClassName, ds: seq<FieldDecl>, j: nat, t: ClassName)
    requires h.Valid() && j < |ds|
    ensures MatchingFields(h, owner, ds[..j + 1], t) ==
            MatchingFields(h, owner, ds[..j], t) + (if Kept(h, ds[j], t) then [FieldRef(owner, ds[j].name)] else [])
  {
    assert ds[..j + 1][..j] == ds[..j];
  }

  /** One step of the superclass walk: a class's own fields, then those of its superclass's chain. */
  lemma ChainFieldsStep(h: Hierarchy, c: ClassName, t: ClassName)
    requires h.Valid() && c != OBJECT
    ensures ChainFields(h, Chain(h, c), t) == MatchingFields(h, c, h.DeclaredFields(c), t) + FieldsFrom(h, h.Super(c), t)
  {
    if c in h.parent {
      assert Chain(h, c)[1..] == Chain(h, h.parent[c]);
    } else {
      assert Chain(h, c)[1..] == [];
    }
  }

  /** Every field the scan returns belongs to a class of the chain and is one of its kept declared fields. */
  lemma {:induction false} ScanSound(h: Hierarchy, chain: seq<ClassName>, t: ClassName, i: nat)
    requires h.Valid() && i < |ChainFields(h, chain, t)|
    ensures var f := ChainFields(h, chain, t)[i];
      f.owner in chain && exists j | 0 <= j < |h.DeclaredFields(f.owner)| ::
        h.DeclaredFields(f.owner)[j].name == f.name && Kept(h, h.DeclaredFields(f.owner)[j], t)
  {
    var head := MatchingFields(h, chain[0], h.DeclaredFields(chain[0]), t);
    if i < |head| {
      MatchingFieldsExact(h, chain[0], h.DeclaredFields(chain[0]), t);
      assert ChainFields(h, chain, t)[i] == head[i];
    } else {
      assert ChainFields(h, chain, t)[i] == ChainFields(h, chain[1..], t)[i - |head|];
      ScanSound(h, chain[1..], t, i - |head|);
    }
  }

  /** Every kept field of every class on the chain is returned. */
  lemma {:induction false} ScanComplete(h: Hierarchy, chain: seq<ClassName>, t: ClassName, k: nat, j: nat)
    requires h.Valid() && k < |chain| && j < |h.DeclaredFields(chain[k])|
    requires Kept(h, h.DeclaredFields(chain[k])[j], t)
    ensures FieldRef(chain[k], h.DeclaredFields(chain[k])[j].name) in ChainFields(h, chain, t)
  {
    var head := MatchingFields(h, chain[0], h.DeclaredFields(chain[0]), t);
    var f := FieldRef(chain[k], h.DeclaredFields(chain[k])[j].name);
    if k == 0 {
      MatchingFieldsExact(h, chain[0], h.DeclaredFields(chain[0]), t);
      assert f in head;
    } else {
      assert chain[k] == chain[1..][k - 1];
      ScanComplete(h, chain[1..], t, k - 1, j);
      assert f in ChainFields(h, chain[1..], t);
    }
    assert ChainFields(h, chain, t) == head + ChainFields(h, chain[1..], t);
  }

  /** The values of `fields` in `o` that read without failure and are non-null instances of `t`, in order. */
  function ValuesIn(h: Hierarchy, o: Obj, fields: seq<FieldRef>, t: ClassName): (r: seq<Value>)
    requires h.Valid()
    ensures |r| <= |fields|
  {
    if fields == [] then []
    else
      var rest := ValuesIn(h, o, fields[1..], t);
      match ReadField(o, fields[0])
      case Some(v) => if IsInstance(h, v, t) then [v] + rest else rest
      case None => rest
  }

  /** The first value of `fields` in `o` that reads and is a non-null instance of `t`. */
  function FirstIn(h: Hierarchy, o: Obj, fields: seq<FieldRef>, t: ClassName): Option<Value>
    requires h.Valid()
  {
    if fields == [] then None
    else match ReadField(o, fields[0])
      case Some(v) => if IsInstance(h, v, t) then Some(v) else FirstIn(h, o, fields[1..], t)
      case None => FirstIn(h, o, fields[1..], t)
  }

  /** The first matching value is the head of the list of all matching values. */
  lemma {:induction false} FirstIsHeadOfValues(h: Hierarchy, o: Obj, fields: seq<FieldRef>, t: ClassName)
    requires h.Valid()
    ensures FirstIn(h, o, fields, t) ==
            (if ValuesIn(h, o, fields, t) == [] then None else Some(ValuesIn(h, o, fields, t)[0]))
  {
    if fields != [] {
      FirstIsHeadOfValues(h, o, fields[1..], t);
    }
  }

  /** `getAllFieldsOfType(target, t)`; a null target yields the empty list. */
  function AllOfType(h: Hierarchy, target: Option<Obj>, t: ClassName): (r: seq<Value>)
    requires h.Valid()
    ensures target.None? ==> r == []
    ensures target.Some? ==> |r| <= |ScanSpec(h, target.value.cls, t)|
  {
    match target
    case None => []
    case Some(o) => ValuesIn(h, o, ScanSpec(h, o.cls, t), t)
  }

  /** `getFirstFieldOfType(target, t)`; a null target yields empty. */
  function FirstOfType(h: Hierarchy, target: Option<Obj>, t: ClassName): (r: Option<Value>)
    requires h.Valid()
    ensures r == (if AllOfType(h, target, t) == [] then None else Some(AllOfType(h, target, t)[0]))
  {
    match target
    case None => None
    case Some(o) =>
      FirstIsHeadOfValues(h, o, ScanSpec(h, o.cls, t), t);
      FirstIn(h, o, ScanSpec(h, o.cls, t), t)
  }

  /**
   * The scanner over one class graph, with its memo table: for each (class, type) pair
   * scanned so far, the list of fields the scan found.
   */
  class FieldScanner {
    const h: Hierarchy
    var cache: map<(ClassName, ClassName), seq<FieldRef>>

    /** Every memoised list is the scan of its pair. */
    ghost predicate Valid()
      reads this
    {
      h.Valid() && forall k | k in cache :: cache[k] == ScanSpec(h, k.0, k.1)
    }

    constructor(h: Hierarchy)
      requires h.Valid()
      ensures this.h == h && cache == map[] && Valid()
    {
      this.h := h;
      cache := map[];
    }

    /** `scanForFields`: walk from `cls` up to (excluding) `Object`, collecting kept fields. */
    method ScanForFields(cls: ClassName, t: ClassName) returns (found: seq<FieldRef>)
      requires h.Valid()
      ensures found == ScanSpec(h, cls, t)
    {
      found := [];
      var current: Option<ClassName> := Some(cls);
      while current.Some? && current.value != OBJECT
        invariant found + FieldsFrom(h, current, t) == ScanSpec(h, cls, t)
        decreases if current.Some? then h.Rank(current.value) + 1 else 0
      {
        var c := current.value;
        var kept := ScanDeclaredFields(c, t);
        ChainFieldsStep(h, c, t);
        found := found + kept;
        current := h.Super(c);
      }
      assert found + FieldsFrom(h, current, t) == found;
    }

    /** The inner loop of `scanForFields`: the declared fields of one class that the scan keeps. */
    method ScanDeclaredFields(c: ClassName, t: ClassName) returns (kept: seq<FieldRef>)
      requires h.Valid()
      ensures kept == MatchingFields(h, c, h.DeclaredFields(c), t)
    {
      var ds := h.DeclaredFields(c);
      kept := [];
      var j := 0;
      while j < |ds|
        invariant 0 <= j <= |ds|
        invariant kept == MatchingFields(h, c, ds[..j], t)
      {
        MatchingFieldsStep(h, c, ds, j, t);
        if IsSubtype(h, ds[j].declaredType, t) {
          if ds[j].accessible {
            kept := kept + [FieldRef(c, ds[j].name)];
          }
        }
        j := j + 1;
      }
      assert ds[..j] == ds;
    }

    /**
     * `getCachedFields`: the memoised list for (cls, t), scanning only the first time; a pair
     * already present leaves the table as it is.
     */
    method GetCachedFields(cls: ClassName, t: ClassName) returns (fields: seq<FieldRef>)
      requires Valid()
      modifies this`cache
      ensures Valid()
      ensures fields == ScanSpec(h, cls, t)
      ensures (cls, t) in old(cache) ==> cache == old(cache)
      ensures cache == old(cache)[(cls, t) := fields]
    {
      if (cls, t) in cache {
        fields := cache[(cls, t)];
      } else {
        fields := ScanForFields(cls, t);
        cache := cache[(cls, t) := fields];
      }
    }

    /** `getFirstFieldOfType`: the first cached field whose value reads and is an instance of `t`. */
    method GetFirstFieldOfType(target: Option<Obj>, t: ClassName) returns (r: Option<Value>)
      requires Valid()
      modifies this`cache
      ensures Valid()
      ensures r == FirstOfType(h, target, t)
    {
      if target.None? {
        return None;
      }
      var o := target.value;
      var fields := GetCachedFields(o.cls, t);
      var i := 0;
      while i < |fields|
        invariant 0 <= i <= |fields|
        invariant FirstIn(h, o, fields[i..], t) == FirstIn(h, o, fields, t)
      {
        assert fields[i..][1..] == fields[i + 1..];
        var value := ReadField(o, fields[i]);
        if value.Some? && IsInstance(h, value.value, t) {
          return value;
        }
        i := i + 1;
      }
      return None;
    }

    /** `getAllFieldsOfType`: every cached field's value that reads and is an instance of `t`, in order. */
    method GetAllFieldsOfType(target: Option<Obj>, t: ClassName) returns (results: seq<Value>)
      requires Valid()
      modifies this`cache
      ensures Valid()
      ensures results == AllOfType(h, target, t)
    {
      if target.None? {
        return [];
      }
      var o := target.value;
      var fields := GetCachedFields(o.cls, t);
      results := [];
      var i := 0;
      while i < |fields|
        invariant 0 <= i <= |fields|
        invariant results + ValuesIn(h, o, fields[i..], t) == ValuesIn(h, o, fields, t)
      {
        assert fields[i..][1..] == fields[i + 1..];
        var value := ReadField(o, fields[i]);
        if value.Some? && IsInstance(h, value.value, t) {
          results := results + [value.value];
        }
        i := i + 1;
      }
      assert fields[i..] == [];
    }

    /** `clearCache`. */
    method ClearCache()
      requires Valid()
      modifies this`cache
      ensures Valid() && cache == map[]
    {
      cache := map[];
    }
  }
}
