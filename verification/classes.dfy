/**
 * An abstract model of the JVM class graph that the core inspects by reflection:
 * each class's superclass, its interfaces and its declared fields.  A class's `interfaces`
 * entry lists every interface it implements, directly or through an interface that
 * extends another (`InterfacesClosed` states that closure); the superclasses' interfaces
 * are reached by walking the chain.  `depth` ranks classes so that every superclass walk
 * ends (Java hierarchies are acyclic).
 */
module Classes {
  import opened Wrappers

  /** A fully-qualified class name, as `Class.getName()` returns it. */
  type ClassName = string

  const OBJECT: ClassName := "java.lang.Object"

  /** One entry of `getDeclaredFields()`: its name, its declared type and whether `setAccessible(true)` succeeds. */
  datatype FieldDecl = FieldDecl(name: string, declaredType: ClassName, accessible: bool)

  datatype Hierarchy = Hierarchy(
    parent: map<ClassName, ClassName>,
    interfaces: map<ClassName, set<ClassName>>,
    fields: map<ClassName, seq<FieldDecl>>,
    depth: map<ClassName, nat>)
  {
    /** Every superclass edge goes strictly down in `depth`. */
    predicate Valid() {
      forall c | c in parent :: c in depth && parent[c] in depth && depth[parent[c]] < depth[c]
    }

    function Rank(c: ClassName): nat {
      if c in depth then depth[c] else 0
    }

    /** `getSuperclass()`; `None` stands for `null`. */
    function Super(c: ClassName): Option<ClassName> {
      if c in parent then Some(parent[c]) else None
    }

    function DeclaredFields(c: ClassName): seq<FieldDecl> {
      if c in fields then fields[c] else []
    }
  }

  /**
   * The classes a walk `while (current != null && current != Object.class) ... current = current.getSuperclass()`
   * visits from `c`: `c` itself, then each superclass, most-derived first, excluding `Object`.
   */
  function Chain(h: Hierarchy, c: ClassName): (r: seq<ClassName>)
    requires h.Valid()
    ensures OBJECT !in r
    ensures c != OBJECT ==> |r| >= 1 && r[0] == c
    decreases h.Rank(c)
  {
    if c == OBJECT then []
    else if c in h.parent then [c] + Chain(h, h.parent[c])
    else [c]
  }

  /** `sup.isAssignableFrom(sub)`: `sup` is `Object`, a class on `sub`'s chain, or an interface one of them implements. */
  predicate IsSubtype(h: Hierarchy, sub: ClassName, sup: ClassName)
    requires h.Valid()
  {
    var ch := Chain(h, sub);
    sup == OBJECT || sup in ch ||
    exists i | 0 <= i < |ch| :: ch[i] in h.interfaces && sup in h.interfaces[ch[i]]
  }

  /** Every interface an interface extends is listed wherever the extending one is. */
  predicate InterfacesClosed(h: Hierarchy) {
    forall c, i | c in h.interfaces && i in h.interfaces[c] && i in h.interfaces :: h.interfaces[i] <= h.interfaces[c]
  }

  /**
   * With closed interface lists, a class that is a subtype of an interface is a subtype of
   * every interface that interface extends, as `isAssignableFrom` and `instanceof` are.
   */
  lemma SubtypeThroughInterface(h: Hierarchy, c: ClassName, i: ClassName, j: ClassName)
    requires h.Valid() && InterfacesClosed(h)
    requires i != OBJECT && IsSubtype(h, c, i) && i in h.interfaces && j in h.interfaces[i]
    ensures IsSubtype(h, c, j)
  {
    var ch := Chain(h, c);
    if i in ch {
      var k :| 0 <= k < |ch| && ch[k] == i;
      assert ch[k] in h.interfaces && j in h.interfaces[ch[k]];
    } else {
      var k :| 0 <= k < |ch| && ch[k] in h.interfaces && i in h.interfaces[ch[k]];
      assert j in h.interfaces[ch[k]];
    }
  }

  lemma SubtypeReflexive(h: Hierarchy, c: ClassName)
    requires h.Valid()
    ensures IsSubtype(h, c, c)
  {
  }

  predicate IsSeparator(ch: char) {
    ch == '.' || ch == '$'
  }

  predicate NoSeparator(s: string) {
    forall i | 0 <= i < |s| :: !IsSeparator(s[i])
  }

  predicate IsDigit(ch: char) {
    '0' <= ch <= '9'
  }

  /** The longest suffix of a binary class name without a '.' or '$'. */
  function LastSegment(c: ClassName): (r: string)
    ensures |r| <= |c| && r == c[|c| - |r|..]
    ensures NoSeparator(r)
    ensures |r| < |c| ==> IsSeparator(c[|c| - |r| - 1])
  {
    if c == [] then []
    else if IsSeparator(c[|c| - 1]) then []
    else LastSegment(c[..|c| - 1]) + [c[|c| - 1]]
  }

  /** What is left after a leading run of decimal digits. */
  function DropLeadingDigits(s: string): (r: string)
    ensures |r| <= |s| && r == s[|s| - |r|..]
    ensures forall i | 0 <= i < |s| - |r| :: IsDigit(s[i])
    ensures r == [] || !IsDigit(r[0])
  {
    if s != [] && IsDigit(s[0]) then DropLeadingDigits(s[1..]) else s
  }

  /**
   * The simple name (`getSimpleName`) of a class given by its binary name: the part after
   * the last '.' or '$', without the number the compiler puts in front of a local class's
   * name; an anonymous class has the empty simple name.
   */
  function SimpleName(c: ClassName): (r: string)
    ensures |r| <= |c|
    ensures NoSeparator(r)
    ensures r == [] || !IsDigit(r[0])
  {
    DropLeadingDigits(LastSegment(c))
  }

  lemma {:induction false} LastSegmentAfter(p: string, sep: char, t: string)
    requires IsSeparator(sep) && NoSeparator(t)
    ensures LastSegment(p + [sep] + t) == t
    decreases |t|
  {
    var c := p + [sep] + t;
    if t != [] {
      var init := t[..|t| - 1];
      assert c[..|c| - 1] == p + [sep] + init;
      LastSegmentAfter(p, sep, init);
      assert init + [t[|t| - 1]] == t;
    }
  }

  lemma {:induction false} DropDigitsBefore(d: string, name: string)
    requires forall i | 0 <= i < |d| :: IsDigit(d[i])
    requires name == [] || !IsDigit(name[0])
    ensures DropLeadingDigits(d + name) == name
    decreases |d|
  {
    if d == [] {
      assert d + name == name;
    } else {
      assert (d + name)[1..] == d[1..] + name;
      DropDigitsBefore(d[1..], name);
    }
  }

  /**
   * For a binary name `outer` + separator + compiler digits + `name`, the simple name is
   * `name`: "a.b.Goal" gives "Goal", "Outer$Inner" gives "Inner", the local class
   * "Outer$1Local" gives "Local" and the anonymous class "Outer$1" gives "".
   */
  lemma SimpleNameOf(outer: string, sep: char, digits: string, name: string)
    requires IsSeparator(sep) && NoSeparator(digits + name)
    requires forall i | 0 <= i < |digits| :: IsDigit(digits[i])
    requires name == [] || !IsDigit(name[0])
    ensures SimpleName(outer + [sep] + digits + name) == name
  {
    assert outer + [sep] + digits + name == outer + [sep] + (digits + name);
    LastSegmentAfter(outer, sep, digits + name);
    DropDigitsBefore(digits, name);
  }

  /** The value registered for the first element of `s` that is a key of `m`. */
  function FirstKeyed<V>(s: seq<ClassName>, m: map<ClassName, V>): (r: Option<V>)
    ensures r.None? <==> forall i | 0 <= i < |s| :: s[i] !in m
    ensures r.Some? ==> exists i | 0 <= i < |s| :: s[i] in m && m[s[i]] == r.value &&
                          forall j | 0 <= j < i :: s[j] !in m
  {
    if s == [] then None
    else if s[0] in m then Some(m[s[0]])
    else
      var r := FirstKeyed(s[1..], m);
      assert forall i | 1 <= i < |s| :: s[i] == s[1..][i - 1];
      r
  }

  /**
   * The most-derived class of `c`'s chain that has an entry in `m`, and that entry:
   * what a superclass walk with a `containsKey` test at each step returns.
   */
  function MostDerived<V>(h: Hierarchy, c: ClassName, m: map<ClassName, V>): Option<V>
    requires h.Valid()
  {
    FirstKeyed(Chain(h, c), m)
  }

  /**
   * The superclass walk itself, as the source writes it: a loop from `c` up the chain,
   * returning the first registered entry.
   */
  method WalkMostDerived<V>(h: Hierarchy, c: ClassName, m: map<ClassName, V>) returns (r: Option<V>)
    requires h.Valid()
    ensures r == MostDerived(h, c, m)
  {
    var current: Option<ClassName> := Some(c);
    while current.Some? && current.value != OBJECT
      invariant current.Some? ==> MostDerived(h, c, m) == MostDerived(h, current.value, m)
      invariant current.None? ==> MostDerived(h, c, m) == None
      decreases if current.Some? then h.Rank(current.value) + 1 else 0
    {
      if current.value in m {
        return Some(m[current.value]);
      }
      current := h.Super(current.value);
    }
    return None;
  }
}
