/**
 * The per-mob result of an analysis: the entity id, two ordered trait lists (capabilities
 * and current states) deduplicated by trait id on insertion, the title-keyed trait list
 * used by the parsers and fallbacks, an optional UUID and four stats, with the
 * field-ordered network encoding.
 */
module ScopedInfo {
  import opened Wrappers
  import opened Location
  import opened Traits
  import opened Wire

  // ---- the id-deduplicated lists ------------------------------------------------------------

  /** `list.stream().anyMatch(t -> t.id().equals(id))`. */
  predicate HasId(s: seq<Trait>, id: ResourceLocation) {
    exists i | 0 <= i < |s| :: s[i].id == id
  }

  /** No two entries share an id. */
  predicate UniqueIds(s: seq<Trait>) {
    forall i, j | 0 <= i < j < |s| :: s[i].id != s[j].id
  }

  /** The insertion rule of `addCapability`/`addCurrentState`: append unless the id is present. */
  function AddById(s: seq<Trait>, t: Trait): (r: seq<Trait>)
    ensures HasId(s, t.id) ==> r == s
    ensures !HasId(s, t.id) ==> r == s + [t]
  {
    if HasId(s, t.id) then s else s + [t]
  }

  /** Feeding every element of `ts`, in order, through `AddById`. */
  function AddAllById(s: seq<Trait>, ts: seq<Trait>): seq<Trait> {
    if ts == [] then s else AddById(AddAllById(s, ts[..|ts| - 1]), ts[|ts| - 1])
  }

  /** Feeding two batches one after the other is feeding their concatenation. */
  lemma {:induction false} AddAllAppend(s: seq<Trait>, a: seq<Trait>, b: seq<Trait>)
    ensures AddAllById(s, a + b) == AddAllById(AddAllById(s, a), b)
    decreases |b|
  {
    if b == [] {
      assert a + b == a;
    } else {
      assert (a + b)[..|a + b| - 1] == a + b[..|b| - 1];
      AddAllAppend(s, a, b[..|b| - 1]);
    }
  }

  /** Feeding a batch of at most one more trait. */
  lemma AddAllByIdOneMore(s: seq<Trait>, a: seq<Trait>, b: seq<Trait>)
    requires |b| <= 1
    ensures AddAllById(s, a + b) == if b == [] then AddAllById(s, a) else AddById(AddAllById(s, a), b[0])
  {
    if b == [] {
      assert a + b == a;
    } else {
      assert (a + b)[..|a + b| - 1] == a;
    }
  }

  /** The first entry with the given id. */
  function FirstById(s: seq<Trait>, id: ResourceLocation): (r: Option<Trait>)
    ensures r.None? <==> !HasId(s, id)
    ensures r.Some? ==> r.value in s && r.value.id == id
  {
    if s == [] then None
    else if s[0].id == id then Some(s[0])
    else
      assert forall i | 1 <= i < |s| :: s[i] == s[1..][i - 1];
      FirstById(s[1..], id)
  }

  lemma AddByIdKeepsUnique(s: seq<Trait>, t: Trait)
    requires UniqueIds(s)
    ensures UniqueIds(AddById(s, t))
  {
    if !HasId(s, t.id) {
      var r := s + [t];
      forall i, j | 0 <= i < j < |r| ensures r[i].id != r[j].id {
        if j == |s| {
          assert r[i] == s[i];
        }
      }
    }
  }

  /** After any sequence of adds, no two entries share an id. */
  lemma {:induction false} AddAllKeepsUnique(s: seq<Trait>, ts: seq<Trait>)
    requires UniqueIds(s)
    ensures UniqueIds(AddAllById(s, ts))
  {
    if ts != [] {
      AddAllKeepsUnique(s, ts[..|ts| - 1]);
      AddByIdKeepsUnique(AddAllById(s, ts[..|ts| - 1]), ts[|ts| - 1]);
    }
  }

  lemma HasIdTail(s: seq<Trait>, id: ResourceLocation)
    requires s != [] && s[0].id != id
    ensures HasId(s, id) <==> HasId(s[1..], id)
  {
    if HasId(s, id) {
      var i :| 0 <= i < |s| && s[i].id == id;
      assert s[1..][i - 1] == s[i];
    }
    if HasId(s[1..], id) {
      var i :| 0 <= i < |s[1..]| && s[1..][i].id == id;
      assert s[i + 1] == s[1..][i];
    }
  }

  lemma {:induction false} FirstByIdAppend(s: seq<Trait>, u: seq<Trait>, id: ResourceLocation)
    ensures FirstById(s + u, id) == if HasId(s, id) then FirstById(s, id) else FirstById(u, id)
  {
    if s == [] {
      assert s + u == u;
    } else {
      assert (s + u)[0] == s[0];
      if s[0].id != id {
        assert (s + u)[1..] == s[1..] + u;
        FirstByIdAppend(s[1..], u, id);
        HasIdTail(s, id);
      }
    }
  }

  /**
   * Deduplicating insertion keeps, for every id, the first trait with that id: the
   * result answers every id lookup as the undeduplicated concatenation would.
   */
  lemma {:induction false} AddAllKeepsFirst(s: seq<Trait>, ts: seq<Trait>, id: ResourceLocation)
    ensures FirstById(AddAllById(s, ts), id) == FirstById(s + ts, id)
  {
    if ts == [] {
      assert s + ts == s;
    } else {
      var init := ts[..|ts| - 1];
      var t := ts[|ts| - 1];
      var acc := AddAllById(s, init);
      AddAllKeepsFirst(s, init, id);
      AddAllKeepsFirst(s, init, t.id);
      assert s + ts == (s + init) + [t];
      FirstByIdAppend(s + init, [t], id);
      if HasId(acc, t.id) {
        assert AddAllById(s, ts) == acc;
      } else {
        assert AddAllById(s, ts) == acc + [t];
        FirstByIdAppend(acc, [t], id);
      }
    }
  }

  /** Adding traits whose ids are all new appends them unchanged. */
  lemma {:induction false} AddAllOfUnique(s: seq<Trait>, ts: seq<Trait>)
    requires UniqueIds(s + ts)
    ensures AddAllById(s, ts) == s + ts
  {
    if ts != [] {
      var init := ts[..|ts| - 1];
      var t := ts[|ts| - 1];
      assert s + ts == (s + init) + [t];
      assert UniqueIds(s + init) by {
        forall i, j | 0 <= i < j < |s + init| ensures (s + init)[i].id != (s + init)[j].id {
          assert (s + init)[i] == (s + ts)[i] && (s + init)[j] == (s + ts)[j];
        }
      }
      AddAllOfUnique(s, init);
      assert !HasId(s + init, t.id) by {
        forall i | 0 <= i < |s + init| ensures (s + init)[i].id != t.id {
          assert (s + init)[i] == (s + ts)[i] && t == (s + ts)[|s + ts| - 1];
        }
      }
    }
  }

  // ---- the value a scoped info holds ---------------------------------------------------------

  datatype InfoValue = InfoValue(
    entityId: ResourceLocation, uuid: Option<Uuid>,
    maxHealth: real, attackDamage: real, movementSpeed: real, armor: real,
    capabilities: seq<Trait>, currentStates: seq<Trait>, traits: seq<Trait>)

  /** A freshly constructed info: no uuid, zero stats, empty lists. */
  function Empty(entityId: ResourceLocation): InfoValue {
    InfoValue(entityId, None, 0.0, 0.0, 0.0, 0.0, [], [], [])
  }

  // ---- the network encoding ------------------------------------------------------------------

  /** The fixed-shape head of `write`: the id, the flagged uuid and the four stats. */
  function EncodeHeader(v: InfoValue): (r: seq<Token>)
    ensures |r| == 5 + |OptionalUuidTokens(v.uuid)|
  {
    [TLocation(v.entityId)] + OptionalUuidTokens(v.uuid)
    + [TDouble(v.maxHealth), TDouble(v.attackDamage), TDouble(v.movementSpeed), TDouble(v.armor)]
  }

  /** `write`: id, uuid flag, uuid when present, the four stats, capabilities, states. */
  function EncodeInfo(v: InfoValue): (r: seq<Token>)
    ensures |r| == |EncodeHeader(v)| + |v.capabilities| + |v.currentStates| + 2
  {
    EncodeHeader(v) + EncodeTraits(v.capabilities) + EncodeTraits(v.currentStates)
  }

  /** Reading the head: the result has empty lists. */
  function DecodeHeader(toks: seq<Token>, pos: nat): (r: Option<(InfoValue, nat)>)
    ensures r.Some? ==> pos < r.value.1 <= |toks|
    ensures r.Some? ==> r.value.0 == Empty(r.value.0.entityId).(uuid := r.value.0.uuid,
      maxHealth := r.value.0.maxHealth, attackDamage := r.value.0.attackDamage,
      movementSpeed := r.value.0.movementSpeed, armor := r.value.0.armor)
  {
    var id :- LocationAt(toks, pos);
    var uuid :- DecodeOptionalUuid(toks, pos + 1);
    var p := uuid.1;
    var health :- DoubleAt(toks, p);
    var damage :- DoubleAt(toks, p + 1);
    var speed :- DoubleAt(toks, p + 2);
    var armor :- DoubleAt(toks, p + 3);
    Some((InfoValue(id, uuid.0, health, damage, speed, armor, [], [], []), p + 4))
  }

  /** `read`: the fields in `write`'s order, each decoded list fed through the deduplicating adder. */
  function DecodeInfo(toks: seq<Token>, pos: nat): (r: Option<(InfoValue, nat)>)
    ensures r.Some? ==> pos < r.value.1 <= |toks|
    ensures r.Some? ==> UniqueIds(r.value.0.capabilities) && UniqueIds(r.value.0.currentStates)
    ensures r.Some? ==> r.value.0.traits == []
  {
    var head :- DecodeHeader(toks, pos);
    var caps :- DecodeTraits(toks, head.1);
    var states :- DecodeTraits(toks, caps.1);
    AddAllKeepsUnique([], caps.0);
    AddAllKeepsUnique([], states.0);
    Some((Relisted(head.0, caps.0, states.0), states.1))
  }

  /** The header fields of `v`, with all three lists empty. */
  function Head(v: InfoValue): InfoValue {
    v.(capabilities := [], currentStates := [], traits := [])
  }

  /** A decoded header with the two decoded lists fed through the deduplicating adder. */
  function Relisted(head: InfoValue, caps: seq<Trait>, states: seq<Trait>): InfoValue {
    head.(capabilities := AddAllById([], caps), currentStates := AddAllById([], states))
  }

  /** What reading `write`'s output gives back: the lists re-inserted through the adder, no traits. */
  function Reread(v: InfoValue): InfoValue {
    Relisted(Head(v), v.capabilities, v.currentStates)
  }

  /** `read` is the header, then the capability list, then the state list, each read where the previous stopped. */
  lemma DecodeInfoOfParts(toks: seq<Token>, pos: nat, head: InfoValue, p1: nat,
                          caps: seq<Trait>, p2: nat, states: seq<Trait>, p3: nat)
    requires DecodeHeader(toks, pos) == Some((head, p1))
    requires DecodeTraits(toks, p1) == Some((caps, p2))
    requires DecodeTraits(toks, p2) == Some((states, p3))
    ensures DecodeInfo(toks, pos) == Some((Relisted(head, caps, states), p3))
  {
  }

  lemma DecodeEncodedHeader(toks: seq<Token>, pos: nat, v: InfoValue)
    requires TokensAt(toks, pos, EncodeHeader(v))
    ensures DecodeHeader(toks, pos) ==
      Some((Head(v), pos + |EncodeHeader(v)|))
  {
    var e := EncodeHeader(v);
    var o := OptionalUuidTokens(v.uuid);
    assert toks[pos + 0] == e[0];
    forall k | 0 <= k < |o| ensures toks[pos + 1 + k] == o[k] {
      assert toks[pos + (1 + k)] == e[1 + k];
    }
    DecodeEncodedOptionalUuid(toks, pos + 1, v.uuid);
    var p := pos + 1 + |o|;
    assert toks[p] == e[1 + |o|] && toks[p + 1] == e[2 + |o|];
    assert toks[p + 2] == e[3 + |o|] && toks[p + 3] == e[4 + |o|];
  }

  /**
   * Decoding what `write` produced, wherever it sits in a stream, restores the id, the
   * uuid and the stats, and each list as re-inserted through the deduplicating adder.
   */
  lemma DecodeEncoded(toks: seq<Token>, pos: nat, v: InfoValue)
    requires TokensAt(toks, pos, EncodeInfo(v))
    ensures DecodeInfo(toks, pos) ==
      Some((Reread(v), pos + |EncodeInfo(v)|))
  {
    var h, c, st := EncodeHeader(v), EncodeTraits(v.capabilities), EncodeTraits(v.currentStates);
    TokensAtSplit(toks, pos, h + c, st);
    TokensAtSplit(toks, pos, h, c);
    DecodeEncodedHeader(toks, pos, v);
    DecodeEncodedTraits(toks, pos + |h|, v.capabilities);
    DecodeEncodedTraits(toks, pos + |h| + |c|, v.currentStates);
    DecodeInfoOfParts(toks, pos, Head(v), pos + |h|,
                      v.capabilities, pos + |h| + |c|, v.currentStates, pos + |h| + |c| + |st|);
  }

  /** Decoding what `write` produced from the start of a buffer. */
  lemma DecodeWritten(v: InfoValue)
    ensures DecodeInfo(EncodeInfo(v), 0) ==
      Some((Reread(v), |EncodeInfo(v)|))
  {
    TokensAtSelf(EncodeInfo(v));
    DecodeEncoded(EncodeInfo(v), 0, v);
  }

  /** `read(write(info))` reproduces every wire field when the lists are already id-deduplicated. */
  lemma RoundTrip(v: InfoValue)
    requires UniqueIds(v.capabilities) && UniqueIds(v.currentStates)
    ensures DecodeInfo(EncodeInfo(v), 0) == Some((v.(traits := []), |EncodeInfo(v)|))
  {
    assert [] + v.capabilities == v.capabilities;
    AddAllOfUnique([], v.capabilities);
    assert [] + v.currentStates == v.currentStates;
    AddAllOfUnique([], v.currentStates);
    DecodeWritten(v);
  }

  /** Duplicate ids in a written list collapse, on reading, to their first occurrence. */
  lemma DuplicatesCollapseToFirst(v: InfoValue, id: ResourceLocation)
    ensures DecodeInfo(EncodeInfo(v), 0).Some?
    ensures FirstById(DecodeInfo(EncodeInfo(v), 0).value.0.capabilities, id) == FirstById(v.capabilities, id)
    ensures FirstById(DecodeInfo(EncodeInfo(v), 0).value.0.currentStates, id) == FirstById(v.currentStates, id)
  {
    DecodeWritten(v);
    assert [] + v.capabilities == v.capabilities && [] + v.currentStates == v.currentStates;
    AddAllKeepsFirst([], v.capabilities, id);
    AddAllKeepsFirst([], v.currentStates, id);
  }

  // ---- the mutable info object ------------------------------------------------------------------

  class MobScopedInfo {
    const entityId: ResourceLocation
    var capabilities: seq<Trait>
    var currentStates: seq<Trait>
    var traits: seq<Trait>
    var uuid: Option<Uuid>
    var maxHealth: real
    var attackDamage: real
    var movementSpeed: real
    var armor: real

    /** Both id-deduplicated lists hold distinct ids. */
    ghost predicate Valid()
      reads this
    {
      UniqueIds(capabilities) && UniqueIds(currentStates)
    }

    function Snapshot(): InfoValue
      reads this
    {
      InfoValue(entityId, uuid, maxHealth, attackDamage, movementSpeed, armor,
                capabilities, currentStates, traits)
    }

    constructor(entityId: ResourceLocation)
      ensures Valid() && Snapshot() == Empty(entityId)
    {
      this.entityId := entityId;
      capabilities := [];
      currentStates := [];
      traits := [];
      uuid := None;
      maxHealth := 0.0;
      attackDamage := 0.0;
      movementSpeed := 0.0;
      armor := 0.0;
    }

    predicate HasCapability(t: Trait)
      reads this
    {
      HasId(capabilities, t.id)
    }

    predicate HasState(t: Trait)
      reads this
    {
      HasId(currentStates, t.id)
    }

    /** Appends `t` unless a capability with its id is present; nothing else changes. */
    method AddCapability(t: Trait)
      requires Valid()
      modifies this`capabilities
      ensures Valid()
      ensures capabilities == AddById(old(capabilities), t)
    {
      if !HasCapability(t) {
        AddByIdKeepsUnique(capabilities, t);
        capabilities := capabilities + [t];
      }
    }

    /** Appends `t` unless a state with its id is present; nothing else changes. */
    method AddCurrentState(t: Trait)
      requires Valid()
      modifies this`currentStates
      ensures Valid()
      ensures currentStates == AddById(old(currentStates), t)
    {
      if !HasState(t) {
        AddByIdKeepsUnique(currentStates, t);
        currentStates := currentStates + [t];
      }
    }

    /** The title-keyed list is a plain list; deduplication is the caller's business. */
    method AddTrait(t: Trait)
      modifies this`traits
      ensures traits == old(traits) + [t]
    {
      traits := traits + [t];
    }

    method SetUuid(u: Option<Uuid>)
      modifies this`uuid
      ensures uuid == u
    {
      uuid := u;
    }

    method SetMaxHealth(x: real)
      modifies this`maxHealth
      ensures maxHealth == x
    {
      maxHealth := x;
    }

    method SetAttackDamage(x: real)
      modifies this`attackDamage
      ensures attackDamage == x
    {
      attackDamage := x;
    }

    method SetMovementSpeed(x: real)
      modifies this`movementSpeed
      ensures movementSpeed == x
    {
      movementSpeed := x;
    }

    method SetArmor(x: real)
      modifies this`armor
      ensures armor == x
    {
      armor := x;
    }

    /** `caps.forEach(info::addCapability)`. */
    method AddAllCapabilities(ts: seq<Trait>)
      requires Valid()
      modifies this`capabilities
      ensures Valid()
      ensures capabilities == AddAllById(old(capabilities), ts)
    {
      var i := 0;
      while i < |ts|
        invariant 0 <= i <= |ts|
        invariant Valid()
        invariant capabilities == AddAllById(old(capabilities), ts[..i])
      {
        assert ts[..i + 1][..i] == ts[..i];
        AddCapability(ts[i]);
        i := i + 1;
      }
      assert ts[..i] == ts;
    }

    /** `states.forEach(info::addCurrentState)`. */
    method AddAllCurrentStates(ts: seq<Trait>)
      requires Valid()
      modifies this`currentStates
      ensures Valid()
      ensures currentStates == AddAllById(old(currentStates), ts)
    {
      var i := 0;
      while i < |ts|
        invariant 0 <= i <= |ts|
        invariant Valid()
        invariant currentStates == AddAllById(old(currentStates), ts[..i])
      {
        assert ts[..i + 1][..i] == ts[..i];
        AddCurrentState(ts[i]);
        i := i + 1;
      }
      assert ts[..i] == ts;
    }
  }

  /** `MobScopedInfo.write`. */
  method Write(buf: ByteBuf, info: MobScopedInfo)
    modifies buf`data
    ensures buf.data == old(buf.data) + EncodeInfo(info.Snapshot())
  {
    ghost var base := buf.data;
    ghost var v := info.Snapshot();
    buf.Write(TLocation(info.entityId));
    WriteOptionalUuid(buf, info.uuid);
    buf.Write(TDouble(info.maxHealth));
    buf.Write(TDouble(info.attackDamage));
    buf.Write(TDouble(info.movementSpeed));
    buf.Write(TDouble(info.armor));
    assert buf.data == base + EncodeHeader(v);
    buf.WriteTraits(info.capabilities);
    buf.WriteTraits(info.currentStates);
    assert buf.data == base + EncodeHeader(v) + EncodeTraits(v.capabilities) + EncodeTraits(v.currentStates);
  }

  /** The first part of `read`: the id, the flagged uuid and the four stats, into a new info. */
  method ReadHeader(buf: ByteBuf) returns (r: Option<MobScopedInfo>)
    modifies buf`readerIndex
    ensures DecodeHeader(buf.data, old(buf.readerIndex)).Some? <==> r.Some?
    ensures r.Some? ==> (fresh(r.value) && r.value.Valid() &&
      DecodeHeader(buf.data, old(buf.readerIndex)) == Some((r.value.Snapshot(), buf.readerIndex)))
  {
    var head := ReadHeaderFields(buf);
    if head.None? { return None; }
    var v := head.value;
    var info := NewWithHeader(v.entityId, v.uuid, v.maxHealth, v.attackDamage, v.movementSpeed, v.armor);
    return Some(info);
  }

  /** The head's reads, one field after the other: the decoded header and the position after it. */
  method ReadHeaderFields(buf: ByteBuf) returns (r: Option<InfoValue>)
    modifies buf`readerIndex
    ensures DecodeHeader(buf.data, old(buf.readerIndex)) == if r.Some? then Some((r.value, buf.readerIndex)) else None
  {
    var id := buf.ReadLocation();
    if id.None? { return None; }
    var uuid := ReadOptionalUuid(buf);
    if uuid.None? { return None; }
    var health := buf.ReadDouble();
    if health.None? { return None; }
    var damage := buf.ReadDouble();
    if damage.None? { return None; }
    var speed := buf.ReadDouble();
    if speed.None? { return None; }
    var armor := buf.ReadDouble();
    if armor.None? { return None; }
    return Some(InfoValue(id.value, uuid.value, health.value, damage.value, speed.value, armor.value, [], [], []));
  }

  /** A new info for `entityId` whose uuid and stats are then set: its lists are empty. */
  method NewWithHeader(entityId: ResourceLocation, uuid: Option<Uuid>, health: real, damage: real, speed: real, armor: real)
    returns (info: MobScopedInfo)
    ensures fresh(info) && info.Valid()
    ensures info.Snapshot() == InfoValue(entityId, uuid, health, damage, speed, armor, [], [], [])
  {
    info := new MobScopedInfo(entityId);
    info.SetUuid(uuid);
    info.SetMaxHealth(health);
    info.SetAttackDamage(damage);
    info.SetMovementSpeed(speed);
    info.SetArmor(armor);
  }

  /** `MobScopedInfo.read`; `None` stands for the decoding exception. */
  method Read(buf: ByteBuf) returns (r: Option<MobScopedInfo>)
    modifies buf`readerIndex
    ensures DecodeInfo(buf.data, old(buf.readerIndex)).Some? <==> r.Some?
    ensures r.Some? ==> (fresh(r.value) && r.value.Valid() &&
      DecodeInfo(buf.data, old(buf.readerIndex)) == Some((r.value.Snapshot(), buf.readerIndex)))
  {
    var head := ReadHeader(buf);
    if head.None? { return None; }
    var info := head.value;
    var caps := buf.ReadTraits();
    if caps.None? { return None; }
    info.AddAllCapabilities(caps.value);
    var states := buf.ReadTraits();
    if states.None? { return None; }
    info.AddAllCurrentStates(states.value);
    return Some(info);
  }
}
