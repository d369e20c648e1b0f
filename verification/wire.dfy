/**
 * A network buffer.  Each primitive the core writes (resource location, boolean, UUID,
 * double, list count, trait) is one token; its byte-level encoding belongs to the engine.
 * Reading a token of the wrong kind, or past the end, fails.
 */
module Wire {
  import opened Wrappers
  import opened Location
  import opened Traits

  datatype Token =
    | TLocation(loc: ResourceLocation)
    | TBool(b: bool)
    | TUuid(uuid: Uuid)
    | TDouble(d: real)
    | TCount(n: int)
    | TTrait(t: Trait)

  function LocationAt(toks: seq<Token>, pos: nat): Option<ResourceLocation> {
    if pos < |toks| && toks[pos].TLocation? then Some(toks[pos].loc) else None
  }

  function BoolAt(toks: seq<Token>, pos: nat): Option<bool> {
    if pos < |toks| && toks[pos].TBool? then Some(toks[pos].b) else None
  }

  function UuidAt(toks: seq<Token>, pos: nat): Option<Uuid> {
    if pos < |toks| && toks[pos].TUuid? then Some(toks[pos].uuid) else None
  }

  function DoubleAt(toks: seq<Token>, pos: nat): Option<real> {
    if pos < |toks| && toks[pos].TDouble? then Some(toks[pos].d) else None
  }

  function CountAt(toks: seq<Token>, pos: nat): Option<int> {
    if pos < |toks| && toks[pos].TCount? then Some(toks[pos].n) else None
  }

  function TraitAt(toks: seq<Token>, pos: nat): Option<Trait> {
    if pos < |toks| && toks[pos].TTrait? then Some(toks[pos].t) else None
  }

  /** The tokens of the elements of a trait list, in order. */
  function TraitTokens(ts: seq<Trait>): (r: seq<Token>)
    ensures |r| == |ts|
    ensures forall k | 0 <= k < |ts| :: r[k] == TTrait(ts[k])
  {
    if ts == [] then [] else TraitTokens(ts[..|ts| - 1]) + [TTrait(ts[|ts| - 1])]
  }

  /** A list as `ByteBufCodecs.list()` writes it: the count, then each element. */
  function EncodeTraits(ts: seq<Trait>): (r: seq<Token>)
    ensures |r| == |ts| + 1
  {
    [TCount(|ts|)] + TraitTokens(ts)
  }

  /** The `n` traits read one after another from `pos`. */
  function TraitsFrom(toks: seq<Token>, pos: nat, n: nat): (r: Option<seq<Trait>>)
    ensures r.Some? ==> |r.value| == n && (n > 0 ==> pos + n <= |toks|)
  {
    if n == 0 then Some([])
    else
      var init :- TraitsFrom(toks, pos, n - 1);
      var t :- TraitAt(toks, pos + n - 1);
      Some(init + [t])
  }

  /** A list as `ByteBufCodecs.list()` reads it: a non-negative count, then that many traits. */
  function DecodeTraits(toks: seq<Token>, pos: nat): (r: Option<(seq<Trait>, nat)>)
    ensures r.Some? ==> r.value.1 == pos + 1 + |r.value.0| <= |toks|
  {
    var n :- CountAt(toks, pos);
    if n < 0 then None
    else
      var ts :- TraitsFrom(toks, pos + 1, n);
      Some((ts, pos + 1 + n))
  }

  /** Reading `|ts|` traits where their tokens lie gives exactly `ts`. */
  lemma {:induction false} TraitsFromTokens(toks: seq<Token>, pos: nat, ts: seq<Trait>)
    requires forall k | 0 <= k < |ts| :: pos + k < |toks| && toks[pos + k] == TTrait(ts[k])
    ensures TraitsFrom(toks, pos, |ts|) == Some(ts)
  {
    if ts != [] {
      var n := |ts|;
      TraitsFromTokens(toks, pos, ts[..n - 1]);
      assert ts[..n - 1] + [ts[n - 1]] == ts;
    }
  }

  /** `e` lies in `toks` from `pos` on. */
  predicate TokensAt(toks: seq<Token>, pos: nat, e: seq<Token>) {
    pos + |e| <= |toks| && forall k | 0 <= k < |e| :: toks[pos + k] == e[k]
  }

  /** A stream read from its own start holds itself. */
  lemma TokensAtSelf(e: seq<Token>)
    ensures TokensAt(e, 0, e)
  {
    forall k | 0 <= k < |e| ensures e[0 + k] == e[k] {
    }
  }

  lemma TokensAtSplit(toks: seq<Token>, pos: nat, a: seq<Token>, b: seq<Token>)
    requires TokensAt(toks, pos, a + b)
    ensures TokensAt(toks, pos, a) && TokensAt(toks, pos + |a|, b)
  {
    forall k | 0 <= k < |a| ensures toks[pos + k] == a[k] {
      assert toks[pos + k] == (a + b)[k];
    }
    forall k | 0 <= k < |b| ensures toks[pos + |a| + k] == b[k] {
      assert toks[pos + (|a| + k)] == (a + b)[|a| + k];
    }
  }

  /** Decoding an encoded list, wherever it sits in the stream, gives it back and stops right after it. */
  lemma DecodeEncodedTraits(toks: seq<Token>, pos: nat, ts: seq<Trait>)
    requires TokensAt(toks, pos, EncodeTraits(ts))
    ensures DecodeTraits(toks, pos) == Some((ts, pos + |EncodeTraits(ts)|))
  {
    var e := EncodeTraits(ts);
    assert toks[pos + 0] == e[0];
    forall k | 0 <= k < |ts|
      ensures pos + 1 + k < |toks| && toks[pos + 1 + k] == TTrait(ts[k])
    {
      assert toks[pos + (1 + k)] == e[1 + k] == TraitTokens(ts)[k];
    }
    TraitsFromTokens(toks, pos + 1, ts);
  }

  /** A boolean presence flag, then the UUID only when the flag is true. */
  function OptionalUuidTokens(u: Option<Uuid>): (r: seq<Token>)
    ensures |r| == if u.Some? then 2 else 1
  {
    [TBool(u.Some?)] + (if u.Some? then [TUuid(u.value)] else [])
  }

  /** Reading the flag, then a UUID only when it is true. */
  function DecodeOptionalUuid(toks: seq<Token>, pos: nat): (r: Option<(Option<Uuid>, nat)>)
    ensures r.Some? ==> r.value.1 == pos + (if r.value.0.Some? then 2 else 1) <= |toks|
  {
    var flag :- BoolAt(toks, pos);
    if flag then
      var u :- UuidAt(toks, pos + 1);
      Some((Some(u), pos + 2))
    else Some((None, pos + 1))
  }

  lemma DecodeEncodedOptionalUuid(toks: seq<Token>, pos: nat, u: Option<Uuid>)
    requires TokensAt(toks, pos, OptionalUuidTokens(u))
    ensures DecodeOptionalUuid(toks, pos) == Some((u, pos + |OptionalUuidTokens(u)|))
  {
    assert toks[pos + 0] == OptionalUuidTokens(u)[0];
    if u.Some? {
      assert toks[pos + 1] == OptionalUuidTokens(u)[1];
    }
  }

  /** The buffer: its tokens and the reader position. */
  class ByteBuf {
    var data: seq<Token>
    var readerIndex: nat

    constructor(data: seq<Token>)
      ensures this.data == data && readerIndex == 0
    {
      this.data := data;
      readerIndex := 0;
    }

    method Write(t: Token)
      modifies this`data
      ensures data == old(data) + [t]
    {
      data := data + [t];
    }

    method ReadLocation() returns (r: Option<ResourceLocation>)
      modifies this`readerIndex
      ensures r == LocationAt(data, old(readerIndex))
      ensures readerIndex == if r.Some? then old(readerIndex) + 1 else old(readerIndex)
    {
      r := LocationAt(data, readerIndex);
      if r.Some? { readerIndex := readerIndex + 1; }
    }

    method ReadBool() returns (r: Option<bool>)
      modifies this`readerIndex
      ensures r == BoolAt(data, old(readerIndex))
      ensures readerIndex == if r.Some? then old(readerIndex) + 1 else old(readerIndex)
    {
      r := BoolAt(data, readerIndex);
      if r.Some? { readerIndex := readerIndex + 1; }
    }

    method ReadUuid() returns (r: Option<Uuid>)
      modifies this`readerIndex
      ensures r == UuidAt(data, old(readerIndex))
      ensures readerIndex == if r.Some? then old(readerIndex) + 1 else old(readerIndex)
    {
      r := UuidAt(data, readerIndex);
      if r.Some? { readerIndex := readerIndex + 1; }
    }

    method ReadDouble() returns (r: Option<real>)
      modifies this`readerIndex
      ensures r == DoubleAt(data, old(readerIndex))
      ensures readerIndex == if r.Some? then old(readerIndex) + 1 else old(readerIndex)
    {
      r := DoubleAt(data, readerIndex);
      if r.Some? { readerIndex := readerIndex + 1; }
    }

    /** `ByteBufCodecs.list()` encoding of a trait list. */
    method WriteTraits(ts: seq<Trait>)
      modifies this`data
      ensures data == old(data) + EncodeTraits(ts)
    {
      data := data + [TCount(|ts|)];
      var i := 0;
      while i < |ts|
        invariant 0 <= i <= |ts|
        invariant data == old(data) + [TCount(|ts|)] + TraitTokens(ts[..i])
      {
        assert ts[..i + 1][..i] == ts[..i];
        data := data + [TTrait(ts[i])];
        i := i + 1;
      }
      assert ts[..i] == ts;
    }

    /** `ByteBufCodecs.list()` decoding of a trait list. */
    method ReadTraits() returns (r: Option<seq<Trait>>)
      modifies this`readerIndex
      ensures DecodeTraits(data, old(readerIndex)).Some? <==> r.Some?
      ensures r.Some? ==> DecodeTraits(data, old(readerIndex)) == Some((r.value, readerIndex))
    {
      var start := readerIndex;
      var n := CountAt(data, readerIndex);
      if n.None? || n.value < 0 {
        return None;
      }
      readerIndex := readerIndex + 1;
      var ts: seq<Trait> := [];
      var i := 0;
      while i < n.value
        invariant 0 <= i <= n.value
        invariant readerIndex == start + 1 + i
        invariant TraitsFrom(data, start + 1, i) == Some(ts)
      {
        var t := TraitAt(data, readerIndex);
        if t.None? {
          assert TraitsFrom(data, start + 1, i + 1).None?;
          NoMoreTraits(data, start + 1, i + 1, n.value);
          return None;
        }
        ts := ts + [t.value];
        readerIndex := readerIndex + 1;
        i := i + 1;
      }
      r := Some(ts);
    }
  }

  /** The buffer's optional-UUID write, shared by the codecs that carry a flagged UUID. */
  method WriteOptionalUuid(buf: ByteBuf, u: Option<Uuid>)
    modifies buf`data
    ensures buf.data == old(buf.data) + OptionalUuidTokens(u)
  {
    buf.Write(TBool(u.Some?));
    if u.Some? {
      buf.Write(TUuid(u.value));
    }
  }

  /** The buffer's optional-UUID read, shared by the codecs that carry a flagged UUID. */
  method ReadOptionalUuid(buf: ByteBuf) returns (r: Option<Option<Uuid>>)
    modifies buf`readerIndex
    ensures DecodeOptionalUuid(buf.data, old(buf.readerIndex)).Some? <==> r.Some?
    ensures r.Some? ==> DecodeOptionalUuid(buf.data, old(buf.readerIndex)) == Some((r.value, buf.readerIndex))
  {
    var flag := buf.ReadBool();
    if flag.None? { return None; }
    if flag.value {
      var u := buf.ReadUuid();
      if u.None? { return None; }
      return Some(Some(u.value));
    }
    return Some(None);
  }

  /** Once `k` traits cannot be read, no longer list can be read either. */
  lemma {:induction false} NoMoreTraits(toks: seq<Token>, pos: nat, k: nat, n: nat)
    requires k <= n && TraitsFrom(toks, pos, k).None?
    ensures TraitsFrom(toks, pos, n).None?
    decreases n - k
  {
    if k < n {
      NoMoreTraits(toks, pos, k + 1, n);
    }
  }
}
