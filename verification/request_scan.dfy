/** The client-to-server scan request: an entity type id and an optional instance UUID. */
module RequestScan {
  import opened Wrappers
  import opened Location
  import opened Wire

  datatype RequestScanPayload = RequestScanPayload(typeId: ResourceLocation, instanceId: Option<Uuid>)

  /** `write`: the type id, the presence flag, the UUID only when present. */
  function Encode(p: RequestScanPayload): (r: seq<Token>)
    ensures |r| == if p.instanceId.Some? then 3 else 2
  {
    [TLocation(p.typeId)] + OptionalUuidTokens(p.instanceId)
  }

  /** `read`, in `write`'s field order. */
  function Decode(toks: seq<Token>, pos: nat): (r: Option<(RequestScanPayload, nat)>)
    ensures r.Some? ==> r.value.1 == pos + |Encode(r.value.0)| <= |toks|
  {
    var typeId :- LocationAt(toks, pos);
    var inst :- DecodeOptionalUuid(toks, pos + 1);
    Some((RequestScanPayload(typeId, inst.0), inst.1))
  }

  /** A request written anywhere in a stream reads back unchanged, ending right after itself. */
  lemma DecodeEncoded(toks: seq<Token>, pos: nat, p: RequestScanPayload)
    requires TokensAt(toks, pos, Encode(p))
    ensures Decode(toks, pos) == Some((p, pos + |Encode(p)|))
  {
    var e := Encode(p);
    assert toks[pos + 0] == e[0];
    TokensAtSplit(toks, pos, [TLocation(p.typeId)], OptionalUuidTokens(p.instanceId));
    DecodeEncodedOptionalUuid(toks, pos + 1, p.instanceId);
  }

  /** `read(write(p)) == p` for every payload. */
  lemma RoundTrip(p: RequestScanPayload)
    ensures Decode(Encode(p), 0) == Some((p, |Encode(p)|))
  {
    assert TokensAt(Encode(p), 0, Encode(p));
    DecodeEncoded(Encode(p), 0, p);
  }

  /**
   * After the type id, a false flag yields no instance and consumes no UUID; a true flag
   * consumes exactly one UUID token and yields it.
   */
  lemma FlagDecidesUuid(toks: seq<Token>, pos: nat)
    requires LocationAt(toks, pos).Some? && BoolAt(toks, pos + 1).Some?
    ensures BoolAt(toks, pos + 1) == Some(false) ==>
      Decode(toks, pos) == Some((RequestScanPayload(LocationAt(toks, pos).value, None), pos + 2))
    ensures BoolAt(toks, pos + 1) == Some(true) ==>
      (Decode(toks, pos).Some? <==> UuidAt(toks, pos + 2).Some?) &&
      (UuidAt(toks, pos + 2).Some? ==>
        Decode(toks, pos) == Some((RequestScanPayload(LocationAt(toks, pos).value, UuidAt(toks, pos + 2)), pos + 3)))
  {
  }

  method Write(p: RequestScanPayload, buf: ByteBuf)
    modifies buf`data
    ensures buf.data == old(buf.data) + Encode(p)
  {
    buf.Write(TLocation(p.typeId));
    WriteOptionalUuid(buf, p.instanceId);
  }

  method Read(buf: ByteBuf) returns (r: Option<RequestScanPayload>)
    modifies buf`readerIndex
    ensures Decode(buf.data, old(buf.readerIndex)).Some? <==> r.Some?
    ensures r.Some? ==> Decode(buf.data, old(buf.readerIndex)) == Some((r.value, buf.readerIndex))
  {
    var typeId := buf.ReadLocation();
    if typeId.None? { return None; }
    var inst := ReadOptionalUuid(buf);
    if inst.None? { return None; }
    return Some(RequestScanPayload(typeId.value, inst.value));
  }
}
