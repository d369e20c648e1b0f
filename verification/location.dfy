/**
 * Resource locations (`namespace:path` identifiers) and UUIDs, the two identifier
 * types that travel in the core's messages and key its maps.
 */
module Location {
  import opened Wrappers
  import Text

  const DEFAULT_NAMESPACE := "minecraft"
  const MODID := "ethology"

  datatype ResourceLocation = ResourceLocation(namespace: string, path: string)

  function LocToString(l: ResourceLocation): string {
    l.namespace + ":" + l.path
  }

  predicate ValidNamespaceChar(c: char) {
    c == '_' || c == '-' || ('a' <= c <= 'z') || ('0' <= c <= '9') || c == '.'
  }

  predicate ValidPathChar(c: char) {
    ValidNamespaceChar(c) || c == '/'
  }

  predicate ValidNamespace(s: string) {
    forall i | 0 <= i < |s| :: ValidNamespaceChar(s[i])
  }

  predicate ValidPath(s: string) {
    forall i | 0 <= i < |s| :: ValidPathChar(s[i])
  }

  /** Index of the first occurrence of `c` in `s`. */
  function IndexOf(s: string, c: char): (r: Option<nat>)
    ensures r.None? <==> c !in s
    ensures r.Some? ==> r.value < |s| && s[r.value] == c && c !in s[..r.value]
  {
    if s == [] then None
    else if s[0] == c then Some(0)
    else match IndexOf(s[1..], c)
      case None => None
      case Some(k) => assert s[1..][..k] == s[1..k + 1]; Some(k + 1)
  }

  /**
   * `ResourceLocation.parse`: split at the first ':' (no ':' or a leading ':' gives the
   * default namespace), then reject illegal characters (the source throws; here `None`).
   */
  function ParseLocation(s: string): (r: Option<ResourceLocation>)
    ensures r.Some? ==> ValidNamespace(r.value.namespace) && ValidPath(r.value.path)
    ensures r.Some? ==> r.value.namespace != ""
  {
    var (ns, path) :=
      match IndexOf(s, ':')
      case None => (DEFAULT_NAMESPACE, s)
      case Some(i) => (if i >= 1 then s[..i] else DEFAULT_NAMESPACE, s[i + 1..]);
    if ns != "" && ValidNamespace(ns) && ValidPath(path) then Some(ResourceLocation(ns, path)) else None
  }

  /** A well-formed location printed and parsed again is the same location. */
  lemma ParsePrinted(l: ResourceLocation)
    requires l.namespace != "" && ValidNamespace(l.namespace) && ValidPath(l.path)
    ensures ParseLocation(LocToString(l)) == Some(l)
  {
    var s := LocToString(l);
    var n := |l.namespace|;
    forall k | 0 <= k < n ensures s[k] != ':' {
      assert s[k] == l.namespace[k];
      assert ValidNamespaceChar(l.namespace[k]);
    }
    assert s[n] == ':';
    var idx := IndexOf(s, ':');
    assert idx.Some?;
    assert idx.value >= n;
    assert s[..idx.value][..] == s[..idx.value];
    assert idx.value <= n by {
      assert forall k :: 0 <= k < idx.value ==> s[..idx.value][k] == s[k];
    }
    assert s[..n] == l.namespace;
    assert s[|l.namespace| + 1..] == l.path;
  }

  /** A UUID as its two 64-bit halves, read as unsigned numbers. */
  datatype Uuid = Uuid(hi: nat, lo: nat)

  const TWO32: nat := 0x1_0000_0000
  const TWO16: nat := 0x1_0000
  const TWO48: nat := 0x1_0000_0000_0000

  /** `UUID.toString`: 8-4-4-4-12 lower-case hexadecimal digits. */
  function UuidString(u: Uuid): (r: string)
    ensures |r| == 36
    ensures r[8] == r[13] == r[18] == r[23] == '-'
    ensures r[..8] == Text.HexDigits(u.hi / TWO32, 8) && r[9..13] == Text.HexDigits(u.hi / TWO16, 4) &&
            r[14..18] == Text.HexDigits(u.hi, 4) && r[19..23] == Text.HexDigits(u.lo / TWO48, 4) &&
            r[24..] == Text.HexDigits(u.lo, 12)
    ensures forall k | 0 <= k < 36 && k !in {8, 13, 18, 23} :: r[k] in Text.HEX_DIGITS
  {
    Text.HexDigits(u.hi / TWO32, 8) + "-" + Text.HexDigits(u.hi / TWO16, 4) + "-" +
    Text.HexDigits(u.hi, 4) + "-" + Text.HexDigits(u.lo / TWO48, 4) + "-" + Text.HexDigits(u.lo, 12)
  }
}
