/** The API-key text: the URL-safe Base64 alphabet of RFC 4648, section 5,
    without padding, applied to random bytes. A decoder is given as the
    encoder's inverse. */
module ApiKeyCodec {

  newtype Byte = x: int | 0 <= x < 256

  /** The 64 symbols of the URL- and filename-safe alphabet. */
  predicate IsUrlSafe(c: char)
  {
    'A' <= c <= 'Z' || 'a' <= c <= 'z' || '0' <= c <= '9' || c == '-' || c == '_'
  }

  function Symbol(v: int): (c: char)
    requires 0 <= v < 64
    ensures IsUrlSafe(c)
  {
    if v < 26 then ('A' as int + v) as char
    else if v < 52 then ('a' as int + v - 26) as char
    else if v < 62 then ('0' as int + v - 52) as char
    else if v == 62 then '-'
    else '_'
  }

  function SymbolValue(c: char): (v: int)
    requires IsUrlSafe(c)
    ensures 0 <= v < 64
  {
    if 'A' <= c <= 'Z' then c as int - 'A' as int
    else if 'a' <= c <= 'z' then c as int - 'a' as int + 26
    else if '0' <= c <= '9' then c as int - '0' as int + 52
    else if c == '-' then 62
    else 63
  }

  lemma SymbolRoundTrip(v: int)
    requires 0 <= v < 64
    ensures SymbolValue(Symbol(v)) == v
  {
  }

  /** The four symbols of three bytes. */
  function EncodeGroup(b0: Byte, b1: Byte, b2: Byte): (s: string)
    ensures |s| == 4 && forall i :: 0 <= i < 4 ==> IsUrlSafe(s[i])
  {
    var x0, x1, x2 := b0 as int, b1 as int, b2 as int;
    [Symbol(x0 / 4), Symbol((x0 % 4) * 16 + x1 / 16), Symbol((x1 % 16) * 4 + x2 / 64), Symbol(x2 % 64)]
  }

  /** Base64.getUrlEncoder().withoutPadding().encodeToString: every three
      bytes become four symbols; a final one or two bytes become the first
      two or three symbols of a group padded with zero bytes. */
  function Encode(bytes: seq<Byte>): (s: string)
    ensures |s| == 4 * (|bytes| / 3) + (if |bytes| % 3 == 0 then 0 else |bytes| % 3 + 1)
    ensures forall i :: 0 <= i < |s| ==> IsUrlSafe(s[i])
    decreases |bytes|
  {
    if |bytes| == 0 then ""
    else if |bytes| == 1 then EncodeGroup(bytes[0], 0, 0)[..2]
    else if |bytes| == 2 then EncodeGroup(bytes[0], bytes[1], 0)[..3]
    else EncodeGroup(bytes[0], bytes[1], bytes[2]) + Encode(bytes[3..])
  }

  /** The three bytes of four symbols. */
  function DecodeGroup(c0: char, c1: char, c2: char, c3: char): (b: seq<Byte>)
    requires IsUrlSafe(c0) && IsUrlSafe(c1) && IsUrlSafe(c2) && IsUrlSafe(c3)
    ensures |b| == 3
  {
    var v0, v1, v2, v3 := SymbolValue(c0), SymbolValue(c1), SymbolValue(c2), SymbolValue(c3);
    [(v0 * 4 + v1 / 16) as Byte, ((v1 % 16) * 16 + v2 / 4) as Byte, ((v2 % 4) * 64 + v3) as Byte]
  }

  /** The decoder for unpadded URL-safe text of a length the encoder
      produces: a short final group is completed with 'A' (zero bits). */
  function Decode(s: string): seq<Byte>
    requires forall i :: 0 <= i < |s| ==> IsUrlSafe(s[i])
    requires |s| % 4 != 1
    decreases |s|
  {
    if |s| == 0 then []
    else if |s| == 2 then DecodeGroup(s[0], s[1], 'A', 'A')[..1]
    else if |s| == 3 then DecodeGroup(s[0], s[1], s[2], 'A')[..2]
    else DecodeGroup(s[0], s[1], s[2], s[3]) + Decode(s[4..])
  }

  /** The bit arithmetic of one group, one byte at a time: the first
      byte is its top six bits and the next two. */
  lemma FirstByteBits(x0: int, x1: int)
    requires 0 <= x0 < 256 && 0 <= x1 < 256
    ensures (x0 / 4) * 4 + ((x0 % 4) * 16 + x1 / 16) / 16 == x0
  {
    assert ((x0 % 4) * 16 + x1 / 16) / 16 == x0 % 4;
  }

  lemma SecondByteBits(x1: int, x2: int)
    requires 0 <= x1 < 256 && 0 <= x2 < 256
    ensures (x1 / 16) * 16 + ((x1 % 16) * 4 + x2 / 64) / 4 == x1
  {
    assert ((x1 % 16) * 4 + x2 / 64) / 4 == x1 % 16;
  }

  lemma ThirdByteBits(x1: int, x2: int)
    requires 0 <= x1 < 256 && 0 <= x2 < 256
    ensures (((x1 % 16) * 4 + x2 / 64) % 4) * 64 + x2 % 64 == x2
  {
    assert ((x1 % 16) * 4 + x2 / 64) % 4 == x2 / 64;
  }

  /** One group decodes back to its bytes. */
  lemma GroupRoundTrip(b0: Byte, b1: Byte, b2: Byte)
    ensures var s := EncodeGroup(b0, b1, b2);
            DecodeGroup(s[0], s[1], s[2], s[3]) == [b0, b1, b2]
  {
    var x0, x1, x2 := b0 as int, b1 as int, b2 as int;
    var v0, v1, v2, v3 := x0 / 4, (x0 % 4) * 16 + x1 / 16, (x1 % 16) * 4 + x2 / 64, x2 % 64;
    SymbolRoundTrip(v0);
    SymbolRoundTrip(v1);
    SymbolRoundTrip(v2);
    SymbolRoundTrip(v3);
    FirstByteBits(x0, x1);
    SecondByteBits(x1, x2);
    ThirdByteBits(x1, x2);
    assert v1 % 16 == x1 / 16;
    var s := EncodeGroup(b0, b1, b2);
    assert SymbolValue(s[0]) == v0 && SymbolValue(s[1]) == v1 && SymbolValue(s[2]) == v2 && SymbolValue(s[3]) == v3;
  }

  /** A short group: its missing symbols read as zero, as padding bytes of
      zero encode. */
  lemma ShortGroupRoundTrip(b0: Byte, b1: Byte)
    ensures var s := EncodeGroup(b0, 0, 0); DecodeGroup(s[0], s[1], 'A', 'A')[..1] == [b0]
    ensures var s := EncodeGroup(b0, b1, 0); DecodeGroup(s[0], s[1], s[2], 'A')[..2] == [b0, b1]
  {
    GroupRoundTrip(b0, 0, 0);
    GroupRoundTrip(b0, b1, 0);
    assert Symbol(0) == 'A';
  }

  /** Decoding reads a full leading group on its own. */
  lemma DecodeLeadingGroup(g: string, t: string)
    requires |g| == 4 && forall i :: 0 <= i < 4 ==> IsUrlSafe(g[i])
    requires forall i :: 0 <= i < |t| ==> IsUrlSafe(t[i])
    requires |t| % 4 != 1
    ensures forall i :: 0 <= i < |g + t| ==> IsUrlSafe((g + t)[i])
    ensures |g + t| % 4 != 1
    ensures Decode(g + t) == DecodeGroup(g[0], g[1], g[2], g[3]) + Decode(t)
  {
    var s := g + t;
    assert s[4..] == t;
    assert s[0] == g[0] && s[1] == g[1] && s[2] == g[2] && s[3] == g[3];
  }

  /** Decoding an encoded byte string gives the bytes back. */
  lemma {:induction false} DecodeEncode(bytes: seq<Byte>)
    ensures |Encode(bytes)| % 4 != 1
    ensures Decode(Encode(bytes)) == bytes
    decreases |bytes|
  {
    var s := Encode(bytes);
    if |bytes| == 1 {
      ShortGroupRoundTrip(bytes[0], 0);
    } else if |bytes| == 2 {
      ShortGroupRoundTrip(bytes[0], bytes[1]);
    } else if |bytes| > 2 {
      var g := EncodeGroup(bytes[0], bytes[1], bytes[2]);
      var t := Encode(bytes[3..]);
      assert s == g + t;
      GroupRoundTrip(bytes[0], bytes[1], bytes[2]);
      DecodeEncode(bytes[3..]);
      DecodeLeadingGroup(g, t);
      assert bytes == bytes[..3] + bytes[3..];
    }
  }

  /** generateApiKey for the 32 bytes SecureRandom supplies: 43 symbols. */
  function GenerateApiKey(randomBytes: seq<Byte>): (key: string)
    requires |randomBytes| == 32
    ensures |key| == 43
    ensures forall i :: 0 <= i < |key| ==> IsUrlSafe(key[i])
  {
    Encode(randomBytes)
  }

  /** Different random bytes give different keys. */
  lemma GeneratedKeysDiffer(a: seq<Byte>, b: seq<Byte>)
    requires |a| == 32 && |b| == 32 && a != b
    ensures GenerateApiKey(a) != GenerateApiKey(b)
  {
    DecodeEncode(a);
    DecodeEncode(b);
  }
}
