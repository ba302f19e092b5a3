/** Base64 as in section 4 of RFC 4648, without padding: Go's base64.RawStdEncoding. */
module Base64 {
  import opened Text
  import opened Results

  type Sextet = v: nat | v < 64

  function Symbol(v: Sextet): char {
    if v < 26 then 'A' + v as char
    else if v < 52 then 'a' + (v - 26) as char
    else if v < 62 then '0' + (v - 52) as char
    else if v == 62 then '+'
    else '/'
  }

  predicate IsSymbol(c: char) {
    'A' <= c <= 'Z' || 'a' <= c <= 'z' || '0' <= c <= '9' || c == '+' || c == '/'
  }

  function SymbolValue(c: char): Sextet
    requires IsSymbol(c)
  {
    if 'A' <= c <= 'Z' then (c - 'A') as int
    else if 'a' <= c <= 'z' then (c - 'a') as int + 26
    else if '0' <= c <= '9' then (c - '0') as int + 52
    else if c == '+' then 62
    else 63
  }

  lemma SymbolRoundTrip(v: Sextet)
    ensures IsSymbol(Symbol(v)) && SymbolValue(Symbol(v)) == v
  {
  }

  lemma ValueRoundTrip(c: char)
    requires IsSymbol(c)
    ensures Symbol(SymbolValue(c)) == c
  {
  }

  // ------------------------------------------------------------ bits

  // Three bytes become four sextets; the bits missing from a short last group are zero.
  function Pack(data: Bytes): (v: seq<Sextet>) {
    if data == [] then []
    else if |data| == 1 then Quad(data[0], 0, 0)[..2]
    else if |data| == 2 then Quad(data[0], data[1], 0)[..3]
    else Quad(data[0], data[1], data[2]) + Pack(data[3..])
  }

  function Quad(a: byte, b: byte, c: byte): (v: seq<Sextet>)
    ensures |v| == 4
  {
    var (x, y, z) := (a as int, b as int, c as int);
    [x / 4, x % 4 * 16 + y / 16, y % 16 * 4 + z / 64, z % 64]
  }

  function Triple(a: Sextet, b: Sextet, c: Sextet, d: Sextet): (data: Bytes)
    ensures |data| == 3
  {
    [(a * 4 + b / 16) as byte, (b % 16 * 16 + c / 4) as byte, (c % 4 * 64 + d) as byte]
  }

  // One sextet left over is an error; the unused bits of a short last group are ignored.
  function Unpack(v: seq<Sextet>): Option<Bytes> {
    if v == [] then Some([])
    else if |v| == 1 then None
    else if |v| == 2 then Some(Triple(v[0], v[1], 0, 0)[..1])
    else if |v| == 3 then Some(Triple(v[0], v[1], v[2], 0)[..2])
    else
      match Unpack(v[4..])
      case None => None
      case Some(rest) => Some(Triple(v[0], v[1], v[2], v[3]) + rest)
  }

  lemma TripleQuad(a: byte, b: byte, c: byte)
    ensures var v := Quad(a, b, c); Triple(v[0], v[1], v[2], v[3]) == [a, b, c]
  {
  }

  lemma QuadTriple(a: Sextet, b: Sextet, c: Sextet, d: Sextet)
    ensures var data := Triple(a, b, c, d); Quad(data[0], data[1], data[2]) == [a, b, c, d]
  {
    assert (a * 4 + b / 16) / 4 == a && (a * 4 + b / 16) % 4 == b / 16;
    assert (b % 16 * 16 + c / 4) / 16 == b % 16 && (b % 16 * 16 + c / 4) % 16 == c / 4;
    assert (c % 4 * 64 + d) / 64 == c % 4 && (c % 4 * 64 + d) % 64 == d;
  }

  lemma {:induction false} UnpackPack(data: Bytes)
    ensures Unpack(Pack(data)) == Some(data)
  {
    if |data| == 0 {
    } else if |data| == 1 {
      TripleQuad(data[0], 0, 0);
      assert data == [data[0], 0, 0][..1];
    } else if |data| == 2 {
      TripleQuad(data[0], data[1], 0);
      assert data == [data[0], data[1], 0][..2];
    } else {
      UnpackPack(data[3..]);
      TripleQuad(data[0], data[1], data[2]);
      assert Pack(data)[4..] == Pack(data[3..]);
      assert data == [data[0], data[1], data[2]] + data[3..];
    }
  }

  // w is v except perhaps for the last sextet of a short last group.
  predicate Agrees(v: seq<Sextet>, w: seq<Sextet>) {
    |w| == |v| && forall i :: 0 <= i < |v| && (i < |v| - 1 || |v| % 4 == 0) ==> w[i] == v[i]
  }

  lemma {:induction false} PackUnpack(v: seq<Sextet>)
    requires Unpack(v).Some?
    ensures Agrees(v, Pack(Unpack(v).value))
  {
    if |v| == 0 {
    } else if |v| == 2 {
      QuadTriple(v[0], v[1], 0, 0);
    } else if |v| == 3 {
      QuadTriple(v[0], v[1], v[2], 0);
    } else {
      hide Quad, Triple;
      PackUnpack(v[4..]);
      QuadTriple(v[0], v[1], v[2], v[3]);
      var data, rest := Unpack(v).value, Unpack(v[4..]).value;
      assert data[3..] == rest;
      assert Pack(data) == v[..4] + Pack(rest);
    }
  }

  // ------------------------------------------------------------ symbols

  function Symbols(v: seq<Sextet>): (s: string)
    ensures |s| == |v| && forall i :: 0 <= i < |s| ==> IsSymbol(s[i])
  {
    seq(|v|, i requires 0 <= i < |v| => Symbol(v[i]))
  }

  function Values(s: string): (v: seq<Sextet>)
    requires forall i :: 0 <= i < |s| ==> IsSymbol(s[i])
    ensures |v| == |s|
  {
    seq(|s|, i requires 0 <= i < |s| => SymbolValue(s[i]))
  }

  // The decoder skips line ends wherever they stand.
  function Significant(s: string): string {
    if s == "" then ""
    else (if s[0] == '\r' || s[0] == '\n' then "" else [s[0]]) + Significant(s[1..])
  }

  // RawStdEncoding.EncodeToString
  function Encode(data: Bytes): string {
    Symbols(Pack(data))
  }

  // RawStdEncoding.DecodeString
  function Decode(s: string): Option<Bytes> {
    var t := Significant(s);
    if forall i :: 0 <= i < |t| ==> IsSymbol(t[i]) then Unpack(Values(t)) else None
  }

  // The number that three bytes from the n-th on make, the first the most significant, zero bits
  // behind the end; and the one that four symbols make
  function ByteGroup(data: Bytes, n: nat): nat {
    ByteAt(data, n) * 0x1_0000 + ByteAt(data, n + 1) * 0x100 + ByteAt(data, n + 2)
  }

  function ByteAt(data: Bytes, n: nat): nat {
    if n < |data| then data[n] as nat else 0
  }

  function SextetGroup(v: seq<Sextet>, n: nat): nat {
    SextetAt(v, n) * 0x4_0000 + SextetAt(v, n + 1) * 0x1000 + SextetAt(v, n + 2) * 0x40 + SextetAt(v, n + 3)
  }

  function SextetAt(v: seq<Sextet>, n: nat): nat {
    if n < |v| then v[n] else 0
  }

  // The encoding of section 4 of RFC 4648: every three bytes and the four symbols for them are
  // the same number of 24 bits; symbols without a bit of their own are left out.
  lemma {:induction false} EncodedBits(data: Bytes, g: nat)
    requires 3 * g < |data|
    ensures |Encode(data)| == (4 * |data| + 2) / 3
    ensures SextetGroup(Values(Encode(data)), 4 * g) == ByteGroup(data, 3 * g)
  {
    PackedBits(data, g);
    ValuesOfSymbols(Pack(data));
  }

  lemma {:induction false} PackedBits(data: Bytes, g: nat)
    requires 3 * g < |data|
    ensures |Pack(data)| == (4 * |data| + 2) / 3
    ensures SextetGroup(Pack(data), 4 * g) == ByteGroup(data, 3 * g)
  {
    hide Quad;
    if |data| > 3 {
      PackedBits(data[3..], if g == 0 then 0 else g - 1);
      if g > 0 {
        assert SextetGroup(Pack(data), 4 * g) == SextetGroup(Pack(data[3..]), 4 * (g - 1));
        assert ByteGroup(data, 3 * g) == ByteGroup(data[3..], 3 * (g - 1));
      }
    }
    if g == 0 {
      QuadBits(data[0], if |data| > 1 then data[1] else 0, if |data| > 2 then data[2] else 0);
    }
  }

  lemma QuadBits(a: byte, b: byte, c: byte)
    ensures SextetGroup(Quad(a, b, c), 0) == ByteGroup([a, b, c], 0)
    ensures b == c == 0 ==> Quad(a, b, c)[2] == Quad(a, b, c)[3] == 0
    ensures c == 0 ==> Quad(a, b, c)[3] == 0
  {
  }

  lemma ValuesOfSymbols(v: seq<Sextet>)
    ensures Values(Symbols(v)) == v
  {
    forall i | 0 <= i < |v| ensures Values(Symbols(v))[i] == v[i] {
      SymbolRoundTrip(v[i]);
    }
  }

  // A test vector of section 10 of RFC 4648, and bytes that need the last two symbols
  lemma EncodedVectors()
    ensures Encode([0x66, 0x6F, 0x6F, 0x62]) == "Zm9vYg" && Encode([0xFB, 0xFF, 0xBF]) == "+/+/"
    ensures Encode([0xD3, 0x5D]) == "010"
  {
    var foob: Bytes := [0x66, 0x6F, 0x6F, 0x62];
    assert foob[3..] == [0x62];
    assert Pack(foob) == [25, 38, 61, 47, 24, 32];
    assert Pack([0xFB, 0xFF, 0xBF]) == [62, 63, 62, 63];
    assert Pack([0xD3, 0x5D]) == [52, 53, 52];
  }

  // The decoder accepts exactly the strings of symbols, line ends apart, that do not leave one
  // symbol over.
  lemma {:induction false} DecodesIff(s: string)
    ensures Decode(s).Some? <==>
              && (forall c :: c in s ==> IsSymbol(c) || c == '\r' || c == '\n')
              && (|s| - multiset(s)['\r'] - multiset(s)['\n']) % 4 != 1
  {
    hide IsSymbol;
    SignificantCount(s);
    var t := Significant(s);
    if forall i :: 0 <= i < |t| ==> IsSymbol(t[i]) { UnpacksIff(Values(t)); }
  }

  lemma {:induction false} SignificantCount(s: string)
    ensures |Significant(s)| == |s| - multiset(s)['\r'] - multiset(s)['\n']
    ensures (forall c :: c in Significant(s) ==> IsSymbol(c)) <==>
              forall c :: c in s ==> IsSymbol(c) || c == '\r' || c == '\n'
  {
    hide IsSymbol;
    if s != "" {
      SignificantCount(s[1..]);
      assert s == [s[0]] + s[1..];
      var head := if s[0] == '\r' || s[0] == '\n' then "" else [s[0]];
      assert forall c :: c in Significant(s) <==> c in head || c in Significant(s[1..]);
      assert forall c :: c in s <==> c == s[0] || c in s[1..];
    }
  }

  lemma {:induction false} UnpacksIff(v: seq<Sextet>)
    ensures Unpack(v).Some? <==> |v| % 4 != 1
  {
    hide Triple;
    if |v| >= 4 { UnpacksIff(v[4..]); }
  }

  lemma {:induction false} SignificantSymbols(s: string)
    requires forall i :: 0 <= i < |s| ==> IsSymbol(s[i])
    ensures Significant(s) == s
  {
    if s != "" {
      SignificantSymbols(s[1..]);
      assert s == [s[0]] + s[1..];
    }
  }

  lemma DecodeEncode(data: Bytes)
    ensures Decode(Encode(data)) == Some(data)
  {
    var v := Pack(data);
    SignificantSymbols(Symbols(v));
    ValuesOfSymbols(v);
    UnpackPack(data);
  }

  // Whatever the decoder accepts is, line ends apart, the encoding of the result, except that
  // the last symbol of a short group may carry bits the decoder drops.
  lemma {:induction false} EncodeDecode(s: string)
    requires Decode(s).Some?
    ensures var t, u := Significant(s), Encode(Decode(s).value);
            |u| == |t| && forall i :: 0 <= i < |t| && (i < |t| - 1 || |t| % 4 == 0) ==> u[i] == t[i]
  {
    var t, u := Significant(s), Encode(Decode(s).value);
    PackUnpack(Values(t));
    forall i | 0 <= i < |t| && (i < |t| - 1 || |t| % 4 == 0) ensures u[i] == t[i] {
      ValueRoundTrip(t[i]);
    }
  }
}
