/** The decoding of UTF-8 by Go's range loop and package unicode/utf8. */
module Utf8 {
  import opened Text

  function Code(s: string, i: nat): int {
    if i < |s| then s[i] as int else -1
  }

  predicate Continuation(b: int) {
    0x80 <= b <= 0xBF
  }

  // The number of bytes of the valid rune at the start of s, 0 when there is none
  function RuneWidth(s: string): (w: nat)
    ensures w <= 4 && w <= |s|
    ensures forall i :: 1 <= i < w ==> s[i] as int >= 0x80
    ensures w > 1 ==> s[0] as int >= 0xC2
  {
    var b0, b1, b2, b3 := Code(s, 0), Code(s, 1), Code(s, 2), Code(s, 3);
    if 0 <= b0 < 0x80 then 1
    else if 0xC2 <= b0 <= 0xDF && Continuation(b1) then 2
    else if 0xE0 <= b0 <= 0xEF && Continuation(b1) && Continuation(b2)
         && (b0 == 0xE0 ==> b1 >= 0xA0) && (b0 == 0xED ==> b1 <= 0x9F) then 3
    else if 0xF0 <= b0 <= 0xF4 && Continuation(b1) && Continuation(b2) && Continuation(b3)
         && (b0 == 0xF0 ==> b1 >= 0x90) && (b0 == 0xF4 ==> b1 <= 0x8F) then 4
    else 0
  }

  // A Unicode scalar value, and its encoding in section 3 of RFC 3629
  predicate Scalar(r: nat) {
    r < 0xD800 || 0xE000 <= r < 0x11_0000
  }

  function Encoding(r: nat): (s: string)
    requires Scalar(r)
    ensures 1 <= |s| <= 4
  {
    if r < 0x80 then [r as char]
    else if r < 0x800 then [(0xC0 + r / 64) as char, Tail(r)]
    else if r < 0x1_0000 then [(0xE0 + r / 4096) as char, Tail(r / 64), Tail(r)]
    else [(0xF0 + r / 0x4_0000) as char, Tail(r / 4096), Tail(r / 64), Tail(r)]
  }

  // The six lowest bits of r in a continuation byte
  function Tail(r: nat): char {
    (0x80 + r % 64) as char
  }

  // The runes that are read are the encodings of the scalar values, each with its length.
  lemma EncodingIsRead(r: nat, rest: string)
    requires Scalar(r)
    ensures RuneWidth(Encoding(r) + rest) == |Encoding(r)|
  {
    EncodingWidth(r);
    WidthStays(Encoding(r), rest);
  }

  lemma EncodingWidth(r: nat)
    requires Scalar(r)
    ensures RuneWidth(Encoding(r)) == |Encoding(r)|
  {
    if 0x800 <= r < 0x1_0000 {
      assert r / 64 == r / 4096 * 64 + r / 64 % 64;
    } else if 0x1_0000 <= r {
      assert r / 4096 == r / 0x4_0000 * 64 + r / 4096 % 64;
    }
  }

  lemma WidthStays(s: string, rest: string)
    requires RuneWidth(s) == |s| > 0
    ensures RuneWidth(s + rest) == |s|
  {
    assert forall i :: 0 <= i < |s| ==> Code(s + rest, i) == Code(s, i);
  }

  lemma ReadIsEncoding(s: string)
    requires RuneWidth(s) > 0
    ensures exists r: nat :: Scalar(r) && s[..RuneWidth(s)] == Encoding(r)
  {
    hide Encoding;
    var w := RuneWidth(s);
    if w == 1 {
      OneByte(s[0]);
      assert s[..1] == [s[0]];
    } else if w == 2 {
      TwoBytes(s[0], s[1]);
      assert s[..2] == [s[0], s[1]];
    } else if w == 3 {
      ThreeBytes(s[0], s[1], s[2]);
      assert s[..3] == [s[0], s[1], s[2]];
    } else {
      FourBytes(s[0], s[1], s[2], s[3]);
      assert s[..4] == [s[0], s[1], s[2], s[3]];
    }
  }

  lemma OneByte(a: char)
    requires a as int < 0x80
    ensures exists r: nat :: Scalar(r) && [a] == Encoding(r)
  {
    assert [a] == Encoding(a as nat);
  }

  lemma TwoBytes(a: char, b: char)
    requires RuneWidth([a, b]) == 2
    ensures exists r: nat :: Scalar(r) && [a, b] == Encoding(r)
  {
    var r: nat := (a as int - 0xC0) * 64 + (b as int - 0x80);
    assert [a, b] == Encoding(r);
  }

  lemma ThreeBytes(a: char, b: char, c: char)
    requires RuneWidth([a, b, c]) == 3
    ensures exists r: nat :: Scalar(r) && [a, b, c] == Encoding(r)
  {
    var x, y, z := a as int - 0xE0, b as int - 0x80, c as int - 0x80;
    var r: nat := x * 4096 + y * 64 + z;
    assert r / 64 == x * 64 + y && r / 4096 == x;
    assert [a, b, c] == Encoding(r);
  }

  lemma FourBytes(a: char, b: char, c: char, d: char)
    requires RuneWidth([a, b, c, d]) == 4
    ensures exists r: nat :: Scalar(r) && [a, b, c, d] == Encoding(r)
  {
    var x, y, z, t := a as int - 0xF0, b as int - 0x80, c as int - 0x80, d as int - 0x80;
    var r: nat := x * 0x4_0000 + y * 4096 + z * 64 + t;
    assert r / 64 == x * 4096 + y * 64 + z && r / 4096 == x * 64 + y && r / 0x4_0000 == x;
    assert [a, b, c, d] == Encoding(r);
  }

  // utf8.ValidString
  predicate Valid(s: string) {
    s == "" || (RuneWidth(s) > 0 && Valid(s[RuneWidth(s)..]))
  }

  lemma {:induction false} ValidAscii(s: string)
    requires forall i :: 0 <= i < |s| ==> s[i] as int < 0x80
    ensures Valid(s)
  {
    if s != "" { ValidAscii(s[1..]); }
  }

  // No rune straddles a slash, so what stands before one is valid by itself.
  lemma {:induction false} ValidBeforeSlash(a: string, b: string)
    requires Valid(a + "/" + b)
    ensures Valid(a)
    decreases |a|
  {
    if a != "" {
      var s := a + "/" + b;
      var w := RuneWidth(s);
      assert s[|a|] == '/';
      assert w <= |a|;
      assert forall i: nat :: i < |a| ==> Code(s, i) == Code(a, i);
      assert RuneWidth(a) == w;
      assert s[w..] == a[w..] + "/" + b;
      ValidBeforeSlash(a[w..], b);
    }
  }

  // utf8.RuneCountInString: an invalid byte counts as one rune.
  function RuneCount(s: string): nat {
    if s == "" then 0
    else 1 + RuneCount(s[if RuneWidth(s) == 0 then 1 else RuneWidth(s)..])
  }
}
