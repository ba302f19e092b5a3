/** Byte strings, machine integers and the parts of Go's package strings the bridge relies on.
    A Go string is a string of bytes: every char of a modelled string stands for one byte. */
module Text {

  // File contents, salts and digests
  newtype byte = x: int | 0 <= x < 256
  type Bytes = seq<byte>

  // The ranges of int64 and uint64
  const TWO63: int := 0x8000_0000_0000_0000
  const TWO64: int := 0x1_0000_0000_0000_0000

  // True when every char is a byte.
  predicate IsBytes(s: string) {
    forall i :: 0 <= i < |s| ==> s[i] < 256 as char
  }

  // strings.Contains
  predicate Contains(s: string, sub: string) {
    exists i :: 0 <= i <= |s| && sub <= s[i..]
  }

  // What contains a pattern contains what lies inside the pattern.
  lemma ContainsWithin(s: string, pattern: string, at: nat, sub: string)
    requires at <= |pattern| && sub <= pattern[at..]
    ensures Contains(s, pattern) ==> Contains(s, sub)
  {
    if Contains(s, pattern) {
      var k :| 0 <= k <= |s| && pattern <= s[k..];
      assert s[k..][at..] == s[k + at..];
      assert sub <= s[k + at..];
    }
  }

  // A pattern with a char that does not occur is not contained.
  lemma NotContained(s: string, pattern: string, c: char)
    requires c in pattern && c !in s
    ensures !Contains(s, pattern)
  {
    var k :| 0 <= k < |pattern| && pattern[k] == c;
    forall i | 0 <= i <= |s| ensures !(pattern <= s[i..]) {
      assert i + k < |s| ==> s[i..][k] == s[i + k];
    }
  }

  // strings.Split with a one-byte separator
  function Split(s: string, sep: char): (parts: seq<string>)
    ensures |parts| >= 1
    ensures forall i :: 0 <= i < |parts| ==> sep !in parts[i]
  {
    if s == "" then [""]
    else
      var rest := Split(s[1..], sep);
      if s[0] == sep then [""] + rest else [[s[0]] + rest[0]] + rest[1..]
  }

  // There is one part more than there are separators.
  lemma {:induction false} SplitCount(s: string, sep: char)
    ensures |Split(s, sep)| == 1 + multiset(s)[sep]
  {
    if s != "" {
      SplitCount(s[1..], sep);
      assert s == [s[0]] + s[1..];
    }
  }

  // strings.Join with a one-byte separator
  function Join(parts: seq<string>, sep: char): string {
    if |parts| == 0 then ""
    else if |parts| == 1 then parts[0]
    else parts[0] + [sep] + Join(parts[1..], sep)
  }

  lemma {:induction false} SplitNone(s: string, sep: char)
    requires sep !in s
    ensures Split(s, sep) == [s]
  {
    if s != "" {
      SplitNone(s[1..], sep);
      assert [s[0]] + s[1..] == s;
    }
  }

  // Splitting distributes over a separator.
  lemma {:induction false} SplitConcat(a: string, b: string, sep: char)
    ensures Split(a + [sep] + b, sep) == Split(a, sep) + Split(b, sep)
  {
    var s := a + [sep] + b;
    if a == "" {
      assert s[1..] == b;
    } else {
      assert s[1..] == a[1..] + [sep] + b;
      SplitConcat(a[1..], b, sep);
    }
  }

  lemma {:induction false} SplitJoin(parts: seq<string>, sep: char)
    requires |parts| >= 1
    requires forall i :: 0 <= i < |parts| ==> sep !in parts[i]
    ensures Split(Join(parts, sep), sep) == parts
  {
    SplitNone(parts[0], sep);
    if |parts| > 1 {
      SplitJoin(parts[1..], sep);
      SplitConcat(parts[0], Join(parts[1..], sep), sep);
    }
  }

  lemma {:induction false} JoinSplit(s: string, sep: char)
    ensures Join(Split(s, sep), sep) == s
  {
    if s != "" {
      JoinSplit(s[1..], sep);
      var rest := Split(s[1..], sep);
      if s[0] == sep {
        assert Split(s, sep)[1..] == rest;
      } else {
        var parts := Split(s, sep);
        assert parts[1..] == rest[1..];
        assert s == [s[0]] + s[1..];
      }
    }
  }

  // What a part contains, the string contains.
  lemma {:induction false} ContainsPart(s: string, sep: char, i: nat, sub: string)
    requires i < |Split(s, sep)| && Contains(Split(s, sep)[i], sub)
    ensures Contains(s, sub)
  {
    JoinSplit(s, sep);
    ContainsJoin(Split(s, sep), sep, i, sub);
  }

  lemma {:induction false} ContainsJoin(parts: seq<string>, sep: char, i: nat, sub: string)
    requires i < |parts| && Contains(parts[i], sub)
    ensures Contains(Join(parts, sep), sub)
  {
    var s := Join(parts, sep);
    if i == 0 {
      var k :| 0 <= k <= |parts[0]| && sub <= parts[0][k..];
      assert parts[0] <= s;
      assert sub <= s[k..];
    } else {
      ContainsJoin(parts[1..], sep, i - 1, sub);
      var t := Join(parts[1..], sep);
      var k :| 0 <= k <= |t| && sub <= t[k..];
      assert s[|parts[0]| + 1..] == t;
      assert s[|parts[0]| + 1 + k..] == t[k..];
    }
  }

  // A substring without the separator lies inside one part.
  lemma {:induction false} ContainsInPart(parts: seq<string>, sep: char, sub: string)
    requires parts != [] && sub != "" && sep !in sub && Contains(Join(parts, sep), sub)
    ensures exists i :: 0 <= i < |parts| && Contains(parts[i], sub)
  {
    if |parts| > 1 {
      var s, t := Join(parts, sep), Join(parts[1..], sep);
      var k :| 0 <= k <= |s| && sub <= s[k..];
      var n := |parts[0]|;
      if k > n {
        assert s[k..] == t[k - n - 1..];
        ContainsInPart(parts[1..], sep, sub);
        var i :| 0 <= i < |parts[1..]| && Contains(parts[1..][i], sub);
        assert parts[i + 1] == parts[1..][i];
      } else {
        assert k + |sub| <= n by { NotAcross(s, sep, sub, k, n); }
        assert sub <= parts[0][k..];
      }
    }
  }

  lemma NotAcross(s: string, sep: char, sub: string, k: nat, n: nat)
    requires k <= n < |s| && s[n] == sep && sep !in sub && sub <= s[k..]
    ensures k + |sub| <= n
  {
    assert s[k..][n - k] == sep;
  }

  // Joining two non-empty lists puts one separator between them.
  lemma {:induction false} JoinConcat(a: seq<string>, b: seq<string>, sep: char)
    requires |a| >= 1 && |b| >= 1
    ensures Join(a + b, sep) == Join(a, sep) + [sep] + Join(b, sep)
  {
    if |a| == 1 {
      assert (a + b)[1..] == b;
    } else {
      assert (a + b)[1..] == a[1..] + b;
      JoinConcat(a[1..], b, sep);
    }
  }

  // A prefix test against "r/" is a strict prefix test on the parts.
  lemma PrefixIsPartsPrefix(r: string, p: string, sep: char)
    ensures r + [sep] <= p <==> Split(r, sep) < Split(p, sep)
  {
    var rs, ps := Split(r, sep), Split(p, sep);
    if r + [sep] <= p {
      var q := p[|r| + 1..];
      assert p == r + [sep] + q;
      SplitConcat(r, q, sep);
    }
    if rs < ps {
      var q := ps[|rs|..];
      assert ps == rs + q;
      JoinConcat(rs, q, sep);
      JoinSplit(r, sep);
      JoinSplit(p, sep);
    }
  }

  // The decimal rendering of fmt's %d for a non-negative number
  function Decimal(n: nat): (s: string)
    ensures |s| >= 1
    ensures forall i :: 0 <= i < |s| ==> '0' <= s[i] <= '9'
  {
    if n < 10 then [Digit(n)] else Decimal(n / 10) + [Digit(n % 10)]
  }

  function Digit(d: nat): (c: char)
    requires d < 10
    ensures '0' <= c <= '9' && DigitValue(c) == d
  {
    '0' + d as char
  }

  function DigitValue(c: char): nat
    requires '0' <= c <= '9'
  {
    (c - '0') as nat
  }

  // The number a string of digits denotes
  function Value(s: string): nat
    requires forall i :: 0 <= i < |s| ==> '0' <= s[i] <= '9'
  {
    if s == "" then 0 else 10 * Value(s[..|s| - 1]) + DigitValue(s[|s| - 1])
  }

  lemma {:induction false} DecimalValue(n: nat)
    ensures Value(Decimal(n)) == n
  {
    if n >= 10 {
      DecimalValue(n / 10);
      assert Decimal(n)[..|Decimal(n)| - 1] == Decimal(n / 10);
    } else {
      assert Decimal(n)[..0] == "";
    }
  }

  // Two numbers with the same rendering are the same number.
  lemma DecimalInjective(m: nat, n: nat)
    requires Decimal(m) == Decimal(n)
    ensures m == n
  {
    DecimalValue(m);
    DecimalValue(n);
  }
}
