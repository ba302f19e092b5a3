/** webdavClient.normalizePath: the URL path a bridge path is sent as, and the store key the
    server reads from it. */
module WebdavPath {
  import opened Text
  import opened GoPath
  import opened Results
  import Utf8

  datatype PathError = InvalidPath | PathTraversal

  const MAX_PATH_LENGTH := 4096

  // A server addresses a resource by its decoded path components.
  type Key = seq<string>

  // ------------------------------------------------------------ percent-encoding

  // The bytes url.PathEscape copies unchanged
  predicate Unescaped(c: char) {
    'a' <= c <= 'z' || 'A' <= c <= 'Z' || '0' <= c <= '9' || c in "-_.~$&+:=@"
  }

  function HexDigit(n: nat): (c: char)
    requires n < 16
    ensures HexValue(c) == n
  {
    "0123456789ABCDEF"[n]
  }

  // The value of a hexadecimal digit of either case, 16 for any other char
  function HexValue(c: char): (n: nat)
    ensures n <= 16
  {
    if '0' <= c <= '9' then (c - '0') as nat
    else if 'A' <= c <= 'F' then 10 + (c - 'A') as nat
    else if 'a' <= c <= 'f' then 10 + (c - 'a') as nat
    else 16
  }

  function EscapeByte(c: char): string {
    if Unescaped(c) then [c] else ['%', HexDigit(c as nat / 16 % 16), HexDigit(c as nat % 16)]
  }

  // url.PathEscape
  function PathEscape(s: string): string {
    if s == "" then "" else EscapeByte(s[0]) + PathEscape(s[1..])
  }

  // Percent-decoding, section 2.1 of RFC 3986
  function Unescape(s: string): Option<string> {
    if s == "" then Some("")
    else if s[0] != '%' then
      match Unescape(s[1..])
      case None => None
      case Some(rest) => Some([s[0]] + rest)
    else if |s| < 3 || HexValue(s[1]) == 16 || HexValue(s[2]) == 16 then None
    else
      match Unescape(s[3..])
      case None => None
      case Some(rest) => Some([(16 * HexValue(s[1]) + HexValue(s[2])) as char] + rest)
  }

  lemma HexByte(n: nat)
    requires n < 256
    ensures 16 * HexValue(HexDigit(n / 16 % 16)) + HexValue(HexDigit(n % 16)) == n
  {
  }

  lemma {:induction false} UnescapeByte(c: char, rest: string)
    requires c < 256 as char
    ensures Unescape(EscapeByte(c) + rest)
            == match Unescape(rest) { case None => None case Some(r) => Some([c] + r) }
    ensures '/' !in EscapeByte(c)
  {
    var e := EscapeByte(c) + rest;
    if Unescaped(c) {
      assert e[1..] == rest;
    } else {
      assert e[3..] == rest;
      HexByte(c as nat);
      assert HexValue('/') == 16;
    }
  }

  lemma {:induction false} UnescapePathEscape(s: string)
    requires IsBytes(s)
    ensures Unescape(PathEscape(s)) == Some(s)
    ensures '/' !in PathEscape(s)
  {
    if s != "" {
      UnescapePathEscape(s[1..]);
      UnescapeByte(s[0], PathEscape(s[1..]));
      assert s == [s[0]] + s[1..];
    }
  }

  // What may stand in a path segment: letters, digits and "-_.~$&+:=@"
  predicate SegmentChar(c: char) {
    || 'a' <= c <= 'z' || 'A' <= c <= 'Z' || '0' <= c <= '9' || c == '-' || c == '_' || c == '.' || c == '~'
    || c == '$' || c == '&' || c == '+' || c == ':' || c == '=' || c == '@'
  }

  lemma UnescapedIff(c: char)
    ensures Unescaped(c) <==> SegmentChar(c)
  {
    var others := "-_.~$&+:=@";
    assert others == ['-', '_', '.', '~', '$', '&', '+', ':', '=', '@'];
  }

  // Escaping leaves exactly such segments as they are.
  lemma {:induction false} EscapedIff(s: string)
    ensures PathEscape(s) == s <==> forall c :: c in s ==> SegmentChar(c)
    ensures |PathEscape(s)| >= |s|
  {
    if s != "" {
      hide Unescaped, SegmentChar;
      EscapedIff(s[1..]);
      UnescapedIff(s[0]);
      assert s == [s[0]] + s[1..];
      assert forall c :: c in s <==> c == s[0] || c in s[1..];
      if Unescaped(s[0]) {
        assert PathEscape(s)[1..] == PathEscape(s[1..]);
      }
    }
  }

  // Any other byte becomes a percent sign and two upper-case hexadecimal digits.
  lemma EscapedForm(c: char, rest: string)
    requires c < 256 as char && !SegmentChar(c)
    ensures exists hi: nat, lo: nat :: hi < 16 && lo < 16 && c as nat == 16 * hi + lo
                                       && PathEscape([c] + rest) == ['%', Upper(hi), Upper(lo)] + PathEscape(rest)
  {
    hide Unescaped, SegmentChar, HexDigit;
    var hi, lo := c as nat / 16, c as nat % 16;
    UnescapedIff(c);
    UpperHex(hi);
    UpperHex(lo);
    assert ([c] + rest)[1..] == rest;
    assert PathEscape([c] + rest) == ['%', Upper(hi), Upper(lo)] + PathEscape(rest);
  }

  function Upper(n: nat): char
    requires n < 16
  {
    if n < 10 then '0' + n as char else 'A' + (n - 10) as char
  }

  lemma UpperHex(n: nat)
    requires n < 16
    ensures HexDigit(n) == Upper(n)
  {
    assert "0123456789ABCDEF"[..10] == "0123456789";
    assert HexDigit(n) in "0123456789ABCDEF";
    assert HexValue(HexDigit(n)) == n;
  }

  // ------------------------------------------------------------ normalizePath

  predicate HasControl(p: string) {
    exists i :: 0 <= i < |p| && p[i] < 32 as char
  }

  predicate BackslashTraversal(p: string) {
    Contains(p, "\\..\\") || Contains(p, "\\..") || Contains(p, "..\\")
  }

  // The checks of normalizePath, in its order
  function Rejection(p: string): Option<PathError> {
    if p == "" then Some(InvalidPath)
    else if |p| > MAX_PATH_LENGTH then Some(InvalidPath)
    else if !Utf8.Valid(p) then Some(InvalidPath)
    else if Contains(p, "..") then Some(PathTraversal)
    else if BackslashTraversal(p) then Some(PathTraversal)
    else if |p| >= 2 && p[1] == ':' then Some(InvalidPath)
    else if HasControl(p) then Some(InvalidPath)
    else if ".." <= Clean(p) then Some(PathTraversal)
    else if |AbsClean(p)| > MAX_PATH_LENGTH then Some(InvalidPath)
    else None
  }

  function EscapeParts(parts: seq<string>): (r: seq<string>)
    ensures |r| == |parts|
    ensures forall i :: 0 <= i < |r| ==> r[i] == PathEscape(parts[i])
  {
    seq(|parts|, i requires 0 <= i < |parts| => PathEscape(parts[i]))
  }

  // The string normalizePath returns for a path it accepts
  function NormalizedPath(p: string): Result<string, PathError> {
    match Rejection(p)
    case Some(e) => Err(e)
    case None => Ok(Join(EscapeParts(Split(AbsClean(p), '/')), '/'))
  }

  // The loop over the parts; escaping an empty part would change nothing.
  method EscapeInPlace(parts: array<string>)
    modifies parts
    ensures parts[..] == EscapeParts(old(parts[..]))
  {
    assert PathEscape("") == "";
    hide PathEscape;
    for i := 0 to parts.Length
      invariant forall j :: 0 <= j < i ==> parts[j] == PathEscape(old(parts[j]))
      invariant forall j :: i <= j < parts.Length ==> parts[j] == old(parts[j])
    {
      if parts[i] != "" {
        parts[i] := PathEscape(parts[i]);
      }
    }
  }

  method NormalizePath(p: string) returns (r: Result<string, PathError>)
    ensures r == NormalizedPath(p)
  {
    var rejected := Rejection(p);
    if rejected.Some? {
      return Err(rejected.value);
    }
    var original := Split(AbsClean(p), '/');
    var parts := new string[|original|](i requires 0 <= i < |original| => original[i]);
    assert parts[..] == original;
    EscapeInPlace(parts);
    r := Ok(Join(parts[..], '/'));
  }

  // ------------------------------------------------------------ the server's view

  function NonEmpty(parts: seq<string>): seq<string> {
    if parts == [] then []
    else if parts[0] == "" then NonEmpty(parts[1..])
    else [parts[0]] + NonEmpty(parts[1..])
  }

  function DecodeParts(parts: seq<string>): Option<seq<string>> {
    if parts == [] then Some([])
    else
      match (Unescape(parts[0]), DecodeParts(parts[1..]))
      case (Some(head), Some(tail)) => Some([head] + tail)
      case _ => None
  }

  // The resource a server finds under a URL path: empty segments do not count, so the
  // trailing slash of an MKCOL request names the same collection.
  function UrlKey(u: string): Option<Key> {
    DecodeParts(NonEmpty(Split(u, '/')))
  }

  // The resource addressed by a request for path p, None when the client refuses to send it
  function KeyOf(p: string): Option<Key> {
    match NormalizedPath(p)
    case Ok(u) => UrlKey(u)
    case Err(_) => None
  }

  lemma {:induction false} NonEmptyConcat(a: seq<string>, b: seq<string>)
    ensures NonEmpty(a + b) == NonEmpty(a) + NonEmpty(b)
  {
    if a == [] {
      assert a + b == b;
    } else {
      assert (a + b)[1..] == a[1..] + b;
      NonEmptyConcat(a[1..], b);
    }
  }

  lemma TrailingSlashSameKey(u: string)
    ensures UrlKey(u + "/") == UrlKey(u)
  {
    assert u + "/" == u + ['/'] + "";
    SplitConcat(u, "", '/');
    NonEmptyConcat(Split(u, '/'), [""]);
    assert [""][1..] == [];
    assert NonEmpty(Split(u, '/')) + [] == NonEmpty(Split(u, '/'));
  }

  lemma {:induction false} DecodeEscaped(parts: seq<string>)
    requires forall i :: 0 <= i < |parts| ==> IsBytes(parts[i])
    ensures DecodeParts(EscapeParts(parts)) == Some(parts)
    ensures DecodeParts(NonEmpty(EscapeParts(parts))) == Some(NonEmpty(parts))
  {
    if parts != [] {
      UnescapePathEscape(parts[0]);
      assert EscapeParts(parts)[1..] == EscapeParts(parts[1..]);
      DecodeEscaped(parts[1..]);
      assert [parts[0]] + parts[1..] == parts;
      assert PathEscape(parts[0]) == "" <==> parts[0] == "";
    }
  }

  lemma {:induction false} NonEmptyComponents(cs: seq<string>)
    requires Components(cs)
    ensures NonEmpty(cs) == cs
  {
    if cs != [] {
      assert Component(cs[0]);
      NonEmptyComponents(cs[1..]);
    }
  }

  lemma {:induction false} JoinBytes(parts: seq<string>, sep: char)
    requires IsBytes(Join(parts, sep))
    ensures forall i :: 0 <= i < |parts| ==> IsBytes(parts[i])
  {
    if |parts| > 1 {
      var s, tail := Join(parts, sep), Join(parts[1..], sep);
      assert parts[0] == s[..|parts[0]|] && tail == s[|parts[0]| + 1..];
      JoinBytes(parts[1..], sep);
    }
  }

  lemma {:induction false} ReduceBytes(rooted: bool, parts: seq<string>, acc: seq<string>)
    requires forall i :: 0 <= i < |parts| ==> IsBytes(parts[i])
    requires forall i :: 0 <= i < |acc| ==> IsBytes(acc[i])
    ensures forall i :: 0 <= i < |Reduce(rooted, parts, acc)| ==> IsBytes(Reduce(rooted, parts, acc)[i])
  {
    if parts != [] {
      var rest := parts[1..];
      if parts[0] == "" || parts[0] == "." {
        ReduceBytes(rooted, rest, acc);
      } else if parts[0] != ".." {
        ReduceBytes(rooted, rest, acc + [parts[0]]);
      } else if acc != [] && acc[|acc| - 1] != ".." {
        ReduceBytes(rooted, rest, acc[..|acc| - 1]);
      } else if rooted {
        ReduceBytes(rooted, rest, acc);
      } else {
        ReduceBytes(rooted, rest, acc + [".."]);
      }
    }
  }

  // Decoding the escapes of each part of the result gives back the components of
  // path.Clean of the input, and so does the server.
  lemma NormalizedPathDecodes(p: string)
    requires IsBytes(p) && IsAbs(p) && NormalizedPath(p).Ok?
    ensures DecodeParts(Split(NormalizedPath(p).value, '/')) == Some(Split(Clean(p), '/'))
    ensures KeyOf(p) == Some(Elements(p))
    ensures Components(Elements(p))
  {
    var cs := Elements(p);
    var parts := Split(Clean(p), '/');
    ElementsAreComponents(p);
    CleanKeepsElements(p);
    JoinSplit(p, '/');
    JoinBytes(Split(p, '/'), '/');
    ReduceBytes(true, Split(p, '/'), []);
    if cs == [] {
      assert Clean(p) == "/" && "/" == "" + ['/'] + "";
      SplitConcat("", "", '/');
      assert parts == ["", ""] && parts[1..] == [""] && [""][1..] == [];
    } else {
      RenderParts(true, cs);
      assert parts == [""] + cs && parts[1..] == cs;
    }
    NonEmptyComponents(cs);
    DecodeEscaped(parts);
    forall i | 0 <= i < |parts| ensures '/' !in PathEscape(parts[i]) {
      UnescapePathEscape(parts[i]);
    }
    SplitJoin(EscapeParts(parts), '/');
  }

  // The client sends requests for a clean absolute path exactly if it is at most 4096 bytes of
  // valid UTF-8 without control characters below 32, has no ".." anywhere, not even inside a
  // name, and no colon as the first character after the root.
  lemma SentIff(p: string)
    requires CleanAbs(p) && IsBytes(p)
    ensures KeyOf(p).Some? <==>
              && |p| <= 4096 && Utf8.Valid(p) && !Contains(p, "..")
              && (forall c :: c in p ==> c >= 32 as char) && (|p| >= 2 ==> p[1] != ':')
  {
    hide Utf8.Valid, Contains, EscapeParts, UrlKey, HasControl, BackslashTraversal, Elements, Join;
    NoBackslashTraversal(p);
    ControlIff(p);
    if NormalizedPath(p).Ok? { NormalizedPathDecodes(p); }
  }

  lemma ControlIff(p: string)
    ensures HasControl(p) <==> exists c :: c in p && c < 32 as char
  {
    if HasControl(p) {
      var i :| 0 <= i < |p| && p[i] < 32 as char;
      assert p[i] in p;
    }
  }

  // Without ".." there is no such traversal either.
  lemma NoBackslashTraversal(p: string)
    ensures BackslashTraversal(p) ==> Contains(p, "..")
  {
    ContainsWithin(p, "\\..\\", 1, "..");
    ContainsWithin(p, "\\..", 1, "..");
    ContainsWithin(p, "..\\", 0, "..");
  }

  predicate Plain(c: char) {
    'a' <= c <= 'z' || '0' <= c <= '9' || c == '-'
  }

  lemma PlainAccepted(path: string)
    requires path != "" && path[0] == '/' && |path| <= MAX_PATH_LENGTH && Clean(path) == path
    requires forall i :: 1 <= i < |path| ==> Plain(path[i]) || path[i] == '/'
    ensures Rejection(path).None?
  {
    assert '.' !in path;
    NotContained(path, "..", '.');
    NotContained(path, "\\..\\", '.');
    NotContained(path, "\\..", '.');
    NotContained(path, "..\\", '.');
    Utf8.ValidAscii(path);
    assert |path| >= 2 ==> Plain(path[1]) || path[1] == '/';
  }

  // A file of a plain name below the root is sent under its name.
  lemma PlainKey(name: string, path: string)
    requires name != "" && |name| < MAX_PATH_LENGTH && path == "/" + name
    requires forall i :: 0 <= i < |name| ==> Plain(name[i])
    ensures KeyOf(path) == Some([name])
  {
    assert Plain(name[0]) && name[0] != '.' && '/' !in name;
    assert Render(true, [name]) == path && Component(name);
    ElementsRender(true, [name]);
    forall i | 1 <= i < |path| ensures Plain(path[i]) {
      assert path[i] == name[i - 1];
    }
    PlainAccepted(path);
    NormalizedPathDecodes(path);
  }

  lemma ContainsAfter(d: string, rest: string, sub: string)
    ensures Contains(d, sub) ==> Contains(d + rest, sub)
  {
    if Contains(d, sub) {
      var k :| 0 <= k <= |d| && sub <= d[k..];
      assert (d + rest)[k..] == d[k..] + rest;
    }
  }

  lemma NoTraversalBefore(d: string, rest: string)
    requires !Contains(d + rest, "..") && !BackslashTraversal(d + rest)
    ensures !Contains(d, "..") && !BackslashTraversal(d)
  {
    ContainsAfter(d, rest, "..");
    ContainsAfter(d, rest, "\\..\\");
    ContainsAfter(d, rest, "\\..");
    ContainsAfter(d, rest, "..\\");
  }

  lemma NoControlBefore(d: string, rest: string)
    requires !HasControl(d + rest)
    ensures !HasControl(d)
  {
    forall i | 0 <= i < |d| ensures d[i] >= 32 as char {
      assert (d + rest)[i] == d[i];
    }
  }

  // The checks of an accepted path hold for a clean directory above it.
  lemma PrefixAccepted(d: string, name: string)
    requires CleanAbs(d) && d != "/" && Rejection(d + "/" + name).None?
    ensures Rejection(d).None?
  {
    assert d + "/" + name == d + ("/" + name);
    Utf8.ValidBeforeSlash(d, name);
    NoTraversalBefore(d, "/" + name);
    NoControlBefore(d, "/" + name);
  }

  // What the client sends a PUT for, it sends the MKCOLs of all ancestors for.
  lemma ParentAccepted(p: string)
    requires CleanAbs(p) && IsBytes(p) && KeyOf(p).Some? && Dir(p) != "/" && p != "/"
    ensures IsBytes(Dir(p)) && KeyOf(Dir(p)).Some?
  {
    ParentOfCleanPath(p);
    DirNameSplit(p);
    var name := p[|Dir(p)| + 1..];
    PrefixAccepted(Dir(p), name);
    NormalizedPathDecodes(Dir(p));
  }

  // Two accepted absolute paths share a URL path exactly when they clean to the same path.
  lemma NormalizedPathInjective(p: string, q: string)
    requires IsBytes(p) && IsAbs(p) && NormalizedPath(p).Ok?
    requires IsBytes(q) && IsAbs(q) && NormalizedPath(q).Ok?
    ensures NormalizedPath(p) == NormalizedPath(q) <==> Clean(p) == Clean(q)
    ensures KeyOf(p) == KeyOf(q) <==> Clean(p) == Clean(q)
  {
    NormalizedPathDecodes(p);
    NormalizedPathDecodes(q);
    CleanEqual(p, q);
    JoinSplit(Clean(p), '/');
    JoinSplit(Clean(q), '/');
  }
}
