/** Go's lexical path functions (path and path/filepath on Unix), defined through the
    components of a path, and the component-level laws the bridge depends on. */
module GoPath {
  import opened Text

  // A path component that Clean leaves alone
  predicate Component(c: string) {
    c != "" && c != "." && c != ".." && '/' !in c
  }

  predicate Components(cs: seq<string>) {
    forall i :: 0 <= i < |cs| ==> Component(cs[i])
  }

  predicate IsAbs(p: string) {
    p != "" && p[0] == '/'
  }

  // An absolute path in cleaned form
  predicate CleanAbs(p: string) {
    IsAbs(p) && Clean(p) == p
  }

  // The components that remain after processing parts from left to right:
  // "" and "." vanish, ".." removes the component before it.
  function Reduce(rooted: bool, parts: seq<string>, acc: seq<string>): seq<string> {
    if parts == [] then acc
    else if parts[0] == "" || parts[0] == "." then Reduce(rooted, parts[1..], acc)
    else if parts[0] != ".." then Reduce(rooted, parts[1..], acc + [parts[0]])
    else if acc != [] && acc[|acc| - 1] != ".." then Reduce(rooted, parts[1..], acc[..|acc| - 1])
    else if rooted then Reduce(rooted, parts[1..], acc)
    else Reduce(rooted, parts[1..], acc + [".."])
  }

  // The components of the cleaned path
  function Elements(p: string): seq<string> {
    Reduce(IsAbs(p), Split(p, '/'), [])
  }

  function Render(rooted: bool, cs: seq<string>): string {
    if rooted then "/" + Join(cs, '/')
    else if cs == [] then "."
    else Join(cs, '/')
  }

  // path.Clean and filepath.Clean
  function Clean(p: string): string {
    if p == "" then "." else Render(IsAbs(p), Elements(p))
  }

  // The cleaned path, made absolute
  function AbsClean(p: string): string {
    if IsAbs(Clean(p)) then Clean(p) else "/" + Clean(p)
  }

  // filepath.Join of two elements
  function JoinPath(a: string, b: string): string {
    if a == "" then (if b == "" then "" else Clean(b)) else Clean(a + "/" + b)
  }

  // The index after the last slash, 0 when there is none
  function AfterLastSlash(p: string): (i: nat)
    ensures i <= |p|
    ensures i > 0 ==> p[i - 1] == '/'
    ensures '/' !in p[i..]
  {
    if p == "" then 0
    else if p[|p| - 1] == '/' then |p|
    else AfterLastSlash(p[..|p| - 1])
  }

  // filepath.Dir
  function Dir(p: string): string {
    Clean(p[..AfterLastSlash(p)])
  }

  function TrimTrailingSlashes(p: string): (r: string)
    ensures r <= p
    ensures r != "" ==> r[|r| - 1] != '/'
    ensures forall i :: |r| <= i < |p| ==> p[i] == '/'
  {
    if p != "" && p[|p| - 1] == '/' then TrimTrailingSlashes(p[..|p| - 1]) else p
  }

  // filepath.Base
  function Base(p: string): string {
    if p == "" then "."
    else
      var t := TrimTrailingSlashes(p);
      if t == "" then "/" else t[AfterLastSlash(t)..]
  }

  // filepath.Ext: from the last dot of the last component on
  function Ext(p: string): (e: string)
    ensures |e| <= |p| && e == p[|p| - |e|..]
    ensures e != "" ==> e[0] == '.' && '.' !in e[1..]
    ensures e == "" ==> '/' in p || '.' !in p
    ensures '/' !in e
    decreases |p|
  {
    if p == "" || p[|p| - 1] == '/' then ""
    else if p[|p| - 1] == '.' then "."
    else
      var e := Ext(p[..|p| - 1]);
      if e == "" then "" else e + [p[|p| - 1]]
  }

  // ------------------------------------------------------------ laws of Reduce

  lemma {:induction false} ReduceConcat(rooted: bool, p: seq<string>, q: seq<string>, acc: seq<string>)
    ensures Reduce(rooted, p + q, acc) == Reduce(rooted, q, Reduce(rooted, p, acc))
  {
    if p == [] {
      assert p + q == q;
    } else {
      assert (p + q)[1..] == p[1..] + q;
      if p[0] == "" || p[0] == "." {
        ReduceConcat(rooted, p[1..], q, acc);
      } else if p[0] != ".." {
        ReduceConcat(rooted, p[1..], q, acc + [p[0]]);
      } else if acc != [] && acc[|acc| - 1] != ".." {
        ReduceConcat(rooted, p[1..], q, acc[..|acc| - 1]);
      } else if rooted {
        ReduceConcat(rooted, p[1..], q, acc);
      } else {
        ReduceConcat(rooted, p[1..], q, acc + [".."]);
      }
    }
  }

  lemma {:induction false} ReduceComponents(rooted: bool, cs: seq<string>, acc: seq<string>)
    requires Components(cs)
    ensures Reduce(rooted, cs, acc) == acc + cs
  {
    if cs == [] {
      assert acc + cs == acc;
    } else {
      assert Component(cs[0]);
      ReduceComponents(rooted, cs[1..], acc + [cs[0]]);
      assert acc + [cs[0]] + cs[1..] == acc + cs;
    }
  }

  // A rooted path never keeps a "..".
  lemma {:induction false} ReduceRooted(parts: seq<string>, acc: seq<string>)
    requires Components(acc)
    requires forall i :: 0 <= i < |parts| ==> '/' !in parts[i]
    ensures Components(Reduce(true, parts, acc))
  {
    if parts != [] {
      if parts[0] == "" || parts[0] == "." {
        ReduceRooted(parts[1..], acc);
      } else if parts[0] != ".." {
        ReduceRooted(parts[1..], acc + [parts[0]]);
      } else if acc != [] && acc[|acc| - 1] != ".." {
        ReduceRooted(parts[1..], acc[..|acc| - 1]);
      } else {
        ReduceRooted(parts[1..], acc);
      }
    }
  }

  // Without ".." nothing is removed, rooted or not.
  lemma {:induction false} ReduceForward(rooted: bool, parts: seq<string>, acc: seq<string>)
    requires ".." !in parts && Components(acc)
    requires forall i :: 0 <= i < |parts| ==> '/' !in parts[i]
    ensures Components(Reduce(rooted, parts, acc))
    ensures Reduce(rooted, parts, acc) == acc + Reduce(false, parts, [])
  {
    if parts != [] {
      var rest := parts[1..];
      if parts[0] == "" || parts[0] == "." {
        ReduceForward(rooted, rest, acc);
      } else {
        ReduceForward(rooted, rest, acc + [parts[0]]);
        ReduceForward(false, rest, [parts[0]]);
        assert [] + [parts[0]] == [parts[0]];
      }
    }
  }

  // Parts that are neither empty nor contain a slash
  predicate Solid(cs: seq<string>) {
    forall i :: 0 <= i < |cs| ==> cs[i] != "" && '/' !in cs[i]
  }

  // Nothing Clean keeps is empty or contains a slash.
  lemma {:induction false} ReduceNonEmpty(rooted: bool, parts: seq<string>, acc: seq<string>)
    requires forall i :: 0 <= i < |parts| ==> '/' !in parts[i]
    requires Solid(acc)
    ensures Solid(Reduce(rooted, parts, acc))
  {
    if parts != [] {
      var rest := parts[1..];
      if parts[0] == "" || parts[0] == "." {
        ReduceNonEmpty(rooted, rest, acc);
      } else if parts[0] != ".." {
        ReduceNonEmpty(rooted, rest, acc + [parts[0]]);
      } else if acc != [] && acc[|acc| - 1] != ".." {
        ReduceNonEmpty(rooted, rest, acc[..|acc| - 1]);
      } else if rooted {
        ReduceNonEmpty(rooted, rest, acc);
      } else {
        ReduceNonEmpty(rooted, rest, acc + [".."]);
      }
    }
  }

  lemma ElementsAreComponents(p: string)
    requires IsAbs(p) || ".." !in Split(p, '/')
    ensures Components(Elements(p))
  {
    if IsAbs(p) {
      ReduceRooted(Split(p, '/'), []);
    } else {
      ReduceForward(false, Split(p, '/'), []);
    }
  }

  lemma NoDotDotPart(s: string)
    requires !Contains(s, "..")
    ensures ".." !in Split(s, '/')
  {
    if i :| 0 <= i < |Split(s, '/')| && Split(s, '/')[i] == ".." {
      assert ".." <= ".."[0..];
      ContainsPart(s, '/', i, "..");
    }
  }

  lemma {:induction false} ReduceForwardFrom(parts: seq<string>, acc: seq<string>, i: nat)
    requires ".." !in parts && i < |Reduce(false, parts, acc)|
    ensures Reduce(false, parts, acc)[i] in parts || Reduce(false, parts, acc)[i] in acc
  {
    if parts != [] {
      if parts[0] == "" || parts[0] == "." {
        ReduceForwardFrom(parts[1..], acc, i);
      } else {
        ReduceForwardFrom(parts[1..], acc + [parts[0]], i);
      }
    }
  }

  // Cleaning a path without ".." brings none in.
  lemma NoDotDotElements(p: string)
    requires !Contains(p, "..")
    ensures Components(Elements(p)) && !Contains(Join(Elements(p), '/'), "..")
  {
    NoDotDotPart(p);
    var parts, cs := Split(p, '/'), Elements(p);
    ReduceForward(IsAbs(p), parts, []);
    assert [] + Reduce(false, parts, []) == Reduce(false, parts, []);
    if cs != [] && Contains(Join(cs, '/'), "..") {
      ContainsInPart(cs, '/', "..");
      var i :| 0 <= i < |cs| && Contains(cs[i], "..");
      ReduceForwardFrom(parts, [], i);
      var j :| 0 <= j < |parts| && parts[j] == cs[i];
      ContainsPart(p, '/', j, "..");
    }
  }

  // ------------------------------------------------------------ Render and Elements

  lemma RenderParts(rooted: bool, cs: seq<string>)
    requires Components(cs) && cs != []
    ensures Split(Render(rooted, cs), '/') == (if rooted then [""] else []) + cs
    ensures IsAbs(Render(rooted, cs)) == rooted
  {
    SplitJoin(cs, '/');
    if rooted {
      SplitConcat("", Join(cs, '/'), '/');
      assert "" + ['/'] + Join(cs, '/') == Render(true, cs);
    } else {
      assert Component(cs[0]);
      if |cs| > 1 { assert Join(cs, '/')[0] == cs[0][0]; }
    }
  }

  lemma NoComponents()
    ensures Elements("/") == [] && Clean("/") == "/" && IsAbs("/") && Render(true, []) == "/"
    ensures Elements(".") == [] && Clean(".") == "." && !IsAbs(".") && Render(false, []) == "."
  {
    assert Split("/", '/') == ["", ""] by { SplitConcat("", "", '/'); assert "" + ['/'] + "" == "/"; }
    assert ["", ""][1..] == [""] && [""][1..] == [];
    assert Reduce(true, [""], []) == Reduce(true, [], []) == [];
    assert Reduce(true, ["", ""], []) == Reduce(true, [""], []);
    SplitNone(".", '/');
    assert ["."][1..] == [];
  }

  // Rendering components and reading them back
  lemma ElementsRender(rooted: bool, cs: seq<string>)
    requires Components(cs)
    ensures Elements(Render(rooted, cs)) == cs
    ensures IsAbs(Render(rooted, cs)) == rooted
    ensures Clean(Render(rooted, cs)) == Render(rooted, cs)
  {
    if cs == [] {
      NoComponents();
    } else {
      RenderParts(rooted, cs);
      ReduceComponents(rooted, cs, []);
      assert [] + cs == cs;
      if rooted { assert ([""] + cs)[1..] == cs; } else { assert [] + cs == cs; }
    }
  }

  // Clean keeps the meaning of a path, so cleaning twice is cleaning once.
  lemma CleanKeepsElements(p: string)
    requires IsAbs(p) || ".." !in Split(p, '/')
    ensures Elements(Clean(p)) == Elements(p)
    ensures p != "" ==> IsAbs(Clean(p)) == IsAbs(p)
    ensures Clean(Clean(p)) == Clean(p)
  {
    ElementsAreComponents(p);
    ElementsRender(IsAbs(p), Elements(p));
  }

  // Empty parts and single dots do not count, ".." takes back the component before it, and at the
  // root there is nothing to take back.
  lemma DotsDropped(p: string, c: string)
    requires IsAbs(p) && Component(c)
    ensures Elements(p + "/" + "") == Elements(p + "/" + ".") == Elements(p + "/" + c + "/" + "..") == Elements(p)
    ensures Elements("/" + "/" + "..") == []
  {
    hide Split, Elements;
    var cs := Elements(p);
    ElementsAppend(p, "");
    ElementsAppend(p, ".");
    ElementsAppend(p, c);
    ElementsAppend(p + "/" + c, "..");
    ElementsAppend("/", "..");
    NoComponents();
    assert (cs + [c])[..|cs|] == cs;
    assert [c][1..] == [] && [""][1..] == [] && ["."][1..] == [] && [".."][1..] == [];
  }

  lemma ElementsAppend(p: string, part: string)
    requires IsAbs(p) && '/' !in part
    ensures IsAbs(p + "/" + part)
    ensures Elements(p + "/" + part) == Reduce(true, [part], Elements(p))
  {
    assert p + "/" + part == p + ['/'] + part;
    SplitConcat(p, part, '/');
    SplitNone(part, '/');
    ReduceConcat(true, Split(p, '/'), [part], []);
  }

  // Two absolute paths clean to the same string only if they have the same components.
  lemma CleanEqual(p: string, q: string)
    requires IsAbs(p) && IsAbs(q)
    ensures Clean(p) == Clean(q) <==> Elements(p) == Elements(q)
  {
    CleanKeepsElements(p);
    CleanKeepsElements(q);
  }

  // Joining below an absolute path appends components.
  lemma JoinBelow(a: string, b: string)
    requires IsAbs(a) && ".." !in Split(b, '/')
    ensures IsAbs(JoinPath(a, b))
    ensures Elements(JoinPath(a, b)) == Elements(a) + Elements(b)
    ensures JoinPath(a, b) == Render(true, Elements(a) + Elements(b))
    ensures Components(Elements(a)) && Components(Elements(b))
  {
    var s := a + "/" + b;
    assert s == a + ['/'] + b;
    SplitConcat(a, b, '/');
    ReduceConcat(true, Split(a, '/'), Split(b, '/'), []);
    ElementsAreComponents(a);
    ReduceForward(true, Split(b, '/'), Elements(a));
    ReduceForward(IsAbs(b), Split(b, '/'), []);
    assert [] + Reduce(false, Split(b, '/'), []) == Reduce(false, Split(b, '/'), []);
    ElementsRender(true, Elements(a) + Elements(b));
  }

  // Joining one part appends it; "." changes nothing.
  lemma AppendPart(cs: seq<string>, part: string)
    requires Components(cs) && part != "" && part != ".." && '/' !in part
    ensures var f := if part == "." then [] else [part];
            Components(cs + f) && JoinPath(Render(true, cs), part) == Render(true, cs + f)
  {
    ElementsRender(true, cs);
    SplitNone(part, '/');
    JoinBelow(Render(true, cs), part);
    assert [part][1..] == [];
    if part == "." {
      assert !IsAbs(part) && Split(part, '/') == [part];
      assert Reduce(false, [part], []) == Reduce(false, [part][1..], []);
      assert Elements(part) == [];
    } else {
      ReduceComponents(IsAbs(part), [part], []);
      assert [] + [part] == [part];
      assert Elements(part) == [part];
    }
  }

  // ------------------------------------------------------------ Dir and Base

  lemma {:induction false} AfterLastSlashOf(d: string, f: string)
    requires d == "" || d[|d| - 1] == '/'
    requires '/' !in f
    ensures AfterLastSlash(d + f) == |d|
  {
    var p := d + f;
    if f == "" {
      assert p == d;
    } else {
      var f' := f[..|f| - 1];
      assert p[..|p| - 1] == d + f';
      AfterLastSlashOf(d, f');
    }
  }

  lemma TrailingSlash(p: string)
    requires p != ""
    ensures Elements(p + "/") == Elements(p) && Clean(p + "/") == Clean(p)
  {
    assert p + "/" == p + ['/'] + "";
    SplitConcat(p, "", '/');
    ReduceConcat(IsAbs(p), Split(p, '/'), [""], []);
    assert [""][1..] == [];
  }

  // For a clean absolute path, Dir drops the last component and Base is the last component.
  lemma DirBase(cs: seq<string>)
    requires Components(cs) && cs != []
    ensures Dir(Render(true, cs)) == Render(true, cs[..|cs| - 1])
    ensures Base(Render(true, cs)) == cs[|cs| - 1]
  {
    var n := |cs| - 1;
    var f := cs[n];
    assert Component(f);
    var d := if n == 0 then "/" else "/" + Join(cs[..n], '/') + "/";
    var p := Render(true, cs);
    assert p == d + f by {
      if n == 0 {
        assert cs == [f];
      } else {
        assert cs == cs[..n] + [f];
        JoinConcat(cs[..n], [f], '/');
      }
    }
    AfterLastSlashOf(d, f);
    assert p[..|d|] == d && p[|d|..] == f;
    assert TrimTrailingSlashes(p) == p;
    ElementsRender(true, cs[..n]);
    if n > 0 {
      TrailingSlash(Render(true, cs[..n]));
    } else {
      assert cs[..0] == [] && Render(true, []) == "/";
    }
  }

  lemma RenderPrefix(cs: seq<string>, n: nat)
    requires n < |cs|
    ensures Render(true, cs[..n]) <= Render(true, cs)
  {
    if n > 0 {
      assert cs == cs[..n] + cs[n..];
      JoinConcat(cs[..n], cs[n..], '/');
    } else {
      assert cs[..0] == [] && Join([], '/') == "";
    }
  }

  // The directory of a clean absolute path other than the root
  lemma ParentOfCleanPath(p: string)
    requires CleanAbs(p) && p != "/"
    ensures Components(Elements(p)) && Elements(p) != []
    ensures var cs := Elements(p);
            CleanAbs(Dir(p)) && Elements(Dir(p)) == cs[..|cs| - 1] && Dir(p) <= p
  {
    var cs := Elements(p);
    ElementsAreComponents(p);
    assert Render(true, []) == "/";
    assert p == Render(true, cs);
    DirBase(cs);
    ElementsRender(true, cs[..|cs| - 1]);
    RenderPrefix(cs, |cs| - 1);
  }

  lemma RenderLast(cs: seq<string>, n: nat)
    requires |cs| == n + 1 && n > 0
    ensures Render(true, cs) == Render(true, cs[..n]) + "/" + cs[n]
  {
    assert cs == cs[..n] + [cs[n]];
    JoinConcat(cs[..n], [cs[n]], '/');
  }

  // Below the root a clean path is its directory, a slash and its last component.
  lemma DirNameSplit(p: string)
    requires CleanAbs(p) && p != "/" && Dir(p) != "/"
    ensures |Dir(p)| < |p| && p == Dir(p) + "/" + p[|Dir(p)| + 1..]
  {
    var cs := Elements(p);
    var n := |cs| - 1;
    ParentOfCleanPath(p);
    assert p == Render(true, cs) && Dir(p) == Render(true, cs[..n]);
    assert cs[..0] == [] && Render(true, []) == "/";
    RenderLast(cs, n);
  }

  lemma BaseOfPart(f: string)
    requires f != "" && '/' !in f
    ensures Base(f) == f
  {
    assert f[|f| - 1] != '/';
    AfterLastSlashOf("", f);
    assert "" + f == f;
  }

  // ------------------------------------------------------------ lengths

  function Len(parts: seq<string>): nat {
    if parts == [] then 0 else |parts[0]| + 1 + Len(parts[1..])
  }

  lemma {:induction false} LenAppend(p: seq<string>, q: seq<string>)
    ensures Len(p + q) == Len(p) + Len(q)
  {
    if p == [] {
      assert p + q == q;
    } else {
      assert (p + q)[1..] == p[1..] + q;
      LenAppend(p[1..], q);
    }
  }

  lemma {:induction false} LenSplit(s: string)
    ensures Len(Split(s, '/')) == |s| + 1
  {
    if s != "" {
      LenSplit(s[1..]);
      var rest := Split(s[1..], '/');
      if s[0] == '/' {
        assert Split(s, '/')[1..] == rest;
      } else {
        assert Split(s, '/')[1..] == rest[1..];
      }
    }
  }

  lemma {:induction false} LenJoin(cs: seq<string>)
    requires cs != []
    ensures |Join(cs, '/')| == Len(cs) - 1
  {
    if |cs| > 1 { LenJoin(cs[1..]); }
  }

  lemma {:induction false} LenReduce(rooted: bool, parts: seq<string>, acc: seq<string>)
    ensures Len(Reduce(rooted, parts, acc)) <= Len(parts) + Len(acc)
  {
    if parts != [] {
      var rest := parts[1..];
      if parts[0] == "" || parts[0] == "." {
        LenReduce(rooted, rest, acc);
      } else if parts[0] != ".." {
        LenAppend(acc, [parts[0]]);
        LenReduce(rooted, rest, acc + [parts[0]]);
      } else if acc != [] && acc[|acc| - 1] != ".." {
        LenAppend(acc[..|acc| - 1], acc[|acc| - 1..]);
        assert acc == acc[..|acc| - 1] + acc[|acc| - 1..];
        LenReduce(rooted, rest, acc[..|acc| - 1]);
      } else if rooted {
        LenReduce(rooted, rest, acc);
      } else {
        LenAppend(acc, [".."]);
        LenReduce(rooted, rest, acc + [".."]);
      }
    }
  }

  // Dir shortens every path whose directory is not "." or "/", so walking up ends.
  lemma DirShorter(p: string)
    requires Dir(p) != "." && Dir(p) != "/"
    ensures |Dir(p)| < |p|
  {
    ElementsRender(true, []);
    assert Render(true, []) == "/";
    var d := p[..AfterLastSlash(p)];
    assert d != "" && d != "/";
    var e := d[..|d| - 1];
    assert d == e + "/";
    TrailingSlash(e);
    var parts, cs := Split(e, '/'), Elements(e);
    LenSplit(e);
    if IsAbs(e) {
      assert parts[0] == "";
      LenReduce(true, parts[1..], []);
    } else {
      LenReduce(false, parts, []);
    }
    if cs != [] { LenJoin(cs); }
  }
}
