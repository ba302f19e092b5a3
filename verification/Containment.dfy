/** Where PUTs may go: the paths a commit tries, renamed ones included, against the target root. */
module Containment {
  import opened Text
  import opened GoPath
  import opened Results
  import opened TargetPath
  import opened UniqueName
  import opened WebdavPath
  import opened Transfer
  import Utf8

  // The components below the root that make up a target
  function Tail(ftpPath: string, filename: string): seq<string>
    requires filename != "" ==> SanitizedFilename(filename).Ok?
  {
    DirElements(ftpPath) + FileElements(filename)
  }

  lemma {:induction false} JoinIsBytes(parts: seq<string>)
    requires forall i :: 0 <= i < |parts| ==> IsBytes(parts[i])
    ensures IsBytes(Join(parts, '/'))
  {
    if |parts| > 1 { JoinIsBytes(parts[1..]); }
  }

  lemma RenamedBytes(name: string, attempt: nat)
    requires IsBytes(name)
    ensures IsBytes(Renamed(name, attempt))
  {
    assert IsBytes(Stem(name)) && IsBytes(Ext(name)) && IsBytes(Decimal(attempt + 2));
  }

  lemma {:induction false} CommitNameBytes(name: string, attempt: nat)
    requires IsBytes(name)
    ensures IsBytes(CommitName(name, attempt))
  {
    if attempt > 0 {
      CommitNameBytes(name, attempt - 1);
      RenamedBytes(CommitName(name, attempt - 1), attempt - 1);
    }
  }

  lemma RenderBytes(cs: seq<string>)
    requires Components(cs)
    ensures IsBytes(Render(true, cs)) <==> forall i :: 0 <= i < |cs| ==> IsBytes(cs[i])
  {
    if forall i :: 0 <= i < |cs| ==> IsBytes(cs[i]) {
      JoinIsBytes(cs);
    }
    if IsBytes(Render(true, cs)) {
      assert Render(true, cs)[1..] == Join(cs, '/');
      JoinBytes(cs, '/');
    }
  }

  lemma RenamedKey(dir: seq<string>, a: string, b: string, key: Key)
    requires Components(dir) && Component(a) && Component(b) && IsBytes(Render(true, dir + [a])) && IsBytes(b)
    requires KeyOf(Render(true, dir + [b])) == Some(key)
    ensures key == dir + [b]
  {
    RenderBytes(dir + [a]);
    forall i | 0 <= i < |dir + [b]| ensures IsBytes((dir + [b])[i]) {
      if i < |dir| { assert (dir + [a])[i] == (dir + [b])[i]; }
    }
    RenderBytes(dir + [b]);
    ElementsRender(true, dir + [b]);
    NormalizedPathDecodes(Render(true, dir + [b]));
  }

  lemma LastComponent(cs: seq<string>)
    requires Components(cs) && cs != []
    ensures var n := |cs| - 1;
            Components(cs[..n]) && Component(cs[n]) && cs == cs[..n] + [cs[n]]
  {
  }

  lemma CommitNameSendable(dir: seq<string>, name: string, attempt: nat)
    requires Components(dir) && Component(name) && IsBytes(Render(true, dir + [name]))
    ensures Component(CommitName(name, attempt)) && IsBytes(CommitName(name, attempt))
  {
    RenderBytes(dir + [name]);
    assert (dir + [name])[|dir|] == name;
    CommitNameOk(name, attempt);
    CommitNameBytes(name, attempt);
  }

  // The resource an attempt of a commit goes to: the target with its last component renamed
  lemma CommitKey(cs: seq<string>, target: string, attempt: nat, key: Key)
    requires Components(cs) && cs != [] && target == Render(true, cs) && IsBytes(target)
    requires KeyOf(CommitPath(target, attempt)) == Some(key)
    ensures key == RenamedLast(cs, attempt) && Component(cs[|cs| - 1])
  {
    LastComponent(cs);
    var dir, name := cs[..|cs| - 1], cs[|cs| - 1];
    CommitPathStays(dir, name, target, attempt);
    CommitNameSendable(dir, name, attempt);
    RenamedKey(dir, name, CommitName(name, attempt), key);
  }

  // The components of a target
  lemma TargetComponents(root: string, ftpPath: string, filename: string, target: string)
    requires CleanAbs(root) && TargetFor(root, ftpPath, filename) == Ok(target)
    ensures filename != "" ==> SanitizedFilename(filename).Ok?
    ensures var cs := Elements(root) + Tail(ftpPath, filename); Components(cs) && target == Render(true, cs)
  {
    TargetIsRootDirFile(root, ftpPath, filename);
    assert Elements(root) + Tail(ftpPath, filename) == Elements(root) + DirElements(ftpPath) + FileElements(filename);
  }

  // A PUT of the first attempt always goes to the root or below it. A renamed one does exactly
  // when the target has a component below the root - otherwise it is the root that is renamed.
  lemma CommitStaysBelowRoot(root: string, ftpPath: string, filename: string, target: string, attempt: nat, key: Key)
    requires CleanAbs(root) && TargetFor(root, ftpPath, filename) == Ok(target) && IsBytes(target)
    requires KeyOf(CommitPath(target, attempt)) == Some(key)
    ensures filename != "" ==> SanitizedFilename(filename).Ok?
    ensures Elements(root) <= key <==> attempt == 0 || Elements(root) == [] || Tail(ftpPath, filename) != []
  {
    TargetComponents(root, ftpPath, filename, target);
    var r, tail := Elements(root), Tail(ftpPath, filename);
    if r + tail != [] {
      CommitKey(r + tail, target, attempt, key);
      RenamedTailBelow(r, tail, attempt);
    }
  }

  function RenamedLast(cs: seq<string>, attempt: nat): seq<string>
    requires cs != []
  {
    cs[..|cs| - 1] + [CommitName(cs[|cs| - 1], attempt)]
  }

  lemma RenamedTailBelow(r: seq<string>, tail: seq<string>, attempt: nat)
    requires r + tail != [] && Component((r + tail)[|r + tail| - 1])
    ensures r <= RenamedLast(r + tail, attempt) <==> attempt == 0 || tail != []
  {
    var last := (r + tail)[|r + tail| - 1];
    BelowAfterRename(r, tail, CommitName(last, attempt));
    if attempt > 0 { CommitNameGrows(last, 0, attempt); }
  }

  lemma BelowAfterRename(r: seq<string>, tail: seq<string>, name: string)
    requires r + tail != []
    ensures var cs := r + tail;
            var n := |cs| - 1;
            r <= cs[..n] + [name] <==> tail != [] || name == cs[n]
  {
    var cs := r + tail;
    var n := |cs| - 1;
    if tail != [] {
      assert r <= cs[..n];
    } else {
      assert cs == r && r == r[..n] + [r[n]];
      assert (cs[..n] + [name])[n] == name;
    }
  }

  lemma NameFromPart(f: string, stamp: string, name: string)
    requires Component(f) && '/' !in stamp && NameFrom(f, stamp, name)
    ensures '/' !in name && name != "" && name != "."
  {
    assert '/' !in Stem(f) && '/' !in Ext(f);
    if name != f { assert name[|Stem(f)|] == '-'; }
  }

  lemma NameFromNotEmpty(cs: seq<string>, stamp: string, name: string)
    requires Components(cs) && cs != [] && '/' !in stamp && NameFrom(Base(Render(true, cs)), stamp, name)
    ensures name != ""
  {
    DirBase(cs);
    assert Component(cs[|cs| - 1]);
    NameFromPart(cs[|cs| - 1], stamp, name);
  }

  // The name settled on for a clean absolute STOR path is a component below the root.
  lemma StoredNameHasFile(cs: seq<string>, stamp: string, name: string)
    requires Components(cs) && cs != [] && '/' !in stamp
    requires NameFrom(Base(Render(true, cs)), stamp, name) && SanitizedFilename(name).Ok?
    ensures name != "" && FileElements(name) != []
  {
    DirBase(cs);
    assert Component(cs[|cs| - 1]);
    NameFromPart(cs[|cs| - 1], stamp, name);
    SanitizedFilenameSafe(name);
    BaseOfPart(name);
  }

  // A STOR of "." targets the root itself, and its renamed attempts leave the root.
  lemma RenamedRootLeaves(root: string, name: string)
    requires root == "/a" && name == "a"
    ensures CleanAbs(root) && TargetFor(root, ".", ".") == Ok(root)
    ensures KeyOf(CommitPath(root, 1)) == Some(["a-2"]) && !(Elements(root) <= ["a-2"])
  {
    assert Render(true, [name]) == root && Component(name);
    ElementsRender(true, [name]);
    DotTargetsRoot(root, ".", ".");
    var second, path := CommitName(name, 1), CommitPath(root, 1);
    TopPath(root, name, 1, path, second);
    SecondName(name, second);
    SecondKey(second, path);
  }

  // A commit to a file at the top stays there.
  lemma TopPath(root: string, name: string, attempt: nat, path: string, renamed: string)
    requires Component(name) && root == Render(true, [name])
    requires path == CommitPath(root, attempt) && renamed == CommitName(name, attempt)
    ensures path == Render(true, [renamed])
  {
    assert [] + [name] == [name] && [] + [renamed] == [renamed];
    CommitPathStays([], name, root, attempt);
  }

  lemma SecondKey(second: string, path: string)
    requires second == "a-2" && path == Render(true, [second])
    ensures KeyOf(path) == Some([second])
  {
    PlainKey(second, path);
  }

  lemma SecondName(name: string, second: string)
    requires name == "a" && second == CommitName(name, 1)
    ensures second == "a-2"
  {
    assert CommitName(name, 0) == name;
    assert Ext(name) == "" && Stem(name) == name && Decimal(2) == "2";
  }

  lemma DotIsSafe(dot: string)
    requires dot == "."
    ensures SanitizedFilename(dot) == Ok(dot)
  {
    BaseOfPart(dot);
    NotContained(dot, "/../", '/');
    NotContained(dot, "/..", '/');
    CleanRunesKeeps(dot);
    assert Utf8.RuneCount(dot[1..]) == 0;
  }

  // The name "." in the root directory maps to the root itself.
  lemma DotTargetsRoot(root: string, dir: string, dot: string)
    requires CleanAbs(root) && (dir == "." || dir == "") && dot == "."
    ensures TargetFor(root, dir, dot) == Ok(root)
  {
    DotIsSafe(dot);
    TargetIsRootDirFile(root, dir, dot);
    assert Elements(root) + DirElements(dir) + FileElements(dot) == Elements(root);
  }
}
