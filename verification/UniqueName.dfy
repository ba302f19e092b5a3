/** The names tried to avoid a collision: the counter-suffixed candidates of
    GenerateUniqueFilename (pkg/transfer/transfer.go) and the rename candidates of
    commitToWebDAV (pkg/ftp/driver.go). */
module UniqueName {
  import opened Text
  import opened GoPath

  // strings.TrimSuffix(filename, filepath.Ext(filename))
  function Stem(filename: string): string {
    filename[..|filename| - |Ext(filename)|]
  }

  function TimeCandidate(filename: string, stamp: string): string {
    Stem(filename) + "-" + stamp + Ext(filename)
  }

  function CounterCandidate(filename: string, stamp: string, counter: nat): string {
    Stem(filename) + "-" + stamp + "-" + Decimal(counter) + Ext(filename)
  }

  // What a search tries after so many increments, the last of which handed out counter
  function Candidate(filename: string, stamp: string, bumps: nat, counter: nat): string {
    if bumps == 0 then TimeCandidate(filename, stamp) else CounterCandidate(filename, stamp, counter)
  }

  // ------------------------------------------------------------ the shared counters

  function Counter(m: map<string, nat>, basePath: string): nat {
    if basePath in m then m[basePath] else 0
  }

  // uploadCounters[basePath]++ on a uint64
  function Bump(m: map<string, nat>, basePath: string): map<string, nat> {
    m[basePath := (Counter(m, basePath) + 1) % TWO64]
  }

  function BumpTimes(m: map<string, nat>, basePath: string, times: nat): map<string, nat> {
    if times == 0 then m else Bump(BumpTimes(m, basePath, times - 1), basePath)
  }

  // The counters after a sequence of increments by any callers
  function Bumped(calls: seq<string>): map<string, nat> {
    if calls == [] then map[] else Bump(Bumped(calls[..|calls| - 1]), calls[|calls| - 1])
  }

  // The counter value the i-th increment hands out
  function Handed(calls: seq<string>, i: nat): nat
    requires i < |calls|
  {
    Counter(Bumped(calls[..i + 1]), calls[i])
  }

  function Occurrences(calls: seq<string>, basePath: string): nat {
    if calls == [] then 0
    else Occurrences(calls[..|calls| - 1], basePath) + if calls[|calls| - 1] == basePath then 1 else 0
  }

  lemma {:induction false} BumpedCounts(calls: seq<string>, basePath: string)
    ensures Occurrences(calls, basePath) <= |calls|
    ensures |calls| < TWO64 ==> Counter(Bumped(calls), basePath) == Occurrences(calls, basePath)
  {
    if calls != [] { BumpedCounts(calls[..|calls| - 1], basePath); }
  }

  lemma {:induction false} OccurrencesGrow(calls: seq<string>, i: nat, j: nat, basePath: string)
    requires i < j < |calls| && calls[j] == basePath
    ensures Occurrences(calls[..i + 1], basePath) < Occurrences(calls[..j + 1], basePath)
  {
    var init := calls[..j + 1];
    assert init[..j] == calls[..j];
    OccurrencesPrefix(calls[..j], i + 1, basePath);
    assert calls[..j][..i + 1] == calls[..i + 1];
  }

  lemma {:induction false} OccurrencesPrefix(calls: seq<string>, n: nat, basePath: string)
    requires n <= |calls|
    ensures Occurrences(calls[..n], basePath) <= Occurrences(calls, basePath)
  {
    if n == |calls| {
      assert calls[..n] == calls;
    } else {
      OccurrencesPrefix(calls[..|calls| - 1], n, basePath);
      assert calls[..|calls| - 1][..n] == calls[..n];
    }
  }

  lemma CounterCandidateInjective(filename: string, s1: string, c1: nat, s2: string, c2: nat)
    requires |s1| == |s2|
    requires CounterCandidate(filename, s1, c1) == CounterCandidate(filename, s2, c2)
    ensures s1 == s2 && c1 == c2
  {
    var stem, ext := Stem(filename), Ext(filename);
    var a, b := CounterCandidate(filename, s1, c1), CounterCandidate(filename, s2, c2);
    var from := |stem| + 1;
    var to := from + |s1| + 1;
    assert s1 == a[from..to - 1] && s2 == b[from..to - 1];
    assert Decimal(c1) == a[to..|a| - |ext|] && Decimal(c2) == b[to..|b| - |ext|];
    DecimalInjective(c1, c2);
  }

  // For one base path and filename, no two counter-suffixed candidates of any number of
  // concurrent searches are equal, whenever they run.
  lemma {:induction false} CandidatesDistinct(calls: seq<string>, i: nat, j: nat, filename: string, s1: string,
                                              s2: string)
    requires i < j < |calls| < TWO64 && calls[i] == calls[j] && |s1| == |s2|
    ensures CounterCandidate(filename, s1, Handed(calls, i)) != CounterCandidate(filename, s2, Handed(calls, j))
  {
    BumpedCounts(calls[..i + 1], calls[i]);
    BumpedCounts(calls[..j + 1], calls[i]);
    OccurrencesGrow(calls, i, j, calls[i]);
    if CounterCandidate(filename, s1, Handed(calls, i)) == CounterCandidate(filename, s2, Handed(calls, j)) {
      CounterCandidateInjective(filename, s1, Handed(calls, i), s2, Handed(calls, j));
    }
  }

  // ------------------------------------------------------------ rename at commit time

  function Renamed(name: string, attempt: nat): string {
    Stem(name) + "-" + Decimal(attempt + 2) + Ext(name)
  }

  // The path tried after attempt failed
  function RenameCandidate(path: string, attempt: nat): string {
    JoinPath(Dir(path), Renamed(Base(path), attempt))
  }

  // The path of an attempt of a commit
  function CommitPath(path: string, attempt: nat): string {
    if attempt == 0 then path else RenameCandidate(CommitPath(path, attempt - 1), attempt - 1)
  }

  lemma CommitPathNext(path: string, attempt: nat, target: string, next: string)
    requires target == CommitPath(path, attempt) && next == CommitPath(path, attempt + 1)
    ensures next == RenameCandidate(target, attempt)
  {
  }

  lemma RenamedIsComponent(name: string, attempt: nat)
    requires Component(name)
    ensures Component(Renamed(name, attempt)) && |Renamed(name, attempt)| > |name|
  {
    var r := Renamed(name, attempt);
    assert r[|Stem(name)|] == '-';
    assert '/' !in Stem(name) && '/' !in "-" && '/' !in Decimal(attempt + 2) && '/' !in Ext(name);
  }

  // A candidate is a longer name in the same directory.
  lemma RenameStays(dir: seq<string>, name: string, attempt: nat)
    requires Components(dir) && Component(name)
    ensures RenameCandidate(Render(true, dir + [name]), attempt) == Render(true, dir + [Renamed(name, attempt)])
  {
    RenamedIsComponent(name, attempt);
    DirBase(dir + [name]);
    assert (dir + [name])[..|dir|] == dir;
    AppendPart(dir, Renamed(name, attempt));
  }

  // The file name of an attempt
  function CommitName(name: string, attempt: nat): string {
    if attempt == 0 then name else Renamed(CommitName(name, attempt - 1), attempt - 1)
  }

  lemma CommitNameNext(name: string, attempt: nat, prior: string, next: string)
    requires Component(prior) && prior == CommitName(name, attempt) && next == CommitName(name, attempt + 1)
    ensures Component(next) && |next| > |prior| && next == Renamed(prior, attempt)
  {
    RenamedIsComponent(prior, attempt);
  }

  lemma CommitNameStep(name: string, attempt: nat)
    requires Component(CommitName(name, attempt))
    ensures Component(CommitName(name, attempt + 1)) && |CommitName(name, attempt + 1)| > |CommitName(name, attempt)|
  {
    CommitNameNext(name, attempt, CommitName(name, attempt), CommitName(name, attempt + 1));
  }

  lemma {:induction false} CommitNameOk(name: string, attempt: nat)
    requires Component(name)
    ensures Component(CommitName(name, attempt))
  {
    if attempt == 0 {
    } else {
      var before := attempt - 1;
      CommitNameOk(name, before);
      CommitNameStep(name, before);
    }
  }

  function CommitLength(name: string, attempt: nat): nat {
    |CommitName(name, attempt)|
  }

  lemma CommitLengthStep(name: string, attempt: nat)
    requires Component(name)
    ensures CommitLength(name, attempt) < CommitLength(name, attempt + 1)
  {
    CommitNameOk(name, attempt);
    CommitNameStep(name, attempt);
  }

  // Every attempt's name is longer than all before it.
  lemma {:induction false} CommitNameGrows(name: string, i: nat, j: nat)
    requires Component(name) && i < j
    ensures CommitLength(name, i) < CommitLength(name, j)
  {
    hide CommitLength, CommitName, Renamed;
    CommitLengthStep(name, j - 1);
    if i < j - 1 { CommitNameGrows(name, i, j - 1); }
  }

  lemma CommitPathStep(dir: seq<string>, name: string, first: string, attempt: nat)
    requires Components(dir) && Component(CommitName(name, attempt))
    requires CommitPath(first, attempt) == Render(true, dir + [CommitName(name, attempt)])
    ensures CommitPath(first, attempt + 1) == Render(true, dir + [CommitName(name, attempt + 1)])
  {
    var prior := CommitName(name, attempt);
    CommitNameNext(name, attempt, prior, CommitName(name, attempt + 1));
    RenameStays(dir, prior, attempt);
    CommitPathNext(first, attempt, Render(true, dir + [prior]), CommitPath(first, attempt + 1));
  }

  // Every attempt renames the file and stays in the directory.
  lemma {:induction false} CommitPathStays(dir: seq<string>, name: string, first: string, attempt: nat)
    requires Components(dir) && Component(name) && first == Render(true, dir + [name])
    ensures CommitPath(first, attempt) == Render(true, dir + [CommitName(name, attempt)])
  {
    if attempt == 0 {
    } else {
      var before := attempt - 1;
      CommitPathStays(dir, name, first, before);
      CommitNameOk(name, before);
      CommitPathStep(dir, name, first, before);
    }
  }

  lemma LongerNameDiffers(dir: seq<string>, a: string, b: string)
    requires Components(dir) && Component(a) && Component(b) && |a| < |b|
    ensures Render(true, dir + [a]) != Render(true, dir + [b])
  {
    ElementsRender(true, dir + [a]);
    ElementsRender(true, dir + [b]);
    assert (dir + [a])[|dir|] != (dir + [b])[|dir|];
  }

  // The paths a commit tries, one after the other, are in the directory of the first, and
  // no two of them are equal.
  lemma {:induction false} CommitPathsDistinct(dir: seq<string>, name: string, first: string, i: nat, j: nat)
    requires Components(dir) && Component(name) && first == Render(true, dir + [name]) && i < j
    ensures Component(CommitName(name, i)) && CommitPath(first, i) == Render(true, dir + [CommitName(name, i)])
    ensures CommitPath(first, i) != CommitPath(first, j)
  {
    hide CommitPath, CommitName, Renamed, Render;
    CommitNameOk(name, i);
    CommitNameOk(name, j);
    CommitNameGrows(name, i, j);
    CommitPathStays(dir, name, first, i);
    CommitPathStays(dir, name, first, j);
    LongerNameDiffers(dir, CommitName(name, i), CommitName(name, j));
  }

  // ------------------------------------------------------------ extensions

  lemma DotAfter(name: string, i: nat, j: nat)
    requires i < |name| && j < |name| && name[j] == '.'
    ensures i < j ==> '.' in name[i + 1..]
  {
    if i < j { assert name[i + 1..][j - i - 1] == name[j]; }
  }

  // A name has one last dot.
  lemma LastDot(name: string, i: nat, j: nat)
    requires i < |name| && j < |name| && name[i] == '.' && name[j] == '.'
    requires '.' !in name[i + 1..] && '.' !in name[j + 1..]
    ensures i == j
  {
    DotAfter(name, i, j);
    DotAfter(name, j, i);
  }

  // The extension is what follows the last dot, with the dot; a name without a dot has none.
  lemma ExtOfDotted(name: string, stem: string, e: string)
    requires name == stem + "." + e && '/' !in name && '.' !in e
    ensures Ext(name) == "." + e && Stem(name) == stem
  {
    hide Ext;
    var k, n := |name| - |Ext(name)|, |stem|;
    assert name[n] == '.' && name[n + 1..] == e;
    assert name[k] == '.' && name[k + 1..] == Ext(name)[1..];
    LastDot(name, n, k);
    assert name[n..] == "." + e;
  }

  lemma NoExt(name: string)
    requires '.' !in name
    ensures Ext(name) == "" && Stem(name) == name
  {
  }

  // A name tried to avoid a collision keeps the extension; a name without one gets the suffix
  // at its end.
  lemma CandidatesKeepExtension(stem: string, e: string, stamp: string, counter: nat)
    requires '/' !in stem && '/' !in e && '.' !in e
    ensures TimeCandidate(stem + "." + e, stamp) == stem + "-" + stamp + "." + e
    ensures CounterCandidate(stem + "." + e, stamp, counter) == stem + "-" + stamp + "-" + Decimal(counter) + "." + e
    ensures '.' !in stem ==>
              && TimeCandidate(stem, stamp) == stem + "-" + stamp
              && CounterCandidate(stem, stamp, counter) == stem + "-" + stamp + "-" + Decimal(counter)
  {
    ExtOfDotted(stem + "." + e, stem, e);
    assert stem + "-" + stamp + ("." + e) == stem + "-" + stamp + "." + e;
    assert stem + "-" + stamp + "-" + Decimal(counter) + ("." + e)
           == stem + "-" + stamp + "-" + Decimal(counter) + "." + e;
    if '.' !in stem { NoExt(stem); }
  }

  // The suffix that attempt adds to a name
  lemma RenamedDotted(stem: string, e: string, attempt: nat, suffix: string)
    requires '/' !in stem && '/' !in e && '.' !in e && suffix == Decimal(attempt + 2)
    ensures Renamed(stem + "." + e, attempt) == stem + "-" + suffix + "." + e
    ensures '.' !in stem ==> Renamed(stem, attempt) == stem + "-" + suffix
  {
    ExtOfDotted(stem + "." + e, stem, e);
    assert stem + "-" + suffix + ("." + e) == stem + "-" + suffix + "." + e;
    if '.' !in stem { NoExt(stem); }
  }

  lemma SecondNames(stem: string, e: string)
    requires '/' !in stem && '/' !in e && '.' !in e
    ensures CommitName(stem + "." + e, 1) == stem + "-2" + "." + e
    ensures CommitName(stem + "." + e, 2) == stem + "-2-3" + "." + e
    ensures '.' !in stem ==> CommitName(stem, 1) == stem + "-2" && CommitName(stem, 2) == stem + "-2-3"
  {
    hide Renamed;
    assert Decimal(2) == "2" && Decimal(3) == "3";
    RenamedDotted(stem, e, 0, "2");
    assert stem + "-" + "2" == stem + "-2";
    RenamedDotted(stem + "-2", e, 1, "3");
    assert stem + "-2" + "-" + "3" == stem + "-2-3";
  }

  // A commit that renames keeps directory and extension: "report.pdf", "report-2.pdf",
  // "report-2-3.pdf".
  lemma {:induction false} RenamesKeepExtension(dir: seq<string>, stem: string, e: string)
    requires Components(dir) && Component(stem + "." + e) && '.' !in e
    ensures CommitPath(Render(true, dir + [stem + "." + e]), 1) == Render(true, dir + [stem + "-2" + "." + e])
    ensures CommitPath(Render(true, dir + [stem + "." + e]), 2) == Render(true, dir + [stem + "-2-3" + "." + e])
  {
    hide CommitPath, Render, CommitName;
    var name := stem + "." + e;
    assert '/' !in stem by { assert forall i :: 0 <= i < |stem| ==> stem[i] == name[i]; }
    assert '/' !in e by { assert forall i :: 0 <= i < |e| ==> e[i] == name[|stem| + 1 + i]; }
    SecondNames(stem, e);
    CommitPathStays(dir, name, Render(true, dir + [name]), 1);
    CommitPathStays(dir, name, Render(true, dir + [name]), 2);
  }

  lemma {:induction false} RenamesWithoutExtension(dir: seq<string>, name: string)
    requires Components(dir) && Component(name) && '.' !in name
    ensures CommitPath(Render(true, dir + [name]), 1) == Render(true, dir + [name + "-2"])
    ensures CommitPath(Render(true, dir + [name]), 2) == Render(true, dir + [name + "-2-3"])
  {
    hide CommitPath, Render, CommitName;
    SecondNames(name, "");
    CommitPathStays(dir, name, Render(true, dir + [name]), 1);
    CommitPathStays(dir, name, Render(true, dir + [name]), 2);
  }
}
