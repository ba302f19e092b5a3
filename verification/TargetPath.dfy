/** The mapping of an FTP path to a WebDAV target path below the account's root
    (pkg/transfer/transfer.go) and the root check of the configuration (pkg/config/config.go). */
module TargetPath {
  import opened Text
  import opened GoPath
  import opened Results
  import Utf8

  datatype TransferError =
    | PathTraversal
    | TooLong
    | InvalidInput
    | NotFound
    | AlreadyExists
    | NoFreeName
    | DirectoriesFailed

  // ------------------------------------------------------------ config.normalizeTargetRoot

  function SlashesForBackslashes(s: string): (r: string)
    ensures |r| == |s|
    ensures forall i :: 0 <= i < |s| ==> r[i] == if s[i] == '\\' then '/' else s[i]
  {
    seq(|s|, i requires 0 <= i < |s| => if s[i] == '\\' then '/' else s[i])
  }

  // A root that starts with a slash is never blank, so TrimSpace decides nothing.
  function NormalizeTargetRoot(root: string): Result<string, TransferError> {
    if !IsAbs(root) then Err(InvalidInput)
    else if ".." in Split(SlashesForBackslashes(root), '/') then Err(PathTraversal)
    else Ok(Clean(root))
  }

  // Every root of the configuration reaches the transfer manager in this form.
  lemma NormalizedRootIsClean(root: string)
    requires NormalizeTargetRoot(root).Ok?
    ensures CleanAbs(NormalizeTargetRoot(root).value)
    ensures Elements(NormalizeTargetRoot(root).value) == Elements(root)
  {
    CleanKeepsElements(root);
  }

  // A clean root without backslashes is taken as it is.
  lemma CleanRootAccepted(root: string)
    requires CleanAbs(root) && '\\' !in root
    ensures NormalizeTargetRoot(root) == Ok(root)
  {
    var cs := Elements(root);
    assert SlashesForBackslashes(root) == root;
    ElementsAreComponents(root);
    if cs == [] {
      assert Split("/", '/') == ["", ""] by { SplitConcat("", "", '/'); assert "" + ['/'] + "" == "/"; }
    } else {
      RenderParts(true, cs);
    }
  }

  // A root with a part ".." is refused, even where cleaning it would take the part away.
  lemma DotDotRootRefused(root: string)
    requires IsAbs(root) && ".." in Split(root, '/')
    ensures NormalizeTargetRoot(root) == Err(PathTraversal)
  {
    BackslashesSplitMore(root);
    var parts := Split(SlashesForBackslashes(root), '/');
    assert parts == [parts[0]] + parts[1..];
    var i :| 0 <= i < |Split(root, '/')| && Split(root, '/')[i] == "..";
    assert i > 0 ==> ".." in Split(root, '/')[1..];
  }

  // Reading backslashes as slashes keeps the parts without any.
  lemma {:induction false} BackslashesSplitMore(s: string)
    ensures var parts, more := Split(s, '/'), Split(SlashesForBackslashes(s), '/');
            && ('\\' !in parts[0] ==> more[0] == parts[0])
            && (forall part :: part in parts[1..] && '\\' !in part ==> part in more[1..])
  {
    if s != "" {
      BackslashesSplitMore(s[1..]);
      var parts, more := Split(s[1..], '/'), Split(SlashesForBackslashes(s[1..]), '/');
      assert SlashesForBackslashes(s)[1..] == SlashesForBackslashes(s[1..]);
      assert parts == [parts[0]] + parts[1..] && more == [more[0]] + more[1..];
    }
  }

  // ------------------------------------------------------------ normalizeFTPPath

  const MAX_FTP_PATH := 4096

  predicate RootPath(path: string) {
    path == "" || path == "." || path == "/"
  }

  function TrimLeftSlashes(p: string): string {
    if p != "" && (p[0] == '/' || p[0] == '\\') then TrimLeftSlashes(p[1..]) else p
  }

  predicate DriveLetter(p: string) {
    |p| >= 2 && p[1] == ':'
  }

  function NormalizeFtpPath(path: string): Result<string, TransferError> {
    if RootPath(path) then Ok("")
    else if Contains(path, "..") || Contains(path, "/..") || Contains(path, "../")
         || Contains(path, "\\..\\") || Contains(path, "..\\") then Err(PathTraversal)
    else if "/" <= path || "\\" <= path then Err(PathTraversal)
    else if DriveLetter(path) then Err(PathTraversal)
    else
      var trimmed := TrimLeftSlashes(path);
      if trimmed == "" then Ok("")
      else
        var clean := Clean(trimmed);
        if Contains(clean, "..") then Err(PathTraversal)
        else if IsAbs(clean) then Err(PathTraversal)
        else if |clean| > MAX_FTP_PATH then Err(TooLong)
        else Ok(clean)
  }

  // Cleaning a relative path without ".." introduces neither ".." nor a leading slash.
  lemma CleanRelative(path: string)
    requires path != "" && !IsAbs(path) && !Contains(path, "..")
    ensures !Contains(Clean(path), "..") && !IsAbs(Clean(path))
    ensures Components(Elements(path))
  {
    NoDotDotElements(path);
    ElementsRender(false, Elements(path));
  }

  // Each of the longer patterns contains "..".
  lemma DotDotVariants(path: string)
    ensures Contains(path, "/..") || Contains(path, "../") || Contains(path, "\\..\\") || Contains(path, "..\\")
            ==> Contains(path, "..")
  {
    ContainsWithin(path, "/..", 1, "..");
    ContainsWithin(path, "../", 0, "..");
    ContainsWithin(path, "\\..\\", 1, "..");
    ContainsWithin(path, "..\\", 0, "..");
  }

  // The checks after Clean never fire: what normalizeFTPPath accepts is decided before it.
  lemma NormalizeFtpPathAccepts(path: string)
    ensures NormalizeFtpPath(path).Ok? <==>
            RootPath(path) || (!Contains(path, "..") && !("/" <= path) && !("\\" <= path)
                               && !DriveLetter(path) && |Clean(path)| <= MAX_FTP_PATH)
    ensures NormalizeFtpPath(path).Ok? && !RootPath(path) ==>
            NormalizeFtpPath(path).value == Clean(path) && Components(Elements(path)) && !IsAbs(path)
  {
    DotDotVariants(path);
    if !RootPath(path) && !Contains(path, "..") && !("/" <= path) && !("\\" <= path) {
      assert !IsAbs(path);
      CleanRelative(path);
    }
  }

  // ------------------------------------------------------------ sanitizeFilename

  const MAX_FILENAME := 255

  // The UTF-8 encoding of U+FFFD, which a range loop yields for an invalid byte
  const REPLACEMENT: string := [0xEF as char, 0xBF as char, 0xBD as char]

  // One step of the loop over the runes of s: the bytes written and the bytes consumed
  function CleanRune(s: string): (r: (string, nat))
    requires s != ""
    ensures 1 <= r.1 <= |s| && r.0 != ""
    ensures s[0] != '/' ==> '/' !in r.0
    ensures r.0[0] == '.' <==> s[0] == '.'
    ensures s[0] == '.' ==> r.0 == "." && r.1 == 1
  {
    var w := Utf8.RuneWidth(s);
    if w == 0 then (REPLACEMENT, 1)
    else if w == 1 && (s[0] < 32 as char || s[0] == 127 as char) then ("_", 1)
    else (s[..w], w)
  }

  function CleanRunes(s: string): (r: string)
    ensures r == "" <==> s == ""
  {
    if s == "" then "" else CleanRune(s).0 + CleanRunes(s[CleanRune(s).1..])
  }

  lemma {:induction false} CleanRunesKeeps(s: string)
    requires '/' !in s
    ensures '/' !in CleanRunes(s)
    ensures CleanRunes(s) == "." <==> s == "."
    ensures CleanRunes(s) == ".." <==> s == ".."
    decreases |s|
  {
    if s != "" {
      var (piece, n) := CleanRune(s);
      CleanRunesKeeps(s[n..]);
      var rest := CleanRunes(s[n..]);
      assert CleanRunes(s) == piece + rest;
      if piece == "." {
        assert s == "." + s[1..];
        assert CleanRunes(s)[1..] == rest;
      }
    }
  }

  // In ASCII only the control characters are replaced, each by an underscore.
  lemma {:induction false} AsciiCleaned(s: string)
    requires forall i :: 0 <= i < |s| ==> s[i] < 128 as char
    ensures |CleanRunes(s)| == |s|
    ensures forall i :: 0 <= i < |s| ==>
              CleanRunes(s)[i] == if s[i] < 32 as char || s[i] == 127 as char then '_' else s[i]
  {
    if s != "" { AsciiCleaned(s[1..]); }
  }

  // Valid UTF-8 without control characters stays as it is.
  lemma {:induction false} ValidCleaned(s: string)
    requires Utf8.Valid(s)
    requires forall i :: 0 <= i < |s| ==> s[i] >= 32 as char && s[i] != 127 as char
    ensures CleanRunes(s) == s
    decreases |s|
  {
    if s != "" {
      var w := Utf8.RuneWidth(s);
      ValidCleaned(s[w..]);
      assert s == s[..w] + s[w..];
    }
  }

  // The checks of sanitizeFilename before the runes are looked at
  predicate FilenameTraversal(f: string) {
    || f == ".." || "../" <= f || Contains(f, "/../") || Contains(f, "/..")
    || (|f| >= 3 && f[|f| - 3..] == "/..")
    || "/" <= f || "\\" <= f
    || DriveLetter(f)
  }

  function SanitizedFilename(f: string): Result<string, TransferError> {
    if f == "" then Err(InvalidInput)
    else if FilenameTraversal(f) then Err(PathTraversal)
    else
      var base := Base(f);
      if base == ".." then Err(PathTraversal)
      else
        var result := CleanRunes(base);
        if result == "" then Ok("unnamed")
        else if Utf8.RuneCount(result) > MAX_FILENAME then Err(TooLong)
        else Ok(result)
  }

  method ReplaceControlRunes(base: string) returns (safe: string)
    ensures safe == CleanRunes(base)
  {
    safe := "";
    var i := 0;
    while i < |base|
      invariant i <= |base|
      invariant safe + CleanRunes(base[i..]) == CleanRunes(base)
    {
      var (piece, n) := CleanRune(base[i..]);
      assert base[i..][n..] == base[i + n..];
      safe := safe + piece;
      i := i + n;
    }
    assert base[i..] == "";
  }

  method SanitizeFilename(f: string) returns (r: Result<string, TransferError>)
    ensures r == SanitizedFilename(f)
  {
    if f == "" {
      return Err(InvalidInput);
    }
    if FilenameTraversal(f) {
      return Err(PathTraversal);
    }
    var base := Base(f);
    if base == ".." {
      return Err(PathTraversal);
    }
    var safe := ReplaceControlRunes(base);
    if safe == "" {
      return Ok("unnamed");
    }
    if Utf8.RuneCount(safe) > MAX_FILENAME {
      return Err(TooLong);
    }
    r := Ok(safe);
  }

  // The base name of a relative path is one non-empty part.
  lemma BaseRelative(f: string)
    requires f != "" && f[0] != '/'
    ensures Base(f) != "" && '/' !in Base(f)
    ensures Base(f) == ".." ==> FilenameTraversal(f)
  {
    var t := TrimTrailingSlashes(f);
    var i := AfterLastSlash(t);
    assert t != "" && f[..|t|] == t;
    assert i < |t|;
    if Base(f) == ".." {
      if i > 0 {
        assert "/.." <= f[i - 1..];
      } else if |t| < |f| {
        assert "../" <= f;
      } else {
        assert f == "..";
      }
    }
  }

  // A sanitized name is one path part that is never "..", so it cannot climb.
  lemma {:induction false} SanitizedFilenameSafe(f: string)
    requires SanitizedFilename(f).Ok?
    ensures var r := SanitizedFilename(f).value;
            r == CleanRunes(Base(f)) && r != "" && r != ".." && '/' !in r && (r == "." <==> Base(f) == ".")
  {
    BaseRelative(f);
    CleanRunesKeeps(Base(f));
  }

  // ------------------------------------------------------------ validateTargetPath

  predicate HasSuffix(s: string, suffix: string) {
    |suffix| <= |s| && s[|s| - |suffix|..] == suffix
  }

  predicate ValidTarget(targetPath: string, targetRoot: string) {
    var cleanRoot, cleanPath := AbsClean(targetRoot), AbsClean(targetPath);
    || cleanPath == cleanRoot
    || (if HasSuffix(cleanRoot, "/") then cleanRoot else cleanRoot + "/") <= cleanPath
  }

  // The components of a path that starts with a slash
  function Below(p: string): seq<string>
    requires IsAbs(p)
  {
    if p == "/" then [] else Split(p, '/')[1..]
  }

  lemma AbsCleanShape(p: string)
    ensures IsAbs(AbsClean(p))
    ensures AbsClean(p) != "/" ==> AbsClean(p)[|AbsClean(p)| - 1] != '/'
  {
    var cs := Elements(p);
    ReduceNonEmpty(IsAbs(p), Split(p, '/'), []);
    if p != "" && cs != [] {
      var n := |cs| - 1;
      assert cs[n] != "" && cs[n][|cs[n]| - 1] != '/';
      assert cs == cs[..n] + [cs[n]];
      if n > 0 { JoinConcat(cs[..n], [cs[n]], '/'); }
      assert Join(cs, '/')[|Join(cs, '/')| - 1] == cs[n][|cs[n]| - 1];
    }
  }

  lemma BelowParts(p: string)
    requires IsAbs(p) && p != "/"
    ensures Split(p, '/') == [""] + Below(p) && Below(p) != []
  {
    JoinSplit(p, '/');
    assert Split(p, '/')[0] == "";
  }

  lemma PrefixIsBelow(r: string, p: string)
    requires IsAbs(r) && IsAbs(p) && r != "/" && p != "/"
    ensures p == r || r + "/" <= p <==> Below(r) <= Below(p)
  {
    PrefixIsPartsPrefix(r, p, '/');
    JoinSplit(r, '/');
    JoinSplit(p, '/');
    BelowParts(r);
    BelowParts(p);
    var rs, ps := Split(r, '/'), Split(p, '/');
    assert rs <= ps <==> Below(r) <= Below(p);
    assert rs <= ps <==> rs == ps || rs < ps;
    assert r + ['/'] == r + "/";
  }

  // The string test of validateTargetPath is the component-prefix relation, for any root
  // and any path.
  lemma ValidTargetIsComponentPrefix(targetPath: string, targetRoot: string)
    ensures IsAbs(AbsClean(targetPath)) && IsAbs(AbsClean(targetRoot))
    ensures ValidTarget(targetPath, targetRoot)
            <==> Below(AbsClean(targetRoot)) <= Below(AbsClean(targetPath))
  {
    var r, p := AbsClean(targetRoot), AbsClean(targetPath);
    AbsCleanShape(targetRoot);
    AbsCleanShape(targetPath);
    if r == "/" {
      assert HasSuffix(r, "/");
    } else {
      assert !HasSuffix(r, "/");
      if p == "/" { BelowParts(r); } else { PrefixIsBelow(r, p); }
    }
  }

  // ------------------------------------------------------------ CalculateTargetPath

  // The path computed for a configured root, with the error of the first failing step
  function TargetFor(root: string, ftpPath: string, filename: string): Result<string, TransferError> {
    var normalized := if RootPath(ftpPath) then Ok("") else NormalizeFtpPath(ftpPath);
    if normalized.Err? then Err(normalized.error)
    else
      var dir := if RootPath(ftpPath) then root else JoinPath(root, normalized.value);
      var safe := if filename == "" then Ok("") else SanitizedFilename(filename);
      if safe.Err? then Err(safe.error)
      else
        var target := if filename == "" then dir else JoinPath(dir, safe.value);
        if ValidTarget(target, root) then Ok(target) else Err(PathTraversal)
  }

  // What is accepted is the root or below it, component by component, for any root at all.
  lemma TargetContained(root: string, ftpPath: string, filename: string)
    requires TargetFor(root, ftpPath, filename).Ok?
    ensures var t := TargetFor(root, ftpPath, filename).value;
            IsAbs(AbsClean(t)) && IsAbs(AbsClean(root)) && Below(AbsClean(root)) <= Below(AbsClean(t))
  {
    ValidTargetIsComponentPrefix(TargetFor(root, ftpPath, filename).value, root);
  }

  function DirElements(ftpPath: string): seq<string> {
    if RootPath(ftpPath) then [] else Elements(ftpPath)
  }

  function FileElements(filename: string): seq<string>
    requires filename != "" ==> SanitizedFilename(filename).Ok?
  {
    if filename == "" || SanitizedFilename(filename).value == "." then []
    else [SanitizedFilename(filename).value]
  }

  lemma BelowRender(cs: seq<string>)
    requires Components(cs)
    ensures IsAbs(Render(true, cs)) && AbsClean(Render(true, cs)) == Render(true, cs)
    ensures Below(Render(true, cs)) == cs
  {
    ElementsRender(true, cs);
    if cs != [] {
      RenderParts(true, cs);
      assert Component(cs[0]);
      assert ([""] + cs)[1..] == cs;
      assert Split("/", '/') == ["", ""] by { SplitConcat("", "", '/'); assert "" + ['/'] + "" == "/"; }
    } else {
      assert Render(true, []) == "/";
    }
  }

  function TargetDir(root: string, ftpPath: string): string
    requires NormalizeFtpPath(ftpPath).Ok?
  {
    if RootPath(ftpPath) then root else JoinPath(root, NormalizeFtpPath(ftpPath).value)
  }

  lemma TargetDirElements(root: string, ftpPath: string)
    requires CleanAbs(root) && NormalizeFtpPath(ftpPath).Ok?
    ensures Components(Elements(root) + DirElements(ftpPath))
    ensures TargetDir(root, ftpPath) == Render(true, Elements(root) + DirElements(ftpPath))
  {
    var r, d := Elements(root), DirElements(ftpPath);
    ElementsAreComponents(root);
    ElementsRender(true, r);
    if RootPath(ftpPath) {
      assert r + d == r;
    } else {
      NormalizeFtpPathAccepts(ftpPath);
      ElementsRender(false, d);
      if d == [] {
        SplitNone(".", '/');
      } else {
        RenderParts(false, d);
        assert [] + d == d;
      }
      JoinBelow(root, Clean(ftpPath));
    }
  }

  lemma TargetFileElements(cs: seq<string>, filename: string)
    requires Components(cs) && filename != "" && SanitizedFilename(filename).Ok?
    ensures Components(cs + FileElements(filename))
    ensures JoinPath(Render(true, cs), SanitizedFilename(filename).value)
            == Render(true, cs + FileElements(filename))
  {
    SanitizedFilenameSafe(filename);
    AppendPart(cs, SanitizedFilename(filename).value);
  }

  // Below a configured root the result is exactly root, directory and file name, in that
  // order; the final validation never rejects what the two earlier checks let through.
  lemma TargetIsRootDirFile(root: string, ftpPath: string, filename: string)
    requires CleanAbs(root)
    ensures TargetFor(root, ftpPath, filename).Ok?
            <==> NormalizeFtpPath(ftpPath).Ok? && (filename != "" ==> SanitizedFilename(filename).Ok?)
    ensures TargetFor(root, ftpPath, filename).Ok? ==>
            var cs := Elements(root) + DirElements(ftpPath) + FileElements(filename);
            Components(cs) && TargetFor(root, ftpPath, filename).value == Render(true, cs)
  {
    if NormalizeFtpPath(ftpPath).Ok? && (filename != "" ==> SanitizedFilename(filename).Ok?) {
      var r, d, f := Elements(root), DirElements(ftpPath), FileElements(filename);
      TargetDirElements(root, ftpPath);
      if filename == "" {
        assert r + d + f == r + d;
      } else {
        TargetFileElements(r + d, filename);
      }
      ElementsAreComponents(root);
      ElementsRender(true, r);
      BelowRender(r);
      BelowRender(r + d + f);
      assert r + d + f == r + (d + f);
      ValidTargetIsComponentPrefix(Render(true, r + d + f), root);
    }
  }

  lemma TargetNotEmpty(root: string, ftpPath: string, filename: string)
    requires CleanAbs(root) && TargetFor(root, ftpPath, filename).Ok?
    ensures TargetFor(root, ftpPath, filename).value != ""
  {
    TargetIsRootDirFile(root, ftpPath, filename);
  }

  // ------------------------------------------------------------ handleUploadOpen

  // The directory and the file name handleUploadOpen extracts from the STOR path
  function UploadDir(path: string): string {
    if "/" <= Dir(path) then Dir(path)[1..] else Dir(path)
  }

  function UploadTarget(root: string, path: string): Result<string, TransferError> {
    TargetFor(root, UploadDir(path), Base(path))
  }

  lemma UploadParts(cs: seq<string>)
    requires Components(cs) && cs != []
    ensures var n := |cs| - 1;
            && UploadDir(Render(true, cs)) == Join(cs[..n], '/') && Base(Render(true, cs)) == cs[n]
            && (n > 0 ==> Clean(Join(cs[..n], '/')) == Join(cs[..n], '/') && !IsAbs(Join(cs[..n], '/')))
            && (RootPath(Join(cs[..n], '/')) <==> n == 0)
  {
    var n := |cs| - 1;
    DirBase(cs);
    if n > 0 {
      ElementsRender(false, cs[..n]);
      RenderParts(false, cs[..n]);
      assert Component(cs[0]);
      assert Split(".", '/') == ["."] by { SplitNone(".", '/'); }
    }
  }

  // A clean STOR path is mapped exactly if its directory has no ".." even inside a name and is at
  // most 4096 bytes, neither directory nor name begins with a backslash or a drive letter, and
  // the cleaned name has at most 255 runes.
  lemma UploadTargetAccepts(root: string, cs: seq<string>)
    requires CleanAbs(root) && Components(cs) && cs != []
    ensures UploadTarget(root, Render(true, cs)).Ok? <==>
              var n := |cs| - 1;
              var d, f := Join(cs[..n], '/'), cs[n];
              && !Contains(d, "..") && |d| <= 4096 && !("\\" <= d) && !(|d| >= 2 && d[1] == ':')
              && !("\\" <= f) && !(|f| >= 2 && f[1] == ':') && Utf8.RuneCount(CleanRunes(f)) <= 255
  {
    hide Render, Clean, Dir, Base, Utf8.RuneCount, CleanRunes;
    var n := |cs| - 1;
    var d, f := Join(cs[..n], '/'), cs[n];
    UploadParts(cs);
    TargetIsRootDirFile(root, d, f);
    NormalizeFtpPathAccepts(d);
    ComponentSanitized(f);
    if n == 0 { assert d == "" && !Contains(d, "..") by { NotContained(d, "..", '.'); } }
  }

  lemma ComponentSanitized(f: string)
    requires Component(f)
    ensures SanitizedFilename(f) == if "\\" <= f || DriveLetter(f) then Err(PathTraversal)
                                    else if Utf8.RuneCount(CleanRunes(f)) > 255 then Err(TooLong)
                                    else Ok(CleanRunes(f))
  {
    hide FilenameTraversal, Base, CleanRunes, Utf8.RuneCount;
    BaseOfPart(f);
    ComponentTraversal(f);
  }

  lemma ComponentTraversal(f: string)
    requires Component(f)
    ensures FilenameTraversal(f) <==> "\\" <= f || DriveLetter(f)
  {
    NotContained(f, "/../", '/');
    NotContained(f, "/..", '/');
    NotContained(f, "../", '/');
    assert f[0..] == f;
  }

  // The FTP namespace root is the target root: a clean absolute FTP path keeps its
  // components, with only the runes of the file name replaced.
  lemma {:induction false} UploadTargetElements(root: string, cs: seq<string>)
    requires CleanAbs(root) && Components(cs) && cs != []
    ensures UploadTarget(root, Render(true, cs)).Ok? ==>
              var n := |cs| - 1;
              UploadTarget(root, Render(true, cs)).value
              == Render(true, Elements(root) + cs[..n] + [CleanRunes(cs[n])])
  {
    var n := |cs| - 1;
    var p := Render(true, cs);
    if UploadTarget(root, p).Ok? {
      DirBase(cs);
      ElementsRender(true, cs[..n]);
      var d := UploadDir(p);
      assert d == Join(cs[..n], '/');
      assert Component(cs[n]);
      TargetIsRootDirFile(root, d, cs[n]);
      SanitizedFilenameSafe(cs[n]);
      BaseOfPart(cs[n]);
      CleanRunesKeeps(cs[n]);
      if n == 0 {
        assert d == "";
        assert cs[..n] == [];
      } else {
        ElementsRender(false, cs[..n]);
        assert Component(cs[0]);
        RenderParts(false, cs[..n]);
        if RootPath(d) { SplitNone(".", '/'); }
      }
    }
  }
}
