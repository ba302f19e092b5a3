/** defaultManager.StoreStream and Retrieve of pkg/spool/spool.go. */
module SpoolStore {
  import opened Text
  import opened GoPath
  import opened Results
  import opened Spool
  import opened UploadManager

  const BUFFER_SIZE := 32768

  // ------------------------------------------------------------ the reader

  datatype ReadError = NoError | Eof | Failed

  datatype Chunk = Chunk(data: Bytes, err: ReadError)

  // An io.Reader that delivers a list of chunks and then end of file
  class Reader {
    var script: seq<Chunk>

    constructor (script: seq<Chunk>)
      ensures this.script == script
    {
      this.script := script;
    }

    // Fills a prefix of buf and leaves the rest of it alone.
    method Read(buf: array<byte>) returns (n: nat, err: ReadError)
      requires forall c :: c in script ==> |c.data| <= buf.Length
      modifies this, buf
      ensures n <= buf.Length
      ensures old(script) == [] ==> n == 0 && err == Eof && script == []
      ensures old(script) != [] ==> script == old(script)[1..] && err == old(script)[0].err
                                    && buf[..n] == old(script)[0].data
      ensures buf[n..] == old(buf[n..])
    {
      if script == [] {
        assert buf[0..] == old(buf[0..]);
        return 0, Eof;
      }
      var chunk := script[0];
      script := script[1..];
      forall i | 0 <= i < |chunk.data| {
        buf[i] := chunk.data[i];
      }
      n, err := |chunk.data|, chunk.err;
    }
  }

  // What a reader delivers up to its first empty read, None when a read fails before
  function UntilEmpty(script: seq<Chunk>): Option<Bytes> {
    if script == [] then Some([])
    else if script[0].err == Failed then None
    else if script[0].data == [] then Some([])
    else
      match UntilEmpty(script[1..])
      case None => None
      case Some(rest) => Some(script[0].data + rest)
  }

  // The disk takes all of every chunk up to the first empty read; disk(k) is the number of
  // bytes of chunk k it takes.
  predicate DiskTakes(script: seq<Chunk>, disk: nat -> nat, k: nat)
    decreases |script|
  {
    || script == [] || script[0].err == Failed || script[0].data == []
    || (disk(k) >= |script[0].data| && DiskTakes(script[1..], disk, k + 1))
  }

  // The rest of a stream can be copied: no read fails before the first empty one, the bytes
  // fit the announced size and the spool, and the disk takes them.
  predicate CopyFits(script: seq<Chunk>, disk: nat -> nat, k: nat, received: int, size: int, usage: int,
                     capacity: int) {
    && UntilEmpty(script).Some? && DiskTakes(script, disk, k)
    && received + |UntilEmpty(script).value| <= size
    && usage + |UntilEmpty(script).value| <= capacity
  }

  lemma CopyFitsChunk(script: seq<Chunk>, disk: nat -> nat, k: nat, received: int, size: int, usage: int, capacity: int)
    requires script != [] && script[0].err != Failed && script[0].data != []
    ensures var n := |script[0].data|;
            CopyFits(script, disk, k, received, size, usage, capacity)
            <==> && received + n <= size && usage + n <= capacity && disk(k) >= n
                 && CopyFits(script[1..], disk, k + 1, received + n, size, usage + n, capacity)
  {
  }

  // ------------------------------------------------------------ names on disk

  function UserDir(spoolDir: string, user: string): string {
    JoinPath(spoolDir, Clean(user))
  }

  function SpoolPath(spoolDir: string, user: string, fileID: string): string {
    JoinPath(UserDir(spoolDir, user), fileID)
  }

  // A plain file name, as Retrieve demands
  predicate PlainName(fileID: string) {
    fileID != "." && fileID != ".." && fileID == Base(fileID) && '\\' !in fileID
  }

  // filepath.Rel(spoolDir, dir) starts with ".."
  predicate EscapesSpool(spoolDir: string, dir: string) {
    var base, target := Elements(spoolDir), Elements(dir);
    !(base <= target) || ".." <= Join(target[|base|..], '/')
  }

  // The name generateFileID builds from the digits of a hash and the size
  function FileName(hash: string, size: nat): string {
    "file-" + hash + "-" + Decimal(size)
  }

  predicate HexDigits(s: string) {
    forall i :: 0 <= i < |s| ==> '0' <= s[i] <= '9' || 'a' <= s[i] <= 'f'
  }

  predicate NoSlash(s: string) {
    forall i :: 0 <= i < |s| ==> s[i] != '/' && s[i] != '\\'
  }

  lemma {:induction false} FileNameIsPlain(hash: string, size: nat)
    requires HexDigits(hash)
    ensures PlainName(FileName(hash, size)) && FileName(hash, size) != ""
  {
    var f := FileName(hash, size);
    assert NoSlash("file-") && NoSlash(hash) && NoSlash("-") && NoSlash(Decimal(size));
    assert NoSlash("file-" + hash) && NoSlash("file-" + hash + "-");
    assert NoSlash(f) && f[0] == 'f';
    BaseOfPart(f);
  }

  // ------------------------------------------------------------ Retrieve

  function Retrieved(files: map<Id, Bytes>, spoolDir: string, user: string, fileID: string):
    Result<Bytes, Spool.Error>
  {
    if user == "" || fileID == "" then Err(InvalidParameters)
    else if !PlainName(fileID) then Err(PathTraversal)
    else if EscapesSpool(spoolDir, UserDir(spoolDir, user)) then Err(PathTraversal)
    else
      var path := SpoolPath(spoolDir, user, fileID);
      var prefixed := SpoolPath(spoolDir, user, "file-" + fileID);
      if path in files then Ok(files[path])
      else if prefixed in files then Ok(files[prefixed])
      else Err(FileNotFound)
  }

  // The directory of a user whose name has no ".."
  lemma UserDirElements(spoolDir: string, user: string)
    requires IsAbs(spoolDir) && user != "" && !Contains(user, "..")
    ensures var dir := Elements(spoolDir) + Elements(user);
            Components(dir) && UserDir(spoolDir, user) == Render(true, dir) && Elements(UserDir(spoolDir, user)) == dir
    ensures ".." !in Elements(user)
  {
    NoDotDotElements(user);
    NoDotDotPart(user);
    CleanKeepsElements(user);
    assert ".." !in Split(Clean(user), '/') by {
      var cs := Elements(user);
      if cs == [] {
        SplitNone(".", '/');
        assert Split("/", '/') == ["", ""] by { SplitConcat("", "", '/'); assert "" + ['/'] + "" == "/"; }
        assert Render(true, []) == "/";
      } else {
        RenderParts(IsAbs(user), cs);
      }
    }
    JoinBelow(spoolDir, Clean(user));
  }

  // A user name without ".." never leads out of the spool directory.
  lemma UserStaysInside(spoolDir: string, user: string)
    requires IsAbs(spoolDir) && user != "" && !Contains(user, "..")
    ensures !EscapesSpool(spoolDir, UserDir(spoolDir, user))
  {
    NoDotDotElements(user);
    UserDirElements(spoolDir, user);
    var base, target := Elements(spoolDir), Elements(UserDir(spoolDir, user));
    assert target[|base|..] == Elements(user);
    var rel := Join(Elements(user), '/');
    assert rel[0..] == rel;
  }

  // What is on disk under a user's file ID is what Retrieve returns.
  lemma StoredIsRetrieved(files: map<Id, Bytes>, spoolDir: string, user: string, fileID: string)
    requires IsAbs(spoolDir) && user != "" && !Contains(user, "..") && PlainName(fileID) && fileID != ""
    requires SpoolPath(spoolDir, user, fileID) in files
    ensures Retrieved(files, spoolDir, user, fileID) == Ok(files[SpoolPath(spoolDir, user, fileID)])
  {
    UserStaysInside(spoolDir, user);
  }

  // Retrieve takes file names of one component without a backslash, and the lone slash.
  lemma PlainNameIff(f: string)
    ensures f != "" && PlainName(f) <==> f == "/" || (Component(f) && '\\' !in f)
  {
    if f != "" && '/' !in f { BaseOfPart(f); }
  }

  // For such a name Retrieve looks below the spool directory in the user's own, first for the
  // name and then for the name with "file-" before it.
  lemma RetrievedFrom(files: map<Id, Bytes>, spoolDir: string, user: string, fileID: string)
    requires IsAbs(spoolDir) && user != "" && !Contains(user, "..") && Component(fileID) && '\\' !in fileID
    ensures var dir := Elements(spoolDir) + Elements(user);
            var path, prefixed := Render(true, dir + [fileID]), Render(true, dir + ["file-" + fileID]);
            Retrieved(files, spoolDir, user, fileID) == if path in files then Ok(files[path])
                                                        else if prefixed in files then Ok(files[prefixed])
                                                        else Err(FileNotFound)
  {
    hide Elements, Render, JoinPath, PlainName, EscapesSpool, UserDir, Contains;
    PlainNameIff(fileID);
    UserStaysInside(spoolDir, user);
    UserDirElements(spoolDir, user);
    var dir := Elements(spoolDir) + Elements(user);
    AppendPart(dir, fileID);
    AppendPart(dir, "file-" + fileID);
  }

  // Whatever the user is called, what Retrieve returns lies in the spool directory.
  lemma RetrievedInside(files: map<Id, Bytes>, spoolDir: string, user: string, fileID: string)
    requires IsAbs(spoolDir) && Retrieved(files, spoolDir, user, fileID).Ok?
    ensures exists path :: path in files && files[path] == Retrieved(files, spoolDir, user, fileID).value
                           && Elements(spoolDir) <= Elements(path)
  {
    hide Elements, JoinPath, PlainName, Clean, UserDir;
    UserDirAbs(spoolDir, user);
    PlainBelow(UserDir(spoolDir, user), fileID, "file-" + fileID);
    var path, prefixed := SpoolPath(spoolDir, user, fileID), SpoolPath(spoolDir, user, "file-" + fileID);
    assert Elements(spoolDir) <= Elements(path) && Elements(spoolDir) <= Elements(prefixed);
  }

  lemma UserDirAbs(spoolDir: string, user: string)
    requires IsAbs(spoolDir)
    ensures IsAbs(UserDir(spoolDir, user))
  {
    CleanKeepsElements(spoolDir + "/" + Clean(user));
  }

  lemma PlainBelow(dir: string, name: string, prefixed: string)
    requires IsAbs(dir) && name != "" && PlainName(name) && prefixed == "file-" + name
    ensures Elements(dir) <= Elements(JoinPath(dir, name)) && Elements(dir) <= Elements(JoinPath(dir, prefixed))
  {
    hide Elements, JoinPath, PlainName;
    PlainNameIff(name);
    var head := "file-" + name[..|name| - 1];
    assert prefixed[..|prefixed| - 1] == head && head[0] == 'f' && prefixed[0] == 'f';
    BelowDirectory(dir, name);
    BelowDirectory(dir, prefixed);
  }

  lemma BelowDirectory(dir: string, name: string)
    requires IsAbs(dir) && name != ""
    requires name != ".." && name != "../" && '/' !in name[..|name| - 1]
    ensures Elements(dir) <= Elements(JoinPath(dir, name))
  {
    var n := |name| - 1;
    if name[n] == '/' {
      assert name == name[..n] + ['/'] + "";
      SplitConcat(name[..n], "", '/');
      SplitNone(name[..n], '/');
    } else {
      SplitNone(name, '/');
    }
    JoinBelow(dir, name);
  }

  // ------------------------------------------------------------ the manager

  class Store {
    const spoolDir: string
    const maxSize: int
    const manager: Manager

    constructor (spoolDir: string, manager: Manager)
      ensures this.spoolDir == spoolDir && this.manager == manager && maxSize == manager.maxTotalSize
    {
      this.spoolDir, this.manager, maxSize := spoolDir, manager, manager.maxTotalSize;
    }

    method Retrieve(user: string, fileID: string) returns (r: Result<Bytes, Spool.Error>)
      ensures r == Retrieved(manager.files, spoolDir, user, fileID)
    {
      if user == "" || fileID == "" {
        return Err(InvalidParameters);
      }
      if !PlainName(fileID) {
        return Err(PathTraversal);
      }
      var userDir := UserDir(spoolDir, user);
      if EscapesSpool(spoolDir, userDir) {
        return Err(PathTraversal);
      }
      var path := JoinPath(userDir, fileID);
      if path in manager.files {
        return Ok(manager.files[path]);
      }
      path := JoinPath(userDir, "file-" + fileID);
      if path in manager.files {
        return Ok(manager.files[path]);
      }
      r := Err(FileNotFound);
    }

    // The counter includes the bytes of a live upload, and nothing comes near the end of int64.
    ghost predicate Counted(upload: ActiveUpload)
      reads manager, upload
    {
      && upload.id in manager.activeUploads && !upload.cancelled
      && 0 <= upload.bytesReceived <= upload.size <= upload.limit < TWO63
      && upload.bytesReceived <= manager.currentUsage <= manager.maxTotalSize
      && manager.maxTotalSize + BUFFER_SIZE < TWO63
    }

    // A written chunk is appended to the temporary file and credited: exactly when it passes
    // the checks and the disk takes all of it, which for a counted upload means that it fits.
    method Append(upload: ActiveUpload, data: Bytes, taken: nat) returns (err: Option<Spool.Error>)
      requires manager.Valid() && manager.Knows(upload) && taken <= |data| <= BUFFER_SIZE
      requires upload.id !in manager.flight && upload.id !in manager.removed
      requires upload.open && 0 < upload.size < TWO63 && upload.bytesReceived == |upload.tempFile| <= upload.size
      modifies upload, manager`currentUsage, manager`flight
      ensures manager.Valid() && manager.flight == old(manager.flight)
      ensures err != Some(Incomplete)
      ensures err.None? <==>
                taken == |data| && ReserveError(Machine, old(manager.Model()), old(upload.Value()), |data|).None?
      ensures err.None? ==> upload.tempFile == old(upload.tempFile) + data && upload.open && !upload.cancelled
                            && upload.bytesReceived == |upload.tempFile| <= upload.size
      ensures old(Counted(upload)) ==>
                && Counted(upload)
                && (err.None? <==> taken == |data| && old(upload.bytesReceived) + |data| <= upload.size
                                   && old(manager.currentUsage) + |data| <= manager.maxTotalSize)
                && upload.bytesReceived == old(upload.bytesReceived) + (if err.None? then |data| else 0)
                && manager.currentUsage == old(manager.currentUsage) + (if err.None? then |data| else 0)
    {
      ghost var before := manager.Model();
      assert before.uploads[upload.id] == upload.Value();
      WroteOpen(before, upload.id, data, taken);
      if Counted(upload) { ChunkAccepted(before, upload.Value(), |data|); }
      var _, e := manager.WriteChunk(upload, data, taken);
      err := e;
      assert manager.Model().uploads[upload.id] == upload.Value();
      assert manager.flight == manager.Model().flight && manager.currentUsage == manager.Model().usage;
    }

    method Discard(upload: ActiveUpload)
      requires manager.Valid() && manager.Knows(upload) && upload.id !in manager.flight
      modifies upload, manager`activeUploads, manager`currentUsage
      ensures manager.Valid() && upload.id !in manager.activeUploads
      ensures old(Counted(upload)) ==> manager.currentUsage == old(manager.currentUsage) - old(upload.bytesReceived)
    {
      ghost var before := manager.Model();
      assert before.uploads[upload.id] == upload.Value();
      if Counted(upload) { AbortRecorded(before, upload.id); }
      manager.AbortUpload(upload);
      assert manager.activeUploads.Keys == manager.Model().active && manager.currentUsage == manager.Model().usage;
    }

    // What is left of the stream can be copied.
    ghost predicate Fits(script: seq<Chunk>, disk: nat -> nat, k: nat, upload: ActiveUpload)
      reads manager, upload
    {
      CopyFits(script, disk, k, upload.bytesReceived, upload.size, manager.currentUsage, manager.maxTotalSize)
    }

    // The copy loop. disk(k) is the number of bytes of chunk k the disk takes; the same
    // buffer is handed to every read. A counted upload is copied exactly when the stream fits.
    method CopyChunks(reader: Reader, upload: ActiveUpload, disk: nat -> nat) returns (err: Option<Spool.Error>)
      requires manager.Valid() && manager.Knows(upload)
      requires upload.id !in manager.flight && upload.id !in manager.removed
      requires 0 < upload.size < TWO63
      requires upload.bytesReceived == 0 && upload.tempFile == [] && upload.open && !upload.cancelled
      requires forall c :: c in reader.script ==> |c.data| <= BUFFER_SIZE
      modifies reader, upload, manager`currentUsage, manager`flight, manager`activeUploads
      ensures manager.Valid() && manager.flight == old(manager.flight)
      ensures err.None? ==>
                && UntilEmpty(old(reader.script)) == Some(upload.tempFile)
                && upload.bytesReceived == |upload.tempFile| && upload.open && !upload.cancelled
                && manager.activeUploads == old(manager.activeUploads)
      ensures err.Some? ==> upload.id !in manager.activeUploads && err != Some(Incomplete)
      ensures old(Counted(upload)) ==>
                && (err.None? <==> old(Fits(reader.script, disk, 0, upload)))
                && manager.currentUsage == old(manager.currentUsage) + (if err.None? then upload.bytesReceived else 0)
                && (err.None? ==> Counted(upload))
    {
      hide Manager.Valid, Manager.Model;
      var buf := new byte[BUFFER_SIZE];
      var k := 0;
      ghost var all := UntilEmpty(reader.script);
      ghost var counted, fits := Counted(upload), Fits(reader.script, disk, 0, upload);
      AfterEmpty(all);
      while true
        invariant manager.Valid() && manager.Knows(upload)
        invariant upload.id !in manager.flight && manager.flight == old(manager.flight)
        invariant manager.activeUploads == old(manager.activeUploads)
        invariant upload.bytesReceived == |upload.tempFile| <= upload.size
        invariant upload.open && !upload.cancelled
        invariant forall c :: c in reader.script ==> |c.data| <= BUFFER_SIZE
        invariant all == After(upload.tempFile, UntilEmpty(reader.script))
        invariant counted ==> && Counted(upload) && (fits <==> Fits(reader.script, disk, k, upload))
                              && manager.currentUsage == old(manager.currentUsage) + upload.bytesReceived
        decreases |reader.script|
      {
        ghost var script, written := reader.script, upload.tempFile;
        var n, readErr := reader.Read(buf);
        if readErr == Failed {
          Discard(upload);
          return Some(IoError);
        }
        if n == 0 {
          assert UntilEmpty(script) == Some([]);
          assert written + [] == written;
          break;
        }
        var data := buf[..n];
        AfterChunk(written, script);
        CopyFitsChunk(script, disk, k, upload.bytesReceived, upload.size, manager.currentUsage, manager.maxTotalSize);
        var writeErr := Append(upload, data, if disk(k) < n then disk(k) else n);
        if writeErr.Some? {
          Discard(upload);
          return writeErr;
        }
        k := k + 1;
      }
      err := None;
    }

    method Begin(request: Request, id: Id, fileID: string, diskOk: bool) returns (r: Result<ActiveUpload, Spool.Error>)
      requires manager.Valid() && id !in manager.started && request.expected > 0
      modifies manager`activeUploads, manager`started
      ensures manager.Valid() && r != Err(Incomplete)
      ensures r.Ok? <==> StartError(Machine, old(manager.Model()), request, diskOk).None?
      ensures r.Err? ==> manager.activeUploads == old(manager.activeUploads)
      ensures r.Ok? ==>
                && fresh(r.value) && r.value.id == id && r.value.fileID == fileID && r.value.request == request
                && r.value.size == request.expected && r.value.bytesReceived == 0 && r.value.tempFile == []
                && r.value.open && !r.value.cancelled && r.value.limit == request.limit
                && manager.Knows(r.value) && id in manager.activeUploads && !Contains(request.user, "..")
    {
      r := manager.StartUpload(request, id, fileID, diskOk);
      if r.Ok? {
        assert manager.Model().uploads[id] == r.value.Value();
      }
      assert manager.activeUploads.Keys == manager.Model().active;
      assert forall j :: j in manager.activeUploads ==> manager.activeUploads[j] == manager.started[j];
    }

    // FinishUpload of an open upload of known size: it succeeds exactly when all bytes came and
    // the disk does its part, and leaves the upload active and counted otherwise.
    method Complete(upload: ActiveUpload, fault: FinishFault) returns (r: Result<FileRef, Spool.Error>)
      requires manager.Valid() && manager.Knows(upload) && upload.id !in manager.flight && upload.size > 0
      requires upload.open && !upload.cancelled
      modifies upload`open, manager`files, manager`activeUploads, manager`currentUsage
      ensures manager.Valid()
      ensures r.Ok? <==> upload.bytesReceived == upload.size && fault == NoFault
      ensures r == Err(Incomplete) <==> upload.bytesReceived != upload.size
      ensures r.Ok? ==>
                && upload.id !in manager.activeUploads
                && upload.id in manager.files && manager.files[upload.id] == upload.tempFile
                && r.value.size == upload.size && r.value.fileID == upload.fileID
      ensures r.Err? ==> manager.activeUploads == old(manager.activeUploads)
      ensures old(Counted(upload)) ==>
                manager.currentUsage == old(manager.currentUsage) - (if r.Ok? then upload.bytesReceived else 0)
    {
      ghost var before := manager.Model();
      assert before.uploads[upload.id] == upload.Value();
      FinishRecorded(before, upload.id, fault);
      r := manager.FinishUpload(upload, fault);
      if r.Err? { SameActive(old(manager.activeUploads), manager.activeUploads, manager.started); }
    }

    // Copy and finish a started upload
    method Receive(upload: ActiveUpload, reader: Reader, disk: nat -> nat, fault: FinishFault)
      returns (r: Result<FileRef, Spool.Error>)
      requires manager.Valid() && manager.Knows(upload)
      requires upload.id !in manager.flight && upload.id !in manager.removed && upload.id in manager.activeUploads
      requires 0 < upload.size < TWO63
      requires upload.bytesReceived == 0 && upload.tempFile == [] && upload.open && !upload.cancelled
      requires forall c :: c in reader.script ==> |c.data| <= BUFFER_SIZE
      modifies reader, upload, manager`currentUsage, manager`flight, manager`activeUploads, manager`files
      ensures manager.Valid()
      ensures r.Ok? ==>
                && upload.id !in manager.activeUploads && upload.id in manager.files
                && UntilEmpty(old(reader.script)) == Some(manager.files[upload.id])
                && |manager.files[upload.id]| == upload.size == r.value.size && r.value.fileID == upload.fileID
      ensures r == Err(Incomplete) ==>
                upload.id in manager.activeUploads && manager.activeUploads[upload.id] == upload
                && upload.bytesReceived != upload.size
      ensures old(Counted(upload)) ==>
                var script := old(reader.script);
                Settled(old(Fits(script, disk, 0, upload)), script, upload.size, fault, upload.id, r,
                        old(manager.currentUsage))
    {
      var copied := CopyChunks(reader, upload, disk);
      if copied.Some? {
        return Err(copied.value);
      }
      r := Complete(upload, fault);
    }

    // How storing a stream ends: it is stored exactly when it fits, has the announced length
    // and the disk does its part. One that fits but is too short, or whose file cannot be
    // finished, leaves its upload active with its bytes counted; nothing else is left behind.
    ghost predicate Settled(fits: bool, script: seq<Chunk>, size: int, fault: FinishFault, id: Id,
                            r: Result<FileRef, Spool.Error>, usage: int)
      requires fits ==> UntilEmpty(script).Some?
      reads manager
    {
      var whole := fits && |UntilEmpty(script).value| == size;
      && (r.Ok? <==> whole && fault == NoFault)
      && (r == Err(Incomplete) <==> fits && !whole)
      && (id in manager.activeUploads <==> fits && !(whole && fault == NoFault))
      && manager.currentUsage == usage + if id in manager.activeUploads then |UntilEmpty(script).value| else 0
    }

    // Start, copy and finish
    method Take(request: Request, reader: Reader, id: Id, fileID: string, startOk: bool, disk: nat -> nat,
                fault: FinishFault)
      returns (r: Result<FileRef, Spool.Error>)
      requires manager.Valid() && id !in manager.started && id !in manager.flight && id !in manager.removed
      requires 0 < request.expected < TWO63
      requires forall c :: c in reader.script ==> |c.data| <= BUFFER_SIZE
      modifies reader, manager`activeUploads, manager`started, manager`files, manager`currentUsage, manager`flight
      ensures manager.Valid()
      ensures r.Ok? ==>
                && id !in manager.activeUploads && id in manager.files
                && UntilEmpty(old(reader.script)) == Some(manager.files[id])
                && |manager.files[id]| == request.expected == r.value.size && r.value.fileID == fileID
                && !Contains(request.user, "..")
      ensures r == Err(Incomplete) ==>
                id in manager.activeUploads && manager.activeUploads[id].bytesReceived != request.expected
      ensures old(Sane()) ==>
                Settled(old(Storable(request, reader, startOk, disk)), old(reader.script), request.expected, fault, id,
                        r, old(manager.currentUsage))
    {
      var started := Begin(request, id, fileID, startOk);
      if started.Err? {
        return Err(started.error);
      }
      r := Receive(started.value, reader, disk, fault);
    }

    // The counter is within the capacity, and the capacity plus a full buffer fits in int64.
    ghost predicate Sane()
      reads manager
    {
      0 <= manager.currentUsage <= manager.maxTotalSize && manager.maxTotalSize + BUFFER_SIZE < TWO63
    }

    // The request passes the checks of StartUpload and the stream can be copied.
    ghost predicate Storable(request: Request, reader: Reader, startOk: bool, disk: nat -> nat)
      reads reader, manager, manager.started.Values
    {
      && StartError(Machine, manager.Model(), request, startOk).None?
      && CopyFits(reader.script, disk, 0, 0, request.expected, manager.currentUsage, manager.maxTotalSize)
    }

    // Ok only if the reader's bytes up to its first empty read number exactly size; Retrieve
    // with the returned file ID then gives back those bytes. Settled says when it is Ok, and
    // when the upload stays active with its bytes counted.
    method StoreStream(user: string, filename: string, target: string, reader: Reader, size: int,
                       fileID: string, startOk: bool, disk: nat -> nat, fault: FinishFault)
      returns (r: Result<FileRef, Spool.Error>)
      requires manager.Valid() && maxSize == manager.maxTotalSize
      requires IsAbs(spoolDir) && size < TWO63 && PlainName(fileID) && fileID != ""
      requires var id := SpoolPath(spoolDir, user, fileID);
               id !in manager.started && id !in manager.flight && id !in manager.removed
      requires forall c :: c in reader.script ==> |c.data| <= BUFFER_SIZE
      modifies reader, manager`activeUploads, manager`started, manager`files, manager`currentUsage, manager`flight
      ensures manager.Valid()
      ensures r.Ok? ==> match UntilEmpty(old(reader.script)) {
                          case None => false
                          case Some(bytes) =>
                            && |bytes| == size == r.value.size && size > 0
                            && Retrieved(manager.files, spoolDir, user, r.value.fileID) == Ok(bytes)
                            && SpoolPath(spoolDir, user, fileID) !in manager.activeUploads
                        }
      ensures r == Err(Incomplete) ==>
                var id := SpoolPath(spoolDir, user, fileID);
                id in manager.activeUploads && manager.activeUploads[id].bytesReceived != size
      ensures old(Sane()) ==>
                var request := Request(user, filename, target, size, maxSize);
                Settled(user != "" && filename != "" && target != "" && 0 < size <= maxSize
                        && old(Storable(request, reader, startOk, disk)),
                        old(reader.script), size, fault, SpoolPath(spoolDir, user, fileID), r,
                        old(manager.currentUsage))
    {
      if user == "" || filename == "" || target == "" {
        return Err(InvalidParameters);
      }
      if size <= 0 {
        return Err(EmptyData);
      }
      if size > maxSize {
        return Err(FileTooLarge);
      }
      var id := SpoolPath(spoolDir, user, fileID);
      r := Take(Request(user, filename, target, size, maxSize), reader, id, fileID, startOk, disk, fault);
      if r.Ok? {
        StoredIsRetrieved(manager.files, spoolDir, user, fileID);
      }
    }
  }

  // Two tables over the same keys that both agree with a third are equal.
  lemma SameActive(a: map<Id, ActiveUpload>, b: map<Id, ActiveUpload>, all: map<Id, ActiveUpload>)
    requires a.Keys == b.Keys
    requires forall id :: id in a ==> id in all && a[id] == all[id]
    requires forall id :: id in b ==> id in all && b[id] == all[id]
    ensures a == b
  {
  }

  function After(prefix: Bytes, rest: Option<Bytes>): Option<Bytes> {
    match rest
    case None => None
    case Some(b) => Some(prefix + b)
  }

  lemma AfterEmpty(rest: Option<Bytes>)
    ensures After([], rest) == rest
  {
    if rest.Some? { assert [] + rest.value == rest.value; }
  }

  lemma AfterChunk(prefix: Bytes, script: seq<Chunk>)
    requires script != [] && script[0].err != Failed && script[0].data != []
    ensures After(prefix, UntilEmpty(script)) == After(prefix + script[0].data, UntilEmpty(script[1..]))
  {
    var rest := UntilEmpty(script[1..]);
    if rest.Some? { assert prefix + (script[0].data + rest.value) == prefix + script[0].data + rest.value; }
  }
}
