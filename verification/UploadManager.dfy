/** uploadManager of pkg/spool/spool.go, with its fields updated in place. Every method is
    proved to take the abstract state through the steps of module Spool. The outcome of a disk
    operation is a parameter, and so are the generated identifiers. */
module UploadManager {
  import opened Text
  import opened Results
  import opened Spool

  // An upload is named by its final spool path, which stands for the generated IDs.
  class ActiveUpload {
    const id: Id
    const fileID: string
    const request: Request
    const size: int
    const limit: int
    var bytesReceived: int
    var tempFile: Bytes
    var open: bool
    var cancelled: bool

    constructor (id: Id, fileID: string, request: Request)
      ensures this.id == id && this.fileID == fileID && this.request == request
      ensures Value() == Spool.Upload(KnownSize(request.expected), 0, request.limit, [], true, false)
    {
      this.id, this.fileID, this.request := id, fileID, request;
      size, limit := KnownSize(request.expected), request.limit;
      bytesReceived, tempFile, open, cancelled := 0, [], true, false;
    }

    function Value(): Spool.Upload
      reads this
    {
      Spool.Upload(size, bytesReceived, limit, tempFile, open, cancelled)
    }
  }

  datatype FileRef = FileRef(user: string, fileID: string, filename: string, size: int, path: string, target: string)

  class Manager {
    const maxTotalSize: int
    var currentUsage: int
    var activeUploads: map<Id, ActiveUpload>
    var files: map<Id, Bytes>
    // Every upload handed out so far, and the bookkeeping of module Spool
    ghost var started: map<Id, ActiveUpload>
    ghost var flight: map<Id, Bytes>
    ghost var removed: set<Id>

    ghost predicate Valid()
      reads this, started.Values
    {
      && (forall id :: id in started ==> started[id].id == id)
      && (forall id :: id in activeUploads ==> id in started && started[id] == activeUploads[id])
    }

    ghost function Model(): State
      reads this, started.Values
    {
      Spool.State(maxTotalSize, currentUsage, map id | id in started :: started[id].Value(),
              activeUploads.Keys, flight, removed, files)
    }

    ghost predicate Knows(u: ActiveUpload)
      reads this
    {
      u.id in started && started[u.id] == u
    }

    constructor (maxTotalSize: int)
      ensures Valid() && Model() == Init(maxTotalSize)
    {
      this.maxTotalSize := maxTotalSize;
      currentUsage, activeUploads, files := 0, map[], map[];
      started, flight, removed := map[], map[], {};
    }

    // The checks of StartUpload up to the creation of the temporary file
    method CheckStart(request: Request, diskOk: bool) returns (err: Option<Spool.Error>)
      ensures err == StartError(Machine, Model(), request, diskOk)
    {
      if request.user == "" || request.filename == "" {
        return Some(InvalidParameters);
      }
      var expected := if request.expected < 0 then 0 else request.expected;
      if request.limit == 0 || request.limit >= TWO63 {
        return Some(InvalidParameters);
      }
      if Machine.Unsigned(expected) > request.limit {
        return Some(FileTooLarge);
      }
      if Contains(request.user, "..") || Contains(request.target, "..") {
        return Some(PathTraversal);
      }
      if Machine.Unsigned(expected) > maxTotalSize {
        return Some(FileTooLarge);
      }
      if Machine.Unsigned(currentUsage + expected) > maxTotalSize {
        return Some(CapacityExceeded);
      }
      err := if diskOk then None else Some(IoError);
    }

    // A new upload is entered into activeUploads.
    method Enter(upload: ActiveUpload)
      requires Valid() && upload.id !in started
      modifies this`activeUploads, this`started
      ensures Valid() && started == old(started)[upload.id := upload]
      ensures var s := old(Model());
              Model() == s.(uploads := s.uploads[upload.id := upload.Value()], active := s.active + {upload.id})
    {
      started := started[upload.id := upload];
      activeUploads := activeUploads[upload.id := upload];
      assert Model().uploads == old(Model()).uploads[upload.id := upload.Value()];
      assert Model().active == old(Model()).active + {upload.id};
    }

    method StartUpload(request: Request, id: Id, fileID: string, diskOk: bool)
      returns (r: Result<ActiveUpload, Spool.Error>)
      requires Valid() && id !in started
      modifies this`activeUploads, this`started
      ensures Valid()
      ensures Model() == StartStep(Machine, old(Model()), id, request, diskOk)
      ensures r.Ok? <==> StartError(Machine, old(Model()), request, diskOk).None?
      ensures r.Err? ==> Some(r.error) == StartError(Machine, old(Model()), request, diskOk)
                         && started == old(started)
      ensures r.Ok? ==> fresh(r.value) && started == old(started)[id := r.value]
                        && r.value.id == id && r.value.fileID == fileID && r.value.request == request
    {
      var err := CheckStart(request, diskOk);
      if err.Some? {
        return Err(err.value);
      }
      var upload := new ActiveUpload(id, fileID, request);
      assert Model() == old(Model());
      Enter(upload);
      r := Ok(upload);
    }

    // The checks of WriteChunk and the reservation made under the lock
    method ReserveBytes(upload: ActiveUpload, data: Bytes) returns (err: Option<Spool.Error>)
      requires Valid() && Knows(upload) && upload.id !in flight && upload.id !in removed
      modifies this`currentUsage, this`flight
      ensures Valid()
      ensures Model() == ReserveStep(Machine, old(Model()), upload.id, data)
      ensures err == ReserveError(Machine, old(Model()), old(upload.Value()), |data|)
    {
      if upload.cancelled {
        return Some(Cancelled);
      }
      if upload.size > 0 && |data| > Machine.Signed(upload.size - upload.bytesReceived) {
        return Some(FileTooLarge);
      }
      if Machine.Signed(upload.bytesReceived + |data|) > Machine.Signed(upload.limit) {
        return Some(FileTooLarge);
      }
      if Machine.Unsigned(currentUsage + |data|) > maxTotalSize {
        return Some(CapacityExceeded);
      }
      currentUsage := Machine.Unsigned(currentUsage + |data|);
      flight := flight[upload.id := data];
      err := None;
    }

    // The write of a whole chunk, credited to the upload
    method Credit(upload: ActiveUpload, data: Bytes)
      requires Valid() && Knows(upload) && upload.open
      requires upload.id in flight && flight[upload.id] == data
      modifies upload, this`flight
      ensures Valid() && Model() == WrittenStep(Machine, old(Model()), upload.id)
    {
      upload.bytesReceived := Machine.Signed(upload.bytesReceived + |data|);
      upload.tempFile := upload.tempFile + data;
      flight := flight - {upload.id};
      assert Model().uploads == old(Model()).uploads[upload.id := upload.Value()];
    }

    // What a write leaves in the temporary file
    method AppendFile(upload: ActiveUpload, data: Bytes)
      requires Valid() && Knows(upload)
      modifies upload`tempFile
      ensures Valid()
      ensures var s, id := old(Model()), upload.id;
              Model() == s.(uploads := s.uploads[id := s.uploads[id].(file := s.uploads[id].file + data)])
    {
      upload.tempFile := upload.tempFile + data;
      assert Model().uploads == old(Model()).uploads[upload.id := upload.Value()];
    }

    method CloseFile(upload: ActiveUpload)
      requires Valid() && Knows(upload)
      modifies upload`open
      ensures Valid()
      ensures var s, id := old(Model()), upload.id;
              Model() == s.(uploads := s.uploads[id := s.uploads[id].(open := false)])
      ensures !upload.open
    {
      upload.open := false;
      assert Model().uploads == old(Model()).uploads[upload.id := upload.Value()];
    }

    // A write that stored only a part of the chunk, rolled back under the lock
    method RollBack(upload: ActiveUpload, data: Bytes, partial: nat)
      requires Valid() && Knows(upload) && upload.id in flight && flight[upload.id] == data && partial <= |data|
      modifies upload, this`flight, this`currentUsage
      ensures Valid() && Model() == WriteFailedStep(Machine, old(Model()), upload.id, partial)
    {
      assert old(Model()).uploads[upload.id] == upload.Value();
      AppendFile(upload, if upload.open then data[..partial] else []);
      currentUsage := Machine.Unsigned(currentUsage - |data|);
      flight := flight - {upload.id};
    }

    // taken is the number of bytes the disk takes; fewer than the chunk is a write error.
    method WriteChunk(upload: ActiveUpload, data: Bytes, taken: nat)
      returns (n: nat, err: Option<Spool.Error>)
      requires Valid() && Knows(upload) && upload.id !in flight && upload.id !in removed
      requires taken <= |data|
      modifies this`currentUsage, this`flight, upload
      ensures Valid()
      ensures Model() == Wrote(Machine, old(Model()), upload.id, data, taken)
      ensures err.None? <==> WriteOk(Machine, old(Model()), upload.id, data, taken)
      ensures var refused := ReserveError(Machine, old(Model()), old(upload.Value()), |data|);
              if refused.Some? then err == refused && n == 0
              else if err.None? then n == |data|
              else err == Some(IoError) && n == if old(upload.open) then taken else 0
    {
      err := ReserveBytes(upload, data);
      if err.Some? {
        return 0, err;
      }
      if upload.open && taken == |data| {
        Credit(upload, data);
        return |data|, None;
      }
      n, err := if upload.open then taken else 0, Some(IoError);
      RollBack(upload, data, taken);
    }

    // Sync, close, move and chmod; true when all four succeeded
    method MoveToFinalPath(upload: ActiveUpload, fault: FinishFault) returns (ok: bool)
      requires Valid() && Knows(upload)
      modifies upload`open, this`files
      ensures Valid() && ok == (old(upload.open) && fault == NoFault)
      ensures var s, id, u := old(Model()), upload.id, old(upload.Value());
              var closed := s.(uploads := s.uploads[id := u.(open := false)]);
              Model() == if !u.open || fault == SyncFails then s
                         else if fault == CloseFails || fault == MoveFails then closed
                         else closed.(files := s.files[id := u.file])
    {
      if !upload.open || fault == SyncFails {
        return false;
      }
      assert old(Model()).uploads[upload.id] == upload.Value();
      CloseFile(upload);
      if fault == CloseFails || fault == MoveFails {
        return false;
      }
      files := files[upload.id := upload.tempFile];
      ok := fault != ChmodFails;
    }

    method FinishUpload(upload: ActiveUpload, fault: FinishFault) returns (r: Result<FileRef, Spool.Error>)
      requires Valid() && Knows(upload) && upload.id !in flight
      modifies upload`open, this`files, this`activeUploads, this`currentUsage
      ensures Valid()
      ensures Model() == FinishStep(Machine, old(Model()), upload.id, fault)
      ensures activeUploads.Keys == Model().active && files == Model().files && currentUsage == Model().usage
      ensures r.Ok? <==> FinishError(old(upload.Value()), fault).None?
      ensures r.Err? ==> Some(r.error) == FinishError(old(upload.Value()), fault)
      ensures r.Ok? ==> r.value == FileRef(upload.request.user, upload.fileID, upload.request.filename,
                                           upload.bytesReceived, upload.id, upload.request.target)
    {
      if upload.cancelled {
        return Err(Cancelled);
      }
      if upload.size > 0 && upload.bytesReceived != upload.size {
        return Err(Incomplete);
      }
      var ok := MoveToFinalPath(upload, fault);
      if !ok {
        return Err(IoError);
      }
      r := Ok(FileRef(upload.request.user, upload.fileID, upload.request.filename,
                      upload.bytesReceived, upload.id, upload.request.target));
      ReleaseUploadBytes(upload);
    }

    method AbortUpload(upload: ActiveUpload)
      requires Valid() && Knows(upload) && upload.id !in flight
      modifies upload`open, upload`cancelled, this`activeUploads, this`currentUsage
      ensures Valid()
      ensures Model() == AbortStep(Machine, old(Model()), upload.id)
      ensures activeUploads.Keys == Model().active && currentUsage == Model().usage
    {
      upload.cancelled := true;
      upload.open := false;
      assert Model().uploads == old(Model()).uploads[upload.id := upload.Value()];
      ReleaseUploadBytes(upload);
    }

    // The context of an upload ends, as it does when its client disconnects.
    method CancelContext(upload: ActiveUpload)
      requires Valid() && Knows(upload)
      modifies upload`cancelled
      ensures Valid() && Model() == CancelStep(old(Model()), upload.id)
    {
      upload.cancelled := true;
      assert Model().uploads == old(Model()).uploads[upload.id := upload.Value()];
    }

    method ReleaseUploadBytes(upload: ActiveUpload)
      requires Valid() && Knows(upload)
      modifies this`activeUploads, this`currentUsage
      ensures Valid()
      ensures Model() == Release(Machine, old(Model()), upload.id)
    {
      if upload.id !in activeUploads {
        return;
      }
      activeUploads := activeUploads - {upload.id};
      var used := Machine.Unsigned(upload.bytesReceived);
      if currentUsage >= used {
        currentUsage := Machine.Unsigned(currentUsage - used);
      } else {
        currentUsage := 0;
      }
    }

    method RemoveUpload(id: Id)
      requires Valid() && id !in flight
      modifies this`activeUploads, this`currentUsage, this`removed
      ensures Valid()
      ensures Model() == RemoveStep(Machine, old(Model()), id)
    {
      if id in activeUploads {
        ReleaseUploadBytes(activeUploads[id]);
        removed := removed + {id};
      }
    }

    method CurrentUsage() returns (usedBytes: int, uploads: nat)
      requires Valid()
      ensures usedBytes == Model().usage && uploads == |Model().active|
      ensures Inv(Model()) && flight == map[] ==>
                (usedBytes == 0 <==> forall id :: id in activeUploads ==> activeUploads[id].bytesReceived == 0)
    {
      usedBytes, uploads := currentUsage, |activeUploads|;
      assert |activeUploads| == |activeUploads.Keys|;
      if Inv(Model()) && flight == map[] {
        QuiescentUsage(Model());
        forall id | id in activeUploads ensures Model().uploads[id].received == activeUploads[id].bytesReceived {
        }
      }
    }

    // DeleteByPath on a finished spool file
    method DeleteByPath(id: Id)
      requires Valid()
      modifies this`files
      ensures Valid() && Model() == Apply(Machine, old(Model()), Delete(id))
      ensures files == old(files) - {id}
    {
      files := files - {id};
    }
  }
}
