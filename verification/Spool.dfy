/** The spool upload manager (pkg/spool/spool.go) as a state machine over its atomic steps.
    A chunk is written in three steps: its bytes are reserved under the lock, the file is
    written outside it, then the bytes are credited to the upload or rolled back. Steps of
    different uploads interleave freely; an event whose caller is not in a position to issue
    it changes nothing, so every sequence of events is a run. */
module Spool {
  import opened Text
  import opened Results
  import opened MapSum

  type Id = string

  datatype Error =
    | InvalidParameters
    | FileTooLarge
    | PathTraversal
    | CapacityExceeded
    | Cancelled
    | Incomplete
    | IoError
    | FileNotFound
    | EmptyData

  // ------------------------------------------------------------ arithmetic

  // The arithmetic of the size checks: Go's 64-bit integers, or unbounded integers
  datatype Arith = Machine | Ideal {
    function Unsigned(x: int): int {
      if Machine? then x % TWO64 else x
    }

    function Signed(x: int): int {
      if Machine? then (if x % TWO64 < TWO63 then x % TWO64 else x % TWO64 - TWO64) else x
    }
  }

  // ------------------------------------------------------------ state

  // size 0 means that the expected size is unknown.
  datatype Upload = Upload(size: int, received: int, limit: int, file: Bytes, open: bool, cancelled: bool)

  datatype State = State(
    capacity: int,
    usage: int,
    uploads: map<Id, Upload>,   // every upload object ever handed out
    active: set<Id>,            // the keys of activeUploads
    flight: map<Id, Bytes>,     // chunks between reservation and credit or roll back
    removed: set<Id>,           // uploads taken out by RemoveUpload
    files: map<Id, Bytes>)      // finished spool files

  function Init(capacity: int): State {
    State(capacity, 0, map[], {}, map[], {}, map[])
  }

  datatype FinishFault = NoFault | SyncFails | CloseFails | MoveFails | ChmodFails

  datatype Request = Request(user: string, filename: string, target: string, expected: int, limit: int)

  datatype Event =
    | Start(id: Id, request: Request, diskOk: bool)
    | Reserve(id: Id, data: Bytes)
    | Written(id: Id)
    | WriteFailed(id: Id, partial: nat)
    | Finish(id: Id, fault: FinishFault)
    | Abort(id: Id)
    | Remove(id: Id)
    | Cancel(id: Id)
    | Delete(id: Id)

  // ------------------------------------------------------------ the checks of the code

  function KnownSize(expected: int): int {
    if expected < 0 then 0 else expected
  }

  function StartError(a: Arith, s: State, r: Request, diskOk: bool): Option<Error> {
    var size := KnownSize(r.expected);
    if r.user == "" || r.filename == "" || r.limit == 0 || r.limit >= TWO63 then Some(InvalidParameters)
    else if a.Unsigned(size) > r.limit then Some(FileTooLarge)
    else if Contains(r.user, "..") || Contains(r.target, "..") then Some(PathTraversal)
    else if a.Unsigned(size) > s.capacity then Some(FileTooLarge)
    else if a.Unsigned(s.usage + size) > s.capacity then Some(CapacityExceeded)
    else if !diskOk then Some(IoError)
    else None
  }

  function SizeError(a: Arith, u: Upload, n: int): Option<Error> {
    if u.cancelled then Some(Cancelled)
    else if u.size > 0 && n > a.Signed(u.size - u.received) then Some(FileTooLarge)
    else if a.Signed(u.received + n) > a.Signed(u.limit) then Some(FileTooLarge)
    else None
  }

  function ReserveError(a: Arith, s: State, u: Upload, n: int): Option<Error> {
    if SizeError(a, u, n).Some? then SizeError(a, u, n)
    else if a.Unsigned(s.usage + n) > s.capacity then Some(CapacityExceeded)
    else None
  }

  function FinishError(u: Upload, fault: FinishFault): Option<Error> {
    if u.cancelled then Some(Cancelled)
    else if u.size > 0 && u.received != u.size then Some(Incomplete)
    else if !u.open || fault != NoFault then Some(IoError)
    else None
  }

  // Live, complete, its file open, and every disk operation succeeds
  predicate Finishable(u: Upload, fault: FinishFault) {
    !u.cancelled && (u.size <= 0 || u.received == u.size) && u.open && fault == NoFault
  }

  // ------------------------------------------------------------ steps

  // releaseUploadBytes: idempotent, with a saturating subtraction
  function Release(a: Arith, s: State, id: Id): State {
    if id !in s.active || id !in s.uploads then s
    else
      var used := a.Unsigned(s.uploads[id].received);
      s.(active := s.active - {id}, usage := if s.usage >= used then a.Unsigned(s.usage - used) else 0)
  }

  function StartStep(a: Arith, s: State, id: Id, r: Request, diskOk: bool): State {
    if id in s.uploads || StartError(a, s, r, diskOk).Some? then s
    else s.(uploads := s.uploads[id := Upload(KnownSize(r.expected), 0, r.limit, [], true, false)],
            active := s.active + {id})
  }

  function ReserveStep(a: Arith, s: State, id: Id, data: Bytes): State {
    if id !in s.uploads || id in s.flight || id in s.removed then s
    else if ReserveError(a, s, s.uploads[id], |data|).Some? then s
    else s.(usage := a.Unsigned(s.usage + |data|), flight := s.flight[id := data])
  }

  function WrittenStep(a: Arith, s: State, id: Id): State {
    if id !in s.flight || id !in s.uploads || !s.uploads[id].open then s
    else
      var u, data := s.uploads[id], s.flight[id];
      s.(uploads := s.uploads[id := u.(file := u.file + data, received := a.Signed(u.received + |data|))],
         flight := s.flight - {id})
  }

  // A failing write may leave a part of the chunk in the temporary file.
  function WriteFailedStep(a: Arith, s: State, id: Id, partial: nat): State {
    if id !in s.flight || id !in s.uploads || partial > |s.flight[id]| then s
    else
      var u, data := s.uploads[id], s.flight[id];
      var kept := if u.open then data[..partial] else [];
      s.(uploads := s.uploads[id := u.(file := u.file + kept)],
         usage := a.Unsigned(s.usage - |data|), flight := s.flight - {id})
  }

  // Sync, close, move and chmod in that order; only after all four are the bytes released.
  function FinishStep(a: Arith, s: State, id: Id, fault: FinishFault): State {
    if id !in s.uploads || id in s.flight then s
    else
      var u := s.uploads[id];
      if u.cancelled || (u.size > 0 && u.received != u.size) || !u.open || fault == SyncFails then s
      else
        var closed := s.(uploads := s.uploads[id := u.(open := false)]);
        if fault == CloseFails || fault == MoveFails then closed
        else
          var moved := closed.(files := s.files[id := u.file]);
          if fault == ChmodFails then moved else Release(a, moved, id)
  }

  function AbortStep(a: Arith, s: State, id: Id): State {
    if id !in s.uploads || id in s.flight then s
    else Release(a, s.(uploads := s.uploads[id := s.uploads[id].(cancelled := true, open := false)]), id)
  }

  function RemoveStep(a: Arith, s: State, id: Id): State {
    if id !in s.active || id in s.flight then s
    else Release(a, s, id).(removed := s.removed + {id})
  }

  function CancelStep(s: State, id: Id): State {
    if id !in s.uploads then s else s.(uploads := s.uploads[id := s.uploads[id].(cancelled := true)])
  }

  function Apply(a: Arith, s: State, e: Event): State {
    match e
    case Start(id, r, diskOk) => StartStep(a, s, id, r, diskOk)
    case Reserve(id, data) => ReserveStep(a, s, id, data)
    case Written(id) => WrittenStep(a, s, id)
    case WriteFailed(id, partial) => WriteFailedStep(a, s, id, partial)
    case Finish(id, fault) => FinishStep(a, s, id, fault)
    case Abort(id) => AbortStep(a, s, id)
    case Remove(id) => RemoveStep(a, s, id)
    case Cancel(id) => CancelStep(s, id)
    case Delete(id) => s.(files := s.files - {id})
  }

  function Run(a: Arith, s: State, es: seq<Event>): State {
    if es == [] then s else Apply(a, Run(a, s, es[..|es| - 1]), es[|es| - 1])
  }

  // ------------------------------------------------------------ invariant

  // The bytes of an upload the counter accounts for: credited while active, or in flight
  function Weight(s: State, id: Id): int
    requires id in s.uploads
  {
    (if id in s.active then s.uploads[id].received else 0) + (if id in s.flight then |s.flight[id]| else 0)
  }

  function Weights(s: State): map<Id, int> {
    map id | id in s.uploads :: Weight(s, id)
  }

  // currentUsage is the sum of the bytes received by active uploads and of the reservations
  // in flight, and stays within the capacity.
  ghost predicate Conserved(s: State) {
    s.usage == Sum(Weights(s)) && 0 <= s.usage <= s.capacity
  }

  predicate UploadOk(s: State, id: Id)
    requires id in s.uploads
  {
    var u := s.uploads[id];
    && 0 <= u.received <= |u.file| && u.received <= s.capacity
    && 0 <= u.size && 0 < u.limit < TWO63 && u.received <= u.limit
    && (u.size > 0 ==> u.received <= u.size <= s.capacity)
    && (id !in s.active && id !in s.removed ==> !u.open)
    && (id in s.flight ==> id !in s.removed && u.received + |s.flight[id]| <= u.limit)
    && (id in s.flight && u.size > 0 ==> u.received + |s.flight[id]| <= u.size)
  }

  ghost predicate Inv(s: State) {
    && s.active <= s.uploads.Keys && s.flight.Keys <= s.uploads.Keys && s.removed <= s.uploads.Keys
    && s.removed !! s.active
    && (forall id :: id in s.uploads ==> UploadOk(s, id))
    && Conserved(s)
  }

  // Replacing one upload moves the sum by the change of that upload's weight.
  lemma WeightsMove(s: State, t: State, id: Id)
    requires id in t.uploads && t.uploads.Keys == s.uploads.Keys + {id}
    requires forall j :: j in s.uploads && j != id ==> Weight(t, j) == Weight(s, j)
    ensures Sum(Weights(t)) == Sum(Weights(s)) - (if id in s.uploads then Weight(s, id) else 0) + Weight(t, id)
  {
    SumUpdate(Weights(s), id, Weight(t, id));
    assert Weights(t) == Weights(s)[id := Weight(t, id)];
  }

  lemma WeightBound(s: State, id: Id)
    requires Inv(s) && id in s.uploads
    ensures 0 <= Weight(s, id) <= s.usage
  {
    forall j | j in s.uploads ensures Weight(s, j) >= 0 { assert UploadOk(s, j); }
    SumBounds(Weights(s));
    assert Weights(s)[id] == Weight(s, id);
  }

  // Releasing takes exactly the received bytes off the counter: the saturating branch of
  // releaseUploadBytes is never taken.
  lemma ReleaseExact(s: State, id: Id)
    requires Inv(s) && id in s.active && id !in s.flight
    ensures s.usage >= s.uploads[id].received
    ensures Release(Ideal, s, id).usage == s.usage - s.uploads[id].received
    ensures Conserved(Release(Ideal, s, id))
  {
    WeightBound(s, id);
    WeightsMove(s, Release(Ideal, s, id), id);
    assert UploadOk(s, id);
  }

  lemma StartKeeps(s: State, id: Id, r: Request, diskOk: bool)
    requires Inv(s)
    ensures Inv(StartStep(Ideal, s, id, r, diskOk))
  {
    var t := StartStep(Ideal, s, id, r, diskOk);
    if t != s {
      WeightsMove(s, t, id);
      forall j | j in t.uploads ensures UploadOk(t, j) { if j != id { assert UploadOk(s, j); } }
    }
  }

  lemma ReserveKeeps(s: State, id: Id, data: Bytes)
    requires Inv(s)
    ensures Inv(ReserveStep(Ideal, s, id, data))
  {
    var t := ReserveStep(Ideal, s, id, data);
    if t != s {
      WeightsMove(s, t, id);
      forall j | j in t.uploads ensures UploadOk(t, j) { assert UploadOk(s, j); }
    }
  }

  lemma WrittenKeeps(s: State, id: Id)
    requires Inv(s)
    ensures Inv(WrittenStep(Ideal, s, id))
  {
    var t := WrittenStep(Ideal, s, id);
    if t != s {
      WeightBound(s, id);
      WeightsMove(s, t, id);
      forall j | j in t.uploads ensures UploadOk(t, j) { assert UploadOk(s, j); }
    }
  }

  // What a failed write leaves in the temporary file is not counted.
  lemma PartialKeeps(s: State, id: Id, kept: Bytes, j: Id)
    requires Inv(s) && id in s.uploads && j in s.uploads
    ensures var u := s.uploads[id];
            UploadOk(s.(uploads := s.uploads[id := u.(file := u.file + kept)], flight := s.flight - {id}), j)
  {
    assert UploadOk(s, j);
  }

  lemma WriteFailedKeeps(s: State, id: Id, partial: nat)
    requires Inv(s)
    ensures Inv(WriteFailedStep(Ideal, s, id, partial))
  {
    var t := WriteFailedStep(Ideal, s, id, partial);
    if t != s {
      WeightBound(s, id);
      WeightsMove(s, t, id);
      var u := s.uploads[id];
      forall j | j in t.uploads ensures UploadOk(t, j) {
        PartialKeeps(s, id, if u.open then s.flight[id][..partial] else [], j);
      }
    }
  }

  // Closing or cancelling an upload moves no bytes.
  lemma FlagsKeep(s: State, id: Id, open: bool, cancelled: bool)
    requires Inv(s) && id in s.uploads && (open ==> s.uploads[id].open)
    ensures Inv(s.(uploads := s.uploads[id := s.uploads[id].(open := open, cancelled := cancelled)]))
  {
    var u := s.uploads[id];
    var t := s.(uploads := s.uploads[id := Upload(u.size, u.received, u.limit, u.file, open, cancelled)]);
    forall j | j in t.uploads ensures UploadOk(t, j) && Weight(t, j) == Weight(s, j) { assert UploadOk(s, j); }
    assert Weights(t) == Weights(s);
  }

  lemma ReleaseKeeps(s: State, id: Id)
    requires Inv(s) && id in s.uploads && id !in s.flight && !s.uploads[id].open
    ensures Inv(Release(Ideal, s, id))
  {
    if id in s.active {
      ReleaseExact(s, id);
      var t := Release(Ideal, s, id);
      forall j | j in t.uploads ensures UploadOk(t, j) { assert UploadOk(s, j); }
    }
  }

  lemma FilesKeep(s: State, files: map<Id, Bytes>)
    requires Inv(s)
    ensures Inv(s.(files := files))
  {
    var t := s.(files := files);
    forall j | j in t.uploads ensures UploadOk(t, j) { assert UploadOk(s, j); }
    assert Weights(t) == Weights(s);
  }

  lemma FinishKeeps(s: State, id: Id, fault: FinishFault)
    requires Inv(s)
    ensures Inv(FinishStep(Ideal, s, id, fault))
  {
    var t := FinishStep(Ideal, s, id, fault);
    if t != s {
      var u := s.uploads[id];
      var closed := s.(uploads := s.uploads[id := u.(open := false)]);
      FlagsKeep(s, id, false, u.cancelled);
      FilesKeep(closed, s.files[id := u.file]);
      if fault == NoFault { ReleaseKeeps(closed.(files := s.files[id := u.file]), id); }
    }
  }

  lemma AbortKeeps(s: State, id: Id)
    requires Inv(s)
    ensures Inv(AbortStep(Ideal, s, id))
  {
    if id in s.uploads && id !in s.flight {
      FlagsKeep(s, id, false, true);
      ReleaseKeeps(s.(uploads := s.uploads[id := s.uploads[id].(open := false, cancelled := true)]), id);
    }
  }

  lemma RemoveKeeps(s: State, id: Id)
    requires Inv(s)
    ensures Inv(RemoveStep(Ideal, s, id))
  {
    if id in s.active && id !in s.flight {
      ReleaseExact(s, id);
      var t := RemoveStep(Ideal, s, id);
      assert Weights(t) == Weights(Release(Ideal, s, id));
      forall j | j in t.uploads ensures UploadOk(t, j) { assert UploadOk(s, j); }
    }
  }

  // Every step of every thread keeps the invariant.
  lemma ApplyKeeps(s: State, e: Event)
    requires Inv(s)
    ensures Inv(Apply(Ideal, s, e))
  {
    match e
    case Start(id, r, diskOk) => StartKeeps(s, id, r, diskOk);
    case Reserve(id, data) => ReserveKeeps(s, id, data);
    case Written(id) => WrittenKeeps(s, id);
    case WriteFailed(id, partial) => WriteFailedKeeps(s, id, partial);
    case Finish(id, fault) => FinishKeeps(s, id, fault);
    case Abort(id) => AbortKeeps(s, id);
    case Remove(id) => RemoveKeeps(s, id);
    case Cancel(id) =>
      if id in s.uploads { FlagsKeep(s, id, s.uploads[id].open, true); }
    case Delete(id) => FilesKeep(s, s.files - {id});
  }

  // ------------------------------------------------------------ machine integers

  // No chunk and no announced size is longer than chunk.
  predicate Fits(e: Event, chunk: int) {
    && (e.Reserve? ==> |e.data| <= chunk)
    && (e.Start? ==> e.request.expected < TWO63 && 0 <= e.request.limit < TWO64)
  }

  lemma NoWrap(x: int)
    requires 0 <= x < TWO63
    ensures Machine.Unsigned(x) == x == Machine.Signed(x)
  {
  }

  lemma StartIsIdeal(s: State, id: Id, r: Request, diskOk: bool)
    requires Inv(s) && r.expected < TWO63 && s.capacity < TWO63
    ensures StartStep(Machine, s, id, r, diskOk) == StartStep(Ideal, s, id, r, diskOk)
  {
    var size := KnownSize(r.expected);
    NoWrap(size);
    assert 0 <= s.usage + size < TWO64;
    assert Machine.Unsigned(s.usage + size) == s.usage + size;
  }

  lemma SizeErrorIsIdeal(u: Upload, n: nat)
    requires 0 <= u.received && u.received + n < TWO63 && 0 < u.limit < TWO63
    requires u.size > 0 ==> u.received <= u.size < TWO63
    ensures SizeError(Machine, u, n) == SizeError(Ideal, u, n)
  {
    if u.size > 0 { NoWrap(u.size - u.received); }
    NoWrap(u.received + n);
    NoWrap(u.limit);
  }

  lemma {:induction false} ReserveIsIdeal(s: State, id: Id, data: Bytes)
    requires Inv(s) && s.capacity + |data| < TWO63
    ensures ReserveStep(Machine, s, id, data) == ReserveStep(Ideal, s, id, data)
  {
    if id in s.uploads {
      assert UploadOk(s, id);
      SizeErrorIsIdeal(s.uploads[id], |data|);
      NoWrap(s.usage + |data|);
    }
  }

  // WriteChunk from its checks to its return, when nothing else happens in between; taken is
  // the number of bytes the disk takes.
  function Wrote(a: Arith, s: State, id: Id, data: Bytes, taken: nat): State
    requires id in s.uploads
  {
    if ReserveError(a, s, s.uploads[id], |data|).Some? then s
    else
      var t := ReserveStep(a, s, id, data);
      if s.uploads[id].open && taken == |data| then WrittenStep(a, t, id) else WriteFailedStep(a, t, id, taken)
  }

  predicate WriteOk(a: Arith, s: State, id: Id, data: Bytes, taken: nat)
    requires id in s.uploads
  {
    s.uploads[id].open && taken == |data| && ReserveError(a, s, s.uploads[id], |data|).None?
  }

  // What WriteChunk leaves of its upload, the counter and the reservations
  lemma WroteOpen(s: State, id: Id, data: Bytes, taken: nat)
    requires id in s.uploads && id !in s.flight && id !in s.removed && taken <= |data|
    requires s.uploads[id].open && 0 <= s.uploads[id].received
    requires WriteOk(Machine, s, id, data, taken) ==> s.uploads[id].received + |data| < TWO63
    ensures var u, t := s.uploads[id], Wrote(Machine, s, id, data, taken);
            var ok := WriteOk(Machine, s, id, data, taken);
            && t.flight == s.flight && t.active == s.active && t.uploads.Keys == s.uploads.Keys
            && (if ok then t.uploads[id] == u.(file := u.file + data, received := u.received + |data|)
                else t.uploads[id].(file := u.file) == u)
            && (0 <= s.usage <= s.capacity && s.capacity + |data| < TWO63 ==>
                  t.usage == s.usage + (if ok then |data| else 0) <= s.capacity)
  {
    if WriteOk(Machine, s, id, data, taken) { NoWrap(s.uploads[id].received + |data|); }
    assert ReserveStep(Machine, s, id, data).flight - {id} == s.flight;
  }

  lemma WroteFile(s: State, id: Id, data: Bytes, taken: nat)
    requires id in s.uploads && id !in s.flight && id !in s.removed && taken <= |data| && s.uploads[id].open
    ensures var t := Wrote(Machine, s, id, data, taken);
            && t.flight == s.flight && id in t.uploads && t.uploads[id].open
            && (WriteOk(Machine, s, id, data, taken) ==> t.uploads[id].file == s.uploads[id].file + data)
  {
    assert ReserveStep(Machine, s, id, data).flight - {id} == s.flight;
  }

  lemma SignedIsExact(x: int)
    requires -TWO63 <= x < TWO63
    ensures Machine.Signed(x) == x
  {
  }

  // The answer to a chunk, for uploads of known and of unknown size: it is taken exactly if the
  // upload is live and the chunk fits its announced size, its limit and the spool.
  lemma ChunkAnswered(s: State, u: Upload, n: nat)
    requires 0 <= s.usage <= s.capacity && s.capacity + n < TWO63
    requires 0 <= u.received && u.received + n < TWO63 && 0 <= u.size < TWO63 && 0 < u.limit < TWO63
    ensures ReserveError(Machine, s, u, n)
            == if u.cancelled then Some(Cancelled)
               else if (u.size > 0 && u.received + n > u.size) || u.received + n > u.limit then Some(FileTooLarge)
               else if s.usage + n > s.capacity then Some(CapacityExceeded)
               else None
  {
    SignedIsExact(u.size - u.received);
    SignedIsExact(u.received + n);
    SignedIsExact(u.limit);
    NoWrap(s.usage + n);
  }

  // WriteChunk succeeds exactly if the chunk is taken and the disk writes all of it.
  lemma WriteTaken(s: State, id: Id, data: Bytes, taken: nat)
    requires Inv(s) && id in s.active && id !in s.flight && s.uploads[id].open && taken <= |data|
    requires s.capacity + |data| < TWO63
    ensures var u := s.uploads[id];
            && (WriteOk(Machine, s, id, data, taken) <==>
                  && taken == |data| && !u.cancelled && (u.size <= 0 || u.received + |data| <= u.size)
                  && u.received + |data| <= u.limit && s.usage + |data| <= s.capacity)
            && Wrote(Machine, s, id, data, taken).usage
               == s.usage + (if WriteOk(Machine, s, id, data, taken) then |data| else 0)
            && id in Wrote(Machine, s, id, data, taken).uploads
            && Wrote(Machine, s, id, data, taken).uploads[id].(file := u.file)
               == u.(received := u.received + (if WriteOk(Machine, s, id, data, taken) then |data| else 0))
  {
    hide Wrote, SizeError;
    assert UploadOk(s, id) && id !in s.removed;
    ChunkAnswered(s, s.uploads[id], |data|);
    WroteOpen(s, id, data, taken);
  }

  // And otherwise the answer tells why not.
  lemma ActiveAnswered(s: State, id: Id, n: nat)
    requires Inv(s) && id in s.active && id !in s.flight && s.capacity + n < TWO63
    ensures var u := s.uploads[id];
            ReserveError(Machine, s, u, n)
            == if u.cancelled then Some(Cancelled)
               else if (u.size > 0 && u.received + n > u.size) || u.received + n > u.limit then Some(FileTooLarge)
               else if s.usage + n > s.capacity then Some(CapacityExceeded)
               else None
  {
    hide SizeError;
    assert UploadOk(s, id) && id !in s.removed;
    ChunkAnswered(s, s.uploads[id], n);
  }

  // The answer to a start: the checks in their order, in unbounded arithmetic
  lemma StartAnswered(s: State, r: Request, diskOk: bool)
    requires 0 <= s.usage <= s.capacity < TWO63 && r.expected < TWO63 && 0 <= r.limit
    ensures var size := if r.expected < 0 then 0 else r.expected;
            StartError(Machine, s, r, diskOk)
            == if r.user == "" || r.filename == "" || r.limit == 0 || r.limit >= TWO63 then Some(InvalidParameters)
               else if size > r.limit then Some(FileTooLarge)
               else if Contains(r.user, "..") || Contains(r.target, "..") then Some(PathTraversal)
               else if size > s.capacity then Some(FileTooLarge)
               else if s.usage + size > s.capacity then Some(CapacityExceeded)
               else if !diskOk then Some(IoError)
               else None
  {
    hide Contains;
    NoWrap(KnownSize(r.expected));
    assert Machine.Unsigned(s.usage + KnownSize(r.expected)) == s.usage + KnownSize(r.expected);
  }

  // A chunk of a live upload of known size passes the checks exactly when it fits the size and
  // the spool.
  lemma ChunkAccepted(s: State, u: Upload, n: nat)
    requires !u.cancelled && 0 <= u.received <= u.size <= u.limit < TWO63 && 0 < u.size
    requires 0 <= s.usage <= s.capacity && s.capacity + n < TWO63
    ensures ReserveError(Machine, s, u, n).None? <==> u.received + n <= u.size && s.usage + n <= s.capacity
  {
    NoWrap(u.size - u.received);
    NoWrap(u.limit);
    NoWrap(s.usage + n);
    if u.received + n <= u.size { NoWrap(u.received + n); }
  }

  // FinishUpload of an open upload
  lemma FinishRecorded(s: State, id: Id, fault: FinishFault)
    requires id in s.uploads && id !in s.flight && s.uploads[id].open
    ensures var u, t := s.uploads[id], FinishStep(Machine, s, id, fault);
            && (FinishError(u, fault).None? <==> Finishable(u, fault))
            && t.active == (if Finishable(u, fault) then s.active - {id} else s.active)
            && (Finishable(u, fault) ==> t.files == s.files[id := u.file])
            && (id in s.active && 0 <= u.received <= s.usage < TWO63 ==>
                  t.usage == s.usage - (if Finishable(u, fault) then u.received else 0))
  {
    var u := s.uploads[id];
    if 0 <= u.received <= s.usage < TWO63 {
      NoWrap(u.received);
      NoWrap(s.usage - u.received);
    }
  }

  lemma AbortRecorded(s: State, id: Id)
    requires id in s.uploads && id in s.active && id !in s.flight
    requires 0 <= s.uploads[id].received <= s.usage < TWO63
    ensures var t := AbortStep(Machine, s, id);
            t.active == s.active - {id} && t.usage == s.usage - s.uploads[id].received
  {
    NoWrap(s.uploads[id].received);
    NoWrap(s.usage - s.uploads[id].received);
  }

  lemma WriteIsIdeal(s: State, id: Id, partial: nat)
    requires Inv(s) && s.capacity < TWO63
    ensures WrittenStep(Machine, s, id) == WrittenStep(Ideal, s, id)
    ensures WriteFailedStep(Machine, s, id, partial) == WriteFailedStep(Ideal, s, id, partial)
  {
    if id in s.uploads && id in s.flight {
      assert UploadOk(s, id);
      WeightBound(s, id);
      NoWrap(s.uploads[id].received + |s.flight[id]|);
      NoWrap(s.usage - |s.flight[id]|);
    }
  }

  lemma ReleaseIsIdeal(s: State, t: State, id: Id)
    requires Inv(s) && s.capacity < TWO63
    requires t.usage == s.usage && t.active == s.active && id in s.uploads && id in t.uploads
    requires t.uploads[id].received == s.uploads[id].received
    ensures Release(Machine, t, id) == Release(Ideal, t, id)
  {
    assert UploadOk(s, id);
    WeightBound(s, id);
    NoWrap(s.uploads[id].received);
    if id in s.active { NoWrap(s.usage - s.uploads[id].received); }
  }

  // When capacity plus the longest chunk fits in int64, nothing wraps: every step decides
  // and computes what unbounded arithmetic would.
  lemma {:induction false} MachineIsIdeal(s: State, e: Event, chunk: int)
    requires Inv(s) && Fits(e, chunk) && 0 <= chunk && s.capacity + chunk < TWO63
    ensures Apply(Machine, s, e) == Apply(Ideal, s, e)
  {
    match e
    case Start(id, r, diskOk) => StartIsIdeal(s, id, r, diskOk);
    case Reserve(id, data) => ReserveIsIdeal(s, id, data);
    case Written(id) => WriteIsIdeal(s, id, 0);
    case WriteFailed(id, partial) => WriteIsIdeal(s, id, partial);
    case Finish(id, fault) =>
      if id in s.uploads {
        var u := s.uploads[id];
        var t := s.(uploads := s.uploads[id := u.(open := false)], files := s.files[id := u.file]);
        ReleaseIsIdeal(s, t, id);
      }
    case Abort(id) =>
      if id in s.uploads {
        var t := s.(uploads := s.uploads[id := s.uploads[id].(cancelled := true, open := false)]);
        ReleaseIsIdeal(s, t, id);
      }
    case Remove(id) =>
      if id in s.uploads { ReleaseIsIdeal(s, s, id); }
    case Cancel(id) =>
    case Delete(id) =>
  }

  // The capacity check decides as unbounded arithmetic would.
  predicate CapacityAgrees(capacity: int, usage: int, n: int) {
    Machine.Unsigned(usage + n) <= capacity <==> usage + n <= capacity
  }

  // It does so on every counter value within the capacity exactly when capacity plus the
  // longest chunk fits in 64 bits.
  lemma CapacityCheckExact(capacity: int, chunk: int)
    requires 0 <= capacity < TWO64 && 0 <= chunk < TWO63
    ensures (forall usage, n :: 0 <= usage <= capacity && 0 <= n <= chunk ==> CapacityAgrees(capacity, usage, n))
            <==> capacity + chunk < TWO64
  {
    if capacity + chunk >= TWO64 {
      var n := TWO64 - capacity;
      assert Machine.Unsigned(capacity + n) == 0;
      assert !CapacityAgrees(capacity, capacity, n);
    }
  }

  predicate AllFit(es: seq<Event>, chunk: int) {
    forall i :: 0 <= i < |es| ==> Fits(es[i], chunk)
  }

  lemma StepSafe(s: State, e: Event, chunk: int)
    requires Inv(s) && Fits(e, chunk) && 0 <= chunk && s.capacity + chunk < TWO63
    ensures Inv(Apply(Machine, s, e)) && Apply(Machine, s, e) == Apply(Ideal, s, e)
    ensures Apply(Ideal, s, e).capacity == s.capacity
  {
    MachineIsIdeal(s, e, chunk);
    ApplyKeeps(s, e);
  }

  lemma InitOk(capacity: int)
    requires 0 <= capacity
    ensures Inv(Init(capacity))
  {
    assert Weights(Init(capacity)) == map[];
  }

  // Safety over whole runs: in every reachable state the counter is the sum of the bytes of
  // the active uploads and of the reservations in flight, never above the capacity, and the
  // machine computes exactly what unbounded integers would.
  lemma {:induction false} RunSafe(capacity: int, es: seq<Event>, chunk: int)
    requires 0 <= capacity && 0 <= chunk && capacity + chunk < TWO63 && AllFit(es, chunk)
    ensures Inv(Run(Machine, Init(capacity), es))
    ensures Run(Machine, Init(capacity), es) == Run(Ideal, Init(capacity), es)
    ensures Run(Machine, Init(capacity), es).capacity == capacity
  {
    if es == [] {
      InitOk(capacity);
    } else {
      var n := |es| - 1;
      RunSafe(capacity, es[..n], chunk);
      assert Fits(es[n], chunk);
      StepSafe(Run(Machine, Init(capacity), es[..n]), es[n], chunk);
    }
  }

  // ------------------------------------------------------------ release exactly once

  // The bytes a step takes off the counter on behalf of finishing, aborting or removing id
  function ReleasedBy(s: State, e: Event, id: Id): int {
    if (e.Finish? || e.Abort? || e.Remove?) && e.id == id then s.usage - Apply(Ideal, s, e).usage else 0
  }

  function Released(s: State, es: seq<Event>, id: Id): int {
    if es == [] then 0
    else
      var before := es[..|es| - 1];
      Released(s, before, id) + ReleasedBy(Run(Ideal, s, before), es[|es| - 1], id)
  }

  // What an upload owes: its bytes once it has left the active set, nothing before
  function Owed(s: State, id: Id): int {
    if id in s.uploads && id !in s.active then s.uploads[id].received else 0
  }

  // Steps that end no upload change what no upload owes.
  lemma OwedElsewhere(s: State, e: Event, id: Id)
    requires Inv(s) && !e.Finish? && !e.Abort? && !e.Remove?
    ensures Owed(Apply(Ideal, s, e), id) == Owed(s, id)
  {
    if id in s.uploads {
      assert UploadOk(s, id);
    }
  }

  // Releasing id settles what id owes and nothing else; t is s with id's flags or the files moved.
  lemma OwedByRelease(s: State, t: State, id: Id, j: Id)
    requires Inv(s) && id in s.uploads && id !in s.flight && id in t.uploads
    requires t.usage == s.usage && t.active == s.active && t.uploads[id].received == s.uploads[id].received
    requires t.uploads == s.uploads[id := t.uploads[id]]
    ensures var r := Release(Ideal, t, id);
            Owed(r, j) == Owed(s, j) + (if j == id then s.usage - r.usage else 0)
  {
    if id in s.active { ReleaseExact(s, id); }
  }

  lemma OwedByFinish(s: State, id: Id, fault: FinishFault, j: Id)
    requires Inv(s)
    ensures var t := FinishStep(Ideal, s, id, fault);
            Owed(t, j) == Owed(s, j) + (if j == id then s.usage - t.usage else 0)
  {
    if id in s.uploads && id !in s.flight {
      var u := s.uploads[id];
      OwedByRelease(s, s.(uploads := s.uploads[id := u.(open := false)], files := s.files[id := u.file]), id, j);
    }
  }

  lemma OwedByAbort(s: State, id: Id, j: Id)
    requires Inv(s)
    ensures var t := AbortStep(Ideal, s, id);
            Owed(t, j) == Owed(s, j) + (if j == id then s.usage - t.usage else 0)
  {
    if id in s.uploads && id !in s.flight {
      var u := s.uploads[id];
      OwedByRelease(s, s.(uploads := s.uploads[id := u.(cancelled := true, open := false)]), id, j);
    }
  }

  lemma OwedByRemove(s: State, id: Id, j: Id)
    requires Inv(s)
    ensures var t := RemoveStep(Ideal, s, id);
            Owed(t, j) == Owed(s, j) + (if j == id then s.usage - t.usage else 0)
  {
    if id in s.active && id !in s.flight {
      assert s.uploads[id := s.uploads[id]] == s.uploads;
      OwedByRelease(s, s, id, j);
    }
  }

  lemma ReleasedStep(s: State, e: Event, id: Id)
    requires Inv(s)
    ensures Owed(Apply(Ideal, s, e), id) == Owed(s, id) + ReleasedBy(s, e, id)
  {
    if !e.Finish? && !e.Abort? && !e.Remove? {
      OwedElsewhere(s, e, id);
    } else if e.Finish? {
      OwedByFinish(s, e.id, e.fault, id);
    } else if e.Abort? {
      OwedByAbort(s, e.id, id);
    } else {
      OwedByRemove(s, e.id, id);
    }
  }

  // Over any run, whatever mixture of FinishUpload, AbortUpload and RemoveUpload is called,
  // an upload's bytes are released exactly once: nothing while it is active, all of its
  // received bytes once it is not.
  lemma {:induction false} ReleasedExactlyOnce(capacity: int, es: seq<Event>, id: Id)
    requires 0 <= capacity
    ensures Inv(Run(Ideal, Init(capacity), es))
    ensures Released(Init(capacity), es, id) == Owed(Run(Ideal, Init(capacity), es), id)
  {
    if es == [] {
      InitOk(capacity);
    } else {
      var n := |es| - 1;
      ReleasedExactlyOnce(capacity, es[..n], id);
      var s := Run(Ideal, Init(capacity), es[..n]);
      ReleasedStep(s, es[n], id);
      ApplyKeeps(s, es[n]);
    }
  }

  // FinishUpload releases the bytes of an active upload, and reports success, exactly when the
  // upload is live, complete and open and the disk does its part; every other call leaves it
  // active with its bytes counted.
  lemma FinishReleasesIffOk(s: State, id: Id, fault: FinishFault)
    requires Inv(s) && id in s.active && id !in s.flight
    ensures var u, t := s.uploads[id], FinishStep(Ideal, s, id, fault);
            && (FinishError(u, fault).None? <==> Finishable(u, fault))
            && (id !in t.active <==> Finishable(u, fault))
            && t.usage == s.usage - (if Finishable(u, fault) then u.received else 0)
            && (Finishable(u, fault) ==> id in t.files && t.files[id] == u.file)
  {
    ReleaseExact(s, id);
  }

  // ------------------------------------------------------------ what stays counted

  // A call that ends upload id: a FinishUpload that succeeds, an AbortUpload or a RemoveUpload
  predicate EndedBy(s: State, e: Event, id: Id) {
    && e.id == id && id in s.uploads && id !in s.flight
    && match e
       case Finish(_, fault) => Finishable(s.uploads[id], fault)
       case Abort(_) => true
       case Remove(_) => id in s.active
       case _ => false
  }

  predicate Ended(s: State, es: seq<Event>, id: Id) {
    es != [] && var before := es[..|es| - 1];
                Ended(s, before, id) || EndedBy(Run(Ideal, s, before), es[|es| - 1], id)
  }

  lemma EndsActive(s: State, e: Event, id: Id)
    requires Inv(s)
    ensures id in Apply(Ideal, s, e).active <==>
            (id in s.active && !EndedBy(s, e, id))
            || (id !in s.uploads && id in Apply(Ideal, s, e).uploads)
    ensures id in s.uploads ==> id in Apply(Ideal, s, e).uploads
  {
    hide StartError, ReserveError, Contains, Conserved;
    match e
    case Finish(_, _) => hide StartStep, ReserveStep, WrittenStep, WriteFailedStep, AbortStep, RemoveStep;
    case Abort(_) => hide StartStep, ReserveStep, WrittenStep, WriteFailedStep, FinishStep, RemoveStep;
    case Remove(_) => hide StartStep, ReserveStep, WrittenStep, WriteFailedStep, FinishStep, AbortStep;
    case _ => hide FinishStep, AbortStep, RemoveStep;
  }

  // A started upload is active until the first call that ends it, and never again.
  lemma {:induction false} ActiveUntilEnded(capacity: int, es: seq<Event>, id: Id)
    requires 0 <= capacity
    ensures Inv(Run(Ideal, Init(capacity), es))
    ensures var s := Run(Ideal, Init(capacity), es);
            && (id in s.active <==> id in s.uploads && !Ended(Init(capacity), es, id))
            && (Ended(Init(capacity), es, id) ==> id in s.uploads)
  {
    if es == [] {
      InitOk(capacity);
    } else {
      var n := |es| - 1;
      ActiveUntilEnded(capacity, es[..n], id);
      var s := Run(Ideal, Init(capacity), es[..n]);
      EndsActive(s, es[n], id);
      ApplyKeeps(s, es[n]);
    }
  }

  // With no reservation in flight the counter holds the bytes of the active uploads only.
  lemma QuiescentUsage(s: State)
    requires Inv(s) && s.flight == map[]
    ensures s.usage == 0 <==> forall id :: id in s.active ==> s.uploads[id].received == 0
  {
    var w := Weights(s);
    forall id | id in w ensures w[id] >= 0 { assert UploadOk(s, id); }
    SumBounds(w);
    if forall id :: id in s.active ==> s.uploads[id].received == 0 {
      SumZero(w);
    } else {
      var id :| id in s.active && s.uploads[id].received != 0;
      assert w[id] == s.uploads[id].received && UploadOk(s, id);
    }
  }

  // CurrentUsage reports no active upload exactly when every upload ever started has had a
  // successful FinishUpload, an AbortUpload or a RemoveUpload, and then, with no chunk between
  // reservation and credit, it reports no bytes. What never ended keeps its bytes counted.
  lemma EmptyIffAllEnded(capacity: int, es: seq<Event>, chunk: int)
    requires 0 <= capacity && 0 <= chunk && capacity + chunk < TWO63 && AllFit(es, chunk)
    ensures var s := Run(Machine, Init(capacity), es);
            && (|s.active| == 0 <==> forall id :: id in s.uploads ==> Ended(Init(capacity), es, id))
            && (s.flight == map[] ==>
                  (s.usage == 0 <==> forall id :: id in s.uploads && !Ended(Init(capacity), es, id) ==>
                                       s.uploads[id].received == 0))
  {
    RunSafe(capacity, es, chunk);
    var s := Run(Machine, Init(capacity), es);
    forall id ensures id in s.active <==> id in s.uploads && !Ended(Init(capacity), es, id) {
      ActiveUntilEnded(capacity, es, id);
    }
    assert |s.active| == 0 <==> s.active == {};
    if s.flight == map[] { QuiescentUsage(s); }
  }
}
