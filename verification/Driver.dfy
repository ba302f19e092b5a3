/** The upload path of pkg/ftp/driver.go: upload slots, handleUploadOpen, and the
    Write/Close protocol of uploadWriter with its latched error and rename-retry commit. */
module Driver {
  import opened Text
  import opened GoPath
  import opened Results
  import opened Spool
  import opened UploadManager
  import opened UniqueName
  import opened WebdavPath
  import opened RemoteStore
  import opened WebdavClient
  import opened Transfer
  import opened Containment
  import TargetPath

  datatype DriverError =
    | UploadCancelled
    | UploadTooLarge
    | TooManyUploads
    | SpoolFailed(error: Spool.Error)
    | TransferFailed(cause: TargetPath.TransferError)
    | ParentsFailed(outcome: Outcome)
    | OpenFailed
    | PutFailed(outcome: Outcome)

  datatype Account = Account(username: string, policy: Policy, maxUploads: int, maxSize: int)

  // The concatenation of the chunks passed to Write
  function Flatten(chunks: seq<Bytes>): Bytes {
    if chunks == [] then [] else Flatten(chunks[..|chunks| - 1]) + chunks[|chunks| - 1]
  }

  lemma FlattenAppend(chunks: seq<Bytes>, data: Bytes)
    ensures Flatten(chunks + [data]) == Flatten(chunks) + data
  {
    assert (chunks + [data])[..|chunks|] == chunks;
  }

  // A prefix of the chunks holds no more bytes than all of them.
  lemma {:induction false} FlattenPrefix(chunks: seq<Bytes>, n: nat)
    requires n <= |chunks|
    ensures |Flatten(chunks[..n])| <= |Flatten(chunks)|
    ensures Flatten(chunks[..n]) == if n == 0 then [] else Flatten(chunks[..n - 1]) + chunks[n - 1]
  {
    if n < |chunks| {
      FlattenPrefix(chunks[..|chunks| - 1], n);
      assert chunks[..|chunks| - 1][..n] == chunks[..n];
    } else {
      assert chunks[..n] == chunks;
    }
    if n > 0 { assert chunks[..n][..n - 1] == chunks[..n - 1]; }
  }

  // ------------------------------------------------------------ slots and counters

  function Tokens(slots: map<string, nat>, user: string): nat {
    if user in slots then slots[user] else 0
  }

  predicate SlotFree(slots: map<string, nat>, a: Account) {
    a.maxUploads <= 0 || Tokens(slots, a.username) < a.maxUploads
  }

  function TakeSlot(slots: map<string, nat>, a: Account): map<string, nat> {
    if a.maxUploads <= 0 then slots else slots[a.username := Tokens(slots, a.username) + 1]
  }

  function GiveSlot(slots: map<string, nat>, a: Account): map<string, nat> {
    if a.maxUploads <= 0 || Tokens(slots, a.username) == 0 then slots
    else slots[a.username := Tokens(slots, a.username) - 1]
  }

  class BridgeDriver {
    // The number of tokens in each account's channel
    var uploadSlots: map<string, nat>
    var uploadsTotal: nat
    var uploadsSuccess: nat
    var uploadsFailed: nat
    var totalBytesUploaded: nat

    constructor ()
      ensures uploadSlots == map[] && uploadsTotal == uploadsSuccess == uploadsFailed == totalBytesUploaded == 0
    {
      uploadSlots := map[];
      uploadsTotal, uploadsSuccess, uploadsFailed, totalBytesUploaded := 0, 0, 0, 0;
    }

    method AcquireUploadSlot(account: Account) returns (ok: bool)
      modifies this`uploadSlots
      ensures ok <==> || account.maxUploads <= 0
                      || (if account.username in old(uploadSlots) then old(uploadSlots)[account.username] else 0)
                         < account.maxUploads
      ensures ok == SlotFree(old(uploadSlots), account)
      ensures uploadSlots == if ok then TakeSlot(old(uploadSlots), account) else old(uploadSlots)
    {
      if account.maxUploads <= 0 {
        return true;
      }
      var tokens := if account.username in uploadSlots then uploadSlots[account.username] else 0;
      if tokens >= account.maxUploads {
        return false;
      }
      uploadSlots := uploadSlots[account.username := tokens + 1];
      ok := true;
    }

    // The counters of Close, and its deferred release of the slot
    method RecordClose(account: Account, stored: Option<int>)
      modifies this`uploadSlots, this`uploadsSuccess, this`uploadsFailed, this`totalBytesUploaded
      ensures uploadSlots == GiveSlot(old(uploadSlots), account)
      ensures uploadsSuccess == old(uploadsSuccess) + (if stored.Some? then 1 else 0)
      ensures uploadsFailed == old(uploadsFailed) + (if stored.Some? then 0 else 1)
      ensures totalBytesUploaded
              == old(totalBytesUploaded) + (if stored.Some? && stored.value > 0 then stored.value else 0)
    {
      if stored.None? {
        uploadsFailed := uploadsFailed + 1;
      } else {
        uploadsSuccess := uploadsSuccess + 1;
        if stored.value > 0 {
          totalBytesUploaded := totalBytesUploaded + stored.value;
        }
      }
      ReleaseUploadSlot(account);
    }

    method ReleaseUploadSlot(account: Account)
      modifies this`uploadSlots
      ensures uploadSlots == GiveSlot(old(uploadSlots), account)
    {
      if account.maxUploads <= 0 || account.username !in uploadSlots {
        return;
      }
      if uploadSlots[account.username] > 0 {
        uploadSlots := uploadSlots[account.username := uploadSlots[account.username] - 1];
      }
    }
  }

  // ------------------------------------------------------------ the spool side of a writer

  // An upload that is active and between two chunks is within the counter.
  lemma ActiveIsCounted(s: State, id: Id)
    requires Inv(s) && id in s.active && id !in s.flight
    ensures 0 <= s.uploads[id].received <= s.usage <= s.capacity
  {
    WeightBound(s, id);
    assert UploadOk(s, id);
  }

  // The spool after Write: a latched error keeps the chunk away from it.
  function AfterWrite(s: State, id: Id, latched: bool, data: Bytes, taken: nat): State
    requires id in s.uploads
  {
    if latched then s else Wrote(Machine, s, id, data, taken)
  }

  // As long as the capacity and a chunk fit in int64, Write keeps the invariant of the spool,
  // and what it credits is what it appended.
  lemma AfterWriteKeeps(s: State, id: Id, latched: bool, data: Bytes, taken: nat)
    requires Inv(s) && id in s.active && id !in s.flight && taken <= |data| && s.capacity + |data| < TWO63
    ensures var t := AfterWrite(s, id, latched, data, taken);
            && Inv(t) && id in t.active && id in t.uploads
            && (!latched && WriteOk(Machine, s, id, data, taken) ==>
                  t.uploads[id].received == s.uploads[id].received + |data|)
  {
    if !latched && ReserveError(Machine, s, s.uploads[id], |data|).None? {
      ActiveIsCounted(s, id);
      StepSafe(s, Reserve(id, data), |data|);
      var t := ReserveStep(Machine, s, id, data);
      StepSafe(t, Written(id), |data|);
      StepSafe(t, WriteFailed(id, taken), |data|);
    }
  }

  // The spool after the first half of Close: aborted after a write error or when bytes are
  // missing, finished otherwise
  function AfterFinish(s: State, id: Id, latched: bool, fault: FinishFault): State
    requires id in s.uploads
  {
    var u := s.uploads[id];
    if !latched && (u.size <= 0 || u.received == u.size) then FinishStep(Machine, s, id, fault)
    else AbortStep(Machine, s, id)
  }

  // What Close asks of FinishUpload, and whether that succeeds
  predicate Finishes(s: State, id: Id, latched: bool, fault: FinishFault)
    requires id in s.uploads
  {
    !latched && Finishable(s.uploads[id], fault)
  }

  // The spool after Close: what was finished is dropped once the commit is over.
  function AfterClose(s: State, id: Id, latched: bool, fault: FinishFault): State
    requires id in s.uploads
  {
    var t := AfterFinish(s, id, latched, fault);
    if Finishes(s, id, latched, fault) then t.(files := t.files - {id}) else t
  }

  lemma CloseActive(s: State, id: Id, latched: bool, fault: FinishFault)
    requires id in s.uploads && id !in s.flight && (!latched ==> s.uploads[id].open)
    ensures var u := s.uploads[id];
            id in AfterClose(s, id, latched, fault).active <==>
              && id in s.active && !latched && (u.size <= 0 || u.received == u.size)
              && (u.cancelled || fault != FinishFault.NoFault)
  {
    if !latched { FinishRecorded(s, id, fault); }
  }

  // A closed upload stays active, its bytes counted, exactly when no write failed, no byte is
  // known to be missing, and FinishUpload finds it cancelled or the disk fails.
  lemma CloseLeavesIff(s: State, id: Id, latched: bool, fault: FinishFault)
    requires Inv(s) && s.capacity < TWO63 && id in s.active && id !in s.flight && s.uploads[id].open
    ensures var u, t := s.uploads[id], AfterClose(s, id, latched, fault);
            && Inv(t)
            && (id in t.active <==> !latched && (u.size <= 0 || u.received == u.size)
                                    && (u.cancelled || fault != FinishFault.NoFault))
            && t.usage == s.usage - (if id in t.active then 0 else u.received)
  {
    ActiveIsCounted(s, id);
    CloseActive(s, id, latched, fault);
    FinishRecorded(s, id, fault);
    AbortRecorded(s, id);
    AfterCloseKeeps(s, id, latched, fault);
  }

  lemma AfterFinishKeeps(s: State, id: Id, latched: bool, fault: FinishFault)
    requires Inv(s) && s.capacity < TWO63 && id in s.uploads
    ensures Inv(AfterFinish(s, id, latched, fault))
  {
    hide Inv, FinishStep, AbortStep;
    StepSafe(s, Finish(id, fault), 0);
    StepSafe(s, Abort(id), 0);
  }

  lemma AfterCloseKeeps(s: State, id: Id, latched: bool, fault: FinishFault)
    requires Inv(s) && s.capacity < TWO63 && id in s.uploads
    ensures Inv(AfterClose(s, id, latched, fault))
  {
    hide Inv, AfterFinish;
    AfterFinishKeeps(s, id, latched, fault);
    var t := AfterFinish(s, id, latched, fault);
    FilesKeep(t, t.files - {id});
  }

  // What was finished leaves the spool with its Close, and no other file does.
  lemma CloseDropsFile(s: State, id: Id, latched: bool, fault: FinishFault)
    requires id in s.uploads && id !in s.flight
    ensures var t := AfterClose(s, id, latched, fault);
            && (Finishes(s, id, latched, fault) ==> t.files == s.files - {id})
            && t.files - {id} == s.files - {id}
  {
  }

  // All new PUTs went to one of the first names paths of a commit to path, three to each at most.
  ghost predicate SentUnder(before: seq<Key>, after: seq<Key>, path: string, names: nat) {
    && before <= after && |after| <= |before| + 3 * names
    && forall i :: |before| <= i < |after| ==> CommitsTo(path, names, after[i])
  }

  ghost predicate CommitsTo(path: string, names: nat, key: Key) {
    exists k: nat :: k < names && KeyOf(CommitPath(path, k)) == Some(key)
  }

  lemma SentUnderNext(a: seq<Key>, b: seq<Key>, c: seq<Key>, path: string, names: nat, next: string)
    requires SentUnder(a, b, path, names) && next == CommitPath(path, names) && Sent(b, c, next, 3)
    ensures SentUnder(a, c, path, names + 1)
  {
    forall i | |a| <= i < |c| ensures CommitsTo(path, names + 1, c[i]) {
      if i < |b| {
        assert c[i] == b[i] && CommitsTo(path, names, b[i]);
      } else {
        assert KeyOf(CommitPath(path, names)) == Some(c[i]);
      }
    }
  }

  lemma SentUnderMore(a: seq<Key>, b: seq<Key>, path: string, names: nat, more: nat)
    requires SentUnder(a, b, path, names) && names <= more
    ensures SentUnder(a, b, path, more)
  {
    forall i | |a| <= i < |b| ensures CommitsTo(path, more, b[i]) {
      assert CommitsTo(path, names, b[i]);
    }
  }

  ghost predicate IsCommitPath(target: string, names: nat, path: string) {
    exists k: nat :: k < names && path == CommitPath(target, k)
  }

  // The number of names a commit may use
  function Names(policy: Policy): nat {
    if policy == Rename then 3 else 1
  }

  // The object at path is exactly data; unless overwriting was allowed it was not there before.
  ghost predicate Committed(before: Store, after: Store, path: string, data: Bytes, overwrite: bool) {
    && KeyOf(path).Some?
    && KeyOf(path).value in after && after[KeyOf(path).value] == File(data)
    && (overwrite || KeyOf(path).value !in before)
  }

  // What a commit that ended with ok may have done to the store
  ghost predicate Landed(before: Store, after: Store, path: string, data: Bytes, policy: Policy, ok: bool) {
    && (Closed(before) ==> Closed(after))
    && (policy != Overwrite ==> CreateOnly(before, after))
    && (ok ==> Committed(before, after, path, data, policy == Overwrite))
  }

  lemma LandedLater(s: Store, t: Store, u: Store, path: string, data: Bytes, policy: Policy, ok: bool)
    requires (policy != Overwrite ==> CreateOnly(s, t)) && (Closed(s) ==> Closed(t))
    requires Landed(t, u, path, data, policy, ok)
    ensures Landed(s, u, path, data, policy, ok) && Landed(s, u, path, data, policy, false)
  {
  }

  // Nothing keeps a commit to path from succeeding: the server answers, nobody else uses it,
  // no plain file is among the ancestors, and nothing - or a file to be overwritten - is there.
  ghost predicate Unobstructed(s: Store, world: nat -> Turn, path: string, policy: Policy) {
    && Sendable(path) && Alone(world) && Closed(s) && NoFileOn(s, Elements(Dir(path)))
    && (KeyOf(path).value !in s || (policy == Overwrite && s[KeyOf(path).value].File?))
  }

  predicate PutWouldLand(s: Store, turn: Turn, path: string, body: Bytes, policy: Policy) {
    && KeyOf(path).Some? && turn.fault == Fault.NoFault
    && PutTurn(s, KeyOf(path).value, body, policy == Overwrite, turn).1 == Stored
  }

  // Once the ancestors are there, the PUT lands.
  lemma PutLands(s: Store, t: Store, world: nat -> Turn, path: string, body: Bytes, policy: Policy, turn: Turn)
    requires Unobstructed(s, world, path, policy) && turn.fault == Fault.NoFault && turn.others == []
    requires CreateOnly(s, t) && OnlyOn(s, t, Elements(Dir(path))) && AllCollections(t, Elements(Dir(path)))
    ensures PutWouldLand(t, turn, path, body, policy)
  {
    var way, key := Elements(Dir(path)), KeyOf(path).value;
    ParentOfCleanPath(path);
    NormalizedPathDecodes(path);
    assert way[..|way|] == way == Parent(key);
    FaultlessPut(t, key, body, policy == Overwrite, turn);
  }

  // What only adds ancestors keeps a commit unobstructed.
  lemma StaysUnobstructed(s: Store, t: Store, world: nat -> Turn, path: string, policy: Policy)
    requires Unobstructed(s, world, path, policy) && Grown(s, t, world) && OnlyOn(s, t, Elements(Dir(path)))
    ensures Unobstructed(t, world, path, policy)
  {
    var way, key := Elements(Dir(path)), KeyOf(path).value;
    assert ClearWay(s, world, way);
    ParentOfCleanPath(path);
    NormalizedPathDecodes(path);
    assert |way| < |key|;
  }

  // How a commit ends: the store, the number of requests served by then, the error, and the
  // path of the upload
  datatype CommitEnd = CommitEnd(store: Store, requests: nat, err: Option<DriverError>, path: string)

  // What commitToWebDAV does from an attempt on, beginning with request i
  function Naming(s: Store, world: nat -> Turn, i: nat, policy: Policy, body: Bytes, openOk: nat -> bool,
                  uploadPath: string, attempt: nat): CommitEnd
    requires attempt < 3
    decreases 3 - attempt
  {
    if !openOk(attempt) then CommitEnd(s, i, Some(OpenFailed), uploadPath)
    else
      var (t, j, o) := Uploading(s, uploadPath, body, policy == Overwrite, world, i);
      if o == Stored then CommitEnd(t, j, None, uploadPath)
      else if policy != Rename || attempt == 2 then CommitEnd(t, j, Some(PutFailed(o)), uploadPath)
      else Naming(t, world, j, policy, body, openOk, RenameCandidate(uploadPath, attempt), attempt + 1)
  }

  // A commit records the path of its upload only when it succeeds.
  function Recorded(target: string, end: CommitEnd): CommitEnd {
    if end.err.None? then end else end.(path := target)
  }

  ghost predicate EndsFrom(s: Store, i: nat, world: nat -> Turn, policy: Policy, body: Bytes, openOk: nat -> bool,
                           target: string, end: CommitEnd) {
    || (end == CommitEnd(s, i, end.err, target) && end.err.Some? && end.err.value.ParentsFailed?)
    || end == Recorded(target, Naming(s, world, i, policy, body, openOk, target, 0))
  }

  // From store s a commit to target may end so: first the parents are created, while others
  // create as well, and then, unless that failed, the uploads are tried.
  ghost predicate MayEnd(s: Store, world: nat -> Turn, policy: Policy, body: Bytes, openOk: nat -> bool,
                         target: string, end: CommitEnd) {
    exists t, i: nat :: Created(s, t) && EndsFrom(t, i, world, policy, body, openOk, target, end)
  }

  lemma UploadLands(s: Store, world: nat -> Turn, i: nat, policy: Policy, body: Bytes, path: string)
    ensures var (t, j, o) := Uploading(s, path, body, policy == Overwrite, world, i);
            Landed(s, t, path, body, policy, o == Stored)
  {
    if KeyOf(path).Some? { TriesSafe(s, KeyOf(path).value, body, policy == Overwrite, world, i, 1); }
  }

  // Success means that the bytes are at the path of the last upload, where without overwriting
  // nothing was; and whatever the end, without overwriting the store only grew.
  lemma {:induction false} NamingLands(s: Store, world: nat -> Turn, i: nat, policy: Policy, body: Bytes,
                                       openOk: nat -> bool, uploadPath: string, attempt: nat)
    requires attempt < 3
    ensures var end := Naming(s, world, i, policy, body, openOk, uploadPath, attempt);
            Landed(s, end.store, end.path, body, policy, end.err.None?)
    decreases 3 - attempt
  {
    if openOk(attempt) {
      var (t, j, o) := Uploading(s, uploadPath, body, policy == Overwrite, world, i);
      UploadLands(s, world, i, policy, body, uploadPath);
      if o != Stored && policy == Rename && attempt < 2 {
        var next := RenameCandidate(uploadPath, attempt);
        NamingLands(t, world, j, policy, body, openOk, next, attempt + 1);
        var end := Naming(t, world, j, policy, body, openOk, next, attempt + 1);
        LandedLater(s, t, end.store, end.path, body, policy, end.err.None?);
      }
    }
  }

  // The last upload goes to the path of one of the attempts.
  lemma {:induction false} NamingPath(s: Store, world: nat -> Turn, i: nat, policy: Policy, body: Bytes,
                                      openOk: nat -> bool, target: string, uploadPath: string, attempt: nat)
    requires attempt < Names(policy) && uploadPath == CommitPath(target, attempt)
    ensures IsCommitPath(target, Names(policy), Naming(s, world, i, policy, body, openOk, uploadPath, attempt).path)
    decreases 3 - attempt
  {
    var (t, j, o) := Uploading(s, uploadPath, body, policy == Overwrite, world, i);
    if openOk(attempt) && o != Stored && policy == Rename && attempt < 2 {
      var next := CommitPath(target, attempt + 1);
      CommitPathNext(target, attempt, uploadPath, next);
      NamingPath(t, world, j, policy, body, openOk, target, next, attempt + 1);
    }
  }

  // A first PUT that would land ends a commit.
  lemma FirstNameLands(s: Store, world: nat -> Turn, i: nat, policy: Policy, body: Bytes, openOk: nat -> bool,
                       path: string)
    requires openOk(0) && PutWouldLand(s, world(i), path, body, policy)
    ensures var end := Naming(s, world, i, policy, body, openOk, path, 0); end.err.None? && end.path == path
  {
    FirstTryDecides(s, KeyOf(path).value, body, policy == Overwrite, world, i);
  }

  // However a commit ends, success means that the bytes are at the recorded path, one of its
  // attempts', where without overwriting nothing was; without overwriting the store only grew.
  lemma {:induction false} CommitSafe(s: Store, world: nat -> Turn, policy: Policy, body: Bytes, openOk: nat -> bool,
                                      target: string, end: CommitEnd)
    requires MayEnd(s, world, policy, body, openOk, target, end)
    ensures Landed(s, end.store, end.path, body, policy, end.err.None?)
    ensures if end.err.None? then IsCommitPath(target, Names(policy), end.path) else end.path == target
  {
    var t, i: nat :| Created(s, t) && EndsFrom(t, i, world, policy, body, openOk, target, end);
    CreatedGrows(s, t);
    assert target == CommitPath(target, 0);
    NamingLands(t, world, i, policy, body, openOk, target, 0);
    NamingPath(t, world, i, policy, body, openOk, target, target, 0);
    if end.err.None? { LandedLater(s, t, end.store, end.path, body, policy, true); }
  }

  // The end of a commit to target whose parents, created from store s, are in t
  lemma NamesEnd(s: Store, t: Store, world: nat -> Turn, i: nat, policy: Policy, body: Bytes, openOk: nat -> bool,
                 target: string)
    requires Created(s, t)
    ensures var end := Recorded(target, Naming(t, world, i, policy, body, openOk, target, 0));
            && MayEnd(s, world, policy, body, openOk, target, end)
            && (openOk(0) && PutWouldLand(t, world(i), target, body, policy) ==> end.err.None? && end.path == target)
  {
    var end := Naming(t, world, i, policy, body, openOk, target, 0);
    assert EndsFrom(t, i, world, policy, body, openOk, target, Recorded(target, end));
    if openOk(0) && PutWouldLand(t, world(i), target, body, policy) {
      FirstNameLands(t, world, i, policy, body, openOk, target);
    }
  }

  // A commit uploads to its target and, under rename, whatever kept that from storing, to the
  // second name and then to the third; it ends with the first upload that stores, and else with
  // the outcome of the last.
  lemma NamesInTurn(s: Store, world: nat -> Turn, i: nat, policy: Policy, body: Bytes, openOk: nat -> bool,
                    target: string)
    requires openOk(0) && openOk(1) && openOk(2)
    ensures var end := Naming(s, world, i, policy, body, openOk, target, 0);
            var (s1, i1, o1) := Uploading(s, target, body, policy == Overwrite, world, i);
            var (s2, i2, o2) := Uploading(s1, CommitPath(target, 1), body, false, world, i1);
            var (s3, i3, o3) := Uploading(s2, CommitPath(target, 2), body, false, world, i2);
            if o1 == Stored then end == CommitEnd(s1, i1, None, target)
            else if policy != Rename then end == CommitEnd(s1, i1, Some(PutFailed(o1)), target)
            else if o2 == Stored then end == CommitEnd(s2, i2, None, CommitPath(target, 1))
            else if o3 == Stored then end == CommitEnd(s3, i3, None, CommitPath(target, 2))
            else end == CommitEnd(s3, i3, Some(PutFailed(o3)), end.path)
  {
    hide Uploading, RenameCandidate, CommitPath;
    var second := CommitPath(target, 1);
    FirstCommitPath(target);
    CommitPathNext(target, 0, target, second);
    CommitPathNext(target, 1, second, CommitPath(target, 2));
  }

  lemma FirstCommitPath(target: string)
    ensures CommitPath(target, 0) == target
  {
  }

  // On a server that answers and that nobody else uses, a commit under rename stores at the first
  // of its three paths at which nothing is, if the directory is there, and fails without a trace
  // if something is at all three.
  lemma {:induction false} FirstFreePathUsed(s: Store, world: nat -> Turn, i: nat, body: Bytes, openOk: nat -> bool,
                                             target: string, uploadPath: string, attempt: nat, free: nat)
    requires Alone(world) && attempt < 3 && attempt <= free <= 3 && uploadPath == CommitPath(target, attempt)
    requires forall k: nat :: k < 3 ==> openOk(k)
    requires forall k: nat :: attempt <= k < free ==> Occupied(CommitPath(target, k), s)
    requires free < 3 ==> Receives(s, CommitPath(target, free))
    ensures var end := Naming(s, world, i, Rename, body, openOk, uploadPath, attempt);
            if free < 3 then
              && end.err.None? && end.path == CommitPath(target, free)
              && end.store == s[KeyOf(end.path).value := File(body)]
            else end.err.Some? && end.store == s
    decreases 3 - attempt
  {
    hide KeyOf, RenameCandidate;
    AloneUploading(s, uploadPath, body, world, i);
    if attempt < free && attempt < 2 {
      var next := CommitPath(target, attempt + 1);
      CommitPathNext(target, attempt, uploadPath, next);
      FirstFreePathUsed(s, world, Uploading(s, uploadPath, body, false, world, i).1, body, openOk, target, next,
                        attempt + 1, free);
    }
  }

  // Nothing is at path, and its directory is there.
  predicate Receives(s: Store, path: string) {
    && KeyOf(path).Some? && KeyOf(path).value != [] && KeyOf(path).value !in s
    && IsCollection(s, Parent(KeyOf(path).value))
  }

  lemma AloneUploading(s: Store, path: string, body: Bytes, world: nat -> Turn, i: nat)
    requires Alone(world)
    ensures var (t, j, o) := Uploading(s, path, body, false, world, i);
            && (Occupied(path, s) ==> o != Stored && t == s)
            && (Receives(s, path) ==> o == Stored && t == s[KeyOf(path).value := File(body)])
  {
    hide KeyOf;
    assert world(i).fault == Fault.NoFault && CreateAll(s, world(i).others) == s;
    if KeyOf(path).Some? { FirstTryDecides(s, KeyOf(path).value, body, false, world, i); }
  }

  // The end of a Close: a commit that may end so, or, if it does not get that far, nothing
  ghost predicate Concluded(commits: bool, world: nat -> Turn, policy: Policy, data: Bytes, openOk: nat -> bool,
                            target: string, store: Store, end: CommitEnd, ok: bool) {
    if commits then MayEnd(store, world, policy, data, openOk, target, end) && (ok <==> end.err.None?)
    else end.store == store && end.path == target && !ok
  }

  lemma ConcludedLands(commits: bool, world: nat -> Turn, policy: Policy, data: Bytes, openOk: nat -> bool,
                       target: string, store: Store, end: CommitEnd, ok: bool)
    requires Concluded(commits, world, policy, data, openOk, target, store, end, ok)
    ensures Landed(store, end.store, end.path, data, policy, ok)
  {
    if commits { CommitSafe(store, world, policy, data, openOk, target, end); }
  }

  // How Write tells the client of an error of the spool
  function Reported(e: Spool.Error): DriverError {
    match e
    case Cancelled => UploadCancelled
    case FileTooLarge => UploadTooLarge
    case _ => SpoolFailed(e)
  }

  // Why a chunk that is not taken is refused: the disk fails if the checks do not.
  function Refused(s: State, u: Upload, n: nat): Spool.Error {
    var e := ReserveError(Machine, s, u, n);
    if e.Some? then e.value else IoError
  }

  class UploadWriter {
    const driver: BridgeDriver
    const account: Account
    const manager: Manager
    const transfer: TransferManager
    const webdav: Client
    const upload: ActiveUpload
    var path: string                   // spoolUpload.path
    var writeErr: Option<DriverError>
    ghost var passed: seq<Bytes>       // every chunk passed to Write

    ghost predicate Valid()
      reads this, manager, manager.started.Values, upload
    {
      && manager.Valid() && manager.Knows(upload)
      && upload.id !in manager.flight && upload.id !in manager.removed
      && upload.limit == account.maxSize && 0 < upload.limit < TWO63
      && path != "" && transfer.client.remote == webdav.remote
      && (writeErr.None? ==> upload.open && upload.tempFile == Flatten(passed))
    }

    // What was appended is what was credited.
    predicate Whole()
      reads this, upload
    {
      writeErr.None? ==> upload.bytesReceived == |upload.tempFile|
    }

    // The spool is as module Spool keeps it, with the upload active.
    ghost predicate Sound()
      reads this, manager, manager.started.Values, upload
    {
      Inv(manager.Model()) && upload.id in manager.activeUploads && Whole()
    }

    // The writer works with these objects.
    predicate Serves(driver: BridgeDriver, account: Account, manager: Manager, transfer: TransferManager,
                     webdav: Client)
    {
      && this.driver == driver && this.account == account && this.manager == manager
      && this.transfer == transfer && this.webdav == webdav
    }

    // The writer has been opened and nothing has been passed to it.
    ghost predicate New(id: Id, path: string)
      reads this, manager, manager.started.Values, upload
    {
      && Valid() && Whole() && writeErr.None? && passed == [] && this.path == path
      && upload.id == id && upload.size == 0 && !upload.cancelled
    }

    lemma NewKnown(id: Id, path: string)
      requires New(id, path)
      ensures manager.Knows(upload) && upload.id == id && upload.limit == account.maxSize && this.path == path
      ensures passed == [] && writeErr.None? && upload.size == upload.bytesReceived == 0 && !upload.cancelled
    {
    }

    constructor (driver: BridgeDriver, account: Account, manager: Manager, transfer: TransferManager,
                 webdav: Client, upload: ActiveUpload, path: string)
      requires manager.Valid() && manager.Knows(upload)
      requires upload.id !in manager.flight && upload.id !in manager.removed
      requires upload.limit == account.maxSize && 0 < upload.limit < TWO63
      requires upload.open && upload.tempFile == [] && upload.bytesReceived == 0
      requires path != "" && transfer.client.remote == webdav.remote
      ensures Valid() && Whole() && writeErr.None? && passed == [] && this.path == path
      ensures Serves(driver, account, manager, transfer, webdav) && this.upload == upload
    {
      this.driver, this.account, this.manager, this.transfer := driver, account, manager, transfer;
      this.webdav, this.upload, this.path := webdav, upload, path;
      writeErr, passed := None, [];
    }

    // The spool side of Write: the chunk is appended and credited, or the write fails.
    method SpoolChunk(p: Bytes, taken: nat) returns (err: Option<Spool.Error>)
      requires Valid() && writeErr.None? && taken <= |p|
      modifies manager`currentUsage, manager`flight, upload
      ensures manager.Valid() && manager.Model() == Wrote(Machine, old(manager.Model()), upload.id, p, taken)
      ensures upload.id !in manager.flight
      ensures err.None? <==> WriteOk(Machine, old(manager.Model()), upload.id, p, taken)
      ensures var refused := ReserveError(Machine, old(manager.Model()), old(upload.Value()), |p|);
              err.Some? ==> err == if refused.Some? then refused else Some(IoError)
      ensures err.None? ==> upload.open && upload.tempFile == old(upload.tempFile) + p
    {
      ghost var before := manager.Model();
      assert before.uploads[upload.id] == upload.Value();
      var _, e := manager.WriteChunk(upload, p, taken);
      err := e;
      WroteFile(before, upload.id, p, taken);
      assert manager.Model().uploads[upload.id] == upload.Value();
      assert manager.flight == manager.Model().flight;
    }

    // The checks Write makes itself, which are those of the spool
    method CheckChunk(p: Bytes) returns (err: Option<DriverError>)
      requires Valid()
      ensures var refused := SizeError(Machine, upload.Value(), |p|);
              err == if refused.Some? then Some(Reported(refused.value)) else None
    {
      if upload.cancelled {
        return Some(UploadCancelled);
      }
      if upload.size > 0 && |p| > Machine.Signed(upload.size - upload.bytesReceived) {
        return Some(UploadTooLarge);
      }
      if Machine.Signed(upload.bytesReceived + |p|) > Machine.Signed(upload.limit) {
        return Some(UploadTooLarge);
      }
      err := None;
    }

    // Write up to the latching of its error
    method Pass(p: Bytes, taken: nat) returns (err: Option<DriverError>)
      requires Valid() && taken <= |p|
      modifies manager`currentUsage, manager`flight, upload
      ensures manager.Valid() && upload.id !in manager.flight
      ensures manager.Model() == AfterWrite(old(manager.Model()), upload.id, writeErr.Some?, p, taken)
      ensures writeErr.Some? ==> err == writeErr
      ensures err.None? <==> writeErr.None? && WriteOk(Machine, old(manager.Model()), upload.id, p, taken)
      ensures writeErr.None? && err.Some? ==>
                err == Some(Reported(Refused(old(manager.Model()), old(upload.Value()), |p|)))
      ensures err.None? ==> upload.open && upload.tempFile == old(upload.tempFile) + p
    {
      assert manager.Model().uploads[upload.id] == upload.Value();
      if writeErr.Some? {
        return writeErr;
      }
      err := CheckChunk(p);
      if err.None? {
        var e := SpoolChunk(p, taken);
        err := if e.Some? then Some(SpoolFailed(e.value)) else None;
      }
    }

    // The effects of Write, whatever state the spool is in
    method WriteAny(p: Bytes, taken: nat) returns (err: Option<DriverError>)
      requires Valid() && taken <= |p|
      modifies this`writeErr, this`passed, manager`currentUsage, manager`flight, upload
      ensures Valid() && passed == old(passed) + [p]
      ensures err == writeErr
      ensures old(writeErr).Some? ==> writeErr == old(writeErr)
      ensures manager.Model() == AfterWrite(old(manager.Model()), upload.id, old(writeErr).Some?, p, taken)
      ensures err.None? <==> old(writeErr).None? && WriteOk(Machine, old(manager.Model()), upload.id, p, taken)
      ensures old(writeErr).None? && err.Some? ==>
                err == Some(Reported(Refused(old(manager.Model()), old(upload.Value()), |p|)))
    {
      hide AfterWrite, Spool.WriteOk, Manager.Valid, Manager.Model;
      FlattenAppend(passed, p);
      err := Pass(p, taken);
      ghost var after := manager.Model();
      writeErr, passed := err, passed + [p];
      assert manager.Model() == after;
    }

    // Why the writer does not take the chunk: something has failed before, the client has gone, the
    // chunk does not fit the announced size or the account's limit, or the spool, or the disk does
    // not write all of it.
    function Refusal(p: Bytes, taken: nat): Option<DriverError>
      reads this, manager, upload
    {
      if writeErr.Some? then writeErr
      else if upload.cancelled then Some(UploadCancelled)
      else if (upload.size > 0 && upload.bytesReceived + |p| > upload.size)
              || upload.bytesReceived + |p| > account.maxSize then Some(UploadTooLarge)
      else if manager.currentUsage + |p| > manager.maxTotalSize then Some(SpoolFailed(CapacityExceeded))
      else if taken < |p| then Some(SpoolFailed(IoError))
      else None
    }

    // A sound spool writes the chunk or gives this reason.
    lemma RefusalAnswers(p: Bytes, taken: nat)
      requires Valid() && Sound() && writeErr.None? && taken <= |p| && manager.maxTotalSize + |p| < TWO63
      ensures Refusal(p, taken).None? <==> WriteOk(Machine, manager.Model(), upload.id, p, taken)
      ensures Refusal(p, taken).Some? ==>
                Refusal(p, taken) == Some(Reported(Refused(manager.Model(), upload.Value(), |p|)))
    {
      hide Spool.Inv, WriteOk, ReserveError;
      assert manager.Model().uploads[upload.id] == upload.Value();
      assert manager.activeUploads.Keys == manager.Model().active;
      WriteTaken(manager.Model(), upload.id, p, taken);
      ActiveAnswered(manager.Model(), upload.id, |p|);
    }

    // A chunk is taken exactly when no error is latched, it passes the checks of the spool and
    // the disk takes all of it. The first error is latched: from then on every Write fails and
    // Close aborts. While the capacity and the chunk fit in int64 the spool stays sound.
    method Write(p: Bytes, taken: nat) returns (err: Option<DriverError>)
      requires Valid() && taken <= |p|
      modifies this`writeErr, this`passed, manager`currentUsage, manager`flight, upload
      ensures Valid() && passed == old(passed) + [p]
      ensures err == writeErr
      ensures old(writeErr).Some? ==> writeErr == old(writeErr)
      ensures manager.Model() == AfterWrite(old(manager.Model()), upload.id, old(writeErr).Some?, p, taken)
      ensures err.None? <==> old(writeErr).None? && WriteOk(Machine, old(manager.Model()), upload.id, p, taken)
      ensures old(Sound()) && manager.maxTotalSize + |p| < TWO63 ==>
                && Sound() && err == old(Refusal(p, taken))
                && (old(writeErr).None? ==>
                      && upload.bytesReceived == old(upload.bytesReceived) + (if err.None? then |p| else 0)
                      && manager.currentUsage == old(manager.currentUsage) + (if err.None? then |p| else 0)
                      && upload.cancelled == old(upload.cancelled))
    {
      hide Spool.Inv, ReserveError, Refused, WriteOk, Wrote, Flatten;
      ghost var before, u := manager.Model(), upload.Value();
      ghost var latched, sound := writeErr.Some?, Sound() && manager.maxTotalSize + |p| < TWO63;
      assert before.uploads[upload.id] == u && manager.activeUploads.Keys == before.active;
      if sound {
        AfterWriteKeeps(before, upload.id, latched, p, taken);
        if !latched {
          WriteTaken(before, upload.id, p, taken);
          RefusalAnswers(p, taken);
        }
      }
      err := WriteAny(p, taken);
      assert manager.Model().uploads[upload.id] == upload.Value();
      FlattenAppend(old(passed), p);
    }

    // ---------------------------------------------------------- commit

    // One upload of the spooled file under one name; None when it cannot be opened
    method SendSpooled(uploadPath: string, file: FileRef, ghost data: Bytes, openOk: bool) returns (o: Option<Outcome>)
      requires file.path in manager.files && manager.files[file.path] == data && file.size == |data|
      modifies webdav.remote
      ensures o.None? <==> !openOk
      ensures Sent(old(webdav.remote.log), webdav.remote.log, uploadPath, 3)
      ensures !openOk ==> webdav.remote.requests == old(webdav.remote.requests)
                          && webdav.remote.store == old(webdav.remote.store)
      ensures openOk ==> (webdav.remote.store, webdav.remote.requests, o.value)
                         == Uploading(old(webdav.remote.store), uploadPath, data, account.policy == Overwrite,
                                      webdav.remote.world, old(webdav.remote.requests))
    {
      if !openOk {
        return None;
      }
      var spooled := new SpooledFile(manager.files[file.path]);
      var outcome := webdav.UploadStream(uploadPath, spooled, file.size, account.policy == Overwrite);
      o := Some(outcome);
    }

    // One attempt of a commit to target that began with these PUTs
    method SendAttempt(ghost target: string, ghost log: seq<Key>, attempt: nat, uploadPath: string,
                       file: FileRef, ghost data: Bytes, openOk: bool)
      returns (o: Option<Outcome>)
      requires file.path in manager.files && manager.files[file.path] == data && file.size == |data|
      requires uploadPath == CommitPath(target, attempt) && SentUnder(log, webdav.remote.log, target, attempt)
      modifies webdav.remote
      ensures SentUnder(log, webdav.remote.log, target, attempt + 1)
      ensures o.None? <==> !openOk
      ensures !openOk ==> webdav.remote.requests == old(webdav.remote.requests)
                          && webdav.remote.store == old(webdav.remote.store)
      ensures openOk ==> (webdav.remote.store, webdav.remote.requests, o.value)
                         == Uploading(old(webdav.remote.store), uploadPath, data, account.policy == Overwrite,
                                      webdav.remote.world, old(webdav.remote.requests))
    {
      ghost var before := webdav.remote.log;
      o := SendSpooled(uploadPath, file, data, openOk);
      SentUnderNext(log, before, webdav.remote.log, target, attempt, uploadPath);
    }

    // How a commit stands that is about to try uploadPath, or has ended with err
    function Ending(err: Option<DriverError>): CommitEnd
      reads this, webdav.remote
    {
      CommitEnd(webdav.remote.store, webdav.remote.requests, err, path)
    }

    // What the loop of a commit keeps between two attempts
    ghost predicate Retrying(log: seq<Key>, target: string, attempt: nat, uploadPath: string)
      reads this, webdav.remote
    {
      && attempt < Names(account.policy) && path == target && uploadPath == CommitPath(target, attempt)
      && SentUnder(log, webdav.remote.log, target, attempt)
    }

    // The loop of commitToWebDAV: at most three uploads, each under a new name when the policy
    // is rename. openOk(k) says whether the k-th open succeeds.
    method SendUnderNames(file: FileRef, ghost data: Bytes, openOk: nat -> bool) returns (err: Option<DriverError>)
      requires path != ""
      requires file.path in manager.files && manager.files[file.path] == data && file.size == |data|
      modifies this`path, webdav.remote
      ensures Ending(err) == Recorded(old(path), Naming(old(webdav.remote.store), webdav.remote.world,
                                                        old(webdav.remote.requests), account.policy, data, openOk,
                                                        old(path), 0))
      ensures SentUnder(old(webdav.remote.log), webdav.remote.log, old(path), Names(account.policy))
    {
      var uploadPath := path;
      var attempt := 0;
      ghost var target, log := path, webdav.remote.log;
      ghost var end := Naming(webdav.remote.store, webdav.remote.world, webdav.remote.requests, account.policy, data,
                              openOk, path, 0);
      while attempt < 3
        invariant Retrying(log, target, attempt, uploadPath)
        invariant end == Naming(webdav.remote.store, webdav.remote.world, webdav.remote.requests, account.policy,
                                data, openOk, uploadPath, attempt)
      {
        var o := SendAttempt(target, log, attempt, uploadPath, file, data, openOk(attempt));
        SentUnderMore(log, webdav.remote.log, target, attempt + 1, Names(account.policy));
        if o.None? {
          return Some(OpenFailed);
        }
        if o.value == Stored {
          if attempt > 0 {
            path := uploadPath;
          }
          return None;
        }
        if account.policy != Rename || attempt == 2 {
          return Some(PutFailed(o.value));
        }
        uploadPath := RenameCandidate(uploadPath, attempt);
        attempt := attempt + 1;
      }
    }

    // The uploads of a commit that began with store s, the parents being there
    method SendAfterParents(file: FileRef, ghost data: Bytes, openOk: nat -> bool, ghost s: Store)
      returns (err: Option<DriverError>)
      requires path != "" && Created(s, webdav.remote.store)
      requires file.path in manager.files && manager.files[file.path] == data && file.size == |data|
      modifies this`path, webdav.remote
      ensures SentUnder(old(webdav.remote.log), webdav.remote.log, old(path), Names(account.policy))
      ensures openOk(0)
              && PutWouldLand(old(webdav.remote.store), old(webdav.remote.Next()), old(path), data, account.policy)
              ==> err.None? && path == old(path)
      ensures MayEnd(s, webdav.remote.world, account.policy, data, openOk, old(path), Ending(err))
    {
      NamesEnd(s, webdav.remote.store, webdav.remote.world, webdav.remote.requests, account.policy, data, openOk, path);
      err := SendUnderNames(file, data, openOk);
    }

    // The end of a commit whose parents could not be created
    lemma ParentsEnd(s: Store, data: Bytes, openOk: nat -> bool, err: Option<DriverError>)
      requires Created(s, webdav.remote.store) && err.Some? && err.value.ParentsFailed?
      ensures MayEnd(s, webdav.remote.world, account.policy, data, openOk, path, Ending(err))
    {
      assert EndsFrom(webdav.remote.store, webdav.remote.requests, webdav.remote.world, account.policy, data, openOk,
                      path, Ending(err));
    }

    // commitToWebDAV: the parents, then the uploads. Success means stored; unobstructed, the
    // first upload succeeds.
    method CommitToWebDAV(file: FileRef, ghost data: Bytes, openOk: nat -> bool) returns (err: Option<DriverError>)
      requires path != "" && transfer.client.remote == webdav.remote
      requires file.path in manager.files && manager.files[file.path] == data && file.size == |data|
      modifies this`path, webdav.remote
      ensures SentUnder(old(webdav.remote.log), webdav.remote.log, old(path), Names(account.policy))
      ensures openOk(0) && Unobstructed(old(webdav.remote.store), webdav.remote.world, old(path), account.policy)
              ==> err.None? && path == old(path)
      ensures MayEnd(old(webdav.remote.store), webdav.remote.world, account.policy, data, openOk, old(path),
                     Ending(err))
    {
      ghost var s := webdav.remote.store;
      ghost var ready := Unobstructed(s, webdav.remote.world, path, account.policy);
      if ready { ParentOfCleanPath(path); }
      var parents := transfer.EnsureParentDirectories(path);
      if parents != Stored {
        err := Some(ParentsFailed(parents));
        ParentsEnd(s, data, openOk, err);
        return;
      }
      if ready {
        PutLands(s, webdav.remote.store, webdav.remote.world, path, data, account.policy, webdav.remote.Next());
      }
      err := SendAfterParents(file, data, openOk, s);
    }

    // ---------------------------------------------------------- close

    // The upload is live, the disk and the store do their part.
    ghost predicate Clear(fault: FinishFault, openOk: nat -> bool)
      reads this, upload, webdav.remote
    {
      && writeErr.None? && !upload.cancelled && upload.size <= 0 && fault == FinishFault.NoFault && openOk(0)
      && Unobstructed(webdav.remote.store, webdav.remote.world, path, account.policy)
    }

    // No write failed, and the upload is not known to be incomplete.
    predicate Complete()
      reads this, upload
    {
      writeErr.None? && (upload.size <= 0 || upload.bytesReceived == upload.size)
    }

    // Close gets as far as the commit.
    ghost predicate Commits(fault: FinishFault)
      reads this, upload
    {
      writeErr.None? && Finishable(upload.Value(), fault)
    }

    // FinishUpload as Close uses it: the spooled file holds what was written.
    method FinishSpooling(fault: FinishFault) returns (r: Result<FileRef, Spool.Error>)
      requires Valid() && Whole() && writeErr.None?
      modifies upload`open, manager`files, manager`activeUploads, manager`currentUsage
      ensures manager.Valid() && manager.Model() == FinishStep(Machine, old(manager.Model()), upload.id, fault)
      ensures r.Ok? <==> Finishable(old(upload.Value()), fault)
      ensures Complete() && old(upload.cancelled || fault != FinishFault.NoFault) ==>
                r == Err(if old(upload.cancelled) then Cancelled else IoError)
      ensures r.Ok? ==> && r.value.path == upload.id && r.value.path in manager.files
                        && manager.files[r.value.path] == Flatten(passed) && r.value.size == |Flatten(passed)|
      ensures manager.activeUploads.Keys == old(manager.activeUploads.Keys) - if r.Ok? then {upload.id} else {}
    {
      ghost var before := manager.Model();
      assert before.uploads[upload.id] == upload.Value();
      FinishRecorded(before, upload.id, fault);
      r := manager.FinishUpload(upload, fault);
    }

    // A finished upload's file leaves the spool.
    method DropSpooled(id: Id)
      requires manager.Valid()
      modifies manager`files
      ensures manager.Valid() && manager.Model() == old(manager.Model()).(files := old(manager.files) - {id})
    {
      manager.DeleteByPath(id);
    }

    // The commit of a finished upload, and the removal of its file from the spool
    method CommitAndDrop(file: FileRef, ghost data: Bytes, openOk: nat -> bool) returns (err: Option<DriverError>)
      requires manager.Valid() && path != "" && transfer.client.remote == webdav.remote
      requires file.path in manager.files && manager.files[file.path] == data && file.size == |data|
      modifies this`path, webdav.remote, manager`files
      ensures manager.Valid()
      ensures manager.Model() == old(manager.Model()).(files := old(manager.files) - {file.path})
      ensures SentUnder(old(webdav.remote.log), webdav.remote.log, old(path), Names(account.policy))
      ensures openOk(0) && Unobstructed(old(webdav.remote.store), webdav.remote.world, old(path), account.policy)
              ==> err.None? && path == old(path)
      ensures MayEnd(old(webdav.remote.store), webdav.remote.world, account.policy, data, openOk, old(path),
                     Ending(err))
    {
      err := CommitToWebDAV(file, data, openOk);
      assert manager.Valid() && manager.Model() == old(manager.Model());
      DropSpooled(file.path);
    }

    // The middle of Close: finish, commit, and drop the spooled file either way
    method FinishAndCommit(fault: FinishFault, openOk: nat -> bool)
      returns (err: Option<DriverError>, stored: Option<int>)
      requires Valid() && Whole() && Complete()
      modifies this`path, upload`open, webdav.remote, manager`files, manager`activeUploads, manager`currentUsage
      ensures manager.Valid() && manager.Model() == AfterClose(old(manager.Model()), upload.id, false, fault)
      ensures SentUnder(old(webdav.remote.log), webdav.remote.log, old(path), Names(account.policy))
      ensures Concluded(old(Commits(fault)), webdav.remote.world, account.policy, Flatten(passed), openOk, old(path),
                        old(webdav.remote.store), Ending(err), stored.Some?)
      ensures stored == if err.None? then Some(|Flatten(passed)|) else None
      ensures Complete() && old(upload.cancelled || fault != FinishFault.NoFault) ==>
                err == Some(SpoolFailed(if old(upload.cancelled) then Cancelled else IoError))
      ensures old(Clear(fault, openOk)) ==> err.None? && path == old(path)
    {
      hide MayEnd, Unobstructed, Manager.Valid;
      ghost var before := manager.Model();
      assert before.uploads[upload.id] == upload.Value();
      var finished := FinishSpooling(fault);
      if finished.Err? {
        return Some(SpoolFailed(finished.error)), None;
      }
      err := CommitAndDrop(finished.value, Flatten(passed), openOk);
      stored := if err.None? then Some(finished.value.size) else None;
    }

    // The branches of Close that abort the upload
    method Abandon(fault: FinishFault) returns (err: Option<DriverError>)
      requires Valid() && !Complete()
      modifies upload`open, upload`cancelled, manager`activeUploads, manager`currentUsage
      ensures manager.Valid() && manager.Model() == AfterClose(old(manager.Model()), upload.id, writeErr.Some?, fault)
      ensures err == writeErr && !old(Commits(fault))
    {
      assert manager.Model().uploads[upload.id] == upload.Value();
      manager.AbortUpload(upload);
      err := writeErr;
    }

    // The branches of Close up to their counters
    method CloseSpooled(fault: FinishFault, openOk: nat -> bool) returns (err: Option<DriverError>, stored: Option<int>)
      requires Valid() && Whole()
      modifies this`path, upload`open, upload`cancelled, webdav.remote
      modifies manager`files, manager`activeUploads, manager`currentUsage
      ensures manager.Valid() && manager.Model() == AfterClose(old(manager.Model()), upload.id, writeErr.Some?, fault)
      ensures SentUnder(old(webdav.remote.log), webdav.remote.log, old(path), Names(account.policy))
      ensures Concluded(old(Commits(fault)), webdav.remote.world, account.policy, Flatten(passed), openOk, old(path),
                        old(webdav.remote.store), Ending(err), stored.Some?)
      ensures if Complete() then stored == if err.None? then Some(|Flatten(passed)|) else None
              else stored.None? && err == writeErr
      ensures Complete() && old(upload.cancelled || fault != FinishFault.NoFault) ==>
                err == Some(SpoolFailed(if old(upload.cancelled) then Cancelled else IoError))
      ensures old(Clear(fault, openOk)) ==> err.None? && path == old(path)
    {
      hide MayEnd, AfterClose, Unobstructed, Manager.Valid, Manager.Model;
      stored := None;
      if writeErr.Some? {
        err := Abandon(fault);
      } else if upload.bytesReceived == upload.size || upload.size <= 0 {
        err, stored := FinishAndCommit(fault, openOk);
      } else {
        err := Abandon(fault);
      }
    }

    // The same, and which uploads it leaves active
    method CloseTracked(fault: FinishFault, openOk: nat -> bool) returns (err: Option<DriverError>, stored: Option<int>)
      requires Valid() && Whole()
      modifies this`path, upload`open, upload`cancelled, webdav.remote
      modifies manager`files, manager`activeUploads, manager`currentUsage
      ensures manager.Valid() && manager.Model() == AfterClose(old(manager.Model()), upload.id, writeErr.Some?, fault)
      ensures SentUnder(old(webdav.remote.log), webdav.remote.log, old(path), Names(account.policy))
      ensures Concluded(old(Commits(fault)), webdav.remote.world, account.policy, Flatten(passed), openOk, old(path),
                        old(webdav.remote.store), Ending(err), stored.Some?)
      ensures Landed(old(webdav.remote.store), webdav.remote.store, path, Flatten(passed), account.policy, stored.Some?)
      ensures if Complete() then stored == if err.None? then Some(|Flatten(passed)|) else None
              else stored.None? && err == writeErr
      ensures Complete() && old(upload.cancelled || fault != FinishFault.NoFault) ==>
                err == Some(SpoolFailed(if old(upload.cancelled) then Cancelled else IoError))
      ensures old(Clear(fault, openOk)) ==> err.None? && path == old(path)
      ensures upload.id in manager.activeUploads <==>
                old(upload.id in manager.activeUploads) && Complete()
                && (old(upload.cancelled) || fault != FinishFault.NoFault)
    {
      hide MayEnd, Landed, SentUnder, Concluded, AfterClose, Unobstructed;
      ghost var before := manager.Model();
      assert before.uploads[upload.id] == upload.Value();
      CloseActive(before, upload.id, writeErr.Some?, fault);
      err, stored := CloseSpooled(fault, openOk);
      assert manager.activeUploads.Keys == manager.Model().active;
      ConcludedLands(old(Commits(fault)), webdav.remote.world, account.policy, Flatten(passed), openOk, old(path),
                     old(webdav.remote.store), Ending(err), stored.Some?);
    }

    // Close of an upload of unknown size - every upload of the driver - returns nil only if the
    // object at the recorded path holds exactly the concatenation of all chunks passed to
    // Write. The incomplete branch, which returns nil without storing anything, belongs to
    // uploads of a known size. With nothing in the way Close does return nil. Whatever became
    // of the commit, the spooled file is gone; an upload that was cancelled, or whose file the
    // disk fails to finish, stays active.
    method Close(fault: FinishFault, openOk: nat -> bool) returns (err: Option<DriverError>)
      requires Valid() && Whole()
      modifies this`path, driver`uploadSlots, driver`uploadsSuccess, driver`uploadsFailed, driver`totalBytesUploaded
      modifies upload`open, upload`cancelled, webdav.remote
      modifies manager`files, manager`activeUploads, manager`currentUsage
      ensures manager.Valid() && manager.Model() == AfterClose(old(manager.Model()), upload.id, writeErr.Some?, fault)
      ensures SentUnder(old(webdav.remote.log), webdav.remote.log, old(path), Names(account.policy))
      ensures Concluded(old(Commits(fault)), webdav.remote.world, account.policy, Flatten(passed), openOk, old(path),
                        old(webdav.remote.store), Ending(err), Complete() && err.None?)
      ensures Landed(old(webdav.remote.store), webdav.remote.store, path, Flatten(passed), account.policy,
                     Complete() && err.None?)
      ensures !Complete() ==> err == writeErr
      ensures driver.uploadSlots == GiveSlot(old(driver.uploadSlots), account)
      ensures driver.uploadsSuccess == old(driver.uploadsSuccess) + (if Complete() && err.None? then 1 else 0)
      ensures driver.uploadsFailed == old(driver.uploadsFailed) + (if Complete() && err.None? then 0 else 1)
      ensures driver.totalBytesUploaded
              == old(driver.totalBytesUploaded) + (if Complete() && err.None? then |Flatten(passed)| else 0)
      ensures Complete() && old(upload.cancelled || fault != FinishFault.NoFault) ==>
                err == Some(SpoolFailed(if old(upload.cancelled) then Cancelled else IoError))
      ensures old(Clear(fault, openOk)) ==> err.None? && path == old(path)
      ensures upload.id in manager.activeUploads <==>
                old(upload.id in manager.activeUploads) && Complete()
                && (old(upload.cancelled) || fault != FinishFault.NoFault)
    {
      hide MayEnd, Landed, SentUnder, Concluded, AfterClose, Manager.Valid, Manager.Model;
      var stored;
      err, stored := CloseTracked(fault, openOk);
      driver.RecordClose(account, stored);
    }
  }

  // ------------------------------------------------------------ handleUploadOpen

  // The spool upload of a STOR command: the size is not known, so it is recorded as 0.
  method StartSpooling(manager: Manager, request: Request, id: Id, fileID: string, diskOk: bool)
    returns (r: Result<ActiveUpload, Spool.Error>)
    requires manager.Valid() && id !in manager.started
    requires request.expected == -1 && 0 <= request.limit
    modifies manager`activeUploads, manager`started
    ensures manager.Valid() && manager.Model() == StartStep(Machine, old(manager.Model()), id, request, diskOk)
    ensures r.Ok? <==> StartError(Machine, old(manager.Model()), request, diskOk).None?
    ensures r.Err? ==> Some(r.error) == StartError(Machine, old(manager.Model()), request, diskOk)
    ensures r.Err? ==> manager.started == old(manager.started)
    ensures r.Ok? ==>
              && fresh(r.value) && manager.started == old(manager.started)[id := r.value] && r.value.id == id
              && r.value.size == 0 && !r.value.cancelled && r.value.limit == request.limit && 0 < r.value.limit < TWO63
              && r.value.request == request && r.value.open && r.value.tempFile == [] && r.value.bytesReceived == 0
  {
    r := manager.StartUpload(request, id, fileID, diskOk);
    if r.Ok? {
      assert manager.Model().uploads[id] == r.value.Value();
    }
  }

  // target is where the mapping puts a STOR to path under the name that was settled on.
  ghost predicate Opened(root: string, path: string, stamp: string, name: string, target: string) {
    && TargetPath.TargetFor(root, TargetPath.UploadDir(path), name) == Ok(target)
    && NameFrom(Base(path), stamp, name)
  }

  // A STOR of "/." is opened for the root itself.
  lemma DotOpensRoot(root: string, path: string, stamp: string)
    requires CleanAbs(root) && path == "/."
    ensures Opened(root, path, stamp, ".", root)
  {
    assert Base(path) == "." by { assert TrimTrailingSlashes(path) == path; }
    assert path[..AfterLastSlash(path)] == "/";
    NoComponents();
    DotTargetsRoot(root, TargetPath.UploadDir(path), ".");
  }

  lemma OpenedKeyBelowRoot(root: string, cs: seq<string>, stamp: string, name: string, target: string,
                           attempt: nat, key: Key)
    requires CleanAbs(root) && Components(cs) && cs != [] && '/' !in stamp && IsBytes(target)
    requires Opened(root, Render(true, cs), stamp, name, target) && KeyOf(CommitPath(target, attempt)) == Some(key)
    ensures Elements(root) <= key
  {
    var dir := TargetPath.UploadDir(Render(true, cs));
    TargetComponents(root, dir, name, target);
    NameFromNotEmpty(cs, stamp, name);
    StoredNameHasFile(cs, stamp, name);
    CommitStaysBelowRoot(root, dir, name, target, attempt, key);
  }

  // Every PUT of an upload opened for a clean absolute FTP path goes below the account's root,
  // whatever names collision handling and the commit give it.
  lemma OpenedStaysBelowRoot(root: string, cs: seq<string>, stamp: string, name: string, target: string,
                             before: seq<Key>, after: seq<Key>, names: nat)
    requires CleanAbs(root) && Components(cs) && cs != [] && '/' !in stamp && IsBytes(target)
    requires Opened(root, Render(true, cs), stamp, name, target) && SentUnder(before, after, target, names)
    ensures forall i :: |before| <= i < |after| ==> Elements(root) <= after[i]
  {
    forall i | |before| <= i < |after| ensures Elements(root) <= after[i] {
      assert CommitsTo(target, names, after[i]);
      var k: nat :| k < names && KeyOf(CommitPath(target, k)) == Some(after[i]);
      OpenedKeyBelowRoot(root, cs, stamp, name, target, k, after[i]);
    }
  }

  // Starting an upload of unknown size keeps the invariant of the spool.
  lemma StartKeeps(s: State, id: Id, request: Request, diskOk: bool)
    requires Inv(s) && s.capacity < TWO63 && request.expected == -1 && 0 <= request.limit
    ensures Inv(StartStep(Machine, s, id, request, diskOk))
  {
    if StartError(Machine, s, request, diskOk).None? { StepSafe(s, Start(id, request, diskOk), 0); }
  }

  // What handleUploadOpen asks of the spool
  function OpenRequest(account: Account, target: Target): Request {
    Request(account.username, target.filename, target.path, -1, account.maxSize)
  }

  // Whether an upload to target gets a slot and a spool upload
  predicate Admits(slots: map<string, nat>, account: Account, sp: State, target: Target, diskOk: bool) {
    SlotFree(slots, account) && StartError(Machine, sp, OpenRequest(account, target), diskOk).None?
  }

  // An upload of unknown size is admitted exactly if the account's tokens are below its cap, its
  // names and its limit are acceptable, and the disk lets its file be created: the spool counter
  // decides nothing.
  lemma AdmitsIff(slots: map<string, nat>, account: Account, sp: State, target: Target, diskOk: bool)
    requires 0 <= sp.usage <= sp.capacity < TWO63 && 0 <= account.maxSize
    ensures Admits(slots, account, sp, target, diskOk) <==>
              && (account.maxUploads <= 0
                  || (if account.username in slots then slots[account.username] else 0) < account.maxUploads)
              && account.username != "" && target.filename != "" && 0 < account.maxSize < TWO63
              && !Contains(account.username, "..") && !Contains(target.path, "..") && diskOk
  {
    StartAnswered(sp, OpenRequest(account, target), diskOk);
  }

  // The spool and the slots after that
  function SpoolAfterOpen(slots: map<string, nat>, account: Account, sp: State, target: Target, id: Id, diskOk: bool)
    : State
  {
    if SlotFree(slots, account) then StartStep(Machine, sp, id, OpenRequest(account, target), diskOk) else sp
  }

  function SlotsAfterOpen(slots: map<string, nat>, account: Account, sp: State, target: Target, diskOk: bool)
    : map<string, nat>
  {
    if !SlotFree(slots, account) then slots
    else if Admits(slots, account, sp, target, diskOk) then TakeSlot(slots, account)
    else GiveSlot(TakeSlot(slots, account), account)
  }

  lemma RefusedKeepsTokens(slots: map<string, nat>, account: Account, sp: State, target: Target, diskOk: bool)
    requires !Admits(slots, account, sp, target, diskOk)
    ensures forall user :: Tokens(SlotsAfterOpen(slots, account, sp, target, diskOk), user) == Tokens(slots, user)
  {
  }

  // The second half of handleUploadOpen: a slot, the spool upload, the writer
  method AdmitUpload(driver: BridgeDriver, account: Account, manager: Manager, transfer: TransferManager,
                     webdav: Client, target: Target, id: Id, fileID: string, diskOk: bool)
    returns (r: Result<UploadWriter, DriverError>)
    requires manager.Valid()
    requires id !in manager.started && id !in manager.flight && id !in manager.removed
    requires transfer.client.remote == webdav.remote && 0 <= account.maxSize && target.path != ""
    modifies driver`uploadSlots, driver`uploadsTotal, manager`activeUploads, manager`started
    ensures manager.Valid()
    ensures manager.Model()
            == SpoolAfterOpen(old(driver.uploadSlots), account, old(manager.Model()), target, id, diskOk)
    ensures driver.uploadSlots == SlotsAfterOpen(old(driver.uploadSlots), account, old(manager.Model()), target, diskOk)
    ensures driver.uploadsTotal == old(driver.uploadsTotal) + if r.Ok? then 1 else 0
    ensures r.Ok? <==> old(Admits(driver.uploadSlots, account, manager.Model(), target, diskOk))
    ensures r.Err? ==>
              r.error == old(if !SlotFree(driver.uploadSlots, account) then TooManyUploads
                             else SpoolFailed(StartError(Machine, manager.Model(), OpenRequest(account, target),
                                                         diskOk).value))
    ensures r.Err? ==> manager.started == old(manager.started)
    ensures r.Ok? ==>
              && fresh(r.value) && fresh(r.value.upload)
              && manager.started == old(manager.started)[id := r.value.upload]
              && r.value.Serves(driver, account, manager, transfer, webdav)
              && r.value.New(id, target.path) && r.value.upload.request.filename == target.filename
  {
    hide Manager.Valid, Manager.Model, StartStep, StartError;
    var acquired := driver.AcquireUploadSlot(account);
    if !acquired {
      return Err(TooManyUploads);
    }
    var request := OpenRequest(account, target);
    var started := StartSpooling(manager, request, id, fileID, diskOk);
    if started.Err? {
      driver.ReleaseUploadSlot(account);
      return Err(SpoolFailed(started.error));
    }
    var writer := new UploadWriter(driver, account, manager, transfer, webdav, started.value, target.path);
    driver.uploadsTotal := driver.uploadsTotal + 1;
    r := Ok(writer);
  }

  // Where a STOR to path goes under its own name
  function StorPath(root: string, path: string): string {
    var target := TargetPath.UploadTarget(root, path);
    if target.Ok? then target.value else ""
  }

  // Nobody else uses the server, it answers, and nothing stands in the way of a STOR to path
  // under its own name: no plain file among the ancestors, no resource at the target but a file
  // that the policy overwrites.
  ghost predicate Welcome(config: TargetConfig, account: Account, path: string, store: Store, world: nat -> Turn) {
    && Kept(config, TargetPath.UploadDir(path), Base(path), store)
    && Unobstructed(store, world, StorPath(config.root, path), account.policy)
  }

  // The first half of handleUploadOpen: where the upload goes
  method FindTarget(account: Account, transfer: TransferManager, path: string, stamp: string)
    returns (r: Result<Target, DriverError>)
    requires account.username in transfer.targetConfigs ==> CleanAbs(transfer.targetConfigs[account.username].root)
    modifies transfer`uploadCounters, transfer.client.remote`store, transfer.client.remote`requests
    ensures Grown(old(transfer.client.remote.store), transfer.client.remote.store, transfer.client.remote.world)
    ensures r.Ok? ==>
              && account.username in transfer.targetConfigs && r.value.path != ""
              && Opened(transfer.targetConfigs[account.username].root, path, stamp, r.value.filename, r.value.path)
              && ParentsThere(old(transfer.client.remote.store), transfer.client.remote.store,
                              transfer.client.remote.world, r.value.path)
    ensures account.username in transfer.targetConfigs
            && Welcome(transfer.targetConfigs[account.username], account, path, old(transfer.client.remote.store),
                       transfer.client.remote.world) ==>
              && r == Ok(Target(StorPath(transfer.targetConfigs[account.username].root, path), Base(path)))
              && Unobstructed(transfer.client.remote.store, transfer.client.remote.world, r.value.path, account.policy)
  {
    hide Grown, ParentsThere, NameFrom, OnlyOn, KeyOf, TargetPath.TargetFor;
    ghost var s, world := transfer.client.remote.store, transfer.client.remote.world;
    var processed := transfer.ProcessUpload(account.username, TargetPath.UploadDir(path), Base(path), stamp);
    if processed.Err? {
      return Err(TransferFailed(processed.error));
    }
    var config, target := transfer.targetConfigs[account.username], processed.value;
    TargetPath.TargetNotEmpty(config.root, TargetPath.UploadDir(path), target.filename);
    if Welcome(config, account, path, s, world) {
      StaysUnobstructed(s, transfer.client.remote.store, world, target.path, account.policy);
    }
    r := Ok(target);
  }

  // The second half of handleUploadOpen, and what it leaves of the spool and the slots
  method AdmitSoundly(driver: BridgeDriver, account: Account, manager: Manager, transfer: TransferManager,
                      webdav: Client, target: Target, id: Id, fileID: string, diskOk: bool)
    returns (r: Result<UploadWriter, DriverError>)
    requires manager.Valid()
    requires id !in manager.started && id !in manager.flight && id !in manager.removed
    requires transfer.client.remote == webdav.remote && 0 <= account.maxSize && target.path != ""
    modifies driver`uploadSlots, driver`uploadsTotal, manager`activeUploads, manager`started
    ensures manager.Valid()
    ensures manager.Model()
            == SpoolAfterOpen(old(driver.uploadSlots), account, old(manager.Model()), target, id, diskOk)
    ensures driver.uploadSlots == SlotsAfterOpen(old(driver.uploadSlots), account, old(manager.Model()), target, diskOk)
    ensures driver.uploadsTotal == old(driver.uploadsTotal) + if r.Ok? then 1 else 0
    ensures r.Ok? <==> old(Admits(driver.uploadSlots, account, manager.Model(), target, diskOk))
    ensures r.Err? ==>
              r.error == old(if !SlotFree(driver.uploadSlots, account) then TooManyUploads
                             else SpoolFailed(StartError(Machine, manager.Model(), OpenRequest(account, target),
                                                         diskOk).value))
    ensures r.Err? ==> manager.started == old(manager.started)
    ensures r.Err? ==> forall user :: Tokens(driver.uploadSlots, user) == Tokens(old(driver.uploadSlots), user)
    ensures r.Ok? ==> SlotFree(old(driver.uploadSlots), account)
                      && driver.uploadSlots == TakeSlot(old(driver.uploadSlots), account)
    ensures r.Ok? ==>
              && fresh(r.value) && fresh(r.value.upload)
              && manager.started == old(manager.started)[id := r.value.upload]
              && r.value.Serves(driver, account, manager, transfer, webdav)
              && r.value.New(id, target.path) && r.value.path == target.path
              && r.value.upload.request.filename == target.filename
    ensures r.Ok? && old(Inv(manager.Model())) && manager.maxTotalSize < TWO63 ==> r.value.Sound()
  {
    hide Spool.Inv, StartError;
    ghost var before, slots := manager.Model(), driver.uploadSlots;
    r := AdmitUpload(driver, account, manager, transfer, webdav, target, id, fileID, diskOk);
    if r.Err? {
      RefusedKeepsTokens(slots, account, before, target, diskOk);
    } else if Inv(before) && manager.maxTotalSize < TWO63 {
      StartKeeps(before, id, OpenRequest(account, target), diskOk);
    }
  }

  // One STOR command: the path, the collision policy, then admission. The size is not known,
  // so the upload's size is 0; a refused upload leaves no slot taken. target is where the
  // upload goes, None if it got no target.
  method HandleUploadOpen(driver: BridgeDriver, account: Account, manager: Manager, transfer: TransferManager,
                          webdav: Client, path: string, stamp: string, id: Id, fileID: string, diskOk: bool)
    returns (r: Result<UploadWriter, DriverError>, ghost target: Option<Target>)
    requires manager.Valid()
    requires id !in manager.started && id !in manager.flight && id !in manager.removed
    requires transfer.client.remote == webdav.remote && 0 <= account.maxSize
    requires account.username in transfer.targetConfigs ==> CleanAbs(transfer.targetConfigs[account.username].root)
    modifies driver`uploadSlots, driver`uploadsTotal, transfer`uploadCounters
    modifies webdav.remote`store, webdav.remote`requests, manager`activeUploads, manager`started
    ensures manager.Valid()
    ensures Grown(old(webdav.remote.store), webdav.remote.store, webdav.remote.world)
    ensures if target.Some? then
              && target.value.path != ""
              && manager.Model() == SpoolAfterOpen(old(driver.uploadSlots), account, old(manager.Model()), target.value,
                                                   id, diskOk)
              && driver.uploadSlots == SlotsAfterOpen(old(driver.uploadSlots), account, old(manager.Model()),
                                                      target.value, diskOk)
              && (r.Ok? <==> old(Admits(driver.uploadSlots, account, manager.Model(), target.value, diskOk)))
            else
              r.Err? && manager.Model() == old(manager.Model()) && driver.uploadSlots == old(driver.uploadSlots)
    ensures target.Some? && r.Err? ==>
              r.error == old(if !SlotFree(driver.uploadSlots, account) then TooManyUploads
                             else SpoolFailed(StartError(Machine, manager.Model(), OpenRequest(account, target.value),
                                                         diskOk).value))
    ensures r.Err? ==> manager.started == old(manager.started)
    ensures driver.uploadsTotal == old(driver.uploadsTotal) + if r.Ok? then 1 else 0
    ensures r.Err? ==> forall user :: Tokens(driver.uploadSlots, user) == Tokens(old(driver.uploadSlots), user)
    ensures r.Ok? ==> SlotFree(old(driver.uploadSlots), account)
                      && driver.uploadSlots == TakeSlot(old(driver.uploadSlots), account)
    ensures r.Ok? ==>
              && fresh(r.value) && fresh(r.value.upload)
              && manager.started == old(manager.started)[id := r.value.upload]
              && r.value.Serves(driver, account, manager, transfer, webdav)
              && r.value.New(id, target.value.path) && account.username in transfer.targetConfigs
              && Opened(transfer.targetConfigs[account.username].root, path, stamp,
                        r.value.upload.request.filename, r.value.path)
              && ParentsThere(old(webdav.remote.store), webdav.remote.store, webdav.remote.world, r.value.path)
    ensures r.Ok? && old(Inv(manager.Model())) && manager.maxTotalSize < TWO63 ==> r.value.Sound()
    ensures account.username in transfer.targetConfigs
            && Welcome(transfer.targetConfigs[account.username], account, path, old(webdav.remote.store),
                       webdav.remote.world) ==>
              && target == Some(Target(StorPath(transfer.targetConfigs[account.username].root, path), Base(path)))
              && Unobstructed(webdav.remote.store, webdav.remote.world, target.value.path, account.policy)
  {
    hide Grown, ParentsThere, NameFrom, Welcome, Opened, Unobstructed, SlotsAfterOpen, SpoolAfterOpen, Admits;
    hide UploadWriter.Sound, UploadWriter.New, Spool.Inv, Tokens, SlotFree, TakeSlot;
    var found := FindTarget(account, transfer, path, stamp);
    if found.Err? {
      return Err(found.error), None;
    }
    target := Some(found.value);
    r := AdmitSoundly(driver, account, manager, transfer, webdav, found.value, id, fileID, diskOk);
  }
}
