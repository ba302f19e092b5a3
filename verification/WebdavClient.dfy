/** The WebDAV client of pkg/webdav/client.go against a server that may fail and that serves
    other clients between any two requests. */
module WebdavClient {
  import opened Text
  import opened Results
  import opened Spool
  import opened WebdavPath
  import opened RemoteStore

  datatype Outcome =
    | Stored
    | Unauthorized
    | Forbidden
    | PathNotFound
    | Conflict
    | TooLarge
    | RateLimited
    | Temporary
    | BadPath
    | Transport
    | Aborted
    | Status(code: int)

  // ------------------------------------------------------------ status codes

  // handleUploadResponse
  function UploadOutcome(status: int): Outcome {
    if 200 <= status < 300 then Stored
    else if status == 401 then Unauthorized
    else if status == 403 then Forbidden
    else if status == 404 then PathNotFound
    else if status == 409 || status == 412 then Conflict
    else if status == 413 then TooLarge
    else if status == 429 then RateLimited
    else if status == 500 || status == 502 || status == 503 || status == 504 then Temporary
    else Status(status)
  }

  // CreateDirectory reads 409 and 405 as "already there".
  function MkcolOutcome(status: int): Outcome {
    if 200 <= status < 300 || status == 409 || status == 405 then Stored
    else if status == 401 then Unauthorized
    else if status == 403 then Forbidden
    else if status == 404 then PathNotFound
    else Status(status)
  }

  // CheckPathExistence
  function HeadOutcome(status: int): Result<bool, Outcome> {
    if status == 200 || status == 204 then Ok(true)
    else if status == 404 then Ok(false)
    else if status == 401 then Err(Unauthorized)
    else if status == 403 then Err(Forbidden)
    else Err(Status(status))
  }

  // ------------------------------------------------------------ the server

  // A status a failing server may answer: neither success nor one of the two codes that
  // sections 9.3 and 9.7 of RFC 4918 reserve for the state of the store
  type FaultStatus = n: int | !(200 <= n < 300) && n != 405 && n != 409 witness 500

  // A failing server may still have carried out the request.
  datatype Fault =
    | NoFault
    | Fails(status: FaultStatus, applied: bool)
    | Lost(applied: bool)

  // What happens around one request: what other clients create before it, how it fails, and
  // whether the session is cancelled before a retry
  datatype Turn = Turn(others: seq<Creation>, fault: Fault, cancelled: bool)

  // The store a request leaves behind
  function Settle(before: Store, after: Store, f: Fault): Store {
    match f
    case NoFault => after
    case Fails(_, applied) => if applied then after else before
    case Lost(applied) => if applied then after else before
  }

  // The status the client sees, None when the connection breaks
  function Answer(status: int, f: Fault): Option<int> {
    match f
    case NoFault => Some(status)
    case Fails(code, _) => Some(code)
    case Lost(_) => None
  }

  // A PUT as the client sees it: the store afterwards and the outcome
  function PutTurn(s: Store, key: Key, body: Bytes, overwrite: bool, turn: Turn): (Store, Outcome) {
    var before := CreateAll(s, turn.others);
    var (after, code) := RemoteStore.Put(before, key, body, !overwrite);
    var status := Answer(code, turn.fault);
    (Settle(before, after, turn.fault), if status.None? then Transport else UploadOutcome(status.value))
  }

  function MkcolTurn(s: Store, key: Key, turn: Turn): (Store, Outcome) {
    var before := CreateAll(s, turn.others);
    var (after, code) := RemoteStore.Mkcol(before, key);
    var status := Answer(code, turn.fault);
    (Settle(before, after, turn.fault), if status.None? then Transport else MkcolOutcome(status.value))
  }

  function HeadTurn(s: Store, key: Key, turn: Turn): (Store, Result<bool, Outcome>) {
    var after := CreateAll(s, turn.others);
    var status := Answer(RemoteStore.Head(after, key), turn.fault);
    (after, if status.None? then Err(Transport) else HeadOutcome(status.value))
  }

  // A PUT reported as stored has stored exactly its body. Without overwrite it found nothing
  // at its path, and whatever its outcome it changed no existing resource.
  lemma PutTurnSafe(s: Store, key: Key, body: Bytes, overwrite: bool, turn: Turn)
    ensures var (t, o) := PutTurn(s, key, body, overwrite, turn);
            && (o == Stored ==> key in t && t[key] == File(body) && (overwrite || key !in s))
            && (!overwrite ==> CreateOnly(s, t))
            && (Closed(s) ==> Closed(t))
  {
    CreateAllOnlyCreates(s, turn.others);
    var before := CreateAll(s, turn.others);
    if Closed(s) { PutKeepsClosed(before, key, body, !overwrite); }
  }

  // A PUT changes no existing resource but, with overwrite, the one it goes to.
  lemma PutTurnElsewhere(s: Store, key: Key, body: Bytes, overwrite: bool, turn: Turn, other: Key)
    requires other in s && (overwrite ==> other != key)
    ensures var t := PutTurn(s, key, body, overwrite, turn).0; other in t && t[other] == s[other]
  {
    CreateAllOnlyCreates(s, turn.others);
  }

  // On success the collection is there, provided its parent was: only a missing parent makes
  // the server answer 409, and 405 means that something is there already.
  lemma MkcolTurnSafe(s: Store, key: Key, turn: Turn)
    ensures var (t, o) := MkcolTurn(s, key, turn);
            && CreateOnly(s, t) && (Closed(s) ==> Closed(t))
            && (o == Stored && key != [] && IsCollection(s, Parent(key)) ==> key in t)
  {
    CreateAllOnlyCreates(s, turn.others);
    if Closed(s) { MkcolKeepsClosed(CreateAll(s, turn.others), key); }
  }

  // A server that answers stores the body exactly when the parent is a collection and nothing,
  // or for an overwriting PUT a file, is at the path; it never makes the client retry.
  lemma FaultlessPut(s: Store, key: Key, body: Bytes, overwrite: bool, turn: Turn)
    requires turn.fault == Fault.NoFault
    ensures var (b, o) := (CreateAll(s, turn.others), PutTurn(s, key, body, overwrite, turn).1);
            && (o == Stored <==> key != [] && IsCollection(b, Parent(key))
                                 && (key !in b || (overwrite && b[key].File?)))
            && o != Temporary
  {
  }

  lemma MkcolTurnSpares(s: Store, key: Key, turn: Turn, path: Key)
    requires NoFileOn(s, path) && Spares(turn.others, path)
    ensures NoFileOn(MkcolTurn(s, key, turn).0, path)
  {
    CreateAllSpares(s, turn.others, path);
  }

  // An MKCOL is a creation.
  lemma MkcolTurnCreates(s: Store, key: Key, turn: Turn)
    ensures Created(s, MkcolTurn(s, key, turn).0)
  {
    var before := CreateAll(s, turn.others);
    assert CreateAll(before, [MakeCollection(key)]) == RemoteStore.Mkcol(before, key).0 by {
      assert [MakeCollection(key)][..0] == [];
    }
    CreatedTransitive(s, before, RemoteStore.Mkcol(before, key).0);
  }

  // HEAD reports a resource exactly when the server answers and has it.
  lemma HeadTurnTaken(s: Store, key: Key, turn: Turn)
    ensures var (t, r) := HeadTurn(s, key, turn);
            r == Ok(true) <==> turn.fault == Fault.NoFault && (key == [] || key in t)
  {
  }

  // UploadStream to one resource from the given try on, beginning with request i: the store it
  // leaves, the number of requests served by then, and its outcome
  function Tries(s: Store, key: Key, body: Bytes, overwrite: bool, world: nat -> Turn, i: nat, tries: nat)
    : (Store, nat, Outcome)
    requires 1 <= tries <= 3
    decreases 3 - tries
  {
    if tries > 1 && world(i).cancelled then (s, i, Aborted)
    else
      var (t, o) := PutTurn(s, key, body, overwrite, world(i));
      if o != Temporary || tries == 3 then (t, i + 1, o)
      else Tries(t, key, body, overwrite, world, i + 1, tries + 1)
  }

  function Uploading(s: Store, path: string, body: Bytes, overwrite: bool, world: nat -> Turn, i: nat)
    : (Store, nat, Outcome)
  {
    if KeyOf(path).None? then (s, i, BadPath) else Tries(s, KeyOf(path).value, body, overwrite, world, i, 1)
  }

  // What PutTurnSafe says of one PUT holds of all tries together.
  lemma {:induction false} TriesSafe(s: Store, key: Key, body: Bytes, overwrite: bool, world: nat -> Turn,
                                     i: nat, tries: nat)
    requires 1 <= tries <= 3
    ensures var (t, j, o) := Tries(s, key, body, overwrite, world, i, tries);
            && (o == Stored ==> key in t && t[key] == File(body) && (overwrite || key !in s))
            && (!overwrite ==> CreateOnly(s, t))
            && (Closed(s) ==> Closed(t))
    decreases 3 - tries
  {
    PutTurnSafe(s, key, body, overwrite, world(i));
    var (t, o) := PutTurn(s, key, body, overwrite, world(i));
    if !(tries > 1 && world(i).cancelled) && o == Temporary && tries < 3 {
      TriesSafe(t, key, body, overwrite, world, i + 1, tries + 1);
    }
  }

  // An answered first PUT decides.
  lemma FirstTryDecides(s: Store, key: Key, body: Bytes, overwrite: bool, world: nat -> Turn, i: nat)
    requires world(i).fault == Fault.NoFault
    ensures var (t, o) := PutTurn(s, key, body, overwrite, world(i));
            Tries(s, key, body, overwrite, world, i, 1) == (t, i + 1, o)
  {
    FaultlessPut(s, key, body, overwrite, world(i));
  }

  // What the client makes of the answer to a PUT: of the server's own answers, and of those of a
  // failing one
  lemma PutAnswers(s: Store, key: Key, body: Bytes, overwrite: bool, turn: Turn)
    ensures var (b, o) := (CreateAll(s, turn.others), PutTurn(s, key, body, overwrite, turn).1);
            match turn.fault
            case NoFault =>
              o == if key == [] then Status(405)
                   else if !IsCollection(b, Parent(key)) then Conflict
                   else if key in b && !overwrite then Conflict
                   else if key in b && b[key].Collection? then Status(405)
                   else Stored
            case Fails(code, _) =>
              o == if code == 401 then Unauthorized
                   else if code == 403 then Forbidden
                   else if code == 404 then PathNotFound
                   else if code == 412 then Conflict
                   else if code == 413 then TooLarge
                   else if code == 429 then RateLimited
                   else if code == 500 || code == 502 || code == 503 || code == 504 then Temporary
                   else Status(code)
            case Lost(_) => o == Transport
  {
  }

  // A request is carried out by a server that answers, and by a failing one if the fault says so.
  predicate CarriedOut(turn: Turn) {
    match turn.fault
    case NoFault => true
    case Fails(_, applied) => applied
    case Lost(applied) => applied
  }

  // Whatever the client is told, a PUT that is carried out below an existing collection, with
  // nothing or a file it may overwrite in its place, puts its body there, and others do nothing.
  lemma PutEffect(s: Store, key: Key, body: Bytes, overwrite: bool, turn: Turn)
    ensures var b := CreateAll(s, turn.others);
            PutTurn(s, key, body, overwrite, turn).0
            == if CarriedOut(turn) && key != [] && IsCollection(b, Parent(key))
                  && (key !in b || (overwrite && b[key].File?)) then b[key := File(body)]
               else b
  {
  }

  // The same of an MKCOL: what it does, and what the client makes of the answer
  lemma MkcolAnswers(s: Store, key: Key, turn: Turn)
    ensures var b, (t, o) := CreateAll(s, turn.others), MkcolTurn(s, key, turn);
            && t == (if CarriedOut(turn) && key != [] && key !in b && IsCollection(b, Parent(key))
                     then b[key := Collection] else b)
            && match turn.fault
               case NoFault => o == Stored
               case Fails(code, _) =>
                 o == if code == 401 then Unauthorized
                      else if code == 403 then Forbidden
                      else if code == 404 then PathNotFound
                      else Status(code)
               case Lost(_) => o == Transport
  {
  }

  // A HEAD changes nothing; only an answering server says whether there is a resource, unless a
  // failing one answers 404.
  lemma HeadAnswers(s: Store, key: Key, turn: Turn)
    ensures var (t, r) := HeadTurn(s, key, turn);
            && t == CreateAll(s, turn.others)
            && match turn.fault
               case NoFault => r == Ok(key == [] || key in t)
               case Fails(code, _) =>
                 r == if code == 404 then Ok(false)
                      else Err(if code == 401 then Unauthorized else if code == 403 then Forbidden else Status(code))
               case Lost(_) => r == Err(Transport)
  {
  }

  // The server fails in a way that may pass: 500, 502, 503 or 504.
  predicate MayPass(turn: Turn) {
    turn.fault.Fails? && (turn.fault.status == 500 || turn.fault.status == 502
                          || turn.fault.status == 503 || turn.fault.status == 504)
  }

  // Exactly such an answer is followed by another try, unless it was to the third; cancelled, the
  // session sends no more.
  lemma TriesAgain(s: Store, key: Key, body: Bytes, overwrite: bool, world: nat -> Turn, i: nat, tries: nat)
    requires 1 <= tries <= 3 && (tries > 1 ==> !world(i).cancelled)
    ensures var (t, o) := PutTurn(s, key, body, overwrite, world(i));
            Tries(s, key, body, overwrite, world, i, tries)
            == if !MayPass(world(i)) || tries == 3 then (t, i + 1, o)
               else if world(i + 1).cancelled then (t, i + 1, Aborted)
               else Tries(t, key, body, overwrite, world, i + 1, tries + 1)
    ensures MayPass(world(i)) ==> PutTurn(s, key, body, overwrite, world(i)).1 == Temporary
  {
    PutAnswers(s, key, body, overwrite, world(i));
    hide PutTurn;
  }

  // The number of PUTs of a stream
  function Sends(world: nat -> Turn, i: nat): nat {
    if !MayPass(world(i)) || world(i + 1).cancelled then 1
    else if !MayPass(world(i + 1)) || world(i + 2).cancelled then 2
    else 3
  }

  // A stream sends so many PUTs; it stores if the last of them is answered and finds the parent
  // and nothing in its way, and it gives up as temporary exactly after three that may pass.
  lemma {:induction false} StreamSends(s: Store, path: string, key: Key, body: Bytes, overwrite: bool,
                                       world: nat -> Turn, i: nat)
    requires KeyOf(path) == Some(key)
    ensures var (t, j, o) := Uploading(s, path, body, overwrite, world, i);
            && j == i + Sends(world, i)
            && (o == Temporary <==> Sends(world, i) == 3 && MayPass(world(i + 2)))
            && (o == Aborted <==> MayPass(world(i)) && (world(i + 1).cancelled
                                  || (MayPass(world(i + 1)) && world(i + 2).cancelled)))
  {
    hide KeyOf, PutTurn;
    PutAnswers(s, key, body, overwrite, world(i));
    TriesAgain(s, key, body, overwrite, world, i, 1);
    var t := PutTurn(s, key, body, overwrite, world(i)).0;
    if Sends(world, i) >= 2 {
      PutAnswers(t, key, body, overwrite, world(i + 1));
      TriesAgain(t, key, body, overwrite, world, i + 1, 2);
      var u := PutTurn(t, key, body, overwrite, world(i + 1)).0;
      if Sends(world, i) == 3 {
        PutAnswers(u, key, body, overwrite, world(i + 2));
        TriesAgain(u, key, body, overwrite, world, i + 2, 3);
      }
    }
  }

  // A first PUT that is answered so and not carried out does no harm: the second is sent, and if
  // it is answered and finds the parent and nothing in its way, the stream has stored.
  lemma {:induction false} SecondTryStores(s: Store, path: string, key: Key, body: Bytes, overwrite: bool,
                                           world: nat -> Turn, i: nat)
    requires KeyOf(path) == Some(key) && MayPass(world(i)) && !world(i).fault.applied && !world(i + 1).cancelled
    requires world(i + 1).fault == Fault.NoFault
    ensures var b := CreateAll(CreateAll(s, world(i).others), world(i + 1).others);
            key != [] && IsCollection(b, Parent(key)) && (key !in b || (overwrite && b[key].File?)) ==>
              Uploading(s, path, body, overwrite, world, i) == (b[key := File(body)], i + 2, Stored)
  {
    hide KeyOf, CreateAll;
    TriesAgain(s, key, body, overwrite, world, i, 1);
    var t := PutTurn(s, key, body, overwrite, world(i)).0;
    assert t == CreateAll(s, world(i).others);
    TriesAgain(t, key, body, overwrite, world, i + 1, 2);
  }

  // At most so many PUTs, all of them to key
  predicate SentTo(before: seq<Key>, after: seq<Key>, key: Key, most: nat) {
    && before <= after && |after| <= |before| + most
    && forall i :: |before| <= i < |after| ==> after[i] == key
  }

  predicate Sent(before: seq<Key>, after: seq<Key>, path: string, most: nat) {
    match KeyOf(path)
    case None => after == before
    case Some(key) => SentTo(before, after, key, most)
  }

  class Remote {
    var store: Store
    var requests: nat  // requests served so far
    var log: seq<Key>  // where the PUTs among them went
    const world: nat -> Turn

    constructor (store: Store, world: nat -> Turn)
      ensures this.store == store && this.world == world && requests == 0 && log == []
    {
      this.store, this.world, requests, log := store, world, 0, [];
    }

    // The turn of the next request
    function Next(): Turn
      reads this`requests
    {
      world(requests)
    }

    method Put(key: Key, body: Bytes, ifNoneMatch: bool) returns (status: Option<int>)
      modifies this
      ensures requests == old(requests) + 1 && log == old(log) + [key]
      ensures var s := CreateAll(old(store), old(Next()).others);
              var (t, code) := RemoteStore.Put(s, key, body, ifNoneMatch);
              store == Settle(s, t, old(Next()).fault) && status == Answer(code, old(Next()).fault)
    {
      var turn := world(requests);
      var before := CreateAll(store, turn.others);
      var (after, code) := RemoteStore.Put(before, key, body, ifNoneMatch);
      store, status := Settle(before, after, turn.fault), Answer(code, turn.fault);
      requests, log := requests + 1, log + [key];
    }

    method Mkcol(key: Key) returns (status: Option<int>)
      modifies this`store, this`requests
      ensures requests == old(requests) + 1
      ensures var s := CreateAll(old(store), old(Next()).others);
              var (t, code) := RemoteStore.Mkcol(s, key);
              store == Settle(s, t, old(Next()).fault) && status == Answer(code, old(Next()).fault)
    {
      var turn := world(requests);
      var before := CreateAll(store, turn.others);
      var (after, code) := RemoteStore.Mkcol(before, key);
      store, status := Settle(before, after, turn.fault), Answer(code, turn.fault);
      requests := requests + 1;
    }

    method Head(key: Key) returns (status: Option<int>)
      modifies this`store, this`requests
      ensures requests == old(requests) + 1
      ensures store == CreateAll(old(store), old(Next()).others)
      ensures status == Answer(RemoteStore.Head(store, key), old(Next()).fault)
    {
      var turn := world(requests);
      store := CreateAll(store, turn.others);
      status := Answer(RemoteStore.Head(store, key), turn.fault);
      requests := requests + 1;
    }
  }

  // The spooled file a PUT body is read from
  class SpooledFile {
    const data: Bytes
    var pos: nat

    constructor (data: Bytes)
      ensures this.data == data && pos == 0
    {
      this.data, pos := data, 0;
    }
  }

  // ------------------------------------------------------------ the client

  class Client {
    const remote: Remote

    constructor (remote: Remote)
      ensures this.remote == remote
    {
      this.remote := remote;
    }

    // The key of the URL a request for path goes to
    method Locate(path: string, directory: bool) returns (key: Option<Key>)
      ensures key == KeyOf(path)
    {
      if path == "" {
        return None;
      }
      var normalized := NormalizePath(path);
      if normalized.Err? {
        return None;
      }
      var url := normalized.value;
      if directory && (url == "" || url[|url| - 1] != '/') {
        TrailingSlashSameKey(url);
        url := url + "/";
      }
      key := UrlKey(url);
    }

    // One PUT of size bytes from the current position of the body
    method DoUpload(key: Key, file: SpooledFile, size: nat, overwrite: bool) returns (o: Outcome)
      requires file.pos <= |file.data|
      modifies remote, file`pos
      ensures file.pos <= |file.data|
      ensures var body := if size == 0 then [] else file.data[old(file.pos)..];
              remote.log == old(remote.log) + if |body| == size then [key] else []
      ensures var body := if size == 0 then [] else file.data[old(file.pos)..];
              if |body| == size then
                (remote.store, o) == PutTurn(old(remote.store), key, body, overwrite, old(remote.Next()))
              else o == Transport && remote.store == old(remote.store)
      ensures remote.requests == old(remote.requests) + |remote.log| - |old(remote.log)|
    {
      var body := [];
      if size != 0 {
        body := file.data[file.pos..];
        file.pos := |file.data|;
        if |body| != size {
          return Transport;
        }
      }
      var status := remote.Put(key, body, !overwrite);
      o := if status.None? then Transport else UploadOutcome(status.value);
    }

    // One round of the retry loop: from the second on the body is rewound, unless the session
    // was cancelled meanwhile.
    method PutTry(key: Key, file: SpooledFile, size: nat, overwrite: bool, attempt: nat) returns (o: Outcome)
      requires 1 <= attempt <= 3 && size == |file.data| && (attempt == 1 ==> file.pos == 0)
      modifies remote, file`pos
      ensures SentTo(old(remote.log), remote.log, key, 1)
      ensures remote.requests == old(remote.requests) + |remote.log| - |old(remote.log)|
      ensures o == Temporary ==> |remote.log| == |old(remote.log)| + 1
      ensures Tries(old(remote.store), key, file.data, overwrite, remote.world, old(remote.requests), attempt)
              == if o != Temporary || attempt == 3 then (remote.store, remote.requests, o)
                 else Tries(remote.store, key, file.data, overwrite, remote.world, remote.requests, attempt + 1)
    {
      if attempt > 1 {
        file.pos := 0;
        if remote.Next().cancelled {
          return Aborted;
        }
      }
      assert file.data[0..] == file.data;
      o := DoUpload(key, file, size, overwrite);
    }

    // The retry loop of UploadStream, for one URL
    method PutRetrying(key: Key, file: SpooledFile, size: nat, overwrite: bool) returns (o: Outcome)
      requires file.pos == 0 && size == |file.data|
      modifies remote, file`pos
      ensures SentTo(old(remote.log), remote.log, key, 3)
      ensures o == Temporary ==> |remote.log| == |old(remote.log)| + 3
      ensures (remote.store, remote.requests, o)
              == Tries(old(remote.store), key, file.data, overwrite, remote.world, old(remote.requests), 1)
    {
      o := Transport;
      var attempt := 1;
      ghost var end := Tries(remote.store, key, file.data, overwrite, remote.world, remote.requests, 1);
      while attempt <= 3
        invariant 1 <= attempt <= 4 && (attempt == 1 ==> file.pos == 0)
        invariant |remote.log| == |old(remote.log)| + attempt - 1 && SentTo(old(remote.log), remote.log, key, 3)
        invariant end == if attempt == 4 then (remote.store, remote.requests, o)
                         else Tries(remote.store, key, file.data, overwrite, remote.world, remote.requests, attempt)
      {
        o := PutTry(key, file, size, overwrite, attempt);
        if o != Temporary {
          return;
        }
        attempt := attempt + 1;
      }
    }

    // Only temporary failures are retried, with the body rewound, and only after three of them
    // does the client give up.
    method UploadStream(path: string, file: SpooledFile, size: nat, overwrite: bool) returns (o: Outcome)
      requires file.pos == 0 && size == |file.data|
      modifies remote, file`pos
      ensures (remote.store, remote.requests, o)
              == Uploading(old(remote.store), path, file.data, overwrite, remote.world, old(remote.requests))
      ensures Sent(old(remote.log), remote.log, path, 3)
      ensures o == Temporary ==> |remote.log| == |old(remote.log)| + 3
      ensures KeyOf(path).Some? ==>
                remote.requests == old(remote.requests) + Sends(remote.world, old(remote.requests))
      ensures KeyOf(path).Some? && old(remote.Next()).fault == Fault.NoFault ==>
                (remote.store, o)
                == PutTurn(old(remote.store), KeyOf(path).value, file.data, overwrite, old(remote.Next()))
      ensures Closed(old(remote.store)) ==> Closed(remote.store)
      ensures !overwrite ==> CreateOnly(old(remote.store), remote.store)
      ensures o == Stored ==> match KeyOf(path) {
                case None => false
                case Some(key) =>
                  && key in remote.store && remote.store[key] == File(file.data)
                  && (overwrite || key !in old(remote.store))
              }
    {
      var key := Locate(path, false);
      if key.None? {
        return BadPath;
      }
      StreamSends(remote.store, path, key.value, file.data, overwrite, remote.world, remote.requests);
      TriesSafe(remote.store, key.value, file.data, overwrite, remote.world, remote.requests, 1);
      if remote.Next().fault == Fault.NoFault {
        FirstTryDecides(remote.store, key.value, file.data, overwrite, remote.world, remote.requests);
      }
      o := PutRetrying(key.value, file, size, overwrite);
    }

    method CreateDirectory(path: string) returns (o: Outcome)
      modifies remote`store, remote`requests
      ensures match KeyOf(path) {
                case None =>
                  o == BadPath && remote.store == old(remote.store) && remote.requests == old(remote.requests)
                case Some(key) =>
                  && (remote.store, o) == MkcolTurn(old(remote.store), key, old(remote.Next()))
                  && remote.requests == old(remote.requests) + 1
              }
    {
      var key := Locate(path, true);
      if key.None? {
        return BadPath;
      }
      var status := remote.Mkcol(key.value);
      o := if status.None? then Transport else MkcolOutcome(status.value);
    }

    // Whether an answered HEAD found something
    method Probe(path: string) returns (found: bool)
      modifies remote`store, remote`requests
      ensures match KeyOf(path) {
                case None => !found && remote.store == old(remote.store) && remote.requests == old(remote.requests)
                case Some(key) =>
                  && remote.store == CreateAll(old(remote.store), old(remote.Next()).others)
                  && remote.requests == old(remote.requests) + 1
                  && (found <==> old(remote.Next()).fault == Fault.NoFault && (key == [] || key in remote.store))
              }
    {
      var r := CheckPathExistence(path);
      found := r == Ok(true);
      if KeyOf(path).Some? { HeadTurnTaken(old(remote.store), KeyOf(path).value, old(remote.Next())); }
    }

    method CheckPathExistence(path: string) returns (r: Result<bool, Outcome>)
      modifies remote`store, remote`requests
      ensures match KeyOf(path) {
                case None => r == Err(BadPath) && remote.store == old(remote.store)
                             && remote.requests == old(remote.requests)
                case Some(key) => (remote.store, r) == HeadTurn(old(remote.store), key, old(remote.Next()))
                                  && remote.requests == old(remote.requests) + 1
              }
    {
      var key := Locate(path, false);
      if key.None? {
        return Err(BadPath);
      }
      var status := remote.Head(key.value);
      r := if status.None? then Err(Transport) else HeadOutcome(status.value);
    }
  }
}
