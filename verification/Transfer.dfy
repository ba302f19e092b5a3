/** TransferManager of pkg/transfer/transfer.go: collision handling and directory creation
    against the remote store. */
module Transfer {
  import opened GoPath
  import opened Results
  import opened TargetPath
  import opened UniqueName
  import opened WebdavPath
  import opened RemoteStore
  import opened WebdavClient
  import opened Text

  datatype Policy = Rename | Reject | Overwrite | Unknown

  datatype TargetConfig = TargetConfig(root: string, policy: Policy)

  datatype Target = Target(path: string, filename: string)

  const MAX_UNIQUE_ATTEMPTS := 100

  class TransferManager {
    const client: Client
    const targetConfigs: map<string, TargetConfig>
    var uploadCounters: map<string, nat>

    constructor (client: Client, targetConfigs: map<string, TargetConfig>)
      ensures this.client == client && this.targetConfigs == targetConfigs && uploadCounters == map[]
    {
      this.client, this.targetConfigs, uploadCounters := client, targetConfigs, map[];
    }

    // CalculateTargetPath
    method CalculateTargetPath(user: string, ftpPath: string, filename: string)
      returns (r: Result<string, TransferError>)
      ensures r == if user in targetConfigs then TargetFor(targetConfigs[user].root, ftpPath, filename)
                   else Err(NotFound)
    {
      if user !in targetConfigs {
        return Err(NotFound);
      }
      var root := targetConfigs[user].root;
      var target := root;
      if !RootPath(ftpPath) {
        var normalized := NormalizeFtpPath(ftpPath);
        if normalized.Err? {
          return Err(normalized.error);
        }
        target := JoinPath(target, normalized.value);
      }
      if filename != "" {
        var safe := SanitizeFilename(filename);
        if safe.Err? {
          return Err(safe.error);
        }
        target := JoinPath(target, safe.value);
      }
      r := if ValidTarget(target, root) then Ok(target) else Err(TransferError.PathTraversal);
    }

    // If the last request was answered without a fault, nothing is at path.
    ghost predicate ProbedFree(path: string)
      reads client.remote
    {
      KeyOf(path).Some? ==>
        client.remote.requests > 0
        && (client.remote.world(client.remote.requests - 1).fault == Fault.NoFault ==>
              KeyOf(path).value != [] && KeyOf(path).value !in client.remote.store)
    }

    // A probe that fails counts as "not there": only an answered one reports a collision.
    method CheckCollision(path: string) returns (taken: bool)
      modifies client.remote`store, client.remote`requests
      ensures Grown(old(client.remote.store), client.remote.store, client.remote.world)
      ensures taken <==> Occupied(path, client.remote.store) && old(client.remote.Next()).fault == Fault.NoFault
      ensures !taken ==> ProbedFree(path)
      ensures taken <==> ProbeFinds(old(client.remote.store), client.remote.world, old(client.remote.requests), path)
      ensures (client.remote.store, client.remote.requests)
              == AfterProbe(old(client.remote.store), client.remote.world, old(client.remote.requests), path)
    {
      hide KeyOf;
      OthersGrow(client.remote.store, client.remote.requests, client.remote.world);
      taken := client.Probe(path);
    }

    // The increment made under the lock
    method NextCounter(basePath: string) returns (counter: nat)
      modifies this`uploadCounters
      ensures uploadCounters == Bump(old(uploadCounters), basePath)
      ensures counter == Counter(uploadCounters, basePath)
    {
      counter := ((if basePath in uploadCounters then uploadCounters[basePath] else 0) + 1) % TWO64;
      uploadCounters := uploadCounters[basePath := counter];
    }

    // Where a search stands that began with these counters and this store
    ghost predicate Searching(counters: map<string, nat>, store: Store, basePath: string, filename: string,
                              stamp: string, bumps: nat, candidate: string, taken: bool)
      reads this`uploadCounters, client.remote
    {
      && Grown(store, client.remote.store, client.remote.world)
      && uploadCounters == BumpTimes(counters, basePath, bumps)
      && candidate == Candidate(filename, stamp, bumps, Counter(uploadCounters, basePath))
      && (!taken ==> ProbedFree(JoinPath(basePath, candidate)))
    }

    // The first candidate carries the time stamp, all others the next value of the counter.
    method NextCandidate(basePath: string, filename: string, stamp: string, attempt: nat) returns (candidate: string)
      modifies this`uploadCounters
      ensures uploadCounters == if attempt == 0 then old(uploadCounters) else Bump(old(uploadCounters), basePath)
      ensures candidate == Candidate(filename, stamp, attempt, Counter(uploadCounters, basePath))
    {
      candidate := TimeCandidate(filename, stamp);
      if attempt > 0 {
        var counter := NextCounter(basePath);
        candidate := CounterCandidate(filename, stamp, counter);
      }
    }

    // The candidate of one attempt of the search, and whether it is taken
    method TryCandidate(basePath: string, filename: string, stamp: string, attempt: nat)
      returns (candidate: string, taken: bool)
      modifies this`uploadCounters, client.remote`store, client.remote`requests
      ensures Grown(old(client.remote.store), client.remote.store, client.remote.world)
      ensures uploadCounters == if attempt == 0 then old(uploadCounters) else Bump(old(uploadCounters), basePath)
      ensures candidate == Candidate(filename, stamp, attempt, Counter(uploadCounters, basePath))
      ensures !taken ==> ProbedFree(JoinPath(basePath, candidate))
      ensures taken <==> ProbeFinds(old(client.remote.store), client.remote.world, old(client.remote.requests),
                                    JoinPath(basePath, candidate))
      ensures (client.remote.store, client.remote.requests)
              == AfterProbe(old(client.remote.store), client.remote.world, old(client.remote.requests),
                            JoinPath(basePath, candidate))
    {
      candidate := NextCandidate(basePath, filename, stamp, attempt);
      taken := CheckCollision(JoinPath(basePath, candidate));
    }

    // Where the search for a name stands after n names, all of them found taken, when it began with
    // this counter
    ghost function Rest(basePath: string, filename: string, stamp: string, counter: nat, n: nat, most: nat)
      : (nat, Store, nat)
      requires n <= most
      reads client.remote
    {
      Search(client.remote.store, client.remote.world, client.remote.requests, basePath, filename, stamp, counter, n,
             most)
    }

    // The next attempt of a search: the candidate after so many increments
    method TryNext(ghost counters: map<string, nat>, ghost store: Store, basePath: string, filename: string,
                   stamp: string, bumps: nat, ghost most: nat)
      returns (candidate: string, taken: bool)
      requires Grown(store, client.remote.store, client.remote.world) && bumps + 1 < most
      requires uploadCounters == BumpTimes(counters, basePath, if bumps == 0 then 0 else bumps - 1)
      modifies this`uploadCounters, client.remote`store, client.remote`requests
      ensures Searching(counters, store, basePath, filename, stamp, bumps, candidate, taken)
      ensures candidate == TriedName(filename, stamp, Counter(counters, basePath), bumps + 1)
      ensures old(Rest(basePath, filename, stamp, Counter(counters, basePath), bumps + 1, most))
              == if taken then Rest(basePath, filename, stamp, Counter(counters, basePath), bumps + 2, most)
                 else (bumps + 1, client.remote.store, client.remote.requests)
    {
      hide JoinPath, Grown, KeyOf, TimeCandidate, CounterCandidate, Occupied, ProbeFinds, AfterProbe;
      ghost var before := client.remote.store;
      CandidateIsTried(counters, basePath, filename, stamp, bumps);
      candidate, taken := TryCandidate(basePath, filename, stamp, bumps);
      GrownTransitive(store, before, client.remote.store, client.remote.world);
    }

    // The search over time stamp and counter candidates
    method SearchCandidates(basePath: string, filename: string, stamp: string, attempts: nat)
      returns (found: bool, candidate: string, bumps: nat)
      requires attempts > 0
      modifies this`uploadCounters, client.remote`store, client.remote`requests
      ensures Searching(old(uploadCounters), old(client.remote.store), basePath, filename, stamp, bumps, candidate,
                        !found)
      ensures bumps < attempts && (!found ==> bumps == attempts - 1)
      ensures candidate == TriedName(filename, stamp, Counter(old(uploadCounters), basePath), bumps + 1)
      ensures old(Rest(basePath, filename, stamp, Counter(uploadCounters, basePath), 1, attempts + 1))
              == (if found then bumps + 1 else attempts + 1, client.remote.store, client.remote.requests)
    {
      hide JoinPath, Grown, KeyOf, Candidate, TriedName, BumpTimes, Search, ProbedFree;
      ghost var counters, store, counter := uploadCounters, client.remote.store, Counter(uploadCounters, basePath);
      ghost var end := Rest(basePath, filename, stamp, counter, 1, attempts + 1);
      GrownReflexive(store, client.remote.world);
      NoBumps(counters, basePath);
      var taken;
      candidate, taken := TryNext(counters, store, basePath, filename, stamp, 0, attempts + 1);
      bumps := 0;
      while taken && bumps + 1 < attempts
        invariant bumps < attempts
        invariant Searching(counters, store, basePath, filename, stamp, bumps, candidate, taken)
        invariant candidate == TriedName(filename, stamp, counter, bumps + 1)
        invariant end == if taken then Rest(basePath, filename, stamp, counter, bumps + 2, attempts + 1)
                         else (bumps + 1, client.remote.store, client.remote.requests)
      {
        candidate, taken := TryNext(counters, store, basePath, filename, stamp, bumps + 1, attempts + 1);
        bumps := bumps + 1;
      }
      if taken {
        SearchOver(client.remote.store, client.remote.world, client.remote.requests, basePath, filename, stamp, counter,
                   attempts + 1);
      }
      found := !taken;
    }

    // The answer is the first of the name itself, the name with the time stamp, and the latter
    // with each of the next 99 values of the directory's counter whose probe does not find it
    // taken. In particular a name that an answered probe finds free, or that the probe does not
    // reach, is kept.
    method GenerateUniqueFilename(basePath: string, filename: string, stamp: string)
      returns (r: Result<string, TransferError>, bumps: nat)
      modifies this`uploadCounters, client.remote`store, client.remote`requests
      ensures Grown(old(client.remote.store), client.remote.store, client.remote.world)
      ensures bumps < MAX_UNIQUE_ATTEMPTS && uploadCounters == BumpTimes(old(uploadCounters), basePath, bumps)
      ensures var (n, t, j) := old(Rest(basePath, filename, stamp, Counter(uploadCounters, basePath), 0,
                                        MAX_UNIQUE_ATTEMPTS + 1));
              && (client.remote.store, client.remote.requests) == (t, j)
              && r == (if n <= MAX_UNIQUE_ATTEMPTS then
                         Ok(TriedName(filename, stamp, Counter(old(uploadCounters), basePath), n))
                       else Err(NoFreeName))
      ensures r == Ok(filename) <==>
                !(old(client.remote.Next()).fault == Fault.NoFault
                  && Occupied(JoinPath(basePath, filename), CreateAll(old(client.remote.store),
                                                                      old(client.remote.Next()).others)))
      ensures r == Ok(filename) ==>
                uploadCounters == old(uploadCounters) && client.remote.requests <= old(client.remote.requests) + 1
      ensures r.Ok? && r.value != filename ==>
                r.value == Candidate(filename, stamp, bumps, Counter(uploadCounters, basePath))
      ensures r.Ok? ==> ProbedFree(JoinPath(basePath, r.value))
      ensures r.Err? ==> bumps == MAX_UNIQUE_ATTEMPTS - 1
    {
      hide JoinPath, Grown, KeyOf, Occupied, Candidate;
      var taken := CheckCollision(JoinPath(basePath, filename));
      if !taken {
        return Ok(filename), 0;
      }
      ghost var before := client.remote.store;
      var found, candidate;
      found, candidate, bumps := SearchCandidates(basePath, filename, stamp, MAX_UNIQUE_ATTEMPTS);
      GrownTransitive(old(client.remote.store), before, client.remote.store, client.remote.world);
      CandidateLonger(filename, stamp, bumps, Counter(uploadCounters, basePath));
      r := if found then Ok(candidate) else Err(NoFreeName);
    }

    // Reject refuses exactly what an answered probe finds; rename answers with the name, or one
    // of its candidates, that was probed free; the other policies do not look.
    method ResolveCollision(basePath: string, filename: string, policy: Policy, stamp: string)
      returns (r: Result<string, TransferError>)
      modifies this`uploadCounters, client.remote`store, client.remote`requests
      ensures Grown(old(client.remote.store), client.remote.store, client.remote.world)
      ensures policy == Overwrite ==> r == Ok(filename)
      ensures policy == Reject ==>
                r == if Occupied(JoinPath(basePath, filename), client.remote.store)
                        && old(client.remote.Next()).fault == Fault.NoFault then Err(AlreadyExists) else Ok(filename)
      ensures policy == Rename && r.Ok? ==>
                || r.value == filename || r.value == TimeCandidate(filename, stamp)
                || r.value == CounterCandidate(filename, stamp, Counter(uploadCounters, basePath))
      ensures policy == Rename ==>
                (r == Ok(filename) <==>
                  !(old(client.remote.Next()).fault == Fault.NoFault
                    && Occupied(JoinPath(basePath, filename), CreateAll(old(client.remote.store),
                                                                        old(client.remote.Next()).others))))
      ensures Alone(client.remote.world) ==> client.remote.store == old(client.remote.store)
      ensures policy == Rename && Alone(client.remote.world) ==>
                match r
                case Ok(name) => FirstFree(basePath, filename, stamp, Counter(old(uploadCounters), basePath), name,
                                           client.remote.store)
                case Err(_) => NoneFree(basePath, filename, stamp, Counter(old(uploadCounters), basePath),
                                        MAX_UNIQUE_ATTEMPTS + 1, client.remote.store)
      ensures policy == Rename && r.Err? ==> r.error == NoFreeName
      ensures policy != Rename ==> uploadCounters == old(uploadCounters)
      ensures policy != Overwrite && r.Ok? ==> ProbedFree(JoinPath(basePath, r.value))
      ensures policy == Unknown ==> r == Err(InvalidInput)
    {
      GrownReflexive(client.remote.store, client.remote.world);
      assert Alone(client.remote.world) ==> CreateAll(client.remote.store, client.remote.Next().others)
                                            == client.remote.store;
      match policy
      case Overwrite => r := Ok(filename);
      case Reject =>
        var taken := CheckCollision(JoinPath(basePath, filename));
        r := if taken then Err(AlreadyExists) else Ok(filename);
      case Rename =>
        if Alone(client.remote.world) {
          SearchAlone(client.remote.store, client.remote.world, client.remote.requests, basePath, filename, stamp,
                      Counter(uploadCounters, basePath), 0, MAX_UNIQUE_ATTEMPTS + 1);
        }
        var name, bumps := GenerateUniqueFilename(basePath, filename, stamp);
        r := name;
      case Unknown => r := Err(InvalidInput);
    }

    // ---------------------------------------------------------- directories

    // The MKCOL of a path on the way
    method CreateOne(path: string, ghost way: Key) returns (o: Outcome)
      modifies client.remote`store, client.remote`requests
      ensures Grown(old(client.remote.store), client.remote.store, client.remote.world)
      ensures client.remote.requests >= old(client.remote.requests)
      ensures o == Stored && Chain(path, way) && ClearWay(old(client.remote.store), client.remote.world, way)
              && AllCollections(old(client.remote.store),
                                if Elements(path) == [] then [] else Parent(Elements(path))) ==>
                AllCollections(client.remote.store, Elements(path))
      ensures KeyOf(path).Some? && Faultless(client.remote.world, old(client.remote.requests)) ==> o == Stored
      ensures Chain(path, way) && Alone(client.remote.world) ==>
                OnlyOn(old(client.remote.store), client.remote.store, way)
    {
      hide KeyOf, MkcolTurn, Grown, NoFileOn, AllCollections, Elements;
      ghost var s, i := client.remote.store, client.remote.requests;
      OthersGrow(s, i, client.remote.world);
      if KeyOf(path).Some? {
        MkcolGrows(s, KeyOf(path).value, i, client.remote.world);
        CreateStep(s, path, client.remote.Next(), way);
      }
      o := client.CreateDirectory(path);
    }

    // createParentDirectoriesRecursive: root first, down to path. It ends for every path. For
    // a clean absolute one with nothing in the way, success means that the whole chain of
    // collections is there; a server that answers makes it succeed, and nothing off the way
    // is created.
    method CreateParents(path: string, ghost way: Key) returns (o: Outcome)
      modifies client.remote`store, client.remote`requests
      ensures Grown(old(client.remote.store), client.remote.store, client.remote.world)
      ensures o == Stored && Chain(path, way) && ClearWay(old(client.remote.store), client.remote.world, way) ==>
                AllCollections(client.remote.store, Elements(path))
      ensures client.remote.requests >= old(client.remote.requests)
      ensures Chain(path, way) && KeyOf(path).Some? && Faultless(client.remote.world, old(client.remote.requests)) ==>
                o == Stored
      ensures Chain(path, way) && Alone(client.remote.world) ==>
                OnlyOn(old(client.remote.store), client.remote.store, way)
      decreases |path|
    {
      hide KeyOf, NoFileOn, Elements;
      var parentDir := Dir(path);
      RootChain(client.remote.store);
      if Chain(path, way) { ParentChain(path, way); }
      if parentDir != "." && parentDir != "/" {
        DirShorter(path);
        o := CreateParents(parentDir, way);
        if o != Stored {
          return;
        }
      }
      GrownReflexive(old(client.remote.store), client.remote.world);
      ghost var s := client.remote.store;
      o := CreateOne(path, way);
      GrownTransitive(old(client.remote.store), s, client.remote.store, client.remote.world);
    }

    // On success every ancestor of the target is a collection, exactly when no plain file was
    // in the way; no resource is ever changed or removed. A server that answers makes it
    // succeed for every path a PUT would be sent for, even if the probe failed, and what it creates
    // are ancestors.
    method EnsureParentDirectories(targetPath: string) returns (o: Outcome)
      modifies client.remote`store, client.remote`requests
      ensures Grown(old(client.remote.store), client.remote.store, client.remote.world)
      ensures o == Stored ==>
                ParentsThere(old(client.remote.store), client.remote.store, client.remote.world, targetPath)
      ensures Sendable(targetPath) && Faultless(client.remote.world, old(client.remote.requests) + 1) ==> o == Stored
      ensures Sendable(targetPath) && Alone(client.remote.world) ==>
                OnlyOn(old(client.remote.store), client.remote.store, Elements(Dir(targetPath)))
    {
      ghost var s0 := client.remote.store;
      ghost var turn := client.remote.Next();
      var parentDir := Dir(targetPath);
      ghost var way := Elements(parentDir);
      ghost var chain := Chain(parentDir, way);
      OthersGrow(s0, client.remote.requests, client.remote.world);
      if CleanAbs(targetPath) && targetPath != "/" && IsBytes(targetPath) {
        ParentOfCleanPath(targetPath);
      }
      if parentDir == "." || parentDir == "/" {
        RootChain(s0);
        return Stored;
      }
      if Sendable(targetPath) { ParentAccepted(targetPath); }
      var found := client.CheckPathExistence(parentDir);
      ghost var s1 := client.remote.store;
      if found == Ok(true) {
        if Closed(s0) && chain && Spares(turn.others, way) {
          NormalizedPathDecodes(parentDir);
          FoundHasAncestors(s0, way, turn);
        }
        return Stored;
      }
      o := CreateParents(parentDir, way);
      GrownTransitive(s0, s1, client.remote.store, client.remote.world);
      if Closed(s0) && AllCollections(client.remote.store, way) {
        FileStays(s0, client.remote.store, way);
      }
    }

    // The first half of the pipeline: the target directory, the collision policy, and the target
    // path of the name it settles on
    method SettleTarget(user: string, ftpPath: string, filename: string, stamp: string)
      returns (r: Result<Target, TransferError>)
      modifies this`uploadCounters, client.remote`store, client.remote`requests
      ensures Grown(old(client.remote.store), client.remote.store, client.remote.world)
      ensures r.Ok? ==>
                && user in targetConfigs
                && TargetFor(targetConfigs[user].root, ftpPath, r.value.filename) == Ok(r.value.path)
                && NameFrom(filename, stamp, r.value.filename)
                && (targetConfigs[user].policy != Rename ==> r.value.filename == filename)
      ensures r.Ok? && filename != "" && targetConfigs[user].policy != Overwrite && Alone(client.remote.world) ==>
                FreeAt(targetConfigs[user].root, ftpPath, r.value, client.remote.store)
      ensures user in targetConfigs && Alone(client.remote.world)
              && Kept(targetConfigs[user], ftpPath, filename, old(client.remote.store)) ==>
                && client.remote.store == old(client.remote.store)
                && r == Ok(Target(TargetFor(targetConfigs[user].root, ftpPath, filename).value, filename))
    {
      hide JoinPath, Search, Grown, KeyOf, TargetFor, FirstFree, NoneFree;
      GrownReflexive(client.remote.store, client.remote.world);
      if user !in targetConfigs {
        return Err(NotFound);
      }
      var config := targetConfigs[user];
      var basePath := CalculateTargetPath(user, ftpPath, "");
      if basePath.Err? {
        return Err(basePath.error);
      }
      var finalName := filename;
      if filename != "" {
        var resolved := ResolveCollision(basePath.value, filename, config.policy, stamp);
        if resolved.Err? {
          return Err(resolved.error);
        }
        finalName := resolved.value;
      }
      var finalPath := CalculateTargetPath(user, ftpPath, finalName);
      r := if finalPath.Ok? then Ok(Target(finalPath.value, finalName)) else Err(finalPath.error);
    }

    // The pipeline run when an upload is opened: the target and its parent collections. Whatever
    // name was settled on, the path is the one CalculateTargetPath gives for it.
    method ProcessUpload(user: string, ftpPath: string, filename: string, stamp: string)
      returns (r: Result<Target, TransferError>)
      modifies this`uploadCounters, client.remote`store, client.remote`requests
      ensures Grown(old(client.remote.store), client.remote.store, client.remote.world)
      ensures r.Ok? ==>
                && user in targetConfigs
                && TargetFor(targetConfigs[user].root, ftpPath, r.value.filename) == Ok(r.value.path)
                && NameFrom(filename, stamp, r.value.filename)
                && (targetConfigs[user].policy != Rename ==> r.value.filename == filename)
                && ParentsThere(old(client.remote.store), client.remote.store, client.remote.world, r.value.path)
      ensures r.Ok? && filename != "" && targetConfigs[user].policy != Overwrite && Alone(client.remote.world) ==>
                FreeAt(targetConfigs[user].root, ftpPath, r.value, client.remote.store)
      ensures user in targetConfigs && Alone(client.remote.world)
              && Kept(targetConfigs[user], ftpPath, filename, old(client.remote.store)) ==>
                && r == Ok(Target(TargetFor(targetConfigs[user].root, ftpPath, filename).value, filename))
                && OnlyOn(old(client.remote.store), client.remote.store, Elements(Dir(r.value.path)))
    {
      hide JoinPath, Search, Grown, TargetFor, NameFrom, ParentsThere;
      var settled := SettleTarget(user, ftpPath, filename, stamp);
      if settled.Err? {
        return Err(settled.error);
      }
      var target := settled.value;
      ghost var probed := client.remote.store;
      var o := EnsureParentDirectories(target.path);
      ParentsThereSince(old(client.remote.store), probed, client.remote.store, client.remote.world, target.path);
      GrownTransitive(old(client.remote.store), probed, client.remote.store, client.remote.world);
      r := if o == Stored then Ok(target) else Err(DirectoriesFailed);
      if Sendable(target.path) { NotAnAncestor(target.path); }
      assert Alone(client.remote.world) ==> Faultless(client.remote.world, 0);
    }
  }

  // A name that the store leaves free, or that may be overwritten, and whose target can be sent
  predicate Kept(config: TargetConfig, ftpPath: string, filename: string, store: Store) {
    && filename != "" && config.policy != Unknown && TargetFor(config.root, ftpPath, "").Ok?
    && TargetFor(config.root, ftpPath, filename).Ok? && Sendable(TargetFor(config.root, ftpPath, filename).value)
    && (config.policy == Overwrite
        || !Occupied(JoinPath(TargetFor(config.root, ftpPath, "").value, filename), store))
  }

  // ------------------------------------------------------------ the search for a free name

  // The probe of path, request i, is answered and finds something.
  predicate ProbeFinds(s: Store, world: nat -> Turn, i: nat, path: string) {
    world(i).fault == Fault.NoFault && Occupied(path, CreateAll(s, world(i).others))
  }

  // The store and the requests served after the probe
  function AfterProbe(s: Store, world: nat -> Turn, i: nat, path: string): (Store, nat) {
    if KeyOf(path).None? then (s, i) else (CreateAll(s, world(i).others), i + 1)
  }

  // The n-th name of a search: the name itself, with the time stamp, with the next counter values
  function TriedName(filename: string, stamp: string, counter: nat, n: nat): string {
    if n == 0 then filename else Candidate(filename, stamp, n - 1, (counter + n - 1) % TWO64)
  }

  // The first name from the n-th on, of so many, that its probe does not find taken; the store and
  // the requests served by then
  function Search(s: Store, world: nat -> Turn, i: nat, basePath: string, filename: string, stamp: string,
                  counter: nat, n: nat, most: nat): (nat, Store, nat)
    requires n <= most
    decreases most - n
  {
    if n == most then (n, s, i)
    else
      var path := JoinPath(basePath, TriedName(filename, stamp, counter, n));
      var (t, j) := AfterProbe(s, world, i, path);
      if ProbeFinds(s, world, i, path) then
        Search(t, world, j, basePath, filename, stamp, counter, n + 1, most)
      else (n, t, j)
  }

  lemma SearchOver(s: Store, world: nat -> Turn, i: nat, basePath: string, filename: string, stamp: string,
                   counter: nat, most: nat)
    ensures Search(s, world, i, basePath, filename, stamp, counter, most, most) == (most, s, i)
  {
  }

  // On a server that answers and that nobody else uses, the name found is the first one at which
  // nothing is, and the search changes nothing.
  lemma {:induction false} SearchAlone(s: Store, world: nat -> Turn, i: nat, basePath: string, filename: string,
                                       stamp: string, counter: nat, n: nat, most: nat)
    requires Alone(world) && n <= most
    ensures var (k, t, j) := Search(s, world, i, basePath, filename, stamp, counter, n, most);
            && n <= k <= most && t == s
            && (forall m :: n <= m < k ==> Occupied(JoinPath(basePath, TriedName(filename, stamp, counter, m)), s))
            && (k < most ==> !Occupied(JoinPath(basePath, TriedName(filename, stamp, counter, k)), s))
    decreases most - n
  {
    hide JoinPath, Occupied, KeyOf, TriedName;
    if n < most {
      assert world(i).others == [] && world(i).fault == Fault.NoFault;
      var path := JoinPath(basePath, TriedName(filename, stamp, counter, n));
      var (t, j) := AfterProbe(s, world, i, path);
      assert t == s;
      if ProbeFinds(s, world, i, path) {
        SearchAlone(s, world, j, basePath, filename, stamp, counter, n + 1, most);
      }
    }
  }

  // Something is at each of the first n names.
  ghost predicate NoneFree(basePath: string, filename: string, stamp: string, counter: nat, n: nat, store: Store) {
    forall m :: 0 <= m < n ==> Occupied(JoinPath(basePath, TriedName(filename, stamp, counter, m)), store)
  }

  // name is the first one at which nothing is.
  ghost predicate FirstFree(basePath: string, filename: string, stamp: string, counter: nat, name: string,
                            store: Store) {
    exists n: nat ::
      && n <= MAX_UNIQUE_ATTEMPTS && name == TriedName(filename, stamp, counter, n)
      && NoneFree(basePath, filename, stamp, counter, n, store) && !Occupied(JoinPath(basePath, name), store)
  }

  lemma NoBumps(counters: map<string, nat>, basePath: string)
    ensures BumpTimes(counters, basePath, 0) == counters
  {
  }

  lemma BumpAdds(counters: map<string, nat>, basePath: string)
    ensures Counter(Bump(counters, basePath), basePath) == (Counter(counters, basePath) + 1) % TWO64
  {
  }

  lemma {:induction false} BumpTimesCounts(counters: map<string, nat>, basePath: string, times: nat)
    requires times > 0
    ensures Counter(BumpTimes(counters, basePath, times), basePath) == (Counter(counters, basePath) + times) % TWO64
  {
    hide Bump, Counter;
    var before := BumpTimes(counters, basePath, times - 1);
    assert BumpTimes(counters, basePath, times) == Bump(before, basePath);
    BumpAdds(before, basePath);
    if times == 1 {
      NoBumps(counters, basePath);
    } else {
      BumpTimesCounts(counters, basePath, times - 1);
      var x := Counter(counters, basePath) + times - 1;
      assert (x % TWO64 + 1) % TWO64 == (x + 1) % TWO64;
    }
  }

  // After so many increments the search is at this name.
  lemma CandidateIsTried(counters: map<string, nat>, basePath: string, filename: string, stamp: string, bumps: nat)
    ensures Candidate(filename, stamp, bumps, Counter(BumpTimes(counters, basePath, bumps), basePath))
            == TriedName(filename, stamp, Counter(counters, basePath), bumps + 1)
  {
    if bumps > 0 { BumpTimesCounts(counters, basePath, bumps); }
  }

  lemma CandidateLonger(filename: string, stamp: string, bumps: nat, counter: nat)
    ensures Candidate(filename, stamp, bumps, counter) != filename
  {
    assert |Candidate(filename, stamp, bumps, counter)| > |filename|;
  }

  // name is filename or one of its candidates.
  ghost predicate NameFrom(filename: string, stamp: string, name: string) {
    || name == filename || name == TimeCandidate(filename, stamp)
    || exists counter: nat :: name == CounterCandidate(filename, stamp, counter)
  }

  // Unless sanitizing the name moved the target away from the path that was probed, nothing
  // is at the target.
  predicate FreeAt(root: string, ftpPath: string, target: Target, store: Store) {
    var base := TargetFor(root, ftpPath, "");
    base.Ok? && JoinPath(base.value, target.filename) == target.path && Sendable(target.path) ==>
      KeyOf(target.path).value !in store
  }

  // A path is not the path of one of its own ancestors.
  lemma NotAnAncestor(path: string)
    requires Sendable(path)
    ensures !(KeyOf(path).value <= Elements(Dir(path)))
  {
    ParentOfCleanPath(path);
    NormalizedPathDecodes(path);
  }

  // With all ancestors of a missing resource there and nobody putting files among them, the
  // ancestors of path are collections in t exactly when none was a plain file in s.
  ghost predicate ParentsThere(s: Store, t: Store, world: nat -> Turn, path: string) {
    var parent := Elements(Dir(path));
    CleanAbs(path) && path != "/" && IsBytes(path) && Closed(s) && WorldSpares(world, parent) ==>
      (AllCollections(t, parent) <==> NoFileOn(s, parent))
  }

  lemma ParentsThereSince(s: Store, t: Store, u: Store, world: nat -> Turn, path: string)
    requires Grown(s, t, world)
    ensures ParentsThere(t, u, world, path) ==> ParentsThere(s, u, world, path)
  {
    var parent := Elements(Dir(path));
    if WorldSpares(world, parent) {
      if NoFileOn(s, parent) { assert ClearWay(s, world, parent); }
      if NoFileOn(t, parent) {
        forall i | 0 <= i <= |parent| ensures parent[..i] !in s || s[parent[..i]].Collection? {
          assert parent[..i] !in t || t[parent[..i]].Collection?;
        }
      }
    }
  }

  // There is a resource at path.
  predicate Occupied(path: string, store: Store) {
    KeyOf(path).Some? && (KeyOf(path).value == [] || KeyOf(path).value in store)
  }

  // A failing probe answers "free" whatever is there: a file at /a and a HEAD answered 503.
  lemma FailedProbeAnswersFree(path: string, store: Store)
    requires path == "/a" && store == map[["a"] := File([])]
    ensures Occupied(path, store)
    ensures HeadTurn(store, ["a"], Turn([], Fails(503, false), false)) == (store, Err(Status(503)))
  {
    PlainKey("a", path);
  }

  // With a file at /a an upload to /a/b asks for parents that cannot all be there, whatever the
  // requests leave behind - and on a server that answers the answer is success.
  lemma FileAmongAncestors(path: string, store: Store, world: nat -> Turn, t: Store)
    requires path == "/a/b" && store == map[["a"] := File([])]
    requires forall i: nat :: world(i) == Turn([], Fault.NoFault, false)
    requires ParentsThere(store, t, world, path)
    ensures Closed(store) && Sendable(path) && Faultless(world, 0) && !AllCollections(t, Elements(Dir(path)))
  {
    FileParent(path, "a", "b");
    assert Elements(Dir(path))[..1] == ["a"];
  }

  lemma FileParent(path: string, dir: string, name: string)
    requires dir == "a" && name == "b" && path == "/a/b"
    ensures Sendable(path) && Elements(Dir(path)) == [dir]
  {
    hide Dir, Elements, KeyOf, Clean;
    TwoParts(dir, name, path);
    TwoPartsSent(path);
    ParentOfCleanPath(path);
    assert [dir, name][..1] == [dir];
  }

  lemma TwoParts(dir: string, name: string, path: string)
    requires Component(dir) && Component(name) && path == "/" + dir + "/" + name
    ensures CleanAbs(path) && Elements(path) == [dir, name]
  {
    hide Reduce, Split;
    assert [dir, name][1..] == [name] && Join([name], '/') == name;
    assert Render(true, [dir, name]) == path;
    ElementsRender(true, [dir, name]);
  }

  lemma TwoPartsSent(path: string)
    requires CleanAbs(path) && 2 <= |path| <= 8
    requires forall i :: 0 <= i < |path| ==> Plain(path[i]) || path[i] == '/'
    ensures Sendable(path)
  {
    PlainAccepted(path);
    NormalizedPathDecodes(path);
  }

  // What requests may have done to the store: nothing changed or removed, no ancestor missing,
  // and no plain file put in a way that other clients leave clear
  ghost predicate Grown(s: Store, t: Store, world: nat -> Turn) {
    && Created(s, t) && CreateOnly(s, t) && (Closed(s) ==> Closed(t))
    && forall way :: ClearWay(s, world, way) ==> NoFileOn(t, way)
  }

  lemma GrownReflexive(s: Store, world: nat -> Turn)
    ensures Grown(s, s, world)
  {
    assert CreateAll(s, []) == s;
  }

  lemma GrownTransitive(s: Store, t: Store, u: Store, world: nat -> Turn)
    requires Grown(s, t, world) && Grown(t, u, world)
    ensures Grown(s, u, world)
  {
    CreatedTransitive(s, t, u);
    forall way | ClearWay(s, world, way) ensures NoFileOn(u, way) {
      assert ClearWay(t, world, way);
    }
  }

  // What other clients do before a request
  lemma OthersGrow(s: Store, i: nat, world: nat -> Turn)
    ensures Grown(s, CreateAll(s, world(i).others), world)
    ensures Grown(s, s, world)
  {
    GrownReflexive(s, world);
    CreateAllOnlyCreates(s, world(i).others);
    forall way | ClearWay(s, world, way) ensures NoFileOn(CreateAll(s, world(i).others), way) {
      CreateAllSpares(s, world(i).others, way);
    }
  }

  lemma MkcolGrows(s: Store, key: Key, i: nat, world: nat -> Turn)
    ensures Grown(s, MkcolTurn(s, key, world(i)).0, world)
  {
    MkcolTurnSafe(s, key, world(i));
    MkcolTurnCreates(s, key, world(i));
    forall way | ClearWay(s, world, way) ensures NoFileOn(MkcolTurn(s, key, world(i)).0, way) {
      MkcolTurnSpares(s, key, world(i), way);
    }
  }

  // What HEAD finds on a prefix-closed store has all its ancestors.
  lemma FoundHasAncestors(s: Store, way: Key, turn: Turn)
    requires Closed(s) && Spares(turn.others, way) && HeadTurn(s, way, turn).1 == Ok(true)
    ensures AllCollections(HeadTurn(s, way, turn).0, way) <==> NoFileOn(s, way)
  {
    var t := HeadTurn(s, way, turn).0;
    CreateAllOnlyCreates(s, turn.others);
    if NoFileOn(s, way) {
      CreateAllSpares(s, turn.others, way);
      ExistingHasAncestors(t, way);
    }
    if AllCollections(t, way) {
      FileStays(s, t, way);
    }
  }

  // No other client puts a plain file on the way, and none is there.
  ghost predicate ClearWay(s: Store, world: nat -> Turn, way: Key) {
    NoFileOn(s, way) && WorldSpares(world, way)
  }

  ghost predicate WorldSpares(world: nat -> Turn, way: Key) {
    forall i: nat :: Spares(world(i).others, way)
  }

  // The server answers every request from the i-th on.
  ghost predicate Faultless(world: nat -> Turn, i: nat) {
    forall j: nat :: i <= j ==> world(j).fault == Fault.NoFault
  }

  // It does, and nobody else uses the store.
  ghost predicate Alone(world: nat -> Turn) {
    forall i: nat :: world(i).fault == Fault.NoFault && world(i).others == []
  }

  // t holds nothing new off the way.
  ghost predicate OnlyOn(s: Store, t: Store, way: Key) {
    forall k :: k in t && k !in s ==> k <= way
  }

  // A clean absolute path the client accepts, other than the root
  predicate Sendable(path: string) {
    CleanAbs(path) && path != "/" && IsBytes(path) && KeyOf(path).Some?
  }

  // path is a clean absolute path on the way
  predicate Chain(path: string, way: Key) {
    CleanAbs(path) && IsBytes(path) && Elements(path) <= way
  }

  lemma ParentChain(path: string, way: Key)
    requires Chain(path, way)
    ensures Dir(path) != "."
    ensures Dir(path) == "/" ==> |Elements(path)| <= 1
    ensures Dir(path) != "/" ==>
              Elements(path) != [] && Chain(Dir(path), way) && Elements(Dir(path)) == Parent(Elements(path))
    ensures Dir(path) != "/" && KeyOf(path).Some? ==> KeyOf(Dir(path)).Some?
  {
    NoComponents();
    if path == "/" {
      assert path[..1] == path;
    } else {
      ParentOfCleanPath(path);
      if Dir(path) != "/" && KeyOf(path).Some? { ParentAccepted(path); }
    }
  }

  // One MKCOL of the chain
  lemma CreateStep(s: Store, path: string, turn: Turn, way: Key)
    requires KeyOf(path).Some?
    ensures var (t, o) := MkcolTurn(s, KeyOf(path).value, turn);
            && CreateOnly(s, t) && (Closed(s) ==> Closed(t))
            && (NoFileOn(s, way) && Spares(turn.others, way) ==> NoFileOn(t, way))
            && (turn.fault == Fault.NoFault ==> o == Stored)
            && (Chain(path, way) && turn.others == [] ==> OnlyOn(s, t, way))
            && (Chain(path, way) && o == Stored && NoFileOn(s, way) && Spares(turn.others, way)
                && AllCollections(s, if Elements(path) == [] then [] else Parent(Elements(path))) ==>
                  AllCollections(t, Elements(path)))
  {
    var key := KeyOf(path).value;
    MkcolTurnSafe(s, key, turn);
    if NoFileOn(s, way) && Spares(turn.others, way) { MkcolTurnSpares(s, key, turn, way); }
    if Chain(path, way) {
      NormalizedPathDecodes(path);
      if AllCollections(s, if key == [] then [] else Parent(key)) && NoFileOn(s, way) && Spares(turn.others, way) {
        CreatedBelow(s, key, turn, way);
      }
    }
  }

  // One MKCOL below existing collections
  lemma CreatedBelow(s: Store, key: Key, turn: Turn, way: Key)
    requires key <= way && AllCollections(s, if key == [] then [] else Parent(key))
    requires NoFileOn(s, way) && Spares(turn.others, way)
    ensures MkcolTurn(s, key, turn).1 == Stored ==> AllCollections(MkcolTurn(s, key, turn).0, key)
  {
    var (t, o) := MkcolTurn(s, key, turn);
    MkcolTurnSafe(s, key, turn);
    MkcolTurnSpares(s, key, turn, way);
    if key != [] && o == Stored {
      var n := |key| - 1;
      assert Parent(key)[..n] == Parent(key);
      assert IsCollection(s, Parent(key));
      forall i | 0 <= i <= |key| ensures IsCollection(t, key[..i]) {
        if i <= n {
          assert Parent(key)[..i] == key[..i];
          assert IsCollection(s, key[..i]);
        } else {
          assert key[..i] == key == way[..|key|];
        }
      }
    }
  }

  lemma RootChain(s: Store)
    ensures AllCollections(s, []) && (Closed(s) ==> NoFileOn(s, []))
    ensures Elements("/") == []
  {
    NoComponents();
  }

  // A plain file in the way stays in the way.
  lemma FileStays(s: Store, t: Store, way: Key)
    requires CreateOnly(s, t) && Closed(s) && AllCollections(t, way)
    ensures NoFileOn(s, way)
  {
    forall i | 0 <= i <= |way| ensures way[..i] !in s || s[way[..i]].Collection? {
      assert IsCollection(t, way[..i]);
    }
  }
}
