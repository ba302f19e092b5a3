/** How the classes and the runs of the bridge fit together: what UploadWriter.Write and
    UploadWriter.Close do, some run of the bridge does, and every PUT of a run goes where a commit
    may send it. */
module BridgeRuns {
  import opened Text
  import opened GoPath
  import opened Results
  import opened UniqueName
  import opened WebdavPath
  import opened RemoteStore
  import opened WebdavClient
  import opened Transfer
  import opened Driver
  import opened Bridge
  import Spool

  // ------------------------------------------------------------ the writer's calls as steps

  lemma AcceptedWrite(c: Config, s: State, id: Spool.Id, x: Session, data: Bytes, taken: nat)
    requires id in s.sessions && s.sessions[id] == x && x.phase == Idle && !x.latched
    requires |data| <= c.chunk && taken <= |data|
    requires id in s.spool.uploads && id !in s.spool.flight && id !in s.spool.removed && s.spool.uploads[id].open
    requires Spool.ReserveError(Spool.Machine, s.spool, s.spool.uploads[id], |data|).None?
    ensures var t := Apply(c, Apply(c, s, Write(id, data)), WriteEnd(id, taken));
            && t.spool == Spool.Wrote(Spool.Machine, s.spool, id, data, taken)
            && t.sessions[id] == x.(passed := x.passed + [data], latched := taken != |data|)
            && t == With(s, id, t.sessions[id]).(spool := t.spool)
  {
    var y, sp := x.(passed := x.passed + [data], phase := Writing), Spool.ReserveStep(Spool.Machine, s.spool, id, data);
    var s1 := Apply(c, s, Write(id, data));
    assert s1 == With(s, id, y).(spool := sp);
    var t := WriteEndStep(s1, id, y, taken);
    assert sp.flight[id] == data;
    assert s.sessions[id := y][id := t.sessions[id]] == s.sessions[id := t.sessions[id]];
  }

  lemma UnacceptedWrite(c: Config, s: State, id: Spool.Id, x: Session, data: Bytes, taken: nat)
    requires id in s.sessions && s.sessions[id] == x && x.phase == Idle && |data| <= c.chunk && id in s.spool.uploads
    requires x.latched || Spool.ReserveError(Spool.Machine, s.spool, s.spool.uploads[id], |data|).Some?
    ensures var t := Apply(c, Apply(c, s, Write(id, data)), WriteEnd(id, taken));
            t == With(s, id, x.(passed := x.passed + [data], latched := true))
  {
  }

  // UploadWriter.Write with nothing in between is a Write and a WriteEnd of its session: the
  // spool and the latch end up as the class leaves them.
  lemma WriteRefines(c: Config, s: State, id: Spool.Id, data: Bytes, taken: nat)
    requires Sound(c) && Inv(c, s) && id in s.sessions && s.sessions[id].phase == Idle
    requires |data| <= c.chunk && taken <= |data|
    ensures id in s.spool.uploads
    ensures var x, t := s.sessions[id], Apply(c, Apply(c, s, Write(id, data)), WriteEnd(id, taken));
            t == AfterWriteOf(s, id, x, data, taken)
  {
    var x := s.sessions[id];
    InvReady(c, s, id);
    if x.latched || Spool.ReserveError(Spool.Machine, s.spool, s.spool.uploads[id], |data|).Some? {
      UnacceptedWrite(c, s, id, x, data, taken);
    } else {
      AcceptedWrite(c, s, id, x, data, taken);
    }
  }

  // ------------------------------------------------------------ a Close as a run

  // Some run leads from s to t.
  ghost predicate Leads(c: Config, s: State, t: State) {
    exists es: seq<Event> :: Run(c, s, es) == t
  }

  lemma SelfLeads(c: Config, s: State)
    ensures Leads(c, s, s)
  {
    assert Run(c, s, []) == s;
  }

  lemma LeadsTo(c: Config, s: State, e: Event, t: State)
    requires t == Apply(c, s, e)
    ensures Leads(c, s, t)
  {
    RunLast(c, s, [], e);
    assert [] + [e] == [e];
    assert Run(c, s, [e]) == t;
  }

  lemma LeadsOn(c: Config, s: State, t: State, u: State)
    requires Leads(c, s, t) && Leads(c, t, u)
    ensures Leads(c, s, u)
  {
    var es :| Run(c, s, es) == t;
    var more :| Run(c, t, more) == u;
    RunAppend(c, s, es, more, es + more);
  }

  lemma {:induction false} OthersLead(c: Config, s: State, cs: seq<Creation>)
    ensures Leads(c, s, s.(store := CreateAll(s.store, cs)))
  {
    if cs == [] {
      SelfLeads(c, s);
    } else {
      var n := |cs| - 1;
      OthersLead(c, s, cs[..n]);
      var t := s.(store := CreateAll(s.store, cs[..n]));
      LeadsTo(c, t, Others(cs[n]), s.(store := CreateAll(s.store, cs)));
      LeadsOn(c, s, t, s.(store := CreateAll(s.store, cs)));
    }
  }

  // One PUT and what other clients create before it
  lemma PutLeads(c: Config, s: State, id: Spool.Id, x: Session, key: Key, turn: Turn)
    requires id in s.sessions && s.sessions[id] == x && x.phase.Putting? && id in s.spool.files
    requires KeyOf(x.phase.target) == Some(key)
    ensures var (t, o) := PutTurn(s.store, key, s.spool.files[id], x.account.policy == Overwrite, turn);
            Leads(c, s, AfterPut(s.(store := t), id, x, o))
  {
    hide RenameCandidate;
    var before := s.(store := CreateAll(s.store, turn.others));
    var (t, o) := PutTurn(s.store, key, s.spool.files[id], x.account.policy == Overwrite, turn);
    OthersLead(c, s, turn.others);
    LeadsTo(c, before, PutOne(id, true, false, turn.fault), AfterPut(s.(store := t), id, x, o));
    LeadsOn(c, s, before, AfterPut(s.(store := t), id, x, o));
  }

  // Where the session stands after its last try under one name
  function Tried(x: Session): Session
    requires x.phase.Putting?
  {
    x.(phase := Putting(x.phase.attempt, 3, x.phase.target))
  }

  lemma ConcludeTried(s: State, id: Spool.Id, x: Session, ok: bool)
    requires x.phase.Putting?
    ensures Conclude(s, id, x, ok) == Conclude(s, id, Tried(x), ok)
  {
  }

  lemma NextTried(x: Session, o: Outcome)
    requires x.phase.Putting? && (o != Temporary || x.phase.tries == 3)
    ensures NextTry(x, o) == NextTry(Tried(x), o)
  {
    hide RenameCandidate;
  }

  lemma GoOnTried(s: State, id: Spool.Id, x: Session, next: Option<Phase>)
    requires x.phase.Putting?
    ensures GoOn(s, id, x, next) == GoOn(s, id, Tried(x), next)
  {
    if next.None? { ConcludeTried(s, id, x, false); }
  }

  lemma TriedIsEnough(s: State, id: Spool.Id, x: Session, o: Outcome)
    requires x.phase.Putting? && (o != Temporary || x.phase.tries == 3)
    ensures AfterPut(s, id, x, o) == AfterPut(s, id, Tried(x), o)
  {
    if o == Stored {
      ConcludeTried(s, id, x, true);
      ConcludeTried(s, id, x.(path := x.phase.target), true);
    } else {
      NextTried(x, o);
      GoOnTried(s, id, x, NextTry(x, o));
    }
  }

  // A record of the session that is replaced anyway does not matter.
  lemma WithWith(s: State, id: Spool.Id, x: Session, y: Session)
    ensures With(With(s, id, x), id, y) == With(s, id, y)
  {
    assert s.sessions[id := x][id := y] == s.sessions[id := y];
  }

  lemma ConcludeFrom(s: State, id: Spool.Id, x: Session, y: Session, ok: bool)
    ensures Conclude(With(s, id, x), id, y, ok) == Conclude(s, id, y, ok)
  {
    WithWith(s, id, x, y.(phase := Phase.Ending(ok, ok)));
  }

  lemma GoOnFrom(s: State, id: Spool.Id, x: Session, y: Session, next: Option<Phase>)
    ensures GoOn(With(s, id, x), id, y, next) == GoOn(s, id, y, next)
  {
    match next
    case Some(p) => WithWith(s, id, x, y.(phase := p));
    case None => ConcludeFrom(s, id, x, y, false);
  }

  lemma AfterPutFrom(s: State, id: Spool.Id, x: Session, y: Session, o: Outcome)
    requires y.phase.Putting?
    ensures AfterPut(With(s, id, x), id, y, o) == AfterPut(s, id, y, o)
  {
    if o == Stored {
      ConcludeFrom(s, id, x, if y.phase.attempt > 0 then y.(path := y.phase.target) else y, true);
    } else {
      GoOnFrom(s, id, x, y, NextTry(y, o));
    }
  }

  lemma CancelledLeads(c: Config, s: State, id: Spool.Id, x: Session)
    requires id in s.sessions && s.sessions[id] == x && id in s.spool.files && x.phase.Putting? && x.phase.tries > 1
    ensures Leads(c, s, AfterPut(s, id, Tried(x), Aborted))
  {
    hide RenameCandidate;
    TriedIsEnough(s, id, x, Aborted);
    LeadsTo(c, s, PutOne(id, true, true, Fault.NoFault), AfterPut(s, id, x, Aborted));
  }

  // A PUT that fails temporarily leads to the next try.
  lemma RetryLeads(c: Config, s: State, id: Spool.Id, x: Session, key: Key, turn: Turn, t: Store, y: Session)
    requires id in s.sessions && s.sessions[id] == x && id in s.spool.files && x.phase.Putting? && x.phase.tries < 3
    requires KeyOf(x.phase.target) == Some(key)
    requires (t, Temporary) == PutTurn(s.store, key, s.spool.files[id], x.account.policy == Overwrite, turn)
    requires y == x.(phase := Putting(x.phase.attempt, x.phase.tries + 1, x.phase.target))
    ensures Leads(c, s, With(s.(store := t), id, y))
  {
    hide RenameCandidate;
    PutLeads(c, s, id, x, key, turn);
    assert NextTry(x, Temporary) == Some(y.phase);
  }

  // All tries under one name
  lemma {:induction false} TriesLead(c: Config, s: State, id: Spool.Id, x: Session, key: Key, world: nat -> Turn,
                                     i: nat)
    requires id in s.sessions && s.sessions[id] == x && id in s.spool.files
    requires x.phase.Putting? && 1 <= x.phase.tries <= 3 && KeyOf(x.phase.target) == Some(key)
    ensures var (t, j, o) := Tries(s.store, key, s.spool.files[id], x.account.policy == Overwrite, world, i,
                                   x.phase.tries);
            Leads(c, s, AfterPut(s.(store := t), id, Tried(x), o))
    decreases 3 - x.phase.tries, 1
  {
    hide RenameCandidate;
    if x.phase.tries > 1 && world(i).cancelled {
      CancelledLeads(c, s, id, x);
    } else {
      var (t, o) := PutTurn(s.store, key, s.spool.files[id], x.account.policy == Overwrite, world(i));
      if o != Temporary || x.phase.tries == 3 {
        PutLeads(c, s, id, x, key, world(i));
        TriedIsEnough(s.(store := t), id, x, o);
      } else {
        var y := x.(phase := Putting(x.phase.attempt, x.phase.tries + 1, x.phase.target));
        RetryLeads(c, s, id, x, key, world(i), t, y);
        TriesGoOn(c, s, id, x, key, world, i, t, y);
      }
    }
  }

  lemma {:induction false} TriesGoOn(c: Config, s: State, id: Spool.Id, x: Session, key: Key, world: nat -> Turn,
                                     i: nat, t: Store, y: Session)
    requires id in s.spool.files && x.phase.Putting? && 1 <= x.phase.tries < 3 && KeyOf(x.phase.target) == Some(key)
    requires y == x.(phase := Putting(x.phase.attempt, x.phase.tries + 1, x.phase.target))
    requires Leads(c, s, With(s.(store := t), id, y))
    ensures var (u, j, o) := Tries(t, key, s.spool.files[id], x.account.policy == Overwrite, world, i + 1,
                                   x.phase.tries + 1);
            Leads(c, s, AfterPut(s.(store := u), id, Tried(x), o))
    decreases 3 - x.phase.tries, 0
  {
    var next := With(s.(store := t), id, y);
    TriesLead(c, next, id, y, key, world, i + 1);
    var (u, j, o) := Tries(t, key, s.spool.files[id], x.account.policy == Overwrite, world, i + 1, y.phase.tries);
    AfterPutFrom(s.(store := u), id, y, Tried(x), o);
    LeadsOn(c, s, next, AfterPut(s.(store := u), id, Tried(x), o));
  }

  lemma UploadingLeads(c: Config, s: State, id: Spool.Id, x: Session, world: nat -> Turn, i: nat)
    requires id in s.sessions && s.sessions[id] == x && id in s.spool.files && x.phase.Putting? && x.phase.tries == 1
    ensures var (t, j, o) := Uploading(s.store, x.phase.target, s.spool.files[id], x.account.policy == Overwrite,
                                       world, i);
            Leads(c, s, AfterPut(s.(store := t), id, Tried(x), o))
  {
    hide RenameCandidate, KeyOf;
    if KeyOf(x.phase.target).None? {
      TriedIsEnough(s, id, x, BadPath);
      LeadsTo(c, s, PutOne(id, true, false, Fault.NoFault), AfterPut(s, id, x, BadPath));
    } else {
      TriesLead(c, s, id, x, KeyOf(x.phase.target).value, world, i);
    }
  }

  // Where a commit that ends so leaves the bridge
  function Left(s: State, id: Spool.Id, x: Session, end: CommitEnd): State {
    Conclude(s.(store := end.store), id, x.(path := end.path), end.err.None?)
  }

  lemma LeftFrom(s: State, store: Store, id: Spool.Id, x: Session, y: Session, end: CommitEnd)
    requires y.(phase := x.phase) == x
    ensures Left(With(s.(store := store), id, y), id, y, end) == Left(s, id, x, end)
  {
    ConcludeFrom(s.(store := end.store), id, y, y.(path := end.path), end.err.None?);
  }

  lemma UnopenedLeads(c: Config, s: State, id: Spool.Id, x: Session, i: nat)
    requires id in s.sessions && s.sessions[id] == x && x.phase.Putting? && x.phase.tries == 1
    ensures Leads(c, s, Left(s, id, x, CommitEnd(s.store, i, Some(OpenFailed), x.path)))
  {
    hide RenameCandidate;
    LeadsTo(c, s, PutOne(id, false, false, Fault.NoFault), Conclude(s, id, x, false));
  }

  // A PUT that stores, and one that is the last, end the commit.
  lemma LastPut(s: State, id: Spool.Id, x: Session, t: Store, j: nat, o: Outcome)
    requires x.phase.Putting? && (x.phase.attempt == 0 ==> x.phase.target == x.path)
    requires o == Stored || x.account.policy != Rename || x.phase.attempt >= 2
    ensures var end := CommitEnd(t, j, if o == Stored then None else Some(PutFailed(o)), x.phase.target);
            AfterPut(s.(store := t), id, Tried(x), o) == Left(s, id, x, Recorded(x.path, end))
  {
    if o != Stored { assert NextTry(Tried(x), o).None?; }
  }

  lemma NextIsTried(x: Session, o: Outcome, next: string)
    requires x.phase.Putting? && o != Stored && x.account.policy == Rename && x.phase.attempt < 2
    requires next == RenameCandidate(x.phase.target, x.phase.attempt)
    ensures NextTry(Tried(x), o) == Some(Putting(x.phase.attempt + 1, 1, next))
  {
    hide RenameCandidate;
  }

  lemma NextName(s: State, id: Spool.Id, x: Session, t: Store, o: Outcome, y: Session)
    requires x.phase.Putting? && o != Stored && NextTry(Tried(x), o) == Some(y.phase) && y == x.(phase := y.phase)
    ensures AfterPut(s.(store := t), id, Tried(x), o) == With(s.(store := t), id, y)
  {
  }

  // All names
  lemma {:induction false} NamingLeads(c: Config, s: State, id: Spool.Id, x: Session, world: nat -> Turn, i: nat,
                                       openOk: nat -> bool, end: CommitEnd)
    requires id in s.sessions && s.sessions[id] == x && id in s.spool.files
    requires x.phase.Putting? && x.phase.tries == 1 && x.phase.attempt < 3
    requires x.phase.attempt == 0 ==> x.phase.target == x.path
    requires end == Naming(s.store, world, i, x.account.policy, s.spool.files[id], openOk, x.phase.target,
                           x.phase.attempt)
    ensures Leads(c, s, Left(s, id, x, Recorded(x.path, end)))
    decreases 3 - x.phase.attempt
  {
    hide RenameCandidate, KeyOf, Uploading, Left, AfterPut;
    if !openOk(x.phase.attempt) {
      UnopenedLeads(c, s, id, x, i);
    } else {
      var (t, j, o) := Uploading(s.store, x.phase.target, s.spool.files[id], x.account.policy == Overwrite, world, i);
      UploadingLeads(c, s, id, x, world, i);
      if o != Stored && x.account.policy == Rename && x.phase.attempt < 2 {
        var next := RenameCandidate(x.phase.target, x.phase.attempt);
        var y := x.(phase := Putting(x.phase.attempt + 1, 1, next));
        NextIsTried(x, o, next);
        NextName(s, id, x, t, o, y);
        NamingLeads(c, With(s.(store := t), id, y), id, y, world, j, openOk, end);
        LeftFrom(s, t, id, x, y, Recorded(x.path, end));
        LeadsOn(c, s, With(s.(store := t), id, y), Left(s, id, x, Recorded(x.path, end)));
      } else {
        LastPut(s, id, x, t, j, o);
      }
    }
  }

  // The uploads of a commit, from the first attempt on
  lemma SendingLeads(c: Config, s: State, id: Spool.Id, x: Session, world: nat -> Turn, i: nat, openOk: nat -> bool,
                     first: nat, end: CommitEnd)
    requires id in s.sessions && s.sessions[id] == x && id in s.spool.files && x.phase == Ensuring && first == 0
    requires end == Naming(s.store, world, i, x.account.policy, s.spool.files[id], openOk, x.path, first)
    ensures Leads(c, s, Left(s, id, x, Recorded(x.path, end)))
  {
    var y := x.(phase := Putting(first, 1, x.path));
    var sending := With(s, id, y);
    LeadsTo(c, s, EnsureEnd(id, true), sending);
    NamingLeads(c, sending, id, y, world, i, openOk, end);
    LeftFrom(s, s.store, id, x, y, Recorded(x.path, end));
    LeadsOn(c, s, sending, Left(s, id, x, Recorded(x.path, end)));
  }

  // A commit whose parents may be there
  lemma ParentsLead(c: Config, s: State, id: Spool.Id, x: Session, world: nat -> Turn, i: nat, openOk: nat -> bool,
                    end: CommitEnd)
    requires id in s.sessions && s.sessions[id] == x && id in s.spool.files && x.phase == Ensuring
    requires EndsFrom(s.store, i, world, x.account.policy, s.spool.files[id], openOk, x.path, end)
    ensures Leads(c, s, Left(s, id, x, end))
  {
    if end == CommitEnd(s.store, i, end.err, x.path) && end.err.Some? && end.err.value.ParentsFailed? {
      LeadsTo(c, s, EnsureEnd(id, false), Left(s, id, x, end));
    } else {
      SendingLeads(c, s, id, x, world, i, openOk, 0,
                   Naming(s.store, world, i, x.account.policy, s.spool.files[id], openOk, x.path, 0));
    }
  }

  // A commit that may end so is a run: other clients' creations and its own MKCOLs, then its
  // PUTs with what others create between them.
  lemma {:induction false} CommitLeads(c: Config, s: State, id: Spool.Id, x: Session, world: nat -> Turn,
                                       openOk: nat -> bool, end: CommitEnd)
    requires id in s.sessions && s.sessions[id] == x && id in s.spool.files && x.phase == Ensuring
    requires MayEnd(s.store, world, x.account.policy, s.spool.files[id], openOk, x.path, end)
    ensures Leads(c, s, Left(s, id, x, end))
  {
    var t, i: nat :| Created(s.store, t)
                     && EndsFrom(t, i, world, x.account.policy, s.spool.files[id], openOk, x.path, end);
    var cs :| t == CreateAll(s.store, cs);
    var before := s.(store := t);
    OthersLead(c, s, cs);
    ParentsLead(c, before, id, x, world, i, openOk, end);
    LeadsOn(c, s, before, Left(s, id, x, end));
  }

  // The bridge after the Close of session id
  function AfterCloseOf(s: State, id: Spool.Id, x: Session, fault: Spool.FinishFault, end: CommitEnd, ok: bool): State
    requires id in s.spool.uploads
  {
    s.(spool := AfterClose(s.spool, id, x.latched, fault), store := end.store,
       sessions := s.sessions[id := x.(path := end.path, phase := Done(ok))],
       slots := GiveSlot(s.slots, x.account), success := s.success + One(ok), failed := s.failed + One(!ok))
  }

  lemma AfterCloseFields(s: State, id: Spool.Id, x: Session, fault: Spool.FinishFault, end: CommitEnd, ok: bool)
    requires id in s.spool.uploads
    ensures var t := AfterCloseOf(s, id, x, fault, end, ok);
            && id in t.sessions && t.sessions[id] == x.(path := end.path, phase := Done(ok)) && t.store == end.store
            && t.spool == AfterClose(s.spool, id, x.latched, fault) && t.sessions == s.sessions[id := t.sessions[id]]
            && t.slots == GiveSlot(s.slots, x.account) && t.total == s.total
            && t.success == s.success + One(ok) && t.failed == s.failed + One(!ok)
  {
  }

  // The upload's outcome is counted and its slot given back.
  lemma EndLeads(c: Config, s: State, id: Spool.Id, x: Session, ok: bool)
    requires id in s.sessions && s.sessions[id] == x && x.phase == Phase.Ending(ok, ok)
    ensures Leads(c, s, With(s, id, x.(phase := Done(ok)))
                        .(slots := GiveSlot(s.slots, x.account), success := s.success + One(ok),
                          failed := s.failed + One(!ok)))
  {
    hide PutStep;
    var counted := With(s, id, x.(phase := Counted(ok)))
                   .(success := s.success + One(ok), failed := s.failed + One(!ok));
    var freed := With(s, id, x.(phase := Done(ok)))
                 .(slots := GiveSlot(s.slots, x.account), success := s.success + One(ok),
                   failed := s.failed + One(!ok));
    LeadsTo(c, s, Count(id), counted);
    WithWith(s, id, x.(phase := Counted(ok)), x.(phase := Done(ok)));
    LeadsTo(c, counted, Free(id), freed);
    LeadsOn(c, s, counted, freed);
  }

  // The spool of an idle session: its size is unknown, and its file is what was passed.
  lemma IdleUpload(c: Config, s: State, id: Spool.Id)
    requires Sound(c) && Inv(c, s) && id in s.sessions && s.sessions[id].phase == Idle
    ensures id in s.spool.uploads && id !in s.spool.flight && s.spool.uploads[id].size == 0
    ensures s.spool.uploads[id].open
    ensures !s.sessions[id].latched ==> s.spool.uploads[id].file == Flatten(s.sessions[id].passed)
  {
    InvReady(c, s, id);
  }

  // UploadWriter.Close, which Concluded describes, is a run of the bridge: whatever it does to the
  // store, the path, the spool, the counters and the slots, some steps of its session and
  // creations by others do.
  lemma {:induction false} CloseRuns(c: Config, s: State, id: Spool.Id, fault: Spool.FinishFault, world: nat -> Turn,
                                     openOk: nat -> bool, end: CommitEnd, ok: bool)
    requires Sound(c) && Inv(c, s) && id in s.sessions && s.sessions[id].phase == Idle && id in s.spool.uploads
    requires var x := s.sessions[id];
             Concluded(Finishes(s.spool, id, x.latched, fault), world, x.account.policy, Flatten(x.passed), openOk,
                       x.path, s.store, end, ok)
    ensures Leads(c, s, AfterCloseOf(s, id, s.sessions[id], fault, end, ok))
  {
    var x := s.sessions[id];
    IdleUpload(c, s, id);
    if Finishes(s.spool, id, x.latched, fault) {
      FinishedLeads(c, s, id, x, fault, world, openOk, end);
    } else {
      UnfinishedLeads(c, s, id, x, fault, end);
    }
  }

  lemma UnfinishedLeads(c: Config, s: State, id: Spool.Id, x: Session, fault: Spool.FinishFault, end: CommitEnd)
    requires id in s.sessions && s.sessions[id] == x && x.phase == Idle && id in s.spool.uploads
    requires s.spool.uploads[id].size == 0 && !Finishes(s.spool, id, x.latched, fault)
    requires end.store == s.store && end.path == x.path
    ensures Leads(c, s, AfterCloseOf(s, id, x, fault, end, false))
  {
    hide PutStep;
    var y := x.(phase := Phase.Ending(false, false));
    var closed := With(s, id, y).(spool := AfterFinish(s.spool, id, x.latched, fault));
    LeadsTo(c, s, Close(id, fault), closed);
    EndLeads(c, closed, id, y, false);
    WithWith(s, id, y, x.(phase := Done(false)));
    LeadsOn(c, s, closed, AfterCloseOf(s, id, x, fault, end, false));
  }

  lemma FinishedLeads(c: Config, s: State, id: Spool.Id, x: Session, fault: Spool.FinishFault, world: nat -> Turn,
                      openOk: nat -> bool, end: CommitEnd)
    requires id in s.sessions && s.sessions[id] == x && x.phase == Idle && id in s.spool.uploads
    requires id !in s.spool.flight && s.spool.uploads[id].file == Flatten(x.passed)
    requires Finishes(s.spool, id, x.latched, fault)
    requires MayEnd(s.store, world, x.account.policy, Flatten(x.passed), openOk, x.path, end)
    ensures Leads(c, s, AfterCloseOf(s, id, x, fault, end, end.err.None?))
  {
    hide PutStep;
    var y := x.(phase := Ensuring);
    var closed := With(s, id, y).(spool := AfterFinish(s.spool, id, x.latched, fault));
    LeadsTo(c, s, Close(id, fault), closed);
    Spool.FinishRecorded(s.spool, id, fault);
    CommitLeads(c, closed, id, y, world, openOk, end);
    LeftLeads(c, s, closed, id, x, fault, end);
    LeadsOn(c, closed, Left(closed, id, y, end), AfterCloseOf(s, id, x, fault, end, end.err.None?));
    LeadsOn(c, s, closed, AfterCloseOf(s, id, x, fault, end, end.err.None?));
  }

  // The last two steps of a session whose commit is over
  lemma LeftLeads(c: Config, s: State, closed: State, id: Spool.Id, x: Session, fault: Spool.FinishFault,
                  end: CommitEnd)
    requires id in s.spool.uploads && Finishes(s.spool, id, x.latched, fault)
    requires closed == With(s, id, x.(phase := Ensuring)).(spool := AfterFinish(s.spool, id, x.latched, fault))
    ensures Leads(c, Left(closed, id, x.(phase := Ensuring), end), AfterCloseOf(s, id, x, fault, end, end.err.None?))
  {
    hide PutStep;
    var y, ok := x.(phase := Ensuring), end.err.None?;
    var z := y.(path := end.path, phase := Phase.Ending(ok, ok));
    WithWith(s, id, y, z);
    EndLeads(c, Left(closed, id, y, end), id, z, ok);
    WithWith(s, id, z, z.(phase := Done(ok)));
  }

  // ------------------------------------------------------------ an open and a write as runs

  // The bridge after an open that got this target: refused without a trace when no slot is free
  function AfterOpenOf(s: State, id: Spool.Id, account: Account, target: Target, diskOk: bool): State {
    var sp := SpoolAfterOpen(s.slots, account, s.spool, target, id, diskOk);
    var slots := SlotsAfterOpen(s.slots, account, s.spool, target, diskOk);
    if !SlotFree(s.slots, account) then s
    else if Admits(s.slots, account, s.spool, target, diskOk) then
      With(s, id, Session(account, target.path, [], false, Idle)).(spool := sp, slots := slots, total := s.total + 1)
    else With(s, id, Session(account, target.path, [], false, Refused)).(slots := slots)
  }

  lemma AfterOpenFields(s: State, id: Spool.Id, account: Account, target: Target, diskOk: bool)
    requires id !in s.sessions
    ensures var t, ok := AfterOpenOf(s, id, account, target, diskOk), Admits(s.slots, account, s.spool, target, diskOk);
            && t.spool == SpoolAfterOpen(s.slots, account, s.spool, target, id, diskOk)
            && t.slots == SlotsAfterOpen(s.slots, account, s.spool, target, diskOk)
            && t.store == s.store && t.total == s.total + One(ok) && t.success == s.success && t.failed == s.failed
            && (forall j :: j in s.sessions ==> j in t.sessions && t.sessions[j] == s.sessions[j])
            && (ok ==> id in t.sessions && t.sessions[id] == Session(account, target.path, [], false, Idle))
  {
  }

  lemma CreationsLead(c: Config, s: State, store: Store)
    requires Created(s.store, store)
    ensures Leads(c, s, s.(store := store))
  {
    var cs :| store == CreateAll(s.store, cs);
    OthersLead(c, s, cs);
  }

  // HandleUploadOpen is a run of the bridge: creations, then the first steps of its session
  lemma OpenRuns(c: Config, s: State, id: Spool.Id, account: Account, target: Target, diskOk: bool, store: Store)
    requires Known(c, account) && id !in s.sessions && id !in s.spool.uploads && target.path != ""
    requires Created(s.store, store)
    ensures Leads(c, s, AfterOpenOf(s.(store := store), id, account, target, diskOk))
  {
    CreationsLead(c, s, store);
    AdmissionLeads(c, s.(store := store), id, account, target, diskOk);
    LeadsOn(c, s, s.(store := store), AfterOpenOf(s.(store := store), id, account, target, diskOk));
  }

  lemma AdmissionLeads(c: Config, s: State, id: Spool.Id, account: Account, target: Target, diskOk: bool)
    requires Known(c, account) && id !in s.sessions && id !in s.spool.uploads && target.path != ""
    ensures Leads(c, s, AfterOpenOf(s, id, account, target, diskOk))
  {
    hide PutStep, Spool.StartError;
    if !SlotFree(s.slots, account) {
      SelfLeads(c, s);
    } else {
      var x := Session(account, target.path, [], false, Opening);
      var opening := With(s, id, x).(slots := TakeSlot(s.slots, account));
      LeadsTo(c, s, Open(id, account.username, target.path), opening);
      StartLeads(c, s, opening, id, x, target, diskOk);
      LeadsOn(c, s, opening, AfterOpenOf(s, id, account, target, diskOk));
    }
  }

  lemma StartLeads(c: Config, s: State, opening: State, id: Spool.Id, x: Session, target: Target, diskOk: bool)
    requires x == Session(x.account, target.path, [], false, Opening) && SlotFree(s.slots, x.account)
    requires opening == With(s, id, x).(slots := TakeSlot(s.slots, x.account))
    ensures Leads(c, opening, AfterOpenOf(s, id, x.account, target, diskOk))
  {
    hide PutStep, Spool.StartError;
    if Admits(s.slots, x.account, s.spool, target, diskOk) {
      var y := x.(phase := Started);
      var started := With(s, id, y).(slots := TakeSlot(s.slots, x.account),
                                     spool := SpoolAfterOpen(s.slots, x.account, s.spool, target, id, diskOk));
      WithWith(s, id, x, y);
      LeadsTo(c, opening, Start(id, target.filename, diskOk), started);
      WithWith(s, id, y, y.(phase := Idle));
      LeadsTo(c, started, Register(id), AfterOpenOf(s, id, x.account, target, diskOk));
      LeadsOn(c, opening, started, AfterOpenOf(s, id, x.account, target, diskOk));
    } else {
      WithWith(s, id, x, x.(phase := Refused));
      LeadsTo(c, opening, Start(id, target.filename, diskOk), AfterOpenOf(s, id, x.account, target, diskOk));
    }
  }

  // The bridge after a Write of session id
  function AfterWriteOf(s: State, id: Spool.Id, x: Session, data: Bytes, taken: nat): State
    requires id in s.spool.uploads
  {
    var latched := x.latched || !Spool.WriteOk(Spool.Machine, s.spool, id, data, taken);
    With(s, id, x.(passed := x.passed + [data], latched := latched))
      .(spool := AfterWrite(s.spool, id, x.latched, data, taken))
  }

  lemma WriteRuns(c: Config, s: State, id: Spool.Id, data: Bytes, taken: nat)
    requires Sound(c) && Inv(c, s) && id in s.sessions && s.sessions[id].phase == Idle
    requires |data| <= c.chunk && taken <= |data| && id in s.spool.uploads
    ensures Leads(c, s, AfterWriteOf(s, id, s.sessions[id], data, taken))
  {
    hide WriteStep, WriteEndStep, PutStep, AfterWrite, Spool.WriteOk;
    WriteRefines(c, s, id, data, taken);
    var reserved := Apply(c, s, Write(id, data));
    LeadsTo(c, s, Write(id, data), reserved);
    LeadsTo(c, reserved, WriteEnd(id, taken), AfterWriteOf(s, id, s.sessions[id], data, taken));
    LeadsOn(c, s, reserved, AfterWriteOf(s, id, s.sessions[id], data, taken));
  }

  // ------------------------------------------------------------ where PUTs go

  // What a step makes of a session that is about to send a PUT
  predicate OnCommitPath(x: Session) {
    x.phase.Putting? ==> x.phase.target == CommitPath(x.path, x.phase.attempt)
  }

  lemma NextTarget(x: Session, o: Outcome, p: Phase)
    requires x.phase.Putting? && OnCommitPath(x) && NextTry(x, o) == Some(p)
    ensures OnCommitPath(x.(phase := p))
  {
    CommitPathNext(x.path, x.phase.attempt, x.phase.target, CommitPath(x.path, x.phase.attempt + 1));
  }

  lemma AfterPutTarget(s: State, id: Spool.Id, x: Session, o: Outcome)
    requires x.phase.Putting? && OnCommitPath(x)
    ensures id in AfterPut(s, id, x, o).sessions && OnCommitPath(AfterPut(s, id, x, o).sessions[id])
  {
    if o != Stored && NextTry(x, o).Some? { NextTarget(x, o, NextTry(x, o).value); }
  }

  lemma PutTarget(s: State, id: Spool.Id, x: Session, openOk: bool, cancelled: bool, fault: Fault)
    requires id in s.sessions && s.sessions[id] == x && OnCommitPath(x)
    ensures var t := PutStep(s, id, x, openOk, cancelled, fault); id in t.sessions && OnCommitPath(t.sessions[id])
  {
    if x.phase.Putting? && id in s.spool.files && !(x.phase.tries == 1 && !openOk) {
      if x.phase.tries > 1 && cancelled {
        AfterPutTarget(s, id, x, Aborted);
      } else if KeyOf(x.phase.target).None? {
        AfterPutTarget(s, id, x, BadPath);
      } else {
        var (t, o) := PutTurn(s.store, KeyOf(x.phase.target).value, s.spool.files[id],
                              x.account.policy == Overwrite, Turn([], fault, false));
        AfterPutTarget(s.(store := t), id, x, o);
      }
    }
  }

  // Before the first PUT nothing but the end of the parent check makes a session send one.
  lemma StepPhase(c: Config, s: State, id: Spool.Id, x: Session, e: Event)
    requires id in s.sessions && s.sessions[id] == x && !e.PutOne?
    ensures id in SessionStep(c, s, id, x, e).sessions
    ensures var y := SessionStep(c, s, id, x, e).sessions[id];
            y.phase.Putting? ==> y.path == x.path && (y.phase == x.phase || y.phase == Putting(0, 1, x.path))
  {
    hide KeyOf, RenameCandidate, AfterFinish;
    match e
    case Open(_, _, _) =>
    case Start(_, filename, diskOk) =>
    case Register(_) =>
    case Write(_, data) =>
    case WriteEnd(_, taken) =>
    case Disconnect(_) =>
    case Close(_, fault) =>
    case EnsureEnd(_, ok) =>
    case Count(_) =>
    case Free(_) =>
    case Others(_) =>
  }

  lemma FirstTarget(x: Session, y: Session)
    requires OnCommitPath(x) && y.path == x.path
    requires y.phase.Putting? ==> y.phase == x.phase || y.phase == Putting(0, 1, x.path)
    ensures OnCommitPath(y)
  {
  }

  ghost predicate TargetOk(s: State, id: Spool.Id) {
    id in s.sessions ==> OnCommitPath(s.sessions[id])
  }

  lemma OwnTarget(c: Config, s: State, id: Spool.Id, e: Event)
    requires id in s.sessions && TargetOk(s, id)
    ensures TargetOk(SessionStep(c, s, id, s.sessions[id], e), id)
  {
    hide PutStep, CloseStep, WriteStep, WriteEndStep, Bridge.StartStep, CommitPath;
    var x := s.sessions[id];
    if e.PutOne? {
      PutTarget(s, id, x, e.openOk, e.cancelled, e.fault);
    } else {
      StepPhase(c, s, id, x, e);
      var y := SessionStep(c, s, id, x, e).sessions[id];
      if y.phase.Putting? { FirstTarget(x, y); }
    }
  }

  lemma NewTarget(c: Config, s: State, e: Event, id: Spool.Id)
    requires Sound(c) && Inv(c, s) && id !in s.sessions
    ensures TargetOk(Apply(c, s, e), id)
  {
    hide SessionStep;
    if !e.Open? && !e.Others? && e.id in s.sessions { SessionStepKeeps(c, s, e); }
  }

  lemma {:induction false} TargetStep(c: Config, s: State, e: Event, id: Spool.Id)
    requires Sound(c) && Inv(c, s) && TargetOk(s, id)
    ensures TargetOk(Apply(c, s, e), id)
  {
    if id !in s.sessions {
      NewTarget(c, s, e, id);
    } else if e.Others? || e.id != id {
      OtherSessionStays(c, s, e, id);
    } else if !e.Open? {
      OwnTarget(c, s, id, e);
    }
  }

  // In every reachable state the next PUT of a session is one of the attempts of a commit to
  // its path.
  lemma {:induction false} TargetsRun(c: Config, store: Store, es: seq<Event>, id: Spool.Id)
    requires Sound(c)
    ensures TargetOk(Run(c, Init(c, store), es), id)
  {
    if es != [] {
      var n := |es| - 1;
      TargetsRun(c, store, es[..n], id);
      RunInv(c, store, es[..n]);
      TargetStep(c, Run(c, Init(c, store), es[..n]), es[n], id);
    }
  }

  // In every reachable state the next PUT of an upload opened for a clean absolute FTP path
  // goes below its account's root, whatever names collision handling and the commit gave it.
  lemma {:induction false} PutsBelowRoot(c: Config, store: Store, es: seq<Event>, id: Spool.Id, root: string,
                                         cs: seq<string>, stamp: string, name: string, key: Key)
    requires Sound(c) && id in Run(c, Init(c, store), es).sessions
    requires var x := Run(c, Init(c, store), es).sessions[id];
             && x.phase.Putting? && KeyOf(x.phase.target) == Some(key) && IsBytes(x.path)
             && Opened(root, Render(true, cs), stamp, name, x.path)
    requires CleanAbs(root) && Components(cs) && cs != [] && '/' !in stamp
    ensures Elements(root) <= key
  {
    TargetsRun(c, store, es, id);
    var x := Run(c, Init(c, store), es).sessions[id];
    OpenedKeyBelowRoot(root, cs, stamp, name, x.path, x.phase.attempt, key);
  }
}
