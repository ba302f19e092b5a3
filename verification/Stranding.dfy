/** What stays counted after uploads have ended: Close does not abort an upload whose FinishUpload
    fails, so over every run of the bridge an upload stays active exactly if its Close stranded
    it, and its bytes stay in the counter. */
module Stranding {
  import opened Text
  import opened MapSum
  import opened RemoteStore
  import opened Driver
  import opened Bridge
  import Spool

  // Close of an upload without a write error that is cancelled, or whose file the disk fails
  // to finish
  predicate Strands(s: State, e: Event, id: Spool.Id) {
    && e.Close? && e.id == id && id in s.sessions && id in s.spool.uploads
    && s.sessions[id].phase == Idle && !s.sessions[id].latched
    && (s.spool.uploads[id].cancelled || e.finish != Spool.FinishFault.NoFault)
  }

  predicate Stranded(c: Config, store: Store, es: seq<Event>, id: Spool.Id) {
    es != [] && var before := es[..|es| - 1];
                || Stranded(c, store, before, id)
                || Strands(Run(c, Init(c, store), before), es[|es| - 1], id)
  }

  // Close releases the upload's bytes unless it strands the upload, which then stays active.
  lemma CloseStepLeavesIff(c: Config, s: State, id: Spool.Id, fault: Spool.FinishFault)
    requires Sound(c) && Inv(c, s) && id in s.sessions && s.sessions[id].phase == Idle
    ensures id in s.spool.uploads
    ensures var x, u, t := s.sessions[id], s.spool.uploads[id], CloseStep(s, id, s.sessions[id], fault);
            && (id in t.spool.active <==> !x.latched && (u.cancelled || fault != Spool.FinishFault.NoFault))
            && t.spool.usage == s.spool.usage - (if id in t.spool.active then 0 else u.received)
  {
    InvReady(c, s, id);
    CloseLeavesIff(s.spool, id, s.sessions[id].latched, fault);
  }

  // Only Close ends a live upload.
  lemma LiveUntilClose(c: Config, s: State, id: Spool.Id, x: Session, e: Event)
    requires id in s.sessions && s.sessions[id] == x && x.phase == Idle && !e.Close?
    ensures var t := SessionStep(c, s, id, x, e); id in t.sessions && !Over(t.sessions[id].phase)
  {
    match e
    case Open(_, _, _) =>
    case Start(_, filename, diskOk) =>
    case Register(_) =>
    case Write(_, data) =>
    case WriteEnd(_, taken) =>
    case Disconnect(_) =>
    case EnsureEnd(_, ok) =>
    case PutOne(_, openOk, cancelled, fault) =>
    case Count(_) =>
    case Free(_) =>
    case Others(_) =>
  }

  // How upload id stands, when stranded tells whether a Close has stranded it
  predicate Standing(s: State, id: Spool.Id, stranded: bool) {
    && (id in s.spool.active <==> (id in s.sessions && Live(s.sessions[id].phase)) || stranded)
    && (stranded ==> id in s.sessions && Over(s.sessions[id].phase))
  }

  // now tells whether this step is a Close that strands the upload.
  lemma OwnStands(c: Config, s: State, t: State, id: Spool.Id, stranded: bool, now: bool)
    requires Inv(c, s) && id in s.sessions && Moved(c, s, t, id) && Standing(s, id, stranded) && id in t.sessions
    requires var p, q := s.sessions[id].phase, t.sessions[id].phase;
             if p == Idle && Over(q) then now <==> id in t.spool.active else !now
    ensures Standing(t, id, stranded || now)
  {
    OwnViewDecides(c, s, t, id);
  }

  lemma IdleStep(c: Config, s: State, id: Spool.Id, e: Event)
    requires Sound(c) && Inv(c, s) && !e.Open? && !e.Others? && e.id == id && id in s.sessions
    requires s.sessions[id].phase == Idle
    ensures var t := SessionStep(c, s, id, s.sessions[id], e);
            && id in t.sessions
            && if Over(t.sessions[id].phase) then Strands(s, e, id) <==> id in t.spool.active else !Strands(s, e, id)
  {
    hide PutStep, StartStep, WriteStep, WriteEndStep, AfterFinish, Spool.Apply;
    if e.Close? {
      CloseStepLeavesIff(c, s, id, e.finish);
      StrandingEnds(s, id, e.finish);
    } else {
      LiveUntilClose(c, s, id, s.sessions[id], e);
    }
  }

  lemma StrandingEnds(s: State, id: Spool.Id, fault: Spool.FinishFault)
    requires id in s.sessions && s.sessions[id].phase == Idle
    ensures var t := CloseStep(s, id, s.sessions[id], fault);
            id in t.sessions && (Strands(s, Close(id, fault), id) ==> Over(t.sessions[id].phase))
  {
  }

  lemma {:induction false} OwnStepStands(c: Config, s: State, id: Spool.Id, e: Event, stranded: bool)
    requires Sound(c) && Inv(c, s) && !e.Open? && !e.Others? && e.id == id && id in s.sessions
    requires Standing(s, id, stranded)
    ensures Standing(SessionStep(c, s, id, s.sessions[id], e), id, stranded || Strands(s, e, id))
  {
    SessionStepKeeps(c, s, e);
    var t := SessionStep(c, s, id, s.sessions[id], e);
    OwnViewDecides(c, s, t, id);
    if s.sessions[id].phase == Idle { IdleStep(c, s, id, e); }
    OwnStands(c, s, t, id, stranded, Strands(s, e, id));
  }

  // Unless its Close is over, an upload is active exactly while it is live.
  lemma OwnViewDecides(c: Config, s: State, t: State, id: Spool.Id)
    requires Inv(c, s) && id in s.sessions && Moved(c, s, t, id)
    ensures id in t.sessions
    ensures !Over(t.sessions[id].phase) ==> (id in t.spool.active <==> Live(t.sessions[id].phase))
  {
    assert SessionOk(ViewOf(s.spool, id), s.store, s.sessions[id], NoOverwrite(c));
  }

  lemma OpenStands(c: Config, s: State, e: Event, id: Spool.Id, stranded: bool)
    requires Inv(c, s) && Standing(s, id, stranded) && (e.Open? || e.Others?)
    ensures Standing(Apply(c, s, e), id, stranded)
  {
    assert id !in s.sessions ==> id !in s.spool.uploads;
  }

  lemma OthersStand(c: Config, s: State, t: State, id: Spool.Id, j: Spool.Id, stranded: bool)
    requires id in s.sessions && Moved(c, s, t, id) && j != id && Standing(s, j, stranded)
    ensures Standing(t, j, stranded)
  {
    assert t != s ==> ViewOf(t.spool, j) == ViewOf(s.spool, j);
  }

  lemma {:induction false} StepStands(c: Config, s: State, id: Spool.Id, e: Event, stranded: bool)
    requires Sound(c) && Inv(c, s) && Standing(s, id, stranded)
    ensures Standing(Apply(c, s, e), id, stranded || Strands(s, e, id))
  {
    if e.Open? || e.Others? {
      OpenStands(c, s, e, id, stranded);
    } else if e.id in s.sessions {
      if e.id == id {
        OwnStepStands(c, s, id, e, stranded);
      } else {
        SessionStepKeeps(c, s, e);
        OthersStand(c, s, SessionStep(c, s, e.id, s.sessions[e.id], e), e.id, id, stranded);
      }
    }
  }

  // Over every run an upload is active exactly while its writer is open, and from then on
  // exactly if its Close stranded it.
  lemma {:induction false} ActiveIff(c: Config, store: Store, es: seq<Event>, id: Spool.Id)
    requires Sound(c)
    ensures Standing(Run(c, Init(c, store), es), id, Stranded(c, store, es, id))
  {
    if es != [] {
      var n := |es| - 1;
      ActiveIff(c, store, es[..n], id);
      RunInv(c, store, es[..n]);
      StepStands(c, Run(c, Init(c, store), es[..n]), id, es[n], Stranded(c, store, es[..n], id));
    }
  }

  // Every upload that was opened has been refused or closed.
  ghost predicate AllOver(s: State) {
    forall id :: id in s.sessions ==> s.sessions[id].phase.Done? || s.sessions[id].phase.Refused?
  }

  // The bytes the chunks of the stranded uploads add up to
  function Leftovers(c: Config, store: Store, es: seq<Event>): map<Spool.Id, int> {
    var s := Run(c, Init(c, store), es);
    map id | id in s.spool.uploads ::
      if Stranded(c, store, es, id) && id in s.sessions then |Flatten(s.sessions[id].passed)| else 0
  }

  // Of an upload that is over nothing is in flight, and what is active is accounted for.
  lemma OverFacts(c: Config, s: State)
    requires Sound(c) && Inv(c, s) && AllOver(s)
    ensures s.spool.flight == map[]
    ensures forall id :: id in s.spool.active ==>
              && id in s.sessions && id in s.spool.uploads
              && s.spool.uploads[id].received == |Flatten(s.sessions[id].passed)|
  {
    forall id | id in s.spool.uploads
      ensures id !in s.spool.flight
      ensures id in s.spool.active ==> s.spool.uploads[id].received == |Flatten(s.sessions[id].passed)|
    {
      InvReady(c, s, id);
    }
  }

  lemma {:induction false} ActiveIsStranded(c: Config, store: Store, es: seq<Event>)
    requires Sound(c) && AllOver(Run(c, Init(c, store), es))
    ensures forall id :: id in Run(c, Init(c, store), es).spool.active <==> Stranded(c, store, es, id)
  {
    var s := Run(c, Init(c, store), es);
    forall id ensures id in s.spool.active <==> Stranded(c, store, es, id) {
      ActiveIff(c, store, es, id);
    }
  }

  // When all sessions are over, what is still active is exactly what a Close has stranded, the
  // counter is the number of bytes passed to those uploads, and it is 0 exactly when they
  // were empty.
  lemma {:induction false} LeftBehind(c: Config, store: Store, es: seq<Event>)
    requires Sound(c) && AllOver(Run(c, Init(c, store), es))
    ensures var s := Run(c, Init(c, store), es);
            && (forall id :: id in s.spool.active <==> Stranded(c, store, es, id))
            && s.spool.usage == Sum(Leftovers(c, store, es)) && (s.spool.usage == 0 <==> NothingLeft(s))
  {
    RunInv(c, store, es);
    ActiveIsStranded(c, store, es);
    LeftoversCounted(c, Run(c, Init(c, store), es), Leftovers(c, store, es));
  }

  ghost predicate NothingLeft(s: State) {
    forall id :: id in s.spool.active && id in s.sessions ==> Flatten(s.sessions[id].passed) == []
  }

  lemma LeftoversCounted(c: Config, s: State, left: map<Spool.Id, int>)
    requires Sound(c) && Inv(c, s) && AllOver(s) && left.Keys == s.spool.uploads.Keys
    requires forall id :: id in left ==>
               left[id] == if id in s.spool.active && id in s.sessions then |Flatten(s.sessions[id].passed)| else 0
    ensures s.spool.usage == Sum(left) && (s.spool.usage == 0 <==> NothingLeft(s))
  {
    OverFacts(c, s);
    CountedExactly(s.spool, s.sessions, left);
  }

  lemma CountedExactly(sp: Spool.State, sessions: map<Spool.Id, Session>, left: map<Spool.Id, int>)
    requires Spool.Inv(sp) && sp.flight == map[] && left.Keys == sp.uploads.Keys
    requires forall id :: id in sp.active ==>
               id in sessions && id in sp.uploads && sp.uploads[id].received == |Flatten(sessions[id].passed)|
    requires forall id :: id in left ==>
               left[id] == if id in sp.active && id in sessions then |Flatten(sessions[id].passed)| else 0
    ensures sp.usage == Sum(left)
    ensures sp.usage == 0 <==> forall id :: id in sp.active && id in sessions ==> Flatten(sessions[id].passed) == []
  {
    assert Spool.Weights(sp) == left;
    Spool.QuiescentUsage(sp);
  }

  // ------------------------------------------------------------ a run that leaves a byte behind

  function OpenEvents(id: Spool.Id, user: string, path: string, name: string): seq<Event> {
    [Open(id, user, path), Start(id, name, true), Register(id)]
  }

  function WriteEvents(id: Spool.Id, data: byte): seq<Event> {
    [Write(id, [data]), WriteEnd(id, 1)]
  }

  function LeaveEvents(id: Spool.Id): seq<Event> {
    [Disconnect(id), Close(id, Spool.FinishFault.NoFault), Count(id), Free(id)]
  }

  // One chunk, then the client disconnects before Close
  function DisconnectedRun(id: Spool.Id, user: string, path: string, name: string, data: byte): seq<Event> {
    OpenEvents(id, user, path, name) + WriteEvents(id, data) + LeaveEvents(id)
  }

  lemma RunTwo(c: Config, s: State, a: Event, b: Event)
    ensures Run(c, s, [a, b]) == Apply(c, Apply(c, s, a), b)
  {
    RunLast(c, s, [], a);
    RunLast(c, s, [a], b);
    assert [] + [a] == [a] && [a] + [b] == [a, b];
  }

  lemma RunThree(c: Config, s: State, a: Event, b: Event, d: Event)
    ensures Run(c, s, [a, b, d]) == Apply(c, Apply(c, Apply(c, s, a), b), d)
  {
    RunTwo(c, s, a, b);
    RunLast(c, s, [a, b], d);
    assert [a, b] + [d] == [a, b, d];
  }

  lemma RunFour(c: Config, s: State, a: Event, b: Event, d: Event, e: Event)
    ensures Run(c, s, [a, b, d, e]) == Apply(c, Apply(c, Apply(c, Apply(c, s, a), b), d), e)
  {
    RunThree(c, s, a, b, d);
    RunLast(c, s, [a, b, d], e);
    assert [a, b, d] + [e] == [a, b, d, e];
  }

  // The spool of a bridge with one upload
  function OneSpool(c: Config, id: Spool.Id, u: Spool.Upload): Spool.State {
    Spool.State(c.capacity, u.received, map[id := u], {id}, map[], {}, map[])
  }

  // A bridge with one upload
  function OneUpload(c: Config, store: Store, id: Spool.Id, x: Session, u: Spool.Upload, slots: map<string, nat>,
                     failed: nat): State {
    State.State(OneSpool(c, id, u), store, map[id := x], slots, 1, 0, failed)
  }

  // The account may store a byte under these names.
  predicate MayWrite(c: Config, a: Account, path: string, name: string) {
    && a.username in c.accounts && c.accounts[a.username] == a && 0 < a.maxSize < TWO63
    && a.username != "" && path != "" && name != "" && '.' !in a.username && '.' !in path
    && c.capacity >= 1 && c.chunk >= 1
  }

  function Fresh(a: Account): Spool.Upload {
    Spool.Upload(0, 0, a.maxSize, [], true, false)
  }

  function Filled(a: Account, data: byte): Spool.Upload {
    Spool.Upload(0, 1, a.maxSize, [data], true, false)
  }

  lemma StrandedOpens(c: Config, store: Store, id: Spool.Id, a: Account, path: string, name: string)
    requires Sound(c) && MayWrite(c, a, path, name)
    ensures Run(c, Init(c, store), OpenEvents(id, a.username, path, name))
            == OneUpload(c, store, id, Session(a, path, [], false, Idle), Fresh(a), TakeSlot(map[], a), 0)
  {
    RunThree(c, Init(c, store), Open(id, a.username, path), Start(id, name, true), Register(id));
    NotContained(a.username, "..", '.');
    NotContained(path, "..", '.');
  }

  lemma ByteReserved(c: Config, id: Spool.Id, a: Account, data: byte)
    requires 1 <= c.capacity < TWO63 && 0 < a.maxSize < TWO63
    ensures var sp := OneSpool(c, id, Fresh(a));
            && Spool.ReserveError(Spool.Machine, sp, Fresh(a), 1).None?
            && Spool.Apply(Spool.Machine, sp, Spool.Reserve(id, [data])) == sp.(usage := 1, flight := map[id := [data]])
  {
    Spool.NoWrap(1);
    Spool.NoWrap(a.maxSize);
  }

  lemma ByteWritten(c: Config, id: Spool.Id, a: Account, data: byte)
    ensures var sp := OneSpool(c, id, Fresh(a)).(usage := 1, flight := map[id := [data]]);
            Spool.Apply(Spool.Machine, sp, Spool.Written(id)) == OneSpool(c, id, Filled(a, data))
  {
    Spool.NoWrap(1);
    assert [] + [data] == [data];
  }

  // The bridge between the reservation of the byte and the end of its write
  function Reserving(c: Config, store: Store, id: Spool.Id, x: Session, u: Spool.Upload, slots: map<string, nat>,
                     chunk: Bytes): State {
    OneUpload(c, store, id, x.(passed := [chunk], phase := Writing), u, slots, 0)
      .(spool := OneSpool(c, id, u).(usage := 1, flight := map[id := chunk]))
  }

  lemma ByteTaken(c: Config, store: Store, id: Spool.Id, x: Session, data: byte, slots: map<string, nat>)
    requires Sound(c) && c.capacity >= 1 && c.chunk >= 1 && 0 < x.account.maxSize < TWO63
    requires x.phase == Idle && x.passed == [] && !x.latched
    ensures Apply(c, OneUpload(c, store, id, x, Fresh(x.account), slots, 0), Write(id, [data]))
            == Reserving(c, store, id, x, Fresh(x.account), slots, [data])
  {
    var chunk := [data];
    ByteReserved(c, id, x.account, data);
    assert [] + [chunk] == [chunk];
  }

  lemma StrandedWrites(c: Config, store: Store, id: Spool.Id, x: Session, data: byte, slots: map<string, nat>)
    requires Sound(c) && c.capacity >= 1 && c.chunk >= 1 && 0 < x.account.maxSize < TWO63
    requires x.phase == Idle && x.passed == [] && !x.latched
    ensures Run(c, OneUpload(c, store, id, x, Fresh(x.account), slots, 0), WriteEvents(id, data))
            == OneUpload(c, store, id, x.(passed := [[data]]), Filled(x.account, data), slots, 0)
  {
    RunTwo(c, OneUpload(c, store, id, x, Fresh(x.account), slots, 0), Write(id, [data]), WriteEnd(id, 1));
    ByteTaken(c, store, id, x, data, slots);
    ByteWritten(c, id, x.account, data);
  }

  lemma StrandedEnds(c: Config, store: Store, id: Spool.Id, x: Session, u: Spool.Upload, slots: map<string, nat>)
    requires x.phase == Idle && !x.latched && u.size == 0
    ensures var t := Apply(c, OneUpload(c, store, id, x, u, slots, 0), Disconnect(id));
            Apply(c, t, Close(id, Spool.FinishFault.NoFault))
            == OneUpload(c, store, id, x.(phase := Ending(false, false)), u.(cancelled := true), slots, 0)
  {
    var s, v := OneUpload(c, store, id, x, u, slots, 0), u.(cancelled := true);
    assert s.spool.uploads[id := v] == map[id := v];
    assert Apply(c, s, Disconnect(id)) == OneUpload(c, store, id, x, v, slots, 0);
    assert AfterFinish(OneSpool(c, id, v), id, false, Spool.FinishFault.NoFault) == OneSpool(c, id, v);
  }

  lemma StrandedFrees(c: Config, store: Store, id: Spool.Id, x: Session, u: Spool.Upload, slots: map<string, nat>)
    requires x.phase == Ending(false, false)
    ensures var s := OneUpload(c, store, id, x, u, slots, 0);
            Apply(c, Apply(c, s, Count(id)), Free(id))
            == OneUpload(c, store, id, x.(phase := Done(false)), u, GiveSlot(slots, x.account), 1)
  {
  }

  lemma StrandedCloses(c: Config, store: Store, id: Spool.Id, x: Session, u: Spool.Upload, slots: map<string, nat>)
    requires x.phase == Idle && !x.latched && u.size == 0
    ensures Run(c, OneUpload(c, store, id, x, u, slots, 0), LeaveEvents(id))
            == OneUpload(c, store, id, x.(phase := Done(false)), u.(cancelled := true), GiveSlot(slots, x.account), 1)
  {
    RunFour(c, OneUpload(c, store, id, x, u, slots, 0), Disconnect(id), Close(id, Spool.FinishFault.NoFault), Count(id),
            Free(id));
    StrandedEnds(c, store, id, x, u, slots);
    StrandedFrees(c, store, id, x.(phase := Ending(false, false)), u.(cancelled := true), slots);
  }

  // After this run every session is over and a byte is still counted. The run exists in every
  // configuration with an account that may write a byte.
  lemma StrandedRun(c: Config, store: Store, id: Spool.Id, a: Account, path: string, name: string, data: byte)
    requires Sound(c) && MayWrite(c, a, path, name)
    ensures var s := Run(c, Init(c, store), DisconnectedRun(id, a.username, path, name, data));
            AllOver(s) && s.sessions.Keys == {id} && s.spool.active == {id} && s.spool.usage == 1
  {
    var opens, writes, slots := OpenEvents(id, a.username, path, name), WriteEvents(id, data), TakeSlot(map[], a);
    StrandedOpens(c, store, id, a, path, name);
    RunAppend(c, Init(c, store), opens, writes, opens + writes);
    StrandedWrites(c, store, id, Session(a, path, [], false, Idle), data, slots);
    RunAppend(c, Init(c, store), opens + writes, LeaveEvents(id), opens + writes + LeaveEvents(id));
    StrandedCloses(c, store, id, Session(a, path, [[data]], false, Idle), Filled(a, data), slots);
  }
}
