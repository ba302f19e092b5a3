/** The whole upload path as one state machine: any number of FTP uploads, each with its open,
    write, close and commit steps, over one spool manager, one set of upload slots and counters
    and one remote store that other clients use as well. Steps of one upload are sequential,
    steps of different uploads interleave freely. An event that its upload is not in a position
    to take changes nothing, so every sequence of events is a run. */
module Bridge {
  import opened Text
  import opened Results
  import opened Spool
  import opened UniqueName
  import opened WebdavPath
  import opened RemoteStore
  import opened WebdavClient
  import opened Transfer
  import opened Driver

  // ------------------------------------------------------------ state

  // chunk bounds the length of the chunks FTP hands to Write.
  datatype Config = Config(capacity: int, chunk: int, accounts: map<string, Account>)

  predicate Sound(c: Config) {
    && 0 <= c.capacity && 0 <= c.chunk && c.capacity + c.chunk < TWO63
    && forall user :: user in c.accounts ==>
         c.accounts[user].username == user && 0 <= c.accounts[user].maxSize < TWO64
  }

  predicate NoOverwrite(c: Config) {
    forall user :: user in c.accounts ==> c.accounts[user].policy != Overwrite
  }

  datatype Phase =
    | Opening                                            // the slot is taken
    | Started                                            // the spool upload exists
    | Idle                                               // the writer is open
    | Writing                                            // a chunk is reserved, the file write outstanding
    | Ensuring                                           // finished, creating the parents
    | Putting(attempt: nat, tries: nat, target: string)  // about to send a PUT
    | Ending(nil: bool, stored: bool)                    // Close will return nil, the upload counts as success
    | Counted(nil: bool)                                 // the outcome is counted, the slot still taken
    | Done(nil: bool)                                    // Close has returned
    | Refused                                            // handleUploadOpen has returned an error

  datatype Session = Session(account: Account, path: string, passed: seq<Bytes>, latched: bool, phase: Phase)

  datatype State = State(
    spool: Spool.State,
    store: Store,
    sessions: map<Id, Session>,
    slots: map<string, nat>,
    total: nat, success: nat, failed: nat)

  function Init(c: Config, store: Store): State {
    State.State(Spool.Init(c.capacity), store, map[], map[], 0, 0, 0)
  }

  datatype Event =
    | Open(id: Id, user: string, path: string)
    | Start(id: Id, filename: string, diskOk: bool)
    | Register(id: Id)
    | Write(id: Id, data: Bytes)
    | WriteEnd(id: Id, taken: nat)
    | Disconnect(id: Id)
    | Close(id: Id, finish: FinishFault)
    | EnsureEnd(id: Id, ok: bool)
    | PutOne(id: Id, openOk: bool, cancelled: bool, fault: Fault)
    | Count(id: Id)
    | Free(id: Id)
    | Others(creation: Creation)  // another client, or the MKCOL of a session

  // ------------------------------------------------------------ steps

  function With(s: State, id: Id, x: Session): State {
    s.(sessions := s.sessions[id := x])
  }

  function OpenStep(c: Config, s: State, id: Id, user: string, path: string): State {
    if id in s.sessions || user !in c.accounts || path == "" || !SlotFree(s.slots, c.accounts[user]) then s
    else With(s, id, Session(c.accounts[user], path, [], false, Opening))
         .(slots := TakeSlot(s.slots, c.accounts[user]))
  }

  function StartStep(s: State, id: Id, x: Session, filename: string, diskOk: bool): State {
    if x.phase != Opening then s
    else
      // The size of an FTP upload is unknown.
      var r := Request(x.account.username, filename, x.path, -1, x.account.maxSize);
      if Spool.StartError(Machine, s.spool, r, diskOk).Some? then
        With(s, id, x.(phase := Refused)).(slots := GiveSlot(s.slots, x.account))
      else
        With(s, id, x.(phase := Started)).(spool := Spool.Apply(Machine, s.spool, Spool.Start(id, r, diskOk)))
  }

  function WriteStep(c: Config, s: State, id: Id, x: Session, data: Bytes): State {
    if x.phase != Idle || |data| > c.chunk || id !in s.spool.uploads then s
    else
      var y := x.(passed := x.passed + [data]);
      if x.latched then With(s, id, y)
      else if Spool.ReserveError(Machine, s.spool, s.spool.uploads[id], |data|).Some? then
        With(s, id, y.(latched := true))
      else With(s, id, y.(phase := Writing)).(spool := Spool.Apply(Machine, s.spool, Spool.Reserve(id, data)))
  }

  function WriteEndStep(s: State, id: Id, x: Session, taken: nat): State {
    if x.phase != Writing || id !in s.spool.flight || taken > |s.spool.flight[id]| then s
    else if taken == |s.spool.flight[id]| then
      With(s, id, x.(phase := Idle)).(spool := Spool.Apply(Machine, s.spool, Spool.Written(id)))
    else
      With(s, id, x.(phase := Idle, latched := true))
        .(spool := Spool.Apply(Machine, s.spool, Spool.WriteFailed(id, taken)))
  }

  function CloseStep(s: State, id: Id, x: Session, fault: FinishFault): State {
    if x.phase != Idle || id !in s.spool.uploads then s
    else
      var u := s.spool.uploads[id];
      // The incomplete branch returns AbortUpload's nil.
      var incomplete := !x.latched && u.size > 0 && u.received != u.size;
      var next := if Finishes(s.spool, id, x.latched, fault) then Ensuring else Ending(incomplete, false);
      With(s, id, x.(phase := next)).(spool := AfterFinish(s.spool, id, x.latched, fault))
  }

  // The end of a commit: the spooled file is dropped.
  function Conclude(s: State, id: Id, x: Session, ok: bool): State {
    With(s, id, x.(phase := Ending(ok, ok))).(spool := Spool.Apply(Machine, s.spool, Spool.Delete(id)))
  }

  function EnsureEndStep(s: State, id: Id, x: Session, ok: bool): State {
    if x.phase != Ensuring then s
    else if ok then With(s, id, x.(phase := Putting(0, 1, x.path)))
    else Conclude(s, id, x, false)
  }

  // What follows a PUT that was not stored: the retry of UploadStream, then the rename of
  // commitToWebDAV, then nothing
  function NextTry(x: Session, o: Outcome): Option<Phase>
    requires x.phase.Putting?
  {
    var (attempt, tries, target) := (x.phase.attempt, x.phase.tries, x.phase.target);
    if o == Temporary && tries < 3 then Some(Putting(attempt, tries + 1, target))
    else if x.account.policy == Rename && attempt < 2 then
      Some(Putting(attempt + 1, 1, RenameCandidate(target, attempt)))
    else None
  }

  function GoOn(s: State, id: Id, x: Session, next: Option<Phase>): State {
    match next
    case Some(p) => With(s, id, x.(phase := p))
    case None => Conclude(s, id, x, false)
  }

  function AfterPut(s: State, id: Id, x: Session, o: Outcome): State
    requires x.phase.Putting?
  {
    if o == Stored then Conclude(s, id, if x.phase.attempt > 0 then x.(path := x.phase.target) else x, true)
    else GoOn(s, id, x, NextTry(x, o))
  }

  function PutStep(s: State, id: Id, x: Session, openOk: bool, cancelled: bool, fault: Fault): State {
    if !x.phase.Putting? then s
    else if x.phase.tries == 1 && (!openOk || id !in s.spool.files) then Conclude(s, id, x, false)
    else if id !in s.spool.files then s
    else if x.phase.tries > 1 && cancelled then AfterPut(s, id, x, Aborted)
    else if KeyOf(x.phase.target).None? then AfterPut(s, id, x, BadPath)
    else
      var (t, o) := PutTurn(s.store, KeyOf(x.phase.target).value, s.spool.files[id],
                            x.account.policy == Overwrite, Turn([], fault, false));
      AfterPut(s.(store := t), id, x, o)
  }

  function CountStep(s: State, id: Id, x: Session): State {
    if !x.phase.Ending? then s
    else if x.phase.stored then With(s, id, x.(phase := Counted(x.phase.nil))).(success := s.success + 1)
    else With(s, id, x.(phase := Counted(x.phase.nil))).(failed := s.failed + 1)
  }

  function FreeStep(s: State, id: Id, x: Session): State {
    if !x.phase.Counted? then s
    else With(s, id, x.(phase := Done(x.phase.nil))).(slots := GiveSlot(s.slots, x.account))
  }

  function RegisterStep(s: State, id: Id, x: Session): State {
    if x.phase != Started then s else With(s, id, x.(phase := Idle)).(total := s.total + 1)
  }

  function SessionStep(c: Config, s: State, id: Id, x: Session, e: Event): State {
    match e
    case Open(_, _, _) => s
    case Start(_, filename, diskOk) => StartStep(s, id, x, filename, diskOk)
    case Register(_) => RegisterStep(s, id, x)
    case Write(_, data) => WriteStep(c, s, id, x, data)
    case WriteEnd(_, taken) => WriteEndStep(s, id, x, taken)
    case Disconnect(_) => s.(spool := Spool.Apply(Machine, s.spool, Spool.Cancel(id)))
    case Close(_, fault) => CloseStep(s, id, x, fault)
    case EnsureEnd(_, ok) => EnsureEndStep(s, id, x, ok)
    case PutOne(_, openOk, cancelled, fault) => PutStep(s, id, x, openOk, cancelled, fault)
    case Count(_) => CountStep(s, id, x)
    case Free(_) => FreeStep(s, id, x)
    case Others(_) => s
  }

  function Apply(c: Config, s: State, e: Event): State {
    match e
    case Open(id, user, path) => OpenStep(c, s, id, user, path)
    case Others(creation) => s.(store := Create(s.store, creation))
    case _ => if e.id in s.sessions then SessionStep(c, s, e.id, s.sessions[e.id], e) else s
  }

  function Run(c: Config, s: State, es: seq<Event>): State {
    if es == [] then s else Apply(c, Run(c, s, es[..|es| - 1]), es[|es| - 1])
  }

  lemma RunLast(c: Config, s: State, es: seq<Event>, e: Event)
    ensures Run(c, s, es + [e]) == Apply(c, Run(c, s, es), e)
  {
    assert (es + [e])[..|es|] == es;
  }

  lemma {:induction false} RunAppend(c: Config, s: State, es: seq<Event>, more: seq<Event>, whole: seq<Event>)
    requires whole == es + more
    ensures Run(c, s, whole) == Run(c, Run(c, s, es), more)
  {
    hide Apply;
    if more == [] {
      assert whole == es;
    } else {
      var n, before := |more| - 1, whole[..|whole| - 1];
      assert before == es + more[..n];
      RunAppend(c, s, es, more[..n], before);
    }
  }

  // ------------------------------------------------------------ what each upload knows

  // The part of the spool that belongs to one upload
  datatype View = View(upload: Option<Upload>, active: bool, flight: Option<Bytes>, file: Option<Bytes>)

  function Get<T>(m: map<Id, T>, id: Id): Option<T> {
    if id in m then Some(m[id]) else None
  }

  function ViewOf(sp: Spool.State, id: Id): View {
    View(Get(sp.uploads, id), id in sp.active, Get(sp.flight, id), Get(sp.files, id))
  }

  // A step of the spool manager for one upload is invisible to every other.
  lemma SpoolFrame(sp: Spool.State, e: Spool.Event, j: Id)
    requires e.id != j
    ensures ViewOf(Spool.Apply(Machine, sp, e), j) == ViewOf(sp, j)
  {
  }

  // The upload is open for writing; unless an error is latched its temporary file holds
  // exactly the chunks passed so far.
  predicate Receiving(v: View, x: Session) {
    && v.upload.Some? && v.active && v.upload.value.size == 0 && v.upload.value.open
    && (!x.latched ==> v.upload.value.received == |v.upload.value.file|)
  }

  // The object at the session's path is exactly what was passed to Write.
  predicate InStore(store: Store, x: Session) {
    KeyOf(x.path).Some? && KeyOf(x.path).value in store && store[KeyOf(x.path).value] == File(Flatten(x.passed))
  }

  predicate Spooled(v: View, x: Session) {
    v.file == Some(Flatten(x.passed))
  }

  // What stays active after Close is counted with all the bytes passed to Write.
  predicate Accounted(v: View, x: Session) {
    v.active ==> v.upload.Some? && v.upload.value.received == |Flatten(x.passed)|
  }

  predicate PhaseOk(path: string, p: Phase) {
    p.Putting? && p.attempt <= 2 && 1 <= p.tries <= 3 && (p.attempt == 0 ==> p.target == path)
  }

  predicate SessionOk(v: View, store: Store, x: Session, protected: bool) {
    && (v.flight.Some? <==> x.phase == Writing)
    && match x.phase
       case Opening => v.upload.None? && !v.active && x.passed == [] && !x.latched
       case Started => Receiving(v, x) && (!x.latched ==> v.upload.value.file == Flatten(x.passed))
       case Idle => Receiving(v, x) && (!x.latched ==> v.upload.value.file == Flatten(x.passed))
       case Writing => Receiving(v, x) && !x.latched
                       && v.upload.value.file + v.flight.value == Flatten(x.passed)
       case Ensuring => Spooled(v, x) && !v.active
       case Putting(_, _, _) => Spooled(v, x) && !v.active && PhaseOk(x.path, x.phase)
       case Ending(nil, stored) => Accounted(v, x) && nil == stored && (stored && protected ==> InStore(store, x))
       case Counted(nil) => Accounted(v, x) && (nil && protected ==> InStore(store, x))
       case Done(nil) => Accounted(v, x) && (nil && protected ==> InStore(store, x))
       case Refused => v.upload.None? && !v.active
  }

  // Close has stored the upload, or will report that it has.
  predicate ReportsStored(p: Phase) {
    (p.Ending? && p.stored) || (p.Counted? && p.nil) || (p.Done? && p.nil)
  }

  // Two uploads that report success never share a path.
  ghost predicate DistinctTargets(sessions: map<Id, Session>) {
    forall i, j :: i in sessions && j in sessions && i != j
                   && ReportsStored(sessions[i].phase) && ReportsStored(sessions[j].phase) ==>
      KeyOf(sessions[i].path) != KeyOf(sessions[j].path)
  }

  predicate Live(p: Phase) {
    p.Started? || p.Idle? || p.Writing?
  }

  predicate Over(p: Phase) {
    p.Ending? || p.Counted? || p.Done?
  }

  // An upload gets past Close only by Close, and from then on its bytes stay as they are.
  predicate Steady(p: Phase, q: Phase, before: bool, after: bool) {
    && (Over(p) ==> Over(q))
    && (Over(q) && p != Idle ==> !Live(p) && p != Opening && after == before)
  }

  // ------------------------------------------------------------ slots and counters

  // Opens in progress and open writers hold a slot.
  predicate Holding(p: Phase) {
    !p.Done? && !p.Refused?
  }

  // Registered uploads whose outcome is not counted yet
  predicate Pending(p: Phase) {
    p.Idle? || p.Writing? || p.Ensuring? || p.Putting? || p.Ending?
  }

  // The outcome is counted: a success when Close returns nil, a failure otherwise.
  predicate CountedAs(p: Phase, nil: bool) {
    (p.Counted? || p.Done?) && p.nil == nil
  }

  // The upload was counted as opened.
  predicate Registered(p: Phase) {
    Pending(p) || CountedAs(p, true) || CountedAs(p, false)
  }

  function Holders(sessions: map<Id, Session>, user: string): set<Id> {
    set id | id in sessions && sessions[id].account.username == user && Holding(sessions[id].phase)
  }

  function Pendings(sessions: map<Id, Session>): set<Id> {
    set id | id in sessions && Pending(sessions[id].phase)
  }

  function Outcomes(sessions: map<Id, Session>, nil: bool): set<Id> {
    set id | id in sessions && CountedAs(sessions[id].phase, nil)
  }

  function Uploads(sessions: map<Id, Session>): set<Id> {
    set id | id in sessions && Registered(sessions[id].phase)
  }

  ghost predicate SlotsOk(c: Config, s: State) {
    forall user :: user in c.accounts && c.accounts[user].maxUploads > 0 ==>
      Tokens(s.slots, user) == |Holders(s.sessions, user)| <= c.accounts[user].maxUploads
  }

  predicate CountersOk(s: State) {
    && s.total == |Uploads(s.sessions)|
    && s.success == |Outcomes(s.sessions, true)|
    && s.failed == |Outcomes(s.sessions, false)|
  }

  // Every registered upload is pending, a success or a failure.
  lemma CountersAddUp(s: State)
    requires CountersOk(s)
    ensures s.total == s.success + s.failed + |Pendings(s.sessions)|
  {
    var p, a, b := Pendings(s.sessions), Outcomes(s.sessions, true), Outcomes(s.sessions, false);
    assert Uploads(s.sessions) == p + a + b && p !! a && (p + a) !! b;
  }

  // Sets that agree outside id differ in size by id's membership.
  lemma SizesApart(a: set<Id>, b: set<Id>, id: Id)
    requires a - {id} == b - {id}
    ensures |b| == |a| - (if id in a then 1 else 0) + (if id in b then 1 else 0)
  {
    assert id in a ==> |a - {id}| == |a| - 1;
    assert id in b ==> |b - {id}| == |b| - 1;
    assert id !in a ==> a - {id} == a;
    assert id !in b ==> b - {id} == b;
  }

  lemma HoldersUpdate(sessions: map<Id, Session>, id: Id, y: Session, user: string)
    requires id in sessions ==> sessions[id].account == y.account
    ensures |Holders(sessions[id := y], user)| == |Holders(sessions, user)|
            - (if id in sessions && y.account.username == user && Holding(sessions[id].phase) then 1 else 0)
            + (if y.account.username == user && Holding(y.phase) then 1 else 0)
  {
    SizesApart(Holders(sessions, user), Holders(sessions[id := y], user), id);
  }

  lemma UploadsUpdate(sessions: map<Id, Session>, id: Id, y: Session)
    ensures |Uploads(sessions[id := y])|
            == |Uploads(sessions)| - One(id in sessions && Registered(sessions[id].phase)) + One(Registered(y.phase))
  {
    SizesApart(Uploads(sessions), Uploads(sessions[id := y]), id);
  }

  lemma OutcomesUpdate(sessions: map<Id, Session>, id: Id, y: Session, nil: bool)
    ensures |Outcomes(sessions[id := y], nil)|
            == |Outcomes(sessions, nil)| - One(id in sessions && CountedAs(sessions[id].phase, nil))
               + One(CountedAs(y.phase, nil))
  {
    SizesApart(Outcomes(sessions, nil), Outcomes(sessions[id := y], nil), id);
  }

  lemma CountersUpdate(sessions: map<Id, Session>, id: Id, y: Session)
    ensures |Uploads(sessions[id := y])|
            == |Uploads(sessions)| - One(id in sessions && Registered(sessions[id].phase)) + One(Registered(y.phase))
    ensures forall nil ::
              |Outcomes(sessions[id := y], nil)|
              == |Outcomes(sessions, nil)| - One(id in sessions && CountedAs(sessions[id].phase, nil))
               + One(CountedAs(y.phase, nil))
  {
    UploadsUpdate(sessions, id, y);
    OutcomesUpdate(sessions, id, y, true);
    OutcomesUpdate(sessions, id, y, false);
  }

  // ------------------------------------------------------------ the invariant

  predicate Known(c: Config, a: Account) {
    a.username in c.accounts && c.accounts[a.username] == a
  }

  ghost predicate SpoolOk(c: Config, sp: Spool.State) {
    Spool.Inv(sp) && sp.capacity == c.capacity && sp.removed == {}
  }

  ghost predicate SessionsOk(c: Config, s: State) {
    && s.spool.uploads.Keys <= s.sessions.Keys
    && (forall id :: id in s.sessions ==>
          Known(c, s.sessions[id].account)
          && SessionOk(ViewOf(s.spool, id), s.store, s.sessions[id], NoOverwrite(c)))
    && (NoOverwrite(c) ==> DistinctTargets(s.sessions))
  }

  ghost predicate Inv(c: Config, s: State) {
    SpoolOk(c, s.spool) && SessionsOk(c, s) && SlotsOk(c, s) && CountersOk(s)
  }

  // ------------------------------------------------------------ what one step may do

  // The spool moved by at most one step of upload id.
  ghost predicate SpoolMoved(c: Config, a: Spool.State, b: Spool.State, id: Id) {
    && SpoolOk(c, b) && b.uploads.Keys <= a.uploads.Keys + {id}
    && forall j :: j != id ==> ViewOf(b, j) == ViewOf(a, j)
  }

  lemma SpoolDomain(sp: Spool.State, e: Spool.Event)
    requires !e.Remove?
    ensures var t := Spool.Apply(Machine, sp, e);
            t.uploads.Keys <= sp.uploads.Keys + {e.id} && t.capacity == sp.capacity && t.removed == sp.removed
  {
  }

  lemma {:induction false} SpoolStep(c: Config, sp: Spool.State, e: Spool.Event)
    requires Sound(c) && SpoolOk(c, sp) && Spool.Fits(e, c.chunk) && !e.Remove?
    ensures SpoolMoved(c, sp, Spool.Apply(Machine, sp, e), e.id)
    ensures Spool.Apply(Machine, sp, e) == Spool.Apply(Ideal, sp, e)
  {
    Spool.MachineIsIdeal(sp, e, c.chunk);
    Spool.ApplyKeeps(sp, e);
    SpoolDomain(sp, e);
    var t := Spool.Apply(Machine, sp, e);
    forall j | j != e.id ensures ViewOf(t, j) == ViewOf(sp, j) {
      SpoolFrame(sp, e, j);
    }
  }

  // What a step of session id does to the rest: its own record, its own part of the spool,
  // its slot and its share of the counters move together.
  ghost predicate Effects(c: Config, s: State, t: State, id: Id)
    requires id in s.sessions
  {
    SpoolMoved(c, s.spool, t.spool, id) && Local(c, s, t, id)
  }

  // The part that does not concern the other uploads' spool
  ghost predicate Local(c: Config, s: State, t: State, id: Id)
    requires id in s.sessions
  {
    && id in t.sessions
    && var x, y := s.sessions[id], t.sessions[id];
       && t.sessions == s.sessions[id := y] && y.account == x.account
       && Steady(x.phase, y.phase, id in s.spool.active, id in t.spool.active)
       && (NoOverwrite(c) ==> CreateOnly(s.store, t.store))
       && SessionOk(ViewOf(t.spool, id), t.store, y, NoOverwrite(c))
       && (NoOverwrite(c) && ReportsStored(y.phase) ==>
             if ReportsStored(x.phase) then y.path == x.path
             else KeyOf(y.path).Some? && KeyOf(y.path).value !in s.store)
       && (Holding(y.phase) ==> Holding(x.phase))
       && t.slots == (if Holding(x.phase) && !Holding(y.phase) then GiveSlot(s.slots, x.account) else s.slots)
       && t.total + One(Registered(x.phase)) == s.total + One(Registered(y.phase))
       && t.success + One(CountedAs(x.phase, true)) == s.success + One(CountedAs(y.phase, true))
       && t.failed + One(CountedAs(x.phase, false)) == s.failed + One(CountedAs(y.phase, false))
  }

  // Creations elsewhere leave a stored object in place.
  lemma SessionOkLater(v: View, a: Store, b: Store, x: Session, protected: bool)
    requires SessionOk(v, a, x, protected) && (protected ==> CreateOnly(a, b))
    ensures SessionOk(v, b, x, protected)
  {
  }

  lemma EffectsKeepOther(c: Config, s: State, t: State, id: Id, j: Id)
    requires SessionsOk(c, s) && id in s.sessions && Effects(c, s, t, id) && j in t.sessions
    ensures Known(c, t.sessions[j].account)
    ensures SessionOk(ViewOf(t.spool, j), t.store, t.sessions[j], NoOverwrite(c))
  {
    assert Known(c, s.sessions[j].account);
    if j != id {
      SessionOkLater(ViewOf(s.spool, j), s.store, t.store, s.sessions[j], NoOverwrite(c));
    }
  }

  lemma StoredIsInStore(c: Config, s: State, j: Id)
    requires SessionsOk(c, s) && NoOverwrite(c) && j in s.sessions && ReportsStored(s.sessions[j].phase)
    ensures InStore(s.store, s.sessions[j])
  {
    assert SessionOk(ViewOf(s.spool, j), s.store, s.sessions[j], NoOverwrite(c));
  }

  lemma {:induction false} EffectsKeepDistinct(c: Config, s: State, t: State, id: Id, j: Id)
    requires SessionsOk(c, s) && NoOverwrite(c) && id in s.sessions && Effects(c, s, t, id)
    requires j in s.sessions && j != id && ReportsStored(s.sessions[j].phase) && ReportsStored(t.sessions[id].phase)
    ensures KeyOf(t.sessions[id].path) != KeyOf(s.sessions[j].path)
  {
    StoredIsInStore(c, s, j);
  }

  lemma {:induction false} EffectsKeepSessions(c: Config, s: State, t: State, id: Id)
    requires Inv(c, s) && id in s.sessions && Effects(c, s, t, id)
    ensures SessionsOk(c, t)
  {
    forall j | j in t.sessions
      ensures Known(c, t.sessions[j].account)
      ensures SessionOk(ViewOf(t.spool, j), t.store, t.sessions[j], NoOverwrite(c))
    {
      EffectsKeepOther(c, s, t, id, j);
    }
    if NoOverwrite(c) {
      forall j | j in s.sessions && j != id && ReportsStored(s.sessions[j].phase) && ReportsStored(t.sessions[id].phase)
        ensures KeyOf(t.sessions[id].path) != KeyOf(s.sessions[j].path)
      {
        EffectsKeepDistinct(c, s, t, id, j);
      }
      DistinctUpdate(s.sessions, id, t.sessions[id]);
    }
  }

  lemma DistinctUpdate(sessions: map<Id, Session>, id: Id, y: Session)
    requires DistinctTargets(sessions)
    requires forall j :: j in sessions && j != id && ReportsStored(sessions[j].phase) && ReportsStored(y.phase) ==>
               KeyOf(y.path) != KeyOf(sessions[j].path)
    ensures DistinctTargets(sessions[id := y])
  {
  }

  lemma EffectsKeepCounts(c: Config, s: State, t: State, id: Id)
    requires Inv(c, s) && id in s.sessions && Effects(c, s, t, id)
    ensures SlotsOk(c, t) && CountersOk(t)
  {
    var x, y := s.sessions[id], t.sessions[id];
    CountersUpdate(s.sessions, id, y);
    forall user | user in c.accounts && c.accounts[user].maxUploads > 0
      ensures Tokens(t.slots, user) == |Holders(t.sessions, user)| <= c.accounts[user].maxUploads
    {
      HoldersUpdate(s.sessions, id, y, user);
      assert Known(c, x.account);
      if user == x.account.username && Holding(x.phase) {
        assert id in Holders(s.sessions, user);
      }
    }
  }

  lemma EffectsKeep(c: Config, s: State, t: State, id: Id)
    requires Inv(c, s) && id in s.sessions && Effects(c, s, t, id)
    ensures Inv(c, t)
  {
    EffectsKeepSessions(c, s, t, id);
    EffectsKeepCounts(c, s, t, id);
  }

  // What the steps of one session rely on
  ghost predicate Ready(c: Config, s: State, id: Id) {
    && Sound(c) && SpoolOk(c, s.spool) && id in s.sessions
    && SessionOk(ViewOf(s.spool, id), s.store, s.sessions[id], NoOverwrite(c))
  }

  lemma InvReady(c: Config, s: State, id: Id)
    requires Sound(c) && Inv(c, s) && id in s.sessions
    ensures Ready(c, s, id) && Known(c, s.sessions[id].account)
  {
  }

  // ------------------------------------------------------------ every step

  lemma SpoolUnmoved(c: Config, sp: Spool.State, id: Id)
    requires SpoolOk(c, sp)
    ensures SpoolMoved(c, sp, sp, id)
  {
  }

  lemma OpenKeepsSessions(c: Config, s: State, id: Id, y: Session)
    requires SpoolOk(c, s.spool) && SessionsOk(c, s) && id !in s.sessions && Known(c, y.account)
    requires y.phase == Opening && y.passed == [] && !y.latched
    ensures SessionsOk(c, With(s, id, y))
  {
    assert ViewOf(s.spool, id).upload.None? && ViewOf(s.spool, id).flight.None?;
    if NoOverwrite(c) { DistinctUpdate(s.sessions, id, y); }
  }

  lemma OpenKeepsCounts(c: Config, s: State, id: Id, y: Session)
    requires SlotsOk(c, s) && CountersOk(s) && id !in s.sessions && Known(c, y.account) && y.phase == Opening
    requires SlotFree(s.slots, y.account)
    ensures var t := With(s, id, y).(slots := TakeSlot(s.slots, y.account)); SlotsOk(c, t) && CountersOk(t)
  {
    var t := With(s, id, y).(slots := TakeSlot(s.slots, y.account));
    CountersUpdate(s.sessions, id, y);
    forall u | u in c.accounts && c.accounts[u].maxUploads > 0
      ensures Tokens(t.slots, u) == |Holders(t.sessions, u)| <= c.accounts[u].maxUploads
    {
      HoldersUpdate(s.sessions, id, y, u);
    }
  }

  lemma OpenKeeps(c: Config, s: State, id: Id, user: string, path: string)
    requires Sound(c) && Inv(c, s)
    ensures Inv(c, OpenStep(c, s, id, user, path))
  {
    var t := OpenStep(c, s, id, user, path);
    if t != s {
      var y := Session(c.accounts[user], path, [], false, Opening);
      OpenKeepsSessions(c, s, id, y);
      OpenKeepsCounts(c, s, id, y);
    }
  }

  // A step that moves only the session's record and its part of the spool
  lemma MoveEffects(c: Config, s: State, id: Id, y: Session, sp: Spool.State)
    requires id in s.sessions && y.account == s.sessions[id].account
    requires SpoolMoved(c, s.spool, sp, id) && SessionOk(ViewOf(sp, id), s.store, y, NoOverwrite(c))
    requires Holding(s.sessions[id].phase) && Holding(y.phase)
    requires Pending(s.sessions[id].phase) == Pending(y.phase)
    requires !Over(s.sessions[id].phase) && !y.phase.Counted? && !ReportsStored(y.phase)
    requires Over(y.phase) ==> s.sessions[id].phase == Idle
    ensures Effects(c, s, With(s, id, y).(spool := sp), id)
  {
  }

  lemma StartView(c: Config, sp: Spool.State, id: Id, r: Request)
    requires id !in sp.uploads && r.expected == -1 && Spool.StartError(Machine, sp, r, true).None?
    ensures ViewOf(Spool.Apply(Machine, sp, Spool.Start(id, r, true)), id)
            == ViewOf(sp, id).(upload := Some(Upload(0, 0, r.limit, [], true, false)), active := true)
  {
  }

  lemma StartEffects(c: Config, s: State, id: Id, filename: string, diskOk: bool)
    requires Ready(c, s, id) && Known(c, s.sessions[id].account) && s.sessions[id].phase == Opening
    ensures Effects(c, s, StartStep(s, id, s.sessions[id], filename, diskOk), id)
  {
    var x := s.sessions[id];
    var r := Request(x.account.username, filename, x.path, -1, x.account.maxSize);
    if Spool.StartError(Machine, s.spool, r, diskOk).Some? {
      SpoolUnmoved(c, s.spool, id);
    } else {
      assert diskOk;
      StartView(c, s.spool, id, r);
      SpoolStep(c, s.spool, Spool.Start(id, r, true));
      MoveEffects(c, s, id, x.(phase := Started), Spool.Apply(Machine, s.spool, Spool.Start(id, r, true)));
    }
  }

  lemma ReserveView(sp: Spool.State, id: Id, data: Bytes)
    requires id in sp.uploads && id !in sp.flight && id !in sp.removed
    requires Spool.ReserveError(Machine, sp, sp.uploads[id], |data|).None?
    ensures ViewOf(Spool.Apply(Machine, sp, Spool.Reserve(id, data)), id) == ViewOf(sp, id).(flight := Some(data))
  {
  }

  lemma {:induction false} WriteEffects(c: Config, s: State, id: Id, data: Bytes)
    requires Ready(c, s, id) && s.sessions[id].phase == Idle && |data| <= c.chunk
    ensures var t := WriteStep(c, s, id, s.sessions[id], data); t == s || Effects(c, s, t, id)
  {
    var x := s.sessions[id];
    var y := x.(passed := x.passed + [data]);
    FlattenAppend(x.passed, data);
    if x.latched {
      SpoolUnmoved(c, s.spool, id);
      MoveEffects(c, s, id, y, s.spool);
    } else if Spool.ReserveError(Machine, s.spool, s.spool.uploads[id], |data|).Some? {
      SpoolUnmoved(c, s.spool, id);
      MoveEffects(c, s, id, y.(latched := true), s.spool);
    } else {
      ReserveView(s.spool, id, data);
      SpoolStep(c, s.spool, Spool.Reserve(id, data));
      MoveEffects(c, s, id, y.(phase := Writing), Spool.Apply(Machine, s.spool, Spool.Reserve(id, data)));
    }
  }

  lemma WrittenView(sp: Spool.State, id: Id)
    requires id in sp.uploads && id in sp.flight && sp.uploads[id].open
    ensures var u, data := sp.uploads[id], sp.flight[id];
            ViewOf(Spool.Apply(Ideal, sp, Spool.Written(id)), id)
            == ViewOf(sp, id).(upload := Some(u.(file := u.file + data, received := u.received + |data|)),
                               flight := None)
  {
  }

  lemma WriteFailedView(sp: Spool.State, id: Id, taken: nat)
    requires id in sp.uploads && id in sp.flight && taken <= |sp.flight[id]|
    ensures var v := ViewOf(Spool.Apply(Machine, sp, Spool.WriteFailed(id, taken)), id);
            && v.upload.Some? && v.upload.value.(file := sp.uploads[id].file) == sp.uploads[id]
            && v.active == (id in sp.active) && v.flight == None
  {
  }

  lemma WriteEndEffects(c: Config, s: State, id: Id, taken: nat)
    requires Ready(c, s, id) && s.sessions[id].phase == Writing
    ensures var t := WriteEndStep(s, id, s.sessions[id], taken); t == s || Effects(c, s, t, id)
  {
    var x := s.sessions[id];
    if taken == |s.spool.flight[id]| {
      SpoolStep(c, s.spool, Spool.Written(id));
      WrittenView(s.spool, id);
      MoveEffects(c, s, id, x.(phase := Idle), Spool.Apply(Machine, s.spool, Spool.Written(id)));
    } else if taken < |s.spool.flight[id]| {
      SpoolStep(c, s.spool, Spool.WriteFailed(id, taken));
      WriteFailedView(s.spool, id, taken);
      MoveEffects(c, s, id, x.(phase := Idle, latched := true),
                  Spool.Apply(Machine, s.spool, Spool.WriteFailed(id, taken)));
    }
  }

  lemma DisconnectEffects(c: Config, s: State, id: Id)
    requires Ready(c, s, id)
    ensures Effects(c, s, s.(spool := Spool.Apply(Machine, s.spool, Spool.Cancel(id))), id)
  {
    var x := s.sessions[id];
    SpoolStep(c, s.spool, Spool.Cancel(id));
    assert s.sessions[id := x] == s.sessions;
  }

  // The upload after the first half of Close: finished and released, aborted and released, or
  // left active with its bytes counted
  lemma AfterFinishView(sp: Spool.State, id: Id, latched: bool, fault: FinishFault)
    requires id in sp.uploads && id !in sp.flight && (!latched ==> sp.uploads[id].open)
    ensures var u, v := sp.uploads[id], ViewOf(AfterFinish(sp, id, latched, fault), id);
            && v.flight.None? && v.upload.Some? && v.upload.value.received == u.received
            && (v.active ==> !latched && !Finishes(sp, id, latched, fault))
            && (Finishes(sp, id, latched, fault) ==> v.file == Some(u.file))
  {
    if !latched { FinishRecorded(sp, id, fault); }
  }

  lemma AfterFinishMoves(c: Config, sp: Spool.State, id: Id, latched: bool, fault: FinishFault)
    requires Sound(c) && SpoolOk(c, sp) && id in sp.uploads
    ensures SpoolMoved(c, sp, AfterFinish(sp, id, latched, fault), id)
  {
    SpoolStep(c, sp, Spool.Finish(id, fault));
    SpoolStep(c, sp, Spool.Abort(id));
  }

  lemma CloseEffects(c: Config, s: State, id: Id, fault: FinishFault)
    requires Ready(c, s, id) && s.sessions[id].phase == Idle
    ensures Effects(c, s, CloseStep(s, id, s.sessions[id], fault), id)
  {
    var x := s.sessions[id];
    AfterFinishView(s.spool, id, x.latched, fault);
    AfterFinishMoves(c, s.spool, id, x.latched, fault);
    var next := if Finishes(s.spool, id, x.latched, fault) then Ensuring else Ending(false, false);
    MoveEffects(c, s, id, x.(phase := next), AfterFinish(s.spool, id, x.latched, fault));
  }

  lemma CountEffects(c: Config, s: State, id: Id)
    requires SpoolMoved(c, s.spool, s.spool, id) && id in s.sessions && s.sessions[id].phase.Ending?
    requires SessionOk(ViewOf(s.spool, id), s.store, s.sessions[id], NoOverwrite(c))
    ensures Effects(c, s, CountStep(s, id, s.sessions[id]), id)
  {
    hide KeyOf, Flatten;
  }

  lemma FreeEffects(c: Config, s: State, id: Id)
    requires SpoolMoved(c, s.spool, s.spool, id) && id in s.sessions && s.sessions[id].phase.Counted?
    requires SessionOk(ViewOf(s.spool, id), s.store, s.sessions[id], NoOverwrite(c))
    ensures Effects(c, s, FreeStep(s, id, s.sessions[id]), id)
  {
  }

  lemma RegisterEffects(c: Config, s: State, id: Id)
    requires SpoolMoved(c, s.spool, s.spool, id) && id in s.sessions && s.sessions[id].phase == Started
    requires SessionOk(ViewOf(s.spool, id), s.store, s.sessions[id], NoOverwrite(c))
    ensures Effects(c, s, RegisterStep(s, id, s.sessions[id]), id)
  {
  }

  // ------------------------------------------------------------ commit steps

  // The end of a commit, but for the spool: the file is dropped and nothing else moves.
  lemma ConcludeLocal(c: Config, s: State, store: Store, id: Id, y: Session, ok: bool, sp: Spool.State)
    requires id in s.sessions && SessionOk(ViewOf(s.spool, id), s.store, s.sessions[id], NoOverwrite(c))
    requires s.sessions[id].phase.Ensuring? || s.sessions[id].phase.Putting?
    requires y.account == s.sessions[id].account
    requires ViewOf(sp, id).active == ViewOf(s.spool, id).active && ViewOf(sp, id).flight == ViewOf(s.spool, id).flight
    requires NoOverwrite(c) ==> CreateOnly(s.store, store)
    requires ok && NoOverwrite(c) ==> InStore(store, y) && KeyOf(y.path).value !in s.store
    ensures Local(c, s, With(s.(store := store), id, y.(phase := Ending(ok, ok))).(spool := sp), id)
  {
  }

  lemma ConcludeEffects(c: Config, s: State, store: Store, id: Id, y: Session, ok: bool)
    requires Ready(c, s, id) && y.account == s.sessions[id].account
    requires s.sessions[id].phase.Ensuring? || s.sessions[id].phase.Putting?
    requires NoOverwrite(c) ==> CreateOnly(s.store, store)
    requires ok && NoOverwrite(c) ==> InStore(store, y) && KeyOf(y.path).value !in s.store
    ensures Effects(c, s, Conclude(s.(store := store), id, y, ok), id)
  {
    SpoolStep(c, s.spool, Spool.Delete(id));
    ConcludeLocal(c, s, store, id, y, ok, Spool.Apply(Machine, s.spool, Spool.Delete(id)));
  }

  lemma PuttingLocal(c: Config, s: State, store: Store, id: Id, p: Phase)
    requires id in s.sessions && SessionOk(ViewOf(s.spool, id), s.store, s.sessions[id], NoOverwrite(c))
    requires s.sessions[id].phase.Ensuring? || s.sessions[id].phase.Putting?
    requires PhaseOk(s.sessions[id].path, p)
    requires NoOverwrite(c) ==> CreateOnly(s.store, store)
    ensures Local(c, s, With(s.(store := store), id, s.sessions[id].(phase := p)), id)
  {
  }

  lemma PuttingEffects(c: Config, s: State, store: Store, id: Id, p: Phase)
    requires Ready(c, s, id)
    requires s.sessions[id].phase.Ensuring? || s.sessions[id].phase.Putting?
    requires PhaseOk(s.sessions[id].path, p)
    requires NoOverwrite(c) ==> CreateOnly(s.store, store)
    ensures Effects(c, s, With(s.(store := store), id, s.sessions[id].(phase := p)), id)
  {
    SpoolUnmoved(c, s.spool, id);
    PuttingLocal(c, s, store, id, p);
  }

  lemma EnsureEndEffects(c: Config, s: State, id: Id, ok: bool)
    requires Ready(c, s, id) && s.sessions[id].phase == Ensuring
    ensures Effects(c, s, EnsureEndStep(s, id, s.sessions[id], ok), id)
  {
    var x := s.sessions[id];
    if ok {
      PuttingEffects(c, s, s.store, id, Putting(0, 1, x.path));
    } else {
      ConcludeEffects(c, s, s.store, id, x, false);
    }
  }

  lemma NextTryOk(x: Session, o: Outcome)
    requires PhaseOk(x.path, x.phase)
    ensures NextTry(x, o).Some? ==> PhaseOk(x.path, NextTry(x, o).value)
  {
  }

  // The first attempt goes to the session's own path.
  lemma AtTarget(x: Session)
    requires PhaseOk(x.path, x.phase)
    ensures x.phase.attempt == 0 ==> x.(path := x.phase.target) == x
  {
  }

  lemma AfterPutEffects(c: Config, s: State, store: Store, id: Id, o: Outcome)
    requires Ready(c, s, id) && s.sessions[id].phase.Putting?
    requires NoOverwrite(c) ==> CreateOnly(s.store, store)
    requires o == Stored && NoOverwrite(c) ==>
               var x := s.sessions[id];
               InStore(store, x.(path := x.phase.target)) && KeyOf(x.phase.target).value !in s.store
    ensures Effects(c, s, AfterPut(s.(store := store), id, s.sessions[id], o), id)
  {
    var x := s.sessions[id];
    if o == Stored {
      AtTarget(x);
      ConcludeEffects(c, s, store, id, x.(path := x.phase.target), true);
    } else {
      NextTryOk(x, o);
      match NextTry(x, o)
      case Some(p) => PuttingEffects(c, s, store, id, p);
      case None => ConcludeEffects(c, s, store, id, x, false);
    }
  }

  lemma {:induction false} SentEffects(c: Config, s: State, id: Id, key: Key, fault: Fault)
    requires Ready(c, s, id) && s.sessions[id].phase.Putting? && Known(c, s.sessions[id].account)
    requires KeyOf(s.sessions[id].phase.target) == Some(key) && id in s.spool.files
    ensures var x := s.sessions[id];
            var (t, o) := PutTurn(s.store, key, s.spool.files[id], x.account.policy == Overwrite,
                                  Turn([], fault, false));
            Effects(c, s, AfterPut(s.(store := t), id, x, o), id)
  {
    hide RenameCandidate, KeyOf;
    var x := s.sessions[id];
    var overwrite := x.account.policy == Overwrite;
    PutTurnSafe(s.store, key, s.spool.files[id], overwrite, Turn([], fault, false));
    var (t, o) := PutTurn(s.store, key, s.spool.files[id], overwrite, Turn([], fault, false));
    AfterPutEffects(c, s, t, id, o);
  }

  lemma {:induction false} PutEffects(c: Config, s: State, id: Id, openOk: bool, cancelled: bool, fault: Fault)
    requires Ready(c, s, id) && s.sessions[id].phase.Putting? && Known(c, s.sessions[id].account)
    ensures var t := PutStep(s, id, s.sessions[id], openOk, cancelled, fault); t == s || Effects(c, s, t, id)
  {
    var x := s.sessions[id];
    if x.phase.tries == 1 && !openOk {
      ConcludeEffects(c, s, s.store, id, x, false);
    } else if x.phase.tries > 1 && cancelled {
      AfterPutEffects(c, s, s.store, id, Aborted);
    } else if KeyOf(x.phase.target).None? {
      AfterPutEffects(c, s, s.store, id, BadPath);
    } else {
      SentEffects(c, s, id, KeyOf(x.phase.target).value, fault);
    }
  }

  // ------------------------------------------------------------ whole runs

  // The invariant, and nothing in the store changed unless accounts may overwrite
  ghost predicate Kept(c: Config, s: State, t: State) {
    Inv(c, t) && (NoOverwrite(c) ==> CreateOnly(s.store, t.store))
  }

  lemma {:induction false} OthersKeep(c: Config, s: State, creation: Creation)
    requires Inv(c, s)
    ensures Kept(c, s, s.(store := Create(s.store, creation)))
  {
    var t := s.(store := Create(s.store, creation));
    assert CreateOnly(s.store, t.store);
    forall j | j in t.sessions
      ensures SessionOk(ViewOf(t.spool, j), t.store, t.sessions[j], NoOverwrite(c))
    {
      SessionOkLater(ViewOf(s.spool, j), s.store, t.store, s.sessions[j], NoOverwrite(c));
    }
  }

  // Nothing happened, or one session moved.
  ghost predicate Moved(c: Config, s: State, t: State, id: Id)
    requires id in s.sessions
  {
    t == s || Effects(c, s, t, id)
  }

  predicate Opens(e: Event) {
    e.Start? || e.Register? || e.Write? || e.WriteEnd? || e.Disconnect?
  }

  lemma {:induction false} OpenPhaseKeeps(c: Config, s: State, id: Id, e: Event)
    requires Ready(c, s, id) && Known(c, s.sessions[id].account) && Opens(e) && e.id == id
    ensures Moved(c, s, SessionStep(c, s, id, s.sessions[id], e), id)
  {
    var x := s.sessions[id];
    SpoolUnmoved(c, s.spool, id);
    match e
    case Start(_, filename, diskOk) => if x.phase == Opening { StartEffects(c, s, id, filename, diskOk); }
    case Register(_) => if x.phase == Started { RegisterEffects(c, s, id); }
    case Write(_, data) => if x.phase == Idle && |data| <= c.chunk { WriteEffects(c, s, id, data); }
    case WriteEnd(_, taken) => if x.phase == Writing { WriteEndEffects(c, s, id, taken); }
    case Disconnect(_) => DisconnectEffects(c, s, id);
  }

  lemma {:induction false} ClosePhaseKeeps(c: Config, s: State, id: Id, e: Event)
    requires Ready(c, s, id) && Known(c, s.sessions[id].account) && !Opens(e) && !e.Open? && !e.Others? && e.id == id
    ensures Moved(c, s, SessionStep(c, s, id, s.sessions[id], e), id)
  {
    var x := s.sessions[id];
    SpoolUnmoved(c, s.spool, id);
    match e
    case Close(_, fault) => if x.phase == Idle && id in s.spool.uploads { CloseEffects(c, s, id, fault); }
    case EnsureEnd(_, ok) => if x.phase == Ensuring { EnsureEndEffects(c, s, id, ok); }
    case PutOne(_, openOk, cancelled, fault) =>
      if x.phase.Putting? { PutEffects(c, s, id, openOk, cancelled, fault); }
    case Count(_) => if x.phase.Ending? { CountEffects(c, s, id); }
    case Free(_) => if x.phase.Counted? { FreeEffects(c, s, id); }
  }

  lemma {:induction false} SessionStepKeeps(c: Config, s: State, e: Event)
    requires Sound(c) && Inv(c, s) && !e.Open? && !e.Others? && e.id in s.sessions
    ensures Moved(c, s, SessionStep(c, s, e.id, s.sessions[e.id], e), e.id)
  {
    InvReady(c, s, e.id);
    if Opens(e) {
      OpenPhaseKeeps(c, s, e.id, e);
    } else {
      ClosePhaseKeeps(c, s, e.id, e);
    }
  }

  lemma {:induction false} StepKeeps(c: Config, s: State, t: State, id: Id)
    requires Inv(c, s) && id in s.sessions && Moved(c, s, t, id)
    ensures Kept(c, s, t)
  {
    if t != s { EffectsKeep(c, s, t, id); }
  }

  lemma {:induction false} SessionEventKeeps(c: Config, s: State, e: Event)
    requires Sound(c) && Inv(c, s) && !e.Open? && !e.Others? && e.id in s.sessions
    ensures Kept(c, s, SessionStep(c, s, e.id, s.sessions[e.id], e))
  {
    SessionStepKeeps(c, s, e);
    StepKeeps(c, s, SessionStep(c, s, e.id, s.sessions[e.id], e), e.id);
  }

  // Every step of every session, and every creation by another client, keeps the invariant;
  // without overwriting accounts it changes no existing resource of the store.
  lemma {:induction false} ApplyKeeps(c: Config, s: State, e: Event)
    requires Sound(c) && Inv(c, s)
    ensures Inv(c, Apply(c, s, e))
    ensures NoOverwrite(c) ==> CreateOnly(s.store, Apply(c, s, e).store)
  {
    assert Kept(c, s, Apply(c, s, e)) by {
      if e.Open? {
        OpenKeeps(c, s, e.id, e.user, e.path);
      } else if e.Others? {
        OthersKeep(c, s, e.creation);
      } else if e.id in s.sessions {
        SessionEventKeeps(c, s, e);
      }
    }
  }

  lemma InitOk(c: Config, store: Store)
    requires Sound(c)
    ensures Inv(c, Init(c, store))
  {
    Spool.InitOk(c.capacity);
    var s := Init(c, store);
    assert Uploads(s.sessions) == {} && Outcomes(s.sessions, true) == {} && Outcomes(s.sessions, false) == {};
    forall user | user in c.accounts && c.accounts[user].maxUploads > 0
      ensures Tokens(s.slots, user) == |Holders(s.sessions, user)| <= c.accounts[user].maxUploads
    {
      assert Holders(s.sessions, user) == {};
    }
  }

  lemma {:induction false} RunInv(c: Config, store: Store, es: seq<Event>)
    requires Sound(c)
    ensures Inv(c, Run(c, Init(c, store), es))
  {
    if es == [] {
      InitOk(c, store);
    } else {
      RunInv(c, store, es[..|es| - 1]);
      ApplyKeeps(c, Run(c, Init(c, store), es[..|es| - 1]), es[|es| - 1]);
    }
  }

  // An account gets its whole cap: in every reachable state an upload with a new name is given a
  // slot exactly if fewer of the account's uploads than its cap are being opened, written or
  // closed.
  lemma {:induction false} OpenGetsSlot(c: Config, store: Store, es: seq<Event>, id: Id, user: string, path: string)
    requires Sound(c) && id !in Run(c, Init(c, store), es).sessions && user in c.accounts && path != ""
    ensures var s := Run(c, Init(c, store), es);
            id in Apply(c, s, Open(id, user, path)).sessions <==>
              c.accounts[user].maxUploads <= 0 || |Holders(s.sessions, user)| < c.accounts[user].maxUploads
  {
    RunInv(c, store, es);
  }

  // ------------------------------------------------------------ main results

  lemma {:induction false} LastStepCreates(c: Config, store: Store, es: seq<Event>, e: Event)
    requires Sound(c) && NoOverwrite(c)
    ensures CreateOnly(Run(c, Init(c, store), es).store, Run(c, Init(c, store), es + [e]).store)
  {
    RunInv(c, store, es);
    ApplyKeeps(c, Run(c, Init(c, store), es), e);
    assert (es + [e])[..|es|] == es;
  }

  // No silent overwrite: with rename and reject accounts only, whatever any number of sessions
  // and other clients do from any reachable state on, no existing resource is changed or
  // removed.
  lemma {:induction false} NoSilentOverwrite(c: Config, store: Store, es: seq<Event>, more: seq<Event>)
    requires Sound(c) && NoOverwrite(c)
    ensures CreateOnly(Run(c, Init(c, store), es).store, Run(c, Init(c, store), es + more).store)
  {
    if more == [] {
      assert es + more == es;
    } else {
      var n := |more| - 1;
      NoSilentOverwrite(c, store, es, more[..n]);
      LastStepCreates(c, store, es + more[..n], more[n]);
      assert es + more == es + more[..n] + [more[n]];
    }
  }

  lemma AfterPutStore(s: State, id: Id, x: Session, o: Outcome)
    requires x.phase.Putting?
    ensures AfterPut(s, id, x, o).store == s.store
  {
  }

  lemma {:induction false} PutStepPreserves(s: State, id: Id, x: Session, openOk: bool, cancelled: bool, fault: Fault)
    requires x.account.policy != Overwrite
    ensures CreateOnly(s.store, PutStep(s, id, x, openOk, cancelled, fault).store)
  {
    if x.phase.Putting? && id in s.spool.files && KeyOf(x.phase.target).Some? {
      var key, data := KeyOf(x.phase.target).value, s.spool.files[id];
      PutTurnSafe(s.store, key, data, false, Turn([], fault, false));
      var (t, o) := PutTurn(s.store, key, data, false, Turn([], fault, false));
      AfterPutStore(s.(store := t), id, x, o);
      AfterPutStore(s, id, x, Aborted);
    }
  }

  lemma StoreStays(c: Config, s: State, id: Id, x: Session, e: Event)
    requires !e.PutOne?
    ensures SessionStep(c, s, id, x, e).store == s.store
  {
  }

  // With accounts of any policies: no step but a PUT of an overwriting account changes an
  // existing resource, in any state at all.
  lemma {:induction false} OnlyOverwritersOverwrite(c: Config, s: State, e: Event)
    ensures CreateOnly(s.store, Apply(c, s, e).store)
            || (e.PutOne? && e.id in s.sessions && s.sessions[e.id].account.policy == Overwrite)
  {
    if !e.Open? && !e.Others? && e.id in s.sessions {
      if !e.PutOne? {
        StoreStays(c, s, e.id, s.sessions[e.id], e);
      } else if s.sessions[e.id].account.policy != Overwrite {
        PutStepPreserves(s, e.id, s.sessions[e.id], e.openOk, e.cancelled, e.fault);
      }
    }
  }

  // Success only if stored: in every reachable state every upload whose Close returned nil has
  // exactly its own bytes - all chunks passed to Write, in order - at its recorded path, and
  // no two of them share a path.
  lemma {:induction false} SuccessMeansStored(c: Config, store: Store, es: seq<Event>, i: Id, j: Id)
    requires Sound(c) && NoOverwrite(c)
    requires var s := Run(c, Init(c, store), es);
             i in s.sessions && s.sessions[i].phase == Done(true)
    ensures var s := Run(c, Init(c, store), es);
            && InStore(s.store, s.sessions[i])
            && (i != j && j in s.sessions && s.sessions[j].phase == Done(true) ==>
                  KeyOf(s.sessions[i].path) != KeyOf(s.sessions[j].path))
  {
    RunInv(c, store, es);
    var s := Run(c, Init(c, store), es);
    StoredIsInStore(c, s, i);
    if i != j && j in s.sessions && s.sessions[j].phase == Done(true) {
      assert ReportsStored(s.sessions[i].phase) && ReportsStored(s.sessions[j].phase);
    }
  }

  // Under every policy, overwriting included, the step that makes an upload a success leaves
  // exactly its bytes at its recorded path.
  lemma {:induction false} StoredWhenDecided(c: Config, store: Store, es: seq<Event>, e: Event, id: Id)
    requires Sound(c)
    requires var s := Run(c, Init(c, store), es);
             && id in s.sessions && id in Apply(c, s, e).sessions
             && !ReportsStored(s.sessions[id].phase) && ReportsStored(Apply(c, s, e).sessions[id].phase)
    ensures var t := Apply(c, Run(c, Init(c, store), es), e); InStore(t.store, t.sessions[id])
  {
    RunInv(c, store, es);
    var s := Run(c, Init(c, store), es);
    DecidedByPut(c, s, e, id);
  }

  lemma OpenPhaseDecides(c: Config, s: State, id: Id, x: Session, e: Event)
    requires SessionOk(ViewOf(s.spool, id), s.store, x, NoOverwrite(c)) && !ReportsStored(x.phase)
    requires id in s.sessions && s.sessions[id] == x && Opens(e)
    ensures id in SessionStep(c, s, id, x, e).sessions && !ReportsStored(SessionStep(c, s, id, x, e).sessions[id].phase)
  {
    match e
    case Start(_, filename, diskOk) =>
    case Register(_) =>
    case Write(_, data) =>
    case WriteEnd(_, taken) =>
    case Disconnect(_) =>
  }

  // Steps other than a PUT conclude nothing as stored.
  lemma StepDecides(c: Config, s: State, id: Id, x: Session, e: Event)
    requires SessionOk(ViewOf(s.spool, id), s.store, x, NoOverwrite(c)) && !ReportsStored(x.phase)
    requires id in s.sessions && s.sessions[id] == x && !e.PutOne?
    ensures id in SessionStep(c, s, id, x, e).sessions && !ReportsStored(SessionStep(c, s, id, x, e).sessions[id].phase)
  {
    if Opens(e) {
      OpenPhaseDecides(c, s, id, x, e);
    } else {
      match e
      case Open(_, _, _) =>
      case Close(_, fault) =>
      case EnsureEnd(_, ok) =>
      case Count(_) =>
      case Free(_) =>
      case Others(_) =>
    }
  }

  lemma ConcludeDecides(s: State, id: Id, x: Session, ok: bool)
    ensures var t := Conclude(s, id, x, ok);
            t.store == s.store && id in t.sessions && t.sessions[id] == x.(phase := Ending(ok, ok))
  {
  }

  lemma NextTryPuts(x: Session, o: Outcome)
    requires x.phase.Putting?
    ensures NextTry(x, o).Some? ==> NextTry(x, o).value.Putting?
  {
  }

  lemma GoOnDecides(s: State, id: Id, x: Session, next: Option<Phase>)
    requires next.Some? ==> next.value.Putting?
    ensures var t := GoOn(s, id, x, next); id in t.sessions && !ReportsStored(t.sessions[id].phase)
  {
    if next.None? { ConcludeDecides(s, id, x, false); }
  }

  lemma AfterPutDecides(s: State, id: Id, x: Session, o: Outcome)
    requires x.phase.Putting?
    ensures var t := AfterPut(s, id, x, o);
            && id in t.sessions && t.store == s.store
            && (ReportsStored(t.sessions[id].phase) ==>
                  && o == Stored && t.sessions[id].passed == x.passed
                  && t.sessions[id].path == if x.phase.attempt > 0 then x.phase.target else x.path)
  {
    AfterPutStore(s, id, x, o);
    if o != Stored {
      NextTryPuts(x, o);
      GoOnDecides(s, id, x, NextTry(x, o));
    }
  }

  lemma {:induction false} PutDecides(s: State, id: Id, x: Session, openOk: bool, cancelled: bool, fault: Fault)
    requires x.phase.Putting? && Spooled(ViewOf(s.spool, id), x) && id in s.sessions && s.sessions[id] == x
    requires PhaseOk(x.path, x.phase)
    ensures var t := PutStep(s, id, x, openOk, cancelled, fault);
            id in t.sessions && ReportsStored(t.sessions[id].phase) ==> InStore(t.store, t.sessions[id])
  {
    if x.phase.tries == 1 && !openOk {
    } else if x.phase.tries > 1 && cancelled {
      AfterPutDecides(s, id, x, Aborted);
    } else if KeyOf(x.phase.target).None? {
      AfterPutDecides(s, id, x, BadPath);
    } else {
      var key, overwrite := KeyOf(x.phase.target).value, x.account.policy == Overwrite;
      PutTurnSafe(s.store, key, s.spool.files[id], overwrite, Turn([], fault, false));
      var (t, o) := PutTurn(s.store, key, s.spool.files[id], overwrite, Turn([], fault, false));
      AfterPutDecides(s.(store := t), id, x, o);
    }
  }

  lemma {:induction false} DecidedByPut(c: Config, s: State, e: Event, id: Id)
    requires Sound(c) && Inv(c, s) && id in s.sessions && id in Apply(c, s, e).sessions
    requires !ReportsStored(s.sessions[id].phase) && ReportsStored(Apply(c, s, e).sessions[id].phase)
    ensures InStore(Apply(c, s, e).store, Apply(c, s, e).sessions[id])
  {
    hide StartStep, WriteStep, WriteEndStep, CloseStep, KeyOf, RenameCandidate;
    var x := s.sessions[id];
    assert SessionOk(ViewOf(s.spool, id), s.store, x, NoOverwrite(c));
    if e.Others? || e.id != id {
      OtherSessionStays(c, s, e, id);
    } else if e.PutOne? && x.phase.Putting? {
      PutDecides(s, id, x, e.openOk, e.cancelled, e.fault);
    } else if !e.PutOne? && !e.Open? {
      StepDecides(c, s, id, x, e);
    }
  }

  lemma EffectsLocal(c: Config, s: State, t: State, id: Id, j: Id)
    requires id in s.sessions && Moved(c, s, t, id) && j in s.sessions && j != id
    ensures j in t.sessions && t.sessions[j] == s.sessions[j]
  {
  }

  lemma {:induction false} OtherSessionStays(c: Config, s: State, e: Event, id: Id)
    requires Sound(c) && Inv(c, s) && id in s.sessions && (e.Others? || e.id != id)
    ensures id in Apply(c, s, e).sessions && Apply(c, s, e).sessions[id] == s.sessions[id]
  {
    hide SessionStep, KeyOf, SessionOk, SpoolMoved;
    if !e.Open? && !e.Others? && e.id in s.sessions {
      SessionStepKeeps(c, s, e);
      EffectsLocal(c, s, SessionStep(c, s, e.id, s.sessions[e.id], e), e.id, id);
    }
  }

  // The step is a PUT of an overwriting account to key.
  predicate OverwritesAt(s: State, e: Event, key: Key) {
    && e.PutOne? && e.id in s.sessions && s.sessions[e.id].account.policy == Overwrite
    && s.sessions[e.id].phase.Putting? && KeyOf(s.sessions[e.id].phase.target) == Some(key)
  }

  lemma {:induction false} PutStepKeeps(s: State, id: Id, x: Session, openOk: bool, cancelled: bool, fault: Fault,
                                        key: Key)
    requires key in s.store && x.phase.Putting?
    requires x.account.policy == Overwrite ==> KeyOf(x.phase.target) != Some(key)
    ensures var t := PutStep(s, id, x, openOk, cancelled, fault).store; key in t && t[key] == s.store[key]
  {
    hide RenameCandidate, KeyOf, Conclude, GoOn, NextTry;
    AfterPutStore(s, id, x, Aborted);
    AfterPutStore(s, id, x, BadPath);
    ConcludeDecides(s, id, x, false);
    if id in s.spool.files && KeyOf(x.phase.target).Some? {
      var to, data, overwrite := KeyOf(x.phase.target).value, s.spool.files[id], x.account.policy == Overwrite;
      PutTurnElsewhere(s.store, to, data, overwrite, Turn([], fault, false), key);
      var (t, o) := PutTurn(s.store, to, data, overwrite, Turn([], fault, false));
      AfterPutStore(s.(store := t), id, x, o);
    }
  }

  // With accounts of any policies a resource stays as it is until such a PUT.
  lemma {:induction false} StepKeepsResource(c: Config, s: State, e: Event, key: Key)
    requires key in s.store && !OverwritesAt(s, e, key)
    ensures key in Apply(c, s, e).store && Apply(c, s, e).store[key] == s.store[key]
  {
    hide SessionStep;
    OnlyOverwritersOverwrite(c, s, e);
    if e.PutOne? && e.id in s.sessions {
      PutOnly(c, s, e.id, e.openOk, e.cancelled, e.fault);
      if s.sessions[e.id].phase.Putting? {
        PutStepKeeps(s, e.id, s.sessions[e.id], e.openOk, e.cancelled, e.fault, key);
      }
    }
  }

  lemma PutOnly(c: Config, s: State, id: Id, openOk: bool, cancelled: bool, fault: Fault)
    requires id in s.sessions
    ensures Apply(c, s, PutOne(id, openOk, cancelled, fault))
            == PutStep(s, id, s.sessions[id], openOk, cancelled, fault)
    ensures !s.sessions[id].phase.Putting? ==> PutStep(s, id, s.sessions[id], openOk, cancelled, fault) == s
  {
  }

  // No step of the run from s on overwrites key.
  predicate Untouched(c: Config, s: State, es: seq<Event>, key: Key) {
    es != [] ==> var before := es[..|es| - 1];
                 Untouched(c, s, before, key) && !OverwritesAt(Run(c, s, before), es[|es| - 1], key)
  }

  lemma {:induction false} ResourceStays(c: Config, s: State, es: seq<Event>, key: Key)
    requires key in s.store && Untouched(c, s, es, key)
    ensures key in Run(c, s, es).store && Run(c, s, es).store[key] == s.store[key]
  {
    hide Apply, OverwritesAt;
    if es != [] {
      var n := |es| - 1;
      ResourceStays(c, s, es[..n], key);
      StepKeepsResource(c, Run(c, s, es[..n]), es[n], key);
    }
  }

  // The record of an upload that reports success is final.
  ghost predicate Final(x: Session, y: Session) {
    ReportsStored(x.phase) ==> ReportsStored(y.phase) && y.path == x.path && y.passed == x.passed
  }

  lemma OwnFinal(c: Config, s: State, id: Id, x: Session, e: Event)
    requires id in s.sessions && s.sessions[id] == x && ReportsStored(x.phase)
    requires x.phase.Ending? ==> x.phase.nil == x.phase.stored
    ensures id in SessionStep(c, s, id, x, e).sessions && Final(x, SessionStep(c, s, id, x, e).sessions[id])
  {
    hide KeyOf, RenameCandidate, AfterFinish;
  }

  lemma {:induction false} StepFinal(c: Config, s: State, e: Event, id: Id)
    requires Sound(c) && Inv(c, s) && id in s.sessions && ReportsStored(s.sessions[id].phase)
    ensures id in Apply(c, s, e).sessions && Final(s.sessions[id], Apply(c, s, e).sessions[id])
  {
    hide SessionStep;
    if e.Others? || e.id != id {
      OtherSessionStays(c, s, e, id);
    } else if !e.Open? {
      assert SessionOk(ViewOf(s.spool, id), s.store, s.sessions[id], NoOverwrite(c));
      OwnFinal(c, s, id, s.sessions[id], e);
    }
  }

  lemma {:induction false} RunFinal(c: Config, s: State, es: seq<Event>, id: Id)
    requires Sound(c) && Inv(c, s) && id in s.sessions && ReportsStored(s.sessions[id].phase)
    ensures Inv(c, Run(c, s, es))
    ensures id in Run(c, s, es).sessions && Final(s.sessions[id], Run(c, s, es).sessions[id])
  {
    hide Apply, Inv;
    if es != [] {
      var n := |es| - 1;
      RunFinal(c, s, es[..n], id);
      ApplyKeeps(c, Run(c, s, es[..n]), es[n]);
      StepFinal(c, Run(c, s, es[..n]), es[n], id);
    }
  }

  // With accounts of any policies, overwriting ones included: from the step that made it a
  // success on, exactly the upload's bytes are at its recorded path, until an overwriting account
  // sends a PUT there.
  lemma {:induction false} StoredUntilOverwritten(c: Config, store: Store, es: seq<Event>, e: Event, more: seq<Event>,
                                                  id: Id, key: Key)
    requires Sound(c)
    requires var s := Run(c, Init(c, store), es);
             && id in s.sessions && id in Apply(c, s, e).sessions
             && !ReportsStored(s.sessions[id].phase) && ReportsStored(Apply(c, s, e).sessions[id].phase)
             && KeyOf(Apply(c, s, e).sessions[id].path) == Some(key)
             && Untouched(c, Apply(c, s, e), more, key)
    ensures var t := Run(c, Apply(c, Run(c, Init(c, store), es), e), more);
            id in t.sessions && ReportsStored(t.sessions[id].phase) && InStore(t.store, t.sessions[id])
  {
    hide Apply, Inv, Sound, Untouched, KeyOf;
    var s := Run(c, Init(c, store), es);
    RunInv(c, store, es);
    StoredWhenDecided(c, store, es, e, id);
    ApplyKeeps(c, s, e);
    RunFinal(c, Apply(c, s, e), more, id);
    ResourceStays(c, Apply(c, s, e), more, key);
  }

  // Close returns nil exactly when the upload is counted as a success: the incomplete branch,
  // which would return nil for an aborted upload, is never reached.
  lemma NilMeansSuccess(c: Config, store: Store, es: seq<Event>, id: Id)
    requires Sound(c) && id in Run(c, Init(c, store), es).sessions
    ensures var p := Run(c, Init(c, store), es).sessions[id].phase; p.Ending? ==> p.nil == p.stored
  {
    RunInv(c, store, es);
    var s := Run(c, Init(c, store), es);
    assert SessionOk(ViewOf(s.spool, id), s.store, s.sessions[id], NoOverwrite(c));
  }

  // No open and no close is between two of its steps.
  ghost predicate Quiescent(s: State) {
    forall id :: id in s.sessions ==>
      var p := s.sessions[id].phase; p.Idle? || p.Writing? || p.Done? || p.Refused?
  }

  function OpenWriters(sessions: map<Id, Session>): set<Id> {
    set id | id in sessions && (sessions[id].phase.Idle? || sessions[id].phase.Writing?)
  }

  function WritersOf(sessions: map<Id, Session>, user: string): set<Id> {
    set id | id in OpenWriters(sessions) && sessions[id].account.username == user
  }

  lemma QuiescentCounts(s: State, user: string)
    requires Quiescent(s)
    ensures Pendings(s.sessions) == OpenWriters(s.sessions)
    ensures Holders(s.sessions, user) == WritersOf(s.sessions, user)
  {
  }

  // In every reachable state a capped account's tokens are its open writers plus its opens and
  // closes in progress, never above the cap; between steps the tokens are the open writers and
  // every upload ever opened is open, successful or failed. The spool counter is conserved.
  lemma {:induction false} SlotsCountersBytes(c: Config, store: Store, es: seq<Event>, user: string)
    requires Sound(c) && user in c.accounts && c.accounts[user].maxUploads > 0
    ensures var s := Run(c, Init(c, store), es);
            && Tokens(s.slots, user) == |Holders(s.sessions, user)| <= c.accounts[user].maxUploads
            && s.total == s.success + s.failed + |Pendings(s.sessions)|
            && s.success == |Outcomes(s.sessions, true)| && s.failed == |Outcomes(s.sessions, false)|
            && Spool.Conserved(s.spool) && s.spool.capacity == c.capacity
            && (Quiescent(s) ==>
                  && Holders(s.sessions, user) == WritersOf(s.sessions, user)
                  && s.total == s.success + s.failed + |OpenWriters(s.sessions)|)
  {
    RunInv(c, store, es);
    var s := Run(c, Init(c, store), es);
    CountersAddUp(s);
    if Quiescent(s) { QuiescentCounts(s, user); }
  }
}
