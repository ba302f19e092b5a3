/** The program's objects as a running bridge: next to the driver, the spool manager, the WebDAV
    client and the open writers stands the state of the machine of module Bridge that they show.
    Every call - an open, a write, a disconnect, a close - takes that state along a run of the
    machine, so what is proved of all runs holds of the objects after any sequence of calls. */
module LiveBridge {
  import opened Text
  import opened Results
  import opened GoPath
  import opened RemoteStore
  import opened WebdavPath
  import opened WebdavClient
  import opened Transfer
  import opened UploadManager
  import opened Driver
  import opened Bridge
  import opened BridgeRuns
  import Spool

  class Live {
    const config: Config
    const first: Store
    const driver: BridgeDriver
    const manager: Manager
    const transfer: TransferManager
    const webdav: Client
    ghost var state: State
    ghost var writers: map<Spool.Id, UploadWriter>  // the open ones

    // The machine has run from its initial state to this one.
    ghost predicate Reached()
      reads this`state
    {
      Sound(config) && Leads(config, Init(config, first), state)
    }

    // The objects that all uploads share show the state.
    ghost predicate Shows()
      reads this`state, driver, manager, manager.started.Values, webdav.remote`store
    {
      && manager.Valid() && manager.Model() == state.spool && webdav.remote.store == state.store
      && driver.uploadSlots == state.slots && driver.uploadsTotal == state.total
      && driver.uploadsSuccess == state.success && driver.uploadsFailed == state.failed
      && transfer.client.remote == webdav.remote
      && forall user :: user in transfer.targetConfigs ==> CleanAbs(transfer.targetConfigs[user].root)
    }

    // A writer shows its session.
    ghost predicate Backs(w: UploadWriter, id: Spool.Id)
      reads this`state, manager, w
    {
      && w.Serves(driver, w.account, manager, transfer, webdav) && w.path != ""
      && w.upload.id == id && manager.Knows(w.upload) && w.upload.limit == w.account.maxSize
      && id in state.sessions
      && state.sessions[id] == Session(w.account, w.path, w.passed, w.writeErr.Some?, Idle)
    }

    ghost predicate Valid()
      reads this, driver, manager, manager.started.Values, webdav.remote`store, writers.Values
    {
      Reached() && Shows() && forall id :: id in writers ==> Backs(writers[id], id)
    }

    constructor (config: Config, driver: BridgeDriver, manager: Manager, transfer: TransferManager, webdav: Client)
      requires Sound(config) && manager.Valid() && manager.Model() == Spool.Init(config.capacity)
      requires driver.uploadSlots == map[] && driver.uploadsTotal == driver.uploadsSuccess == driver.uploadsFailed == 0
      requires transfer.client.remote == webdav.remote
      requires forall user :: user in transfer.targetConfigs ==> CleanAbs(transfer.targetConfigs[user].root)
      ensures Valid() && writers == map[] && this.config == config && first == webdav.remote.store
      ensures this.driver == driver && this.manager == manager && this.transfer == transfer && this.webdav == webdav
    {
      this.config, this.first := config, webdav.remote.store;
      this.driver, this.manager, this.transfer, this.webdav := driver, manager, transfer, webdav;
      state, writers := Init(config, webdav.remote.store), map[];
      new;
      SelfLeads(config, state);
    }

    // What is proved of every run holds of the state.
    lemma StateInv()
      requires Reached()
      ensures Inv(config, state)
    {
      var es :| Run(config, Init(config, first), es) == state;
      RunInv(config, first, es);
    }

    lemma StillReached(from: State)
      requires Sound(config) && Leads(config, Init(config, first), from) && Leads(config, from, state)
      ensures Reached()
    {
      LeadsOn(config, Init(config, first), from, state);
    }

    // After any sequence of calls every upload that reported success is in the server's store,
    // at a path of its own; accounts that overwrite are excluded.
    lemma StoredOnServer(i: Spool.Id, j: Spool.Id)
      requires Valid() && NoOverwrite(config) && i in state.sessions && state.sessions[i].phase == Done(true)
      ensures InStore(webdav.remote.store, state.sessions[i])
      ensures i != j && j in state.sessions && state.sessions[j].phase == Done(true) ==>
                KeyOf(state.sessions[i].path) != KeyOf(state.sessions[j].path)
    {
      var es :| Run(config, Init(config, first), es) == state;
      SuccessMeansStored(config, first, es, i, j);
    }

    // And nothing that was on the server is changed by the calls that lead from here to later.
    lemma CallsOnlyCreate(later: State)
      requires Reached() && NoOverwrite(config) && Leads(config, state, later)
      ensures CreateOnly(state.store, later.store)
    {
      var es :| Run(config, Init(config, first), es) == state;
      var more :| Run(config, state, more) == later;
      RunAppend(config, Init(config, first), es, more, es + more);
      NoSilentOverwrite(config, first, es, more);
    }

    // The writer of an open upload is ready for every call.
    lemma WriterReady(w: UploadWriter, id: Spool.Id)
      requires Reached() && Shows() && Backs(w, id)
      ensures Inv(config, state) && w.Valid() && w.Whole() && id in state.spool.uploads
      ensures state.spool.uploads[id] == w.upload.Value() && w.upload.size == 0
      ensures id in manager.activeUploads && id !in state.spool.flight
      ensures w.Sound() && manager.maxTotalSize + config.chunk < TWO63
    {
      StateInv();
      InvReady(config, state, id);
      assert state.spool.uploads[id] == w.upload.Value();
    }

    // Nothing is known yet of an upload that has no session.
    lemma Unknown(id: Spool.Id)
      requires Reached() && Shows() && id !in state.sessions
      ensures Inv(config, state) && id !in state.spool.uploads
      ensures id !in manager.started && id !in manager.flight && id !in manager.removed
    {
      StateInv();
      assert manager.started.Keys == state.spool.uploads.Keys;
    }

    // A STOR of this account to path finds nothing in its way.
    ghost predicate Welcomed(account: Account, path: string)
      reads webdav.remote`store
    {
      && account.username in transfer.targetConfigs
      && Welcome(transfer.targetConfigs[account.username], account, path, webdav.remote.store, webdav.remote.world)
    }

    // The account has a slot left, its name and its limit are acceptable, and the disk lets the
    // file be created.
    predicate HasRoom(account: Account, path: string, diskOk: bool)
      reads driver`uploadSlots
    {
      && (account.maxUploads <= 0
          || (if account.username in driver.uploadSlots then driver.uploadSlots[account.username] else 0)
             < account.maxUploads)
      && account.username != "" && 0 < account.maxSize < TWO63 && !Contains(account.username, "..")
      && account.username in transfer.targetConfigs
      && !Contains(StorPath(transfer.targetConfigs[account.username].root, path), "..") && diskOk
    }

    // A welcomed STOR is admitted exactly if there is room for it.
    lemma RoomAdmits(account: Account, path: string, diskOk: bool)
      requires Reached() && Shows() && Known(config, account) && Welcomed(account, path)
      ensures var target := Target(StorPath(transfer.targetConfigs[account.username].root, path), Base(path));
              Admits(state.slots, account, state.spool, target, diskOk) <==> HasRoom(account, path, diskOk)
    {
      hide Unobstructed;
      StateInv();
      AdmitsIff(state.slots, account, state.spool,
                Target(StorPath(transfer.targetConfigs[account.username].root, path), Base(path)), diskOk);
    }

    // What an open does to the objects, in terms of the state they show
    method OpenObjects(account: Account, path: string, stamp: string, id: Spool.Id, fileID: string, diskOk: bool)
      returns (r: Result<UploadWriter, DriverError>, ghost target: Option<Target>)
      requires Reached() && Shows() && Known(config, account) && id !in state.sessions
      modifies driver`uploadSlots, driver`uploadsTotal, transfer`uploadCounters
      modifies webdav.remote`store, webdav.remote`requests, manager`activeUploads, manager`started
      ensures manager.Valid() && id !in state.spool.uploads && Created(state.store, webdav.remote.store)
      ensures if target.Some? then
                && target.value.path != ""
                && manager.Model() == SpoolAfterOpen(state.slots, account, state.spool, target.value, id, diskOk)
                && driver.uploadSlots == SlotsAfterOpen(state.slots, account, state.spool, target.value, diskOk)
                && (r.Ok? <==> Admits(state.slots, account, state.spool, target.value, diskOk))
              else r.Err? && manager.Model() == state.spool && driver.uploadSlots == state.slots
      ensures driver.uploadsTotal == state.total + One(r.Ok?)
      ensures r.Ok? ==> SlotFree(state.slots, account) && driver.uploadSlots == TakeSlot(state.slots, account)
      ensures r.Err? ==> forall user :: Tokens(driver.uploadSlots, user) == Tokens(state.slots, user)
      ensures r.Err? ==> manager.started == old(manager.started)
      ensures r.Ok? ==>
                && fresh(r.value) && fresh(r.value.upload)
                && manager.started == old(manager.started)[id := r.value.upload]
                && r.value.Serves(driver, account, manager, transfer, webdav) && r.value.path == target.value.path
                && r.value.upload.id == id && r.value.upload.limit == account.maxSize && manager.Knows(r.value.upload)
                && r.value.passed == [] && r.value.writeErr.None? && !r.value.upload.cancelled
                && r.value.upload.size == r.value.upload.bytesReceived == 0
      ensures old(Welcomed(account, path)) ==>
                && (r.Ok? <==> old(HasRoom(account, path, diskOk)))
                && (r.Ok? ==> && r.value.path == StorPath(transfer.targetConfigs[account.username].root, path)
                              && Unobstructed(webdav.remote.store, webdav.remote.world, r.value.path, account.policy))
    {
      hide Manager.Valid, Manager.Model, Bridge.Inv, Leads, SpoolAfterOpen, Opened;
      hide UploadWriter.Sound, UploadWriter.New, ParentsThere, Grown, Welcome, HasRoom, SlotsAfterOpen, Admits, Created;
      hide Unobstructed, SlotFree, TakeSlot, Tokens;
      Unknown(id);
      if Welcomed(account, path) { RoomAdmits(account, path, diskOk); }
      r, target := HandleUploadOpen(driver, account, manager, transfer, webdav, path, stamp, id, fileID, diskOk);
      GrownCreates(state.store, webdav.remote.store, webdav.remote.world);
      if r.Ok? { r.value.NewKnown(id, target.value.path); }
    }

    // The session of an open upload, or of a refused one
    method OpenShown(account: Account, path: string, stamp: string, id: Spool.Id, fileID: string, diskOk: bool)
      returns (r: Result<UploadWriter, DriverError>)
      requires Reached() && Shows() && Known(config, account) && id !in state.sessions
      modifies this`state, driver`uploadSlots, driver`uploadsTotal, transfer`uploadCounters
      modifies webdav.remote`store, webdav.remote`requests, manager`activeUploads, manager`started
      ensures Reached() && Shows() && Leads(config, old(state), state) && state.total == old(state.total) + One(r.Ok?)
      ensures state.success == old(state.success) && state.failed == old(state.failed)
      ensures r.Ok? ==> SlotFree(old(state.slots), account) && state.slots == TakeSlot(old(state.slots), account)
      ensures r.Err? ==> forall user :: Tokens(state.slots, user) == Tokens(old(state.slots), user)
      ensures r.Err? ==> manager.started == old(manager.started)
      ensures r.Ok? ==> && fresh(r.value) && fresh(r.value.upload)
                        && manager.started == old(manager.started)[id := r.value.upload]
                        && r.value.account == account && Backs(r.value, id) && r.value.passed == []
                        && r.value.writeErr.None? && r.value.upload.size == r.value.upload.bytesReceived == 0
                        && !r.value.upload.cancelled
      ensures forall j :: j in old(state.sessions) ==>
                j in state.sessions && state.sessions[j] == old(state.sessions[j])
      ensures old(Welcomed(account, path)) ==>
                && (r.Ok? <==> old(HasRoom(account, path, diskOk)))
                && (r.Ok? ==> && r.value.path == StorPath(transfer.targetConfigs[account.username].root, path)
                              && Unobstructed(webdav.remote.store, webdav.remote.world, r.value.path, account.policy))
    {
      hide Manager.Valid, Manager.Model, Bridge.Inv, Leads, Created, AfterOpenOf, SpoolAfterOpen, SlotsAfterOpen;
      hide Admits, Flatten, Welcomed, HasRoom, Unobstructed, CleanAbs, SlotFree, TakeSlot, Tokens, StorPath;
      ghost var target;
      r, target := OpenObjects(account, path, stamp, id, fileID, diskOk);
      ghost var s := state.(store := webdav.remote.store);
      if target.Some? {
        OpenRuns(config, state, id, account, target.value, diskOk, webdav.remote.store);
        AfterOpenFields(s, id, account, target.value, diskOk);
        state := AfterOpenOf(s, id, account, target.value, diskOk);
      } else {
        CreationsLead(config, state, webdav.remote.store);
        state := s;
      }
      StillReached(old(state));
    }

    // A STOR command
    method Open(account: Account, path: string, stamp: string, id: Spool.Id, fileID: string, diskOk: bool)
      returns (r: Result<UploadWriter, DriverError>)
      requires Valid() && Known(config, account) && id !in state.sessions
      modifies this`state, this`writers, driver`uploadSlots, driver`uploadsTotal, transfer`uploadCounters
      modifies webdav.remote`store, webdav.remote`requests, manager`activeUploads, manager`started
      ensures Valid() && Leads(config, old(state), state) && state.total == old(state.total) + One(r.Ok?)
      ensures state.success == old(state.success) && state.failed == old(state.failed)
      ensures r.Ok? ==> SlotFree(old(state.slots), account) && state.slots == TakeSlot(old(state.slots), account)
      ensures r.Err? ==> forall user :: Tokens(state.slots, user) == Tokens(old(state.slots), user)
      ensures writers == if r.Ok? then old(writers)[id := r.value] else old(writers)
      ensures r.Ok? ==> && fresh(r.value) && fresh(r.value.upload) && r.value.account == account
                        && r.value.passed == [] && r.value.writeErr.None? && r.value.upload.size == 0
                        && r.value.upload.bytesReceived == 0 && !r.value.upload.cancelled
      ensures old(Welcomed(account, path)) ==>
                && (r.Ok? <==> old(HasRoom(account, path, diskOk)))
                && (r.Ok? ==> && r.value.path == StorPath(transfer.targetConfigs[account.username].root, path)
                              && Unobstructed(webdav.remote.store, webdav.remote.world, r.value.path, account.policy))
    {
      hide Manager.Valid, Manager.Model, Leads, Reached, Shows;
      ghost var before := writers;
      r := OpenShown(account, path, stamp, id, fileID, diskOk);
      forall j | j in before ensures j != id && Backs(before[j], j) {
        assert old(Backs(before[j], j));
      }
      writers := if r.Ok? then before[id := r.value] else before;
    }

    // What a Write does to the objects, in terms of the state they show
    method WriteObjects(w: UploadWriter, id: Spool.Id, p: Bytes, taken: nat) returns (err: Option<DriverError>)
      requires Reached() && Shows() && Backs(w, id) && |p| <= config.chunk && taken <= |p|
      modifies w`writeErr, w`passed, manager`currentUsage, manager`flight, w.upload
      ensures id in state.spool.uploads && manager.Valid() && manager.Knows(w.upload)
      ensures manager.Model() == AfterWrite(state.spool, id, state.sessions[id].latched, p, taken)
      ensures err == w.writeErr && w.passed == old(w.passed) + [p]
      ensures err.Some? <==> state.sessions[id].latched || !Spool.WriteOk(Spool.Machine, state.spool, id, p, taken)
      ensures err.None? <==> old(w.writeErr.None? && !w.upload.cancelled) && taken == |p|
                             && old(w.upload.bytesReceived) + |p| <= w.account.maxSize
                             && old(manager.currentUsage) + |p| <= manager.maxTotalSize
      ensures err.None? ==> && w.upload.bytesReceived == old(w.upload.bytesReceived) + |p| && !w.upload.cancelled
                            && manager.currentUsage == old(manager.currentUsage) + |p|
    {
      hide Manager.Model, AfterWrite, Spool.WriteOk, Bridge.Inv, Bridge.Sound, Leads, Flatten;
      hide UploadWriter.Whole, UploadWriter.Sound;
      WriterReady(w, id);
      err := w.Write(p, taken);
    }

    // A Write as the objects it concerns see it
    method WriteShown(w: UploadWriter, id: Spool.Id, p: Bytes, taken: nat) returns (err: Option<DriverError>)
      requires Reached() && Shows() && Backs(w, id) && |p| <= config.chunk && taken <= |p|
      modifies this`state, w`writeErr, w`passed, manager`currentUsage, manager`flight, w.upload
      ensures Reached() && Shows() && Backs(w, id) && Leads(config, old(state), state)
      ensures id in old(state.sessions) && id in old(state.spool.uploads)
      ensures state == old(AfterWriteOf(state, id, state.sessions[id], p, taken))
      ensures err == w.writeErr && w.passed == old(w.passed) + [p]
      ensures err.None? <==> old(w.writeErr.None? && !w.upload.cancelled) && taken == |p|
                             && old(w.upload.bytesReceived) + |p| <= w.account.maxSize
                             && old(manager.currentUsage) + |p| <= manager.maxTotalSize
      ensures err.None? ==> && w.upload.bytesReceived == old(w.upload.bytesReceived) + |p| && !w.upload.cancelled
                            && manager.currentUsage == old(manager.currentUsage) + |p|
    {
      hide Manager.Valid, Manager.Model, AfterWrite, Spool.WriteOk, Bridge.Inv, Bridge.Sound, Leads, Flatten, CleanAbs;
      hide UploadWriter.Valid, UploadWriter.Whole, UploadWriter.Sound;
      StateInv();
      err := WriteObjects(w, id, p, taken);
      WriteRuns(config, state, id, p, taken);
      state := AfterWriteOf(state, id, state.sessions[id], p, taken);
      StillReached(old(state));
    }

    // A chunk of an open upload
    method Write(w: UploadWriter, id: Spool.Id, p: Bytes, taken: nat) returns (err: Option<DriverError>)
      requires Valid() && id in writers && writers[id] == w && |p| <= config.chunk && taken <= |p|
      modifies this`state, w`writeErr, w`passed, manager`currentUsage, manager`flight, w.upload
      ensures Valid() && Leads(config, old(state), state)
      ensures id in old(state.sessions) && id in old(state.spool.uploads)
      ensures state == old(AfterWriteOf(state, id, state.sessions[id], p, taken))
      ensures err == w.writeErr && w.passed == old(w.passed) + [p]
      ensures err.None? <==> old(w.writeErr.None? && !w.upload.cancelled) && taken == |p|
                             && old(w.upload.bytesReceived) + |p| <= w.account.maxSize
                             && old(manager.currentUsage) + |p| <= manager.maxTotalSize
      ensures err.None? ==> && w.upload.bytesReceived == old(w.upload.bytesReceived) + |p| && !w.upload.cancelled
                            && manager.currentUsage == old(manager.currentUsage) + |p|
    {
      hide Manager.Valid, Manager.Model, AfterWrite, Spool.WriteOk, Leads, Reached, Shows;
      err := WriteShown(w, id, p, taken);
    }

    method DisconnectShown(w: UploadWriter, id: Spool.Id)
      requires Reached() && Shows() && Backs(w, id)
      modifies this`state, w.upload`cancelled
      ensures Reached() && Shows() && Backs(w, id) && Leads(config, old(state), state)
      ensures state == Apply(config, old(state), Disconnect(id))
    {
      hide Manager.Valid, Manager.Model, Bridge.Inv, Bridge.Sound, Leads, Flatten;
      hide UploadWriter.Valid, UploadWriter.Whole, UploadWriter.Sound;
      ghost var next := Apply(config, state, Disconnect(id));
      LeadsTo(config, state, Disconnect(id), next);
      manager.CancelContext(w.upload);
      state := next;
      StillReached(old(state));
    }

    // The client of an open upload disconnects.
    method Disconnected(w: UploadWriter, id: Spool.Id)
      requires Valid() && id in writers && writers[id] == w
      modifies this`state, w.upload`cancelled
      ensures Valid() && Leads(config, old(state), state)
      ensures state == Apply(config, old(state), Disconnect(id))
    {
      hide Manager.Valid, Manager.Model, Leads, Reached, Shows;
      DisconnectShown(w, id);
    }

    // What a Close does to the objects, in terms of the state they show
    method CloseObjects(w: UploadWriter, id: Spool.Id, fault: Spool.FinishFault, openOk: nat -> bool)
      returns (err: Option<DriverError>)
      requires Reached() && Shows() && Backs(w, id)
      modifies w`path, w.upload`open, w.upload`cancelled, webdav.remote
      modifies driver`uploadSlots, driver`uploadsSuccess, driver`uploadsFailed, driver`totalBytesUploaded
      modifies manager`files, manager`activeUploads, manager`currentUsage
      ensures id in state.spool.uploads && manager.Valid()
      ensures var x := state.sessions[id];
              && manager.Model() == AfterClose(state.spool, id, x.latched, fault)
              && driver.uploadSlots == GiveSlot(state.slots, x.account)
              && driver.uploadsSuccess == state.success + One(err.None?)
              && driver.uploadsFailed == state.failed + One(err.Some?)
              && Concluded(Finishes(state.spool, id, x.latched, fault), webdav.remote.world, x.account.policy,
                           Flatten(x.passed), openOk, x.path, state.store, w.Ending(err), err.None?)
              && Landed(state.store, webdav.remote.store, w.path, Flatten(x.passed), x.account.policy, err.None?)
      ensures w.writeErr.Some? ==> err == w.writeErr
      ensures old(w.Clear(fault, openOk)) ==> err.None? && w.path == old(w.path)
    {
      hide Manager.Valid, Manager.Model, Bridge.Inv, Bridge.Sound, Leads, Flatten, AfterClose, Concluded, GiveSlot;
      hide UploadWriter.Valid, UploadWriter.Whole, UploadWriter.Sound, MayEnd, Landed, SentUnder, Unobstructed;
      WriterReady(w, id);
      err := w.Close(fault, openOk);
    }

    // A Close as the objects it concerns see it
    method CloseShown(w: UploadWriter, id: Spool.Id, fault: Spool.FinishFault, openOk: nat -> bool)
      returns (err: Option<DriverError>)
      requires Reached() && Shows() && Backs(w, id)
      modifies this`state, w`path, w.upload`open, w.upload`cancelled, webdav.remote
      modifies driver`uploadSlots, driver`uploadsSuccess, driver`uploadsFailed, driver`totalBytesUploaded
      modifies manager`files, manager`activeUploads, manager`currentUsage
      ensures Reached() && Shows() && Leads(config, old(state), state)
      ensures id in old(state.sessions) && id in old(state.spool.uploads) && id in state.sessions
      ensures state == AfterCloseOf(old(state), id, old(state.sessions[id]), fault, w.Ending(err), err.None?)
      ensures Landed(old(state.store), state.store, w.path, Flatten(w.passed), w.account.policy, err.None?)
      ensures w.writeErr.Some? ==> err == w.writeErr
      ensures state.sessions == old(state.sessions)[id := state.sessions[id]]
      ensures old(w.Clear(fault, openOk)) ==> err.None? && w.path == old(w.path)
    {
      hide Manager.Valid, Manager.Model, Bridge.Inv, Bridge.Sound, Leads, Flatten, AfterClose, Concluded, GiveSlot;
      hide Finishes, Landed, CleanAbs, AfterCloseOf, Unobstructed, UploadWriter.Clear;
      StateInv();
      ghost var x := state.sessions[id];
      err := CloseObjects(w, id, fault, openOk);
      CloseRuns(config, state, id, fault, webdav.remote.world, openOk, w.Ending(err), err.None?);
      AfterCloseFields(state, id, x, fault, w.Ending(err), err.None?);
      state := AfterCloseOf(state, id, x, fault, w.Ending(err), err.None?);
      StillReached(old(state));
    }

    // The end of an upload
    method Close(w: UploadWriter, id: Spool.Id, fault: Spool.FinishFault, openOk: nat -> bool)
      returns (err: Option<DriverError>)
      requires Valid() && id in writers && writers[id] == w
      modifies this`state, this`writers, w`path, w.upload`open, w.upload`cancelled, webdav.remote
      modifies driver`uploadSlots, driver`uploadsSuccess, driver`uploadsFailed, driver`totalBytesUploaded
      modifies manager`files, manager`activeUploads, manager`currentUsage
      ensures Valid() && writers == old(writers) - {id} && Leads(config, old(state), state)
      ensures id in old(state.sessions) && id in old(state.spool.uploads)
      ensures state == AfterCloseOf(old(state), id, old(state.sessions[id]), fault, w.Ending(err), err.None?)
      ensures Landed(old(state.store), state.store, w.path, Flatten(w.passed), w.account.policy, err.None?)
      ensures w.writeErr.Some? ==> err == w.writeErr
      ensures old(w.Clear(fault, openOk)) ==> err.None? && w.path == old(w.path)
    {
      hide Landed, Flatten, Manager.Valid, Manager.Model, Leads, Reached, Shows, AfterClose, AfterCloseOf;
      hide UploadWriter.Ending;
      ghost var before := writers;
      err := CloseShown(w, id, fault, openOk);
      forall j | j in before && j != id ensures Backs(before[j], j) {
        assert before[j] != w && old(Backs(before[j], j));
      }
      writers := before - {id};
    }

    // No write has failed, the client is there, the chunks fit the account's limit and the spool,
    // and the disk takes all of them.
    predicate Fits(w: UploadWriter, chunks: seq<Bytes>, taken: nat -> nat)
      reads w, w.upload, manager
    {
      && w.writeErr.None? && !w.upload.cancelled
      && w.upload.bytesReceived + |Flatten(chunks)| <= w.account.maxSize
      && manager.currentUsage + |Flatten(chunks)| <= manager.maxTotalSize
      && forall i :: 0 <= i < |chunks| ==> taken(i) == |chunks[i]|
    }

    // The chunks of an upload, until one fails
    method WriteAll(w: UploadWriter, id: Spool.Id, chunks: seq<Bytes>, taken: nat -> nat)
      requires Valid() && id in writers && writers[id] == w && w.passed == []
      requires forall i :: 0 <= i < |chunks| ==> |chunks[i]| <= config.chunk && taken(i) <= |chunks[i]|
      modifies this`state, w`writeErr, w`passed, manager`currentUsage, manager`flight, w.upload
      ensures Valid() && Leads(config, old(state), state)
      ensures state.slots == old(state.slots) && state.total == old(state.total)
      ensures state.success == old(state.success) && state.failed == old(state.failed)
      ensures w.writeErr.None? ==> w.passed == chunks
      ensures old(Fits(w, chunks, taken)) ==> w.writeErr.None? && !w.upload.cancelled
    {
      hide Valid, Reached, Shows, Backs, Leads, AfterWrite, Spool.WriteOk, Flatten;
      ghost var fits := Fits(w, chunks, taken);
      assert Flatten(chunks[..0]) == [] by { FlattenPrefix(chunks, 0); }
      var i := 0;
      SelfLeads(config, state);
      while i < |chunks|
        invariant Valid() && Leads(config, old(state), state) && i <= |chunks| && w.passed == chunks[..i]
        invariant state.slots == old(state.slots) && state.total == old(state.total)
        invariant state.success == old(state.success) && state.failed == old(state.failed)
        invariant fits ==>
                    && w.writeErr.None? && !w.upload.cancelled
                    && w.upload.bytesReceived == old(w.upload.bytesReceived) + |Flatten(chunks[..i])|
                    && manager.currentUsage == old(manager.currentUsage) + |Flatten(chunks[..i])|
      {
        FlattenPrefix(chunks, i + 1);
        ghost var before := state;
        var err := Write(w, id, chunks[i], taken(i));
        LeadsOn(config, old(state), before, state);
        assert chunks[..i + 1] == chunks[..i] + [chunks[i]];
        if err.Some? {
          return;
        }
        i := i + 1;
      }
    }

    // What a Close reports
    method Finish(w: UploadWriter, id: Spool.Id, fault: Spool.FinishFault, openOk: nat -> bool)
      returns (err: Option<DriverError>)
      requires Valid() && id in writers && writers[id] == w
      modifies this`state, this`writers, w`path, w.upload`open, w.upload`cancelled, webdav.remote
      modifies driver`uploadSlots, driver`uploadsSuccess, driver`uploadsFailed, driver`totalBytesUploaded
      modifies manager`files, manager`activeUploads, manager`currentUsage
      ensures Valid() && writers == old(writers) - {id} && Leads(config, old(state), state)
      ensures state.slots == GiveSlot(old(state.slots), w.account) && state.total == old(state.total)
      ensures state.success == old(state.success) + One(err.None?)
      ensures state.failed == old(state.failed) + One(err.Some?)
      ensures id in state.sessions && state.sessions[id].phase == Done(err.None?)
      ensures state.sessions[id].passed == w.passed
      ensures err.None? ==> w.writeErr.None? && InStore(state.store, state.sessions[id])
      ensures old(w.Clear(fault, openOk)) ==> err.None? && state.sessions[id].path == old(w.path)
    {
      assert writers[id] == w && Backs(w, id);
      hide Valid, Backs, Reached, Shows, Leads, AfterClose, AfterCloseOf, GiveSlot, Flatten, KeyOf, UploadWriter.Ending;
      ghost var before, x := state, state.sessions[id];
      err := Close(w, id, fault, openOk);
      AfterCloseFields(before, id, x, fault, w.Ending(err), err.None?);
    }

    lemma SameClient(id: Spool.Id)
      requires Valid() && id in writers
      ensures writers[id].webdav == webdav
    {
      assert Backs(writers[id], id);
    }

    // The data and the end of an open upload
    method Transfer(w: UploadWriter, id: Spool.Id, chunks: seq<Bytes>, taken: nat -> nat, fault: Spool.FinishFault,
                    openOk: nat -> bool)
      returns (err: Option<DriverError>)
      requires Valid() && id in writers && writers[id] == w && w.passed == [] && w.upload.size <= 0
      requires forall i :: 0 <= i < |chunks| ==> |chunks[i]| <= config.chunk && taken(i) <= |chunks[i]|
      modifies this`state, this`writers, w, w.upload, webdav.remote
      modifies driver`uploadSlots, driver`uploadsSuccess, driver`uploadsFailed, driver`totalBytesUploaded
      modifies manager`files, manager`activeUploads, manager`currentUsage, manager`flight
      ensures Valid() && writers == old(writers) - {id} && Leads(config, old(state), state)
      ensures state.slots == GiveSlot(old(state.slots), w.account) && state.total == old(state.total)
      ensures state.success == old(state.success) + One(err.None?)
      ensures state.failed == old(state.failed) + One(err.Some?)
      ensures id in state.sessions && state.sessions[id].phase == Done(err.None?)
      ensures err.None? ==> state.sessions[id].passed == chunks && InStore(state.store, state.sessions[id])
      ensures old(Fits(w, chunks, taken) && Unobstructed(webdav.remote.store, webdav.remote.world, w.path,
                                                         w.account.policy))
              && fault == Spool.FinishFault.NoFault && openOk(0) ==>
                err.None? && state.sessions[id].path == old(w.path)
    {
      hide Valid, Backs, Reached, Shows, Leads, GiveSlot, InStore, Fits, Unobstructed;
      SameClient(id);
      ghost var before := state;
      WriteAll(w, id, chunks, taken);
      ghost var closing := state;
      err := Finish(w, id, fault, openOk);
      LeadsOn(config, before, closing, state);
    }

    // Nothing keeps an upload from succeeding: it is welcome, there is room for it, its chunks fit
    // the account's limit and the spool, and the disk works.
    ghost predicate Smooth(account: Account, path: string, diskOk: bool, chunks: seq<Bytes>, taken: nat -> nat,
                           fault: Spool.FinishFault, openOk: nat -> bool)
      reads driver`uploadSlots, manager`currentUsage, webdav.remote`store
    {
      && Welcomed(account, path) && HasRoom(account, path, diskOk) && |Flatten(chunks)| <= account.maxSize
      && manager.currentUsage + |Flatten(chunks)| <= manager.maxTotalSize
      && (forall i :: 0 <= i < |chunks| ==> taken(i) == |chunks[i]|)
      && fault == Spool.FinishFault.NoFault && openOk(0)
    }

    // One upload from STOR to the end of the transfer: the chunks are written until a write
    // fails, and then the file is closed. Whatever happens to it, its slot is given back and its
    // outcome counted; it reports success only if exactly its chunks are stored, and when nothing
    // stands in its way it does, at the path it was sent to.
    method Upload(account: Account, path: string, stamp: string, id: Spool.Id, fileID: string, diskOk: bool,
                  chunks: seq<Bytes>, taken: nat -> nat, fault: Spool.FinishFault, openOk: nat -> bool)
      returns (err: Option<DriverError>)
      requires Valid() && Known(config, account) && id !in state.sessions
      requires forall i :: 0 <= i < |chunks| ==> |chunks[i]| <= config.chunk && taken(i) <= |chunks[i]|
      modifies this`state, this`writers, transfer`uploadCounters, webdav.remote, driver, manager
      ensures Valid() && writers == old(writers) && Leads(config, old(state), state)
      ensures forall user :: Tokens(state.slots, user) == Tokens(old(state.slots), user)
      ensures state.total - old(state.total) == state.success + state.failed - old(state.success) - old(state.failed)
      ensures state.success == old(state.success) + One(err.None?)
      ensures err.None? ==>
                && id in state.sessions && state.sessions[id].phase == Done(true) && state.sessions[id].passed == chunks
                && InStore(state.store, state.sessions[id])
      ensures old(Smooth(account, path, diskOk, chunks, taken, fault, openOk)) ==>
                && err.None? && id in state.sessions
                && state.sessions[id].path == StorPath(transfer.targetConfigs[account.username].root, path)
    {
      hide Valid, Reached, Shows, Backs, Leads, GiveSlot, TakeSlot, Tokens, SlotFree, InStore, Known;
      hide Unobstructed, HasRoom, Welcome, StorPath, Flatten;
      ghost var before, others := state, writers;
      NotOpen(id);
      var r := Open(account, path, stamp, id, fileID, diskOk);
      if r.Err? {
        return Some(r.error);
      }
      ghost var opening := state;
      err := Transfer(r.value, id, chunks, taken, fault, openOk);
      LeadsOn(config, before, opening, state);
      SlotBack(before.slots, account);
      assert others[id := r.value] - {id} == others;
    }

    // Only uploads with a session have a writer.
    lemma NotOpen(id: Spool.Id)
      requires Valid() && id !in state.sessions
      ensures id !in writers
    {
    }
  }

  lemma GrownCreates(s: Store, t: Store, world: nat -> Turn)
    requires Grown(s, t, world)
    ensures Created(s, t)
  {
  }

  // Giving a slot back undoes taking it.
  lemma SlotBack(slots: map<string, nat>, account: Account)
    requires SlotFree(slots, account)
    ensures forall user :: Tokens(GiveSlot(TakeSlot(slots, account), account), user) == Tokens(slots, user)
  {
  }
}
