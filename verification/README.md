# Verified model of the upload path of the oCIS FTP bridge

The bridge takes files over FTP, spools them on disk and stores them in a WebDAV store. This
project models that path - session, spool, commit, store - together with the two trackers that
guard the FTP side and the password hash string, and proves its guarantees.

How the files fit together:

- `Text`, `GoPath`, `Utf8`, `Results`, `MapSum`, `Base64`: byte strings, path.Clean and friends,
  UTF-8, sums over maps, base64. Strings are Go strings: every char is one byte.
- `Spool`: the spool upload manager as a state machine whose chunk writes are three separate
  steps (reserve under the lock, write the file outside it, credit or roll back), in machine and
  in unbounded arithmetic. `UploadManager` holds the class that updates those fields in place;
  each of its methods is proved to be a step of `Spool`. `SpoolStore` adds StoreStream and
  Retrieve.
- `WebdavPath`, `TargetPath`, `UniqueName`: path strings against their meaning as lists of
  components, and the candidate names that avoid collisions. `Containment`: the paths a commit may
  send to, renamed ones included, against the account's root.
- `RemoteStore`, `WebdavClient`: the store as a map from decoded paths to files and collections
  (sections 9.3 and 9.7 of RFC 4918, section 13.1.2 of RFC 9110), a server that may fail with or
  without having carried out the request and that serves other clients between any two requests,
  and the client with its bounded retry.
- `Transfer`, `Driver`: collision handling, parent creation, upload slots, and the Write/Close
  protocol of one upload as imperative code against that server.
- `Bridge`: everything together for any number of uploads, every step interleaving with every
  step of the others and with other clients. Its steps use the functions of `Spool`,
  `WebdavClient`, `UniqueName` and `Driver`. `Stranding` holds what stays counted after uploads
  have ended, and `BridgeRuns` shows that an open, a write and a close are runs of the machine.
  `LiveBridge` puts the objects themselves beside the machine: the driver, the spool manager, the
  WebDAV client and the open writers always show a state the machine has reached, so what is proved
  of all runs holds of them after any sequence of calls.
- `Copies`: how many copies of an upload one commit can leave in the store.
- `AuthTracker`, `ConnTracker`: the login lockout with its janitor, and the connection limits.
- `Phc`: the hash-password printer and the configuration's parser.

Main results:

- No silent overwrite: `Bridge.NoSilentOverwrite`, `Bridge.OnlyOverwritersOverwrite`.
- Success only if stored, at a path no other success shares: `Bridge.SuccessMeansStored`,
  `Bridge.StoredWhenDecided`, `Driver.UploadWriter.Close`.
- And success whenever it can be: `LiveBridge.Live.Upload` for one upload from STOR to its end, and
  for its steps `Driver.AdmitsIff`, `Bridge.OpenGetsSlot`, `Driver.UploadWriter.Write`,
  `Transfer.TransferManager.GenerateUniqueFilename`, `WebdavClient.StreamSends`,
  `Driver.FirstFreePathUsed`.
- The names: a free name is kept (`Transfer.TransferManager.SettleTarget`), and a renamed one keeps
  its extension (`UniqueName.RenamesKeepExtension`, `UniqueName.CandidatesKeepExtension`).
- Conservation of spool bytes, upload slots and counters: `Spool.RunSafe`,
  `Spool.ReleasedExactlyOnce`, `Bridge.SlotsCountersBytes`, `ConnTracker.RunSafe`.
- What is left behind, exactly: `Spool.EmptyIffAllEnded`, `Stranding.ActiveIff`,
  `Stranding.LeftBehind`, `SpoolStore.Store.StoreStream`.
- The imperative code refines the machine: `LiveBridge.Live.Open`, `LiveBridge.Live.Write`,
  `LiveBridge.Live.Close`, `BridgeRuns.CloseRuns`; so for the objects `LiveBridge.Live.StoredOnServer`,
  `LiveBridge.Live.CallsOnlyCreate`, and one upload from STOR to its end: `LiveBridge.Live.Upload`.
- With overwriting accounts: `Bridge.StoredUntilOverwritten`.
- Copies of one upload: `Copies.CopiesBound`, met by `Copies.TwoCopies`.
- Machine integers never wrap where it matters: `Spool.MachineIsIdeal`, `Spool.CapacityCheckExact`.
- Rate limiting: `AuthTracker.WindowBound` (2·maxAttempts − 3 failures per window, sharper than
  2·(maxAttempts − 1)), `AuthTracker.WindowBoundAttained` (no smaller bound holds),
  `AuthTracker.SweepVisibleIff` (when a janitor sweep can be noticed).
- Paths: `TargetPath.TargetIsRootDirFile`, `WebdavPath.NormalizedPathDecodes`,
  `Containment.CommitStaysBelowRoot`, `BridgeRuns.PutsBelowRoot`; which ones are accepted:
  `TargetPath.UploadTargetAccepts`, `WebdavPath.SentIff`.
- Round trips: `Phc.ParsePrint`, `Base64.DecodeEncode`, `SpoolStore.Store.StoreStream`.

Where the code does less than one would expect, the model follows the code and says so:

- A failing FinishUpload leaves the upload active and its bytes counted, and Close does not abort
  it. Close leaves the upload active exactly if no write failed and the upload is cancelled or the
  disk fails to finish its file (`Stranding.CloseStepLeavesIff`, `Driver.UploadWriter.Close`);
  `Stranding.StrandedRun` is a run that ends with every session over and a byte counted, and
  `Stranding.LeftBehind` says for all runs what is left. StoreStream leaves its upload active
  exactly if the stream fits but is too short or cannot be finished (`SpoolStore.Store.StoreStream`).
- The collision probe of an unreachable server answers "free": "taken" is answered exactly if the
  server answers and has something there (`Transfer.TransferManager.CheckCollision`); a file at /a
  and a probe answered 503 is an input (`Transfer.FailedProbeAnswersFree`).
- A STOR of "/." - a path the FTP library may clean before, which is not part of this model - is
  opened for the root itself (`Driver.DotOpensRoot`), and a commit that renames leaves it
  (`Containment.RenamedRootLeaves`); for STOR paths that are clean and not the root every PUT stays
  below the root (`Driver.OpenedStaysBelowRoot`, `BridgeRuns.PutsBelowRoot`).
- A comment speaks of a conflict (412) where a commit under rename takes the next name; the code
  takes it after any upload that did not store, one answered 403 as well (`Driver.NamesInTurn`).
- A PUT that is carried out and answered 503 is sent again, finds its own resource, and is renamed:
  one Close can store several copies, and a failing one can leave some (`Copies.TwoCopies`,
  `Copies.CopiesBound`).
- createParentDirectoriesRecursive reads 409 and 405 as success, so it reports success even with
  a plain file among the ancestors: `Transfer.TransferManager.EnsureParentDirectories` states
  when a success means that the ancestors are collections, `Transfer.FileAmongAncestors` gives a
  store on which it does not.
- A janitor sweep is unobservable only because every login checks before it records
  (`AuthTracker.SweepObservableWithoutCheck`). One that falls between the check and the recording of
  a login can be noticed, exactly as `AuthTracker.SweepVisibleIff` says.
- hash-password prints salts and digests of lengths that the configuration refuses, and the parser
  ignores what follows the parallelism parameter (`Phc.ParsePrint`, `Phc.ParseIgnoresJunk`).

## Model

| member | source | states |
|---|---|---|
| Bridge.NoSilentOverwrite | pkg/ftp/driver.go:1346-1389 | With rename and reject accounts only, from any reachable state on, no interleaving of sessions and other clients changes or removes an existing resource |
| Bridge.OnlyOverwritersOverwrite | pkg/webdav/client.go:197-200 | With accounts of any policies, in any state, only a PUT of an overwriting account can change an existing resource |
| Bridge.SuccessMeansStored | pkg/ftp/driver.go:1216-1316 | In configurations without overwriting accounts: in every reachable state each upload whose Close returned nil has exactly the concatenation of its chunks at its recorded path, and no two of them share a path |
| Bridge.StoredWhenDecided | pkg/ftp/driver.go:1358-1375 | Under every policy, the step that turns an upload into a success leaves exactly its bytes at its recorded path |
| Bridge.StoredUntilOverwritten | pkg/ftp/driver.go:1216-1389 | With accounts of any policies, from the step that made an upload a success on, over every run its record stays and exactly its bytes are at its recorded path, until an overwriting account sends a PUT to that path |
| Bridge.ResourceStays | pkg/webdav/client.go:197-200 | With accounts of any policies, over every run a resource of the store stays as it is until an overwriting account sends a PUT to its path |
| Bridge.NilMeansSuccess | pkg/ftp/driver.go:1228-1268 | In every reachable state Close is about to return nil exactly for the uploads counted as stored: the incomplete branch is never reached |
| Bridge.SlotsCountersBytes | pkg/ftp/driver.go:1027-1153 | In every reachable state a capped account's tokens are its opens in progress, open writers and closes in progress, within the cap; between steps they are its open writers. uploadsSuccess and uploadsFailed are exactly the uploads whose Close returns nil and those whose Close does not, and uploadsTotal is both plus the pending ones - between steps, the open writers; the spool counter is conserved |
| Bridge.OpenGetsSlot | pkg/ftp/driver.go:1027-1048 | In every reachable state an open of an account of the configuration to a non-empty path makes a session exactly while the account is uncapped or holds fewer slots than its cap |
| Bridge.ApplyKeeps | pkg/ftp/driver.go:1168-1316 | Every step of every session and every creation by another client keeps the whole invariant, and without overwriting accounts only creates in the store |
| Bridge.RunInv | pkg/ftp/driver.go:1070-1316 | The invariant of spool, sessions, slots and counters holds after every sequence of events |
| Stranding.CloseStepLeavesIff | pkg/ftp/driver.go:1240-1252 | Close takes the received bytes off the counter unless no write failed and the upload is cancelled or the disk fails to finish its file; then, and only then, the upload stays active |
| Stranding.ActiveIff | pkg/ftp/driver.go:1216-1316 | Over every run an upload is active exactly while its writer is open, and from then on exactly if its Close stranded it |
| Stranding.LeftBehind | pkg/spool/spool.go:561-565 | When every session of a run is over, the active uploads are exactly the stranded ones, the counter is the number of bytes passed to them, and it is 0 exactly if they were empty |
| Stranding.StrandedRun | pkg/ftp/driver.go:1240-1252 | In every configuration with an account that may write a byte: one chunk, a disconnect, Close - every session is over, the upload is active and a byte is counted |
| BridgeRuns.OpenRuns | pkg/ftp/driver.go:1070-1154 | Whatever HandleUploadOpen may do to store, slots, spool and total - refused by the slots, refused by the spool, or accepted - some run of the machine does |
| BridgeRuns.WriteRefines | pkg/ftp/driver.go:1168-1213 | A Write and its end in the machine leave the spool, the latch and the chunks as UploadWriter.Write does |
| BridgeRuns.CloseRuns | pkg/ftp/driver.go:1216-1389 | Whatever UploadWriter.Close may do to the store, the path, the spool, the counters and the slots - parents, renames, retries and what other clients create in between - some run of the machine does, ending with the session over |
| BridgeRuns.TargetsRun | pkg/ftp/driver.go:1342-1389 | In every reachable state the next PUT of a session goes to the path of one of the attempts of a commit to its recorded path |
| BridgeRuns.PutsBelowRoot | pkg/ftp/driver.go:1342-1389 | In every reachable state the next PUT of an upload opened for a clean absolute FTP path goes below its account's root, whatever collision handling and the commit named it |
| LiveBridge.Live.Open | pkg/ftp/driver.go:1070-1154 | After an open the objects again show a state reached by a run; a writer is added exactly if it succeeds, with a slot taken on this driver, and otherwise every account has as many tokens as before. A STOR that nothing on the server stands in the way of gets its own name, still with nothing in its way, exactly if a slot is free, the names and the limit are acceptable and the disk creates the file |
| LiveBridge.Live.Write | pkg/ftp/driver.go:1168-1213 | After a write the objects, all open writers included, show the state the machine reaches by that write; the chunk is taken exactly if nothing failed before, the client is there, the disk takes all of it, and it fits the account's limit and the spool |
| LiveBridge.Live.Disconnected | pkg/spool/spool.go:344-357 | After a disconnect the objects show the machine's state with that upload cancelled |
| LiveBridge.Live.Close | pkg/ftp/driver.go:1216-1316 | After a Close the objects, all other writers included, show the state the machine reaches with the session over and the reported result; success means exactly the chunks are at the recorded path, and it comes when the upload is live and nothing is in the way |
| LiveBridge.Live.StoredOnServer | pkg/ftp/driver.go:1216-1316 | After any sequence of calls, without overwriting accounts, every upload that reported success is in the server's store at a path of its own |
| LiveBridge.Live.CallsOnlyCreate | pkg/ftp/driver.go:1346-1389 | Without overwriting accounts no sequence of calls changes a resource that was on the server |
| LiveBridge.Live.Upload | pkg/ftp/driver.go:1070-1316 | One upload from STOR to its end: every account has as many tokens as before, the upload is counted as opened exactly if it is counted as a success or a failure, and it reports success only if exactly its chunks are stored. It does report success, at the path it was sent to, if nothing on the server stands in the way, a slot is free, the chunks fit the account's limit and the spool, and the disk works |
| Spool.ApplyKeeps | pkg/spool/spool.go:370-565 | Start, reserve, credit, roll back, finish, abort, remove, cancel and delete all keep: the counter is the sum over active uploads and reservations in flight, within the capacity |
| Spool.RunSafe | pkg/spool/spool.go:370-418 | Over every run of any interleaving the counter is conserved and within the capacity, and the machine computes what unbounded integers would |
| Spool.ReleaseExact | pkg/spool/spool.go:525-539 | Releasing takes exactly the received bytes off the counter: the saturating "set to 0" branch is never taken |
| Spool.MachineIsIdeal | pkg/spool/spool.go:276-415 | When the capacity plus the longest chunk fits in int64, no sum or conversion in any step wraps |
| Spool.CapacityCheckExact | pkg/spool/spool.go:394-402 | The capacity check decides like unbounded arithmetic for all counter values exactly when capacity plus the longest chunk fits in uint64 |
| Spool.ChunkAnswered | pkg/spool/spool.go:370-402 | The answer to a chunk in unbounded arithmetic, for known and unknown sizes: cancelled, too large for the announced size or the limit, over the capacity, or taken |
| Spool.WriteTaken | pkg/spool/spool.go:370-418 | A chunk of an active upload is written exactly if the upload is live, the chunk fits its size, its limit and the spool, and the disk takes all of it; only then do received bytes and counter grow, by the chunk |
| Spool.StartAnswered | pkg/spool/spool.go:262-340 | The answer to a start in unbounded arithmetic: each check with its error, in order; of unknown size only names, limit and disk decide |
| Spool.ReleasedExactlyOnce | pkg/spool/spool.go:421-557 | Whatever mixture of FinishUpload, AbortUpload and RemoveUpload runs, an upload's bytes have been released not at all while it is active and exactly once after |
| Spool.FinishReleasesIffOk | pkg/spool/spool.go:421-497 | FinishUpload succeeds and releases an upload's bytes exactly when the upload is not cancelled, not incomplete and open and all four disk operations succeed; otherwise it stays active and counted |
| Spool.ActiveUntilEnded | pkg/spool/spool.go:421-557 | Over every run a started upload is active until the first successful FinishUpload, AbortUpload or RemoveUpload for it, and never again |
| Spool.QuiescentUsage | pkg/spool/spool.go:561-565 | With no reservation in flight the counter is 0 exactly if no active upload has received a byte |
| Spool.EmptyIffAllEnded | pkg/spool/spool.go:561-565 | After any run no upload is active exactly if every started one has been finished successfully, aborted or removed; between chunks the counter is 0 exactly if those that were not have received nothing |
| UploadManager.Manager.CheckStart | pkg/spool/spool.go:262-308 | The checks of StartUpload in their order, as the error function of the state machine |
| UploadManager.Manager.StartUpload | pkg/spool/spool.go:262-367 | The start step; Ok exactly when no check fails; the new upload is fresh and registered |
| UploadManager.Manager.ReserveBytes | pkg/spool/spool.go:370-402 | The reservation under the lock: the step taken, and which error when it is refused; Spool.ChunkAnswered says when, in unbounded arithmetic |
| UploadManager.Manager.Credit | pkg/spool/spool.go:404-418 | A written chunk is appended and added to BytesReceived |
| UploadManager.Manager.RollBack | pkg/spool/spool.go:404-412 | A failed write takes the reservation back and leaves what the disk took in the file, uncounted |
| UploadManager.Manager.WriteChunk | pkg/spool/spool.go:370-418 | Refused without effect, or reserved and then either credited or rolled back |
| UploadManager.Manager.MoveToFinalPath | pkg/spool/spool.go:439-477 | Sync, close, move and chmod in that order, with the state each failure leaves |
| UploadManager.Manager.FinishUpload | pkg/spool/spool.go:421-497 | The finish step; Ok exactly when no check and no disk operation fails; the returned reference |
| UploadManager.Manager.AbortUpload | pkg/spool/spool.go:500-520 | The abort step: cancelled, closed, released |
| UploadManager.Manager.ReleaseUploadBytes | pkg/spool/spool.go:525-539 | The idempotent release step |
| UploadManager.Manager.RemoveUpload | pkg/spool/spool.go:550-557 | The remove step: released, file and context left as they are |
| UploadManager.Manager.CurrentUsage | pkg/spool/spool.go:561-565 | The counter and the number of active uploads; between chunks the counter is 0 exactly if no active upload has received a byte |
| SpoolStore.Reader.Read | pkg/spool/spool.go:671-682 | A read fills a prefix of the shared buffer and leaves the rest of it alone |
| SpoolStore.Store.CopyChunks | pkg/spool/spool.go:671-688 | With one buffer for all reads, success means the upload holds exactly the reader's bytes up to its first empty read, and it comes exactly if no read before it fails, the bytes fit and the disk takes them; every failure discards the upload |
| SpoolStore.Store.StoreStream | pkg/spool/spool.go:650-697 | Ok exactly if the checks pass, the stream fits, has the announced length and is finished, and Retrieve with the returned file ID then gives its bytes back; the upload stays active, its bytes counted, exactly if the stream fits but is shorter or its file cannot be finished |
| SpoolStore.Store.Retrieve | pkg/spool/spool.go:699-735 | The checks and the two paths tried, as a function of the files on disk |
| SpoolStore.StoredIsRetrieved | pkg/spool/spool.go:699-735 | What is on disk under a user's plain file ID is what Retrieve returns |
| SpoolStore.PlainNameIff | pkg/spool/spool.go:705-707 | The file IDs that pass are exactly single components without a backslash, and the lone slash |
| SpoolStore.RetrievedFrom | pkg/spool/spool.go:722-735 | For such a component the result is the file of that name in the user's directory, else the one with "file-" before the name, else not found; both paths are given by their components |
| SpoolStore.RetrievedInside | pkg/spool/spool.go:709-735 | Whatever the user and the file ID, what is returned is on disk at a path below the spool directory, component by component |
| SpoolStore.UserStaysInside | pkg/spool/spool.go:709-720 | A user name without ".." never makes Retrieve leave the spool directory |
| SpoolStore.FileNameIsPlain | pkg/spool/spool.go:575-579 | Generated file names pass the plain-name check of Retrieve |
| TargetPath.NormalizedRootIsClean | pkg/config/config.go:749-759 | Every configured root is a clean absolute path with the same components |
| TargetPath.CleanRootAccepted | pkg/config/config.go:749-759 | A clean absolute root without backslashes is taken as it is |
| TargetPath.DotDotRootRefused | pkg/config/config.go:749-759 | An absolute root with a part ".." is refused |
| TargetPath.NormalizeFtpPathAccepts | pkg/transfer/transfer.go:172-224 | Exactly which paths are accepted: the checks after Clean never fire |
| TargetPath.ReplaceControlRunes | pkg/transfer/transfer.go:258-272 | The loop over the runes computes the cleaned name |
| TargetPath.AsciiCleaned | pkg/transfer/transfer.go:258-272 | In an ASCII name exactly the control characters become underscores, in place |
| TargetPath.ValidCleaned | pkg/transfer/transfer.go:258-272 | Valid UTF-8 without control characters stays as it is |
| TargetPath.SanitizeFilename | pkg/transfer/transfer.go:228-289 | The checks and the loop, as the sanitized-name function |
| TargetPath.SanitizedFilenameSafe | pkg/transfer/transfer.go:228-289 | A sanitized name is one non-empty path part, never "..", and "." only for a base name of "." |
| TargetPath.ValidTargetIsComponentPrefix | pkg/transfer/transfer.go:292-323 | The string test of validateTargetPath is the component-prefix relation, for any root and path |
| TargetPath.TargetContained | pkg/transfer/transfer.go:133-169 | Every accepted target is the root or below it, component by component |
| TargetPath.TargetIsRootDirFile | pkg/transfer/transfer.go:133-169 | Below a configured root the target is accepted exactly when path and name are, and is exactly root, directory and file name: the final validation never fails |
| TargetPath.UploadTargetElements | pkg/ftp/driver.go:1070-1085 | A clean absolute STOR path keeps its components below the root, with only the runes of the file name replaced |
| TargetPath.UploadTargetAccepts | pkg/ftp/driver.go:1070-1085 | A clean absolute STOR path gets a target exactly if its directory has no ".." even inside a name and at most 4096 bytes, neither directory nor name begins with a backslash or a drive letter, and the cleaned name has at most 255 runes |
| WebdavPath.UnescapePathEscape | pkg/webdav/client.go:548-557 | Percent-decoding undoes url.PathEscape and an escaped part holds no slash (section 2.1 of RFC 3986) |
| WebdavPath.EscapedIff | pkg/webdav/client.go:548-557 | Escaping leaves a segment as it is exactly if it consists of letters, digits and "-_.~$&+:=@" |
| WebdavPath.EscapedForm | pkg/webdav/client.go:548-557 | Any other byte becomes a percent sign and its two upper-case hexadecimal digits |
| WebdavPath.EscapeInPlace | pkg/webdav/client.go:548-555 | The loop rewrites every part in place to its escaped form |
| WebdavPath.NormalizePath | pkg/webdav/client.go:493-558 | The checks and the loop, as the normalized-path function |
| WebdavPath.SentIff | pkg/webdav/client.go:493-546 | Requests for a clean absolute path are sent exactly if it is at most 4096 bytes of valid UTF-8, has no control character below 32, no ".." even inside a name, and no colon behind the first slash: the checks after path.Clean never fire |
| Utf8.EncodingIsRead | pkg/webdav/client.go:504 | The encoding of every Unicode scalar value (section 3 of RFC 3629) is read as one rune of its length |
| Utf8.ReadIsEncoding | pkg/webdav/client.go:504 | What is read as a rune is the encoding of a scalar value |
| WebdavPath.NormalizedPathDecodes | pkg/webdav/client.go:493-558 | Decoding the parts of the result gives back exactly the components of path.Clean of the input, and so does a server |
| WebdavPath.NormalizedPathInjective | pkg/webdav/client.go:493-558 | Two accepted absolute paths share a URL path, and a resource, exactly when they clean to the same path |
| WebdavPath.ParentAccepted | pkg/webdav/client.go:493-546 | What is accepted for a PUT is accepted for the MKCOL of its parent |
| WebdavPath.TrailingSlashSameKey | pkg/webdav/client.go:231-237 | The trailing slash of an MKCOL names the same resource |
| RemoteStore.PutPreservesIff | pkg/webdav/client.go:197-200 | A PUT leaves every existing resource of every store unchanged exactly when it carries If-None-Match: * |
| WebdavClient.PutTurnSafe | pkg/webdav/client.go:173-214 | Reported as stored means exactly the body is there, and without overwrite that nothing was; without overwrite no outcome changes an existing resource, whatever fails |
| WebdavClient.PutTurnElsewhere | pkg/webdav/client.go:173-214 | Whatever fails, a PUT changes no existing resource but, with overwrite, the one it goes to |
| WebdavClient.PutAnswers | pkg/webdav/client.go:561-601 | The outcome of every answer to a PUT: of each state of the store on a server that answers, and of each status of a failing one |
| WebdavClient.PutEffect | pkg/webdav/client.go:173-214 | Whatever the client is told, a PUT that is carried out below a collection, with nothing or a file it may overwrite in its place, puts its body there; no other PUT does anything |
| WebdavClient.MkcolTurnSafe | pkg/webdav/client.go:258-267 | With the parent there, reading 409 and 405 as success means that the resource exists |
| WebdavClient.MkcolAnswers | pkg/webdav/client.go:217-285 | What an MKCOL does to the store, and the outcome of every answer to it: success from every server that answers |
| WebdavClient.HeadTurnTaken | pkg/webdav/client.go:288-345 | A HEAD reports a resource exactly when the server answers and has it |
| WebdavClient.HeadAnswers | pkg/webdav/client.go:288-345 | A HEAD changes nothing, and the result of every answer to it |
| WebdavClient.FaultlessPut | pkg/webdav/client.go:561-601 | A server that answers stores the body exactly when parent and target allow it, and never makes the client retry |
| WebdavClient.TriesSafe | pkg/webdav/client.go:136-170 | Over all tries together, whatever fails and whoever creates in between: stored means exactly the body is there, and without overwrite that nothing was; without overwrite no existing resource changes |
| WebdavClient.StreamSends | pkg/webdav/client.go:136-170 | A stream sends a second and a third PUT exactly after an answer of 500, 502, 503 or 504 to the one before, unless the session is cancelled; its outcome is temporary exactly after three such answers |
| WebdavClient.SecondTryStores | pkg/webdav/client.go:136-170 | After a first PUT answered so and not carried out, a second one that is answered and finds the parent and nothing in its way has stored, with exactly two requests |
| WebdavClient.Client.Locate | pkg/webdav/client.go:119-137 | The resource a request goes to, none when the path is refused |
| WebdavClient.Client.DoUpload | pkg/webdav/client.go:173-214 | One PUT of the announced number of bytes, or none when the body does not have them |
| WebdavClient.Client.PutRetrying | pkg/webdav/client.go:136-170 | The loop computes the store, the number of requests and the outcome of the tries; three PUTs exactly before giving up on temporary failures, all to one resource |
| WebdavClient.Client.UploadStream | pkg/webdav/client.go:118-170 | At most three PUTs to the resource of the path, the body rewound each time, with the store and outcome of those tries, and exactly as many as StreamSends counts; stored means exactly the file's bytes; an answered first PUT decides |
| WebdavClient.Client.CreateDirectory | pkg/webdav/client.go:217-285 | One MKCOL and its status mapping |
| WebdavClient.Client.CheckPathExistence | pkg/webdav/client.go:288-345 | One HEAD and its status mapping |
| WebdavClient.Client.Probe | pkg/transfer/transfer.go:377-394 | Found exactly when the HEAD is answered and the store has something there |
| UniqueName.BumpedCounts | pkg/transfer/transfer.go:354-371 | A directory's counter is the number of increments made for it, below 2^64 of them |
| UniqueName.CandidatesDistinct | pkg/transfer/transfer.go:354-371 | No two counter-suffixed candidates of any number of concurrent searches are equal |
| UniqueName.CandidatesKeepExtension | pkg/transfer/transfer.go:333-371 | Of a name stem.e without a dot in e, the candidates are stem, a dash, the time stamp or the counter, and .e; a name without a dot gets the suffix alone |
| UniqueName.RenameStays | pkg/ftp/driver.go:1376-1389 | A rename candidate is a longer name in the same directory; RenamesKeepExtension gives the name |
| UniqueName.CommitPathStays | pkg/ftp/driver.go:1376-1389 | Every attempt of a commit renames the last component and keeps the directory |
| UniqueName.RenamesKeepExtension | pkg/ftp/driver.go:1376-1389 | The second and third paths of a commit to dir/stem.e, with no dot in e, are dir/stem-2.e and dir/stem-2-3.e |
| UniqueName.RenamesWithoutExtension | pkg/ftp/driver.go:1376-1389 | To a name without a dot they add -2 and -2-3 |
| UniqueName.CommitPathsDistinct | pkg/ftp/driver.go:1350-1389 | No two attempts of a commit, however many, share a path |
| Containment.CommitStaysBelowRoot | pkg/ftp/driver.go:1342-1389 | A PUT of an attempt goes to the root or below it exactly if it is the first attempt, the root is the top, or the target has a component below the root |
| Containment.RenamedRootLeaves | pkg/ftp/driver.go:1376-1389 | The root /a as target, from a directory and a name of ".": its first rename goes to /a-2, outside the root |
| Containment.StoredNameHasFile | pkg/ftp/driver.go:1070-1085 | The name settled on for a clean STOR path other than the root is a component of its own |
| GoPath.DotsDropped | pkg/webdav/client.go:531 | path.Clean ignores empty parts and single dots, takes back a component for "..", and stops at the root |
| Transfer.TransferManager.CalculateTargetPath | pkg/transfer/transfer.go:133-169 | The steps of the mapping with the error of the first that fails |
| Transfer.TransferManager.CheckCollision | pkg/transfer/transfer.go:377-394 | Taken exactly when the server answers and the store has something there: a failed probe answers free |
| Transfer.FailedProbeAnswersFree | pkg/transfer/transfer.go:377-394 | A file at /a and a probe answered 503: the path is occupied, and the probe reports an error, which counts as free |
| Transfer.TransferManager.NextCounter | pkg/transfer/transfer.go:358-361 | One increment of the directory's counter under the lock |
| Transfer.TransferManager.SearchCandidates | pkg/transfer/transfer.go:351-373 | The candidate found is the first - the time-stamped one, then those of the counter values that follow - whose probe is not answered with something there; failure only if all are |
| Transfer.SearchAlone | pkg/transfer/transfer.go:333-374 | On an answering server of one's own the search ends at the first name, from the given one on, at which nothing is, without a change to the store |
| Transfer.TransferManager.GenerateUniqueFilename | pkg/transfer/transfer.go:333-374 | The name itself, after one request and without an increment, exactly if its probe is not answered with something there; otherwise the first candidate of which the same holds; at most 99 increments |
| Transfer.TransferManager.ResolveCollision | pkg/transfer/transfer.go:397-422 | Overwrite keeps the name; reject keeps it exactly if no answered probe finds something; rename answers the first of the name and its candidates that no answered probe finds taken, on an answering server of one's own the first that is free |
| Transfer.TransferManager.CreateParents | pkg/transfer/transfer.go:452-473 | Ends for every path; success root-first with nothing in the way means the whole chain of collections; an answering server makes it succeed; nothing off the way is created |
| Transfer.TransferManager.EnsureParentDirectories | pkg/transfer/transfer.go:425-449 | No resource is changed; on a prefix-closed store success means all ancestors are collections exactly when no plain file was among them, also while others create; a server that answers the requests after the probe makes it succeed, whatever became of the probe |
| Transfer.TransferManager.SettleTarget | pkg/transfer/transfer.go:477-515 | The target path of the name settled on; on an answering server of one's own a name that is free, or may be overwritten, is kept, and the probes change nothing |
| Transfer.TransferManager.ProcessUpload | pkg/transfer/transfer.go:477-532 | The path returned is the target path of the name settled on - the name itself or, under rename, one of its candidates -, its ancestors are there exactly if no file was in the way, and on an answering server of one's own nothing is at the path the policy looked up; there a name that is free, or may be overwritten, is kept and only ancestors are created |
| Transfer.FoundHasAncestors | pkg/transfer/transfer.go:439-443 | What the existence check finds on a prefix-closed store has all its ancestors, unless it is a plain file |
| Transfer.FileAmongAncestors | pkg/transfer/transfer.go:425-473 | A file at /a, an upload to /a/b and a server that answers: the path is sendable, so ensuring its parents reports success, and whatever that leaves, they are not all collections |
| Driver.BridgeDriver.AcquireUploadSlot | pkg/ftp/driver.go:1027-1048 | Takes a token exactly when the account is uncapped or its tokens are below its cap; uncapped accounts take none |
| Driver.BridgeDriver.ReleaseUploadSlot | pkg/ftp/driver.go:1053-1067 | Gives one token back, if any was taken |
| Driver.AdmitsIff | pkg/ftp/driver.go:1086-1130 | An upload of unknown size is admitted exactly if its account is uncapped or below its cap, its names and its limit are acceptable and the disk creates its file; the spool counter decides nothing |
| Driver.ActiveIsCounted | pkg/spool/spool.go:370-418 | The spool invariant bounds an active upload between chunks by the counter and the capacity |
| Driver.AfterWriteKeeps | pkg/ftp/driver.go:1168-1213 | While capacity and chunk fit in int64, what a Write does keeps the spool invariant and the upload active, and credits exactly what it appends |
| Driver.CloseLeavesIff | pkg/ftp/driver.go:1216-1316 | For uploads of any recorded size: active after Close exactly if no write failed, no byte is known to be missing, and the upload is cancelled or the disk fails; otherwise exactly the received bytes are taken off |
| Driver.CloseDropsFile | pkg/ftp/driver.go:1240-1282 | The file of a finished upload leaves the spool with its Close, and no other file does |
| Driver.CommitSafe | pkg/ftp/driver.go:1320-1390 | However a commit ends, success means exactly the bytes are at the recorded path, that of one of its attempts, where without overwriting nothing was; failure leaves the recorded path; without overwriting no existing resource changes |
| Driver.NamesInTurn | pkg/ftp/driver.go:1350-1390 | A commit uploads to its target and, under rename only, whatever kept that from storing, to the second and then the third name; it ends with the first upload that stores, else with the outcome of the last |
| Driver.FirstFreePathUsed | pkg/ftp/driver.go:1350-1390 | On an answering server of one's own, a commit under rename stores at the first of its three paths at which nothing is, and without one it fails and leaves the store as it was |
| Driver.UploadWriter.Write | pkg/ftp/driver.go:1168-1213 | A chunk is taken exactly when no error is latched, it passes the checks and the disk takes all of it; the first error is latched; unless one is, the file is the concatenation of all chunks. While capacity and chunk fit in int64 the spool stays sound and the answer is, in this order: the latched error, cancelled, over the announced size or the account's limit, over the capacity, disk error, taken - and only a taken chunk is credited |
| Driver.UploadWriter.SendUnderNames | pkg/ftp/driver.go:1342-1389 | The loop computes the store, the requests, the error and the path of the attempts, which CommitSafe characterises; at most nine PUTs under at most three names |
| Driver.UploadWriter.CommitToWebDAV | pkg/ftp/driver.go:1320-1390 | First the parents, which only creations bring about, then the uploads, unless the parents failed; with nothing in the way it succeeds at the original path |
| Driver.UploadWriter.Close | pkg/ftp/driver.go:1216-1316 | Gives the slot back and counts the outcome once; nil for an upload of unknown size only if exactly the written bytes are stored, and nil, at the path it had, whenever nothing is in the way; without a commit the store is untouched; the spooled file is dropped whatever became of the commit; the upload stays active exactly if no write failed, nothing is known to be missing, and it is cancelled or the disk fails, and then the error says which |
| Driver.HandleUploadOpen | pkg/ftp/driver.go:1070-1154 | Only creates in the store; refused exactly if it gets no target, no slot is free or the spool refuses, leaving all tokens and the total as they were; an accepted one takes one token of this driver, counts once, takes the start step of this spool manager, and yields a writer of recorded size 0, sound if the spool was, that works with exactly the given driver, account, manager, transfer manager and client, whose path is the target of the STOR path under the name settled on, its ancestors there unless a file was in the way; with nothing in the way on the server it is the path of the STOR itself, and still clear; a refusal says whether slots or spool refused |
| Driver.OpenedStaysBelowRoot | pkg/ftp/driver.go:1070-1389 | Every PUT of the commit of an upload opened for a clean absolute FTP path goes below the account's root |
| Driver.DotOpensRoot | pkg/ftp/driver.go:1070-1085 | A STOR of "/." is opened for the root itself |
| Copies.CopiesBound | pkg/ftp/driver.go:1342-1389 | The resources a commit puts its body at number at most one more than its PUTs that were carried out but not answered, none if it fails without such a PUT; everything else new in the store was created by others |
| Copies.CommitCopies | pkg/ftp/driver.go:1320-1390 | The same for every end of a commit, the creation of the parents included |
| Copies.TwoCopies | pkg/ftp/driver.go:1358-1389 | A PUT carried out and answered 503, its retry, and the upload under the second name: two copies of one upload |
| AuthTracker.AuthAttemptTracker.IsIPLockedOut | pkg/ftp/driver.go:157-199 | The check of one address, leaving all others alone |
| AuthTracker.AuthAttemptTracker.RecordAuthAttempt | pkg/ftp/driver.go:202-252 | The recording of one attempt, leaving all other addresses alone |
| AuthTracker.AuthAttemptTracker.SweepAll | pkg/ftp/driver.go:257-277 | The janitor treats every address by itself |
| AuthTracker.RunEntryOk | pkg/ftp/driver.go:183-196 | An unlocked entry always counts fewer than maxAttempts failures, so the repairing branch is never taken |
| AuthTracker.LockoutSound | pkg/ftp/driver.go:227-251 | A lockout set at a time means at least maxAttempts failures in the window before it with no success between |
| AuthTracker.LockedAtLimit | pkg/ftp/driver.go:202-252 | Within the window of a first failure and without a success, fewer than maxAttempts failures lock nothing and the maxAttempts-th does, whatever checks and sweeps come between |
| AuthTracker.LockoutStable | pkg/ftp/driver.go:157-199 | Until lockoutEnd, without a success, every check answers locked and lockoutEnd never moves back |
| AuthTracker.WindowBound | pkg/ftp/driver.go:202-252 | Without success or lockout, no interval as long as the window holds more than 2·maxAttempts − 3 failures |
| AuthTracker.WindowBoundAttained | pkg/ftp/driver.go:202-252 | For every limit of at least 2 and every window some run holds exactly that many |
| AuthTracker.SweepsUnobservable | pkg/ftp/driver.go:507-600 | However the logins of an address overlap, sweeps none of which is visible where it falls change no answer of a check and no result of a recording |
| AuthTracker.SweepVisibleIff | pkg/ftp/driver.go:507-600 | A sweep changes the answer of some later check or recording exactly if a login has passed the check and not recorded, and the entry swept is a lockout that is over or a window that is over with at least two attempts left |
| AuthTracker.BetweenLoginsUnseen | pkg/ftp/driver.go:507-600 | Sweeps that fall between the check and the recording of no login are never visible |
| AuthTracker.SweepObservableWithoutCheck | pkg/ftp/driver.go:257-277 | Without the check before the recording a sweep is observable: a concrete run |
| ConnTracker.ConnectionTracker.AllowConnection | pkg/ftp/driver.go:90-113 | Admits exactly when the global count is below the total limit and the address's count below its own, where there is such a limit, and counts the connection |
| ConnTracker.ConnectionTracker.ReleaseConnection | pkg/ftp/driver.go:116-137 | Counts one connection less, dropping an entry that reaches zero |
| ConnTracker.ConnectionTracker.Sweep | pkg/ftp/driver.go:141-154 | Drops exactly the entries whose count is not positive |
| ConnTracker.FreeIsCounted | pkg/ftp/driver.go:116-137 | A released connection was counted: neither decrement is ever skipped |
| ConnTracker.SweepChangesNothing | pkg/ftp/driver.go:139-154 | No zero count is ever stored, so the sweep changes nothing |
| ConnTracker.ApplyKeeps | pkg/ftp/driver.go:706-756 | Every step of a connect, a rejection, a disconnect and a sweep keeps the counting invariant |
| ConnTracker.RunSafe | pkg/ftp/driver.go:706-756 | Over every interleaving the global count is the sum of the per-address counts and the number of connections holding a slot, each per-address count is exact, and both limits hold |
| ConnTracker.AdmittedIff | pkg/ftp/driver.go:706-756 | In every reachable state a new connection gets a slot exactly while fewer connections than the limits hold one, in all and from its address |
| Base64.DecodeEncode | cmd/hash-password/main.go:100-101 | Decoding undoes encoding for every byte string (section 4 of RFC 4648, no padding) |
| Base64.EncodedBits | cmd/hash-password/main.go:100-101 | Every three bytes and the four symbols for them are the same number of 24 bits, most significant first; symbols without a bit of their own are left out |
| Base64.EncodedVectors | cmd/hash-password/main.go:100-101 | A test vector of section 10 of RFC 4648, and bytes that need the last two symbols |
| Base64.DecodesIff | pkg/config/config.go:786-793 | Accepted are exactly the strings of symbols and line ends whose number of symbols is not one more than a multiple of four |
| Base64.EncodeDecode | pkg/config/config.go:786-793 | Whatever decodes is, line ends apart, the encoding of the result up to unused bits of the last symbol |
| Phc.ParsePrint | pkg/config/config.go:775-805 | A printed string parses to exactly its parameters, or to the error of the parameter out of range or of the salt or digest length at fault, for all parameters |
| Phc.NotArgon2idIff | pkg/config/config.go:775-779 | A string is refused as no Argon2id hash exactly unless it begins with "$argon2id$v=19$" and has five dollar signs |
| Phc.PrintedForm | cmd/hash-password/main.go:96-102 | The printed string of the default parameters, in full |
| Phc.ParseIgnoresJunk | pkg/config/config.go:781-783 | Text after the parallelism parameter that does not start with a digit changes nothing |
| Phc.PrintParsed | pkg/config/config.go:775-805 | Every accepted string has in-range parameters, whose printed form parses to the same result |
| Phc.PrintedHashVerifies | cmd/hash-password/main.go:96-102 | A hash is printed exactly for a non-empty password and numbers in their ranges. For any key derivation that returns keys of the length asked for it verifies its password exactly when the salt has at least 8 bytes and the key 16 to 4096, and then another password exactly when its key is equal |

## Left out

- Sockets, HTTP, TLS, the FTP server library, the Graph SDK, YAML, metrics and logging: foreign code or I/O; a request is one step on the store with a status code.
- Argon2, SHA-256 and the generation of IDs and time stamps: any function, or a parameter; IDs are assumed unique, and an upload is named by its final spool path.
- The clock: one reading per critical section, and it does not run backwards; disabled trackers (nil) and the activeConnections gauge, which is decremented for rejected connections too.
- Disk: a write may be short, and sync, close, move and chmod may fail; permissions, the copy fallback of a move across devices and other failures are not distinguished.
- Finished spool files do not count towards the capacity, and neither does what a failed write leaves behind: as in the code.
- Writes to an upload after RemoveUpload, which leaves the file open.
- The PUT body is a byte source the transport does not close; a body shorter or longer than announced is a transport error without effect on the store.
- A failing server answers none of 2xx, 405 and 409, which the RFCs reserve for the state of the store.
- Collision probes, MKCOL and PUT are taken to address one store, although the code uses the global URL for the first two and the drive URL for the last.
- Other clients only create; clients that delete or overwrite would void every guarantee of the bridge.
- The driver's spoolUploads table and the session time stamps, which no guarantee depends on.
- The branches for a missing WebDAV client or drive, and the fallbacks for an empty target path, which the target mapping never returns.
- The Rel check of StartUpload, which the check for ".." makes unreachable, and TrimSpace of the root check, which decides nothing for a root that starts with a slash.
- The operations server, health cache, spool listing and cleanup, config field validation: small or single-branch claims.
- UploadManager.Manager.WriteChunk: runs its three steps back to back; their interleaving with other uploads is the subject of module Spool.
- Driver.UploadWriter.Close: a sequential run of one upload's Close against a store that others use between requests; the interleaving of its steps with other uploads is in module Bridge, of which it is a run (BridgeRuns.CloseRuns).
- SpoolStore.Store.StoreStream: the exact conditions speak of a manager that no other upload uses meanwhile, whose capacity plus one buffer fits in int64.
- LiveBridge.Live.Write: calls on the objects run one after the other; the steps inside them interleave in module Bridge.
