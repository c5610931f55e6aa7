# Model of the zshell gateway's device layer and OAuth registry

The gateway connects devices, forwards calls to them, relays files from one device to another, and registers
OAuth clients. This project models the parts of it where several goroutines, several locks or several file
operations have to agree, and proves what the rest of the gateway relies on.

## What is modelled

**The transfer engine** (`internal/device/transfer.go`). `TransferModel` writes every region under `transferMu`
as a function on a transfer; `TransferManager` executes the same regions in place on transfer objects and the
manager's tables and is proved to do what those functions say. `TransferEngine` interleaves them: a thread runs
one handler, `relayMu` is an explicit lock, and one step is one region under `transferMu` or `mu`, one hand-over to
a transport, one return from it, or one operation on `relayMu`. Between any two steps other handlers, expiring
timers, disconnects, new sessions and failing sends may come in, in any number and order. Timers run on a monotonic
clock; updates are dated by a wall clock that may be set at any moment. Each transfer carries a
history: all messages handed over for it, the accepted finish messages, and whose liveness `StartTransfer` has
still to find out. `TransferLog` says what a well-ordered log is, by an automaton and by positions in the log, and
connects the two. `TransferLocal` holds the rely/guarantee argument for the owner of `relayMu`,
`TransferInvariant`, `TransferSteps` and `TransferRun` carry it over every step of the engine, and
`TransferTheorems`, `TransferOrigins`, `TransferOutsiders` and `TransferScans` draw the conclusions about all
reachable states and whole runs. `TransferDecisions` says for every point at which a handler decides what becomes of
the transfer and of the handler, from the fields and the message alone; `TransferDigest` says which reported texts count
as one digest; `TransferEndings` follows a bad message to the end of its transfer. `TransferScenes` and `TransferWitness` build particular runs; `TransferStreams` and
`TransferClocks` use both directions to say exactly which streams are relayed and exactly when the two minutes of the
idle timeout can be relied on. `TransferFrame` is the ZTF1 binary frame.

**Locks.** `LockOrder` gives a small language of lock scopes, waits and choices an interleaving semantics for any
number of threads and proves that an order discipline excludes deadlock; `LockTraces` ties that semantics to the
traces of a program; `LockPrograms` writes every entry point
of the device package in that language and shows that it keeps the discipline.

**Sessions** (`internal/device/manager.go`, `internal/device/http.go`). `SessionCalls` is the pending-request table
with its active-call counter under any interleaving of callers, heartbeats, readers and the one close.
`HttpChunk` is the one-slot chunk handshake; it refines a synchronous send that hands over one chunk, settles one
outcome and returns it. `HttpRelay` runs the engine and the handshake of one HTTP target side by side, meeting where
a chunk is handed over and where the hand-over returns. `DeviceSession` and `DeviceRegistry` execute the regions of
the pending table, the chunk slot and the device registry in place on objects; the effects they are proved to have
are the functions by which `SessionCalls` and `HttpChunk` describe the same regions.

**OAuth** (`internal/gateway/oauth_clients.go`, `internal/gateway/oauth.go`). `OAuthClientFile` is the replacement
of the client file as the sequence of disk states it passes through under any failures, `OAuthRegistry` is
registration and restart over it, and `OAuthCodes` is the authorization code grant of section 4.1 of RFC 6749 with
the proof key of section 4.6 of RFC 7636.

## What the code does not quite do

- The guard at `internal/device/transfer.go:397` adds two 64-bit words. It means "does not fit" exactly when the
  declared size plus one maximal chunk (8 MiB less the 28-byte header) is still a 64-bit word. For every larger
  size some run delivers more bytes than were declared. The stored count never exceeds the size in any run, for it
  is the same 64-bit sum. See `GuardExactness`, `StreamsStayWithinSize` and `ChunkAccounts`.
- `README.md:107` of the gateway promises matching byte counts before completion. In every run they match as 64-bit
  words; as numbers they match in all runs exactly under the same condition. See `CompletedMeans` and
  `CompletedSizeExact`.
- Closing a session stores zero in the active-call counter while a caller may be between registering and counting
  itself; the counter of the closed session then stays one too high for each such caller, and for no other reason.
  See `ExactAfterClose` and `CounterDriftsOnClose`.
- The replacement of the client file deletes the backup before it moves the primary aside. It is crash-consistent
  exactly when the registry does not live in that backup behind a primary that cannot be decoded, a state that
  loading accepts. See `CrashConsistency` and `SurvivalCondition`.
- A commit may be handed to the target after the transfer is Completed, because the target's finish does not wait
  for `relayMu`. `CommitMayFollowCompletion` builds such runs. It is the only data that can follow, and only when
  the commit was due to be handed over at the moment of completion: see `OnlyOvertakenCommits` and
  `DataAfterCompletion`.
- `time.Now().UTC()` drops the monotonic reading, so that idleness is measured on the wall clock
  (`internal/device/transfer.go:578`) while the timer runs on the monotonic one. A transfer is failed only after two
  minutes without an update exactly as long as the wall clock is not stepped; each step takes at most its own length
  off. See `TwoMinutesWhen`, `EarlyExpiry` and `ExpiryOnlyWhenIdle`.
- The scan of Detach goes by device name. The detach of a session that has been replaced fails the live transfers
  of its successor as well: see `ScanFailsExactly` and `SuccessorDoomed`. The scan of Manager.Close can miss a
  transfer whose StartTransfer is on its way: see `CloseLeavesOnlyLater` and `CloseMayMiss`.
- The two start messages may follow a cancellation, because `StartTransfer` does not look at the state again after
  taking `relayMu`. `StartMayFollowCancel` is such a run; `StartOrder` says that it happens only to a transfer that
  had already ended by then, and that otherwise both start messages precede every cancellation.
- A source finish with an ill-formed digest fails a transfer whoever sent it. It is the only message by which a
  session that is neither peer can affect a transfer: see `OutsidersDisturbWhen`. `OnlyPeersAdvance` says that no
  such session can advance one.

## Model

| member | source | states |
|---|---|---|
| `TransferTheorems.MessagesInOrder` | internal/device/transfer.go:225-258 | In every interleaving, each message goes to the right peer, one `transfer_send` precedes all chunks, chunks are numbered from 0 in order and precede the one commit, each peer is told of a cancellation at most once, and after either has been told no `transfer_send`, chunk or commit is handed to either |
| `TransferTheorems.NoCancelBesideData` | internal/device/transfer.go:534-560 | While a `transfer_send`, chunk or commit is about to be handed over or inside a transport, no peer has been told of a cancellation |
| `TransferTheorems.StartOrder` | internal/device/transfer.go:173-191 | A start message about to go out precedes every cancellation, unless the transfer had already failed or been cancelled; then it follows all of them |
| `TransferTheorems.StartFollowsCancelWhen` | internal/device/transfer.go:173-191 | A start message about to go to an open session follows a cancellation if and only if the transfer has failed or been cancelled |
| `TransferWitness.StartMayFollowCancel` | internal/device/transfer.go:173-182 | There is a run that tells both peers of a cancellation and then asks the target to prepare |
| `TransferTheorems.NothingForgotten` | internal/device/transfer.go:251-257 | Whenever relayMu is free, a running transfer has told its source to send and no target to commit, a verifying one has told its target to commit its size and digest; so has a completed one unless the target's session is closed, and a failed or cancelled one has told each peer whose session is not closed |
| `TransferTheorems.BothAsked` | internal/device/transfer.go:175-191 | A live transfer has sent both start messages, unless the thread that runs its StartTransfer is still in its relay section |
| `TransferOrigins.DataHasACause` | internal/device/transfer.go:364-421 | Every chunk handed to a target was offered by the transfer's source with the same number and payload, every commit repeats the size and digest of the source's finish, and every `transfer_send` answers a peer's ready message |
| `TransferOrigins.IdleClock` | internal/device/transfer.go:413-418 | Every delivered chunk, change of state and change of readiness dates the last update by the wall clock of that moment, and nothing dates it but a delivered chunk, a change of state, or a handler working on a peer's ready message to a preparing transfer |
| `TransferTheorems.ChunkAccounts` | internal/device/transfer.go:364-421 | Over any run all payloads handed over but at most the last have been delivered, the delivered ones passed the size guard one by one, nextSeq counts them, Transferred is the sum of their lengths and never exceeds Size, and at rest nothing is in between |
| `TransferTheorems.RecheckHolds` | internal/device/transfer.go:413-418 | The check made again after a chunk has been sent never fails |
| `TransferTheorems.GuardExactness` | internal/device/transfer.go:397 | The size guard refuses exactly the chunks that do not fit if and only if Size plus a maximal chunk is a 64-bit word |
| `TransferStreams.DeliveredStreams` | internal/device/transfer.go:364-421 | The streams delivered in some run are exactly those of deliverable chunks that pass the guard one by one |
| `TransferStreams.CompletedStreams` | internal/device/transfer.go:440-487 | The streams of completed transfers, over all runs, are exactly those that in addition bring Transferred to the declared size |
| `TransferStreams.StreamsStayWithinSize` | internal/device/transfer.go:397-416 | No transfer of a given size, in any run, delivers more bytes than declared, if and only if the size plus a maximal chunk is a 64-bit word |
| `TransferStreams.CompletedSizeExact` | README.md:107 | Every completed transfer of a given size, in any run, was handed exactly the declared number of bytes, if and only if the same condition holds |
| `TransferTheorems.CompletedMeans` | internal/device/transfer.go:423-487 | A completed transfer had both peers ready, delivered all it handed over, a stream that passed the guard and brought Transferred to the declared size, and got finish messages from both peers with that size and one digest: sixty-four lower-case hexadecimal characters that each report spells, in either case and with white space around it |
| `TransferDecisions.ResolveDecides` | internal/device/transfer.go:128-135 | StartTransfer resolves the source, then the target, and fails if either is not connected |
| `TransferDecisions.PublishDecides` | internal/device/transfer.go:157-173 | It publishes a new transfer between these devices and sessions if and only if no live transfer uses either device |
| `TransferDecisions.ForgottenWhen` | internal/device/transfer.go:623-641 | A transfer leaves the history only when another is published and 256 are listed, and only if it is over and none that is over and stays was updated before it |
| `TransferDecisions.StartDecides` | internal/device/transfer.go:175-182 | The target is asked to prepare first |
| `TransferDecisions.SourceReadyDecides` | internal/device/transfer.go:294-318 | The source's ready message to a preparing transfer records the size and, if the target is ready, starts the stream; any other one is ignored |
| `TransferDecisions.TargetReadyDecides` | internal/device/transfer.go:330-352 | The target's ready message to a preparing transfer starts the stream if the source is ready; any other one is ignored |
| `TransferDecisions.ChunkDecides` | internal/device/transfer.go:378-403 | A chunk of the source of a running transfer is relayed to the target if and only if it has the number that is due and the 64-bit sum fits the size; otherwise it fails the transfer; any other chunk is ignored |
| `TransferDecisions.SentChunkDecides` | internal/device/transfer.go:413-419 | A chunk the transport has taken is recorded, whatever has happened meanwhile |
| `TransferDecisions.SourceFinishDecides` | internal/device/transfer.go:440-462 | The source's finish of a running transfer leads to Verifying and a commit of that size and digest if and only if the size is the declared one and has been relayed; otherwise it fails the transfer; any other one is ignored |
| `TransferDecisions.FinishCheckDecides` | internal/device/transfer.go:423-434 | A source finish whose digest no text of a digest spells leads to failure, any other one to a look at the transfer |
| `TransferDecisions.TargetFinishDecides` | internal/device/transfer.go:467-487 | The target's finish of a verifying transfer completes it if and only if the size is the declared one and the report spells the source's digest; otherwise its handler goes on to fail the transfer; any other one is ignored |
| `TransferDecisions.ReportDecides` | internal/device/transfer.go:489-520 | A report of failure by a peer, or of cancellation by the source, leads to the failure of a live transfer, and no other report does |
| `TransferDecisions.EndDecides` | internal/device/transfer.go:230-249 | Cancelling takes a live transfer to Cancelled, failing to Failed, with both peers to be told, the source first; neither does anything to one that is over |
| `TransferDecisions.TellDecides` | internal/device/transfer.go:251-257 | Each peer is told of the end in turn unless its session is closed |
| `TransferDecisions.HandDecides` | internal/device/manager.go:514-527 | A message goes out to an open session, and fails the transfer if the session is closed |
| `TransferDecisions.SentDecides` | internal/device/transfer.go:177-191 | A failed send of any message fails the transfer; after the target's start message the source's follows, after a chunk its record |
| `TransferDecisions.LookupDecides` | internal/device/transfer.go:522-530 | A handler goes on to relayMu if the transfer is listed, as every live one is |
| `TransferDecisions.AwaitDecides` | internal/device/transfer.go:193-199 | StartTransfer returns only when the transfer is no longer preparing; given up by its caller, it goes on to cancel |
| `TransferDecisions.DetachDecides` | internal/device/manager.go:296-304 | Detach unbinds the device only from the session being detached, closes that session and no other, and goes on to the scan |
| `TransferEndings.FailureIsCertain` | internal/device/transfer.go:522-560 | A handler on its way to fail a transfer does not end before the transfer is over |
| `TransferEndings.FailNowIsCertain` | internal/device/transfer.go:534-560 | Nor does one that has met a bad chunk, a bad finish or a failed send |
| `TransferEndings.BadReportEnds` | internal/device/transfer.go:423-520 | When the handler of a peer's failure report, of the source's cancellation report, of a target finish with another size or digest, or of a source finish without a digest is done, the transfer it found live is over |
| `TransferEndings.BadStreamEnds` | internal/device/transfer.go:391-449 | When the handler of a chunk that is not due or does not fit, or of a source finish of a wrong size, is done, the transfer is over |
| `TransferStarters.OnlyStarterStarts` | internal/device/transfer.go:113-200 | StartTransfer's thread, once it has published, is at its relay section or waits for readiness, at no other place |
| `TransferDigest.NormaliseExact` | internal/device/transfer.go:468 | A report is compared as a given lower-case digest if and only if it spells that digest, in either case and with white space around it |
| `TransferDigest.WellFormedWhen` | internal/device/transfer.go:424-425 | The check of the source's digest accepts exactly the texts that spell some digest |
| `TransferTheorems.OnlyForward` | internal/device/transfer.go:32-39 | Over any stretch of any run the state only moves forward, final states are absorbing, the size is frozen once running, and the log only grows |
| `TransferOrigins.BornPreparing` | internal/device/transfer.go:142-173 | A transfer that appears in a run is preparing, with an empty log and a timer armed for two minutes, and its devices, which no live transfer was using, are reserved for it |
| `TransferTheorems.CompletesFromVerifying` | internal/device/transfer.go:467-487 | A step that completes a transfer finds it Verifying, and assigning Size to Transferred changes nothing |
| `TransferTheorems.StateFields` | internal/device/transfer.go:539-550 | The ready channel is closed exactly when the state is not preparing; the peer sessions are dropped exactly when it is final |
| `TransferTheorems.ReadyOrderIrrelevant` | internal/device/transfer.go:283-352 | Both arrival orders of the two ready messages, at whatever times, give the same transfer but for the date of the last update, and one `transfer_send`, sent on the later |
| `TransferOutsiders.OutsiderHarmless` | internal/device/transfer.go:283-520 | A message of a session that is neither peer, whatever its kind and however its handler is interleaved, changes no transfer and sends nothing, unless it is a source finish with an ill-formed digest |
| `TransferOutsiders.OutsiderFails` | internal/device/transfer.go:423-428 | For every source finish with an ill-formed digest there is a run in which it fails a live transfer of which its sender is neither peer |
| `TransferOutsiders.OutsidersDisturbWhen` | internal/device/transfer.go:423-441 | A message of a session that is neither peer can disturb a transfer, in some run, if and only if it is a source finish with an ill-formed digest |
| `TransferOrigins.HandOverState` | internal/device/transfer.go:378-411 | `transfer_send` and chunks are handed over only while running, a chunk only with the number and within the size that are due, a commit only while verifying or completed, with the declared size and the source's digest |
| `TransferOrigins.OnlyOvertakenCommits` | internal/device/transfer.go:451-463 | A thread about to hand over data of a completed transfer is about to hand over its commit, and was already when the transfer was completed |
| `TransferOrigins.DataAfterCompletion` | internal/device/transfer.go:451-463 | A step hands over data of a completed transfer if and only if it hands that commit to a session that is still open |
| `TransferWitness.CommitMayFollowCompletion` | internal/device/transfer.go:456-487 | For every stream that can be completed there is a run in which the commit is handed over after completion |
| `TransferTheorems.EveryChangeAttributed` | internal/device/transfer.go:215-590 | Every change of a transfer in any run is made by the owner of its relayMu, by taking a free relayMu, by its timer, or by the target's finish from Verifying |
| `TransferTheorems.OwnerUndisturbed` | internal/device/transfer.go:467-487 | While a thread owns relayMu, others can only complete the transfer from Verifying on the target's word, or start its timer callback |
| `TransferTheorems.OnlyPeersAdvance` | internal/device/transfer.go:283-487 | A transfer becomes running only by a ready message of a peer, verifying only by its source's finish, completed only by its target's |
| `TransferTheorems.ReservedMeansLive` | internal/device/transfer.go:643-653 | A device is reserved for a transfer exactly when the transfer is live and the device is its source or target |
| `TransferTheorems.LiveTransfersDisjoint` | README.md:107 | Two live transfers share no device, and live transfers are listed |
| `TransferTheorems.HistoryBounded` | internal/device/transfer.go:623-641 | The transfer table never outgrows the larger of 256 and the most transfers ever live at once, and always lists every live one |
| `TransferTheorems.Watched` | internal/device/transfer.go:562-590 | Every live transfer has exactly one armed timer, due within two minutes of its last update or publication plus the time by which the wall clock was stepped, or exactly one callback that has not yet decided |
| `TransferTheorems.NoTimerAfterEnd` | internal/device/transfer.go:643-646 | No timer is armed for a final transfer |
| `TransferTheorems.ExpiryOnlyWhenIdle` | internal/device/transfer.go:578-589 | A callback that goes on to fail a live transfer does so two minutes or more after its last update, less the time by which the wall clock was stepped, although transferMu was released in between |
| `TransferClocks.TwoMinutesWhen` | internal/device/transfer.go:578-589 | In all runs in which the wall clock is stepped by no more than a given time, transfers are failed for idleness only after two minutes without an update, if and only if that time is zero |
| `TransferClocks.EarlyExpiry` | internal/device/transfer.go:578-589 | There is a run in which a step of the wall clock by one nanosecond fails a transfer one nanosecond early |
| `TransferTheorems.ExpiryDecides` | internal/device/transfer.go:573-589 | In any run, a callback that gets to look at a live transfer finds no timer armed; it arms one for the rest of the two minutes since the last update by the wall clock, changing nothing else, or, two minutes having passed, goes on to fail the transfer as it is |
| `TransferTheorems.NoOrphans` | internal/device/manager.go:296-305 | Once a Detach has returned, a transfer that still refers to its session is live, and the thread that runs its StartTransfer is still in its relay section |
| `TransferScans.ScanFailsExactly` | internal/device/transfer.go:592-607 | When Detach or Close is done with what its scan found, every transfer the scan was after is over, and it worked on no other: for Detach the live transfers that use the device name, whatever session they belong to, for Close all live ones |
| `TransferScans.SuccessorDoomed` | internal/device/manager.go:296-305 | There is a run in which the detach of a replaced session goes on to fail a live transfer of the open session that replaced it |
| `TransferScans.CloseLeavesOnlyLater` | internal/device/manager.go:307-323 | When Close is done with its scan, every transfer published before the scan is over |
| `TransferScans.CloseMayMiss` | internal/device/manager.go:307-323 | There is a run in which a transfer published after the scan is live when Close is done with it |
| `TransferTheorems.RelayWaitersAreServed` | internal/device/transfer.go:375-376 | Whoever waits for a relayMu waits for a thread that waits for none and has an enabled step |
| `TransferRun.Reachable` | internal/device/transfer.go:113-653 | Every state of every run satisfies the engine's invariant |
| `TransferInvariant.LocalCore` | internal/device/transfer.go:225-228 | A step that keeps its own transfer sound, and interferes with an owned one only by completing it or firing its timer, keeps every transfer sound and every thread's knowledge valid |
| `TransferLocal.HolderStable` | internal/device/transfer.go:467-487 | What the owner of relayMu knows survives completion by the target, a firing timer and the passing of time |
| `TransferLocal.HolderLocal` | internal/device/transfer.go:364-421 | Every step of the owner of relayMu keeps the transfer sound and establishes what the owner needs for its next step |
| `TransferLog.AcceptedLog` | internal/device/transfer.go:225-227 | A log the automaton accepts is well ordered in terms of its positions alone |
| `TransferLog.ChunkNumbersDistinct` | internal/device/transfer.go:391-416 | No two chunks of a well-numbered log carry the same number, if and only if there are at most 2^64 of them |
| `TransferManager.TransferObject.constructor` | internal/device/transfer.go:142-172 | A new transfer object holds exactly the initial transfer |
| `TransferManager.TransferObject.Accept` | internal/device/transfer.go:480-485 | Turns the object into the completed transfer |
| `TransferManager.TransferObject.End` | internal/device/transfer.go:543-550 | Turns the object into the ended transfer and returns the peers to be told, source first |
| `TransferManager.Manager.ReleaseTransferDevices` | internal/device/transfer.go:643-653 | Removes exactly the reservations that are this transfer's |
| `TransferManager.Manager.SourceReady` | internal/device/transfer.go:294-310 | Does in place what the engine's region does: records the size, and starts the stream if the target is ready |
| `TransferManager.Manager.TargetReady` | internal/device/transfer.go:330-345 | Does in place what the engine's region does: notes that the target is ready, and starts the stream if the source is |
| `TransferManager.Manager.AdmitChunk` | internal/device/transfer.go:378-403 | Decides between ignoring, failing and relaying a chunk, in the order of the source's checks, and changes nothing |
| `TransferManager.Manager.RecordChunk` | internal/device/transfer.go:413-419 | Advances nextSeq and Transferred as 64-bit words if the chunk is still expected |
| `TransferManager.Manager.SourceFinish` | internal/device/transfer.go:440-455 | Verifies size and progress and moves to Verifying with the normalised digest |
| `TransferManager.Manager.FinishListed` | internal/device/transfer.go:471-486 | Ignores, rejects or completes, and releases the devices exactly on completion |
| `TransferManager.Manager.TargetFinish` | internal/device/transfer.go:467-487 | Does the same to the transfer listed under the id, and nothing when there is none |
| `TransferManager.Manager.EndTransfer` | internal/device/transfer.go:230-249 | Ends a listed live transfer once, releasing its devices, and does nothing to any other |
| `TransferManager.Manager.Expire` | internal/device/transfer.go:573-587 | Re-arms for the remaining idle time or gives up |
| `TransferManager.Manager.OldestFinal` | internal/device/transfer.go:625-635 | Finds a final transfer that no other final one predates, or none if there is none |
| `TransferManager.Manager.PruneTransferHistory` | internal/device/transfer.go:623-641 | Terminates, drops only final transfers, never a newer one before an older one, no more than needed, and stops below 256 or when only live ones are left |
| `TransferManager.Manager.Publish` | internal/device/transfer.go:157-173 | Lists and reserves if and only if both devices are free; otherwise changes nothing and names a busy one |
| `TransferManager.Manager.CollectLive` | internal/device/transfer.go:592-603 | Collects exactly the live transfers that use the device |
| `TransferFrame.Encode` | internal/device/transfer.go:705-717 | Succeeds exactly for the hexadecimal text of 16 bytes and fills the buffer with magic, id, sequence and payload |
| `TransferFrame.PutUint64` | internal/device/transfer.go:714 | Writes the eight big-endian bytes of a 64-bit word and nothing else |
| `TransferFrame.Parse` | internal/device/transfer.go:354-361 | Accepts exactly frames with a whole header and the magic |
| `TransferFrame.ParseOfEncoded` | internal/device/transfer.go:354-361 | Parsing an encoded frame gives the lower-cased id, the sequence over all 64-bit values, and the payload |
| `TransferFrame.EncodedOfParse` | internal/device/transfer.go:705-717 | Encoding what a frame parses to gives the same bytes |
| `TransferFrame.HexTextRoundTrip` | internal/device/transfer.go:358 | Encoding decoded hexadecimal text lower-cases it |
| `TransferFrame.HexBytesRoundTrip` | internal/device/transfer.go:706 | Decoding encoded bytes gives them back |
| `TransferFrame.MostSignificantFirst` | internal/device/transfer.go:714 | The most significant byte of a word comes first, then the bytes of the rest |
| `TransferFrame.DigitsInOrder` | internal/device/transfer.go:358 | Hexadecimal digits are the usual ones, in lower case |
| `TransferFrame.BigEndianOfBytes` | internal/device/transfer.go:360 | Reading the big-endian bytes of a number that fits gives the number |
| `TransferFrame.BytesOfBigEndian` | internal/device/transfer.go:360 | Writing the number read from bytes gives the bytes |
| `LockOrder.NoDeadlock` | internal/device/transfer.go:175-191 | Under the order discipline, an unfinished thread of any reachable state can move, or waits in a line of threads that ends at one that can |
| `LockTraces.ProgramsRunWhole` | internal/device/transfer.go:375-420 | Among any other threads, a thread that is done took and gave back locks and waited for peers as a complete execution of its program does, and holds nothing |
| `LockOrder.MutualExclusion` | internal/device/transfer.go:375-420 | No lock is ever held by two threads |
| `LockOrder.NoWaitCycle` | internal/device/transfer.go:375-420 | No reachable state has a cycle of threads each waiting for a lock the next one holds |
| `LockOrder.LeafLocksNeverStall` | internal/device/transfer.go:202-213 | Whoever waits for a lock under which nothing may stall has down the line of its waits only owners of such locks that wait for no peer, and the line ends at one that can move |
| `LockPrograms.HandlersOrdered` | internal/device/manager.go:514-542 | Every entry point of the device package, its reader, heartbeat and HTTP handlers included, takes its locks in one order and waits for peers only under locks that may stall |
| `LockPrograms.GatewayNeverDeadlocks` | internal/device/transfer.go:113-607 | However the entry points interleave, each unfinished one can move, or waits in a line that ends at one that can |
| `LockPrograms.StatusNeverBehindAPeer` | internal/device/transfer.go:202-213 | No thread waits for a peer while it holds transferMu, and whoever waits for transferMu, such as a status query, has down the line of its waits only threads that wait for no peer, the last of which can move |
| `SessionCalls.ActiveCallsExact` | internal/device/manager.go:391-441 | On a session not yet emptied by close, the counter plus the callers about to count themselves equals the pending calls plus the deletions about to be subtracted |
| `SessionCalls.ExactAfterClose` | internal/device/manager.go:340-350 | After close the same equation holds if and only if no caller was about to count itself when zero was stored |
| `SessionCalls.CounterDriftsOnClose` | internal/device/manager.go:402-406 | There is a run that ends with nothing pending on a closed session and a counter of one |
| `SessionCalls.AnsweredOnceWithOwnId` | internal/device/manager.go:372-380 | Each waiter is answered at most once, with a response that carries its own id |
| `SessionCalls.TakenIsAnswered` | internal/device/manager.go:372-380 | In every state of every run, a response taken for a waiter is in its channel, or was read by its caller, or the reader that took it is about to put it there; and it is that response, unchanged |
| `SessionCalls.TakeDecides` | internal/device/manager.go:487-499 | A response whose id is pending is taken for the waiter registered under it, by the reader that received it; any other one is dropped |
| `SessionCalls.DeliverDecides` | internal/device/manager.go:380 | A delivery puts the response into the waiter's channel |
| `SessionCalls.GiveUpDecides` | internal/device/manager.go:433-439 | A caller that stops waiting leaves its entry and the counter alone; a heartbeat goes on to remove its entry |
| `SessionCalls.CallerDecides` | internal/device/manager.go:402-414 | A caller is refused on a closed session, takes its entry out if its request cannot be sent, and otherwise waits for the response and reads it |
| `SessionCalls.DeliveryNeverBlocks` | internal/device/manager.go:380 | The reader that is about to deliver a response can always do so, whether or not the waiter is still there |
| `SessionCalls.NoDuplicateId` | internal/device/manager.go:480-482 | Registration never meets an id that is already pending |
| `SessionCalls.Reachable` | internal/device/manager.go:340-512 | Every state of every run of a session satisfies its invariant |
| `HttpChunk.Refines` | internal/device/http.go:61-101 | From any state that satisfies the invariant, a step of the handshake is a step of the synchronous send, or invisible to it. That send takes the device's answer exactly as it was given, and reports another outcome only for lack of an answer |
| `HttpChunk.RunsRefine` | internal/device/manager.go:529-542 | Every step of every run of the handshake is a step of the synchronous send, or invisible to it |
| `HttpChunk.HandsOverOwnChunk` | internal/device/http.go:62-74 | Placing a chunk takes the synchronous send from idle to exactly this sender's request and payload |
| `HttpChunk.SuccessMeansAcknowledged` | internal/device/http.go:93-100 | A send about to report success was accepted by an acknowledgement that named exactly its transfer and sequence |
| `HttpChunk.AwaitDecides` | internal/device/http.go:93-95 | The answer in the channel decides: an accepting one makes the send a success, a rejecting one a failure |
| `HttpChunk.OutcomeJustified` | internal/device/http.go:83-100 | Whatever a send reports goes back to an acceptance or a rejection of this very chunk, a time-out, or a closed transport |
| `HttpChunk.SendDecides` | internal/device/http.go:61-101 | Every step of a sender: it is refused on a detached session, puts its chunk into the free slot, announces it, waits, and leaves the slot free when it returns |
| `HttpChunk.DeviceDecides` | internal/device/http.go:312-373 | An acknowledgement or GET reaches the chunk in the slot exactly if it names it; a GET that cannot be written rejects the chunk unless it has been answered |
| `HttpChunk.SlotIsFree` | internal/device/manager.go:529-542 | Under sendMu the slot is free when a chunk is placed, so "already pending" cannot happen |
| `HttpRelay.DeliveredWasAcknowledged` | internal/device/transfer.go:408-418 | In every run of the engine with an HTTP target, each chunk counted as delivered was accepted by an acknowledgement that named its transfer and number, put into the channel of the chunk object that carried its payload |
| `HttpRelay.RelayDecides` | internal/device/transfer.go:408-418 | When the handshake returns, the relay goes on to record the chunk if and only if the device accepted it, and otherwise to fail the transfer |
| `HttpChunk.LateAckHarmless` | internal/device/http.go:351-372 | Delivering an acknowledgement leaves every chunk but the one it names as it was |
| `HttpChunk.GetServesNamedChunk` | internal/device/http.go:312-333 | A GET is answered from the chunk it named |
| `SessionCalls.RegisterRegion` | internal/device/manager.go:477-484 | A registration step of the interleaved model has exactly the effect on table and counter that the object has |
| `SessionCalls.CountRegion` | internal/device/manager.go:406 | So has a caller's step that counts itself |
| `SessionCalls.TakeRegion` | internal/device/manager.go:487-499 | So has a deletion by the reader, at once for a ping and together with the subtraction for a call |
| `SessionCalls.UnregisterRegion` | internal/device/manager.go:501-512 | So has a deletion by the caller |
| `SessionCalls.SettleRegion` | internal/device/manager.go:495-497 | The second step of a deletion subtracts one and leaves the table alone |
| `SessionCalls.CloseRegion` | internal/device/manager.go:345-348 | The two steps of close leave an empty table and a counter of zero |
| `DeviceSession.PendingTable.RegisterPending` | internal/device/manager.go:470-485 | Adds one fresh waiter unless the session is done or the id is pending, and leaves the counter one behind for a call |
| `DeviceSession.PendingTable.CountCall` | internal/device/manager.go:406 | Brings the counter level again |
| `DeviceSession.PendingTable.TakePending` | internal/device/manager.go:487-499 | Removes and returns exactly the entry of this id and keeps the counter level |
| `DeviceSession.PendingTable.UnregisterPending` | internal/device/manager.go:501-512 | Removes exactly the entry of this id and keeps the counter level |
| `DeviceSession.PendingTable.Close` | internal/device/manager.go:340-350 | Empties table and counter the first time and does nothing later |
| `DeviceSession.ChunkObject.TryReject` | internal/device/http.go:328-333 | Puts a rejection into an empty acknowledgement channel and nothing into a full one |
| `DeviceSession.HttpTransport.Place` | internal/device/http.go:62-74 | Takes the slot for a fresh chunk exactly if it is free |
| `DeviceSession.HttpTransport.Clear` | internal/device/http.go:75-81 | Clears the slot only of this chunk |
| `DeviceSession.HttpTransport.Named` | internal/device/http.go:351-357 | Finds the chunk in the slot exactly if it is the one named |
| `DeviceRegistry.Registry.Attach` | internal/device/manager.go:121-151 | Binds a name if and only if it has no session |
| `DeviceRegistry.Registry.Detach` | internal/device/manager.go:296-302 | Unbinds a name only from the session being detached |
| `DeviceRegistry.Registry.Resolve` | internal/device/manager.go:181-210 | Finds the named session, or without a name the only one; reports none or several exactly when that is so |
| `OAuthClientFile.CrashConsistency` | internal/gateway/oauth_clients.go:113-168 | Under every combination of failures a crash at any step leaves the old or the new registry, an error return the old one and success the new one, if and only if the registry does not live in the backup behind an undecodable primary |
| `OAuthClientFile.ReplaceSucceedsWhen` | internal/gateway/oauth_clients.go:113-168 | Replacement succeeds if and only if the new file can be prepared and installed and an existing one examined and moved aside; what becomes of the backup never matters |
| `OAuthClientFile.StaysWellFormed` | internal/gateway/oauth_clients.go:146-163 | Replacement never leaves an undecodable primary where there was none |
| `OAuthClientFile.Directory.WriteAtomic` | internal/gateway/oauth_clients.go:113-168 | The file operations, one after another, pass through exactly the disk states those results speak of |
| `OAuthClientFile.Directory.ReadState` | internal/gateway/oauth_clients.go:71-94 | The loop over the candidates finds the first that decodes, and fails exactly if one exists and none decodes |
| `OAuthRegistry.LoadsWhen` | internal/gateway/oauth_clients.go:28-69 | A gateway starts if and only if there is no client file, or the file read is of version 1, for this address, with at most 1024 clients, each filed under its own non-empty id, with a name of at most 200 bytes and one to ten valid redirect URIs |
| `OAuthRegistry.RegistersWhen` | internal/gateway/oauth.go:136-175 | What a registration is answered, check by check and fault by fault; success adds exactly this client to memory and file, and a refusal changes nothing |
| `OAuthRegistry.RegisterInStep` | internal/gateway/oauth.go:162-175 | One registration keeps memory equal to what a restart would load, and adds the client on success and nothing on failure |
| `OAuthRegistry.RegisterSurvivesCrash` | internal/gateway/oauth_clients.go:96-111 | A crash at any moment of a registration restarts with the old clients or the new |
| `OAuthRegistry.SurvivalCondition` | internal/gateway/oauth_clients.go:146-163 | A gateway that has just started survives every registration, if and only if its registry does not live in the backup behind an undecodable primary |
| `OAuthRegistry.NewStateLoadable` | internal/gateway/oauth_clients.go:40-65 | What registration writes passes every check of loading |
| `OAuthRegistry.RollbackNeedsNewId` | internal/gateway/oauth.go:168-172 | Rolling back by deleting the id restores the old clients if and only if the id was new |
| `OAuthRegistry.AlwaysRestartable` | internal/gateway/oauth.go:136-175 | After any number of registrations with any failures, memory is what a restart would load and passes its checks, and it holds exactly the earlier clients, unchanged, and those of the requests that succeeded, as requested |
| `OAuthRegistry.Provider.LoadClients` | internal/gateway/oauth_clients.go:28-69 | The nested loops accept exactly the files a restart accepts, and load exactly their clients |
| `OAuthRegistry.Provider.HandleRegister` | internal/gateway/oauth.go:136-175 | Refuses bad redirect URIs, long names and a full registry, in this order, without touching anything; otherwise memory, disk and answer become those that RegisterInStep speaks of |
| `OAuthCodes.TokensAreDue` | internal/gateway/oauth.go:367-389 | Over any run a code yields at most one token, only for the client, redirect URI and verifier it was issued for, at most five minutes after its creation, and the table never holds more than 2048 codes |
| `OAuthCodes.ExchangeSucceedsWhen` | internal/gateway/oauth.go:367-389 | After any run an exchange succeeds if and only if its code was issued and has not been exchanged, at most five minutes have passed since its creation, client and redirect URI are those of the code, the challenge is the digest of the verifier, and the token can be signed; the token is for what the code was issued for |
| `OAuthCodes.IssuesWhen` | internal/gateway/oauth.go:342-365 | After any run a code is issued, for exactly what was asked, if and only if fewer than 2048 codes issued in the last five minutes have not been exchanged |
| `OAuthCodes.FailureLeavesCodeUsable` | internal/gateway/oauth.go:372-375 | A failed exchange in the middle of a run changes nothing that follows: the same codes are issued, the same tokens handed out and the same codes left usable as without it |
| `OAuthCodes.SuccessUsesCode` | internal/gateway/oauth.go:387 | After a successful exchange and any further events, every exchange of the same code fails |
| `OAuthCodes.CodeTable.PruneCodes` | internal/gateway/oauth.go:391-398 | Deletes exactly the codes older than five minutes |
| `OAuthCodes.CodeTable.IssueAuthorizationCode` | internal/gateway/oauth.go:342-365 | Drops what has expired, refuses if 2048 codes are left, and otherwise binds the code to client, redirect URI, challenge and creation time, as in the runs of TokensAreDue |
| `OAuthCodes.CodeTable.ExchangeAuthorizationCode` | internal/gateway/oauth.go:367-389 | Drops what has expired and uses the code up exactly when it matches and the token can be signed, as in the runs of TokensAreDue |

## Left out

- RelayWaitersAreServed: says that the owner has an enabled step, not that a send inside a transport returns; a
  send may block until its session closes.
- NoDeadlock: a thread waiting for a peer counts as able to move, and a shared hold of a read-write lock is treated
  as an exclusive one.
- DeliveredWasAcknowledged: control messages to the HTTP target are not tied to the handshake's sendMu; in the joint
  model they may go out at any moment.
- NoDuplicateId: request ids are unbounded numbers; the 64-bit counter of the source repeats after 2^64 requests.
- SourceFinish: letters outside ASCII are not lower-cased. No such letter can turn into a hexadecimal digit, so
  the comparison of digests is not affected.
- HandleRegister: names are sequences of bytes, one element a byte; redirect URI syntax is the parameter `validUri`; a
  provider without a clients file, whose loads and saves do nothing, is not modelled.
- Resolve: trims no white space; the checks on a device's description are the parameter `valid` of Attach.
- The engine is written on values, since its steps interleave; that the regions work in place on shared objects is
  what the methods of TransferManager, DeviceSession and DeviceRegistry add.
- JSON, HTTP routing, headers, status codes, body limits, TLS and the WebSocket library: I/O around the model.
- SHA-256, base64url and token signing are parameters; random identifiers are taken not to repeat.
- Error texts, file paths, progress, throughput and creation times in snapshots: reporting only.
- Synchronising the temporary file, file modes and read errors of the client file: a rename, a removal or the
  preparation of the temporary file happens or fails as a whole.
- The heartbeat monitor: whether and when it detaches a session is covered by Detach happening at any moment.
- The authorization page, redirect URI syntax, tool schemas, configuration and server wiring: no shared state.
