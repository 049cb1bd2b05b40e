# Verified model of wowFS

wowFS is a user-space file system whose clients cache whole files, in the style of AFS, and talk to one
server over a streaming protocol. This project models its hard parts in Dafny and proves what they are
for. Each module keeps the source's form: state that the source updates in place is a class or an array
with methods that say what they leave, and every such method is tied to a function about which the
theorems are proved.

| file | what it models |
|---|---|
| `Consistency.dfy` | the cache protocol: any number of clients, one server, open, create, write, truncate, flush, release |
| `Effects.dfy` | what each of those operations does to every byte and file, and who can change a file on the server |
| `Incoherence.dfy` | runs in which that protocol fails, and what its users read |
| `ModTime.dfy` | the modification-time contest in binary64 arithmetic |
| `CacheIndex.dfy`, `Mount.dfy` | the descriptor table with its per-path counts; client and server paths |
| `Streaming.dfy` | writeback, download and directory listing in chunks |
| `CrashRecovery.dfy` | concurrent writebacks one system call at a time, crash, and the recursive cleanup at restart |
| `Concert.dfy` | the UDP test barrier of an orchestrator, two clients and a sink |
| `WritebackQueue.dfy` | the queue of delayed writebacks |
| `LocalReorder.dfy` | the shuffled and replayed queue of local writes |
| `IniText.dfy`, `IniParser.dfy`, `IniStream.dfy` | the configuration parser: C strings in place, line meanings, the loop over its buffers |
| `IniGrammar.dfy`, `IniRoundTrip.dfy` | the grammar of its lines and files, complete for every text, written with any layout and read back |
| `ErrInjConfig.dfy` | the parser's handler and the list of error injections it builds |
| `Projections.dfy` | the cache protocol's operations as the two queues see them |
| `FileBytes.dfy`, `Options.dfy`, `Arithmetic.dfy` | file contents and positional writes; optional values; products and quotients |

`dafny verify dfyconfig.toml` checks everything.

## What the proofs assume

- A client operation is one atomic step and clocks are global: successive steps are more than 256 ns
  apart, between 2^60 and 2^61 ns since 1970 (2006 to 2043), where that is the spacing of the doubles
  the contest compares. `ModTime.MarginIsTight` shows that a smaller margin is not enough.
- The operating system does not return a descriptor that is still open, the kernel passes a descriptor's
  own path with it, and paths lie below the mount point.
- Random draws, clock readings, errno values and which calls fail are parameters; theorems hold for all
  of them.
- A handler is a function of the call and the calls before it, which is what a C callback with private
  state amounts to. `ErrInjConfig.ErrInjQueue.ConfOptionHandler` shows the one wowFS passes in place.
- Buffers are byte sequences and C strings are NUL-free character sequences; a positional write that
  succeeds writes everything.
- Concurrent writebacks go to different paths (two to one path would share a temporary name) and their
  streams are complete.
- Network datagrams can be lost, delayed and reordered, not duplicated. Progress needs that none is lost, and
  no weaker condition will do (`Concert.FinishesIffLossless`).
- A download's size is at least 0 and at most 2^31 - 101 once it is in 32 bits.

## Where code and expectation part

The model follows the code. These are the places where that matters:

- A cached copy survives another client's unlink (`workloads/consistency_tests/test4/README.md:22`):
  `Consistency.OpenSeesServer` gives the exact condition, `Incoherence.UnlinkedFileIsStillRead` the case.
- Create sends its flags to the server but never downloads: without O_EXCL and O_TRUNC it can leave an
  empty clean copy of a non-empty file (`Consistency.CreateBreaksWhen`, from a fresh start in
  `Incoherence.CreateHidesData`). Likewise a rename that fails on the server is reported as success
  (`wowRPC/WowRPCServer.H:296`) and an unreadable cache file disables the writeback silently; a release
  after either can lose coherence (`Consistency.ReleaseCoherence`, from a fresh start in
  `Incoherence.LostWritebackSplitsClients`). A download that is saved short goes unnoticed as well
  (`Consistency.FetchCoherence`, `Incoherence.ShortSaveIsKept`). Runs in the main theorems exclude exactly
  these cases.
- A cached file that is read short at a writeback is stored with zeros for the rest, for everybody
  (`Consistency.ReleaseStoresWhen`, `Incoherence.ShortReadIsServed`).
- The server renames a written file into place whether or not its fsync succeeded; the versions a crash
  can then harm are exactly those (`CrashRecovery.CrashAtomicity`).
- The byte count of a writeback is returned in 32 bits, so -1 can mean success
  (`Streaming.StoredButReportedFailed`). Download sizes are narrowed to 32 bits too, and one
  pread moves at most 0x7ffff000 bytes on Linux, so a part of a larger file can arrive as a success
  (`Streaming.DownloadFile`).
- The queue of local writes is not cleared by a flush. Replaying it again is harmless
  (`LocalReorder.ReplayTwice`); another shuffle in between is harmless exactly when the queued writes agree
  wherever they overlap (`LocalReorder.ReshuffleInvisibleIff`).
- Blank lines count as comments because `strchr` finds the terminator; continuation lines keep their
  inline comments; a continuation uses the name cut to 49 characters although the first call had all of it.
- The handler's -1 for an unknown section counts as success in the parser, and an unknown option is an
  error although its section's entry has been made by then. `config_init` discards the list only when
  the file cannot be opened, not for a parse error.

## Model

| member | source | states |
|---|---|---|
| `Consistency.CloseToOpen` | wowFS/unreliablefs/unreliablefs_ops.c:415-483 | Close-to-open consistency: after any legal run of any number of clients, a client that opens a path the server has, with no dirty descriptor on it, has exactly the server's current contents in its cache, and the open leaves the server alone |
| `Consistency.CloseThenOpen` | wowFS/unreliablefs/unreliablefs_ops.c:657-706 | What one client has cached when its release is stored is what another client opens later, after any run in which nobody stored that file again |
| `Consistency.EveryRunIsGood` | wowFS/unreliablefs/unreliablefs_ops.c:415-706 | In every run (opens, creates, writes, truncates, flushes, releases, failing calls included, outside the exact breaking cases of open, create and release) each client stays coherent: a clean cached copy that would win the time contest equals the server's; counts agree with the descriptor table |
| `Consistency.StepKeepsGood` | wowFS/unreliablefs/unreliablefs_ops.c:415-706 | One step by one client keeps every client coherent, dated and its index in agreement |
| `Consistency.FreshStartIsGood` | wowUtils/WowCache.H:20-51 | Clients with empty caches and no descriptors start coherent with any server |
| `Consistency.OpenSeesServer` | wowFS/unreliablefs/unreliablefs_ops.c:415-483 | A clean open whose stat and save do not fail ends with the server's contents if and only if the download was not saved short and the server still had the file, or nothing non-empty was cached: the other half is the short copy and the stale copy that survives another client's unlink |
| `Consistency.OpenCoherence` | wowFS/unreliablefs/unreliablefs_ops.c:415-483 | An open keeps coherence if and only if it neither saves its download short nor empties, in its local open(2), a clean copy of a non-empty server file |
| `Consistency.FilteredOpenBreaksWhen` | wowFS/unreliablefs/unreliablefs_ops.c:415-483 | Without O_CREAT and O_TRUNC an open breaks coherence if and only if its download is saved short |
| `Consistency.OpenBreaksWhen` | wowFS/unreliablefs/unreliablefs_ops.c:432-482 | The breaking case of open in terms of flags, server, cache and failing calls |
| `Consistency.CreateCoherence` | wowFS/unreliablefs/unreliablefs_ops.c:1025-1062 | A create keeps coherence if and only if it is not the breaking case |
| `Consistency.CreateBreaksWhen` | wowFS/unreliablefs/unreliablefs_ops.c:1036-1060 | The breaking case of create in terms of flags, server and cache: a non-empty server file never cached here, neither O_EXCL nor O_TRUNC |
| `Consistency.FetchCoherence` | wowUtils/WowCache.H:140-157 | Creating on the server or downloading keeps coherence if and only if a clean copy is not saved short; the index is untouched and the server only gains files stamped now |
| `Consistency.BystanderStaysCoherent` | wowFS/unreliablefs/unreliablefs.h:142-156 | Changes another client makes on the server never break a client that did not move: its copies lose the contest against them |
| `Consistency.WriteCoherence` | wowFS/unreliablefs/unreliablefs_ops.c:524-553 | A write, failed or not, keeps coherence, because its descriptor is dirty afterwards |
| `Consistency.TruncateCoherence` | wowFS/unreliablefs/unreliablefs_ops.c:1064-1089 | A truncate of an open file keeps coherence |
| `Consistency.WritebackCoherence` | wowFS/unreliablefs/unreliablefs.h:75-96 | A writeback keeps coherence whatever becomes of it and leaves the client as it was |
| `Consistency.ReleaseCoherence` | wowFS/unreliablefs/unreliablefs_ops.c:676-706 | A release keeps coherence if and only if it does not drop the last dirty descriptor of different contents after a writeback that silently stored nothing |
| `Consistency.ReleaseStores` | wowFS/unreliablefs/unreliablefs_ops.c:676-706 | A stored release puts exactly the cached contents on the server and forgets the descriptor |
| `Consistency.ReleaseStoresWhen` | wowUtils/WowCache.H:159-209 | For every outcome of the writeback: after a release of a dirty file that succeeds the server holds the cached contents if and only if they were read and stored whole, or what was missed is a tail of zeros, or the server had them already |
| `Consistency.FlushThenRelease` | wowFS/unreliablefs/unreliablefs_ops.c:632-706 | A flush stores but leaves the descriptor dirty, so the release stores the same contents again |
| `Consistency.OwnWritesUntilOverwritten` | wowFS/unreliablefs/unreliablefs_ops.c:430-466 | A second open returns the client's own unsaved contents unless the server's copy wins, which then replaces them; no descriptor becomes dirty or clean |
| `Consistency.WowServer.OpenPath` | wowRPC/WowRPCServer.H:220-243 | The server's open(2): which files exist and are emptied afterwards, and whether it fails |
| `Consistency.WowClient.UnreliableOpen` | wowFS/unreliablefs/unreliablefs_ops.c:415-483 | Contest, create or download, local open and registration, in place on cache, server and index, for every combination of failing calls and a download saved short |
| `Consistency.WowClient.UnreliableCreate` | wowFS/unreliablefs/unreliablefs_ops.c:1025-1062 | Server create, local create, registration |
| `Consistency.WowClient.OpenInCache` | wowFS/unreliablefs/unreliablefs_ops.c:468-482 | Local open(2) and registration of the descriptor |
| `Consistency.WowClient.WowWrite` | wowFS/unreliablefs/unreliablefs_ops.c:524-553 | Positional write through a descriptor to the one cache file of its path, then the dirty mark even when the pwrite failed |
| `Consistency.WowClient.UnreliableFtruncate` | wowFS/unreliablefs/unreliablefs_ops.c:1064-1089 | Truncate by path, then the dirty mark when the descriptor is positive |
| `Consistency.WowClient.Writeback` | wowFS/unreliablefs/unreliablefs.h:75-96 | Nothing for a clean descriptor; otherwise the cached file is stored, stored with a tail of zeros, refused, or lost in one of the ways the code does not notice |
| `Consistency.WowClient.UnreliableFlush` | wowFS/unreliablefs/unreliablefs_ops.c:632-647 | Writeback without closing; the dirty mark stays |
| `Consistency.WowClient.UnreliableRelease` | wowFS/unreliablefs/unreliablefs_ops.c:676-706 | Writeback, then the descriptor is forgotten; a failed writeback keeps it open |
| `Effects.ReadersNeverOverwrite` | wowFS/unreliablefs/unreliablefs.h:75-96 | No lost updates: in every run, a client that neither writes to nor truncates a file changes it on the server by nothing it opens, flushes, closes or fails at |
| `Effects.StepChanges` | wowFS/unreliablefs/unreliablefs_ops.c:415-706 | One step changes an existing server file only by a writeback through a descriptor dirty on it or by a truncating open or create; no file is lost, a new one appears only by such a writeback, an open or a create, and no other client changes |
| `Effects.UnwrittenFileStays` | wowFS/unreliablefs/unreliablefs_ops.c:415-706 | A server file nobody writes to or truncates stays as it is over any run |
| `Effects.StepKeepsClean` | wowUtils/WowCache.H:53-65 | A descriptor becomes dirty only by a write or truncate through it |
| `Effects.CreateThenOpen` | wowFS/unreliablefs/unreliablefs_ops.c:1025-1062 | After a create that gets past the server, and any run in which nobody writes to the file, every undisturbed open by another client reads it: empty if new or truncated, otherwise as it was |
| `Effects.CreateEffect` | wowFS/unreliablefs/unreliablefs_ops.c:1036-1062 | Exactly when the server allows it the server has the file, empty and stamped now if it was absent or O_TRUNC is given, as it was otherwise; nothing else changes there; success if and only if the local open is allowed too |
| `Effects.OpenSucceedsWhen` | wowFS/unreliablefs/unreliablefs_ops.c:415-483 | An open succeeds if and only if its calls do and the file is there or made, whatever is open already |
| `Effects.OpenOnServer` | wowFS/unreliablefs/unreliablefs_ops.c:432-447 | On the server an open makes or empties only a file its stat did not show it, and then it is empty and stamped now |
| `Effects.OpenInCacheDir` | wowFS/unreliablefs/unreliablefs_ops.c:430-482 | The cached file afterwards: emptied, downloaded or kept, according to flags, contest and failing calls; every other file as it was |
| `Effects.WriteEffect` | wowFS/unreliablefs/unreliablefs_ops.c:524-553 | Every byte of the cached file after a write: written, old, or zero in a gap; never shorter; untouched by a failed or empty write; the descriptor is dirty either way |
| `Effects.TruncateEffect` | wowFS/unreliablefs/unreliablefs_ops.c:1064-1089 | After a truncate exactly the length asked for, the old bytes as far as they go and zeros behind; success if and only if the call works and the file is cached, and a failure changes nothing |
| `Effects.TruncateThenRelease` | wowFS/unreliablefs/unreliablefs_ops.c:1064-1089 | A stored release after it puts exactly those bytes on the server and touches no other file |
| `Effects.FlushEffect` | wowFS/unreliablefs/unreliablefs.h:75-80 | A flush through a clean descriptor changes nothing and succeeds whatever would become of a writeback |
| `Effects.WritebackEffect` | wowFS/unreliablefs/unreliablefs.h:75-96 | The server changes only for a dirty descriptor whose cached file is there, only at the path named, and gets the cached bytes as far as they were read, then zeros; failure if and only if it is refused or its reply lost |
| `Effects.ReleaseEffect` | wowFS/unreliablefs/unreliablefs_ops.c:676-706 | The descriptor is forgotten if and only if the release succeeds; through a clean one the server stays as it is |
| `Incoherence.CreateHidesData` | wowFS/unreliablefs/unreliablefs_ops.c:1036-1060 | A run from a fresh start: create over any non-empty server file, release, and a clean reopen reads nothing while the server and every other client have the data |
| `Incoherence.LostWritebackSplitsClients` | wowFS/unreliablefs/unreliablefs.h:81-95 | A run from a fresh start: open, write, and release while the rename fails or the cached file cannot be read; the release succeeds, this client reads its lost write and the others the old contents |
| `Incoherence.ShortSaveIsKept` | wowUtils/WowCache.H:140-151 | A run from a fresh start: an open whose download is saved short succeeds, and the client goes on reading the short copy while the others read the whole file |
| `Incoherence.ShortReadIsServed` | wowUtils/WowCache.H:198-209 | A run from a fresh start: a release that reads its file short succeeds and keeps coherence, and every client reads the zero-filled buffer |
| `Incoherence.UnlinkedFileIsStillRead` | wowFS/unreliablefs/unreliablefs_ops.c:430-482 | After another client's unlink a legal, clean open still reads the old contents, over an empty file it makes on the server |
| `ModTime.ContestOfEpoch` | wowFS/unreliablefs/unreliablefs.h:142-155 | Between 2^60 and 2^61 ns a local copy at least as new always wins and a remote copy newer by more than 256 ns always wins |
| `ModTime.NewerLocalWins` | wowFS/unreliablefs/unreliablefs.h:142-149 | A local copy at least as new wins for all times below 2^62 ns |
| `ModTime.NewerRemoteWins` | wowFS/unreliablefs/unreliablefs.h:142-149 | A remote copy newer by more than the spacing of binary64 at its time wins |
| `ModTime.StaleLocalWins` | wowFS/unreliablefs/unreliablefs.h:142-149 | A stale local copy wins if and only if both times round to the same double |
| `ModTime.StaleWinsWhen` | wowFS/unreliablefs/unreliablefs.h:142-149 | Between 2^60 and 2^61 ns a stale local copy wins if and only if both times lie within 128 ns of the same multiple of 256 ns, the ends counting for even multiples |
| `ModTime.MarginIsTight` | wowFS/unreliablefs/unreliablefs.h:142-149 | A concrete pair 256 ns apart for which the stale local copy wins |
| `ModTime.ProductIsExact` | wowFS/unreliablefs/unreliablefs.h:142-145 | Seconds times 1e9 is exact below 2^62 ns, so only the sum is rounded |
| `ModTime.ToDoubleMonotone` | wowFS/unreliablefs/unreliablefs.h:149 | Rounding to binary64 (IEEE 754-2019, section 4.3.1) never reverses an order, at any magnitude |
| `Mount.MountedPaths` | wowFS/unreliablefs/unreliablefs.h:98-104 | Below the mount point removing and adding the prefix are inverse |
| `Mount.MountedPathsDiffer` | wowFS/unreliablefs/unreliablefs.h:98-104 | Mounted paths share a server path if and only if they are equal |
| `Mount.UnmountedPathsCollide` | wowFS/unreliablefs/unreliablefs.h:98-104 | Outside the mount point a path collides with the mounted path of the same name |
| `Mount.CutsBlindly` | wowFS/unreliablefs/unreliablefs.h:98-104 | A path that contains the prefix anywhere loses as many characters at its start, whatever they are |
| `CacheIndex.EveryRunAgrees` | wowUtils/WowCache.H:53-98 | In every run with fresh descriptors the per-path count is the number of descriptors open on the path and the entry exists exactly when there is one |
| `CacheIndex.OpenKeepsAgreement` | wowUtils/WowCache.H:83-92 | Registering an open keeps that agreement if and only if the descriptor was not registered |
| `CacheIndex.DirtyKeepsAgreement` | wowUtils/WowCache.H:53-65 | Marking dirty keeps it |
| `CacheIndex.CloseKeepsAgreement` | wowUtils/WowCache.H:67-81 | Registering a close keeps it, for unknown descriptors too |
| `CacheIndex.OpenIffListed` | wowUtils/WowCache.H:94-98 | A path has a descriptor if and only if a scan of the table finds one |
| `CacheIndex.CacheManager.RegisterFileOpen` | wowUtils/WowCache.H:83-92 | New state of both maps; agreement kept for a fresh descriptor |
| `CacheIndex.CacheManager.RegisterFileClose` | wowUtils/WowCache.H:67-81 | New state of both maps, the zero count that operator[] inserts included; agreement kept |
| `CacheIndex.CacheManager.RegisterFileDirty` | wowUtils/WowCache.H:53-65 | New state of both maps; an unknown descriptor changes nothing |
| `CacheIndex.CacheManager.IsFileOpen` | wowUtils/WowCache.H:94-98 | The count lookup answers what a scan of the descriptor table would |
| `CacheIndex.TableHistory` | wowUtils/WowCache.H:53-122 | What the table and its dirty marks remember of any run: a descriptor is registered exactly when an open of it was neither closed nor repeated since, under that open's path, and dirty exactly when it was marked after its last open |
| `Streaming.WritebackRoundTrip` | wowRPC/WowRPCClient.C:222-257 | The file under the final name is the client's buffer byte for byte, for every buffer and every stale temporary file; the temporary name is gone; every other file is untouched |
| `Streaming.WritebackDelivers` | wowRPC/WowRPCServer.H:257-303 | Any cut of a buffer into consecutive requests is put together to that buffer; the reply is its length if and only if that is below 2^31 |
| `Streaming.StoredButReportedFailed` | wowRPC/WowRPCServer.H:300-301 | A stored buffer is reported as -1, which the client takes for failure, if and only if its length is one short of a multiple of 2^32 |
| `Streaming.SendWriteback` | wowRPC/WowRPCClient.C:229-248 | The do-while loop sends at least one request, each at most 1 MiB, at consecutive offsets that cover the buffer |
| `Streaming.Server.Writeback` | wowRPC/WowRPCServer.H:245-304 | Files and reply for every stream and for a failing open, pwrite or rename; the final name changes only at the rename, whose failure is answered as success |
| `Streaming.SendChunks` | wowRPC/WowRPCServer.H:142-153 | A buffer of any size: as much of it as its size is in 32 bits leaves in full chunks and one last piece, each announcing its length; a negative size leaves as one piece that announces it |
| `Streaming.ReadFile` | wowRPC/WowRPCServer.H:112-155 | The chunks of what one pread gives of the first min(size, length) bytes, size in 32 bits, or one error response |
| `Streaming.Reassemble` | wowRPC/WowRPCClient.C:273-288 | For any responses: the announced bytes of each and their number, or what came before the first error response and its code |
| `Streaming.Receive` | wowRPC/WowRPCClient.C:273-288 | Of a stream that covers a buffer the reassembly gives that buffer and its length; of one error response the error |
| `Streaming.DownloadFile` | wowRPC/WowRPCClient.C:259-289 | A download returns exactly the first min(size, length) bytes, size in 32 bits and at most what one pread moves, and their number, or the server's errno; asked for the file's own size it is whole if and only if that is below 2^31 and no more than the pread moves |
| `Streaming.DecodeEntries` | wowFS/unreliablefs/unreliablefs_ops.c:911-923 | Stepping through the bytes record by record recovers the list that was packed |
| `Streaming.DownloadDir` | wowRPC/WowRPCClient.C:291-320 | The listing's bytes as received: all of them if and only if fewer than 2^31, an error when the size is negative in 32 bits |
| `Streaming.ListDirectory` | wowRPC/WowRPCServer.H:306-344 | A listing arrives as its first records in order, for any record width and wherever chunks cut them; complete if and only if below 2^31 bytes |
| `CrashRecovery.CrashAtomicity` | wowRPC/WowRPCServer.H:245-304 | Crash at any system call of any number of concurrent writebacks, unsynced files garbled or lost, then restart: every survivor recovers to exactly the files of a specification in which each writeback is one atomic store, if and only if the present version of no path was renamed into place after a failed fsync |
| `CrashRecovery.NothingExposed` | wowRPC/WowRPCServer.H:284-298 | When no fsync fails, no path is ever in that case |
| `CrashRecovery.RunExposes` | wowRPC/WowRPCServer.H:284-298 | Over every run the user files a crash may harm are exactly the paths whose last rename followed a failed fsync |
| `CrashRecovery.SurvivorsRecoverIff` | wowRPC/server.cpp:6-38 | Deleting the temporary files recovers every survivor of a crash if and only if no user file is unsynced |
| `CrashRecovery.RestartAfterCrash` | wowRPC/server.cpp:64-67 | End to end: the recursive cleanup, run on whatever survived, leaves the user files of the atomic specification, and nothing else if and only if every temporary file could be removed |
| `CrashRecovery.SpecHoldsWholeBuffers` | wowRPC/WowRPCServer.H:284-298 | Every version that specification ever holds is the initial one or one writeback's complete buffer |
| `CrashRecovery.RunRefines` | wowRPC/WowRPCServer.H:245-304 | Every run of system calls refines the atomic specification |
| `CrashRecovery.StepRefines` | wowRPC/WowRPCServer.H:265-298 | Each system call is either invisible to users or the atomic store |
| `CrashRecovery.NextIsValid` | wowRPC/WowRPCServer.H:257-298 | Every call keeps each job's temporary file equal to what it has received so far, synced from the fsync on, whatever the others do |
| `CrashRecovery.WritebackFinishes` | wowRPC/WowRPCServer.H:245-304 | A writeback that is let run gets through open, pwrites, fsync, close and rename: its file is the received buffer, its temporary name is gone, every other file is as it was |
| `CrashRecovery.RenameWithoutFsyncIsUnsafe` | wowRPC/WowRPCServer.H:286 | Without the fsync a crash after the rename can leave any bytes under the final name |
| `CrashRecovery.Tree.CleanTmpFiles` | wowRPC/server.cpp:6-38 | Recursive cleanup deletes exactly the files below the directory that end in the extension, except those whose removal fails |
| `CrashRecovery.Tree.CleanEntry` | wowRPC/server.cpp:16-34 | What one directory entry contributes: recursion, deletion unless it fails, or nothing |
| `CrashRecovery.Tree.ReadDir` | wowRPC/server.cpp:16-18 | Every child and the two dot entries are listed, each with its type |
| `CrashRecovery.Tree.Restart` | wowRPC/server.cpp:64-67 | The restart changes no user file and leaves exactly the files crash atomicity assumes if and only if every temporary file can be removed |
| `Concert.BarrierSafety` | wowAB/WowConcert.H:147-167 | Over a network that loses, delays and reorders: while the sink is between GO and READY both clients have closed this round's file and not opened it again, in every run |
| `Concert.BarrierProgress` | wowAB/WowConcert.H:124-168 | On a lossless network no reachable state is stuck before perform is done, and it is done after exactly 25 steps a round and 20 to set up |
| `Concert.PerformFinishes` | wowAB/WowConcert.H:124-168 | When perform is done, each client was triggered and the sink told GO exactly once a round, every file but the one prepared is closed and nothing is in flight |
| `Concert.OneDatagramPerPeer` | wowAB/WowConcert.H:88-122 | At most one datagram is ever in flight between the orchestrator and a participant, in either direction |
| `Concert.RunKeepsInv` | wowAB/WowConcert.H:68-285 | The invariant tying phase, participants and network holds in every run |
| `Concert.StepKeepsInv` | wowAB/WowConcert.H:68-285 | Every step of every node and every loss keeps it |
| `Concert.OrchestratorReceiveKeeps` | wowAB/WowConcert.H:109-122 | A datagram the orchestrator receives is the one it awaits, and counting it keeps the invariant |
| `Concert.ParticipantReceiveKeeps` | wowAB/WowConcert.H:271-285 | A datagram a participant receives is the one it awaits, and acting on it keeps the invariant |
| `Concert.StepWork` | wowAB/WowConcert.H:68-285 | Every lossless step takes exactly one unit off the remaining work |
| `Concert.RunWork` | wowAB/WowConcert.H:124-168 | Steps taken and work left always add up to 25 a round plus 20 |
| `Concert.NeverStuck` | wowAB/WowConcert.H:68-285 | Before the end some step other than a loss is always enabled |
| `Concert.FinishesIffLossless` | wowAB/WowConcert.H:68-285 | Over any network perform is done if and only if no datagram was lost and all 25 steps a round and 20 to set up were taken: one single loss stalls it for ever |
| `Concert.LossIsForever` | wowAB/WowConcert.H:68-285 | From its first loss on a run has a conversation whose awaited datagram is gone and will not be sent again |
| `Concert.LossCanStall` | wowAB/WowConcert.H:68-86 | The bluntest instance: every registration lost, and no step at all is possible |
| `Concert.WowOrchestra.WaitMsgSubset` | wowAB/WowConcert.H:109-122 | The bit-mask loop consumes exactly the shortest prefix of arrivals in which every awaited participant has sent the awaited message |
| `Concert.WowOrchestra.WaitRegistrations` | wowAB/WowConcert.H:68-86 | The registration loop stops at the first moment three different participants were heard and keeps the last address of each |
| `Concert.CountedIff` | wowAB/WowConcert.H:109-122 | A participant is counted if and only if it is awaited and some datagram is its awaited message |
| `Concert.LastAddressIs` | wowAB/WowConcert.H:68-86 | The address kept for a participant is that of the last datagram it sent |
| `Concert.PhasesCount` | wowAB/WowConcert.H:68-168 | In every phase the orchestrator goes on after a datagram if and only if it completes what the loops count |
| `Concert.ClientDropsOthers` | wowAB/WowConcert.H:271-285 | A waiting client acts on a message if and only if it is the one it awaits |
| `Concert.WowParticipant.WaitFor` | wowAB/WowConcert.H:271-285 | The receive loop consumes everything up to the first awaited message of the orchestrator and nothing behind it |
| `WritebackQueue.ReorderingIsInvisible` | wowFS/unreliablefs/WowWritebackReorderManager.H:86-149 | Whatever adds, pops and drains happened, the destroyed queue has left server, descriptor table and counts as first-in first-out application would have |
| `WritebackQueue.Confluence` | wowFS/unreliablefs/WowWritebackReorderManager.H:33-40 | From a fixed cache any two orders of the same operations end in the same server files, table and counts |
| `WritebackQueue.BatchOutcome` | wowFS/unreliablefs/WowWritebackReorderManager.H:33-40 | What a batch does in any order: the server holds the cached contents of exactly the paths with a dirty descriptor in it, exactly the closed descriptors are gone |
| `WritebackQueue.EveryRunConserves` | wowFS/unreliablefs/WowWritebackReorderManager.H:103-149 | In every interleaving applied and pending operations together are the added ones, and on each path applied then pending is the order of adding |
| `WritebackQueue.DestructionAppliesEverything` | wowFS/unreliablefs/WowWritebackReorderManager.H:86-101 | After destruction nothing is pending and every operation the run's adds brought has been applied exactly once, in its path's order |
| `WritebackQueue.WatchdogFinishes` | wowFS/unreliablefs/WowWritebackReorderManager.H:75-113 | As many pops as there are pending operations, with nothing added, leave none pending and everything ever added applied exactly once, in path order, drains in between or not |
| `WritebackQueue.EveryAddIsRecorded` | wowFS/unreliablefs/WowWritebackReorderManager.H:117-127 | What a run has added is exactly what its adds brought, in order |
| `WritebackQueue.OnPathInOrder` | wowFS/unreliablefs/WowWritebackReorderManager.H:129-149 | A path's operations keep the order of the queue, each right behind those of its path before it |
| `WritebackQueue.PartsDivide` | wowFS/unreliablefs/WowWritebackReorderManager.H:137-149 | A drain takes exactly the operations of its path |
| `WritebackQueue.IdleOperations` | wowFS/unreliablefs/WowWritebackReorderManager.H:33-40 | Operations on unknown descriptors, and flushes of clean ones, change nothing; closing a clean one only forgets it |
| `WritebackQueue.DrainEmptiesPath` | wowFS/unreliablefs/WowWritebackReorderManager.H:129-149 | A drain leaves nothing pending for its path and keeps the others' order |
| `WritebackQueue.WowWritebackReorderManager.AddNewWriteback` | wowFS/unreliablefs/WowWritebackReorderManager.H:117-127 | The operation goes to the back; nothing is applied |
| `WritebackQueue.WowWritebackReorderManager.PopOne` | wowFS/unreliablefs/WowWritebackReorderManager.H:103-113 | From an empty queue nothing; otherwise exactly the front operation is removed and applied to the world, and recorded as applied |
| `WritebackQueue.WowWritebackReorderManager.OnFileOp` | wowFS/unreliablefs/WowWritebackReorderManager.H:129-149 | The path's operations are applied in order and removed, the rest stays |
| `WritebackQueue.WowWritebackReorderManager.Destroy` | wowFS/unreliablefs/WowWritebackReorderManager.H:86-101 | The remaining operations are applied in order; everything ever added has been applied |
| `LocalReorder.ShufflePermutes` | wowFS/unreliablefs/WowLocalWriteReorder.H:15-30 | Every sequence of draws gives a permutation |
| `LocalReorder.ShuffleReachesEveryPermutation` | wowFS/unreliablefs/WowLocalWriteReorder.H:15-30 | A list is reached by some draws if and only if it is a permutation |
| `LocalReorder.ShuffleIsUnbiased` | wowFS/unreliablefs/WowLocalWriteReorder.H:21-29 | With distinct elements two sequences of draws give the same list if and only if they are equal |
| `LocalReorder.FisherYatesShuffle` | wowFS/unreliablefs/WowLocalWriteReorder.H:15-30 | The in-place loop computes that permutation |
| `LocalReorder.ReplayContent` | wowFS/unreliablefs/unreliablefs_ops.c:607-619 | What a replay leaves: each byte is the last recorded write covering it, else the old byte, else a zero; the length; the dirty marks |
| `LocalReorder.ReplayTwice` | wowFS/unreliablefs/unreliablefs_ops.c:607-619 | Replaying the same queue again changes nothing, overlapping writes included |
| `LocalReorder.ExchangeIff` | wowFS/unreliablefs/unreliablefs_ops.c:524-553 | Two writes to one file may be exchanged if and only if they agree where they overlap |
| `LocalReorder.AnyOrderReplaysTheSame` | wowFS/unreliablefs/WowLocalWriteReorder.H:67-70 | When queued writes agree wherever two overlap, every order leaves the same files and dirty marks |
| `LocalReorder.ShuffledReplay` | wowFS/unreliablefs/unreliablefs_ops.c:595-619 | The shuffle before a flush is invisible for such queues |
| `LocalReorder.ShuffleInvisibleIff` | wowFS/unreliablefs/unreliablefs_ops.c:595-619 | The shuffle before a flush is invisible for every draw if and only if queued writes agree wherever two overlap in one cached file |
| `LocalReorder.ReshuffleInvisibleIff` | wowFS/unreliablefs/unreliablefs_ops.c:595-619 | Shuffling the kept queue again before the next flush leaves the settled files alone for every draw under exactly the same condition |
| `LocalReorder.OverlapIsVisible` | wowFS/unreliablefs/unreliablefs_ops.c:595-619 | The smallest instance: two one-byte writes and a draw with which the second flush changes what the first had settled |
| `LocalReorder.WowLocalWriteReorder.RecordWrite` | wowFS/unreliablefs/WowLocalWriteReorder.H:62-65 | The write goes to the back of the queue |
| `LocalReorder.WowLocalWriteReorder.Shuffle` | wowFS/unreliablefs/WowLocalWriteReorder.H:67-70 | The queue becomes the drawn permutation of itself |
| `LocalReorder.WowLocalWriteReorder.Flush` | wowFS/unreliablefs/unreliablefs_ops.c:607-619 | The replay loop; the queue is not cleared |
| `Projections.WritebackProjects` | wowFS/unreliablefs/unreliablefs.h:75-96 | Without times, a stored writeback of the cache protocol is the queue's writeback |
| `Projections.ReleaseProjects` | wowFS/unreliablefs/unreliablefs_ops.c:676-706 | Without times, a release that is stored is the queue's release |
| `Projections.DelayedWritebacksAreInvisible` | wowFS/unreliablefs/WowWritebackReorderManager.H:86-149 | Whatever the watchdog and the drains did and whenever, the cache protocol's server contents and descriptor table end as with first-in first-out writebacks |
| `Projections.WriteProjects` | wowFS/unreliablefs/unreliablefs_ops.c:524-553 | Without times, a write of the cache protocol is the replay's write, and the server is not involved |
| `Projections.ReplayProjects` | wowFS/unreliablefs/unreliablefs_ops.c:607-619 | The replay at a flush is the cache protocol's writes one after another, at any times |
| `IniText.Rstrip` | wowFS/unreliablefs/conf.c:48-54 | Trailing whitespace of the string in the buffer is overwritten, nothing outside it changes |
| `IniText.Lskip` | wowFS/unreliablefs/conf.c:57-62 | The position after exactly the leading whitespace |
| `IniText.FindCharsOrComment` | wowFS/unreliablefs/conf.c:67-82 | The first listed character or comment sign after whitespace, or the terminator |
| `IniText.Strncpy0` | wowFS/unreliablefs/conf.c:86-94 | The string cut to the destination, always terminated |
| `IniText.Find` | wowFS/unreliablefs/conf.c:67-82 | The least position that stops the scan, or the length |
| `IniText.Stripped` | wowFS/unreliablefs/conf.c:48-54 | The longest prefix that does not end in whitespace |
| `IniText.Blanks` | wowFS/unreliablefs/conf.c:57-62 | The length of the longest run of leading whitespace |
| `IniParser.PiecesSplit` | wowFS/unreliablefs/conf.c:265-288 | A list of lines is what the reader delivers if and only if it makes up the text and each line is non-empty, at most 199 long, with a newline only at its end, and one unless it is full or last |
| `IniParser.FirstError` | wowFS/unreliablefs/conf.c:119-240 | The value returned is the number of the first line that cannot be understood or whose call the handler rejects, 0 if there is none |
| `IniParser.ErrorsChangeNothing` | wowFS/unreliablefs/conf.c:135-240 | Sections, names and calls are the same whatever the handler answers: all later lines are still processed |
| `IniParser.CallsInOrder` | wowFS/unreliablefs/conf.c:135-228 | Each line's call follows exactly the calls of the lines before it |
| `IniStream.IniParseString` | wowFS/unreliablefs/conf.c:291-298 | The in-place parser returns the error and makes the calls of the specification, for every NUL-free text and every handler |
| `IniStream.ParseStream` | wowFS/unreliablefs/conf.c:97-241 | The loop over one line buffer, section and previous name does the same |
| `IniStream.StringReader.Read` | wowFS/unreliablefs/conf.c:265-288 | One read stores the next piece of the text with its terminator, or reports the end |
| `IniStream.StartOfLine` | wowFS/unreliablefs/conf.c:159-167 | Byte order mark, stripping and skipping in place |
| `IniStream.HeadingLine` | wowFS/unreliablefs/conf.c:180-196 | A closing bracket sets the section, cut to 49, and forgets the previous name; none changes nothing |
| `IniStream.SettingLine` | wowFS/unreliablefs/conf.c:197-228 | Name and value cut out in place; the untruncated name is passed on, the kept one is cut to 49 |
| `IniStream.ActOnStart` | wowFS/unreliablefs/conf.c:169-228 | The order of the cases: comment or blank, continuation, section, setting |
| `IniGrammar.ReadAsWritten` | wowFS/unreliablefs/conf.c:157-228 | The line grammar is complete and unambiguous: a line means something if and only if it can be written, with some layout, as an item that says so, for every line, previous name and position; malformed lines included |
| `IniGrammar.EveryLine` | wowFS/unreliablefs/conf.c:157-228 | Every line there can be is a printable item: section, setting, continuation, comment, blank line, or one of the two malformed kinds |
| `IniGrammar.LineRoundTrip` | wowFS/unreliablefs/conf.c:157-228 | An item written with any layout (indentation, byte order mark, blanks around `=` or `:`, trailing blanks and comments) is read as what it says when printable; a section, setting or continuation only then |
| `IniGrammar.EntryRoundTrip` | wowFS/unreliablefs/conf.c:197-228 | Any blanks before and after either delimiter, an optional blank and `;` comment behind, any indentation where no name can be continued: the line means this name and value if and only if they are trimmed, free of delimiters and comments and do not look like another kind of line |
| `IniGrammar.HeaderRoundTrip` | wowFS/unreliablefs/conf.c:180-196 | A section is read back if and only if it is shorter than 50, without a bracket or a comment, and not indented under a name; what a longer one has beyond 49 characters, and all behind the bracket, is ignored |
| `IniGrammar.MoreRoundTrip` | wowFS/unreliablefs/conf.c:173-178 | A continuation is read back if and only if it is indented under a name, trimmed, not empty and not a comment |
| `IniGrammar.ValueReads` | wowFS/unreliablefs/conf.c:204-216 | A value is read whole whatever blanks are around it and whatever comment follows |
| `IniRoundTrip.ParserReadsText` | wowFS/unreliablefs/conf.c:97-241 | For every text and handler: the parser makes these calls and returns this number if and only if the text can be written as a well-formed configuration with these triples whose first bad item has this number |
| `IniRoundTrip.RoundTrip` | wowFS/unreliablefs/conf.c:97-241 | Parsing the text of every well-formed configuration, whatever its layout, calls the handler with exactly its triples in order and returns the number of the first item that is malformed or whose call the handler rejects |
| `IniRoundTrip.EveryText` | wowFS/unreliablefs/conf.c:265-288 | Every text is the text of a well-formed configuration |
| `IniRoundTrip.NoError` | wowFS/unreliablefs/conf.c:119-240 | The parser returns 0 if and only if no line is malformed and the handler accepts every triple |
| `IniRoundTrip.PiecesOfPrinted` | wowFS/unreliablefs/conf.c:265-288 | The reader splits a printed file into its printed lines |
| `ErrInjConfig.ConfigurationFold` | wowFS/unreliablefs/unreliablefs_errinj.c:327-376 | After any calls the list has one entry for each recognised section called for, in order of first appearance, and each field holds the last value given for it |
| `ErrInjConfig.UnrecognisedIgnored` | wowFS/unreliablefs/unreliablefs_errinj.c:331-335 | Calls of unrecognised sections leave no trace |
| `ErrInjConfig.ConfigOfPrinted` | wowFS/unreliablefs/unreliablefs_errinj.c:292-308 | From a file with any layout to the list; a parse error is reported if and only if a line is malformed or a recognised section has an unknown option, never for an unrecognised section |
| `ErrInjConfig.ErrorsKeepConfig` | wowFS/unreliablefs/unreliablefs_errinj.c:300-305 | Lines in error do not disturb the entries of the others, and a positive error number does not discard the list |
| `ErrInjConfig.ErrInjQueue.ConfOptionHandler` | wowFS/unreliablefs/unreliablefs_errinj.c:327-376 | Search, insertion at the tail and field update on the entry objects; the three return values |
| `ErrInjConfig.ErrInjQueue.Find` | wowFS/unreliablefs/unreliablefs_errinj.c:336-343 | The first entry of a type, or none |
| `ErrInjConfig.ErrinjConf.SetOption` | wowFS/unreliablefs/unreliablefs_errinj.c:357-373 | Exactly the named field changes; an unknown name changes nothing |
| `ErrInjConfig.ErrinjTypeByName` | wowFS/unreliablefs/unreliablefs_errinj.c:280-290 | The last position of the name, or -1 |
| `ErrInjConfig.TypeOfName` | wowFS/unreliablefs/unreliablefs_errinj.c:280-290 | Each type has exactly one name |
| `ErrInjConfig.SectionsAreTypes` | wowFS/unreliablefs/unreliablefs_errinj.h:35-56 | Each injection type of the enumeration is recognised under exactly its own section name, and every other name is unknown |
| `ErrInjConfig.AnswerMeans` | wowFS/unreliablefs/unreliablefs_errinj.c:331-375 | The handler answers -1 exactly for unknown sections and 0 exactly for unknown options of known ones |
| `ErrInjConfig.KnownKeysMatter` | wowFS/unreliablefs/unreliablefs_errinj.c:357-373 | An option is known if and only if some value of it can change an entry |
| `ErrInjConfig.AtoiOfText` | wowFS/unreliablefs/unreliablefs_errinj.c:366-369 | Blanks, a sign and digits: held at the ends of long, then stored modulo 2^32, a negative number as its two's complement |
| `ErrInjConfig.AtoiOfDecimal` | wowFS/unreliablefs/unreliablefs_errinj.c:366-369 | A decimal number is stored modulo 2^32, held at the largest long first; what follows it is ignored |

## Left out

- gRPC, sockets, FUSE callbacks, logging and argument parsing: messages and system calls are steps on file maps.
- unlink, rename, truncate by path and utimens in the consistency theorem: they neither mark files dirty nor invalidate other caches.
- Client crashes, a client that dies in mid-stream, two writebacks to one path at once, and the window between close and registerFileClose.
- The write path without a file handle, and writes through descriptors that were never registered.
- `cmgr.validate` in release, which always succeeds, and the close of the descriptor itself.
- Directories the cleanup finds but cannot open, and entries it cannot read.
- Partial positional writes, and the descriptor a failed writeback leaves open on the server.
- error_inject: the choice of errors at random, probabilities and regular expressions; each delay or reorder it selects is a separate operation here.
- WriteOp's conversion of the buffer to a C string, the kill phrase and deliberate crashes.
- Datagrams shorter than a message and messages whose origin is not a participant; the file name and the contents written in the barrier test.
- notifyAll's order and the two sender threads: acknowledgements, triggers and resets go out in any order.
- ini_parse_file and fgets, which split a NUL-free file as the string reader does; allocation failures; the switches of conf.h other than those compiled in (the theorems about errors and call order hold for every line syntax).
- ErrInjConfig.ConfigInit: the handler is applied to the parser's calls as a function; the callback from inside the loop into the entry objects is not one method here.
- One-line operations (chmod, chown, statfs, xattr, lock, flock, mkdir, rmdir, link, symlink): nothing beyond the system call.
- FHLookup, constructDirPath, the Python scripts, benchmarks and workloads: easy or not part of the file system.
