# DMTCP: a verified model of its concurrent core

DMTCP checkpoints a distributed computation: a coordinator drives all processes through a
sequence of barriers, each process writes an image while every user thread in the whole
computation stands still, and a restart rebuilds the process forest from the images. This
project models the algorithms that carry that guarantee and proves what they promise.

* **Checkpoint protocol.** `CoordinatorState` holds the coordinator's handlers as functions on its
  record; `Coordinator.DmtcpCoordinator` has the same fields in place and is proved against them.
  `CoordinatorRules` and `BarrierRules` say in terms of the clients' records alone when a checkpoint
  starts, who is let in and when a barrier is released.
  `BarrierBookkeeping` and `RequestLog` run the coordinator against arbitrary clients, and
  `ImpoliteRuns` shows by runs what goes wrong with clients that break the rules.
  `CheckpointProtocol` runs it against any number of workers over FIFO connections, with launches,
  forks, disconnects and relaunches after a crash; `OneCheckpoint` follows the image names into the
  restart script; `NeverStuck` and `Completion` show that a requested checkpoint runs to its end in a
  known number of steps; `JoinWindow` proves the boundary of these theorems exact and `StuckJoin` has a
  run that hangs outside it; `RestartedRuns` carries
  the guarantees over a restart into the checkpoints after it. `WorkerThread.CkptThread` is the
  worker's script in place, proved to make exactly the worker steps of the protocol.
* **Allocator** (`TaggedStack`, `AllocStack`, `Words`, `Malloc`). The lock-free stack with its
  version-tagged head at the level of single loads, stores and swaps; its retry loops in place, tied
  to those steps; and the five size classes with malloc and free over bytes. The sizes are those of
  a build with `JALLOC_DEBUG` (jalib/jalloc.h:44-48), so that every block has its footer; without it
  a block has the header only.
* **Futex synchronisation** (`Mutex`, `RwLock`, `SharedBarrier`). Step systems for any number of
  threads or processes, with the same calls in place for a thread that runs undisturbed.
* **Restart** (`Restart`, `RestartOrder`, `RestartLoops`). The recursive re-creation of the process
  forest, the order in which it forks, and the same in loops.
* **Data-structure cores** (`VirtualIds`, `Serializer`, `SerializerStreams`, `GuardPages`,
  `KvMerge` with `KvMeaning`, `Base64` with `Base64Number`; `Wrappers` holds the option type).

A concurrent algorithm is a state, a set of events with a guard each, and a step function; a run
is a sequence of events each enabled where it happens. Main results speak of every run or every
input. `dafny verify dfyconfig.toml` checks everything.

## What turned out false, and exactly when it holds

* A launch into a computation with a request open keeps the guarantees of the protocol in all that
  follows if and only if no barrier of that checkpoint has been released, or all have
  (`CheckpointProtocol.LaunchBoundary`). While images are written, it stops the coordinator or runs
  user threads inside the cut (`CheckpointProtocol.LaunchDuringWriteBreaksCut`), and every
  configuration has a run from the start that gets there (`JoinWindow.SomeLaunchGoesWrong`).
* A worker that joins after DMT:WriteCkpt was released and before the script is complete is sent a
  request the others have already followed. Letting somebody in keeps one checkpoint per request and
  one script per checkpoint in all later runs if and only if it happens outside that window
  (`JoinWindow.JoinBoundary`). With DMT:WriteCkpt as the last barrier, as it is unless a plugin adds
  one, there is a run from the start with two scripts for one request, the second naming a worker
  that was not released to write (`JoinWindow.SomeScriptGoesWrong`). That a script or a reset comes
  between two requests, and that a script holds exactly the delivered names, needs no such
  condition (`RequestLog.OneRequestOpen`, `OneCheckpoint.ScriptHoldsTheNames`).
* A worker forked in that window can wait at DMT:SUSPEND for ever while its parent runs and every new
  request is refused (`StuckJoin.SomeJoinGetsStuck`). Outside it a checkpoint always completes
  (`Completion.Completes`).
* A worker that vanishes between DMT:WriteCkpt and its name leaves the request open until a reset
  (`OneCheckpoint.RequestStaysOpen`).
* The arrival counter is exact for clients that keep the rules of waitForBarrier. For each rule
  there is a run in which one client breaks it and the counter goes wrong
  (`ImpoliteRuns.RunningArrival`, `RunningWhileWaiting`, `ResumingWhileWaiting`, `ReopenedName`,
  `EmptyName`). The workers' own script keeps them all
  (`CheckpointProtocol.ProtocolBookkeeping` has no such condition).
* The first worker of a restart is released alone if and only if its peer count is at most one or at
  least 2^31, and that is right only for one (`ImpoliteRuns.FirstOfRestart`).
  A restarting worker that announces another state, or sends an image name, also spoils the
  admission (`ImpoliteRuns.StrangerLetIn`, `ImpoliteRuns.NameDuringRestart`).
* A malloc request within 16 bytes of 2^64 wraps around and is granted a 64-byte chunk
  (`Malloc.WrapIsSmall`), and its footer is written below its payload (`Malloc.WrappedFooter`);
  header, payload and footer fit exactly when the sum does not wrap (`Malloc.FitsExactly`).
* The read/write lock keeps its counts in signed 10-bit fields. Up to 511 outstanding read locks
  it excludes the writer; with n readers inside, the next writer walks in exactly when n, cut to
  ten bits, is not positive, which first happens at 512 (`RwLock.OverflowLetsTheWriterIn`).
* The serializer reads all entries of a map into one key and one value variable and maps are read
  without being cleared, so a map inside a key or value of a map leaks from one entry into the
  next. A type round-trips for all its values exactly when it has no such nesting
  (`Serializer.CleanExactly`).
* INCRBY on one key runs through exactly when no running sum leaves the 64-bit range
  (`KvMeaning.SumsDecide`).
* The base64 encoder's 32-bit position passes the end exactly for fewer than 2^32 bytes; otherwise
  its loop does not end (`Base64.EncoderEnds`).
* The virtual pid search ends exactly when fewer than 961 slots are in use; otherwise it never
  does (`VirtualIds.SearchEnds`).
* Locking a NORMAL mutex twice is noticed by trylock, but lock then goes to sleep on the lock it
  holds (`Mutex.RelockingSleeps`).
* Without the age order between session leaders and members no independent root need exist
  (`Restart.SessionCycleHasNoRoot`).

## Model

| member | source | states |
|---|---|---|
| `CheckpointProtocol.ConsistentCut` | src/dmtcpworker.cpp:394-548 | In every run, from the moment a release from DMT:CHECKPOINT is on its way to any worker until the release from DMT:WriteCkpt is, every connected worker has its user threads stopped |
| `CheckpointProtocol.NobodyResumesEarly` | src/dmtcp_coordinator.cpp:574-618 | In every run, while one worker is past DMT:WriteCkpt or runs its user threads, no connected worker is between DMT:SUSPEND and DMT:WriteCkpt |
| `CheckpointProtocol.NoAssertionFires` | src/coordinatorapi.cpp:523-572 | In every run the coordinator never aborts, no worker reads a message waitForBarrier or waitForPreSuspendMessage rejects, whoever waits at a barrier waits at the next one to be released, and no worker announces a barrier other than the pending one |
| `CheckpointProtocol.ProtocolBookkeeping` | src/dmtcp_coordinator.cpp:743-771 | In every run of the protocol the arrival counter and the progress condition of the bookkeeping theorem hold without side conditions |
| `CheckpointProtocol.JoinNeverAborts` | src/dmtcp_coordinator.cpp:1224-1248 | With no worker connected, no request open, or no barrier of the open checkpoint released, whoever connects, launched or forked, never meets the assertion that the least advanced worker is not SUSPENDED |
| `CheckpointProtocol.ForkNeverAborts` | src/dmtcp_coordinator.cpp:1224-1248 | A forked worker that connects never meets the assertion that the least advanced worker is not SUSPENDED |
| `CheckpointProtocol.StepInv` | src/dmtcp_coordinator.cpp:696-925 | Every step of coordinator, workers and connections keeps the protocol invariant relating each record, queue and worker position to the next barrier to release |
| `CheckpointProtocol.ReceiveFits` | src/coordinatorapi.cpp:537-571 | A worker that reads its next message stays where the protocol expects it, over at most one duplicate request |
| `CheckpointProtocol.AdvanceFits` | src/dmtcpworker.cpp:405-547 | Every step of the worker's script keeps the worker, its queue and its record consistent with the pending barrier |
| `CheckpointProtocol.LaunchBoundary` | src/dmtcp_coordinator.cpp:1284-1289 | With workers connected and a request open, an accepted launch keeps cut, order, assertions, barrier announcements and bookkeeping in every later run if and only if the next barrier to be released is DMT:SUSPEND |
| `CheckpointProtocol.LaunchDuringWriteBreaksCut` | src/dmtcp_coordinator.cpp:1284-1289 | A launch accepted between the releases of DMT:CHECKPOINT and DMT:WriteCkpt trips the assertion when the least advanced worker is recorded SUSPENDED, and otherwise runs user threads inside the cut |
| `JoinWindow.SomeLaunchGoesWrong` | src/dmtcp_coordinator.cpp:1284-1289 | In every configuration some run from the start reaches a state in which a launch trips the assertion (no barrier between DMT:CHECKPOINT and DMT:WriteCkpt) or breaks the cut (some barrier between) |
| `RequestLog.OneRequestOpen` | src/dmtcp_coordinator.cpp:1342-1381 | Under every sequence of events at the coordinator, whatever the clients send: between two started checkpoints there is a script or a reset, and without a reset the generation rises |
| `OneCheckpoint.OneInFlight` | src/dmtcp_coordinator.cpp:1342-1381 | In every run without a join in the window, workers are between DMT:SUSPEND and DMT:WriteCkpt only for a request that is open and has not been through DMT:WriteCkpt before, and every script directly follows its request |
| `OneCheckpoint.OneScriptEach` | src/dmtcp_coordinator.cpp:1342-1381 | In every run without a join in the window, between two consecutive starts comes the script of the first or a reset, then only resets |
| `OneCheckpoint.ScriptHoldsTheNames` | src/dmtcp_coordinator.cpp:621-693 | In every run, whenever a script is written, its three host maps are built from exactly the names delivered since the last request |
| `OneCheckpoint.ScriptIsExact` | src/dmtcp_coordinator.cpp:621-693 | In every run without a join in the window, whenever a script is written, it holds exactly one name for each worker released from DMT:WriteCkpt |
| `OneCheckpoint.ScriptWhenComplete` | src/dmtcp_coordinator.cpp:621-693 | In every run without a join in the window, a delivered name appends the script and closes the request if and only if the names delivered are then those of all released workers; otherwise log and request stay as they are |
| `OneCheckpoint.FilesAreTheNames` | src/dmtcp_coordinator.cpp:640-650 | For every host and shell kind, the map built name by name lists exactly the delivered names of that host and kind, in order |
| `OneCheckpoint.RequestStaysOpen` | src/dmtcp_coordinator.cpp:621-693 | Once a worker released from DMT:WriteCkpt is gone without having delivered its name, the request stays open and no script is written until a reset |
| `OneCheckpoint.StepInv1` | src/dmtcp_coordinator.cpp:621-693 | Every step outside the window keeps the account of names owed, delivered and counted, and the log of starts, scripts and resets |
| `Completion.Completes` | src/dmtcpworker.cpp:394-548 | From every reachable state without a join in the window, steps of workers and connections in any order number at most what is left, the next can be made until then, and then every worker runs its threads and the request is closed, unless a worker vanished owing its name |
| `Completion.StepLess` | src/dmtcpworker.cpp:394-548 | Every read, own step and delivery, releases included, makes the work left exactly one less |
| `NeverStuck.ComesToRest` | src/dmtcp_coordinator.cpp:574-618 | In every run without a join in the window, when nobody has anything to read, do or deliver, every worker runs its threads and the request is closed, unless a worker vanished owing its name |
| `NeverStuck.StepInv2` | src/dmtcp_coordinator.cpp:696-925 | Every step outside the window keeps everybody asked until DMT:SUSPEND is released and every missing name owed by a worker that is there or gone |
| `JoinWindow.JoinBoundary` | src/dmtcp_coordinator.cpp:1284-1289 | Admitting a launch or fork beside others keeps the result of OneInFlight in every later run without a join in the window if and only if it is not itself made between the release of DMT:WriteCkpt and the script |
| `JoinWindow.SomeScriptGoesWrong` | src/dmtcp_coordinator.cpp:1284-1289 | With DMT:WriteCkpt as the last barrier, some run from the start ends in two scripts for one request, the second naming two workers of which only one was released |
| `StuckJoin.SomeJoinGetsStuck` | src/dmtcp_coordinator.cpp:1284-1289 | With DMT:WriteCkpt as the last barrier, some run from the start ends with nobody having anything to do, a forked worker waiting at DMT:SUSPEND, and a request refused |
| `RestartedRuns.RestartThenCheckpoint` | src/dmtcpworker.cpp:550-578 | After any admissions and rejections, the release that ends a restart finds exactly the announced peers, and from there on every checkpoint has a consistent cut and all other guarantees of the protocol |
| `RestartedRuns.RestartRelease` | src/dmtcp_coordinator.cpp:574-601 | The release that ends a restart, whatever event brings it, finds every client recorded at the released barrier and leaves nothing pending |
| `RestartedRuns.RestartedIsSound` | src/dmtcpworker.cpp:550-578 | From a state in which every worker has the release from DMT:Restart to read, every run keeps the guarantees of the protocol |
| `BarrierBookkeeping.BookkeepingTheorem` | src/dmtcp_coordinator.cpp:574-618 | Over all runs of connects, messages, disconnects and requests by clients that keep the rules of waitForBarrier: the counter equals the number of clients recorded at the current barrier, is 0 without one, and with no restart peer missing some client has not arrived |
| `BarrierBookkeeping.RestartAdmissionTheorem` | src/dmtcp_coordinator.cpp:1132-1185 | At the first barrier release after a restart begins the clients are exactly numRestartPeers workers in RESTARTING state that presented the coordinator's computation id and that peer count |
| `BarrierBookkeeping.StepKeepsBook` | src/dmtcp_coordinator.cpp:743-771 | Every handler keeps the counter and the progress condition for clients that keep the rules of waitForBarrier |
| `BarrierBookkeeping.DisconnectKeepsBook` | src/dmtcp_coordinator.cpp:911-919 | A disconnect, arrived or not, keeps the counter exact and never misses a release |
| `BarrierBookkeeping.ResetForgets` | src/dmtcp_coordinator.cpp:928-948 | A coordinator whose clients are all gone treats the next new or restarting worker as a freshly started one would, whatever barrier, request or restart was pending |
| `CoordinatorRules.StartsExactly` | src/dmtcp_coordinator.cpp:1342-1381 | A checkpoint starts exactly when there are clients, all are RUNNING and no request is open, whatever peer count a restart left; then everybody is asked and the account of names is empty |
| `CoordinatorRules.UnanimousExactly` | src/dmtcp_coordinator.cpp:1412-1455 | Unanimity holds exactly when all states are equal and the clients are not all RESTARTING and fewer than the announced peers |
| `CoordinatorRules.RestartExactly` | src/dmtcp_coordinator.cpp:1125-1221 | A restarting worker is admitted exactly as the first client, or when all clients are RESTARTING and it presents their computation and peer count; the assertion stops the coordinator exactly when clients of no computation are past UNKNOWN |
| `CoordinatorRules.NewExactly` | src/dmtcp_coordinator.cpp:1223-1339 | A new worker is admitted exactly when its state is RUNNING or UNKNOWN and either a checkpoint is on and the least advanced client is not SUSPENDED, or it claims no computation and some client runs, or there is none; the assertion fires exactly in the excluded case |
| `BarrierRules.ArrivalExactly` | src/dmtcp_coordinator.cpp:743-771 | Whoever comes to another barrier than the pending one is thrown out and nobody else changes; whoever comes again changes its state only; any other arrival is recorded and releases the barrier exactly when all clients are there and no restart peer is missing, telling them their number |
| `BarrierRules.DepartureExactly` | src/dmtcp_coordinator.cpp:884-925 | A departure removes one client and releases the pending barrier exactly when those who stay have all arrived and no restart peer is missing |
| `BarrierRules.NameExactly` | src/dmtcp_coordinator.cpp:621-693 | A name is refused exactly for an unknown shell kind; it records its sender as CHECKPOINTED, any unique name makes the checkpoint unique, and the last expected name writes the script and closes the request |
| `ImpoliteRuns.RunningArrival` | src/dmtcp_coordinator.cpp:1342-1410 | A run in which an arrival says RUNNING and the next request zeroes a counter that is not zero |
| `ImpoliteRuns.RunningWhileWaiting` | src/dmtcp_coordinator.cpp:1342-1410 | A run in which a waiting client says RUNNING in another message, with the same end |
| `ImpoliteRuns.ResumingWhileWaiting` | src/dmtcp_coordinator.cpp:719-741 | A run in which a client resumes while it waits, and stays counted |
| `ImpoliteRuns.ReopenedName` | src/dmtcp_coordinator.cpp:757-770 | A run in which a released name is opened again while a peer still has it on record, and the peer is not counted |
| `ImpoliteRuns.EmptyName` | src/dmtcp_coordinator.cpp:604-618 | A run in which an arrival under the empty name makes the next barrier be released with one of two clients missing |
| `ImpoliteRuns.FirstOfRestart` | src/dmtcp_coordinator.cpp:574-601 | For every 32-bit peer count, the first worker of a restart is released alone if and only if the count is at most one or at least 2^31, and the admission result then holds only for one |
| `ImpoliteRuns.StrangerLetIn` | src/dmtcp_coordinator.cpp:1223-1289 | A run in which a restarting worker says RUNNING, a new worker is let in and is counted as the missing peer |
| `ImpoliteRuns.NameDuringRestart` | src/dmtcp_coordinator.cpp:621-693 | A run in which a waiting worker sends an image name and is not RESTARTING when the restart is released |
| `Coordinator.DmtcpCoordinator.Status` | src/dmtcp_coordinator.cpp:1412-1455 | The loop over the clients yields their number, least state and unanimity, which holds exactly when all states are equal and no restart waits for peers |
| `Coordinator.DmtcpCoordinator.ReleaseBarrier` | src/dmtcp_coordinator.cpp:574-601 | The in-place release equals the specification: nothing unless all connected clients have arrived and no restart peer is missing, else the barrier moves to previous and one broadcast goes out |
| `Coordinator.DmtcpCoordinator.OnBarrier` | src/dmtcp_coordinator.cpp:743-771 | The in-place handling of an arrival, including the wrong-barrier disconnect and the repeated arrival, equals the specification |
| `Coordinator.DmtcpCoordinator.OnDisconnect` | src/dmtcp_coordinator.cpp:884-925 | The in-place disconnect equals the specification, counter and possible release included |
| `Coordinator.DmtcpCoordinator.RecordCkptFilename` | src/dmtcp_coordinator.cpp:621-693 | The in-place recording files the name under its shell kind and host, aborts on an unknown kind, and writes the script when the count is complete |
| `Coordinator.DmtcpCoordinator.OnData` | src/dmtcp_coordinator.cpp:696-779 | The in-place dispatch on barrier, filename, resuming and other messages equals the specification |
| `Coordinator.DmtcpCoordinator.OnConnectRestart` | src/dmtcp_coordinator.cpp:1125-1221 | The in-place admission of a restarting worker equals the specification, and accepts and stops exactly in the cases of RestartExactly |
| `Coordinator.DmtcpCoordinator.OnConnectNew` | src/dmtcp_coordinator.cpp:1223-1339 | The in-place admission of a new worker equals the specification, resent request included, and accepts and stops exactly in the cases of NewExactly |
| `Coordinator.DmtcpCoordinator.StartCheckpoint` | src/dmtcp_coordinator.cpp:1342-1381 | The in-place start equals the specification and succeeds exactly when there are clients, all are RUNNING and no request is open |
| `CoordinatorState.MinStateIsMinimum` | src/dmtcp_coordinator.cpp:1423-1437 | The status minimum is attained by some client and bounds all |
| `WorkerThread.CkptThread.WaitForBarrier` | src/coordinatorapi.cpp:523-572 | Announcing a barrier and reading until released, over at most one duplicate request, makes exactly the worker steps of the protocol |
| `WorkerThread.CkptThread.Suspend` | src/dmtcpworker.cpp:355-450 | From the request to stopped user threads the thread makes exactly the worker steps of the protocol |
| `WorkerThread.CkptThread.Checkpoint` | src/dmtcpworker.cpp:394-548 | One pass makes exactly the protocol's worker steps and, when it ends, has sent every barrier once in order, the image name after DMT:WriteCkpt, and RESUMING last |
| `WorkerThread.DefaultPass` | src/dmtcpworker.cpp:394-548 | Without plugin barriers a pass announces DMT:SUSPEND, DMT:CHECKPOINT and DMT:WriteCkpt in states PRESUSPEND, SUSPENDED and CHECKPOINTED, then the image name |
| `TaggedStack.OwnershipTheorem` | jalib/jalloc.cpp:207-254 | Over all interleavings: the walk from the head is finite and unique and equals the abstract stack, and every chunk is in exactly one of the free list, one caller's hands, or one thread's private hands |
| `TaggedStack.SwapInstallsSuccessor` | jalib/jalloc.cpp:212-233 | Whenever a pop's swap succeeds, it takes the first free chunk and installs the true second, whatever was read when |
| `TaggedStack.StepInv` | jalib/jalloc.cpp:207-301 | Every load, store and swap keeps the ownership invariant while the abstract stack changes by pop, push, push-many or not at all |
| `TaggedStack.LinkedUnique` | jalib/jalloc.cpp:303-318 | Links from a head determine at most one list |
| `AllocStack.JFixedAllocStack.Allocate` | jalib/jalloc.cpp:207-235 | The retry loop pops the first chunk, growing the stack first when it is empty, and leaves head and links exactly as PopIsSteps says of the thread's steps |
| `AllocStack.JFixedAllocStack.Deallocate` | jalib/jalloc.cpp:238-254 | The retry loop pushes the chunk, touches no other link, and leaves head and links exactly as PushIsSteps says of the thread's steps |
| `AllocStack.JFixedAllocStack.Chain` | jalib/jalloc.cpp:286-289 | The loop chains the new block in order and touches nothing else |
| `AllocStack.JFixedAllocStack.Expand` | jalib/jalloc.cpp:279-301 | The whole block goes in front of the list in order |
| `AllocStack.PopIsSteps` | jalib/jalloc.cpp:207-235 | A thread that runs alone from the call takes the first chunk off a stack that is not empty in six single steps, with this head and these links |
| `AllocStack.PushIsSteps` | jalib/jalloc.cpp:238-254 | A thread that runs alone from the call puts its chunk in front in five single steps, with this head and these links |
| `Malloc.FitsExactly` | jalib/jalloc.h:67-84 | Header, payload and footer fit the granted chunk exactly when the request plus 16 does not wrap around 2^64 |
| `Malloc.WrapIsSmall` | jalib/jalloc.h:67-70 | Every request within 16 bytes of 2^64 wraps to less than 16 and is granted a 64-byte chunk |
| `Malloc.WrappedFooter` | jalib/jalloc.h:75-81 | The footer of such a request is written below its payload, and starts inside its chunk only for the eight largest sizes |
| `Malloc.AllocationsNeverOverlap` | jalib/jalloc.cpp:357-404 | Any two live allocations, header and canary included, are disjoint whatever their levels |
| `Malloc.JAllocDispatcher.Allocate` | jalib/jalloc.cpp:357-378 | The recursion through expand terminates and adds exactly one live piece of the right level and length |
| `Malloc.JAllocDispatcher.Carve` | jalib/jalloc.cpp:284-301 | A live block becomes free chunks of one level; no other live piece changes |
| `Malloc.JAllocDispatcher.Deallocate` | jalib/jalloc.cpp:380-404 | The chunk goes back to the list of the level it came from; no other live piece changes |
| `Malloc.JAllocDispatcher.Malloc` | jalib/jalloc.h:67-84 | Every non-wrapping request yields a new block whose header and canary are in place while all others stay intact and no payload changes; a wrapping one takes one 64-byte chunk and stores size and canary where the wrapped address falls |
| `Malloc.JAllocDispatcher.Write` | jalib/jalloc.h:75-84 | Writing any payload byte disturbs no header and no canary |
| `Malloc.JAllocDispatcher.Free` | jalib/jalloc.h:86-111 | The canary check never fires, header, payload and footer are zeroed, the chunk returns to its level, and all other blocks stay intact with their payloads |
| `Words.WordRoundTrip` | jalib/jalloc.h:72-80 | A word stored as bytes reads back as itself |
| `Mutex.MutualExclusion` | src/mutex.cpp:36-107 | In every interleaving at most one thread has the lock, the word is not free while it does, and the owner field names nobody else |
| `Mutex.FreeWhenNobodyHas` | src/mutex.cpp:115-147 | The word is free exactly when nobody has the lock, and then owner and count are clear |
| `Mutex.FreedExactlyWhenMatched` | src/mutex.cpp:128-134 | Between calls, count is acquisitions minus releases, and the lock is free exactly when every thread has undone all of its own |
| `Mutex.FreedByItsHolder` | src/mutex.cpp:130-138 | The swap that frees the word is made by the holder after its last matching unlock |
| `Mutex.OwnerCheckIsExact` | src/mutex.cpp:118-126 | unlock's owner check stops exactly the callers who do not hold the lock |
| `Mutex.AbortsAreDeserved` | src/mutex.cpp:87-140 | The assertion on the futex word never fires, and the overflow assertion only at the 2^32-th nested acquisition |
| `Mutex.NoLostWakeup` | src/mutex.cpp:52-67 | While a thread sleeps the word is in the waiters state, or some thread is about to wake one or awake in the slow path |
| `Mutex.SleepersProgress` | src/mutex.cpp:130-144 | With a sleeper and a free lock, at most two steps lead to an acquisition that keeps the waiters state |
| `Mutex.SleepersWaitForAHolder` | src/mutex.cpp:52-67 | When nobody can move, a sleeper waits for a thread that holds the lock, never for itself if the kind is recursive |
| `Mutex.RelockingSleeps` | src/mutex.cpp:39-67 | A holder locking a NORMAL mutex again goes to sleep while holding it |
| `Mutex.DmtcpMutex.TryLock` | src/mutex.cpp:77-107 | The call does to the mutex what the thread's steps do; EDEADLK and EAGAIN are returned exactly in their cases |
| `Mutex.DmtcpMutex.Unlock` | src/mutex.cpp:115-147 | The call does to the mutex what the thread's steps do, and wakes exactly when it frees a contended word |
| `RwLock.ReadersExcludeWriter` | src/rwlock.cpp:18-149 | In every run with at most 511 outstanding read locks and one writer thread, no read lock is held while the writer has the lock |
| `RwLock.CountsAreExact` | src/rwlock.cpp:32-41 | The two reader counts are the numbers of admitted and queued readers, every held lock is admitted, and readers queue only while a writer is announced |
| `RwLock.NoAssertionFires` | src/rwlock.cpp:56-158 | None of the assertions in the unlock paths fires and unlock never takes the other side's path |
| `RwLock.HandoverLosesNoReader` | src/rwlock.cpp:127-135 | The writer's status step overwrites a count of zero and admits exactly the queued readers |
| `RwLock.HandoverWakesAll` | src/rwlock.cpp:137-146 | Its wake reaches every sleeping reader, and every admitted reader is in or gets in with its next step |
| `RwLock.SleepersHaveACause` | src/rwlock.cpp:43-107 | A sleeping reader has an announced writer or one about to wake it; a sleeping writer has an admitted reader or one about to wake it |
| `RwLock.OverflowLetsTheWriterIn` | src/rwlock.cpp:86-109 | After n uncontended read locks the next writer enters exactly when n, cut to ten bits, is not positive |
| `RwLock.DmtcpRWLock.RdLock` | src/rwlock.cpp:18-53 | The call does the reader's status step, and is refused exactly to the thread that holds the write lock |
| `RwLock.DmtcpRWLock.RdUnlock` | src/rwlock.cpp:56-76 | The call does the reader's leaving step, and bumps the writer's futex exactly when the last reader leaves an announced writer |
| `RwLock.DmtcpRWLock.WrLock` | src/rwlock.cpp:79-112 | The call announces the writer and either waits or has the lock |
| `RwLock.DmtcpRWLock.WrUnlock` | src/rwlock.cpp:115-149 | The call does the writer's three unlocking steps exactly when its two assertions hold |
| `SharedBarrier.NobodyReturnsEarly` | src/shareddata.cpp:347-379 | In every run, no process returns from its k-th call before every participant has joined its own k-th |
| `SharedBarrier.WakesItsOwnRound` | src/shareddata.cpp:368-379 | Whoever sleeps when a round is woken belongs to that round, and returns from it |
| `SharedBarrier.SleepersAreServed` | src/shareddata.cpp:355-379 | A sleeper's round has a participant yet to join it or one on its way to release it |
| `SharedBarrier.NeverHangs` | src/shareddata.cpp:347-379 | When nobody can move, a sleeper waits for a participant outside any call |
| `SharedBarrier.CallsAreShort` | src/shareddata.cpp:347-379 | A call takes at most ten steps of its caller, whatever the others do |
| `SharedBarrier.EverybodyReturns` | src/shareddata.cpp:347-379 | When every participant has called k times and nobody can move, every one has returned k times |
| `SharedBarrier.WakeLimitSuffices` | src/shareddata.cpp:373-377 | The limit passed to futex_wake exceeds the number of sleepers |
| `SharedBarrier.BarrierInfo.InitializeAll` | src/shareddata.cpp:312-330 | One initialisation by each of n participants leaves the record from which runs start |
| `SharedBarrier.BarrierInfo.Arrive` | src/shareddata.cpp:349-353 | What an arrival does under the lock is its join and its reading of the round |
| `SharedBarrier.BarrierInfo.Release` | src/shareddata.cpp:369-372 | What the last arrival does under the lock empties the counter and moves the round on |
| `Restart.ExactlyOnce` | src/dmtcprestartinternal.cpp:314-382 | For any well-formed set of images the recursion terminates, creates each image's process exactly once and nothing else, each non-root under its own parent and each other root adopted by init |
| `Restart.RootExists` | src/dmtcprestartinternal.cpp:1042-1064 | An independent root always exists |
| `Restart.SessionCycleHasNoRoot` | src/dmtcprestartinternal.cpp:1062-1064 | Two roots in each other's session leave none independent |
| `Restart.CreateCount` | src/dmtcprestartinternal.cpp:326-369 | A process without the root loop creates exactly the images that hang under it in the maker relation, each once |
| `Restart.RootsCover` | src/dmtcprestartinternal.cpp:1042-1061 | The independent roots are distinct, made by nobody, and every image hangs under one of them |
| `RestartOrder.ForkOrder` | src/dmtcprestartinternal.cpp:326-369 | In the log of the whole restart every process comes before what it makes; its children with another session come before the members of its session; the other independent roots come between those of the first process; and within each group the order is that of the images |
| `RestartOrder.CreateOrder` | src/dmtcprestartinternal.cpp:326-369 | The same order in the log of any one process that makes no other roots |
| `RestartOrder.StartOrder` | src/dmtcprestartinternal.cpp:336-345 | The first process makes the other roots in their order, after its children outside its session and before those inside |
| `RestartLoops.CreateProcess` | src/dmtcprestartinternal.cpp:314-382 | The loops fork the processes of the recursive specification: without other roots exactly the images that hang under x, once each; every process before what it makes, its children outside its session before the members of it, the other roots between the two, each group as listed |
| `RestartLoops.FindRoots` | src/dmtcprestartinternal.cpp:1042-1061 | The nested loops find exactly the independent roots, in map order |
| `RestartLoops.ProcessCkptImages` | src/dmtcprestartinternal.cpp:1034-1093 | The assertion on the roots never fires, every image comes back once under the right parent, the first process is the first root with a parent, or the first root orphaned, and the order is that of ForkOrder |
| `VirtualIds.SearchEnds` | src/dmtcp_coordinator.cpp:298-316 | The search for a pid ends, and then within 961 tries, exactly when fewer than 961 slot pids are in use |
| `VirtualIds.PidIssuer.GetNewVirtualPid` | src/dmtcp_coordinator.cpp:298-316 | The loop returns the first free slot from the cursor on within 961 tries and leaves the cursor after it |
| `VirtualIds.PidIssuer.IssueAll` | src/dmtcp_coordinator.cpp:298-316 | As many workers as there are free slots all get different slots, none in use before |
| `VirtualIds.SlotsAreDisjoint` | include/virtualidtable.h:153-157 | Tables based on different slots mint different ids, none a slot pid, and each recognises its own ids only |
| `VirtualIds.VirtualIdTable.AddOneToNextVirtualId` | include/virtualidtable.h:85-94 | The cursor moves cyclically and stays strictly between base and base plus max |
| `VirtualIds.VirtualIdTable.GetNewVirtualId` | include/virtualidtable.h:127-151 | Succeeds exactly when the table has fewer than max entries and some id strictly between base and base plus max is free, and finds the first one from the cursor on |
| `VirtualIds.VirtualIdTable.MapAll` | include/virtualidtable.h:127-151 | Minting one id for each real id gives different ids mapped to theirs, keeps all earlier entries, and stops short only when the table is full or no id is free |
| `VirtualIds.VirtualIdTable.ResetOnFork` | include/virtualidtable.h:120-125 | After the reset with its own slot, nothing the child can mint is recognised as the parent's or is a slot pid |
| `Serializer.CleanExactly` | jalib/jserialize.h:75-169 | Every value of a type reads back as itself, consuming exactly its bytes and for any iteration order, if and only if no map sits inside a key or value of a map |
| `Serializer.ReadsBack` | jalib/jserialize.h:75-191 | For every type, starting value and object, reading what was written yields exactly the merge of the two and leaves exactly what followed |
| `Serializer.OverwritingReplaces` | jalib/jserialize.h:75-97 | Map-free types are replaced whatever the target held |
| `Serializer.TableUnion` | jalib/jserialize.h:111-139 | Reading a clean table adds its entries to the target, its own winning |
| `Serializer.UncleanLeaks` | jalib/jserialize.h:123-128 | A type with such nesting has a value that fails to come back in either order of its entries |
| `Serializer.VectorBytes` | jalib/jserialize.h:75-97 | The bytes of a vector of one element, written out |
| `Serializer.MapBytes` | jalib/jserialize.h:99-169 | The bytes of a map of either kind with one entry, written out |
| `Serializer.SizeBytes` | jalib/jserialize.h:80-82 | A length is four bytes, the lowest first |
| `Serializer.TablesAddUp` | include/virtualidtable.h:308-334 | Reading a file of appended tables to its end yields the union over the starting table |
| `Serializer.LastWriterWins` | include/virtualidtable.h:284-334 | In that union the last table holding a key decides its value |
| `Serializer.UntouchedStays` | include/virtualidtable.h:308-334 | In that union a key no table holds stays as it was |
| `SerializerStreams.Writer.Serialize` | jalib/jserialize.h:65-191 | The writer's loops append exactly the specified bytes |
| `SerializerStreams.Reader.Deserialize` | jalib/jserialize.h:65-191 | The reader's loops fail exactly where the specification does, and otherwise give its value and stop where it stops |
| `SerializerStreams.Reader.AssertPoint` | jalib/jserialize.h:33-39 | A mark is accepted exactly when its bytes and terminator are next |
| `SerializerStreams.Reader.ReadMaps` | include/virtualidtable.h:308-334 | The loop to end of file equals the specification on any bytes |
| `GuardPages.Recorder.RecordAll` | src/guardpages.cpp:61-102 | Recording areas in ascending order never trips an assertion and yields a sorted, disjoint, non-abutting list covering exactly the guarded addresses of this pass |
| `GuardPages.Recorder.Record` | src/guardpages.cpp:84-102 | Recording one area adds exactly its guarded addresses |
| `GuardPages.Recorder.AddRange` | src/guardpages.cpp:38-59 | A range is accepted exactly when non-empty and not before the last end; it is merged when it abuts, and the list stays tidy |
| `GuardPages.TidyUnique` | src/guardpages.cpp:32-34 | A sorted, disjoint, non-abutting list is determined by what it covers |
| `GuardPages.Recorder.NextRangeAfter` | src/guardpages.cpp:104-118 | Returns the first range ending above the address, if any |
| `GuardPages.Recorder.Enumerate` | src/guardpages.cpp:104-118 | Asking again from each answer's end gives exactly the ranges ending above the address, in order |
| `GuardPages.AboveExact` | src/guardpages.cpp:104-118 | Those are a suffix of the list, split exactly at the address |
| `KvMerge.OrderFree` | src/lookup_service.cpp:132-187 | For one of INCRBY, AND, OR, XOR, MIN, MAX on an absent key with 64-bit operands, and for INCRBY without overflow in either order, every order of arrival leaves the same table |
| `KvMeaning.HoldsTheMeaning` | src/lookup_service.cpp:140-186 | An absent key updated by one operator with any 64-bit numbers ends up holding their sum (if no running sum overflows), least or greatest, or the number each of whose 64 bits is set exactly when all, some or an odd number of them have it; no other key changes |
| `KvMeaning.UpdateMeans` | src/lookup_service.cpp:150-186 | One update of a number that is there holds what the operator means of the two, answers with the old text, and overflows exactly for INCRBY out of range |
| `KvMeaning.SumsDecide` | src/lookup_service.cpp:156-158 | A sequence of INCRBY runs through exactly when no running sum leaves the 64-bit range |
| `KvMeaning.CombineBits` | src/lookup_service.cpp:160-170 | Bit k of the result of AND, OR and XOR is that operator of bits k of the operands |
| `KvMerge.HoldsTheFold` | src/lookup_service.cpp:140-186 | The key ends up holding the printed fold, and each reply is the printed fold of the requests before it |
| `KvMerge.RepliesArePrefixSums` | src/lookup_service.cpp:156-158 | INCRBY answers with the sum of the earlier increments |
| `KvMerge.RepliesIncrease` | src/lookup_service.cpp:156-158 | For positive increments the answers strictly increase |
| `KvMerge.FoldPermutes` | src/lookup_service.cpp:154-183 | Each operator's fold depends only on the multiset of operands |
| `KvMerge.OnlyIncrByOverflows` | src/lookup_service.cpp:154-183 | The other operators never leave the 64-bit range |
| `KvMerge.ParsePrint` | jalib/jconvert.h:37-49 | Printing a 64-bit integer in decimal and parsing it in base 0 gives it back |
| `KvMeaning.ParseNumeral` | jalib/jconvert.h:37-49 | Octal, decimal and hexadecimal numerals, with or without a sign, parse in base 0 to their number, cut to the 64-bit range |
| `KvMerge.LookupService.Get` | src/lookup_service.cpp:50-69 | Finds the value, or tells a missing database from a missing key |
| `KvMerge.LookupService.ProcessSet` | src/lookup_service.cpp:132-187 | The in-place update equals the specification and touches no other database; SET, and any request on an absent key, store the text and answer with the old one or "0" |
| `Base64.DecodeEncode` | include/base64.h:88-212 | Decoding the encoding of any bytes, in either alphabet, gives them back |
| `Base64.DecodeStripped` | include/base64.h:163-206 | The same with the trailing padding removed |
| `Base64.EncodedLength` | include/base64.h:91-91 | The encoding of n bytes has ceil(n/3)*4 characters |
| `Base64.SymbolOfPos` | include/base64.h:64-86 | Exactly the characters of the two alphabets have a position |
| `Base64.PosOfSymbol` | include/base64.h:54-86 | Each alphabet's symbols sit at their own positions and are not padding |
| `Base64Number.SymbolIsTable` | include/base64.h:54-62 | Each alphabet is the 64-character string of its section of RFC 4648, in order |
| `Base64Number.PosIsPlace` | include/base64.h:64-86 | A character has a position exactly where it stands in one of the two strings |
| `Base64Number.EncodesTheNumber` | include/base64.h:88-137 | The encoding is the number whose base-256 digits are the bytes, written in base-64 digits of the alphabet with the last one filled up with zero bits, and padded to a multiple of four with '.' or '=' |
| `Base64Number.DecodesTheNumber` | include/base64.h:139-212 | Any text of either alphabet decodes to the bytes of its base-64 number without the excess bits, and is refused exactly when one character is left over |
| `Base64Number.PaddingIgnored` | include/base64.h:163-206 | Padding of either kind after a last chunk of two or three characters changes nothing |
| `Base64.EncodeBytes` | include/base64.h:88-137 | For fewer than 2^32 bytes the 32-bit position never wraps and the loop computes the encoding |
| `Base64.EncoderEnds` | include/base64.h:109-137 | The 32-bit position reaches the end of the input if and only if there are fewer than 2^32 bytes |
| `Base64.DecodeString` | include/base64.h:139-212 | On any string the loop computes the specified decoding or its exception |

## Left out

- Sockets, epoll, command lines, environment, gzip, fork plumbing and libc wrappers: foreign code; connections are FIFO queues and messages are structured values.
- Name-service connections, the resend after exec, interval timers, kill and quit broadcasts, the computation-id check on a received request: they add cases to the handlers without strengthening the results.
- CheckpointProtocol.ConsistentCut: launches into a running checkpoint are covered up to the release of DMT:SUSPEND and after the last release, which LaunchBoundary proves to be exactly where the guarantees survive; exits in the middle of a checkpoint appear as disconnects.
- CheckpointProtocol.NobodyResumesEarly: launches as for ConsistentCut.
- CheckpointProtocol.NoAssertionFires: launches as for ConsistentCut.
- CheckpointProtocol.ProtocolBookkeeping: launches as for ConsistentCut.
- CheckpointProtocol.StepInv: launches as for ConsistentCut.
- OneCheckpoint.OneInFlight: runs in which nobody joins between the release of DMT:WriteCkpt and the script, which JoinBoundary proves to be exactly what it takes.
- OneCheckpoint.OneScriptEach: runs as for OneInFlight; without the condition see RequestLog.OneRequestOpen.
- OneCheckpoint.ScriptIsExact: runs as for OneInFlight; without the condition see ScriptHoldsTheNames, and SomeScriptGoesWrong for what then fails.
- OneCheckpoint.StepInv1: steps as for OneInFlight.
- OneCheckpoint.ScriptWhenComplete: runs as for OneInFlight.
- Completion.Completes: runs as for OneInFlight (SomeJoinGetsStuck), and steps of workers and connections only; further requests, joins and disconnects start a new count.
- NeverStuck.ComesToRest: runs as for OneInFlight (SomeJoinGetsStuck).
- NeverStuck.StepInv2: steps as for OneInFlight.
- OneCheckpoint.RequestStaysOpen: runs as for OneInFlight, since whoever joins in the window may deliver the missing number of names.
- RestartedRuns.RestartThenCheckpoint: workers connect and reach DMT:Restart under the rules of the bookkeeping and admission theorems, and the workers of the system that follows have just that release to read.
- BarrierBookkeeping.BookkeepingTheorem: clients that send non-empty barrier names, do not arrive in RUNNING state, do not open a recorded name again and do not resume or say RUNNING while they wait; ImpoliteRuns has a failing run for each rule, and CheckpointProtocol.ProtocolBookkeeping shows that the workers' script keeps them.
- BarrierBookkeeping.StepKeepsBook: clients as for BookkeepingTheorem.
- BarrierRules.ArrivalExactly: clients as for BookkeepingTheorem.
- BarrierBookkeeping.RestartAdmissionTheorem: announced peer counts between 1 and 2^31 - 1 (FirstOfRestart), and clients that stay in RESTARTING state until the first release (StrangerLetIn, NameDuringRestart).
- The text of the restart script, the layout of the filename buffer, log lines and JSON output: easy.
- Coordinator.DmtcpCoordinator.OnData: client objects are values in the coordinator's list rather than separate heap objects, so aliasing between client pointers is not modelled.
- The head counter of the tagged stack is unbounded, and a pop that finds no chunk after growing retries instead of dereferencing a null head.
- AllocStack.JFixedAllocStack.Allocate: one thread running alone; interleavings are in TaggedStack.
- AllocStack.JFixedAllocStack.Deallocate: one thread running alone; interleavings are in TaggedStack.
- AllocStack.JFixedAllocStack.Expand: one thread running alone; interleavings are in TaggedStack.
- Malloc.JAllocDispatcher.Malloc: the operating system always finds an unused region, and a failing mmap is not modelled; the footer of a build with JALLOC_DEBUG is always present.
- RwLock.ReadersExcludeWriter: one writer thread and no calls that ignore queued writers, because waiters do not look at the status again after futex_wait.
- RwLock.DmtcpRWLock.RdLock: a call that runs undisturbed up to its return or its wait; the step system has the rest.
- RwLock.DmtcpRWLock.WrLock: a call that runs undisturbed up to its return or its wait; the step system has the rest.
- RwLock.DmtcpRWLock.RdUnlock: a call that runs undisturbed.
- RwLock.DmtcpRWLock.WrUnlock: a call that runs undisturbed.
- Mutex.DmtcpMutex.TryLock: a call that runs undisturbed; lock's waiting loop is in the step system only.
- Mutex.DmtcpMutex.Unlock: a call that runs undisturbed.
- The pthread_barrier branch of the shared-memory barrier: library code.
- SharedBarrier.NobodyReturnsEarly: futex_wait returns only on a wake or EAGAIN, since any other return ends the process.
- RestartLoops.CreateProcess: forks of different processes run side by side in the original; the log is one order that respects every process's own.
- Restart.ExactlyOnce: creation and parentage only, not session membership after restart.
- Serializer.ReadsBack: containers of fewer than 2^32 elements, because the length is written in 32 bits; a mark whose terminator is overwritten counts as wrong.
- KvMerge.OrderFree: signed overflow in INCRBY is undefined in the original and is a separate outcome here.
- Base64.EncodeBytes: fewer than 2^32 bytes, which EncoderEnds proves to be exactly when the loop ends.
- VirtualIds.VirtualIdTable.GetNewVirtualId: tables with max of at least 2; with 1 the only id minted is base plus 1, which is base plus max.
- VirtualIds.VirtualIdTable.MapAll: tables with max of at least 2.
- GuardPages.Recorder.Record: areas are page-aligned, so the rounding in the scan has no effect; reinstalling the ranges after restart is not modelled.
