# Verified model of the macOS-vz-kubelet core

The kubelet runs macOS virtual machines as pods. This project models the parts of it whose
correctness depends on interleavings, on loops or on what is left on disk, and proves what they
promise:

- **SSH connection of a virtual machine** (`SshConnection`, `SshDials`, `SshSessions`, `SshTheorems`,
  `SshAnswers`, `SshDialContext`): one cached client, one dial at a time for any number of callers, reconnection,
  and `Close` racing all of it.
- **Permits and creation of virtual machines** (`VmPermits`, `VmCreation`, `VmTheorems`, `VmCapacity`,
  `VmDiscipline`, `VmOutcomes`, `VmInstances`, `VmJourneys`, `VmPieces`, `VmCounterexamples`, `SshReadiness`): a
  buffered channel as a counting semaphore, kept in step with a flag per entry by pairs of operations
  that are not atomic; the machines that run; and what a creation leaves in its entry.
- **Image cache** (`SparseImage`, `DigestSidecar`, `ImageStore`, `Downloads`,
  `DownloadHistory`, `DownloadCancellations`): sparse decompression, the digest file beside an image, the store of verified
  paths, and the shared download.
- **Pod status** (`PodStatus`, `PodTheorems`): the phase loop and the condition loop, and what they say
  about each other and about the creation.
- **Smaller cores**: pull credentials (`Credentials`, `SortedNames`), the failing-pod edge detector
  (`Scrapes`), and the post-start script through its shell quoting (`GuestScript`, `DollarQuotes`).

## How it is built

Objects whose methods update fields are classes. Each method is proved against a function of the old
state (`RetireSpec`, `MarkSpec`, `ValidateSpec`, ...), which says the whole new state. Where several
goroutines meet, a state machine uses the same functions as its atomic steps: a step is one critical
section, one map operation, one channel operation or one answer of the outside world, and steps come
in any order. What an operation answers is stated a second time in the fields of its inputs and of the
state, or over the steps of a run, without the function that specifies it. `Runs` has runs of a step function; "reached" means at the end of some run.
Loops in the source are loops here.

Assumed of code outside the repository: a dial function returns a new client or an error (which
`SshDialContext.ClientHandedOffOnce` proves of the one in use); a hash gives 71 characters, so it is not
injective, and a lemma that needs two contents told apart says which two; file times come from a clock that does not run backwards;
a lister that fails lists nothing and one list has no UID twice; a keyring's lookup depends on the
registries and their order only.

## What turned out not to hold

The code is modelled as it is. Each of these has a concrete run or input, or an exact condition:

- Three entries can hold a permit when two permits exist, and a delete can come to wait for a token that
  is not there: the branch of `releasePermit` for a missing entry takes whichever token there is
  (`VmCounterexamples.CapacityCanBeExceeded`, `DrainCanBlock`, `OverlappingDeletesSteal`). It may also be
  the creation's own token, left behind when its entry was deleted while flagged
  (`OwnTokenIsTakenBack`), and that does no harm. From any reached state, as long as the branch takes no
  further token, the bound can be exceeded if and only if it has taken more tokens so far than deleted
  entries left behind (`VmCapacity.PermitsCanExceedIff`), and a blocking receive can block on exactly the
  same condition (`DrainsCanBlockIff`).
  The comment at pkg/resourcemanager/macos.go:257 says that `Delete` runs before `releasePermit`; deferred
  calls run last in, first out, so it is the other way round, and the model follows the code.
- Permits are not machines. A delete that loads an entry before its instance is stored has nothing to
  stop, gives the permit back, and the creation then starts its machine: three creations can have called
  Start with success and not been stopped, even when no two deletes overlap and no token goes astray
  (`VmCounterexamples.OrderlyRunsOverrun`; the framework may refuse the third). `VmCapacity.MachineLedger`
  has the exact books of the machines, `UnbackedOnlyBy` the ways in which a machine loses its permit, and
  `MachinesCanExceedIff` when more can run than are allowed. `VmDiscipline.SettledRunsStayWithinCapacity`
  gives a discipline that is enough: deletes begin when every creation of the name has decided, do not
  overlap, and stop what they are to stop. The code does not enforce it.
- A creation whose entry was deleted can write into the entry of a later creation of the same name: its
  error, so that the new entry has both error and marker (`VmCounterexamples.StaleCreationFailsItsSuccessor`),
  or its marker, so that the new pod is ready before its own machine was probed
  (`StaleCreationMarksItsSuccessor`, `PodTheorems.ReadyThoughUnprobed`). Whoever wrote was entitled to it
  (`VmTheorems.ReadinessIsEarned`), so both are set only by two different creations, and an entry can come
  to hold both if and only if one creation of its name has marked it or can still, and another has failed
  it or can still (`VmOutcomes.CanHoldBothIff`); with one creation per name at a time it is always the entry's own (`VmDiscipline.SoleCreationsKeepOutcomesApart`).
- A pod can be read as Succeeded although the start of its machine never succeeded: an instance that does
  not run counts as stopped, before it was started (`PodTheorems.SucceededBeforeStart`) and after a start
  that failed until the error is recorded (`SucceededAfterFailedStart`). Which states those are, exactly, is
  in `SucceededTooEarlyIff`. A pod that is Running or ready has its machine running
  (`PodTheorems.RunningMeansRuns`).
- A ready pod can be in phase Pending: a waiting or created container clears neither the local
  `allContainersRunning` of the condition loop nor Ready (`PodTheorems.ReadyWhilePending`; exactly when is
  in `ReadyMeansRunningOrPending`). The phase depends on the order of the containers exactly when one
  is not up yet and another is broken (`PodTheorems.OrderMattersIff`). The live state of the machine is
  read anew for the reports, the phase and the conditions, so they can disagree when it changes in
  between (`PodTheorems.RunningNotReady`); what holds of any three readings is what the lemmas state.
- A digest file that was cut short after a clock tick makes validation fail for ever, although the image
  is right (`DigestSidecar.TornSidecarRejectsForGood`), and passes exactly the text that it holds, so an
  empty expected digest passes an empty one (`WrongYesIff`, `EmptyDigestPassesATornSidecar`); a declared
  size other than the length of the stream gives a trusted digest of another content
  (`SidecarDescribesImageIff`).
- Bytes that a reader delivers together with the end of the stream are dropped
  (`SparseImage.DecompressFileWithPath` has the exact condition; a gzip reader does not do this).
- `Store.Exists` looks a recorded media type up without looking at the digest: a configuration is
  pulled, another is asked for, and the answer is yes (`ImageStore.WrongYes`). Over any run a yes is about
  the caller's content if and only if the fallback store holds it or the first descriptor recorded for
  the media type, if any, demanded the same digest (`ImageStore.YesIsTrueIff`). `Push` and `Exists` demand
  different digests of some descriptors (`ImageStore.DemandsAgreeIff`).
- A download call that lies between `LoadOrStore` and its increment while the last subscriber leaves is
  served a cancellation, although it never gave up
  (`DownloadCancellations.LateArrivalIsServedACancellation`); a call that counted itself in before the
  counter first came back to zero never is (`Downloads.SubscribersAreSpared`). From which states it can
  come to that is exact, for a call that waits (`DownloadCancellations.CanBeCancelledIff`) and for one that
  is not counted yet (`LateArrivalIff`).
- Warnings and recoveries of a pod do not always alternate: a pod that stops running while it fails is
  dropped silently (`Scrapes.WarnedTwice`, `AlternatesIff`).

## Model

| member | source | states |
|---|---|---|
| SshConnection.RetireKeepsValid | internal/sshconn/connection.go:135-171 | both ways of retiring keep the field invariant and close no client but the one found dead |
| SshConnection.PublishKeepsValid | internal/sshconn/connection.go:200-235 | a dial that publishes never finds a live client or keepalive to overwrite, and sets exactly one of client and error |
| SshConnection.CloseKeepsValid | internal/sshconn/connection.go:237-257 | Close keeps the invariant, stops the keepalive, closes at most the cached client, and is idempotent |
| SshConnection.Connection.StopKeepaliveLocked | internal/sshconn/connection.go:259-265 | stops the running keepalive, if any, and changes nothing else |
| SshConnection.Connection.Retire | internal/sshconn/connection.go:139-148 | drops and closes the client only while it is the cached one of an open connection |
| SshConnection.Connection.ClientForSession | internal/sshconn/connection.go:154-187 | in fields: refused iff closed, the cached client iff open and another than the stale one, otherwise the pending or a new dial, with the stale client closed |
| SshConnection.Connection.RunDial | internal/sshconn/connection.go:205-235 | in fields: an open connection with a client from dial caches it, keeps it alive and hands it to the dialOp; a failure gives the error and changes nothing; a closed one closes the client; pending is cleared and the dialOp done |
| SshConnection.Connection.Close | internal/sshconn/connection.go:240-257 | marks closed, cancels the dial that is out, stops the keepalive, closes the cached client |
| SshDials.LookUpIsRetireThenStart | internal/sshconn/connection.go:160-187 | the critical section of clientForSession is a retirement followed by a lookup with nothing stale |
| SshSessions.InvStep | internal/sshconn/connection.go:64-257 | every step of every caller, dial, server and context keeps the invariant |
| SshSessions.ForwardStep | internal/sshconn/connection.go:64-257 | no step undoes what was decided: results, closed clients, published dials, opened channels |
| SshAnswers.SuccessfulDialIsPublished | internal/sshconn/connection.go:205-235 | in every reached open state a dial that came back with a client is cached, kept alive and handed to its dialOp, and nothing is closed |
| SshAnswers.FailedDialIsReported | internal/sshconn/connection.go:223-226 | a dial that failed leaves its error and caches nothing |
| SshAnswers.LateDialIsDiscarded | internal/sshconn/connection.go:216-222 | the client of a dial that comes back to a closed connection is closed, its waiters get an error |
| SshAnswers.DialServesItsWaiters | internal/sshconn/connection.go:189-235 | who waits for a dial that succeeded goes on to open a channel on its client |
| SshAnswers.WokenWaiterGoesOn | internal/sshconn/connection.go:189-197 | a woken waiter opens a channel on the client of the dialOp or returns its error |
| SshAnswers.LiveContextAsks | internal/sshconn/connection.go:65-74 | a caller asks for a client iff its ctx is alive when it enters |
| SshAnswers.ClosedRefuses | internal/sshconn/connection.go:156-159 | a closed connection refuses and is not touched |
| SshAnswers.CachedClientIsUsed | internal/sshconn/connection.go:160-165 | a cached client other than the stale one is used, and nothing else changes |
| SshAnswers.NothingUsableDials | internal/sshconn/connection.go:166-187 | otherwise the caller joins the pending dial or starts one, and the stale client is closed |
| SshAnswers.DialComesBack | internal/sshconn/connection.go:206 | dial returns a new client or an error |
| SshAnswers.ReplyArrives | internal/sshconn/connection.go:115-118 | the channel holds the reply of the server |
| SshAnswers.ReplyIsHeeded | internal/sshconn/connection.go:76-97 | a session is returned, a refusal ends the call, a dead transport is retried once while the ctx is alive |
| SshAnswers.DeadTransportIsReplaced | internal/sshconn/connection.go:92-97 | the second attempt never uses the dead client: it gets another one or waits for a dial |
| SshTheorems.OneDialAtATime | internal/sshconn/connection.go:150-235 | in every reached state one dial runs iff pending is set; then nothing is cached; exactly the cached client has a keepalive, which kaCancel stops |
| SshTheorems.ClientsConserved | internal/sshconn/connection.go:139-257 | every client a dial produced is in exactly one of: not yet published, cached, closed once |
| SshTheorems.CloseIsFinal | internal/sshconn/connection.go:200-257 | after Close nothing is cached, no dial starts or publishes a client, and once the last dial is back all clients are closed |
| SshTheorems.AwakenedWaiters | internal/sshconn/connection.go:189-213 | a done dialOp holds a client or an error, never both or neither; one that is not done is the pending one |
| SshTheorems.DialsAreAmortised | internal/sshconn/connection.go:64-98 | dials started are at most one more than clients retired and dials failed; before Close the exact count |
| SshTheorems.OnlyDeadClientsAreDropped | internal/sshconn/connection.go:88-174 | a cached client leaves the cache only to be closed, alone, and only for a dead transport, a ctx that fired during its own open, or Close |
| SshTheorems.RefusalIsSurfaced | internal/sshconn/connection.go:81-84 | after a channel refusal the caller has returned the error and never acts again |
| SshTheorems.SpentContextTouchesNothing | internal/sshconn/connection.go:65-69 | a caller that enters with its ctx done dials and opens nothing |
| SshTheorems.AtMostTwoChannels | internal/sshconn/connection.go:76-97 | one NewSession opens at most two channels, the second only after a dead transport |
| SshTheorems.SessionsConserved | internal/sshconn/connection.go:109-133 | every granted session is returned to its one caller or closed by the drain, never both; otherwise one of the two is still on its way |
| SshTheorems.AbandonedOpensAreUnparked | internal/sshconn/connection.go:105-131 | the client of an abandoned open has been closed, so the drain gets its reply |
| SshDialContext.ClientHandedOffOnce | internal/ssh/dial.go:53-88 | a client that was made is on offer, returned or closed once, exactly one of them; the caller gets a client or an error |
| SshDialContext.ReturnedClientStaysOpen | internal/ssh/dial.go:53-88 | no later step, the end of the dial context included, closes a returned client or its connection |
| SshDialContext.NobodyIsStuck | internal/ssh/dial.go:53-88 | each side can leave when the other has gone, and the caller closes the raw connection exactly when it left by the ctx |
| SshDialContext.UndisturbedDialReturns | internal/ssh/dial.go:47-79 | when nothing fires, the client of a handshake that succeeded is returned open, the error of one that failed is returned |
| VmPermits.FlaggedMoves | pkg/resourcemanager/macos_permits.go:63-94 | an operation on one entry moves the number of permit holders by that entry alone |
| VmPermits.GuardReleasesIff | pkg/resourcemanager/macos_permits.go:18-38 | over any sequence of Commit and Release calls releasePermit runs once if Release came first, and never otherwise |
| VmPermits.PermitGuard.Release | pkg/resourcemanager/macos_permits.go:29-38 | goes on to releasePermit on the first call only, and not after Commit |
| VmPermits.MacOSClient.LoadOrStore | internal/data/vm/vmdata.go:47-50 | stores a new entry only where there is none |
| VmPermits.MacOSClient.TrySend | pkg/resourcemanager/macos_permits.go:47 | a token goes in only while the channel has room |
| VmPermits.MacOSClient.MarkPermitAcquired | pkg/resourcemanager/macos_permits.go:63-82 | sets the flag, or reports an entry that is gone or already flagged |
| VmPermits.MacOSClient.ClearPermit | pkg/resourcemanager/macos_permits.go:84-94 | clears the flag and tells which way releasePermit goes on |
| VmPermits.MacOSClient.TryDrain | pkg/resourcemanager/macos_permits.go:106-113 | takes a token if there is one |
| VmPermits.MacOSClient.SetInstance | pkg/resourcemanager/macos.go:229-232 | stores the instance in the entry, if it is there |
| VmPermits.MacOSClient.SetPostStartFinishedAt | pkg/resourcemanager/macos.go:201-204 | sets the marker in the entry, if it is there |
| VmPermits.MacOSClient.FinalizeVirtualMachineInfo | pkg/resourcemanager/macos.go:208-219 | clears the cancel function and sets the error, if any |
| VmPermits.MacOSClient.Delete | internal/data/vm/vmdata.go:53-56 | removes the entry and nothing else |
| VmCreation.LedgerStep | pkg/resourcemanager/macos_permits.go:41-114 | every atomic operation of every creation and deletion keeps the books of tokens and flags |
| VmTheorems.PermitLedger | pkg/resourcemanager/macos_permits.go:25-114 | in every reached state: tokens + tokens taken by the missing-entry branch = flagged entries + sent and not marked + receives owed + entries deleted while flagged |
| VmCapacity.CapacityBound | pkg/resourcemanager/macos_permits.go:41-114 | permit holders exceed the maximum by at most the stray receives less the orphaned tokens; while there is no excess of those, the blocking receives find a token |
| VmCapacity.FillsUp | pkg/resourcemanager/macos_permits.go:41-114 | from every reached state some run that loses no permit fills all permits with running machines and leaves nothing in between |
| VmCapacity.PermitsCanExceedIff | pkg/resourcemanager/macos_permits.go:106-113 | without a further stray receive the bound can be exceeded iff stray receives outnumber orphaned tokens |
| VmCapacity.DrainsCanBlockIff | pkg/resourcemanager/macos_permits.go:50-113 | without a further stray receive a blocking receive can find the channel empty iff the same holds |
| VmCapacity.MachineLedger | pkg/resourcemanager/macos.go:143-162 | in every reached state: running machines + entries holding a permit for none + sent and not marked + receives owed + orphans = tokens + stray receives + machines without their permit |
| VmCapacity.MachineBound | pkg/resourcemanager/macos.go:28-32 | running machines exceed the maximum by at most stray receives and machines without permit less orphans |
| VmCapacity.MachinesCanExceedIff | pkg/resourcemanager/macos.go:28-32 | without a further loss more machines than allowed can run iff stray receives and machines without permit outnumber orphans |
| VmCapacity.UnbackedOnlyBy | pkg/resourcemanager/macos.go:156-162 | a machine comes to run without its permit only by starting after it was given back, by a clear, or by the deletion of its flagged entry |
| VmTheorems.GuardReleasesOnce | pkg/resourcemanager/macos_permits.go:25-38 | a guard runs releasePermit at most once and never after Commit |
| VmDiscipline.OrderlyRunsTakeNoStrayToken | pkg/resourcemanager/macos_permits.go:84-114 | when deletes of a key do not overlap and none removes the entry of an uncommitted guard, no stray receive happens and permits, not machines, stay within the maximum |
| VmDiscipline.SettledRunsStayWithinCapacity | pkg/resourcemanager/macos.go:238-277 | when deletes begin after every creation of the key has decided, do not overlap and stop their machine, every running machine has its permit and at most the maximum run |
| VmJourneys.CreationLeaves | pkg/resourcemanager/macos.go:86-236 | an undisturbed creation, for each of its eight endings: exactly which instance, marker, error and permit its entry holds, which token is in the channel and whether its machine runs, and that nothing else changed |
| VmJourneys.ExpiredAtStart | pkg/resourcemanager/macos.go:119-126 | a creation that finds its entry gone at the start leaves no trace |
| VmJourneys.RejectedAtMark | pkg/resourcemanager/macos_permits.go:48-52 | one that may not mark its entry gives its token back and ends with an error |
| VmJourneys.DeletionRemoves | pkg/resourcemanager/macos.go:251-277 | an undisturbed deletion stops the machine, takes a token exactly for a permit that was held, removes the entry and changes nothing else |
| VmTheorems.HookRunsOnceAfterProbe | pkg/resourcemanager/macos_poststart.go:33-64 | the hook runs at most once, after a successful probe, which comes after Start and Commit |
| VmTheorems.ReadinessIsEarned | pkg/resourcemanager/macos.go:105-219 | in every reached entry the creation that set the marker has started, committed, probed and run its hook without error, the one that set the error has failed, so both come from two creations |
| VmTheorems.OutcomesLast | pkg/resource/virtual_machine.go:122-167 | while an entry lives, its error and its marker stay |
| VmOutcomes.CanHoldBothIff | pkg/resourcemanager/macos.go:105-219 | from a reached state an entry can come to hold marker and error in its lifetime iff one creation of its key marked it or still can and another failed it or still can |
| VmDiscipline.SoleCreationsKeepOutcomesApart | pkg/resourcemanager/macos.go:86-219 | with one creation per key at a time only the owner writes an entry, and error and marker exclude each other |
| VmCounterexamples.CapacityCanBeExceeded | pkg/resourcemanager/macos_permits.go:106-113 | a run after which three entries hold a permit |
| VmCounterexamples.DrainCanBlock | pkg/resourcemanager/macos_permits.go:97-98 | a run after which a delete waits for a token that is not there |
| VmCounterexamples.OverlappingDeletesSteal | pkg/resourcemanager/macos.go:251-260 | a run in which the second of two deletes takes the token of another machine |
| VmCounterexamples.OwnTokenIsTakenBack | pkg/resourcemanager/macos_permits.go:106-113 | a run with a stray receive that takes the creation's own orphaned token, after which the bound cannot be exceeded |
| VmCounterexamples.OrderlyRunsOverrun | pkg/resourcemanager/macos.go:262-268 | an orderly run without stray receives in which three machines run |
| VmCounterexamples.StaleCreationMarksItsSuccessor | pkg/resourcemanager/macos.go:181-204 | a run after which an entry holds the marker of an earlier creation while its own machine runs unprobed |
| VmCounterexamples.StaleCreationFailsItsSuccessor | pkg/resourcemanager/macos.go:207-219 | a run after which an entry whose creation succeeded holds the error of an earlier creation |
| SshReadiness.PollSshReady | pkg/resourcemanager/macos_poststart.go:113-167 | ready iff the first deciding attempt succeeded; a permanent error is returned alone; otherwise the cause joined with the last error unless it is the same |
| SshReadiness.DecidesIff | pkg/resourcemanager/macos_poststart.go:113-151 | an attempt decides iff it succeeded, is an invalid input, or its text says that the login was rejected |
| SshReadiness.DecidedEarly | pkg/resourcemanager/macos_poststart.go:129-154 | attempts after the deciding one change nothing |
| SparseImage.OutputFile.Write | internal/disk/compression.go:134-171 | writes at the offset, filling a gap with zeros |
| SparseImage.WriteBlocks | internal/disk/compression.go:143-171 | one read, block by block: the hash gets all of it, the file holds it sparsely, and zero blocks of full size are skipped |
| SparseImage.DecompressFileWithPath | internal/disk/compression.go:91-182 | for every stream and splitting: the hashed bytes are what was read, the file holds them sparsely, and every failure is reported |
| SparseImage.LargeEnoughSizeIsFaithful | internal/disk/compression.go:107-173 | declared size at least the stream: the file is the stream followed by zeros |
| SparseImage.SmallerSizeLosesOnlyZeros | internal/disk/compression.go:107-173 | smaller declared size: file and stream differ by trailing zeros only |
| SparseImage.KeptEnds | internal/disk/compression.go:134-171 | the file reaches to the end of the stream by its writes iff the last block was written |
| SparseImage.FileIsStreamIff | internal/disk/compression.go:107-173 | the file equals the stream iff the size is its length, or smaller with the last block written |
| SparseImage.SplittingIsInvisible | internal/disk/compression.go:134-171 | for a sufficient size the file does not depend on how the stream was cut into reads |
| DigestSidecar.CachedImage.WriteDigestFile | internal/disk/digest.go:15-28 | truncates, writes and closes the digest file, stopping at any of them |
| DigestSidecar.CachedImage.ComputeAndVerifyFileDigest | internal/disk/validator.go:49-67 | hashes the image and writes the digest file only for the expected digest |
| DigestSidecar.CachedImage.ValidateFileWithDigest | internal/disk/validator.go:14-47 | believes the digest file iff it is strictly newer, otherwise hashes |
| DigestSidecar.CachedImage.SaveRegular | pkg/oci/oci_processor.go:98-159 | writes the content, verifies it, then writes the digest file |
| DigestSidecar.CachedImage.Decompress | internal/disk/compression.go:91-182 | writes the image sparsely, then the digest of what was hashed |
| DigestSidecar.SoundStep | internal/disk/validator.go:14-67 | every operation, stopped anywhere, leaves no trusted and complete digest file that does not describe the image |
| DigestSidecar.ValidationRefinesRecomputation | internal/disk/validator.go:14-67 | after any run, validation succeeds only if the image has the expected digest now |
| DigestSidecar.ValidationSucceedsIff | internal/disk/validator.go:31-46 | without file system errors: succeeds iff the image has the digest and the digest file is not torn |
| DigestSidecar.ValidatesIff | internal/disk/validator.go:14-67 | the answer for every behaviour of the file system and every expected text |
| DigestSidecar.TornSidecarRejectsForGood | internal/disk/validator.go:37-44 | a torn digest file fails every validation and is never repaired |
| DigestSidecar.ValidationCanTearItsSidecar | internal/disk/digest.go:15-28 | a run: a validation cut short after any number of characters makes the next one fail although the image is right |
| DigestSidecar.WrongYesIff | internal/disk/validator.go:31-46 | for every expected text, well-formed or not: a yes to an image without that digest iff the digest file is torn and holds just that text |
| DigestSidecar.EmptyDigestPassesATornSidecar | internal/disk/validator.go:42-46 | after a validation that stopped before its first character an empty expected digest passes |
| DigestSidecar.EqualTimesProveNothing | internal/disk/validator.go:32 | within one tick an image can be replaced under a digest file of the same time, so the comparison must be strict |
| DigestSidecar.SidecarDescribesImageIff | internal/disk/compression.go:107-181 | the trusted digest of a decompressed image describes it iff the declared size fits the stream, for any hash that tells the two contents apart |
| DigestSidecar.DishonestSizeIsBelieved | internal/disk/compression.go:107-181 | a stream of one byte declared as two passes validation with the digest of the one, for any hash that tells them apart |
| ImageStore.Store.ProcessCompressedContent | pkg/oci/oci_processor.go:49-95 | saves, verifies, decompresses, verifies, and only then records the path |
| ImageStore.Store.ProcessRegularContent | pkg/oci/oci_processor.go:98-127 | writes and verifies the output file and only then records the path |
| ImageStore.Store.Push | pkg/oci/oci.go:155-201 | in the fields of the input: Stored iff the store is open, the name new, the type supported, the bytes copied with the demanded digest and nothing failed, for compressed content the decompressed bytes too; exactly then the title is marked, its path recorded and the file holds the content; which error otherwise |
| ImageStore.PushAnswers | pkg/oci/oci.go:155-201 | the same of the specification that the runs are made of |
| ImageStore.IgnoredDiskAnswers | pkg/oci/oci.go:216-257 | with nothing on disk that counts, Exists goes by recorded media types and the fallback store |
| ImageStore.ExistsYesIff | pkg/oci/oci.go:216-257 | without file system errors: yes iff the media type is recorded, or the file counts, has the digest and no torn digest file, or the fallback store has it |
| ImageStore.ExistsLeaves | pkg/oci/oci.go:247-253 | a yes that is not the fallback store's leaves the media type recorded, for the title when it is new |
| ImageStore.Store.Exists | pkg/oci/oci.go:204-258 | yes for a recorded media type, validates a file on disk, otherwise asks the fallback store |
| ImageStore.Store.GetFilePathForMediaType | pkg/oci/oci.go:413-430 | a path only for a recorded media type of an open store |
| ImageStore.Store.Close | pkg/oci/oci.go:91-103 | closes once and reports a second close |
| ImageStore.StoreIntegrity | pkg/oci/oci.go:155-258 | after any run of pulls every recorded path holds content with the digest demanded by the descriptor that recorded it, and every temporary file the digest it is served for |
| ImageStore.RemembersAlways | pkg/oci/oci.go:155-258 | a recorded path stays with its demand, stored titles stay, and a closed store never changes |
| ImageStore.EachTitleStoredOnce | pkg/oci/oci.go:177-198 | after a successful Push of a title every later one is refused and changes nothing |
| ImageStore.YesIsTrueIff | pkg/oci/oci.go:204-258 | after any run of pulls a yes is about the caller's content iff the fallback store holds it or the first descriptor recorded for the media type, if any, demanded the same digest |
| ImageStore.WrongYes | pkg/oci/oci.go:220-224 | a run of two pulls of one media type in which Exists says yes to content that is not there |
| ImageStore.DemandsAgreeIff | pkg/oci/oci.go:231-237 | Push and Exists demand the same digest iff an uncompressed digest other than the digest is empty exactly when the size annotation is absent |
| Downloads.State.Subscribe | pkg/downloader/manager.go:85 | counts in |
| Downloads.State.Unsubscribe | pkg/downloader/manager.go:86-92 | counts out and tells the last one |
| Downloads.State.DoOnce | pkg/downloader/manager.go:94-120 | only the first call sets cancelFunc and starts the download |
| Downloads.State.StartDownload | pkg/downloader/manager.go:134-166 | in fields: the configuration and the duration it was given, the context's error when it was done and the given one otherwise, done closed once, then cancelled |
| DownloadHistory.ServedIsTheOutcome | pkg/downloader/manager.go:125-166 | over every run: whoever is served gets the configuration and error of the one return of Download, the duration that was taken, and the context's error iff it was done at the one look at it |
| DownloadHistory.OutcomeIsOne | pkg/downloader/manager.go:134-166 | a run has one such outcome |
| Downloads.OneDownloadPerState | pkg/downloader/manager.go:83-166 | in every reached state the counter is the number of calls inside, one download was started at most, done closed once at most, cancelFunc set for whoever calls it |
| Downloads.NoneCancelledWhileOneListens | pkg/downloader/manager.go:86-92 | before the counter first returns to zero the download is not cancelled, and its result is what Download returned |
| Downloads.SubscribersAreSpared | pkg/downloader/manager.go:83-131 | over every run: a call counted in before the counter first came back to zero is never served a context error |
| Downloads.ContextErrorIff | pkg/downloader/manager.go:152-165 | the published error is the context's iff Download returned it or the context was done at the check |
| DownloadCancellations.CanBeCancelledIff | pkg/downloader/manager.go:83-166 | a waiting call can come to be served a cancellation iff the counter has been back at zero and startDownload has not looked at the context yet or found it done |
| DownloadCancellations.LateArrivalIff | pkg/downloader/manager.go:83-85 | a call between LoadOrStore and its increment can come to be served one iff startDownload has not looked at the context yet or found it done |
| Downloads.OnlyTheLastReachesZero | pkg/downloader/manager.go:86-92 | only the last call inside, counting itself out, reaches zero |
| Downloads.AllAreServedTheSame | pkg/downloader/manager.go:125-130 | all who are served by done get the same triple, now and later |
| DownloadCancellations.LateArrivalIsServedACancellation | pkg/downloader/manager.go:83-92 | a run in which a call that never gave up is served a cancellation |
| PodTheorems.StoreInstance | pkg/resourcemanager/macos.go:229-232 | on the machine object: it still shows the entry after the Update, and an error keeps it failed |
| PodTheorems.RecordSuccess | pkg/resourcemanager/macos.go:181-184 | on the machine object: it shows the marked entry, and its state is unchanged |
| PodTheorems.Finalize | pkg/resourcemanager/macos.go:208-219 | on the machine object: it shows the finalized entry, and an error makes it failed |
| PodStatus.PodPhase | pkg/provider/virtualizationgroup_to_pod.go:294-343 | the state of the machine, else the first container that settles the phase, else address and containers |
| PodStatus.PhaseByInstance | pkg/provider/virtualizationgroup_to_pod.go:301-317 | the phase by the fields of the machine: error, no instance, and each state of the instance |
| PodStatus.PodConditions | pkg/provider/virtualizationgroup_to_pod.go:345-435 | Ready iff the machine is live, the marker gate is satisfied and every container is up or not up yet; Initialized likewise; when Ready changed |
| PodStatus.GetContainerWithName | pkg/provider/virtualizationgroup_to_pod.go:283-292 | the first container of that name |
| PodStatus.TimesAreExtreme | pkg/provider/virtualizationgroup_to_pod.go:60-116 | the start is the earliest start that is set, the last update the latest of all times |
| PodStatus.TimesAreRight | pkg/provider/virtualizationgroup_to_pod.go:60-116 | which times count: of the machine, its finish before its start, and of the first container of every later name |
| PodStatus.BuildPodStatus | pkg/provider/virtualizationgroup_to_pod.go:30-136 | name by name: the first name and every later one that the group knows has one report, in order, with ready and started by the fields of the machine or of the first such container; earliest start, latest update, phase and conditions, each from its own reading of the live machine |
| PodTheorems.PhaseIsDetermined | pkg/provider/virtualizationgroup_to_pod.go:294-343 | for every group there is one phase and only one |
| PodTheorems.PhaseRunningIff | pkg/provider/virtualizationgroup_to_pod.go:294-343 | Running iff the machine is live, has an address and all containers run, in any order |
| PodTheorems.OneContainer | pkg/provider/virtualizationgroup_to_pod.go:319-342 | the phase and Ready for each status of a single container while the machine runs with an address |
| PodTheorems.ReadyMeansRunningOrPending | pkg/provider/virtualizationgroup_to_pod.go:294-429 | a ready pod is Running or Pending unless the machine had stopped or failed when the phase was read; Running exactly with an address and all containers up |
| PodTheorems.FailedMeansNotReady | pkg/provider/virtualizationgroup_to_pod.go:294-429 | a failed pod is not ready for one state of the machine or while it holds an error; otherwise only if the instance left its error state between the readings |
| PodTheorems.RunningIsReadyIff | pkg/provider/virtualizationgroup_to_pod.go:294-429 | a running pod is ready iff its marker gate is satisfied and the machine is still live when the conditions are read |
| PodTheorems.RunningNotReady | pkg/provider/virtualizationgroup_to_pod.go:376-421 | two readings between which the machine stops: Running with the marker set and not ready |
| PodTheorems.ReadyWhilePending | pkg/provider/virtualizationgroup_to_pod.go:395-398 | a pod with a waiting container that is ready and Pending |
| PodTheorems.OrderMattersIff | pkg/provider/virtualizationgroup_to_pod.go:319-332 | the phase is the same for every order of the containers iff not both kinds of settling container are there |
| PodTheorems.ReadyPodHasReadyContainers | pkg/provider/virtualizationgroup_to_pod.go:47-120 | in a ready pod a report that is not ready is of a machine that did not run when it was read, or of a container not up yet |
| PodTheorems.ReadyIsEarned | pkg/resourcemanager/macos.go:105-219 | a pod with containers is ready only after the creation that marked its entry started, committed, probed and ran its hook; its own creation, when that one marked it |
| PodTheorems.ReadyThoughUnprobed | pkg/resourcemanager/macos.go:181-204 | a reached state and a reading of its entry: a ready pod whose own machine runs and was not probed |
| PodTheorems.LiveIffRuns | pkg/resource/virtual_machine.go:91-115 | of a reading of an entry: live iff the machine of its instance runs and the entry has no error |
| PodTheorems.RunningMeansRuns | pkg/provider/virtualizationgroup_to_pod.go:294-429 | a pod that is Running or ready has its machine running |
| PodTheorems.SucceededMeansAtRest | pkg/provider/virtualizationgroup_to_pod.go:302-308 | Succeeded only if the entry has an instance that does not run and no error, and then unless the instance is coming up or in error |
| PodTheorems.CanReadSucceededIff | pkg/provider/virtualizationgroup_to_pod.go:302-308 | some reading of the entry gives Succeeded iff it has an instance that does not run and no error |
| VmInstances.ReachedInstancesOk | pkg/resourcemanager/macos.go:150-236 | in every reached state the creation of a stored instance is past storing it, and has put an error into the entry if it ended unstarted |
| PodTheorems.SucceededTooEarlyIff | pkg/resourcemanager/macos.go:150-219 | in every reached state: can be read as Succeeded with a start that never succeeded iff at rest and the creation is between storing the instance and recording the failure |
| PodTheorems.SucceededBeforeStart | pkg/resourcemanager/macos.go:229-232 | a reached state: Succeeded before the machine was started |
| PodTheorems.SucceededAfterFailedStart | pkg/resourcemanager/macos.go:156-161 | a reached state: Succeeded after a start that failed |
| PodTheorems.FailureIsFinal | pkg/resource/virtual_machine.go:91-115 | once an entry holds an error, every later status of it is Failed and not Ready |
| SortedNames.SortStrings | pkg/provider/image_pull_credentials.go:99-103 | the one ascending list of a set of names |
| SortedNames.AscendingUnique | pkg/provider/image_pull_credentials.go:95-103 | sorting makes the order of the registries a function of the set |
| Credentials.AddUnseen | pkg/provider/image_pull_credentials.go:33-39 | appends the references not seen before, once each |
| Credentials.DedupedOnce | pkg/provider/image_pull_credentials.go:30-62 | no secret is listed twice |
| Credentials.DedupedInOrder | pkg/provider/image_pull_credentials.go:33-62 | the secrets stay in the order in which they are first named |
| Credentials.FirstFailureIff | pkg/provider/image_pull_credentials.go:64-86 | resolution fails with the error of the first secret that has one |
| Credentials.FailureIs | pkg/provider/image_pull_credentials.go:65-86 | which error a secret has: missing, not fetched, or of a known type without a readable entry; none for other types |
| Credentials.EntryAndMirrorAre | pkg/provider/image_pull_credentials.go:104-175 | an entry is that of the secret's text, its mirror the identity token of that registry, empty where there is none or the format is the older one |
| Credentials.OriginsInOrder | pkg/provider/image_pull_credentials.go:64-109 | the keyrings list secret by secret in the order of the names, and within a secret by registry |
| Credentials.AddInStep | pkg/provider/image_pull_credentials.go:95-109 | both keyrings get the same registries of the same secret in the same order |
| Credentials.FillKeyrings | pkg/provider/image_pull_credentials.go:64-117 | the first secret that is missing or malformed stops it; otherwise the keyrings hold all usable secrets |
| Credentials.ResolveImagePullCredentials | pkg/provider/image_pull_credentials.go:23-118 | secrets of the pod, then of its service account, without repetition; every error case |
| Credentials.OriginsIff | pkg/provider/image_pull_credentials.go:64-111 | the keyrings hold exactly the registry entries of the usable secrets listed |
| Credentials.KeyringsAreAligned | pkg/provider/image_pull_credentials.go:24-28 | for every order of lookup both keyrings return, position by position, entry and token of the same registry of the same secret |
| Credentials.PickCredentials | pkg/resource/registry_credentials.go:87-113 | in fields: nothing iff every match has no user, password and token, its own or the one at its position; otherwise the first that has, with its server or else the domain of the image |
| Credentials.ForImageNeverMixes | pkg/resource/registry_credentials.go:69-114 | ForImage returns the credentials and the token of one entry, the first usable match, and nothing only if there is none |
| Scrapes.MetricsProvider.Collect | pkg/metrics/metrics.go:84-152 | goroutines in any order fill the slot of each running pod; one that finds the scrape cancelled fails it |
| Scrapes.MetricsProvider.GetStatsSummary | pkg/metrics/metrics.go:60-190 | the new failing set and what is logged; the summary: the running pods whose statistics came, each once, in the order of the list |
| Scrapes.ReportedIffAnswered | pkg/metrics/metrics.go:165-177 | a pod is in the summary iff it runs and answered, and no pod twice |
| Scrapes.LoggedOncePerEdge | pkg/metrics/metrics.go:159-182 | a warning exactly when a pod enters the set, a recovery exactly when a member reports, each once |
| Scrapes.FailingIsTheLastGoodScrape | pkg/metrics/metrics.go:148-187 | over any history the set is what failed in the last completed scrape with a good list |
| Scrapes.AlternatesIff | pkg/metrics/metrics.go:159-187 | warnings and recoveries of a pod alternate iff it never fails again after being dropped |
| Scrapes.WarnedTwice | pkg/metrics/metrics.go:161-163 | a history with two warnings and no recovery between |
| DollarQuotes.PlainReadsBack | internal/utils/cmd.go:40 | a text without quote and backslash ends at the quote after it |
| DollarQuotes.OnlyPlainReadsBack | internal/utils/cmd.go:40 | no other text reads back as itself |
| GuestScript.SanitizeBase | internal/guestcfg/guestcfg.go:64-82 | the loop, its cap and the trimming |
| GuestScript.BaseIsValid | internal/guestcfg/guestcfg.go:59-82 | every base has 1 to 54 characters, letters, digits and hyphens, and no hyphen at an end |
| GuestScript.BaseIsStretch | internal/guestcfg/guestcfg.go:59-82 | character by character: a stretch of the first 54 with foreign characters as hyphens and nothing but foreign ones cut off, or the fallback when there is no letter or digit |
| GuestScript.BaseIsNameIff | internal/guestcfg/guestcfg.go:59-82 | a name is its own base iff it is valid |
| GuestScript.FallbackIff | internal/guestcfg/guestcfg.go:77-81 | the fallback stands for names without a letter or digit in their first 54 characters |
| GuestScript.HostNameIsValid | internal/guestcfg/guestcfg.go:48-57 | at most 63 characters, letters, digits and hyphens, no hyphen at an end |
| GuestScript.HostNamesEqualIff | internal/guestcfg/guestcfg.go:48-57 | two host names are equal iff their bases and their hash suffixes are |
| GuestScript.HostNameSpellsTheSum | internal/guestcfg/guestcfg.go:53-57 | the host name is the base, a hyphen and 8 digits that spell the first four bytes of the sum of namespace, slash and pod name |
| GuestScript.HostNamesEqualBySum | internal/guestcfg/guestcfg.go:48-57 | two pods have one host name iff their bases and those four bytes agree |
| GuestScript.BuildPostStartProbeCommand | internal/guestcfg/guestcfg.go:34-46 | the three words of the probe command |
| GuestScript.ScriptIs | internal/guestcfg/guestcfg.go:34-46 | the script word for word |
| GuestScript.ScriptIsPlain | internal/guestcfg/guestcfg.go:31-46 | for every namespace and pod name the script has no single quote and no backslash |
| GuestScript.BuildExecCommandString | internal/utils/cmd.go:25-49 | an error iff the command is not a shell command, otherwise exports, wrapped command and arguments |
| GuestScript.ExportStands | internal/utils/cmd.go:33-36 | every variable's export stands in its place between those before and those after it |
| GuestScript.ArgumentStands | internal/utils/cmd.go:42-46 | every argument stands in its place, quoted and after a space |
| GuestScript.WrapperReadsBackIff | internal/utils/cmd.go:40 | the quoted word lexes back to the command iff it has no single quote and no backslash |
| GuestScript.ScriptReadsBack | internal/guestcfg/guestcfg.go:31-46 | the script of every pod lexes back to itself |

## Left out

- Virtualization.framework, the SSH wire protocol, gzip (RFC 1952), SHA-256, the Kubernetes API and the oras copy: each is a value, a success or a failure.
- Keepalive ticks, tickers, timeouts as durations, spans, logs and events: only whether a context is done and the order of times matter.
- `pkg/client/vz.go` fan-out to the two backends and its `deleteOnce`: deletes of one key may overlap in the model.
- Stopping an instance inside `DeleteVirtualMachine` is one step that takes effect or not, its graceful phase a machine that powers off; the removal of overlay files and the closing of the SSH connection are left out.
- What Virtualization.framework does with a third machine: a start may always succeed or fail.
- docker.go, statistics values, CPU rates, terminal sizes, generated mocks: plumbing.
- One download per image reference: LoadOrStore and the increment are two steps, so only what holds per `state` object is claimed.
- Titles with path separators: a path is its title; `filepath.Join` and its cleaning are not modelled.
- `Store.Fetch`, `Add`, `Set`, `Tag` and `Resolve`: reading back and bookkeeping; Fetch of an output file that a failed Push left behind is not covered by `ImageStore.StoreIntegrity`.
- ImageStore.StoreIntegrity: holds for callers that ask Exists first, one at a time, with one title per media type and a declared size that fits the stream; `DigestSidecar.SidecarDescribesImageIff` shows why the last is needed.
- ImageStore.Store.Push: decompression inside it is a parameter tied to `SparseImage.DecompressFileWithPath` by what it leaves in the file, and the write of the output file is one step.
- ImageStore.Store.Close: the removal of temporary files is not modelled.
- VmDiscipline.SettledRunsStayWithinCapacity: sufficient only; the exact conditions for all runs are those of `VmCapacity`.
- DigestSidecar.CachedImage.ComputeAndVerifyFileDigest: an expected digest that names no known algorithm is rejected here, where the digest library panics.
- Credentials.ResolveImagePullCredentials: JSON decoding is a parameter; a secret is absent, malformed or a table of registries.
- Credentials.PickCredentials: `reference.ParseNormalizedNamed` is a parameter that gives the domain of the image, if any.
- Redaction in `RegistryCredentials.String`: easy.
- `BuildExportEnvCommand` and `strconv.Quote`: parameters; the shell still expands inside their double quotes, so no verbatim round trip is claimed for them.
- GuestScript.SanitizeBase: a name is a sequence of characters; bytes that are not UTF-8 are not distinguished from other foreign characters.
- DollarQuotes.PlainReadsBack: bytes above 127 from \x and octal escapes are characters of that value; escapes play no part in plain text.
- PodStatus.BuildPodStatus: waiting and terminated reasons, messages, images and identifiers of container states are not modelled.
