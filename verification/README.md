# mariamem: verified models of ownership, admission and preservation

mariamem starts MariaDB inside a Go process, captures a prepared database as a baseline and hands out independent
forks of it to tests. What is hard about it is who owns what: which goroutine closes which database, when admission
stops, what a failed cleanup leaves behind. Around that core, Python scripts delete experiment trees, restore
archives, publish checksums and sample process trees. This project models those parts and proves what they promise.

**The fixture** (`Fixture`, `FixtureInvariant`, `FixtureTheorems`, `FixtureAdmission`, `FixtureCallers`,
`FixtureShutdown`). The bounded
pool of test databases is an interleaved transition system. Any number of goroutines run `get`, `dispose` and `Close`;
each critical section, channel operation, WaitGroup operation and environment call is one step, and a context may
expire at any moment. One invariant, kept by every step, gives the counting of permits, the reason why the unlocked
loop of `Close` sees the final set, the order of all closing calls, the conservation of cleanup failures, and, with a
rank, the absence of deadlock. `FixtureSetup` is the sequential preparation before it.

**The HTTP case** (`HttpFixture`, `HttpWork`). The exclusive case lease and the teardown are a class whose methods run
under the owner's lock. The race between `RoundTrip`, ends of response bodies and `finish` is a transition system.

**The child scheduler** (`RunChildren`, `RunChildrenTheorems`). A worker pool with an unbuffered channel and a
barrier, with a step for each synchronisation. It never gets stuck under its guard, and the exact dimensions that do
get stuck are proved.

**Databases and snapshots** (`Database`, `ForkLedger`, `SnapshotForks`, `SnapshotTheorems`, `SnapshotLeases`,
`SnapshotAdmission`). One database is a class with the fields that `Close`, `watch`, `Snapshot` and Live's retry
change. Forks racing the close of their snapshot are a transition system over the admission ledger. `LogTail` is the
bounded log.

**The scripts** (`Workspace`, `SkippedFiles`, `Cleanup`, `LargeRetained`, `Restore`, `RestoreNames`, `Checksums`,
`ReleaseNames`, `ProcessTree`). Loops over trees, archives, lines and tables, each proved against a declarative
statement of what it must find.

## Where code and expectation differ

- *Capture debt.* docs/go.md:262-267 calls it permanent. For Close, watch and Live's retry it is, with any backend
  (`Database.CaptureDebtIsPermanent`). A later capture of the same database can still forget it: after an unconsumed
  capture that failed with a backing that could not be closed, a clean capture tells the lease that disposal is
  confirmed (`Database.DebtCanBeForgotten`). This can happen exactly while the database is open and has recorded no
  failure (`Database.DebtCanGoIff`). The host (internal/host/heap_snapshot.go:11-55) returns a backing only from a
  consumed capture, which closes the database, so with it the promise holds entirely (`Database.HostNeverForgets`).
- *Restore.* The first pass does not look at ancestors that are regular files. An accepted archive can therefore fail
  in the second pass after it has written (`Restore.ValidationIsNotEnough`); `Restore.RestoreHandoff` gives the exact
  condition, and says what has been written by then.
- *Scheduler guard.* `barrier && workers != n` also refuses pools with spare workers, which cannot deadlock
  (`RunChildrenTheorems.StuckIffTooFewWorkers`).
- *Checksum readers.* The two readers accept the same lists of lines iff the asset names are all free of two adjacent
  spaces and all file names, or neither (`Checksums.ReadersAgreeIff`). The guard on the set of names
  (scripts/release_plan.py:46, scripts/ci_release_publish.py:73) keeps the difference out of reach: for every release
  version the names it lets through are read alike, and read back as printed (`ReleaseNames.GuardedRoundTrip`).

## Model

| member | source | states |
|---|---|---|
| FixtureInvariant.StepKeeps | mariamemtest/fixture.go:269-393 | every atomic step of get, dispose, Close and of their callers keeps the global invariant |
| FixtureInvariant.RunKeeps | mariamemtest/fixture.go:269-393 | so does every interleaving, of any length, of any number of goroutines |
| FixtureInvariant.InitInv | mariamemtest/fixture.go:246 | a new fixture satisfies it |
| FixtureInvariant.SettleNeverBlocks | mariamemtest/fixture.go:358-360 | a clean disposal finds a token whenever it receives one |
| FixtureTheorems.TokensBoundDatabases | mariamemtest/fixture.go:287-365 | the tokens are exactly the children that sent one and whose disposal is not over or had a closing call fail, as the run's steps and its history say; never more than MaxForks, and they bound the databases forked and not confirmed closed; after Close only failed cleanups hold one |
| FixtureTheorems.AcquirersWaitOnlyForTokens | mariamemtest/fixture.go:291-340 | an acquisition that cannot move without its context expiring stands at a full channel of an open fixture, and only then |
| FixtureTheorems.ReceiveNeverBlocks | mariamemtest/fixture.go:358-360 | in every reachable state the receive without a select can proceed |
| FixtureTheorems.NoCallRepeats | mariamemtest/fixture.go:343-361 | a history in the allowed order contains each call once per child, whatever it answered |
| FixtureTheorems.ClosedOnceInOrder | mariamemtest/fixture.go:343-393 | fork, open, publish and close happen once per child and in order; after Close every pool and database is closed, each pool first, and the baseline last of all |
| FixtureTheorems.FrozenAfterWait | mariamemtest/fixture.go:384-387 | after starting.Wait no step inserts an entry or writes a child's database or pool |
| FixtureTheorems.FrozenToTheEnd | mariamemtest/fixture.go:384-392 | and none does in any continuation, so the unlocked loop sees the final set |
| FixtureTheorems.AdmissionStops | mariamemtest/fixture.go:273-277 | once closed, always closed, and no key is ever admitted again |
| FixtureTheorems.RecheckRefuses | mariamemtest/fixture.go:302-338 | a recheck that sees the fixture closed or in debt means that this child's pool is never published, in any continuation |
| FixtureTheorems.DebtIsExact | mariamemtest/fixture.go:352-357 | debt names a child exactly when its disposal is over and one of its closing calls failed, and any debt has closed admission |
| FixtureTheorems.CloseReportsEveryFailure | mariamemtest/fixture.go:379-393 | the result of Close names exactly the failed closing calls of the whole run, whoever disposed the child; nil iff none failed; every caller gets the same |
| FixtureTheorems.SameKeySameAnswer | mariamemtest/fixture.go:278-286 | waiters on one child all receive its pool, or all its error, and a pool only if it was published |
| FixtureTheorems.OneChildPerKey | mariamemtest/fixture.go:278-289 | a key never has two children, and a later use of it waits for the one its first use created |
| FixtureTheorems.DistinctKeysDistinctChildren | mariamemtest/fixture.go:278-289 | distinct tests never share a child |
| FixtureTheorems.CallersAreTold | mariamemtest/fixture.go:328-366 | a returned caller of dispose learned of a failure iff a closing call of its child failed; a failed acquisition reports exactly its own failed cleanup if it has one, and only failed cleanups otherwise |
| FixtureAdmission.PublishedOnlyAfterSuccess | mariamemtest/fixture.go:293-340 | a pool is handed out only if the token, both rechecks, the context, the fork, the open and the ping all succeeded, each a step of the run |
| FixtureAdmission.FailedCallRefuses | mariamemtest/fixture.go:297-338 | after one failed call the pool is never handed out, and who waits for the child gets its error |
| FixtureAdmission.AcquisitionGoesThrough | mariamemtest/fixture.go:272-340 | on an open fixture without debt and with a free token, a new key whose calls all succeed gets its pool |
| FixtureAdmission.CleanFailureReportsTheDebt | mariamemtest/fixture.go:328-337 | a failed acquisition whose own cleanup went well reports the whole debt read at that moment |
| FixtureAdmission.AnyAnswerMayCome | mariamemtest/fixture.go:297-353 | every answer of every call, and an expiring context, may come wherever the source waits for it |
| FixtureAdmission.DisposeGoesThrough | mariamemtest/fixture.go:343-366 | a caller of dispose can always come through, with the disposal run by it or by another |
| FixtureCallers.CallersAreTakenUp | mariamemtest/fixture.go:278-286 | every call of dispose and Close is taken up, and a caller has returned iff its own return is a step of the run |
| FixtureCallers.GetIs | mariamemtest/fixture.go:272-290 | a closed fixture, or one in debt, refuses every get at once, known key or not; an open one lets a known key wait and creates one child for a new one |
| FixtureCallers.CallersAreFree | mariamemtest/fixture.go:280-285 | a waiter may give up at any time, a test may clean up once its cleanup is registered, anyone may close |
| FixtureShutdown.CloseIsNeverStuck | mariamemtest/fixture.go:379-393 | while Close is pending some goroutine of the fixture can move without any context expiring |
| FixtureShutdown.RankFalls | mariamemtest/fixture.go:291-393 | its moves lower a rank that no other step raises |
| FixtureShutdown.CloseFinishesWithin | mariamemtest/fixture.go:379-393 | so any run with that many such moves has finished Close, however they are mixed with callers and timeouts |
| FixtureShutdown.CloseCanFinish | mariamemtest/fixture.go:379-393 | from every state of the invariant there is a way to the end, no longer than the rank |
| FixtureShutdown.CalledIsBegun | mariamemtest/fixture.go:379-383 | a call of Close begins the shutdown, and it is never forgotten |
| FixtureShutdown.ShutdownCannotDeadlock | mariamemtest/fixture.go:269-393 | every run in which Close was called extends to one where Close is over |
| FixtureShutdown.NobodyIsLeftWaiting | mariamemtest/fixture.go:280-285 | after Close all same-key waiters, disposers and callers of Close can return |
| FixtureSetup.NewFixture | mariamemtest/fixture.go:184-247 | ready exactly when nothing failed; otherwise the first failing stage and all cleanup causes; on every way out, a panic of the callback included, the source is closed exactly once, the pool is closed, and a baseline that is not handed out is closed once; a capture sees a closed pool and drained connections |
| FixtureSetup.UsePool | mariamemtest/fixture.go:211-228 | the part between opening and closing the pool: the callback runs at most once, on an open pool, and a panic or a failed close finalises the owners |
| FixtureSetup.CaptureBaseline | mariamemtest/fixture.go:229-247 | the part after the pool: ready iff draining, capture and the source's close succeed, with the first failing stage otherwise, and a captured baseline closed unless handed out |
| HttpFixture.HTTPFixture.constructor | mariamemtest/http.go:186-194 | nothing is active, failed, closed or registered |
| HttpFixture.HTTPFixture.RegisterApp | mariamemtest/http.go:174-185 | a handle is added iff it was not registered |
| HttpFixture.HTTPFixture.Reserve | mariamemtest/http.go:291-303 | the lease transition of the specification, with its two refusals |
| HttpFixture.HTTPFixture.Setup | mariamemtest/http.go:304-354 | the answer is the stage of the first check that fails, if any; success needs all of them, Live advanced by one among them; any failure latches |
| HttpFixture.SucceedsIff | mariamemtest/http.go:314-349 | a setup succeeds iff no check of the ordered list fails |
| HttpFixture.HTTPFixture.Release | mariamemtest/http.go:434-442 | the lease is returned, and a failed finish latches |
| HttpFixture.HTTPFixture.StopAll | mariamemtest/http.go:476-481 | every application is stopped, last registered first, and every failure collected |
| HttpFixture.HTTPFixture.CloseAll | mariamemtest/http.go:485-491 | Live, baseline and source are closed in this order, if they exist, whatever fails |
| HttpFixture.HTTPFixture.Close | mariamemtest/http.go:463-496 | the close transition of the specification: stored result, refusal while a case is active, complete teardown |
| HttpFixture.HTTPFixture.Abort | mariamemtest/http.go:206-209 | failed preparation latches and tears down whatever is owned |
| HttpFixture.StepKeeps | mariamemtest/http.go:291-496 | every operation keeps the lease invariant, and failed and closed only latch |
| HttpFixture.RunKeeps | mariamemtest/http.go:291-496 | so does every sequence of operations |
| HttpFixture.LeaseAndTeardown | mariamemtest/http.go:174-496 | over all runs, registrations and failed preparations included, active holds iff exactly one case is open; teardown happens at most once, of everything registered, and never with an open case; unless a setup broke, Live has advanced exactly once for each case set up |
| HttpFixture.AbortedForGood | mariamemtest/http.go:206-209 | a failed preparation tears down whatever was registered and owned, and no case is ever admitted |
| HttpFixture.FailureStopsAdmission | mariamemtest/http.go:308-313 | failed is set by exactly a broken setup, a failed finish, a close with an open case and a failed preparation, and then no continuation admits a case |
| HttpFixture.StoppedAdmitsNothing | mariamemtest/http.go:291-296 | after failed or closed no run admits a case |
| HttpFixture.CloseResultIsStored | mariamemtest/http.go:466-468 | every later close returns the stored result and repeats no call |
| HttpFixture.StopAppsAt | mariamemtest/http.go:477-481 | the k-th application stopped is the k-th from the end of registration |
| HttpFixture.RegisteredOnce | mariamemtest/http.go:174-185 | after any sequence of registrations every offered handle is registered, and none twice |
| HttpFixture.TeardownCallsOnce | mariamemtest/http.go:174-185 | whatever registrations preceded it, a teardown stops every application ever offered and repeats no call |
| HttpFixture.TeardownInTurn | mariamemtest/http.go:477-491 | applications are stopped before any owner is closed, Live before the baseline, and the baseline before the source |
| HttpFixture.FirstCloseResult | mariamemtest/http.go:463-496 | the first completed close answers and stores exactly the owed calls that failed and the expired deadline, and is clean iff there are none; with a case open it is refused and calls nothing |
| HttpFixture.ReserveIff | mariamemtest/http.go:291-303 | a case is admitted iff the owner has not stopped and no case is open |
| HttpWork.StepKeeps | mariamemtest/http.go:276-443 | every step of Register, RoundTrip, a body's end and finish keeps the work invariant |
| HttpWork.RunKeeps | mariamemtest/http.go:276-443 | so does every interleaving |
| HttpWork.DoneOncePerRequest | mariamemtest/http.go:385-432 | the WaitGroup counter is the number of requests not yet done; a successful join means none is outstanding; a finish without failure has joined |
| HttpWork.EachDoneIsFirst | mariamemtest/http.go:370-394 | a step calls Done for at most one request, and only for one whose Done never ran |
| HttpWork.NothingAddedAfterFinish | mariamemtest/http.go:380-386 | after finished is set no run adds work or extends the list that finish copied |
| HttpWork.NoBodyIsLost | mariamemtest/http.go:395-424 | every answered request's body is in the copied list, or its own RoundTrip closes it or has closed it |
| HttpWork.ResourcesClosedInReverse | mariamemtest/http.go:415-424 | finish closes every resource it copied once, last registered first, before the join |
| HttpWork.RegisteredAreClosed | mariamemtest/http.go:276-290 | every handle registered before finish began, and no other, is closed by finish, once, in reverse order of first registration |
| HttpWork.AdmittedUntilFinish | mariamemtest/http.go:380-386 | every request before finish is admitted, and none after |
| HttpWork.AnyAnswerMayCome | mariamemtest/http.go:390-433 | transports, bodies, closes, the timer and registrations may answer or arrive either way |
| HttpWork.FinishErrorIff | mariamemtest/http.go:419-434 | finish reports an error iff closing a resource failed or the join was given up |
| HttpWork.FinishIsNeverStuck | mariamemtest/http.go:407-443 | once begun, finish always has a move that depends neither on the test's bodies nor on the timer |
| HttpWork.RankFalls | mariamemtest/http.go:378-443 | each such move lowers a rank that no other step raises |
| HttpWork.FinishEndsWithin | mariamemtest/http.go:407-443 | so any run with that many such moves has finished, however they are mixed with other steps |
| HttpWork.FinishCanJoin | mariamemtest/http.go:407-443 | from every state of a begun finish there is a way to its end, no longer than the rank, and by joining unless the timer has already fired or the join is over |
| RunChildren.StepKeeps | benchmarks/ubuntu-startup/schedule.go:7-37 | every step of the main goroutine and the workers keeps the counting invariant |
| RunChildren.RunKeeps | benchmarks/ubuntu-startup/schedule.go:7-37 | so does every interleaving |
| RunChildrenTheorems.AcceptedCallsReturn | benchmarks/ubuntu-startup/schedule.go:7-37 | under the guard no run is stuck before the return or longer than 5n + 2w + 5 steps; start precedes use, allReady follows all starts, and with the barrier precedes every use; at the return all of them have happened |
| RunChildrenTheorems.NoCallRepeats | benchmarks/ubuntu-startup/schedule.go:19-34 | each index is started once and used once, and allReady runs once |
| RunChildrenTheorems.SomeoneIsFree | benchmarks/ubuntu-startup/schedule.go:29-31 | the counting argument: while an index is unsent, a pool as large as the job list has a worker at the receive |
| RunChildrenTheorems.NeverStuck | benchmarks/ubuntu-startup/schedule.go:15-36 | with enough workers some step is enabled until the return |
| RunChildrenTheorems.RunsAreShort | benchmarks/ubuntu-startup/schedule.go:15-36 | every step lowers a rank, so all runs are finite |
| RunChildrenTheorems.JamWorks | benchmarks/ubuntu-startup/schedule.go:19-26 | a schedule that brings every worker to the closed barrier |
| RunChildrenTheorems.StuckIffTooFewWorkers | benchmarks/ubuntu-startup/schedule.go:8-10 | a stuck state is reachable iff there are no workers, or a barrier and fewer workers than children |
| Database.Database.constructor | mariamem.go:124-135 | a started database has a server and a directory, and nothing is recorded |
| Database.CleanEndsAreNoFailure | mariamem.go:161-182 | Err is set by failures of the backend only: while it reports none, no close, watch event, capture or retry makes the database report one |
| Database.ErrIsFinal | mariamem.go:168-182 | once the database is closed or has recorded a failure, Err never changes, whatever the backend says later |
| Database.Database.RemoveTemporaryAfter | mariamem.go:259-269 | the directory is forgotten only when its removal succeeded |
| Database.Database.SettleForkLocked | mariamem.go:222-237 | exactly which report the lease receives |
| Database.Database.CloseLocked | mariamem.go:193-210 | the whole new state of a close, and the stored result |
| Database.Database.Watch | mariamem.go:151-159 | the guest's end records the failure and closes, unless closed |
| Database.Database.Snapshot | snapshot.go:38-85 | the whole new state and the result of a capture, for every answer of the backend |
| Database.Database.RetryClose | live.go:39-60 | Live's retry disposes again and reports again, without touching the stored result |
| Database.StepKeeps | mariamem.go:151-237 | every operation keeps: closed by exactly one of Close and a consumed capture, and a closed leased database has reported |
| Database.StepLatches | mariamem.go:151-237 | no operation takes back closed, the stored result, the failure, the debt, a report or a call |
| Database.LifecycleLatches | mariamem.go:151-237 | and no sequence of them does; a consumed capture is never followed by a backend Close from Database.Close |
| Database.LifecycleFromStart | mariamem.go:193-210 | over every run a closed leased database has reported to its lease, and one closed without error has no temporary directory left |
| Database.CaptureResult | snapshot.go:49-84 | the result is a baseline iff the capture was attempted, the backend reported no error, a backing came back, and, if consumed, the directory is gone; any other attempted capture fails with exactly the causes of the backend, the removal and the unused backing, or the missing backing |
| Database.FirstCloseResult | mariamem.go:193-210 | the first close stores exactly the causes of the backend, the removal and the capture debt, so it is clean iff there are none |
| Database.RetryResult | live.go:39-60 | a retry of a closed database calls the backend again and answers with exactly its own causes; a watch event stores what a close would, and the backend's failure |
| Database.DebtRecordedIff | snapshot.go:69-75 | debt is recorded exactly when a failed capture of a leased database cannot close the backing it was given |
| Database.RejectionChangesNothing | snapshot.go:41-60 | remark: a capture refused before the backend leaves the state alone, and one refused by the backend only records the call |
| Database.LetsGoIff | mariamem.go:193-237 | without capture debt, an operation tells the lease to let go iff it ends the database, or tries to once more, and no error is left, or an owner will finish the cleanup, or the backend confirms its disposal, and a capture's unused backing was closed |
| Database.DebtLetsGoOnlyIf | mariamem.go:222-237 | with capture debt, an operation tells the lease to let go iff it is a clean consumed capture |
| Database.CaptureDebtIsPermanent | mariamem.go:207-237 | with any backend, once debt is recorded no later Close, watch or Live retry settles the lease cleanly or tracks it, after any operations, and disposal is never complete |
| Database.DebtCanGoIff | snapshot.go:51-56 | some continuation still lets the slot go iff the database is open and has recorded no failure |
| Database.HostNeverForgets | snapshot.go:69-80 | with a backend that returns a backing only from a consumed capture, no continuation of any kind lets it go |
| Database.DebtCanBeForgotten | snapshot.go:69-83 | without that contract two captures forget the debt |
| ForkLedger.SlotsStayBounded | internal/forklimit/pool.go:73-246 | no operation of the ledger exceeds its limit |
| SnapshotForks.RunKeeps | snapshot.go:105-144 | every interleaving of reservations, forks, reports and closes keeps the pin and the ledger invariant |
| SnapshotTheorems.BackingOutlivesStartups | snapshot.go:115-144 | while a startup runs, the backing is open, no close can reach it, and its lease occupies an active slot |
| SnapshotTheorems.ClosedOnce | snapshot.go:134-144 | the backing is closed at most once, and once whenever a Close has returned |
| SnapshotTheorems.EveryLeaseHasOneOwner | snapshot.go:105-130 | every slot is an unused reservation or has exactly one owner: a startup, a returned Database, or the cleanup of a failed one |
| SnapshotTheorems.OwnersKeepTheirSlots | internal/forklimit/pool.go:1-3 | and every such owner occupies its slot exactly until its own disposal is confirmed, whatever else it reports and whatever others do |
| SnapshotTheorems.LimitBoundsDatabases | internal/forklimit/pool.go:86-88 | so the startups, returned Databases and pending cleanups that nothing has confirmed are never more than MaxForks |
| SnapshotLeases.LeaseFate | internal/forklimit/pool.go:73-246 | every lease ever acquired occupies a slot exactly while its one owner's disposal is unconfirmed, if a call activated it, and otherwise until it is cancelled, its call is rejected, or a Close revokes it |
| SnapshotLeases.RejectedHoldsNothing | snapshot.go:118-125 | a rejected call has given its reservation back |
| SnapshotLeases.ClosedSlotsAreOwned | internal/forklimit/pool.go:134-149 | after a Close every slot left belongs to an owner |
| SnapshotLeases.ClosedOnlyShrinks | internal/forklimit/pool.go:134-149 | and no continuation adds one |
| SnapshotLeases.DebtStopsAdmission | internal/forklimit/pool.go:183-234 | while an owner has reported uncertain cleanup that nothing confirmed, no lease is handed out, with recovery or without, and no startup begins |
| SnapshotLeases.AdmittedIffFree | internal/forklimit/pool.go:73-96 | with admission open and no uncertain cleanup reported, a lease is handed out iff a slot is free |
| SnapshotAdmission.BlockedIff | internal/forklimit/pool.go:77-92 | the pool is blocked exactly from a report of uncertain cleanup, confirmed since or not, to the next recovery |
| SnapshotAdmission.ForkAdmittedIff | internal/forklimit/pool.go:73-96 | an ordinary Fork gets a lease iff admission is open, a slot is free, and no uncertain cleanup was reported since the last recovery |
| SnapshotAdmission.RecoveryAdmittedIff | internal/forklimit/pool.go:73-104 | a recovery gets one iff admission is open, a slot is free, and every reported debt has been confirmed |
| SnapshotAdmission.WatcherConfirmsIff | internal/forklimit/pool.go:210-246 | a watcher confirms exactly the cleanups that were reported with their owners; an error without owners is never taken for disposal |
| SnapshotAdmission.CloseGoesThrough | snapshot.go:134-144 | every Close can return, with the backing closed once, within the startups ahead of it, the other closers and its own steps |
| SnapshotAdmission.CallIsServed | snapshot.go:134-137 | a call of Close is taken up |
| SnapshotAdmission.AnyReportMayCome | mariamem.go:222-254 | startups may fail either way, a database may report either way, and a reservation may be cancelled or tried at any time |
| SnapshotLeases.ForkGoesThrough | snapshot.go:105-130 | an admitted Fork of an open snapshot, with no Close at the lock, can go through to a started Database that owns its slot |
| SnapshotTheorems.DuplicateStartIsRejected | live.go:103-109 | a second start on an owned lease is refused and releases nothing |
| SnapshotTheorems.AnnouncedCloseAdvances | snapshot.go:102-104 | readers ahead of a waiting Close only run out |
| SnapshotTheorems.CloseIsNotStarved | snapshot.go:132-137 | a waiting Close waits for a bounded number of reader steps, whatever else happens |
| SnapshotTheorems.LockOrReader | snapshot.go:134-137 | and one of them, or the lock itself, is always possible |
| LogTail.Tail.Write | mariamem.go:332-346 | the buffer becomes the last 16 KiB of buffer and argument, and the full length is reported |
| LogTail.Tail.WriteAll | mariamem.go:320-346 | after any sequence of writes the buffer agrees byte by byte, counted from the end, with everything written |
| LogTail.ForgottenStaysForgotten | mariamem.go:337-344 | truncating early loses nothing that truncating late would keep |
| Workspace.ScanFile | scripts/experiment_workspace.py:287-312 | a file is skipped iff something else represents it, and raises iff it is unique and too large |
| SkippedFiles.SkippedIff | scripts/experiment_workspace.py:287-306 | exactly which files a scan skips, by name, by extension, by place and by the texts their contents begin with |
| SkippedFiles.SuffixIff | scripts/experiment_workspace.py:295 | the suffix of a name is what follows its last dot, unless the dot comes first or last |
| SkippedFiles.EvidenceIff | scripts/experiment_workspace.py:371-372 | result data is known by one of the listed extensions, or by a mention of sha256 or checksum in any case |
| SkippedFiles.CacheKeyIff | scripts/experiment_workspace.py:301-302 | a cache key is 64 hexadecimal digits, a dash and an a or a d |
| Workspace.ScanEntry | scripts/experiment_workspace.py:285-312 | one entry of a walked directory contributes exactly its unique files, and raises only for an obstacle |
| Workspace.ScanDirectory | scripts/experiment_workspace.py:281-313 | the files listed below one directory are exactly the unique ones; it raises only for a bad checkout or an oversized unique file |
| Workspace.ScratchEvidence | scripts/experiment_workspace.py:275-313 | a scan raises iff there is such an obstacle, and otherwise lists exactly the files that only the tree holds |
| Cleanup.ExportFiles | scripts/experiment_workspace.py:385-404 | it succeeds iff no target is unsafe or contradicted by earlier evidence or another source; no earlier evidence changes, nothing but sources is added, and every source has an identical copy |
| Cleanup.Export | scripts/experiment_workspace.py:345-348 | scan and export together succeed iff the tree is preservable, and then preserve every unique file and list it in the checksum file |
| Cleanup.Experiment.ValidateTemp | scripts/experiment_workspace.py:316-324 | the exact condition under which the scratch tree may be discarded |
| Cleanup.Experiment.DiscardTemp | scripts/experiment_workspace.py:345-350 | the exact condition of success; then the tree is gone with every unique file preserved and listed, otherwise it is intact |
| Cleanup.Experiment.ArchiveWorktree | scripts/experiment_workspace.py:407-408 | the exact condition of success; then every unique file of the worktree is preserved |
| Cleanup.Experiment.CleanUp | scripts/experiment_workspace.py:487-509 | the exact condition of success; wherever it stops each tree is intact or gone with every unique file preserved, and no earlier evidence has changed |
| Cleanup.PreservedStays | scripts/experiment_workspace.py:393-397 | later exports keep what an earlier one preserved |
| Cleanup.KeptPathsAreOutside | scripts/experiment_workspace.py:63-67 | remark: when cleanup may start, no declared KEEP lies in or above a deleted tree |
| Cleanup.HoldsIff | scripts/experiment_workspace.py:63-67 | a declared KEEP blocks cleanup iff some place of a deleted tree lies at or below it |
| LargeRetained.SizeDirectory | scripts/experiment_workspace.py:88-101 | one bottom-up walk sizes every file and directory at or below a path, and nothing else |
| LargeRetained.LargePaths | scripts/experiment_workspace.py:88-102 | the report names exactly the files and directories that hold more than 1 GiB, with their true sizes |
| Restore.SafeNameIs | scripts/ci_release_reuse.py:19-24 | a safe name is relative and not empty, without backslash or parent step, and normalises to clean parts |
| Restore.SafeNameRoundTrip | scripts/ci_release_reuse.py:19-24 | the text of clean parts is its own normal form |
| RestoreNames.AllowedIff | scripts/release_generated_ci.py:45-53 | a regular file is accepted iff the text of its name is one of nine, a source archive directly in build/release, or a wheel directly in build/dist |
| RestoreNames.AllowedDirectoryIff | scripts/release_generated_ci.py:54 | a directory is accepted iff the text of its name is one of six |
| Restore.Depths | scripts/release_generated_ci.py:45-56 | accepted files have depth three and accepted directories at most two |
| Restore.LinkOnPath | scripts/release_generated_ci.py:67 | true iff a symbolic link stands on the way |
| Restore.Validate | scripts/release_generated_ci.py:62-68 | the first pass accepts exactly the member lists of the declarative definition |
| Restore.MakeDirectories | scripts/release_generated_ci.py:71-73 | succeeds iff nothing but directories is in the way, and adds exactly the missing ones |
| Restore.WriteMember | scripts/release_generated_ci.py:69-75 | one member of the second pass turns the old tree plus the earlier members into the old tree plus one more |
| Restore.RestoreHandoff | scripts/release_generated_ci.py:59-75 | nothing is written iff digest or validation fails; the second pass fails iff the old tree blocks a directory, and then has written what the members before the first blocked one need and bring, and nothing beyond that but directories of the blocked one; otherwise the result is the old tree plus exactly the members |
| Restore.WriteAll | scripts/release_generated_ci.py:69-75 | the second pass alone, on validated members |
| Restore.OrderDoesNotMatter | scripts/release_generated_ci.py:59-75 | for two orders of the same members the first pass decides alike, the second succeeds or fails alike, and a restored tree is the same |
| Restore.ValidationIsNotEnough | scripts/release_generated_ci.py:63-73 | an accepted archive that is stopped in the second pass, and only after a new directory was made |
| Checksums.SplitText | scripts/release_plan.py:49 | splitting a text of terminated lines gives the lines back |
| Checksums.SplitAtBreak | scripts/release_plan.py:49 | every kind of line break ends a line and takes nothing else with it |
| Checksums.FieldsRebuild | scripts/release_plan.py:49 | splitting at the separator loses nothing, and no field contains one |
| Checksums.SortNames | scripts/generated_release.py:307 | a sorted enumeration of the names, each once |
| Checksums.Print | scripts/generated_release.py:307-308 | one line per asset, in name order |
| Checksums.ReadyAccepts | scripts/release_plan.py:49-52 | the loop computes the count-and-compare condition |
| Checksums.ReadyReadsIff | scripts/ci_release_publish.py:76-78 | which holds exactly of the permutations of the printed lines, if no name contains the separator, and of nothing otherwise |
| Checksums.PublishedAccepts | scripts/published_assets.py:19-28 | the loop accepts iff all lines match, no name repeats and the entries are the assets without SHA256SUMS |
| Checksums.PublishedReadsIff | scripts/published_assets.py:20-28 | which holds exactly of the permutations of the printed lines, if all names are file names |
| Checksums.ReadersAgree | scripts/published_assets.py:19-28 | the two readers accept the same lines for file names without the separator |
| Checksums.ReadersAgreeIff | scripts/published_assets.py:19-28 | the readers accept the same lists of lines iff the names are all free of the separator and all file names, or neither |
| Checksums.ReadersDiffer | scripts/release_plan.py:49-52 | an instance of the difference, which the guard on the names keeps out of reach: a file name that contains the separator |
| ReleaseNames.VersionIsClean | python/mariamem/_version.py:9-16 | every release version is spelled with letters, digits, dots, dashes and underscores only |
| ReleaseNames.ExpectedNameIsClean | scripts/generated_release.py:40-48 | every expected asset name is made of letters, digits, dots, dashes and underscores |
| ReleaseNames.GuardedRoundTrip | scripts/release_plan.py:45-52 | for every version, assets that pass the guard on names and hashes are read back as printed by both readers, and the readers accept the same lists of lines |
| Checksums.RoundTripIff | scripts/generated_release.py:307-308 | the printed text is read back as the same assets iff every name is free of line breaks and separators |
| Checksums.OnlyPlainNamesAreRead | scripts/release_plan.py:49-52 | no text at all is accepted for assets with another name |
| Checksums.MergeRecord | scripts/generated_release.py:273-275 | one platform's assets join iff they contradict nothing |
| Checksums.Merge | scripts/generated_release.py:268-275 | the union of all records, refused iff two records disagree |
| Checksums.MergeIsOrderFree | scripts/generated_release.py:268-275 | for the same records in any order the merge is refused alike and its result is the same |
| ProcessTree.Closure | benchmarks/isolation_baseline.py:30-35 | on any table, with cycles and duplicate rows, the loop ends with exactly the pids reachable along edges that avoid the excluded pid |
| ProcessTree.ClosedSetHoldsPath | benchmarks/isolation_baseline.py:31-35 | a set that is closed under the loop's step contains every path from the root |
| ProcessTree.DescendantValues | benchmarks/isolation_baseline.py:27-37 | one sample for each reachable pid but the parent and the excluded one, from the last row of that pid |
| ProcessTree.MemberValues | benchmarks/memory_scaling.py:43-51 | the same members without a second test for the sampling process |
| ProcessTree.FamilyValues | scripts/go_fixture_campaign.py:62-71 | the whole family with its root, as far as the table lists it |
| ProcessTree.ExclusionIsIdleIff | benchmarks/memory_scaling.py:44-49 | excluding a pid changes the set iff it is a proper descendant of the root |

## Left out

- Concurrency is modelled on values: `Fixture`, `HttpWork`, `RunChildren`, `SnapshotForks` and `ForkLedger` are
  transition systems over immutable states rather than classes, because their properties are about all interleavings.
  Which goroutine runs a `sync.Once` body is not tracked, only that one does and that the others wait.
- Wall-clock time: timeouts and cancellations are steps that may happen at any moment, and deadlines are not compared.
  Environment calls are assumed to return.
- Panics other than the preparation callback's, Goexit, and the recovery wrappers around hooks.
- Error texts, error codes and `errors.Is`: a joined error is the set of its causes.
- Reflection checks on handles (nil, comparable): handles are values that can be compared.
- `HTTPCase.setup` appends the transport's closer without taking the case lock; `HttpWork` treats it as one more
  registration.
- The registration hook is only used during preparation, before there is any case; a hook that is kept and called later
  is not modelled.
- `startHTTP` and the identity checks of `newHTTP`: a sequence of guarded calls, represented by which owners exist.
- `startLeased` before the host starts, `Options.defaults`, `rejectLegacyRuntime`: single-branch refusals.
- `Database.WaitDisconnected`: a wait loop over notifications whose only claim is its exit condition.
- The endpoint behind Live, the disposal owners, the host and the snapshot store: their answers are inputs.
- Waiting inside `Pool.Acquire`, which retries until a slot is free: only the admitting attempt is a step.
- Hashes: a digest stands for the content, so equal digests mean equal files.
- Empty directories, special files, permissions and interrupted copies in `Workspace` and `Cleanup`; Git's answers and
  the paths that the symbolic-link check refuses are inputs; refusals of the evidence directory itself, of its checksum
  file, and of the experiment's lock and receipt are not modelled. Tracked files of a worktree count as preserved by Git.
- `assessment`, `retention_report`, the run guard and the receipts, whose claims are classification tables.
- Database.HostNeverForgets: assumes a backend that returns a backing only from a consumed capture, because without it
  the promise is false; `Database.DebtCanGoIff` is the exact statement for every backend.
- Restore.RestoreHandoff: a write error in the second pass, such as a full disk, is not modelled.
- `unzip`, the other checks of `ready_bundle`, `plan`, `verify_publication` and the remaining checks of
  `check_aggregate`: equality tests on records.
- Line breaks beyond those of `Checksums.IsBreak`, and text decoding.
- Parsing of `ps` output, `percentile`, `cpu_seconds` and the samplers: a table is a list of rows.
