# Snowcat Cockpit: a verified model

This project models the parts of Snowcat Cockpit whose correctness depends on many steps at once and
proves what they promise. Every claim is a statement over all inputs, all interleavings or all runs,
checked by Dafny.

**Board campaigns** (`Campaign*.dfy`). The controller is a class with the fields of the original.
`Campaign.Controller.Reconcile` is one tick, from the worker inventory to the status summary, with
another goroutine free to stop or cancel between any two critical sections, every state write free to
fail, and workers free to claim and end at any moment. It is proved to satisfy the relation
`CampaignRuns.Tick`, `Campaign.Controller.Run` to produce exactly the campaigns `CampaignRuns` speaks of, and its
theorems follow for whole campaigns: reservations prevent
a second launch into the same item, lanes stay within capacity, launches stop after the end, only settled
workspaces are cleaned. `CampaignLifecycle` treats Start, Stop, Close and the run's own updates as events
on the shared record; the class records each of its critical sections as one of them. `CampaignLaunch`
is the arithmetic of the round-robin loop, `CampaignTracking` the bookkeeping of probes and exits,
`CampaignPreflight` which provider pairs are ready, `CampaignTick` the account of one tick's steps, and
`CampaignCases` holds concrete campaigns.

**The worker lease relay** (`LeaseRelay.dfy`, `LeaseSystem.dfy`, `LeaseStory.dfy`). The relay is a class
proved against functions on its state; the system adds Snowcat's grants, messages that are lost or
processed late, the renewal tick, other clients and the clock; the story is what the delivered answers
alone say, and the relay is proved to believe, send and write down exactly that.

**Bound pull-request targets** (`PullRequestTarget.dfy`, `TargetDelivery.dfy`). Preparing and pushing,
with a commit graph, a compare-and-swap on the branch, and others pushing to it.

**Worker-kit generations** (`KitStore.dfy`, `KitLaunch.dfy`). A refresh as the list of states the file
system passes through, and launches interleaved with refreshes under the shared and exclusive kit lock.

**Worker records** (`WorkerRecords.dfy`, `WorkerManager.dfy`). Launch with its kit, target binding, stop and
cleanup against durable records.

**Texts with an inverse** (`ShellQuote.dfy`, `EventStream.dfy`, `ToolCache.dfy`, `ClassifierDoc.dfy`,
`ServiceEnvironment.dfy`, `NodeService.dfy`) and the **queue counts** a tick starts from
(`QueueView.dfy`). `Prelude.dfy`, `Texts.dfy` and `NameOrder.dfy` are shared vocabulary.

Where the code does less than its comments or documentation suggest, the model follows the code, and a
lemma says exactly when the promise holds:

- The reason a halted campaign reports is written over by a later stop mark, degrade or status update
  (`HaltedIsReportedExactlyWhen`, `HaltedReasonCanBeOverwritten`).
- A Start whose first write fails leaves an active record that no later call can restart
  (`ActiveExactlyWhenRunningOrOrphaned`, `OrphanedStartIsFinal`, `StartCanBeOrphaned`).
- A blocked role launches all the same when its pair is ready on behalf of an unblocked one
  (`BlockedRoleLaunchesExactlyWhen`, `BlockedRoleLaunches`).
- A running worker whose terminal does not answer is listed as failed, its probe forgotten and its slot
  given away, so that the bounds of a campaign hold only beyond the misreported
  (`WaitingNeverExceedsClaimable`, `LanesStayWithinCapacity`, `MisreportReachesTheBounds`).
- An interval can pass its bounds check by wrapping (`IntervalWithinBoundsExactlyWhenNotWrapped`,
  `WrappedIntervalIsAccepted`).
- A heartbeat without arguments crashes a relay that holds no lease and lost none
  (`CrashesExactlyBeforeAnyClaim`, `HeartbeatCanCrash`).
- A relay that does not hear its own release goes on renewing and declares the lease lost early
  (`NeverLostEarly`, `UnheardEndLosesEarly`).
- The ancestry check and the push read the workspace head separately (`CheckProtectsExactlyWhen`,
  `MovedHeadLosesHistory`).
- A push whose record is lost leaves a marker with the old lease; only the very same head goes through then
  (`UnrecordedPushIsStuck`, `RepeatedPushIsRecorded`).
- Both event-stream readers return an event that the end of the input cut off, which the standard
  discards (`AgreesExactlyWhenNotCutOff`, `CutOffEventsDiffer`), and do not end a line at a lone carriage
  return (`LoneReturnsDiffer`).

Parameters stand for what the model cannot see: answers of Snowcat, GitHub, Git, tmux, the containers and
the file system are arbitrary within what each promises; the digest, URL parser, case folding, YAML and
request normalisation are functions or predicates, and so is what Git holds at a commit; time is an integer
clock. Ghost logs in the classes record what was asked and answered, and ghost counters called `faults` how
many outside steps failed, so that a contract can say why an operation refused. To check everything, run
`dafny verify dfyconfig.toml`.

## Model

| member | source | states |
|---|---|---|
| `CampaignLifecycle.AtMostOneRun` | internal/campaign/campaign.go:247-358 | Over every sequence of Start, Stop, Close, degrade, status, update and finalize sections, with any write failing: at most one run is alive, its record is active, each run closes `done` once and a finalizing run finds it open |
| `CampaignLifecycle.ActiveExactlyWhenRunningOrOrphaned` | internal/campaign/campaign.go:260-287 | An active status means a live run, or that the latest accepted Start lost its first write, and nothing else |
| `CampaignLifecycle.OrphanedStartIsFinal` | internal/campaign/campaign.go:260-279 | After such a lost first write no later call in that process ever starts a run |
| `CampaignLifecycle.StartCanBeOrphaned` | internal/campaign/campaign.go:260-279 | A concrete Start that loses its first write, and a second one turned away though nothing runs |
| `CampaignLifecycle.LatchIsLostWrite` | internal/campaign/campaign.go:1199-1222 | The halt latch is set exactly when some checked write of the current run failed |
| `CampaignLifecycle.StoppedDetailIsTruthful` | internal/campaign/campaign.go:344-358 | A finished run's final detail reports stale state exactly when one of its checked writes failed, the last included |
| `CampaignLifecycle.EveryFinalizeStops` | internal/campaign/campaign.go:344-358 | In every interleaving a run that finalizes leaves Stopped and no run; the state file holds that record exactly when the last write succeeded, and the detail reports stale state exactly when some write was lost |
| `CampaignLifecycle.AnyCrashReopensIdle` | internal/campaign/campaign.go:199-245 | Whatever the state file holds, so wherever a process died, the next one begins sound and idle with the record it finds, an active one turned into an interrupted one, and the first Start begins a run |
| `CampaignLifecycle.StatusTellsExactly` | internal/campaign/campaign.go:296-317 | Over every history a live run is `stopping` exactly while, since its last stop mark, there was no degrade and no lost write, so that no status update takes it back; `running` exactly while the last word was that nothing is in the way; `starting` until anything is said |
| `CampaignLifecycle.HaltedIsReportedExactlyWhen` | internal/campaign/campaign.go:1096-1156 | Over all histories: a live run reports that it halted exactly while no stop mark, successful degrade or successful status update outside `stopping` came after its last lost write |
| `CampaignLifecycle.HaltedReasonCanBeOverwritten` | internal/campaign/campaign.go:1122-1156 | A concrete run in which a halted campaign reports itself running |
| `CampaignLifecycle.CountProviders` | internal/campaign/campaign.go:1122-1156 | Zero blocked providers means none is degraded, and at most all are |
| `CampaignLifecycle.CountRepositories` | internal/campaign/campaign.go:1122-1156 | The same for repositories |
| `CampaignLifecycle.CountsAre` | internal/campaign/campaign.go:1126-1137 | Both numbers count the degraded entries exactly |
| `CampaignRequest.ValidateRequest` | internal/campaign/campaign.go:995-1034 | Fills in the defaults and accepts exactly the acceptable requests, capacities, names, one server per provider and the total included |
| `CampaignRequest.LanesAccepted` | internal/campaign/campaign.go:1018-1032 | The unordered loop over lanes decides exactly the three lane conditions |
| `CampaignRequest.AcceptedCapacity` | internal/campaign/campaign.go:995-1034 | An accepted request has three lanes of at least one worker and at most twelve together |
| `CampaignRequest.IntervalWithinBoundsExactlyWhenNotWrapped` | internal/campaign/campaign.go:1011-1017 | The accepted interval is within 10 to 300 seconds exactly when the conversion to 64-bit nanoseconds did not wrap |
| `CampaignRequest.WrappedIntervalIsAccepted` | internal/campaign/campaign.go:1011-1017 | A concrete interval beyond the bounds that is accepted |
| `CampaignRuns.WaitingNeverExceedsClaimable` | internal/campaign/campaign.go:505-691 | Over whole campaigns, claims, exits, misreports and ticks interleaved: a lane's launched workers that have not claimed never exceed the larger of their first number and the largest claimable count observed, plus those among them that an inventory misreported as failed |
| `CampaignRuns.NoRelaunchIntoTheSameItem` | internal/campaign/campaign.go:872-928 | While the count stays within a bound and nobody claims or exits, all ticks of a campaign together launch at most that bound, and one more for each of those workers an inventory misreported |
| `CampaignRuns.LanesStayWithinCapacity` | internal/campaign/campaign.go:509-519 | When only the campaign launches, a role's occupied workers never exceed its capacity in any state of any run, beyond those an inventory misreported |
| `CampaignRuns.NeverMoreThanTwelve` | internal/campaign/campaign.go:995-1034 | With an accepted request and an idle node at the start, never more than twelve workers run in all, beyond those an inventory misreported |
| `CampaignCases.MisreportReachesTheBounds` | internal/worker/worker.go:1370-1391 | A concrete campaign in which one running worker is listed as failed: its probe goes, a second worker joins it in a lane of capacity one for the same single item, and both bounds are reached exactly, misreport included |
| `CampaignRuns.TickAddsWithinCapacity` | internal/campaign/campaign.go:631-689 | With other launchers present, what a tick adds never takes a role above the larger of its capacity and its count |
| `CampaignRuns.TickKeepsCapacity` | internal/campaign/campaign.go:505-691 | The same for one tick of a sole launcher, over the workers no inventory misreported |
| `CampaignRuns.AtMostOneLateLaunch` | internal/campaign/campaign.go:638-684 | After Stop's cancel or the first lost write at most one further launch is issued in the run, the last one; after a lost write it is an implementer launch whose own base refresh lost it |
| `CampaignRuns.NothingLaunchesOnceDone` | internal/campaign/campaign.go:505-508 | Once a run is done, no later tick launches at all |
| `CampaignRuns.EveryStateIsTracked` | internal/campaign/campaign.go:710-741 | Probes and workers agree in every state, and only workspaces seen settled are marked or cleaned |
| `CampaignTracking.ReservationsBoundWaiting` | internal/campaign/campaign.go:872-928 | Reservations counted after confirmation and exits are enough: launching at most what they leave of the count bounds the waiting workers |
| `CampaignTracking.InspectionStabilises` | internal/campaign/campaign.go:716-741 | Inspection with the listed inventory stabilizes every worker that can still be running, unless that inventory misreported it |
| `CampaignTracking.HandledExits` | internal/campaign/campaign.go:743-789 | What handling all exits of a tick amounts to: forgotten are exactly the workers Snowcat told about, marked exactly the settled ones, failed exactly the lanes of exits claimed, ambiguous, or unmatched and unstabilized or failed; every other lane stays as it was |
| `CampaignTracking.HandledMeans` | internal/campaign/campaign.go:743-789 | One exit: Snowcat told what became of it, and its probe goes; it is settled, and its workspace becomes a candidate from now on; it fails its lane, which is held back for the retry delay; or Snowcat did not tell, and nothing changes |
| `CampaignTracking.LanesHoldExactlyWhenNotOver` | internal/campaign/campaign.go:743-789 | A tick's exits fail or pause exactly the lanes of those that are not over: a terminal outcome, or none for a stabilized worker that exited cleanly, alone permits refill |
| `CampaignTracking.SweepRemovesTheCleaned` | internal/campaign/campaign.go:821-860 | A sweep removes exactly the successfully cleaned candidates and counts each once |
| `CampaignTracking.SweepKeepsTheNewest` | internal/campaign/campaign.go:821-860 | A completed sweep under a count keeps exactly that many newest candidates and those whose cleanup was refused |
| `CampaignTracking.StillTracked` | internal/campaign/campaign.go:821-860 | Nothing the sweep has not handled leaves the candidates |
| `CampaignTracking.InTickHandlesExits` | internal/campaign/campaign.go:743-789 | Forgetting and marking after correlation keeps the tick's invariant |
| `CampaignTracking.InTickSweeps` | internal/campaign/campaign.go:821-860 | So does a sweep cut short at any point |
| `CampaignLaunch.LoopEnds` | internal/campaign/campaign.go:631-689 | Whenever a lane's loop takes less than a retry delay and no backoff of it runs out meanwhile: it is round-robin fair, refuses each repository at most once and only unheld ones, and without refusals launches exactly the smaller of capacity and servable work |
| `CampaignLaunch.LaunchesExactlyTheMinimum` | internal/campaign/campaign.go:631-689 | The exact number of launches of an undisturbed loop |
| `CampaignLaunch.InStepIsFair` | internal/campaign/campaign.go:637-688 | No served repository is more than one worker ahead of another whose count is not used up |
| `CampaignLaunch.TurnServes` | internal/campaign/campaign.go:637-684 | One turn keeps log, counts, capacity and late-launch bookkeeping |
| `CampaignLaunch.TurnStaysOnBeat` | internal/campaign/campaign.go:637-684 | One turn keeps the round robin in step |
| `CampaignLaunch.LogCountsLaunched` | internal/campaign/campaign.go:670-684 | The log counts exactly the workers launched, by lane and by role |
| `CampaignLaunch.WholeTick` | internal/campaign/campaign.go:505-691 | The stages of a tick compose to the relation the run theorems are about |
| `CampaignLaunch.QuietTick` | internal/campaign/campaign.go:505-513 | So does a tick that ends early |
| `CampaignLaunch.ExactJoins` | internal/campaign/campaign.go:631-689 | Serving one more lane keeps all lanes so far exact: every ready role whose loop was brief and met no refusal launched exactly the smaller of its free capacity and its servable work |
| `CampaignLaunch.BlockedRoleLaunchesExactlyWhen` | internal/campaign/campaign.go:592-689 | A blocked role launches nothing unless it shares its pair with an unblocked one; undisturbed, it launches exactly its minimum when the pair is ready, so something exactly when there is free capacity and servable work |
| `CampaignCases.BlockedRoleLaunches` | internal/campaign/campaign.go:592-689 | A concrete node of two repositories where the implementer role is blocked by the failed lane of one and still launches in the other, on the strength of the reviewer's pair |
| `CampaignTick.BlockingFollows` | internal/campaign/campaign.go:585-599 | A lane that failed in this tick blocks its role and holds back for five minutes; an earlier failure blocks until its time is up, and no longer; no other backoff of a lane changes |
| `CampaignTick.StagesCompose` | internal/campaign/campaign.go:505-691 | The stages of a tick add up both to the relation of the run theorems and to the complete trace |
| `CampaignTick.UnblockedRoleIsServed` | internal/campaign/campaign.go:601-689 | What a traced tick owes an unblocked role with work: a refresh is asked for unless the proof lasts two minutes or the pair is delayed; a proof that lasts until the launches, or a successful refresh, makes its pair ready, and nothing else does; and then an undisturbed loop launches exactly the smaller of free capacity and servable work |
| `CampaignTick.HeldLanesWait` | internal/campaign/campaign.go:637-650 | No lane gets a worker in a tick that ends before the time it was backed off to, and none that failed in that tick for five minutes |
| `CampaignTick.EachRoleByItsOwn` | internal/campaign/campaign.go:618-689 | Discoverers, implementers and reviewers each launch only by their own provider and server, within their own capacity less the running and allocating, and in each repository within their own count |
| `Campaign.Controller.Open` | internal/campaign/campaign.go:199-245 | Starts from the file as the lifecycle says, remembering nothing |
| `Campaign.Controller.Write` | internal/campaign/campaign.go:1247-1275 | The state file becomes the record or stays |
| `Campaign.Controller.HaltLocked` | internal/campaign/campaign.go:1211-1222 | Latch, report as halted or, once stopped, as stale, and cancel |
| `Campaign.Controller.PersistLocked` | internal/campaign/campaign.go:1199-1203 | The record is on disk, or the file stays and the record says that it halted |
| `Campaign.Controller.Start` | internal/campaign/campaign.go:247-294 | One StartCall event; refused and without effect while active, otherwise the record is replaced; accepted exactly when also written, and then nothing of an earlier run is remembered and the new run starts sound |
| `Campaign.Controller.Stop` | internal/campaign/campaign.go:296-317 | Only an active campaign is marked `stopping` with the stop reason, its body unchanged, then cancelled; the file holds the mark or stays, and a failed write is reported without latching |
| `Campaign.Controller.StopLocked` | internal/campaign/campaign.go:301-315 | The locked half: status and reason, and the file with them if the write succeeded |
| `Campaign.Controller.CancelRun` | internal/campaign/campaign.go:325-336 | One Cancel event |
| `Campaign.Controller.FinalizeStopped` | internal/campaign/campaign.go:344-358 | One Finalize event: stopped, with the stale reason exactly when a write was lost; no run alive, one more close |
| `Campaign.Controller.DegradeCampaign` | internal/campaign/campaign.go:1096-1103 | One Degrade event: degraded with the given reason, or halted if that could not be written |
| `Campaign.Controller.SetRunningStatus` | internal/campaign/campaign.go:1105-1120 | One SetRunning event: running when ready, else degraded; a stop mark is left alone |
| `Campaign.Controller.SetReconciledStatus` | internal/campaign/campaign.go:1122-1156 | One SetReconciled event: degraded exactly when some provider or repository is, with their numbers, else running; a stop mark is left alone |
| `Campaign.Controller.UpdateRepository` | internal/campaign/campaign.go:1059-1070 | Patches the first record of that repository and persists only then |
| `Campaign.Controller.UpdateProvider` | internal/campaign/campaign.go:1072-1086 | Replaces or appends that pair's status |
| `Campaign.Controller.AddWorker` | internal/campaign/campaign.go:1088-1094 | Appends the worker ID |
| `Campaign.Controller.RecordCleanup` | internal/campaign/campaign.go:862-870 | Counts one more cleaned workspace |
| `Campaign.Controller.InspectLaunchProbes` | internal/campaign/campaign.go:716-741 | Stopped and cleaned workers lose their probes, running ones are stabilized, exited and failed ones are the sorted exits, and nothing else changes; the tick's invariant holds |
| `Campaign.Controller.ConfirmPendingClaims` | internal/campaign/campaign.go:877-911 | Every stabilized unconfirmed probe of a worker not ended is asked about once, in order, until the run ends; exactly those whose answer shows an attempt are confirmed |
| `Campaign.Controller.ReconcileWorkerExits` | internal/campaign/campaign.go:743-789 | Probes gone are exactly those of exits Snowcat told about, new candidates exactly the settled ones, eligible from this tick on; exactly the failing lanes are failed and backed off, exactly those of untold exits paused, every other lane is as it was |
| `Campaign.Controller.HandleExit` | internal/campaign/campaign.go:743-789 | One exit, one correlation, and exactly what its answer means for probe, candidate, lane failure and backoff |
| `Campaign.Controller.DueCandidates` | internal/campaign/campaign.go:826-846 | Exactly the over-age candidates, or all but the newest of the count |
| `Campaign.Controller.SweepCleanupCandidates` | internal/campaign/campaign.go:821-860 | Cleanup called once per handled due workspace; refused ones stay; the count rises by the number removed |
| `Campaign.Controller.OverAge` | internal/campaign/campaign.go:835-841 | Exactly the candidates eligible for longer than the age |
| `Campaign.Controller.Survey` | internal/campaign/campaign.go:520-563 | Inspection, then confirmations, then observations, each as specified |
| `Campaign.Controller.Conclude` | internal/campaign/campaign.go:564-565 | Exits correlated once each and acted on, then the sweep |
| `Campaign.Controller.PendingLaunchCounts` | internal/campaign/campaign.go:918-928 | How many stabilized, unclaimed probes each lane has |
| `Campaign.Controller.ObserveQueues` | internal/campaign/campaign.go:528-563 | Every repository is observed once until the run ends; the counts are the last answers of those that answered, and the record says which did not |
| `Campaign.Controller.BlockedRoles` | internal/campaign/campaign.go:585-599 | Exactly the expired failures go; the roles of the others and of paused lanes, and no others, are blocked, and their repositories degraded |
| `Campaign.Controller.EligiblePairs` | internal/campaign/campaign.go:601-617 | Exactly the pairs with an unblocked role that has work |
| `Campaign.Controller.EnsureLanePreflight` | internal/campaign/campaign.go:961-993 | When a proof is asked for, and what each answer does to proofs, backoff and the recorded provider status |
| `Campaign.Controller.EnsurePreflights` | internal/campaign/campaign.go:618-630 | Each pair of an unblocked role is looked at once: asked for a proof only, and always, when that is due; ready are exactly those whose proof lasts or whose refresh succeeded |
| `Campaign.Controller.RefreshImplementationBase` | internal/campaign/campaign.go:693-708 | The source is set up once; its base is recorded and used, or the lane is backed off and the repository degraded |
| `Campaign.Controller.TakeTurn` | internal/campaign/campaign.go:651-684 | An implementer's base is refreshed once and the launch issued exactly when that gave one, any other launch always; probe, backoff, worker list, health and late-launch flags follow from the outcome |
| `Campaign.Controller.LaunchOne` | internal/campaign/campaign.go:651-684 | The same, keeping probes and workers in agreement |
| `Campaign.Controller.TurnAt` | internal/campaign/campaign.go:638-684 | One turn with its checks in the code's order |
| `Campaign.Controller.LaunchPass` | internal/campaign/campaign.go:637-685 | One pass over the repositories |
| `Campaign.Controller.LaunchLane` | internal/campaign/campaign.go:631-689 | One lane's loop: within its counts and capacity always; fair and exact when it is brief |
| `Campaign.Controller.LaunchAll` | internal/campaign/campaign.go:631-689 | All ready lanes: per lane at most the adjusted count, per role at most the free capacity, and exactly the minimum when undisturbed; every started worker probed and on the record, late launches as stated |
| `Campaign.Controller.Reserve` | internal/campaign/campaign.go:568-584 | Each count less its lane's reservations, never below zero |
| `Campaign.Controller.CountActive` | internal/campaign/campaign.go:514-519 | How many listed workers occupy a role |
| `Campaign.Controller.Assess` | internal/campaign/campaign.go:520-584 | Up to the reservations: what each lane may still launch |
| `Campaign.Controller.Dispatch` | internal/campaign/campaign.go:585-690 | From there on: expired failures go, the others and the paused lanes block their roles, refreshes are asked for when due, the pairs whose proof lasts or was refreshed are ready, launches are exact, and a summary follows unless the run ended |
| `Campaign.PatchEachMore` | internal/campaign/campaign.go:592-599 | Degrading several repositories gives the same record in any order |
| `Campaign.PatchAt` | internal/campaign/campaign.go:1059-1070 | A patch changes health and detail of the first entry of that repository, and nothing else |
| `Campaign.PinAt` | internal/campaign/campaign.go:693-708 | A new base goes to the first entry of that repository, and nothing else changes |
| `Campaign.PutAt` | internal/campaign/campaign.go:1072-1086 | A status replaces the pair's first entry or is appended |
| `Campaign.Controller.Reconcile` | internal/campaign/campaign.go:505-691 | A whole tick, interleaved with Stop, misreports and failing writes, satisfies the tick relation, and unless the run was over or the inventory failed its trace accounts for every step in order: inspection, confirmations, observations, exits, sweep, blocked roles (lanes in backoff included), refreshes when due, pairs ready by a lasting or refreshed proof, exact launches, summary |
| `Campaign.Controller.Run` | internal/campaign/campaign.go:360-387 | Any number of ticks of a run make up one of the campaigns the run theorems speak of; once its context is done the run finalizes to Stopped |
| `Campaign.Controller.TickAndWait` | internal/campaign/campaign.go:376-386 | One tick, with its whole trace unless the run was over or the inventory failed, and the wait after it, in which listing the repositories may fail and degrade the campaign, extend the campaign by two steps |
| `Campaign.Controller.Inventory` | internal/campaign/campaign.go:509-513 | The inventory, misreports on record; of all a tick starts from only workers and clock have moved |
| `CampaignWorld.World.Launch` | internal/campaign/campaign.go:660-684 | A launch starts a fresh running worker or fails, perhaps leaving a record |
| `NameOrder.AscendingIsUnique` | internal/nodeservice/service.go:725-729 | A set of names has one sorted listing |
| `NameOrder.LessMeans` | internal/nodeservice/service.go:725-729 | Names are ordered by their first difference, the shorter first |
| `NameOrder.Sorted` | internal/nodeservice/service.go:725-729 | Sorting gives that listing |
| `LeaseRelay.Relay.Handle` | internal/leaseproxy/relay.go:223-264 | One provider call from checks to answer, tied to the two halves of the specification; a call that cannot reach Snowcat ends the relay |
| `LeaseRelay.Relay.Prepare` | internal/leaseproxy/relay.go:223-255 | Checks and rewrites, in the code's order |
| `LeaseRelay.Relay.BindLease` | internal/leaseproxy/relay.go:282-298 | Which arguments are substituted |
| `LeaseRelay.Relay.Observe` | internal/leaseproxy/relay.go:323-372 | What each answer does to lease, flags and marker |
| `LeaseRelay.Relay.Renew` | internal/leaseproxy/relay.go:374-415 | One renewal tick and its outcomes, the new expiry on record after a success |
| `LeaseRelay.Relay.LoseLease` | internal/leaseproxy/relay.go:486-496 | Loss happens once, to a held lease that is not ended |
| `LeaseRelay.Relay.WriteMarker` | internal/leaseproxy/relay.go:507-556 | The marker is replaced or stays |
| `LeaseRelay.Relay.MarkProviderExit` | internal/leaseproxy/relay.go:498-505 | Noted only while a lease is held, not ended and not lost |
| `LeaseSystem.LeaseIsReallyHeld` | internal/leaseproxy/relay.go:323-415 | In every run the recorded expiry is no later than Snowcat's; a grant is ended exactly when Snowcat accepted a call of this relay that ends it; otherwise, before the recorded expiry, Snowcat holds the lease for this worker and the item for nobody else |
| `LeaseSystem.UnendedLeaseIsHeld` | internal/leaseproxy/relay.go:323-415 | While the relay runs and has heard every answer to an ending call: a lease it counts as not ended, with no ending call pending and the recorded expiry ahead, is held by Snowcat for this worker alone |
| `LeaseSystem.NeverLostEarly` | internal/leaseproxy/relay.go:374-415 | No path declares a loss before the recorded expiry, unless Snowcat accepted a call of this relay that ends the lease and the answer to such a call was lost |
| `LeaseSystem.UnheardEndLosesEarly` | internal/leaseproxy/relay.go:374-415 | A concrete run in which a release succeeds unheard and the next renewal loses the lease two minutes early |
| `LeaseSystem.LossIsFinal` | internal/leaseproxy/relay.go:223-241 | Once lost, always lost: nothing more is forwarded or renewed, claims included, and the marker is not written again |
| `LeaseStory.RelayBelievesWhatItWasTold` | internal/leaseproxy/relay.go:323-415 | In every run lease, expiry, end and loss on record are exactly what the delivered answers say: the lease of the last granted claim with the expiry last answered for it, ended once an ending call was accepted, lost exactly once a heartbeat for it was refused or a renewal went unanswered past that expiry |
| `LeaseStory.RecordedExpiryIsTheLastDelivered` | internal/leaseproxy/relay.go:336-352 | In every run the expiry on record is the one in the last successful claim or heartbeat answer delivered for that item |
| `LeaseStory.NoLossBeforeTheDeliveredExpiry` | internal/leaseproxy/relay.go:374-415 | So no lease is declared lost before that expiry, unless Snowcat accepted a call that ends it and the answer was lost |
| `LeaseStory.CallsGoOutExactlyWhen` | internal/leaseproxy/relay.go:223-264 | In every run a call is refused exactly when it is a foreign claim, a claim while a lease is held, or any other call after a loss; crashes exactly as said below; and otherwise goes out as one message, with the lease where it is due, 120 seconds where a lease is asked for, and all else untouched |
| `LeaseStory.RenewsExactlyWhileHeld` | internal/leaseproxy/relay.go:374-391 | A renewal tick sends one heartbeat under the lease exactly while it is held, neither ended nor lost |
| `LeaseStory.MarkerTellsTheLastNews` | internal/leaseproxy/relay.go:498-556 | In every run the marker is the last news that could be written: claimed, completed, blocked, released, lost or exited, with whether a completion was ever sent and ever acknowledged |
| `LeaseSystem.FlagsAgree` | internal/leaseproxy/relay.go:314-372 | Never lost and ended at once; only a held lease is lost; acknowledged implies attempted; the marker's lease-lost and completed say what is true |
| `LeaseSystem.EveryRunKeepsInv` | internal/leaseproxy/relay.go:223-415 | The invariant behind these, over every run |
| `LeaseSystem.StepKeepsInv` | internal/leaseproxy/relay.go:223-415 | Every event keeps it |
| `LeaseSystem.RefusedOnlyWhenOver` | internal/leaseproxy/relay.go:323-333 | A refused heartbeat for the held lease means expiry, or an end that Snowcat accepted |
| `LeaseSystem.EveryCallCarriesTheLease` | internal/leaseproxy/relay.go:223-311 | In every run a lifecycle call for the held item, or for none, goes out under a lease Snowcat granted this worker on that very item; a heartbeat asks for 120 seconds |
| `LeaseSystem.CrashesExactlyBeforeAnyClaim` | internal/leaseproxy/relay.go:223-255 | In every run a provider call crashes the relay exactly when it is a heartbeat without arguments and no claim of the run has brought a lease before; once one has, ended and lost leases included, it never does |
| `LeaseSystem.ExitIsNotedExactlyWhen` | internal/leaseproxy/relay.go:176-221 | In every run, ended by the provider, by a request that cannot reach Snowcat or is malformed, by a failed output or input, or by a crash: the marker says the provider exited exactly when it closed its end under a lease neither ended nor lost and that was written |
| `LeaseSystem.HeartbeatCanCrash` | internal/leaseproxy/relay.go:243-245 | A concrete run of one event that crashes the relay |
| `PullRequestTarget.EveryRunIsLeased` | internal/worker/target.go:193-229 | What a push replaces by another head was bound or checked before, and what was checked descends from the bound head |
| `PullRequestTarget.EveryPushDiscardsNothingForeign` | internal/worker/target.go:164-230 | Of every push of every run, interleaved with others' pushes, lost records and moving heads: it finds the branch at the pushed head already, or replaces the bound head or one checked earlier; if it pushes what it checked, the bound history stays; and while it descends from the bound head, what drops off was checked earlier and is not bound history |
| `PullRequestTarget.CheckProtectsExactlyWhen` | internal/worker/target.go:193-219 | The ancestry check protects the bound history in every commit graph exactly when the push reads the head that was checked, or the bound head itself |
| `PullRequestTarget.MovedHeadLosesHistory` | internal/worker/target.go:193-219 | A concrete run in which the head moves between check and push and the bound history drops off |
| `PullRequestTarget.UnrecordedPushIsStuck` | internal/worker/target.go:219-228 | In every run, after a push whose record was not written the worker can only push the very same head again, which Git accepts as up to date before it tests the lease, until somebody else moves the branch or such a repetition is recorded |
| `PullRequestTarget.RepeatedPushIsRecorded` | internal/worker/target.go:213-228 | A concrete run in which the repetition is accepted and recorded |
| `PullRequestTarget.BuiltTargetIsValid` | internal/worker/target.go:73-162 | Every target preparation builds passes the validation its marker is read with |
| `PullRequestTarget.ValidTargetsAre` | internal/worker/target.go:328-350 | A valid marker: detached without a local branch exactly for `pr-review`, on `cockpit/<worker>` for the three repair kinds, no other kind; full commits; an address that leads to a pull request |
| `PullRequestTarget.KindsAre` | internal/worker/target.go:305-314 | Which kinds are detached, which get a branch, and that no others are bound |
| `PullRequestTarget.ReadsExactlyPullRequests` | internal/worker/target.go:289-303 | Read are exactly the addresses of a pull request of this repository on GitHub over HTTPS, whatever their spelling; the canonical address is kept |
| `PullRequestTarget.SafeRefsAre` | internal/worker/target.go:316-326 | Which branch names are safe, by characters and parts |
| `PullRequestTarget.WorkerIdsAre` | internal/worker/target.go:24-28 | A worker ID is `worker-` and sixteen hexadecimal digits |
| `PullRequestTarget.ItemIdsAre` | internal/worker/target.go:24-28 | An item ID is hexadecimal digits in groups of eight, four, four, four and twelve |
| `PullRequestTarget.CanonicalUrlReadsBack` | internal/worker/target.go:289-303 | The canonical address parses to the same number and address |
| `PullRequestTarget.PathOfCanonical` | internal/worker/target.go:289-303 | Its path falls into owner, name, pull and number |
| `TargetDelivery.Site.PrepareTarget` | internal/worker/target.go:73-162 | Binds a clean workspace once, to exactly the head requested and reported: detached without a branch for `pr-review`, on `cockpit/<worker>` for the repair kinds; every member of the marker is stated; a refusal leaves the marker alone and has one of the stated reasons |
| `TargetDelivery.Site.CheckWorkspace` | internal/worker/target.go:164-197 | Exactly when the workspace may be pushed by this worker |
| `TargetDelivery.Site.CheckRequest` | internal/worker/target.go:278-287 | Accepts exactly the acceptable requests |
| `TargetDelivery.Site.CheckPull` | internal/worker/target.go:104-125 | Accepts exactly the deliverable pull requests |
| `TargetDelivery.Site.PushTarget` | internal/worker/target.go:164-230 | A push happens only from this worker's own branch, under a marker of one of the three repair kinds, after GitHub reported the pull request at the expected head and still at the bound repository and branch (open or not: the code does not ask again), with a checked head that descends from the bound one; which head it replaced, what the marker says afterwards, and why a push was refused; the branch's history stays a possible run |
| `TargetDelivery.Site.Deliver` | internal/worker/target.go:213-229 | The push and its record, either of which may fail |
| `TargetDelivery.Site.GitPush` | internal/worker/target.go:213-218 | Git's compare-and-swap on the branch head, after its test for an up-to-date branch |
| `TargetDelivery.Site.WriteTarget` | internal/worker/target.go:384-420 | A validated marker, or the old one |
| `KitStore.Kit.RefreshKitFromGit` | internal/profile/source.go:211-305 | Every state the store passes through serves wholly the old kit or a verified kit with the new manifest; an error leaves the view unchanged and comes from a failed step, a bad revision, a commit that makes no kit, an unhealthy kit or a different generation of that revision; success selects a healthy generation of what Git holds at that commit; no generation is ever changed |
| `KitStore.Kit.BundleFromGit` | internal/profile/source.go:371-404 | The files the commit holds for every skill, with their own digests, exactly when each is a document with a good digest and the floor is well formed |
| `KitStore.Kit.InstallBundle` | internal/profile/source.go:406-462 | Only the staging directory changes; on success it holds exactly the bundle |
| `KitStore.Kit.WriteSkill` | internal/profile/source.go:437-458 | Partial files only in staging |
| `KitStore.Kit.PlaceGeneration` | internal/profile/source.go:259-281 | An existing generation is verified, never changed; a new one is the stage renamed |
| `KitStore.Kit.Select` | internal/profile/source.go:282-300 | The switch makes the new bundle's manifest active and its files verify |
| `KitStore.UntouchedView` | internal/profile/source.go:94-131 | What is served depends only on root, selection and the named generations |
| `KitStore.ViewMeans` | internal/profile/source.go:94-131 | Served are exactly the listed files of the active directory, each there with its digest and a document of its skill; the floor counts only for a bare root |
| `KitStore.ReadyMeans` | internal/profile/source.go:236-246 | A kit is ready exactly when its active directory holds every listed skill with the listed digest |
| `KitStore.BuiltMeans` | internal/profile/source.go:371-404 | When what Git showed makes a kit, and which one |
| `KitStore.InstalledVerifies` | internal/profile/source.go:354-369 | A fully staged directory verifies as its bundle |
| `KitLaunch.StartsOnlyOnTheRecordedRevision` | internal/profile/source.go:652-683 | In every interleaving of launches and refreshes, a provider starts only while the active revision is the recorded one; its kit is one verified directory's, or in the kit's own repository the checkout's with the very same skills; and if that directory was a generation it is what the node serves right then |
| `KitLaunch.UndisturbedLaunchStarts` | internal/worker/worker.go:383-520 | Whenever the node serves a kit, a launch that nobody disturbs starts its provider with exactly that kit |
| `KitLaunch.EveryRunKeepsInv` | internal/worker/worker.go:488-508 | What launches have read stays what their directory holds, and lock holders see no refresh |
| `KitLaunch.LaunchStaysGuarded` | internal/worker/worker.go:1783-1806 | Between check and start the active revision cannot change |
| `KitLaunch.AdvanceKeepsCoherent` | internal/profile/source.go:156-175 | No refresh step disturbs a launch that is still reading |
| `WorkerRecords.BindingKeepsValid` | internal/worker/worker.go:1393-1450 | A marker of the same worker and repository makes a record that still reads back, because every record is on its own branch |
| `WorkerRecords.CleanedIsFinal` | internal/worker/worker.go:635-741 | Over any sequence of operations Cleaned is final, and so is a recorded target |
| `WorkerRecords.HistoriesEvolve` | internal/worker/worker.go:295-741 | Over any sequence of operations identities stay and statuses only move forward |
| `WorkerRecords.Becomes` | internal/worker/worker.go:1508-1515 | Status, detail and kit changes keep a record readable |
| `WorkerRecords.DriftedExactly` | internal/worker/worker.go:1735-1781 | The reported files are exactly those present that do not match |
| `WorkerManager.Manager.Write` | internal/worker/worker.go:1580-1614 | Only readable records that continue the stored one are written |
| `WorkerManager.Manager.ValidateRequest` | internal/worker/worker.go:964-1002 | Accepted are exactly the requests with known adapter, runtime, provider and role and well-formed names, source and base; which defaults are filled in; an accepted request is accepted again unchanged |
| `WorkerManager.Manager.Launch` | internal/worker/worker.go:295-520 | Whatever fails, every record written reads back and a started terminal is on record as allocating, running or failed; nobody else is touched; a launched worker is at the base commit with its provider running, and owns every skill in both roots, or in `frostyard/snowcat`, whatever the case, has its own checkout's; without a failed step an acceptable request is refused only when the kit is unverified, a tracked file stands in its way, or that checkout lacks a skill |
| `WorkerManager.Manager.Populate` | internal/worker/worker.go:383-459 | Workspace and kit of a begun launch: no file of the checkout is replaced, and the recorded kit is there |
| `WorkerManager.Manager.Equip` | internal/worker/worker.go:398-459 | The kit is recorded before anything is installed; on success every skill is in place as recorded, and a refusal means an unverified kit, a file in its way, a checkout with other skills, or a failed step |
| `WorkerManager.Manager.InstallRoot` | internal/profile/source.go:406-482 | Existing files are never replaced; on success every skill of the root is there as served |
| `WorkerManager.Manager.InstalledKitHasNotDrifted` | internal/worker/worker.go:1735-1781 | What a launch installs, cleanup visits completely and finds without drift |
| `WorkerManager.Manager.Boot` | internal/worker/worker.go:461-520 | The terminal, and a final write that may fail after the provider started |
| `WorkerManager.Manager.FailLaunch` | internal/worker/worker.go:1508-1515 | The failure record, or the old one |
| `WorkerManager.Manager.SyncTarget` | internal/worker/worker.go:1393-1450 | Binds once, from a valid marker of this worker, and under the same names |
| `WorkerManager.Manager.Reconcile` | internal/worker/worker.go:1370-1391 | Allocating counts as active, ended statuses do not; a running worker is active exactly while its terminal and its provider are there, unless the inspection failed, and what was seen is remembered |
| `WorkerManager.Manager.Stop` | internal/worker/worker.go:635-661 | Stopped with the terminal down; it fails only for an unknown or cleaned worker, a bad marker or a failed step |
| `WorkerManager.Manager.RemoveOwnedSkills` | internal/worker/worker.go:1735-1781 | Only own skill files are removed, and without leave only those as given; on success all of them, with exactly the drifted ones reported; in the canonical repository none |
| `WorkerManager.Manager.ClearWorkspace` | internal/worker/worker.go:686-725 | Removed only after it was inspected clean, then the terminal stopped, and of what was there after that stop: for OCI the branch fetched, for a host worker clean, and every own skill file matching or leave to discard it; it is the workspace inspected if the provider had exited; the answer tells whether drift was discarded |
| `WorkerManager.Manager.RemoveWorkspace` | internal/worker/worker.go:709-722 | OCI after its branch is in the source, host only while clean |
| `WorkerManager.Manager.Cleanup` | internal/worker/worker.go:663-741 | A worker being launched or seen alive is refused and keeps terminal, provider and workspace; only one that had ended, was seen idle, or whose inspection failed loses its terminal or workspace. A workspace goes only inspected clean, its terminal down, its commits kept and no skill file lost without leave that had drifted by the stop; success means Cleaned, no workspace, no terminal, and a detail that tells whether drift was discarded; others are untouched; refusals have one of the stated reasons |
| `ShellQuote.ShellJoin` | internal/worker/worker.go:1474-1480 | The quoted arguments joined by blanks |
| `ShellQuote.ShellReadsBackTheArguments` | internal/worker/worker.go:1474-1480 | By section 2.2 of the POSIX Shell Command Language the line reads back as exactly the argument list, for every list |
| `ShellQuote.QuotedReadsBack` | internal/worker/worker.go:1474-1480 | One quoted argument is one word |
| `EventStream.FirstSseData` | internal/leaseproxy/relay.go:573-591 | The loop computes the specified first data |
| `EventStream.EncodedReadsBack` | internal/leaseproxy/relay.go:573-591 | The first event of an encoded payload without carriage returns is the payload |
| `EventStream.EncodedAgrees` | internal/queueview/queueview.go:364-384 | And it is what section 9.2.6 of the WHATWG HTML Standard dispatches |
| `EventStream.AgreesExactlyWhenNotCutOff` | internal/leaseproxy/relay.go:573-591 | On streams without carriage return, byte-order mark or bare data line the clients agree with the standard exactly when the first event is not cut off by the end of the input |
| `EventStream.CrLfReadsTheSame` | internal/leaseproxy/relay.go:573-575 | Ending every line with carriage return and line feed changes neither reading |
| `EventStream.LoneReturnsDiffer` | internal/leaseproxy/relay.go:573-591 | A lone carriage return ends a line for the standard only |
| `EventStream.CutOffEventsDiffer` | internal/leaseproxy/relay.go:573-591 | An event cut off by the end of the stream is none for the standard and data for the clients, for any single line without a leading blank |
| `ToolCache.Cache.PinDigest` | internal/worker/provisioning.go:138-152 | The digest of the existing files' preimage |
| `ToolCache.Cache.ProvisionTools` | internal/worker/provisioning.go:53-98 | A cache is reused exactly when marked for the same digest, otherwise reset, filled and marked; no marker survives a failed build |
| `ToolCache.PreimageReadsBack` | internal/worker/provisioning.go:138-152 | The hashed bytes read back as exactly the files |
| `ToolCache.PreimageIsInjective` | internal/worker/provisioning.go:138-152 | Different pin files never feed the same bytes |
| `ToolCache.Cache.HitMeansSameFiles` | internal/worker/provisioning.go:62-75 | A cache hit means identical pin files, or an actual digest collision |
| `ClassifierDoc.ReplaceGeneratedTable` | internal/queueview/cmd/classifierdoc/main.go:45-56 | Replaces or refuses as specified |
| `ClassifierDoc.GeneratedTable` | internal/queueview/cmd/classifierdoc/main.go:58-68 | The table between its markers |
| `ClassifierDoc.RowsRead` | internal/queueview/cmd/classifierdoc/main.go:58-88 | The rows of a classification of the node's shape, character by character |
| `ClassifierDoc.MatchReads` | internal/queueview/cmd/classifierdoc/main.go:70-88 | How each kind of match is rendered |
| `ClassifierDoc.AcceptedExactlyWhen` | internal/queueview/cmd/classifierdoc/main.go:45-56 | Accepted exactly when each marker occurs once, in order |
| `ClassifierDoc.ReplacingAgainChangesNothing` | internal/queueview/cmd/classifierdoc/main.go:45-56 | Outside text stays, each marker occurs once around the table, and replacing again changes nothing |
| `ClassifierDoc.RegeneratingChangesNothing` | internal/queueview/cmd/classifierdoc/main.go:45-68 | So for the generated table of any rules whose texts hold no opening bracket |
| `ServiceEnvironment.RenderEnvironment` | internal/nodeservice/service.go:714-738 | The text of exactly the values, or a refusal exactly on a control character |
| `ServiceEnvironment.CollectValues` | internal/nodeservice/service.go:715-723 | The two credential paths and the non-empty allowlisted values |
| `ServiceEnvironment.QuoteEnvironmentValue` | internal/nodeservice/service.go:797-803 | Quoted, unless it holds a control character |
| `ServiceEnvironment.RejectControls` | internal/nodeservice/service.go:814-821 | Exactly the values without control characters pass |
| `ServiceEnvironment.TextReadsBack` | internal/nodeservice/service.go:714-738 | Reading the text by the double-quote rules gives one entry per name, for all values |
| `ServiceEnvironment.FileReadsBack` | internal/nodeservice/service.go:714-738 | So the file reads back as exactly the values written |
| `ServiceEnvironment.ValuesAre` | internal/nodeservice/service.go:34-50 | Which values those are |
| `ServiceEnvironment.TextIsDetermined` | internal/nodeservice/service.go:725-737 | The text does not depend on map order |
| `NodeService.Node.PlanThenInstall` | internal/nodeservice/service.go:228-315 | The plan shows the text the installation writes |
| `NodeService.Node.InstallEnvironment` | internal/nodeservice/service.go:228-259 | The environment file becomes that text or stays |
| `NodeService.Node.PlanInstall` | internal/nodeservice/service.go:297-315 | The plan's text is that text |
| `QueueView.CurrentAttemptExpired` | internal/queueview/queueview.go:201-232 | The answer of the attempt with the highest sequence, or none for attempts that make no sense |
| `QueueView.OrderDoesNotMatter` | internal/queueview/queueview.go:201-232 | The same answer in whatever order the attempts are listed |
| `QueueView.Observe` | internal/queueview/queueview.go:140-199 | Exact counts of queued items and of claimed ones whose current attempt expired, by kind and deliverability; there is a result exactly when every item listed as claimed has that status and attempts that make sense, and none of the claimable lies outside the projection |
| `QueueView.EveryItemCountsOnce` | internal/queueview/queueview.go:168-188 | Every item counts once, for a role or as flagged |
| `QueueView.AssessContract` | internal/queueview/queueview.go:386-409 | Ready exactly for no artifact without write, or a pull request with write and open-pr |
| `QueueView.Classify` | internal/queueview/classifier.go:21-26 | The first rule that applies decides: `-discovery` kinds go to the discoverer, `pr-review` to the reviewer, `release-needed` to nobody, all others to the implementer |

## Left out

- Campaign.Controller.Run: follows a run for a given number of ticks; repository setup, its retries and the
  first provider proofs are arbitrary results and arbitrary changes of the record's repositories and providers.
- Parallel queue observation in a tick: the observations are taken one after the other, with arbitrary
  drift between them.
- Campaign.Controller.Reserve: works on values; the original subtracts in place in the snapshots.
- LeaseRelay.Relay.Prepare: returns the rewritten call; the original rewrites the request's argument map
  in place. Message encoding, HTTP status codes and the re-encoding of unknown parameters are not modelled.
- LeaseSystem.LeaseIsReallyHeld: Snowcat's answers are its own; a proxy that forges a well-formed refusal
  is not modelled.
- WorkerManager.Manager.Launch: a random worker ID that is already taken counts as a failed draw;
  readiness, image and base inspection, and the canonical checkout's descent from the kit's source, are
  reduced to success or failure. Which kit is active is a parameter here; `KitLaunch` is about that.
- WorkerManager.Manager.RemoveOwnedSkills: does not model the removal of emptied directories.
- WorkerManager.Manager.ClearWorkspace: what a provider that still runs writes between the Git status and
  the stop is not protected, in the code either: a host workspace then fails at `git worktree remove`, an
  OCI one is removed; once the provider exited nobody changes the workspace.
- KitStore.Kit.RefreshKitFromGit: covers a process that dies between file-system changes, not a power
  failure that loses completed renames; the temporary symbolic link before the last rename is not modelled.
- ShellQuote: reserved words, assignments and expansions are not read; a line holding any unquoted
  special character is not read at all.
- ServiceEnvironment: only the double-quoted form of an assignment is read, and no bare `$` or backtick; the
  unit's ExecStart quoting has no inverse and is not modelled.
- EventStream: byte-order marks and lone carriage returns are outside the agreement theorem.
- The wording of details and errors: one text stands for the variants of a message, and a repository with
  several failed lanes shows that text rather than the last lane's.
- Checks on a refreshed source other than its base commit are part of the set-up's success.
- Display timestamps, directory permissions, symbolic-link ownership.
- Web handlers, the dashboard, command-line flags, consoles, doctor, fleet, the managed-repository catalog,
  provider preflight prompts, container arguments and credentials: plumbing, or easy members only.
