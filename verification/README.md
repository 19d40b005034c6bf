# A verified model of the job gateway

The gateway keeps a table of video jobs and hands them to agents that poll it from rented machines. A job is
held under a lease: a poll renews leases and claims work, uploads and results are accepted only under the
current lease, and a periodic sweep takes back what nobody renews. The agent runs the other half. This project
models both halves in Dafny and proves what the protocol promises over every run.

How the files fit together:

- `Types`, `JobTable`: rows, events, and each SQL statement of the job store as an operation on a table value.
  `TableInvariant`, `Replay`, `History`, `Epochs`: what every statement keeps, what a job's event trail tells,
  what whole runs cannot undo, and the story of single-owner epochs that the table refines.
- `Store`, `Claims`, `Parking`, `AgentRoutes`, `Reaper`, `VideoRoutes`, `Artifacts`, `Cleanups`, `AgentSide`: the
  classes and handlers in their own imperative form, each method proved against those operations. A method is
  the code between two awaits, except where its comment says nothing comes between. `RowBlocks` holds what loops
  over query results have in common.
- `Uploads`: what uploads in progress do to a job's directory. They share one part file; a stream keeps the file
  it opened, through renames and removals.
- `Protocol`: the gateway, any number of agents and an unreliable network as one state machine. The network is
  the senders' memory: a request once made may reach the gateway at any later time, any number of times or
  never; an answer may be lost; an agent may die and start again. `Seats`, `Handlers` and `AgentHandlers` show
  that the imperative methods of gateway and agent take its steps. `Runs`, `Custody`, `StepRows`, `LeaseClock`,
  `CancelHonesty`, `Media`, `Wakeups`: one invariant each, kept by every step. `Behaviours` and
  `DownloadWindows`: the results over whole runs. `Witness`, `Sleepers` and `Torn` exhibit runs: one from
  submission to download, and those in which the code falls short.
- `Sizing`, `SizeChecks`, `Probe`, `Frames`: frame sizing over exact reals, its text form, image header probing,
  and the handler that joins them.

Assumptions, all visible in the definitions: job and lease ids are fresh, the clock never runs backwards,
`maxAttempts` is at least one, no crash falls between an UPDATE and its event INSERT, each pod id is used by one
agent process at a time, upload bodies arrive intact, and a file's streams follow it through renames as on a
POSIX file system. Hashing is an arbitrary function.

Where the code does less than its comments and documentation say:

- An upload's lease is checked once, before its bytes are awaited, and all uploads of a job share one part file.
  So a retry is not always safe (`Torn.TornByARetry`, against agent/src/nidora_agent/runner.py:162-167 and
  docs/agent-protocol.md:140), and a pod whose lease was revoked can overwrite what the finishing pod uploaded
  (`Torn.OverwrittenByALoser`, against gateway/src/routes/agent.ts:282-283). Neither can happen to a job whose
  uploads never overlap (`Behaviours.ContentIsGenuine`), which the gateway could check when it lets one in.
- `listQueued` shows the claim loop only the 100 oldest jobs, so a poll may park beside work it could run.
  `Behaviours.SleepersPassedOver` says exactly when; `Sleepers` has a run for each way it happens.
- Draining stops new work (docs/agent-protocol.md:90) except for a poll that is already parked, which keeps the
  slots it arrived with (`Behaviours.DrainedIsGivenOnlyParked`, `Sleepers.DrainedWhileParked`).
- Lossy WebP may be probed with a zero side, and then deriving a size throws where the handler does not catch it
  (`Probe.UsableUnlessLossyZero`, `Frames.ThrowsExactly` say exactly when).
- `checkSize` accepts `00x00` and returns `0x0`, which it would itself refuse (`SizeChecks.ZeroIsAccepted`);
  `SizeChecks.CheckAgain` says exactly when an accepted size is stable.
- A pass that removes a job's files and stops before it empties the list leaves a row that lists a missing file,
  answered as expired (`Behaviours.ServedUnlessRemoving`).
- `toString('ascii')` drops the top bit of each byte, so chunk tags match more bytes than their letters; the
  probes are modelled that way, and the formats still exclude one another.

## Model

| member | source | states |
|---|---|---|
| `Behaviours.ContentIsGenuine` | gateway/src/routes/agent.ts:214-257 | At every moment of every run, a completed job whose list is not emptied and whose files no pass is removing is served, with the digest of what the owner of its last epoch rendered; and served those very bytes, if no upload of the job was ever let in while another was in progress |
| `Behaviours.ClashedExactly` | gateway/src/routes/agent.ts:214-241 | The history variable that result speaks of: a job is marked if and only if at some earlier step an upload of it was let in while another was in progress |
| `Torn.TornByARetry` | agent/src/nidora_agent/runner.py:159-167 | That condition cannot be dropped: under every configuration that takes a byte, a run with one agent, one lease and one body uploaded twice ends with the job completed, nothing in progress, and an empty file served under the digest of the body |
| `Torn.OverwrittenByALoser` | gateway/src/routes/agent.ts:281-286 | Nor for different owners: a run in which an upload let in under its lease ends after the job was requeued and completed by another agent, replaces the winner's file under the winner's digest, and is answered with success |
| `Behaviours.ServedUnlessRemoving` | gateway/src/artifacts/cleanup.ts:42-47 | A completed job that still lists its artifact is served if and only if no pass has begun to remove its files, provided no pass did so under an upload in progress |
| `DownloadWindows.WindowIsKept` | gateway/src/domain/serialize.ts:26-31 | In every run, while the clock has not passed `expires_at`, a completed job's row, artifact list and served bytes stay exactly as they were, if rows are kept at least as long as media and either no upload of the job is in progress or its uploads never clashed |
| `Behaviours.LeasesAreKept` | gateway/src/routes/agent.ts:124-146 | In every run a current lease is lost in a step if and only if the step is a result reported under it, or a sweep that finds its contact late (by the lease time, or by the restart grace when nothing was heard since a restart), its job past the deadline, or its cancel past the grace |
| `Behaviours.SleepersPassedOver` | gateway/src/routes/agent.ts:154-166 | In every run, without any condition, a poll is parked beside a queued job of its model if and only if it has been so since it arrived, when the job was already queued and outside the 100-job window, and the window held no job for it |
| `Wakeups.ParksBesideWork` | gateway/src/scheduler/claim.ts:77-101 | A patient poll with slots parks beside a queued job that suits it if and only if no job of the window suits it |
| `Wakeups.SleepsOnlyPastWindow` | gateway/src/scheduler/waiters.ts:44-48 | The step of the above: whatever enters or re-enters the queue wakes every parked poll |
| `Behaviours.NoPollSleepsBesideWork` | gateway/src/routes/agent.ts:154-166 | In every run in which the queue fitted the window whenever a poll arrived, no parked poll has a queued job of its model |
| `Wakeups.NoLostWakeupStep` | gateway/src/scheduler/reaper.ts:85-85 | The same for one step: only an arriving poll needs the queue to fit |
| `Sleepers.SleepsPastAFullWindow` | gateway/src/db/jobs.ts:137-142 | A run with a hundred older jobs of another model, in which a poll parks beside a job it could run |
| `Sleepers.SleepsWithinTheWindow` | gateway/src/scheduler/waiters.ts:44-48 | That run goes on: another poll's claim moves the job into the window, the queue fits, nobody is kicked, and the poll sleeps on |
| `Behaviours.CancelIsEnforced` | gateway/src/routes/videos.ts:325-346 | In every run the first recorded cancel time of a live job never moves; the first sweep more than the grace after it leaves a job in progress queued if and only if its lease had expired, attempts were left and its deadline had not passed, and finished otherwise |
| `Behaviours.StaleMessagesAreHarmless` | gateway/src/routes/agent.ts:275-286 | An upload or result that arrives under a lease that is not current leaves the whole system as it was (an upload already let in is `Torn.OverwrittenByALoser`'s matter) |
| `Witness.SomeRunDelivers` | gateway/src/routes/agent.ts:97-347 | Under every configuration there is a run that submits a job, hands it out, takes its upload and its result, and serves its content: the results about all runs are not vacuous |
| `LeaseClock.OnTimeStep` | gateway/src/db/jobs.ts:349-363 | Every step keeps: a lease expires one lease time after its last contact, unless the gateway restarted since, and then one restart grace after the restart |
| `LeaseClock.LeaseTaken` | gateway/src/scheduler/reaper.ts:41-61 | The step form of `LeasesAreKept`: what takes a lease, exactly |
| `Media.MediaStep` | gateway/src/routes/agent.ts:214-257 | Every step keeps: an upload in place, and an acknowledged one, stand while their lease is current, a shown job is delivered, and where uploads never clashed nobody but the owner is writing |
| `Media.ClearedStep` | gateway/src/artifacts/cleanup.ts:42-47 | What a pass removed does not come back, if no upload of the job was in progress then |
| `Uploads.OrderlyMove` | gateway/src/artifacts/store.ts:58-88 | Where uploads of a job never clash they come one at a time, and the part file is always exactly what its one upload has sent |
| `Uploads.FileMove` | gateway/src/artifacts/store.ts:58-88 | Where uploads of a job never clash, only a rename changes its file, and to the whole body of the upload renamed |
| `Seats.StepSeats` | gateway/src/scheduler/waiters.ts:17-48 | Every step moves the phases of the polls exactly as the waiters' own signals move their tickets: parked polls sit on waiting tickets, woken ones on tickets settled with true, and no seat is shared |
| `Handlers.CreateTakesAStep` | gateway/src/routes/videos.ts:279-293 | Create and its kick are one step, for the table and for the parked polls |
| `Handlers.DeleteTakesAStep` | gateway/src/routes/videos.ts:325-348 | A DELETE is a step |
| `Handlers.PollTakesAStep` | gateway/src/routes/agent.ts:97-163 | A poll that decided as the handler promises is a poll step, with the same table, notices, slots, assignments and parking |
| `Handlers.PollTakesASeat` | gateway/src/routes/agent.ts:154-163 | and its ticket, or the lack of one, is the poll's seat |
| `Handlers.ResumeTakesAStep` | gateway/src/routes/agent.ts:162-165 | A woken poll has a ticket settled with true, and its claims are a resume step with the same answer |
| `Handlers.TimeOutTakesAStep` | gateway/src/scheduler/waiters.ts:33-34 | A timeout or an abort of a parked poll's ticket is a timeout step of that poll and of no other |
| `Handlers.BeginTakesAStep` | gateway/src/routes/agent.ts:217-233 | An upload up to its first await is an arrival step, turned away or let in |
| `Handlers.EndTakesAStep` | gateway/src/routes/agent.ts:247-255 | and what follows its last await is the step that acknowledges it |
| `Handlers.UploadTakesSteps` | gateway/src/artifacts/store.ts:58-88 | An upload nothing interferes with, taken by the handler's own contract as one, is a walk of arrival, open, write, rename and acknowledgement that ends in the same table, files and answer |
| `Handlers.ResultTakesAStep` | gateway/src/routes/agent.ts:275-347 | A result is a result step and, when it settled without a requeue, the later kick |
| `Handlers.SweepTakesAStep` | gateway/src/scheduler/reaper.ts:35-87 | A sweep that did what the method promises is a sweep step, kick included |
| `Handlers.RecoveryTakesAStep` | gateway/src/db/jobs.ts:349-363 | Recovery at startup is a restart step that leaves nobody parked |
| `Handlers.CleanupTakesSteps` | gateway/src/artifacts/cleanup.ts:32-80 | An undisturbed cleanup pass is a walk of listing, removing, clearing, stray and purge steps that ends in the same table and files |
| `AgentHandlers.SendTakesAStep` | agent/src/nidora_agent/client.py:92-101 | The agent's report of what it holds is a poll the protocol lets it send |
| `AgentHandlers.ReceiveTakesAStep` | agent/src/nidora_agent/client.py:115-143 | Flagging and starting as the agent does is the protocol's receipt of the answer: same jobs, leases and flags |
| `AgentHandlers.DropTakesAStep` | agent/src/nidora_agent/client.py:154-156 | Forgetting a job is a drop step |
| `AgentHandlers.RunIsHonest` | agent/src/nidora_agent/runner.py:80-141 | Whatever a run of the runner reports, with the gateway's real answers to its uploads, the protocol lets the agent report: a success only of a body the gateway acknowledged, a cancel only when told |
| `AgentHandlers.RunTakesAStep` | agent/src/nidora_agent/runner.py:80-141 | so the end of a run is a finish step |
| `Store.JobStore.ListByPod` | gateway/src/db/jobs.ts:171-176 | Exactly the pod's rows in progress, oldest first |
| `AgentRoutes.Poll` | gateway/src/routes/agent.ts:97-163 | The poll up to its await: renewals, orphans, cancels, slots, claims, and whether it parks; its own ticket and every other are as the waiters' signals say |
| `AgentRoutes.BeginUpload` | gateway/src/routes/agent.ts:217-233 | Lets in exactly a safe name, within the declared cap, under the row's lease, and answers 404, 409, 400 or 413 in that order otherwise |
| `AgentRoutes.EndUpload` | gateway/src/routes/agent.ts:247-255 | Refused if and only if a digest was sent that is not the stored one, and then no file of the job is left; otherwise one event, for the pod read on arrival, and the row is not read again |
| `AgentRoutes.Upload` | gateway/src/routes/agent.ts:214-257 | The three parts in sequence with nothing between: which of the six answers is given, each if and only if its condition on the row, the name, the sizes and the digest holds, and what each leaves in table, trail and files |
| `AgentRoutes.Result` | gateway/src/routes/agent.ts:275-347 | From the outcome's own fields: a failure goes back to the queue exactly when the pod calls it retryable and an attempt is left, and otherwise ends the job with the pod's words; a cancel and a success end it as told; an unsafe name or a stale lease changes nothing; every parked poll is woken exactly when it settled |
| `VideoRoutes.CreateAndKick` | gateway/src/routes/videos.ts:279-293 | Inserts the job, then wakes every parked poll; a duplicate id wakes nobody |
| `VideoRoutes.ServeContent` | gateway/src/routes/videos.ts:353-388 | Which of the four answers is given, each if and only if its condition on row, list and file holds, and the bytes and digest it carries; all results about content speak of it |
| `Artifacts.ArtifactStore.WriteArtifact` | gateway/src/artifacts/store.ts:58-88 | Undisturbed, leaves the joined chunks with their count and digest exactly when they are within the cap, and no part file |
| `Cleanups.Cleanup` | gateway/src/artifacts/cleanup.ts:32-80 | One undisturbed pass, from the rows' own fields: which files, lists and rows go, if and only if, that nothing else changed, and how many of each were counted |
| `Cleanups.RemoveOrphans` | gateway/src/artifacts/cleanup.ts:51-69 | Removes exactly the aged directories without a row, and counts them |
| `Probe.WrittenLossy` | gateway/src/domain/probe.ts:87-93 | Writing then probing recovers both 14-bit sides under any scale, zero included |
| `Probe.UsableUnlessLossyZero` | gateway/src/domain/probe.ts:18-20 | For every byte sequence with an answer, both sides are positive if and only if it is not a lossy WebP with its start code and a zero side field |
| `Probe.ZeroWidth` | gateway/src/domain/probe.ts:87-93 | Such a file: written with width zero, it is probed as width zero |
| `Frames.DerivedIsAccepted` | gateway/src/routes/videos.ts:202-223 | Deriving a size from any probed image throws if and only if the image is that one, and otherwise yields a size `checkSize` accepts and bills as asked |
| `Frames.ThrowsExactly` | gateway/src/routes/videos.ts:188-256 | Submission throws uncaught if and only if the image is that one, within the size limit, and the size is left to the gateway |
| `Behaviours.AgentsNeverOverloaded` | agent/src/nidora_agent/client.py:74-143 | At every moment of every run the jobs an agent holds under leases the gateway still honours are at most its `max_in_flight`, with lost, repeated and reordered polls and re-claims of its own jobs |
| `Behaviours.LeasesStartOnce` | agent/src/nidora_agent/client.py:136-143 | No agent is ever handed a lease under which anyone has already worked; the leases of one answer are distinct |
| `Behaviours.NobodyCancelledUnasked` | gateway/src/routes/agent.ts:318-323 | In every run a cancelled job carries a recorded client request, although agents stop orphaned work through the same flag |
| `Behaviours.DeadlineIsFinal` | gateway/src/scheduler/reaper.ts:63-75 | In every run the first sweep after a job's deadline leaves it finished for good |
| `Behaviours.LostForGood` | gateway/src/routes/agent.ts:129-139 | In every run a lease that was issued and is not current never becomes current again |
| `Behaviours.StoreIsLegal` | gateway/src/db/jobs.ts:178-311 | At every moment of every run the table is the outcome of legal statements: rows are well formed, trails replay to rows, at most one terminal write landed on a job, and it changed status at most 2M times |
| `Behaviours.RunTellsEpochs` | gateway/src/db/jobs.ts:184-301 | Every statement of every run is, for every job, one step of the single-owner story |
| `LeaseClock.LatePollKeeps` | gateway/src/routes/agent.ts:129-139 | A poll that arrives before the sweep keeps its leases, however late it is, for one more lease time |
| `Behaviours.SysStep` | gateway/src/routes/agent.ts:97-188 | The invariants behind the results above are kept by every step: create, delete, poll, park, wake, time out, upload, result, sweep, restart, cleanup, drain and every agent step |
| `Custody.RoomyStep` | gateway/src/scheduler/claim.ts:33-36 | Every step keeps, for every arrival of a poll, what the pod rightly held when it asked plus what it is offered or given within its room |
| `Custody.NeverStarted` | agent/src/nidora_agent/client.py:136-143 | Whatever an agent receives was granted by that very arrival and by no other, and has never been started |
| `CancelHonesty.HonestStep` | gateway/src/routes/agent.ts:141-151 | Every step keeps: an orphan notice names a lease that is gone, a cancel notice a job whose cancel is recorded, and a flagged task one or the other |
| `Runs.StepLegal` | gateway/src/routes/agent.ts:97-188 | Each step of the protocol issues only statements that meet the store's preconditions |
| `Behaviours.ReportsAreDecided` | gateway/src/routes/agent.ts:275-347 | In every run, what a result under the current lease makes of its job: queued again if and only if it is a failure the pod calls retryable with an attempt left, failed otherwise with the pod's words, cancelled on an acknowledged cancel, completed on a success with exactly the one artifact told; no other row changes |
| `Behaviours.SweepsDecide` | gateway/src/scheduler/reaper.ts:35-87 | In every run, what a sweep makes of each row, from its own state, expiry, attempts, deadline and cancel mark |
| `Behaviours.HeartbeatsLand` | gateway/src/routes/agent.ts:124-146 | In every run, an arriving poll that reports a job under its current lease gives it one more lease time, the told progress if it is a fraction, and the told upstream id if there is one, and changes nothing else of it |
| `Behaviours.DrainingIs` | gateway/src/db/pods.ts:120-126 | A pod is draining if and only if an order to drain it came and none to resume after it |
| `Behaviours.DrainedGetsNothing` | gateway/src/scheduler/claim.ts:33-36 | In every run, an arriving poll of a draining pod, or of one not ready, is answered at once and with nothing |
| `Behaviours.DrainedIsGivenOnlyParked` | gateway/src/routes/agent.ts:157-166 | In every run, a draining pod is handed work only by a poll that arrived before it was draining and was woken after |
| `Sleepers.DrainedWhileParked` | gateway/src/routes/agent.ts:157-166 | That does happen: a run in which a poll parks, its pod is drained, a job arrives, and the pod is handed it |
| `DownloadWindows.OldIsListed` | gateway/src/db/jobs.ts:366-373 | In every run a pass lists exactly the finished jobs past their lifetime that still list media, and until a restart may remove and clear each of them at any later moment |
| `DownloadWindows.RemovedIsExpired` | gateway/src/artifacts/cleanup.ts:42-47 | Once a completed job's files are removed it is answered as expired, and once its list is cleared it is so for good |
| `DownloadWindows.PurgedIsGone` | gateway/src/db/jobs.ts:376-388 | A purge takes a row if and only if it finished longer ago than it is to be kept, and for good |
| `DownloadWindows.WindowCloses` | gateway/src/artifacts/cleanup.ts:42-71 | The converse of `WindowIsKept`: a completed job past its lifetime when a pass lists it is answered as expired from the removal of its files on |
| `Reaper.SweepDecides` | gateway/src/scheduler/reaper.ts:35-87 | The row after a sweep, in literal fields, through all three passes |
| `Reaper.SweepCounts` | gateway/src/scheduler/reaper.ts:35-87 | What each counter of a sweep counts, as sets of the rows it found |
| `Reaper.SweepTells` | gateway/src/scheduler/reaper.ts:35-87 | Which events a sweep writes to a job's trail, in order |
| `AgentRoutes.HeartbeatNext` | gateway/src/routes/agent.ts:124-146 | Each report in turn: what it extends, and that any other report changes nothing |
| `AgentRoutes.StillOwnedAre` | gateway/src/routes/agent.ts:124-146 | Which reported jobs are still the pod's |
| `AgentRoutes.OrphansNext` | gateway/src/routes/agent.ts:139-142 | The orphans are listed report by report: exactly those naming a job that is not in progress under that lease |
| `AgentRoutes.PollMeans` | gateway/src/routes/agent.ts:97-163 | A poll's decision from the table it found: the cancels passed on, the slots offered, and which jobs of the window are handed out in which order |
| `Claims.HandedOutAre` | gateway/src/scheduler/claim.ts:77-101 | Job `j` of the window is handed out, as the one after all that match before it, exactly if the slots reach that far |
| `Claims.ClaimsAre` | gateway/src/db/jobs.ts:184-195 | Each assigned row after the loop, in literal fields |
| `AgentSide.RanMeans` | agent/src/nidora_agent/runner.py:80-141 | How a run ends, from the outside events alone: the input, the local server's first telling look, and the download |
| `AgentSide.RanByCodes` | agent/src/nidora_agent/runner.py:159-204 | How a run ends once the rendered bytes are in hand, from the codes of the upload attempts, retry flag included |
| `Frames.FrameIsChosen` | gateway/src/routes/videos.ts:188-256 | The handler's whole answer for every image and size field, from the image's bytes and the field's text: what is refused, at which resolution a frame is derived, which explicit sizes are taken and how they are billed |
| `SizeChecks.MatchExactly` | gateway/src/domain/sizing.ts:58-61 | Read as a size is exactly two runs of two to five digits around one `x` |
| `SizeChecks.TrimIs` | gateway/src/domain/sizing.ts:58-58 | Trimming takes whitespace at both ends, all of it, and nothing else |
| `SizeChecks.BucketsAre` | gateway/src/domain/sizing.ts:15-35 | The two buckets in pixels |
| `Probe.FrameMarkers` | gateway/src/domain/probe.ts:60-63 | The thirteen start-of-frame markers |
| `Probe.WalkGivesUp` | gateway/src/domain/probe.ts:47-66 | After any segments, the walk gives up at the start of a scan, at a length below two, and where the file ends before the frame's size |
| `Probe.PngExactly` | gateway/src/domain/probe.ts:25-32 | Which byte sequences are answered as PNG, byte by byte |
| `Probe.WebpExactly` | gateway/src/domain/probe.ts:79-109 | Which byte sequences are answered as WebP, byte by byte |
| `Probe.TopBitsAreDropped` | gateway/src/domain/probe.ts:81-86 | Setting the top bit of any byte of a tag changes no answer |
| `Artifacts.SafeNames` | gateway/src/domain/filenames.ts:20-37 | What is accepted as a name, and that it is a name in its own directory |
| `Uploads.MovesAre` | gateway/src/artifacts/store.ts:58-88 | What opening, writing, renaming and breaking off do to part file, file and the streams that have them open |
| `Uploads.OverlayAt` | gateway/src/artifacts/store.ts:78-84 | A write changes exactly the bytes it covers |
| `TableInvariant.Step` | gateway/src/db/jobs.ts:104-311 | Row well-formedness, the trail's agreement with the row and lease uniqueness are inductive; a statement only moves jobs forward |
| `TableInvariant.Run` | gateway/src/db/jobs.ts:104-388 | The same over every run of legal statements |
| `History.FinishedForGood` | gateway/src/db/jobs.ts:217-301 | A finished row keeps every field but its artifact list until it is purged, and the id never comes back |
| `History.OneTerminalWrite` | gateway/src/db/jobs.ts:217-301 | At most one terminal write lands on a job in any run |
| `History.ChangesBounded` | gateway/src/db/jobs.ts:184-260 | The rank pays for every status change; a job makes at most 2M of them |
| `History.TrailTellsRow` | gateway/src/db/jobs.ts:392-396 | Replaying a job's trail gives its status, attempts, pod and lease; assigned minus requeued is 0 or 1; one final event exists exactly when the row is finished |
| `History.LiveRowsStay` | gateway/src/db/jobs.ts:376-388 | No statement drops the row of a live job |
| `Replay.ReplayCounts` | gateway/src/db/jobs.ts:392-396 | What the counts of assigned, requeued and final events in a readable trail must be |
| `Epochs.Refines` | gateway/src/db/jobs.ts:184-301 | Every legal statement is, for every job, a step of a story of single-owner epochs, in which only the last owner's lease finishes the job |
| `Epochs.RunRefines` | gateway/src/db/jobs.ts:184-301 | The refinement at every statement of every run from the empty store |
| `Epochs.RunEpochs` | gateway/src/db/jobs.ts:184-195 | In every run all epochs of all jobs have distinct leases |
| `Epochs.OwnerIsLastEpoch` | gateway/src/db/jobs.ts:184-195 | The trail's last epoch is the row's owner, and there is one epoch per attempt |
| `Store.JobStore.constructor` | gateway/src/db/jobs.ts:99-100 | Starts empty |
| `Store.JobStore.Create` | gateway/src/db/jobs.ts:104-115 | Inserts a queued row and its event; a duplicate id is refused and changes nothing |
| `Store.JobStore.ListQueued` | gateway/src/db/jobs.ts:137-142 | The oldest queued rows up to the limit: each once, by age, and none left out that is older |
| `Store.JobStore.Claim` | gateway/src/db/jobs.ts:184-195 | Compare-and-swap from queued; its answer is whether the row was queued |
| `Store.JobStore.RenewLease` | gateway/src/db/jobs.ts:198-215 | Extends the lease exactly when it is current |
| `Store.JobStore.Complete` | gateway/src/db/jobs.ts:217-228 | Completes exactly under the current lease |
| `Store.JobStore.Fail` | gateway/src/db/jobs.ts:230-242 | Fails under the current lease, or any live row when the gateway acts for itself |
| `Store.JobStore.Requeue` | gateway/src/db/jobs.ts:248-260 | Returns a row in progress to the queue, keeping its cancel mark |
| `Store.JobStore.CancelQueued` | gateway/src/db/jobs.ts:263-272 | Cancels a queued row |
| `Store.JobStore.RequestCancel` | gateway/src/db/jobs.ts:280-289 | Marks a row in progress, keeping an earlier mark |
| `Store.JobStore.MarkCancelled` | gateway/src/db/jobs.ts:291-301 | Cancels a row in progress, under its lease or for the gateway |
| `Store.JobStore.SetArtifacts` | gateway/src/db/jobs.ts:303-307 | Replaces the artifact list |
| `Store.JobStore.ExpiredLeases` | gateway/src/db/jobs.ts:316-323 | Exactly the rows in progress whose expiry lies before now |
| `Store.JobStore.Overdue` | gateway/src/db/jobs.ts:326-331 | Exactly the live rows past their deadline |
| `Store.JobStore.StaleCancels` | gateway/src/db/jobs.ts:334-341 | Exactly the rows in progress with an older cancel |
| `Store.JobStore.FinishedJobs` | gateway/src/db/jobs.ts:366-373 | Exactly the finished rows that still list artifacts |
| `Store.JobStore.RecoverOnStartup` | gateway/src/db/jobs.ts:349-363 | Resets the expiry of every row in progress, notes it, and counts them |
| `Store.JobStore.PurgeBefore` | gateway/src/db/jobs.ts:376-388 | Drops exactly the rows finished before the cutoff with their trails, and counts them |
| `Store.JobStore.AddEvent` | gateway/src/db/jobs.ts:392-396 | Appends to the job's trail |
| `Claims.FreeSlots` | gateway/src/scheduler/claim.ts:33-36 | Slots are offered exactly when the pod is ready, not draining and below its room, and then fill it |
| `Claims.ClaimForPod` | gateway/src/scheduler/claim.ts:77-101 | Hands out exactly the first min(slots, matches) jobs of the pod's model in the window, each under its own fresh lease |
| `Claims.ClaimsLand` | gateway/src/scheduler/claim.ts:93-97 | Exactly the assigned rows change, each to the claimed form; every other row is as it was |
| `Claims.StillQueued` | gateway/src/scheduler/claim.ts:94-96 | The compare-and-swap of the loop cannot lose: nothing ran since the window was read |
| `Claims.PositionsFall` | gateway/src/db/jobs.ts:145-151 | With one model queued and distinct creation times, every job left behind moves up by exactly the number claimed |
| `Parking.SettlesOnce` | gateway/src/scheduler/waiters.ts:23-30 | A settled waiter keeps its verdict whatever comes later |
| `Parking.WokenOnlyByKick` | gateway/src/scheduler/waiters.ts:17-48 | A waiter is woken if and only if a kick reached it while parked, before its timeout, abort or refusal |
| `Parking.Waiters.Wait` | gateway/src/scheduler/waiters.ts:17-41 | Parks exactly when the window is open; the waiting set stays the parked and unsettled tickets |
| `Parking.Waiters.Finish` | gateway/src/scheduler/waiters.ts:23-30 | Settles a ticket once |
| `Parking.Waiters.OnTimeout` | gateway/src/scheduler/waiters.ts:34-34 | A timeout settles a waiting ticket with false, and is ignored otherwise |
| `Parking.Waiters.OnAbort` | gateway/src/scheduler/waiters.ts:33-33 | An abort does the same |
| `Parking.Waiters.Kick` | gateway/src/scheduler/waiters.ts:44-48 | Wakes every parked poll and nobody else |
| `Reaper.Sweep` | gateway/src/scheduler/reaper.ts:35-87 | Three passes, each over a listing of what the one before left, with exact counters; a kick exactly when something was requeued |
| `Reaper.SweepTidies` | gateway/src/scheduler/reaper.ts:35-87 | After a sweep no lease is expired, no live job is late, no cancel is older than the grace; rows not late are untouched |
| `Reaper.SweepTwice` | gateway/src/scheduler/reaper.ts:35-87 | A second sweep at the same moment changes nothing and returns zeros |
| `Reaper.SweepConserves` | gateway/src/scheduler/reaper.ts:35-87 | Live jobs after are live jobs before less `failed` less `cancelled`, though one job may be requeued and failed in one sweep |
| `Reaper.SweepLegal` | gateway/src/scheduler/reaper.ts:35-87 | A sweep is a legal run of statements |
| `Reaper.EndLease` | gateway/src/scheduler/reaper.ts:41-60 | One turn of the lease pass fails or requeues its job and counts it once |
| `Reaper.SweepLeases` | gateway/src/scheduler/reaper.ts:41-61 | The lease pass: every expired lease is failed at the cap or requeued, and the counters add up |
| `Reaper.SweepDeadlines` | gateway/src/scheduler/reaper.ts:65-75 | The deadline pass |
| `Reaper.SweepCancels` | gateway/src/scheduler/reaper.ts:78-83 | The cancel pass |
| `AgentRoutes.ResumePoll` | gateway/src/routes/agent.ts:162-165 | The poll after its await: claims with the slots it parked with if woken, nothing otherwise |
| `AgentRoutes.RenewReports` | gateway/src/routes/agent.ts:124-146 | The heartbeat loop: orphans in order, cancels and owned jobs exactly as the leases decide |
| `AgentRoutes.RenewalsLand` | gateway/src/routes/agent.ts:129-139 | Renewals extend exactly the current leases, and change nothing but expiry, progress and upstream id |
| `AgentRoutes.AddForgottenCancels` | gateway/src/routes/agent.ts:148-151 | Adds the cancelled jobs the gateway counts as the pod's and the pod did not report |
| `AgentRoutes.ResultIsFenced` | gateway/src/routes/agent.ts:281-286 | A result lands if and only if its lease is current, answers the status the row then has, and touches no other row |
| `VideoRoutes.Delete` | gateway/src/routes/videos.ts:325-348 | Cancels a queued job, marks a running one without moving an earlier mark, refuses a finished or unknown one and then changes nothing |
| `VideoRoutes.DeleteMarks` | gateway/src/routes/videos.ts:325-346 | A DELETE is legal, ends a queued job, marks a running one under the same lease without moving an earlier mark, and leaves a finished one alone |
| `VideoRoutes.ResponseIsHonest` | gateway/src/domain/serialize.ts:21-49 | Every response carries the row's own id, model, status, size, seconds, pod and attempts, rounds progress to the nearest percent and times down to seconds, counts the older queued jobs, and shows finish time, expiry and error exactly when its status says so |
| `Artifacts.ArtifactStore.RemoveJob` | gateway/src/artifacts/store.ts:112-117 | Removes the job's files and no others |
| `Cleanups.ExpireMedia` | gateway/src/artifacts/cleanup.ts:42-47 | Removes the files and empties the list of exactly the expired jobs |
| `Cleanups.CleanupRows` | gateway/src/artifacts/cleanup.ts:32-80 | A pass is legal, drops no live row, and empties exactly the expiring lists |
| `AgentSide.UploadWithRetry` | agent/src/nidora_agent/runner.py:159-204 | From the codes: exhausted if and only if every attempt went unanswered or got 500 or more; otherwise the first other answer decides, 409 as a lost lease, below 300 as uploaded, the rest as rejected |
| `AgentSide.ReportWithRetry` | agent/src/nidora_agent/client.py:158-187 | From the codes: given up if and only if none of three attempts got 409 or less than 300; otherwise the first that did decides |
| `AgentSide.WaitForVideo` | agent/src/nidora_agent/runner.py:101-110 | The first look that finds the server done or the cancel flag set decides; with none the run times out; progress rises and stays at most 0.9 |
| `AgentSide.RunJob` | agent/src/nidora_agent/runner.py:80-141 | How each answer of the input fetch, the local server and the upload ends the run, with its retry flag; a success is reported only after the gateway took the very bytes whose digest is reported; a lost lease is never reported |
| `AgentSide.Agent.InFlight` | agent/src/nidora_agent/client.py:92-101 | The report names every held job exactly once, under its lease, with its progress and upstream id |
| `AgentSide.Agent.Flag` | agent/src/nidora_agent/client.py:118-128 | Sets the flag of exactly the held jobs named |
| `AgentSide.Agent.Start` | agent/src/nidora_agent/client.py:136-143 | A job already held is not started again and keeps its lease |
| `AgentSide.Agent.Receive` | agent/src/nidora_agent/client.py:115-134 | Flags exactly the held jobs the answer orphans or cancels, then starts what is new, unflagged |
| `AgentSide.Agent.Drop` | agent/src/nidora_agent/client.py:154-156 | Forgets the job |
| `AgentSide.StartAllHolds` | agent/src/nidora_agent/client.py:136-143 | Starting never replaces a held job and holds nothing but what was held or given |
| `Sizing.FitIsRenderable` | gateway/src/domain/sizing.ts:76-91 | For every positive image the frame is 16-aligned, at least one macroblock, within the longest side and the pixel budget despite rounding up, and no side is over 15.5 pixels short of the scaled image |
| `Sizing.SidesFit` | gateway/src/domain/sizing.ts:81-88 | The scaled sides keep the image's proportions, exceed neither budget nor limit, and meet one of them exactly |
| `Sizing.AlignedWithinBudget` | gateway/src/domain/sizing.ts:37-39 | Aligning two acceptable sides cannot exceed the budget |
| `Sizing.NoSuchFactors` | gateway/src/domain/sizing.ts:13-35 | The products that rounding could reach above the budgets have no factors within the limits |
| `Sizing.FitIsLong` | gateway/src/domain/sizing.ts:85-88 | A 720p fit has a side of at least 960, so it cannot fall into the 480p bucket |
| `SizeChecks.FitPassesCheck` | gateway/src/domain/sizing.ts:54-91 | `checkSize` accepts every derived size, returns the same text and bills it as the resolution it was derived for |
| `SizeChecks.CheckedFrames` | gateway/src/domain/sizing.ts:54-74 | Accepted are exactly the well-formed 16-aligned frames that fit an allowed bucket, each billed as the first it fits |
| `SizeChecks.CheckAgain` | gateway/src/domain/sizing.ts:58-70 | Checking an accepted size again changes nothing, if and only if neither side is zero |
| `SizeChecks.ZeroIsAccepted` | gateway/src/domain/sizing.ts:58-69 | `00x00` is accepted and printed as `0x0` |
| `SizeChecks.MatchPrinted` | gateway/src/domain/sizing.ts:58-61 | A printed size is read back as itself exactly when each side has two to five digits |
| `Probe.ProbeJpeg` | gateway/src/domain/probe.ts:39-73 | The in-place walk computes the recursive walk, reads in bounds and terminates |
| `Probe.AnswerIsAFrame` | gateway/src/domain/probe.ts:42-70 | On arbitrary bytes any answer is the nonzero size field of a start-of-frame marker in the input |
| `Probe.WrittenJpeg` | gateway/src/domain/probe.ts:39-73 | Any JPEG written with any list of segments before its frame header is probed as exactly that header's size |
| `Probe.WrittenPng` | gateway/src/domain/probe.ts:25-32 | Writing then probing recovers every 32-bit width and height, and refuses exactly a zero side |
| `Probe.WrittenLossless` | gateway/src/domain/probe.ts:95-99 | Writing then probing recovers every 14-bit width and height whatever the top bits, exactly when 30 bytes are there |
| `Probe.SignIsMasked` | gateway/src/domain/probe.ts:98-98 | The signed shift of a 32-bit word, masked to 14 bits, is the unsigned field |
| `Probe.WrittenExtended` | gateway/src/domain/probe.ts:101-106 | Writing then probing recovers every width and height up to 2 to the 24 |
| `Probe.ProbeDimensions` | gateway/src/domain/probe.ts:18-20 | Answers exactly when one of the formats does, with its answer |
| `Probe.OneFormatOnly` | gateway/src/domain/probe.ts:18-20 | At most one format answers, so the fallback order never changes the answer |

## Left out

- Behaviours.ContentIsGenuine: one way only. Clashing uploads may also end well, since it depends on their bytes
  and on the order in which they write; `Torn` shows that they need not.
- Protocol.Step: the orphan directory check and its removal are one step, and the age gate is not modelled there
  (`Cleanups.RemoveOrphans` has it); the kick that follows an awaited input removal is a separate step; agents
  upload under the one name `output.mp4`.
- Sizing.FitSize: floating-point error; the square root is given by its defining equation over the reals.
- Store.JobStore.AddEvent: one trail per job instead of one global order; timestamps and detail texts are dropped,
  except the lease in an assignment. In `Protocol` the event of an upload that ends after its row was purged is
  dropped, where the source keeps an event no row refers to.
- Error texts that carry counts or durations are shortened.
- Input images: writing, serving, and their lifetime, which differs by path.
- The pod registry, readiness and its outcome counters, and which model a pod serves. The claim loop's skip of a
  job whose model is not in the catalogue never takes effect, since the pod's model comes from that catalogue.
- Listing, counting, admission and parameter checks of `POST /v1/videos`; queue depth is not bounded by the code.
- HTTP, authentication, configuration, logging, error envelopes, the SQL text and its migrations.
- Failures of file removal, path resolution, and filename security beyond the name predicate.
- The local generation server: any sequence of its answers.
- Backoff times and jitter.
