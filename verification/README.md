# Download service: models and proofs

The service takes file downloads from Telegram users, queues them as durable jobs, hands the jobs to
workers under leases, accounts for everything in quota ledgers, and delivers the files over counted
links. This project models the parts of it in which state machines, arithmetic and recovery meet,
and proves what they guarantee over every sequence of transactions.

- **Job protocol** (`JobModel`, `JobProtocol`, `JobInvariant`, `JobSystem`, `JobHistory`,
  `ProtocolTheorems`, `MessageFencing`, `Handover`, `Leases`, `Completions`, `Endings`, `Children`,
  `Schedules`). Every database transaction is one atomic step on the committed rows; an exception
  rolls it back. Steps come in any order and interleaving, with any duplicated or invented worker
  call, any lease token, any outcome of the message stream and any clock reading. One invariant
  holds of every reachable state; what can never be undone is a second, transitive relation between
  states.
- **Dispatcher** (`Dispatcher`, `Fairness`, `Background`, with `FloorDivision`). Lane choice, aged
  priority, selection, bounded waiting, and the rotating batch loop.
- **Quota ledger** (`QuotaWindows`, `QuotaLedger`, `JobTotals`, `QuotaTheorems`, `CrossWindow`,
  `HoldTimes`, `Admissions`, `QuotaLimits`). Reservations in hourly, daily, weekly and lifetime
  buckets, and what ties them to the jobs.
- **The services as they work** (`Sessions`, `QuotaService`, `AdmissionService`,
  `DispatcherService`, `WorkerControl`, `Background`). The same operations as methods that change
  rows in place inside an open transaction, each proved to leave exactly what the transaction
  function says, so the theorems about the functions are theorems about them. `QueuePosition` is the
  rank told to a user.
- **Log ingestion** (`LogReader`, `UsageCollector`, `UsageTheorems`, `UsageProgress`,
  `UsageAnswers`). A resumable reader and an idempotent collector, against a plain fold over the
  log.
- **Settings** (`Settings`, `SettingsAnswers`) and **duration texts** (`Scanning`, `Durations`,
  `DurationTheorems`, `DurationDigits`, `DurationLimits`), whose sums are decimals of 28 digits
  (`Decimals`, `RoundedSums`).
- **Download links** (`Downloads`, `DownloadAnswers`).

Instants are microseconds, identifiers are positions, digests and tokens are opaque numbers. A job's
rows from all tables are kept together as its dossier; only the bucket table is shared. A query with
a limit that skips locked rows is an arbitrary page of qualifying rows. Users submit downloads only,
as both callers of admission do (app/bot/handlers/user.py:139-198), under keys of their own, and
reported byte counts are not negative, as the worker request schemas demand
(app/api/schemas/workers.py:35-137).

Some promises turn out to hold only under a condition, which is proved exactly:

- Duration texts joined together do not always stand for the sum of their values. White space other
  than blanks at the joint makes the parser reject the joined text (`TabRejected`), and sums are
  rounded to 28 digits, so a second can get lost (`SecondLost`) and a fraction can be accepted
  (`FractionLost`). What the parser answers is stated for all texts (`JoinAnswer`). It is the exact
  sum whenever the texts have at most 23 digits between them and only blanks at the joint; with 24
  digits it no longer always is (`AdditiveIff`, `ExactIff`). For one part added at the end the
  condition is exact in each case: blanks alone, and a sum of at most 28 digits before its zeros
  (`JoinedPartIff`).
- The log reader always gets past a position eventually, unless the next 64 KiB hold no newline;
  then nothing appended to the file ever unblocks it (`StuckIffTooLong`, `SomeStuckFile`). Without
  such a line the collector records a log to its last complete line (`CollectorCatchesUp`); behind
  one it records nothing more (`CollectorBlocked`).
- A worker with a valid lease may end its job exactly when its message is the one the job's last
  notice was published under, and no earlier one was (`TurnedAwayIff`). If a publication reaches the
  stream but does not commit, the worker that takes up the first message is turned away for good
  (`StrandedForever`).

## Model

| member | source | states |
|---|---|---|
| QuotaWindows.WindowsTile | app/services/quota.py:68-85 | every hourly, daily or weekly window holds its instant, and two instants share a window exactly when one lies in the other's: windows of a kind tile time |
| QuotaWindows.WindowsNest | app/services/quota.py:68-85 | the hour lies in the day and the day in the week |
| QuotaWindows.WeekHoldsItsDays | app/services/quota.py:68-85 | a week consists of exactly the seven daily windows that start in it |
| QuotaWindows.DayHoldsItsHours | app/services/quota.py:68-85 | a day consists of exactly the twenty-four hourly windows that start in it |
| QuotaLedger.ReserveEffect | app/services/quota.py:311-372 | reserving adds exactly the specified open rows, moves each bucket by what its rows moved, and passes no limit |
| QuotaLedger.TopUpEffect | app/services/quota.py:433-472 | a top-up raises the open byte reservations to the required size, leaves all other rows, and passes no limit |
| QuotaLedger.SettleEffect | app/services/quota.py:374-431 | reconciling closes every open row with its charge, returns the rest of the hold, and moves buckets by exactly that |
| QuotaLedger.SettleSucceedsIff | app/services/quota.py:399-412 | reconciling raises exactly when an open row lost its bucket or is charged more than it holds |
| QuotaLedger.SettleRecords | app/services/quota.py:416-430 | the usage records written are those of the rows closed with a charge |
| QuotaLedger.RecordsMatchSpending | app/services/quota.py:416-430 | usage records debit each bucket by exactly what the rows consumed from it |
| QuotaLedger.TouchEffect | app/services/quota.py:89-112 | touching makes exactly the open rows expire four hours from now and moves no amount |
| QuotaService.Reserve | app/services/quota.py:261-372 | the loop over buckets and reservations in place; raises exactly for a size out of bounds, too many active jobs or an exhausted window, else leaves the reserved rows |
| QuotaService.ReserveOne | app/services/quota.py:313-370 | one specification: bucket created if missing, checked, raised, reservation added |
| QuotaService.Reconcile | app/services/quota.py:374-431 | the loop over active reservations in place leaves the settled rows, records and buckets |
| QuotaService.ReconcileOne | app/services/quota.py:395-430 | one reservation finalised, its bucket moved, its charge recorded |
| QuotaService.TopUp | app/services/quota.py:433-472 | the loop over byte reservations in place, then the job's size; raises as specified |
| QuotaService.Touch | app/services/quota.py:89-112 | the loop extends exactly the active reservations to four hours from now |
| QuotaService.ReconcileExpired | app/services/quota.py:114-187 | the sweep over job ids in place: leased jobs touched, others closed, and the count of the latter returned |
| QuotaService.ReconcileExpiredJob | app/services/quota.py:138-186 | one job of the sweep, status writes first, and whether it was closed |
| QuotaTheorems.QuotaConserved | app/services/quota.py:261-472 | after any run each bucket's reserved amount is the sum of its open reservations, its committed amount the sum of consumptions and of usage debits, both nonnegative and together within the limit |
| QuotaTheorems.RowConstraintsHold | app/db/models/identity.py:237-249 | every reservation meets the declared amount constraints and sits in the bucket of its admission time |
| HoldTimes.HoldsOutlastAdmission | app/db/models/identity.py:240 | while clocks do not step back, every reservation expires at least four hours after its job was admitted, whatever renewed it |
| QuotaTheorems.UsageKeysUnique | app/services/quota.py:416-430 | no job is debited twice for one bucket |
| QuotaTheorems.ReservationsFollowStatus | app/services/quota.py:114-187 | active jobs have all reservations open; completed, failed and expired ones none; open rows of an ended job occur only on a dead letter whose attempts are used up |
| QuotaTheorems.ClosedOnce | app/services/quota.py:413-415 | a finalised reservation never changes again, whatever follows |
| QuotaTheorems.SweepClearsPage | app/services/quota.py:114-187 | a sweep never raises, leaves the jobs of its page without an expired open reservation and every other job as it was, so that many fewer jobs have one |
| QuotaTheorems.SweepReports | app/services/quota.py:135-187 | the count a sweep returns is the number of jobs on its page that no worker held when it began |
| QuotaTheorems.SweepsFinish | app/services/quota.py:114-187 | repeated sweeps at one instant end with no expired open reservation |
| QuotaTheorems.FailRaisesIff | app/services/quota.py:403-412 | failing a running job raises exactly when the bytes exceed an open ingress reservation |
| QuotaTheorems.CompletionRaisesIff | app/services/quota.py:403-412 | completing a download raises exactly when its size exceeds an open byte reservation |
| QuotaTheorems.CoveredBytesFinish | app/workers/control.py:243-253 | ending a running job with at most its declared or transferred bytes never raises |
| QuotaTheorems.ReportedBytesFinish | app/workers/control.py:243-253 | after an accepted heartbeat reporting b bytes, ending with at most b bytes never raises, at any later point of any run |
| QuotaTheorems.StorageAgrees | app/services/quota.py:301-304 | for a user whose plans set a storage quota, the lifetime bucket has committed exactly the bytes of the files created for that user |
| QuotaLimits.FilesCounted | app/services/quota.py:403-412 | for a user whose plans limit the files per day, the job-count bucket of a day has committed exactly the number of downloads admitted that day that completed |
| QuotaLimits.QuotaNeverExceeded | app/services/quota.py:350-357 | under plans that set a quota between two bounds, each bucket of it has a limit between them and never holds more than the upper one, after any run |
| QuotaLimits.DailyFilesBounded | app/services/quota.py:307-310 | no more downloads of one day complete than the plans allow files per day |
| QuotaLimits.StorageBounded | app/services/quota.py:301-304 | the bytes of the files created for a user never pass the storage quota |
| QuotaLimits.OthersKeepLimits | app/services/quota.py:356 | no transaction but an admission adds a bucket or changes a limit |
| QuotaLimits.ReconcileCharges | app/services/quota.py:403-415 | a success costs one file, its size in storage and its size in ingress; a failure the reported bytes in ingress and nothing else |
| Admissions.AdmissionDecides | app/services/admission.py:38-57 | a request under a new key is denied, violates a constraint, or exceeds its quota exactly in the cases of the plan and settings: the last also when the user is at the plan's number of jobs, or a window of the plan's has committed, reserved and requested more than its quota |
| Admissions.AdmissionTakesQuotas | app/services/quota.py:293-372 | an accepted admission takes its amount from the user's bucket of every quota the plan sets, leaves the plan's limit there and stays within it; no other bucket changes |
| Admissions.AdmissionAddsJob | app/services/admission.py:58-107 | it adds one queued job in the lane of its priority, with its event, its notice and a hold of four hours on every quota of the plan |
| Admissions.ReservesExactly | app/services/quota.py:313-370 | specifications of different buckets are met exactly if each has room in the table as it was |
| Admissions.ActiveAreUnended | app/services/quota.py:277-291 | the jobs counted against the plan are the user's jobs that have not ended |
| CrossWindow.IngressRowsAlike | app/services/quota.py:293-299 | a job's ingress reservations stay equal in amount, state and consumption |
| CrossWindow.ThreeWindowsAlike | app/services/quota.py:293-299 | a job holds, and has consumed, one and the same amount in its hour, its day and its week, and nothing in any other window |
| CrossWindow.WindowsAgree | app/services/quota.py:293-309 | each weekly bucket's committed and reserved totals are the sums over its seven daily buckets, each daily bucket's over its twenty-four hourly ones |
| JobSystem.StepKeeps | app/db/session.py:83-88 | every transaction of the protocol, committed or rolled back, keeps the invariant of all rows and the balance of the ledger |
| JobSystem.RunKeeps | app/db/session.py:83-88 | so does every sequence of transactions, in any interleaving |
| JobSystem.AdmitKeeps | app/services/admission.py:23-107 | admission keeps it |
| JobSystem.DispatchKeeps | app/dispatcher/service.py:43-134 | dispatch never raises and keeps it |
| JobSystem.PublishKeeps | app/dispatcher/service.py:164-212 | publication keeps it, raw leases leaving the rows they are published from |
| JobSystem.ClaimKeeps | app/workers/control.py:106-211 | a claim never raises, keeps it, and never meets an exhausted job: the dead-letter branch is unreachable |
| JobSystem.HeartbeatKeeps | app/workers/control.py:213-271 | an accepted heartbeat keeps it, top-up included |
| JobSystem.CompleteKeeps | app/workers/control.py:273-327 | completion keeps it for all job types |
| JobSystem.CompleteDownloadKeeps | app/workers/control.py:329-407 | completing a download keeps it, children included |
| JobSystem.CompleteMediaKeeps | app/workers/control.py:455-542 | completing media processing keeps it |
| JobSystem.FailKeeps | app/workers/control.py:692-726 | failing keeps it |
| JobSystem.RecoverKeeps | app/background.py:153-208 | recovery never raises and keeps it |
| JobSystem.ExpiryKeeps | app/services/quota.py:114-187 | the expiry sweep never raises on any page and keeps it |
| JobSystem.OpenRowsBacked | app/services/quota.py:396-402 | an open reservation's bucket always exists, so the missing-bucket error never occurs |
| JobInvariant.RecoverSound | app/background.py:175-208 | a recovered job is sound again: queued with an attempt left, or dead letter with none |
| JobInvariant.CompletionPathsAllowed | app/workers/control.py:344-358 | both completion paths consist of allowed transitions from the running status of their job type |
| JobInvariant.MoveAlongConnects | app/workers/control.py:344-358 | logged moves along allowed transitions extend the connected event path to the last status |
| JobInvariant.ReconcileJobSound | app/services/quota.py:138-186 | the sweep of one job never raises and leaves it sound, with no expired hold |
| Schedules.RecoveryEffect | app/background.py:153-208 | every job on the page goes back to its queue as of now while it has an attempt left, and is buried otherwise, without a lease and with both writes logged; no other job changes |
| Schedules.RecoverableIff | app/background.py:153-175 | recovery selects the jobs a worker may have whose lease has ended, the end included |
| Schedules.SweepableIff | app/services/quota.py:123-134 | the sweep selects the jobs with an open reservation that has expired |
| Schedules.PageSwept | app/services/quota.py:114-187 | every job on the page is renewed if a worker has it, else expired from its queue or buried, and charged what it transferred as a failure; no other job changes |
| JobHistory.StepEvolves | app/db/session.py:83-88 | no transaction undoes anything: generations never fall back, logs only grow, endings, closed rows and files stay |
| JobHistory.RunEvolves | app/workers/control.py:728-749 | nor does any sequence of them, so what fences a stale worker off stays in place |
| JobHistory.OnlyAdmissionAdds | app/services/admission.py:58-78 | only admission adds jobs that a user submitted |
| ProtocolTheorems.TriggerNeverRefuses | app/db/migrations/versions/0001_initial_schema.py:1658-1693 | from every reachable state, no status write of any service is refused by the status trigger |
| ProtocolTheorems.SchedulersNeverRaise | app/background.py:116-139 | dispatch, publication, claim, recovery and the sweep never raise |
| ProtocolTheorems.EventsReachStatus | app/workers/control.py:344-358 | a job's events are one connected path of allowed transitions ending at its status, or at failed for a swept dead letter; a running status is the one of the job type |
| ProtocolTheorems.SweptEvents | app/services/quota.py:160-179 | the sweep leaves a leased job dead-lettered with its events at failed |
| ProtocolTheorems.RecoveredEvents | app/background.py:175-208 | recovery logs the status it leaves |
| ProtocolTheorems.AttemptsBounded | app/workers/control.py:130-190 | queued and dispatched jobs have an attempt left; attempts never exceed the limit or the generation, are numbered from one and carry strictly rising generations |
| ProtocolTheorems.DispatchNoticesUnique | app/dispatcher/service.py:118-132 | dispatch notices, children's first ones included, carry strictly rising generations, so deduplication keys never repeat, and hold a raw lease exactly until published |
| ProtocolTheorems.RetryDelays | app/dispatcher/service.py:206-210 | failed deliveries wait two seconds, doubling up to 256; the cap of 300 is never met |
| Handover.DeliverableIff | app/dispatcher/service.py:166-180 | an outbox row is selected while it is unpublished, its time has come, and it was tried fewer than twenty times |
| ProtocolTheorems.RetriesBounded | app/dispatcher/service.py:172-176 | no row is tried more than twenty times without success |
| ProtocolTheorems.StaleCallsIgnored | app/workers/control.py:728-749 | once a generation is over, no call under it ever changes anything, after any run |
| ProtocolTheorems.ExpiredLeaseIgnored | app/workers/control.py:744-747 | a call under an expired lease changes nothing, even before recovery |
| Handover.DispatchHandsOver | app/dispatcher/service.py:85-134 | a dispatch gives the selected job the lease, its end lease_seconds from now, the next generation, and the score it was selected by as priority; it adds one event and one notice, counts the lane, and changes nothing else |
| Handover.DispatchedIsClaimable | app/workers/control.py:106-190 | from a dispatch until its lease ends, a claim under its generation and lease wins |
| Handover.ListedTried | app/dispatcher/service.py:180-212 | publication tries every row it lists once: published under the stream's id and without its lease, or kept for another try |
| Handover.UnlistedLeft | app/dispatcher/service.py:180-212 | and leaves every other row and table as it was |
| Handover.ClaimDecides | app/workers/control.py:106-211 | a claim wins exactly for the dispatched job of that type, generation and lease before the lease ends; it starts an attempt and leaves two minutes to the first heartbeat |
| Handover.ValidatedIsRightful | app/workers/control.py:728-749 | a worker's call is let in exactly for the running job of that generation, lease and type before the lease ends |
| Handover.EndDecides | app/workers/control.py:273-311 | a call to end a job is turned away exactly if it is not rightful, its message is not current, or its result is of another kind |
| Handover.PublishedIsCurrent | app/workers/control.py:751-776 | the message a running job's last notice was published under, if no earlier one was, is its current one |
| Handover.TopUpSucceedsIff | app/services/quota.py:433-472 | a top-up raises exactly when an open byte reservation has lost its bucket or there is no room to raise it |
| Handover.HeartbeatDecides | app/workers/control.py:213-271 | a heartbeat is turned away exactly if it is not rightful, and raises exactly if it reports more bytes than there is room for |
| Handover.HeartbeatEffect | app/workers/control.py:225-262 | an accepted heartbeat leaves two more minutes of lease and four hours of reservations, the percentage between 0 and 100, and the most bytes reported; generation, lease and every other job stay |
| Handover.HeartbeatHoldsJob | app/workers/control.py:229 | for two minutes after it every call under the lease is rightful, and neither recovery nor the sweep takes the job |
| Handover.StatusClasses | app/services/quota.py:28-31 | the active, leased and running statuses, each told by what it excludes |
| Handover.EnteredFrom | app/db/migrations/versions/0001_initial_schema.py:1658-1693 | where the trigger lets a job enter the queue, a dispatch and its completion from |
| Handover.FailedFrom | app/db/migrations/versions/0001_initial_schema.py:1658-1693 | where it lets a job fail from |
| Handover.BuriedFrom | app/db/migrations/versions/0001_initial_schema.py:1658-1693 | where it lets a job expire and be buried from |
| Leases.LeasedLeftAlone | app/background.py:153-208 | no transaction that is not a worker's call on the job itself touches the row of a job whose lease has not ended |
| Leases.OfferStands | app/workers/control.py:106-211 | through any run of transactions before its lease ends, a dispatched job is claimed once or can still be claimed |
| Leases.AttendedJobKept | app/workers/control.py:213-271 | a worker whose heartbeats come less than two minutes apart keeps its job through any run, recovery and the sweep included, until a complete or fail call ends it, once |
| MessageFencing.TurnedAwayIff | app/workers/control.py:728-776 | a call under the valid lease is turned away exactly when its message is not the one the job's last notice was published under, or answers an earlier one, or its result is of another kind |
| MessageFencing.StrandedForever | app/dispatcher/service.py:183-204 | once a notice is published under one id, calls of its generation under any other id change nothing, after any run |
| ProtocolTheorems.ClaimedAtMostOnce | app/workers/control.py:106-211 | each job and generation is claimed at most once in any run |
| ProtocolTheorems.EndsAtMostOnce | app/workers/control.py:273-311 | at most one worker call ends a job in any run |
| ProtocolTheorems.AtMostOneFile | app/workers/control.py:359-378 | a job has a file exactly when it is a completed download, and then one, of its owner and its size |
| Children.DueChildrenAdded | app/workers/control.py:404-592 | after any run, a download that passes its scan adds exactly the due children: an upload if and only if it came from a URL, has a chat and fits the upload limit that is set, and media processing if and only if its file can be played; each with the file, its size, and the parent's user, lane and priorities |
| Children.MediaJobsFinish | app/workers/control.py:455-542 | after any run, a running media job accepts a result exactly if it has the size of the job's file and valid metadata, and marks that file alone |
| Completions.CompletionEffect | app/workers/control.py:344-407 | a download that passes its scan leaves its status, events, charges and one file of its user and size, kept for the retention of its policy, and the due children whose keys are free |
| Completions.RejectionEffect | app/workers/control.py:336-343 | one that does not fails, and adds no job |
| Completions.FailureEffect | app/workers/control.py:692-726 | a failure leaves the most bytes reported and charges them in ingress alone |
| Completions.UploadEffect | app/workers/control.py:595-632 | an upload ends with the size it sent |
| Completions.MediaDecides | app/workers/control.py:455-472 | a media result is accepted exactly if its file is there and available, its size is the file's and its metadata valid |
| Completions.MediaEffect | app/workers/control.py:473-542 | it then ends the job and marks that file and nothing else |
| Endings.FailAnswers | app/workers/control.py:634-657 | an entitled failure ends the job unless its bytes overrun an ingress reservation |
| Endings.UploadAnswers | app/workers/control.py:273-311 | an entitled upload result always ends the job |
| Endings.MediaAnswers | app/workers/control.py:273-311 | an entitled media result ends the job exactly if it is acceptable |
| Endings.CompletionAnswers | app/workers/control.py:273-311 | an entitled download result that passes its scan completes the job unless its size overruns a byte reservation |
| Endings.RejectedAnswers | app/workers/control.py:273-311 | one that does not fails the job, and is accepted all the same |
| ProtocolTheorems.ConcurrencyRespected | app/services/quota.py:277-291 | under plans that allow n jobs, a user's active submitted jobs never exceed n |
| ProtocolTheorems.AdmissionIdempotent | app/services/admission.py:34-37 | a used idempotency key adds nothing, after any run and for any request |
| ProtocolTheorems.AdmissionUsesKey | app/services/admission.py:58-77 | an accepted admission uses up its key |
| Dispatcher.SelectLane | app/dispatcher/service.py:137-158 | the selected job is eligible, no eligible job comes before it, and the earlier id wins a tie |
| Dispatcher.OldestNormal | app/dispatcher/service.py:54-61 | the earliest queue time among normal jobs with an attempt left |
| Dispatcher.Selection | app/dispatcher/service.py:62-87 | a queued job of the type, or none only if there is none in either lane |
| Dispatcher.SelectionIsBest | app/dispatcher/service.py:18-158 | the job taken is first of its lane; a VIP job passes waiting normal ones only below the VIP cap and while none has waited too long, a normal job passes waiting VIP ones only otherwise |
| Dispatcher.RecordedPriorityIsScore | app/dispatcher/service.py:88-90 | the priority recorded at dispatch, from whole seconds, equals the score the query ordered by |
| FloorDivision.DivTwice | app/dispatcher/service.py:88-90 | flooring to seconds and then to aging steps loses nothing against flooring once |
| Fairness.StepQueues | app/dispatcher/service.py:43-134 | in every transaction a job joins a queue only with that instant as queue time, and leaves it only dispatched or expired |
| Fairness.NoOvertaking | app/dispatcher/service.py:146-158 | a normal job queued 99 aging steps later never scores above an earlier one |
| Fairness.SelectionIsRival | app/dispatcher/service.py:18-87 | while a normal job waits, a dispatch takes a VIP job only below the VIP cap, and otherwise a normal job from before the mark |
| Fairness.DispatchSpends | app/dispatcher/service.py:43-134 | every dispatch call of the type uses up one of the calls left |
| Fairness.NoStarvation | app/dispatcher/service.py:18-158 | after 99 aging steps, fewer than (M+1)(a+1) dispatch calls of its type pass while a normal job stays queued, a being the other normal jobs queued at the start |
| Fairness.WaitEnds | app/dispatcher/service.py:18-158 | with that many calls the job has left the queue, dispatched or expired |
| Background.CycleFillsBatch | app/background.py:119-136 | with no arrivals, the batch loop dispatches exactly min(batch, queued jobs) |
| Background.CycleSharesBatch | app/background.py:119-136 | every type gets min(its queue, batch/4), and a type whose queue does not empty at least batch/4 |
| Background.CycleIsRun | app/background.py:119-136 | the cycle is a run of dispatch transactions, so every theorem about runs holds across it |
| Background.DispatchBatch | app/background.py:119-136 | the outer loop computes the specified cycle and its count |
| Background.DispatchRound | app/background.py:121-134 | the inner loop serves the first type in rotation that has work |
| Background.TypeAtIsModulo | app/background.py:118-122 | the rotation is the tuple of types indexed modulo four |
| Background.RecoverExpiredJobs | app/background.py:153-208 | the recovery loop rewrites status, lease and queue time of every job on its page |
| DispatcherService.DispatcherService.DispatchOne | app/dispatcher/service.py:43-134 | one call in place: selection, row changes, notice and lane counter as specified, never raising |
| DispatcherService.DispatcherService.HandOut | app/dispatcher/service.py:88-134 | generation, lease, priority, event, notice and counter of the selected job |
| DispatcherService.PublishBatch | app/dispatcher/service.py:164-212 | the loop publishes or reschedules every row of the page and counts the published ones |
| AdmissionService.CreateJob | app/services/admission.py:23-107 | the job row, reservations, event and notice in order; the same errors for the same inputs; the job that holds the key is returned with its queue position |
| AdmissionService.Enqueue | app/services/admission.py:56-106 | job row, reservations, event and notice of a new job, or one quota error |
| QueuePosition.PositionsRank | app/services/admission.py:154-173 | of two queued jobs of a type the one told the smaller position is exactly the one with higher stored priority, or the same and queued earlier; equal positions are ties |
| QueuePosition.PositionWithin | app/services/admission.py:154-173 | a queued job's position lies between one and the number of queued jobs of its type |
| WorkerControl.Bury | app/workers/control.py:130-151 | a dispatched job without an attempt left becomes a dead letter with its reservations closed |
| WorkerControl.Take | app/workers/control.py:174-202 | status, attempt count, lease and attempt row of a claimed job |
| WorkerControl.Claim | app/workers/control.py:106-211 | the claim transaction in place, rolled back on an exception |
| WorkerControl.Heartbeat | app/workers/control.py:213-271 | the heartbeat transaction in place, rolled back on an exception |
| WorkerControl.Complete | app/workers/control.py:273-311 | the completion transaction in place, rolled back on an exception |
| WorkerControl.Fail | app/workers/control.py:634-657 | the failure transaction in place, rolled back on an exception |
| WorkerControl.CompleteDownloadLocked | app/workers/control.py:329-407 | status path, file, reconciliation and children of a download |
| WorkerControl.CompleteMediaLocked | app/workers/control.py:455-542 | file checks, playability mark, status path of media processing |
| WorkerControl.CompleteUploadLocked | app/workers/control.py:595-632 | status, result and event of an upload |
| WorkerControl.FailLocked | app/workers/control.py:692-726 | status, bytes, event and reconciliation of a failure |
| WorkerControl.ScheduleUpload | app/workers/control.py:545-592 | an upload child only for a URL job with a chat, within the limit, and once |
| WorkerControl.ScheduleMedia | app/workers/control.py:410-452 | a media child only for playable files, and once |
| Sessions.Session.Move | app/db/migrations/versions/0001_initial_schema.py:1658-1693 | a status write and its event, refused exactly when the trigger does not allow it |
| Sessions.Database.End | app/db/session.py:83-88 | leaving a transaction commits its rows, or discards them all after an exception |
| LogReader.ReadCompleteLines | app/usage.py:89-105 | the loop over the file handle returns the specified lines and offset |
| LogReader.ReadLineTells | app/usage.py:95-100 | reading one byte past the limit tells a complete short line from everything else |
| LogReader.SplitIsFaithful | app/usage.py:89-105 | the newline split loses and reorders nothing, and every part has its one newline at the end |
| LogReader.ReadIsSplit | app/usage.py:89-105 | one read returns exactly the newline split of the bytes it moves over |
| LogReader.ReadStops | app/usage.py:93-100 | a read stops short of its limit only where no complete line of at most 64 KiB follows |
| LogReader.ReadsFromStart | app/usage.py:89-105 | successive reads of an append-only file with any limits return the newline split of everything before the offset, which is a line start |
| LogReader.ReadsAreSplit | app/usage.py:89-105 | the same from any offset, no line partial or longer than 64 KiB |
| LogReader.StuckFile | app/usage.py:96-100 | 65536 bytes without a newline block the reader at the start of a file, whatever is appended |
| LogReader.SomeStuckFile | app/usage.py:96-100 | there is such a file |
| LogReader.StuckIffTooLong | app/usage.py:96-100 | no growth of the file moves the reader on exactly when the next 64 KiB hold no newline |
| UsageCollector.Collector.IngestEvents | app/usage.py:168-240 | the loop over events in place: bandwidth row, session counters, egress record, the sessions of the new requests; nothing for a known request |
| UsageCollector.Collector.ReleaseConnections | app/usage.py:241-251 | one connection less per new request, no counter below one, up to a crash |
| UsageCollector.Collector.ConsumeFile | app/usage.py:159-253 | one file of a cycle up to any crash: cursor, page, transaction, released connections, cursor write |
| UsageAnswers.EventDecides | app/usage.py:44-86 | a log line is an event exactly if it is at most 64 KiB, decodes, and has a proper request id, no negative byte count, an HTTP status and a known purpose |
| UsageAnswers.EventEffect | app/usage.py:172-239 | the event of a new request is recorded with a charge for its bytes and counted in its session alone: bytes, one connection less, completed exactly by an unranged answer with the whole file |
| UsageTheorems.CollectorIsFold | app/usage.py:159-253 | over any schedule of writes, rotations, cycles, cursor losses and crashes, the recorded requests of a log are the first occurrences among its committed events, in order |
| UsageProgress.CollectorCatchesUp | app/usage.py:144-166 | while a log does not change and no line ahead of the cursor is too long, as many uncrashed cycles as there are pages of lines record the first occurrences of all its events, with any cycles, crashes and other logs in between |
| UsageProgress.CollectorBlocked | app/usage.py:96-100 | once everything before a line that is too long is recorded, nothing more of the log is until it is rotated |
| UsageProgress.ConnectionsReleasedOnce | app/usage.py:239-251 | each recorded request releases at most one connection, exactly one unless a cycle crashed before its cursor write, and no counter falls below none |
| UsageTheorems.ChargedOnce | app/usage.py:172-236 | each distinct request is charged once, with the bytes of its first occurrence |
| UsageTheorems.BytesAgree | app/usage.py:206-236 | recorded bandwidth equals recorded egress, and the gain of the sessions' byte counters when their rows exist |
| UsageTheorems.ReplayIsIdle | app/usage.py:159-166 | reading again from an earlier line start changes nothing but what lies beyond |
| UsageTheorems.FirstOccurrenceKept | app/usage.py:191-197 | the reference fold keeps every request's first occurrence and no other |
| Settings.HistoryTellsAll | app/core/settings.py:155-168 | over any run: consecutive versions up to the current one, each old value the previous new one, replay gives the current value, and thresholds and lifetimes stay valid |
| Settings.StaleChangesNothing | app/core/settings.py:233-237 | a call that expects another version of any setting it touches raises and changes nothing |
| Settings.OnePerVersion | app/core/settings.py:233-237 | of all updates based on one version at most one is ever accepted |
| Settings.FewerStillValid | app/core/settings.py:155-168 | a valid set of values stays valid when some are left out, so checking a profile with disabled settings included is enough |
| Settings.ProfileStaysValid | app/core/settings.py:328-357 | an accepted profile leaves the enabled settings valid |
| SettingsAnswers.RulesStand | app/core/settings.py:155-168 | over any run the enabled thresholds rise from warning to stop to emergency and the enabled lifetimes stay between a minute and a day |
| SettingsAnswers.SnapshotIs | app/core/settings.py:172-201 | the values that count are those of the enabled settings |
| SettingsAnswers.UpdateDecides | app/core/settings.py:210-252 | an update is a conflict exactly for an outdated version, denied exactly for want of authorization, and accepted exactly if the value also parses and breaks no rule |
| SettingsAnswers.UpdateWrites | app/core/settings.py:253-293 | an accepted update writes the parsed value under the next version, with one history row, and no other setting |
| SettingsAnswers.ProfileDecides | app/core/settings.py:295-342 | a profile is denied exactly for want of authorization, and accepted exactly if all its rows exist, have the expected versions, parse, and break no rule together with the rest |
| SettingsAnswers.ProfileWrites | app/core/settings.py:343-357 | an accepted profile writes each of its rows with its parsed value and next version, and no other |
| Settings.SettingsService.Update | app/core/settings.py:210-293 | an update in place: the specified outcome, and an unchanged state when it raises |
| Settings.SettingsService.ApplyProfile | app/core/settings.py:295-357 | a profile in place, all rows or none |
| DurationTheorems.DurationGrammar | app/core/settings.py:75-85 | the parser answers n exactly for texts spelled as parts with only blanks around them whose rounded total is n |
| Durations.PartIsMatched | app/core/settings.py:39 | the expression matches a whole string exactly when it is digits, an optional fraction, white space and a unit |
| Durations.MatcherIsSane | app/core/settings.py:39 | a match starts with a digit and does not depend on what follows it |
| DurationTheorems.ScaledReadsOnePart | app/core/settings.py:58-85 | where a unit follows the number, the single-unit parser in duration units accepts exactly the durations of one part and reads them the same |
| DurationTheorems.JoinAnswer | app/core/settings.py:75-85 | what the parser answers for two texts joined: nothing if the white space between them is not all blanks, else the first value with the second text's parts added on, rounded |
| DurationTheorems.JoinedPartIff | app/core/settings.py:75-85 | with one part in the second text the answer is the rounded sum; it is the sum exactly when blanks alone lie between and the sum has at most 28 digits before its zeros |
| DurationDigits.FewDigitsExact | app/core/settings.py:82 | a text of at most 23 digits is answered with the exact sum of its parts |
| DurationDigits.JoinIffBlankJoint | app/core/settings.py:75-85 | two accepted texts of at most 23 digits together, joined, give the sum exactly when the white space between them is all blanks, and are rejected otherwise |
| DurationLimits.ExactIff | app/core/settings.py:82 | all texts of up to n digits are answered with exact sums if and only if n is at most 23 |
| DurationLimits.AdditiveIff | app/core/settings.py:75-85 | joining is additive for all texts of up to n digits together if and only if n is at most 23 |
| DurationLimits.ReadsWritten | app/core/settings.py:42-51 | a number written down with a unit is read as its value, rounded to 28 digits |
| DurationLimits.SecondLost | app/core/settings.py:82 | ten to the 28th seconds and one second, joined, are read as ten to the 28th |
| DurationLimits.FractionLost | app/core/settings.py:82-85 | sixty seconds and ten to the minus 29th are accepted as sixty |
| DurationLimits.TabRejected | app/core/settings.py:79-81 | a tab at the joint makes the parser reject the joined text |
| DurationLimits.UnitsAre | app/core/settings.py:31 | one second, minute, hour, day and week are read as 1, 60, 3600, 86400 and 604800 |
| DurationLimits.CaseIgnored | app/core/settings.py:78 | capitals and small letters are read alike |
| DurationLimits.MarginsIgnored | app/core/settings.py:78 | white space around a text does not matter |
| Decimals.FixedIffRepresentable | app/core/settings.py:82 | rounding leaves exactly the numbers of at most 28 digits before zeros alone |
| Decimals.RoundScales | app/core/settings.py:82 | rounding to significant digits commutes with shifting the point |
| RoundedSums.SumScales | app/core/settings.py:82 | a rounded sum does not depend on the unit it is counted in |
| RoundedSums.SumIsExact | app/core/settings.py:82 | a sum whose items and partial sums have at most 28 digits before zeros is the exact sum |
| Scanning.AcceptedIffBlankGaps | app/core/settings.py:79-81 | comparing the joined matches with the text accepts exactly when the scan skipped only blanks |
| Scanning.ScanOfAssembled | app/core/settings.py:79-81 | scanning a text made of parts and blanks finds those parts |
| Scanning.ScanJoins | app/core/settings.py:79-81 | scanning two texts in a row finds the parts of both |
| Downloads.LinksWithinCaps | app/services/downloads.py:130-158 | in every state a link has as many sessions as counted downloads, never more than its cap, and does not outlive its file or reference |
| Downloads.SessionsWithinLimits | app/services/downloads.py:191-288 | session expiry, ranges, resumes and connections stay within their limits, and the Redis counter equals the session's connections |
| Downloads.ActiveLinksLimited | app/services/downloads.py:116-129 | under one plan and a forward clock a user's live links never exceed the plan's limit |
| Downloads.StepSound | app/services/downloads.py:165-288 | every step keeps all of that |
| DownloadAnswers.LinkDecides | app/services/downloads.py:81-163 | a link is made exactly for a file the user owns and has a reference to, neither gone nor ended, within the plan and under a new token; it ends with the first of them and is no laxer than plan and settings |
| DownloadAnswers.UnreachedDenied | app/services/downloads.py:165-190 | a request whose token is of no link with a file to serve is denied |
| DownloadAnswers.UserSessionsAreUsed | app/services/downloads.py:195-204 | the sessions counted are the active unexpired ones on all links of the owner |
| DownloadAnswers.FirstRequestDecides | app/services/downloads.py:191-234 | a first request is granted exactly on a live link below the owner's number of sessions; it adds one session for that client, counts it, and uses the link up at its cap |
| DownloadAnswers.LaterRequestDecides | app/services/downloads.py:235-290 | a later request is granted exactly in its own live session, from the client the session was made for, and within the limits; it takes one connection |
| DownloadAnswers.OtherClientDenied | app/services/downloads.py:235-256 | a request from another address or client, or under an unknown secret, is denied |
| DownloadAnswers.ReleaseEffect | app/usage.py:198-251 | a finished delivery gives one connection back and ends the session exactly if it delivered the whole file |
| Downloads.DownloadService.MakeLink | app/services/downloads.py:81-163 | creating a link in place, or a refusal that changes nothing |
| Downloads.DownloadService.AuthorizeRequest | app/services/downloads.py:165-288 | authorizing in place, or a refusal that changes nothing |
| Downloads.DownloadService.OpenSession | app/services/downloads.py:191-234 | a first request starts a session and counts it against the link |
| Downloads.DownloadService.TakeConnection | app/services/downloads.py:235-288 | a later request counts its range and takes one connection |

## Left out

- Job ids: the database orders ties by random ids; the model orders them by creation.
- QuotaService.Reserve: reservations are visited in the sorted order of their specifications, reconciled rows in creation order instead of bucket id order; the order only decides which of several exhausted windows is reported.
- The dispatcher's first transaction, which recovers, sweeps and dispatches together, appears as those steps in sequence; its intermediate states count as reachable too.
- In-memory lane counters after a rolled-back transaction, and the claim service's own lane counter and stream reading: only the durable half of claim is modelled.
- Attempt rows beyond number and generation, worker instances, progress messages, acknowledgements and audit rows: nothing branches on them.
- Media variants and segments; whether the metadata of a media result is valid is an input.
- The policy snapshot beyond scan requirement, upload limit and retention; the plan lookup and its overrides are an input of admission.
- A bucket without a limit: reservation always sets one.
- Row versions and timestamps other than those the services compare.
- File deletion and retention, except as removal steps for download links.
- Decoding a log line's JSON text into fields is an oracle; the checks on the fields are modelled.
- CollectorIsFold: log names stand for file name and inode pairs through an explicit rotation step; truncating a file in place is not modelled.
- DurationGrammar: ASCII texts only; the expression and the decimals also take digits of other scripts, and white space beyond ASCII.
- JoinAnswer: ASCII texts only, like the grammar.
- JoinIffBlankJoint: ASCII texts only, like the grammar.
- JoinedPartIff: ASCII texts only, like the grammar.
- PartIsMatched: ASCII digits and white space only, where the expression takes those of other scripts.
- Durations: texts so long that a decimal exponent leaves the range of the arithmetic, about a million places.
- Parsing a raw value is an oracle of the settings model, as is authorization; approvals that a call uses up are not modelled. Of the parsers only durations and single-unit texts are modelled.
- Expiry of Redis keys, and counters left behind by a crash between Redis and the database.
- SessionsWithinLimits: limits below zero count as zero; a Redis counter that expires, or that a crash leaves behind, is outside its steps.
- RowConstraintsHold: the declared expiry after creation depends on the clock and is the subject of HoldsOutlastAdmission.
- CompleteDownloadLocked: the file reference row and the end of the attempt row, on which nothing in the model branches.
- CompleteMediaLocked: the rows of media variants and segments.
- Streaming sessions, which repeat the download pattern; bot, keyboards, localisation, logging, configuration, cryptography and file contents.
