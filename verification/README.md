# A verified model of the job lifecycle protocol

mcareers is a background job system: a PostgreSQL table `jobs` owns all state, Redis sorted sets carry hints about
what to run next, and an API, several workers, their heartbeats, a reaper, a scheduler, a feeder and a key cleanup all
act on both. This project models that protocol in Dafny and proves what its runs keep. `dafny verify dfyconfig.toml`
checks everything.

## How the model is built

- **Rows.** `Jobs` has one row of the table, each UPDATE statement on it, and the ORM flush: a session that loaded one
  copy and edited it writes, by primary key, only the columns that differ from *its own copy* (`Flush`). A history of
  committed events is kept beside each row.
- **Protocol.** `Protocol` is the database alone as a transition system. One committed transaction is one step; a worker
  can crash between any two. Claims, renewals, reaps and promotions are guarded UPDATEs; final writes of a worker are
  unguarded flushes; cancel and manual retry read, check, and write in separate steps. Every clock reading is a
  parameter of its step.
- **Two regimes.** `RunsTo` is *untimed*: any delay, any interleaving. `Disciplined` adds three explicit hypotheses:
  - *H1*: a live worker commits its final write within `finish` of reading the clock for its lease; process and
    database clocks differ by at most `skew`;
  - a *renewal* commits within `renew` of the heartbeat reading its clock, and `finish + renew + skew <= lease`;
  - *H2*: no other commit touches the row between the read and the write of one cancel or manual retry.
- **Redis.** `FullSystem` has its own state: the table, both sorted sets, the dead-letter list, and for every process
  where it is - a worker with a popped id, a scheduler with candidates, a feeder with a selection, a request between
  its commit and its Redis command, a heartbeat that has read the clock, a reaper with a survey. A move is one statement
  or one command of one process, and no statement is dated before the process's preceding read; `Abs` recovers the state
  of `Protocol`. `Scores` is about the sorted sets in its runs, `Inspection` and `Mishaps` about the dead-letter list,
  `Reception` about its submits, `Heartbeat` about renewals, and `Realization` about which database steps its processes
  can bring about. `Alone` shows that an operation nothing interrupts comes to what the methods below promise.
- **Methods.** `Executor`, `Dispatch`, `Scheduler`, `Feeder`, `Reaper`, `JobService` and `Quiescence` are the loops over
  two objects, `Database.Store` and `Redis.QueueClient`. The ghost trace of a `Store` is a disciplined run of the
  protocol that ends in its rows and its workers' open sessions, so each method refines steps of the transition system
  and every run theorem holds of what the methods do. Time passes wherever H1 lets it, by an amount left open.

## What the proofs brought to light

1. **A slow renewal can cost a live worker its job.** The intent that a job timeout below the lease is enough
   (`app/config.py:21-26`) leaves out the heartbeat: the new lease is computed before the UPDATE
   (`app/worker/claim.py:60`), so a renewal read during an earlier attempt of the same job by the same worker can
   commit after a later claim and shorten its lease. Ownership is exclusive over all runs if and only if
   `finish + renew + skew <= lease` (`Sharpness.BoundIsExact`).
2. **A stale cancel or manual retry robs an owner exactly when a live worker runs the job at the write**
   (`Sharpness.AnswerSparesExactly`); and a cancelled job's handler can still start exactly when a live worker holds the
   job or a manual retry of it is still to be written (`Sharpness.CancelledStartsExactly`).
3. **The loser of a submit race raises.** The unique violation comes from the flush (`app/services/job_service.py:71`),
   outside the `try` that would return the existing job (lines 78-95). Within the window a submit that found nothing
   raises exactly when a job with its key was created after its lookup (`Submission.RaisesExactlyWhenRaced`).
4. **The dead-letter list is in order of push, not of failure.** A push keeps it "newest first"
   (`app/queue/keys.py:13`) exactly when no listed job failed later (`DeadLetter.PushKeepsOrder`), and a run ends with
   it so exactly when no two pushes that still stand landed against the order of failure (`Inspection.OrderExactly`).
   The late removal of a manual retry can erase a job that failed again since; the list is right about a job exactly
   when the last commands about it landed right (`Inspection.ListExactly`). For all settings and bounds `Mishaps` gives
   disciplined runs from an empty system, with no crash, no loss and all clocks in step, that end in each of these.
5. **The score is priority-then-age only for jobs created less than 10^12 ms apart**, and that bound is sharp
   (`Keys.ScoreBoundIsSharp`).
6. **A stale entry can overtake the feeder's choice.** An entry whose waiting time ends between the feeder's look and
   its own pop is claimed in its place by score. All drains, whenever they pop, claim the best rows of the feeder's
   instant first exactly when every fed entry of a row still waiting then has at least `limit` entries of ready rows
   ahead of it (`Dispatch.DispatchOrder`).
7. **Redis only restricts, and a full batch hides the rest.** Every run of the whole system is one of the database
   (`FullSystem.ProjectsToDatabase`), but not the other way round: with a batch of more urgent rows ready, no feeder
   offers the next one while they stay (`Realization.LimitHidesRows`). `Realization.RealizableExactly` says which steps
   of the database the processes can bring about from empty sets.

## Model

| member | source | states |
|---|---|---|
| Lifecycle.ExclusiveOwnership | app/worker/executor.py:68-169 | In every reachable state of the disciplined regime a live worker between claim and final commit sees its row still processing, with its name, its attempt count and a lease that has not expired, and no other live worker holds that job. |
| Lifecycle.ReapsOnlyTheCrashed | app/worker/reaper.py:40-55 | Whenever the reaper can take a job, the owner of that job has crashed. |
| Lifecycle.FinalWriteLands | app/worker/executor.py:31-45 | Every unguarded completion or failure lands on a row its writer still owns and changes exactly these columns of it: result, progress 100 and dates of a completion; of a failure the message and, while it may retry and attempts remain, pending again at the clock of the commit plus the backoff setting of the attempt, otherwise failed at that clock. A key cleared meanwhile stays cleared. |
| Lifecycle.AnswerLands | app/services/job_service.py:174-238 | With no commit since its read, a cancel or a manual retry changes exactly its own columns of the row. |
| Lifecycle.CrashedLeaseExpires | app/worker/claim.py:25-39 | A row left processing by a crashed worker is expired once the clock passes the crash by one lease and the skew. |
| Lifecycle.RowShape | app/worker/retry.py:49-85 | Which columns are null in which status: lease iff processing, worker iff processing or completed, completion date iff completed or failed, result iff completed, next run equal to the schedule while scheduled and past while processing, progress 100 and no error when completed. |
| Lifecycle.AttemptsConserved | app/worker/retry.py:54-97 | Attempts equal retries scheduled plus permanent failures plus reaps plus one if processing or completed; the allowance is the default plus manual retries; attempts never exceed allowance plus reaps, strictly while pending. |
| Lifecycle.BackoffAddsUp | app/worker/retry.py:18-27 | The time from first to latest claim is at least the sum of the backoffs, by failed attempt, of all retries scheduled before that claim, each less the skew, even when reaps clear the waiting time. |
| Lifecycle.RetryIsTimely | app/worker/retry.py:18-57 | A pending row whose latest event is a retry waits for the setting of the attempt that failed: until no earlier than that long after its last claim and no later than that long after the commit of the failure, both up to the skew. |
| Lifecycle.AuditAgrees | app/worker/retry.py:60-97 | The last entry of the audit log names completed, failed or cancelled iff the row has that status, is "created" while scheduled and "started" while a live worker runs the handler; permanent failures balance manual retries; starts never exceed attempts. |
| Lifecycle.TerminalForever | app/services/job_service.py:174-194 | Over every disciplined run completed and cancelled rows never change but for the key, failed ones only by manual retry, and no handler of such a job starts. |
| Ownership.StepInv | app/worker/claim.py:26-39 | Every step of every actor keeps the invariant behind these theorems. |
| Ownership.AlwaysInv | app/config.py:21-26 | So does every disciplined run. |
| Sharpness.BoundIsExact | app/config.py:21-26 | All live workers own their rows in all runs within the bounds if and only if the three bounds together fit into a lease. |
| Sharpness.AnswerSparesExactly | app/services/job_service.py:171-191 | The write of a cancel or manual retry, however old its read, leaves every live worker its row if and only if no live worker runs that job. |
| Sharpness.CancelledStartsExactly | app/services/job_service.py:168-191 | At any delay, the handler of a cancelled job can still start in some continuation if and only if a live worker holds the job or a manual retry of it is waiting to be written. |
| Sharpness.StaleCancelIsLost | app/services/job_service.py:171-191 | Such a state arises with no time passing: a claim slips into a cancel and the cancelled job's handler starts and completes. |
| UntimedSafety.AlwaysSafe | app/worker/executor.py:31-45 | At any delay and interleaving the untimed invariant survives, late unguarded commits included. |
| UntimedSafety.AttemptsCountClaims | app/worker/claim.py:26-39 | In every run from any state a job's attempt count grows by exactly the number of its successful claims. |
| UntimedSafety.StartsAreUnique | app/worker/executor.py:83-93 | No two handler starts of one job share an attempt number, at any delay. |
| UntimedSafety.NeverEarly | app/worker/scheduler.py:56-65 | No claim commits before the scheduled time of its job. |
| UntimedSafety.AlwaysReapable | app/worker/reaper.py:41-46 | A processing row always has an owner and a lease, and from any such state waiting past the lease lets the reaper take it. |
| UntimedSafety.NeverRescheduled | app/services/job_service.py:221-228 | A job that has left scheduled never returns there, and its row never disappears. |
| UntimedSafety.LeaseFromLastReading | app/worker/claim.py:60-71 | The lease of a processing row is one lease length past the clock reading of the last claim or renewal, so a renewal by a clock that has not gone back never shortens it. |
| UntimedSafety.AlwaysSpaced | app/worker/retry.py:18-27 | Every retry ever scheduled was given the backoff of the attempt that failed. |
| Measure.StepPotential | app/worker/retry.py:30-72 | With submissions, manual retries and crashes stopped, no step raises the number of claims still possible, and a claim lowers it by one. |
| Measure.ClaimsBounded | app/worker/retry.py:30-72 | Over any further run, claims made plus claims still possible never exceed the sum over unfinished jobs of max(1, allowance - attempts), or max(0, .) for one in flight. |
| Measure.JobClaimsBounded | app/worker/retry.py:30-97 | Over any such run one job is claimed at most as often as attempts are left to it; once, if none is left and no live worker runs it; and never again once completed, failed or cancelled or in the last attempt of a live worker. |
| Measure.NothingLeft | app/worker/retry.py:30-31 | That sum is zero if and only if every job is terminal or in a live worker's last attempt. |
| Quiescence.RunUntilDone | app/worker/executor.py:174-188 | From any state of a disciplined run with a live worker, jobs in flight included: live workers end the attempts they are in, and repeating clock advance, reap, promote, feed and drain ends with every job completed, failed or cancelled, whatever handlers do and however long H1 lets them take, and whatever Redis held, after no more claims than the measure allowed. |
| Quiescence.FinishAll | app/worker/executor.py:82-169 | Every live worker in flight starts its handler if it has not and ends its attempt in any way, without a claim. |
| Quiescence.SomethingReady | app/worker/reaper.py:24-70 | Past every lease and wait, one reaper and one scheduler cycle leave some row ready if any job is unfinished. |
| Quiescence.Sweep | app/worker/feeder.py:30-54 | One round of advance, reap, promote, feed and drain claims at least one job. |
| Reaper.ReapExpiredLeases | app/worker/reaper.py:18-70 | A quiet cycle frees the `limit` expired rows with the oldest leases, or all of them - in particular each that fewer than `limit` others expired no later than - by clearing owner, lease and wait, counts them, and changes no other row. |
| Reaper.FreedInTime | app/worker/reaper.py:25-36 | An expired row is among those freed unless `limit` others expired no later. |
| Reaper.CrashRecovered | app/worker/reaper.py:24-70 | Any quiet cycle later than one lease and the skew after the owner's crash returns its job to pending, with no owner, lease or wait and its other columns as they were, unless `limit` leases expired no later. |
| Scheduler.PromoteDueScheduled | app/worker/scheduler.py:25-84 | A quiet cycle handles no id twice, promotes and enqueues exactly the candidates due by the database clock, with the score of their rows, drops exactly the candidates from the scheduled set, and has each due row among them that fewer than `limit` others were scheduled no later than. |
| Scheduler.HandledLeaves | app/worker/scheduler.py:52-82 | After a cycle exactly the candidates due by the database clock are pending, without wait, counted, and in the dispatch set by the score of their rows; no candidate is in the delayed set; nothing else has changed. |
| Scheduler.PromotedInTime | app/worker/scheduler.py:40-82 | So the next quiet cycle whose database clock is not behind makes such a row pending, sends it to the dispatch set with its score and takes it out of the delayed set. |
| Scheduler.HandleAllIs | app/worker/scheduler.py:52-82 | Handling distinct candidates one after another equals handling them as a set. |
| Scheduler.PromotesEnough | app/worker/scheduler.py:40-51 | When the database clock is at least the moment used, at least min(limit, due rows) are promoted. |
| Scheduler.DropsOnlyTheStale | app/worker/scheduler.py:66-71 | A Redis member is dropped only if its row was just promoted, is missing, is not scheduled, or is not yet due. |
| Scheduler.CycleProgress | app/worker/scheduler.py:36-84 | Due rows plus due members strictly decrease with each cycle. |
| Scheduler.PromoteUntilNoneDue | app/worker/scheduler.py:87-105 | Repeating the cycle empties the due set. |
| Feeder.PromoteReadyJobs | app/worker/feeder.py:21-54 | One cycle offers `limit` ready rows, the more urgent first, with their scores as numbers, keeps every entry already there, and counts the new ones. |
| Feeder.OfferedInTime | app/worker/feeder.py:30-39 | A ready row is offered if fewer than `limit` others are of higher priority or of the same and no younger, and only if fewer than `limit` are strictly more urgent. |
| Dispatch.Drain | app/worker/executor.py:174-188 | The executor's loop until the set is empty is a sequence of legal rounds, each at its own time: each pops the first entry and attempts it exactly when its row is ready by then, and an attempt takes time. |
| Dispatch.RoundsAccounted | app/worker/executor.py:64-77 | Legal rounds claim what is ready by the time of its pop, in the order popped, and touch no other row. |
| Dispatch.RoundsEnd | app/worker/executor.py:108-169 | Over a whole drain every attempted round leaves of the row it popped exactly what its outcome says, and nothing later in the drain touches that row: completed if and only if the handler succeeded; failed if and only if its type is unknown, or it timed out or raised with no attempt left; otherwise pending, after the plain backoff setting; with the outcome's result or message. |
| Dispatch.DispatchOrder | app/worker/feeder.py:31-54 | For one feeder cycle over any stale entries: all drains of the fed set, at any pop times and with any outcomes, claim the best rows of the feeder's instant first, by priority then age to the millisecond, if and only if every fed entry of a pending row whose waiting time is not over has at least `limit` entries of ready rows ahead of it. |
| Dispatch.OneDrainExactly | app/worker/executor.py:64-77 | One drain at given pop times: claims are in score order, and the first `limit` are those rows if and only if every entry whose waiting time ended between the feeder's instant and its pop has at least `limit` of them ahead of it. |
| Dispatch.LateEntryOvertakes | app/worker/claim.py:28-32 | Two legal rounds in which such an entry of higher priority overtakes the row the feeder chose. |
| Dispatch.FeedThenDrain | app/queue/client.py:50-56 | One feeder cycle and one drain, as methods with time passing between and within rounds, do exactly that, and the claims of the recorded run are those claims. |
| FullSystem.Simulates | app/worker/scheduler.py:36-82 | Each statement and each Redis command of every process - the worker's pop, guarded claim or skip, and push; the heartbeat's read and renewal; the reaper's survey and each UPDATE; the scheduler's two reads, UPDATE, ZREM and ZADD; the feeder's select and ZADD NX; a submit's lookup and insert, cancel and retry, with the commands they owe; cleanup; crashes and loss of Redis - is one step of the database alone or none. |
| FullSystem.ProjectsToDatabase | app/worker/claim.py:22-32 | So every run of the whole system, with Redis stale, wiped or arbitrary at any step, projects onto a run of the database alone. |
| Realization.RealizableExactly | app/worker/feeder.py:30-54 | Conversely, with workers at rest and both sets empty, some run of the processes' own statements and commands, with no outside hand on Redis but its loss, has exactly a given step as its only step of the database if and only if the step is possible and in reach: a claim of a row that fewer than a batch of ready rows rank strictly before, a promotion or reap of a row none was due or expired strictly before, a renewal of the job held, statements dated now. |
| Realization.RealizesDatabase | app/worker/executor.py:64-77 | Every run of the database alone whose steps are in reach is exactly what some such run does to the database. |
| Realization.LimitHidesRows | app/worker/feeder.py:17-39 | Not every run is: for every batch limit, a run from an empty system leads to a ready row whose claim is possible in the database but is no such run's only step. |
| FullSystem.DisciplinedProjects | app/services/job_service.py:106-118 | The projection keeps the disciplined regime. |
| FullSystem.OwnershipWhateverRedisHolds | app/worker/executor.py:64-77 | No content of Redis can break exclusive ownership. |
| FullSystem.TerminalWhateverRedisHolds | app/services/job_service.py:168-169 | A completed or cancelled job stays so and its handler never starts, even if its id was already popped or is pushed again. |
| Alone.SubmitAlone | app/services/job_service.py:46-125 | A submit that nothing interrupts, as moves of the whole system, creates exactly the row it was asked for and adds it, with its score or time, to exactly one of the two sets. |
| Alone.DuplicateAlone | app/services/job_service.py:46-57 | One whose key a row carries changes nothing at all. |
| Alone.CancelAlone | app/services/job_service.py:162-202 | A cancel that nothing interrupts cancels the row and removes the id from both sets. |
| Alone.RetryAlone | app/services/job_service.py:205-249 | A manual retry that nothing interrupts reopens the row and removes every entry of the id from the dead-letter list. |
| Alone.FeederAlone | app/worker/feeder.py:21-54 | A feeder cycle that nothing interrupts adds exactly the rows of its query that have no entry, with their scores, and moves no entry. |
| Alone.SchedulerAlone | app/worker/scheduler.py:25-84 | A scheduler cycle that nothing interrupts does to the rows and both sets exactly what its method does. |
| Alone.ReaperAlone | app/worker/reaper.py:18-70 | A reaper cycle that nothing interrupts frees exactly the rows of its survey. |
| Alone.AttemptAlone | app/worker/executor.py:54-171 | For each outcome of the handler, a worker that nothing interrupts pops the first entry, leaves of its ready row exactly what the outcome says, pushes the id to the dead-letter list if and only if the row is failed, and holds nothing. |
| Alone.SkipAlone | app/worker/executor.py:64-77 | An entry whose row is not ready is consumed and nothing else changes. |
| Alone.Hazards | app/queue/client.py:34-56 | At any point time may pass, a request or cycle may die between two of its steps, and Redis may lose everything or hold anything. |
| Alone.CrashAlone | app/worker/reaper.py:24-70 | A worker can die wherever it is, and then a reaper cycle past the lease of its job returns the job to pending with its attempt counted, unless a batch of leases expired no later. |
| Scores.ScoresAlwaysAgree | app/queue/client.py:34-48 | From empty Redis, through any interleaving, delay, crash or loss, every pending entry has a row and carries its score, every scheduled entry its scheduled time, and so does every entry still on its way. |
| Scores.AddsCommute | app/worker/scheduler.py:75 | So plain and NX adds of all actors commute and never move an entry. |
| Keys.ScoreRefines | app/queue/keys.py:22-30 | For creation times less than 1,000,000,000,000 ms apart score order is exactly higher priority first, then earlier millisecond, and equal scores mean both are equal. |
| Keys.MillisIs | app/queue/keys.py:26-30 | Creation times count in whole milliseconds, rounded down. |
| Keys.ScoreBoundIsSharp | app/queue/keys.py:22-30 | Score order is that order for all priorities from -1000 to 1000 within a window if and only if the window is at most 1,000,000,000,000 ms. |
| Keys.ScoreIsExact | app/queue/keys.py:26-30 | All those priorities give scores below 9,007,199,254,740,992 (2^53) in magnitude if and only if the job was created before millisecond 8,007,199,254,740,992. |
| Idempotency.NormalizeAccepts | app/services/idempotency.py:20-31 | A key is accepted exactly when it is a text of 1 to 255 characters without outer white space, between white space. |
| Idempotency.NormalizeRejects | app/services/idempotency.py:20-31 | There is no key if and only if none was given, and a given one is invalid exactly when it is all white space or more than 255 characters are left between its white space. |
| Idempotency.SpacesAre | app/services/idempotency.py:24-26 | White space is exactly the 29 characters that Python strips. |
| Idempotency.AlwaysOneHolder | app/db/schema.sql:62-64 | In every interleaving at most one row carries a given key. |
| Idempotency.KeyStep | app/services/idempotency.py:49-57 | Only the insert gives a row its key and only the cleanup takes it away, exactly when the row is older than 24 hours. |
| Idempotency.KeyReusable | app/services/idempotency.py:40-59 | After the window the cleanup frees the key. |
| Submission.OneJobPerKey | app/services/job_service.py:46-125 | In every interleaving of submits, cleanup and all other steps, submits of one key answered within the window of the first returned job return that job as not created, or raise. |
| Submission.SendsOnlyTheCreated | app/services/job_service.py:106-125 | A ZADD may be lost to a crash after the commit, but each is of a job that its submit created, and no job is added twice. |
| Submission.RaisesExactlyWhenRaced | app/services/job_service.py:70-95 | Within the window a submit whose lookup found nothing raises if and only if a job with its key was created after that lookup; whatever the time it raises only then, and otherwise it creates. |
| Submission.LoserRaises | app/services/job_service.py:71 | Of any two submits that both found nothing, the second to insert within the window of the first one's job raises. |
| Reception.RunsShow | app/services/job_service.py:46-125 | Every run of the whole system is a run of submits, lookups and inserts interleaved with all other steps: with the answers its submits gave and, in order, the ZADDs they did. |
| Reception.OneJobPerKeyInRuns | app/services/job_service.py:46-95 | So in every run of the whole system, whatever Redis holds, a submit of a key answered within the window of the job another has returned returns that job as not created, or raises. |
| Reception.SubmitsAddOnce | app/services/job_service.py:106-125 | In every run, with any crash and any content of Redis, the ZADDs of submits to the two sorted sets are of jobs that a submit of the run has created, each at most once. |
| Reception.ScheduledBySubmitsOnly | app/services/job_service.py:107-109 | Without an outside hand on Redis the delayed set gains members by those ZADDs only. |
| DeadLetter.LandKept | app/queue/client.py:90-99 | Every push, removal and loss of Redis leaves the list the front of the untrimmed one, at most 1000 long, and lacking only entries that 1000 later pushes displaced. |
| DeadLetter.OccursAsPushed | app/queue/client.py:90-99 | A job stands in the untrimmed list as often as it was pushed since the last removal of it. |
| DeadLetter.RightExactly | app/worker/retry.py:83-108 | It stands there once if failed and not at all otherwise if and only if the last command about it was a push and the one before was not, or, for a job not failed, the last was no push. |
| DeadLetter.ListedExactly | app/services/job_service.py:221-240 | It stands there at all if and only if the last command about it was a push. |
| DeadLetter.PushKeepsOrder | app/worker/retry.py:97-108 | A push keeps the list in reverse order of failure if and only if no listed job failed later than the one pushed. |
| DeadLetter.OrderOfFailure | app/queue/keys.py:13-14 | The list is in reverse order of failure if and only if no two pushes that still stand landed against the order of their failures. |
| DeadLetter.RemovalRestoresOrder | app/queue/client.py:97-99 | Removals can put such pushes right again, so the order of all pushes decides nothing. |
| Inspection.AlwaysKept | app/queue/client.py:90-95 | In every run of the whole system the list never exceeds 1000 entries and lacks only what 1000 later pushes displaced. |
| Inspection.AlwaysMatches | app/services/job_service.py:221-240 | In disciplined runs a job is failed exactly when its last note is a permanent failure, and failures and manual retries of each job alternate. |
| Inspection.ListExactly | app/worker/retry.py:83-108 | In every disciplined run of the whole system, with crashes, losses and late commands, the list is right about a job if and only if the commands about it landed right. |
| Inspection.InTurnIsRight | app/services/job_service.py:221-240 | It is right about a job whose failures and retries each waited for the earlier commands to land, once all have landed. |
| Inspection.ListIsRight | app/queue/client.py:90-99 | With every job so, the list is duplicate-free, holds only failed jobs, latest push first, and lacks a failed job only after at least 1000 later pushes. |
| Inspection.OrderExactly | app/worker/retry.py:97-108 | In every run each entry stands for a permanent failure, and the list is in reverse order of failure if and only if no two standing pushes landed against the order of their commits. |
| Mishaps.OrderMayFollowPushes | app/worker/retry.py:97-108 | For any two jobs, settings and bounds that fit, a disciplined run from an empty system ends with both failed, nothing owed, and the job that failed first on the left. |
| Mishaps.LateRemovalLosesAFailure | app/services/job_service.py:238-240 | Another ends with a failed job, nothing owed, and an empty list: the removal of the manual retry landed after the second push. |
| Mishaps.LastCommandMayRepeat | app/worker/retry.py:97-108 | That the last command to land belongs to the job's last commit is not enough: another ends with a job listed twice though its last command is the push of its last failure. |
| Mishaps.LastCommandMayBeOld | app/services/job_service.py:238-240 | Nor is it needed: another ends with the job rightly gone though its last command is the removal of its first manual retry. |
| Database.Store.ClaimJob | app/worker/claim.py:15-48 | The claim succeeds exactly on a ready row, sets status, owner, lease, start and attempt, and is one step of the run; otherwise nothing changes. |
| Database.Store.RenewJobLease | app/worker/claim.py:51-77 | The renewal succeeds exactly on a processing row of this worker and changes only the lease. |
| Database.Store.ReportProgress | app/worker/executor.py:48-51 | Writes the clamped percentage through the worker's copy. |
| Database.Store.CompleteJob | app/worker/executor.py:31-45 | An unguarded flush of the completed copy, one step of the run; on the row the worker owns it changes exactly the columns of a completion. |
| Database.Store.FailJob | app/worker/retry.py:34-97 | Retries exactly while attempts remain and the failure is not permanent, at the wall clock plus the first setting after attempt 1 and the second after any other; otherwise the job is failed; column by column. |
| Database.Store.ReapOne | app/worker/reaper.py:40-60 | Takes back exactly an expired row: pending, with no owner, lease or wait. |
| Database.Store.PromoteOne | app/worker/scheduler.py:56-72 | Promotes exactly a due scheduled row: pending, with no wait. |
| Database.Store.InsertJob | app/services/job_service.py:59-79 | Inserts unless the unique index already has the key; the row has the priority, schedule and key submitted, no attempt, and every other column empty. |
| Database.Store.Cancel | app/services/job_service.py:171-191 | Cancels exactly a pending or scheduled row, which loses its wait. |
| Database.Store.Reopen | app/services/job_service.py:213-238 | Reopens exactly a failed row, with one more attempt allowed, ready at the wall clock, and its error, dates and owner cleared. |
| Database.Store.CleanupExpiredKeys | app/services/idempotency.py:40-59 | Clears the key of exactly the rows older than 24 hours and counts them. |
| Executor.ApplyFailure | app/worker/retry.py:34-108 | Records the failure, column by column, and pushes to the dead-letter list exactly when the job is failed by it. |
| Executor.RunHandler | app/worker/executor.py:108-120 | A handler may take any time that H1 allows and report progress any number of times, however it will end; it changes only the percentage of its row. |
| Executor.ProcessOne | app/worker/executor.py:54-171 | Consumes an entry unless the set is empty, some time later attempts the job exactly when its row is ready by then, and, for each way the handler may end, leaves of that row what `Dispatch.RoundsEnd` says, and the lease holder empty; the steps taken are time passing, a claim, a start, reports with time passing, and one final write. |
| Executor.Beat | app/worker/heartbeat.py:38-62 | Renews the lease of the held job while this worker owns it and lets go of it otherwise. |
| Heartbeat.InFlightIsRenewed | app/worker/heartbeat.py:38-62 | In every disciplined run of the whole system the lease holder of a live worker in flight names its job, and a beat from there writes one lease from the clock it read, changes nothing else and keeps the job. |
| Heartbeat.LostIsLetGo | app/worker/heartbeat.py:54-57 | A beat whose job is gone, finished or reaped changes no row and lets go of that job, and of no other the worker holds by then. |
| JobService.SubmitJob | app/services/job_service.py:35-125 | With no commit in between: with no key always creates, and a key that is all white space or too long is invalid; otherwise answers with the holder of the key or inserts exactly the row submitted and sends it, with its score or time, to exactly one of the two sets. |
| JobService.CancelJob | app/services/job_service.py:162-202 | Not found, conflict or cancelled by status; a cancelled id leaves both sets. |
| JobService.RetryJob | app/services/job_service.py:205-249 | Not found, conflict or reopened by status, ready at the wall clock with one more attempt; the id leaves the dead-letter list and is not pushed to the pending set. |
| Redis.QueueClient.Enqueue | app/queue/client.py:34-41 | ZADD with and without NX, and whether a member was added. |
| Redis.QueueClient.Dequeue | app/queue/client.py:50-56 | Pops the member of lowest score, ties by member. |
| Redis.OneFirst | app/queue/client.py:50-56 | The popped member is determined: no two members are both lowest. |
| Redis.QueueClient.DueScheduled | app/queue/client.py:58-66 | The `limit` due members of lowest score, ties by member, in order: each that fewer than `limit` others are due before is among them. |
| Redis.QueueClient.NextScheduledScore | app/queue/client.py:68-74 | The lowest score of the scheduled set, or none when it is empty. |
| Redis.QueueClient.DeadLetter | app/queue/client.py:90-95 | Pushes left and trims to 1000. |
| Redis.QueueClient.RemoveDeadLetter | app/queue/client.py:97-99 | Removes every entry of the id and no other, and leaves the others in their order. |
| Ordering.Select | app/queue/client.py:63-66 | The first `limit` candidates in order: none twice, sorted, and nothing left out ranks earlier. |

## Left out

- HTTP routes, payload validation, logging, health and listing endpoints: they change no job state.
- Handler bodies: a handler reports any percentages and ends in success, timeout, unknown type or failure, chosen
  freely; the text of an error is a parameter, and a timeout's text does not name the seconds.
- Internals of the database and Redis clients: each guarded UPDATE is atomic, the partial unique index is enforced, and
  the commands follow their documented meaning.
- Exceptions raised by PostgreSQL or Redis inside finalising code, and the cancellation of a progress commit by the
  timeout: they depend on library session state.
- The heartbeat sorted set and its listing: shown to operators only, and no decision about ownership reads it.
- Signals, `wait_or_stop` and sleeping between cycles: time advances by a step instead.
- Floating-point time: times are integer microseconds and a score is an integer; `Keys.ScoreIsExact` says for which
  creation times a binary64 score is exact. The scheduled set is scored in microseconds instead of seconds.
- `job_type`, `payload`, `error_details`: no transition reads them.
- The unit of one API method is a whole call: `JobService` and the batch loops run with no concurrent writer, and the
  interleavings of their statements and commands are those of `FullSystem` and `Submission`.
- That the loops limit a batch to 100: the limit is a setting, so the theorems hold for any.
- Reaper.ReapExpiredLeases: one cycle takes no time; a lease that has expired stays so, so time would change nothing.
- Scheduler.PromoteDueScheduled: the method handles its candidates at one database time; `FullSystem` gives each its own.
- Quiescence.RunUntilDone: asks for one live worker, since without one nothing can be claimed.
- Lifecycle.BackoffAddsUp: states the sum less the clock skew per retry, since the backoff is added to the worker's clock and compared with the database's.
- Realization.RealizableExactly: states reach from workers at rest and empty sets; `RealizesDatabase` gets there by loss of Redis before each step.
- Inspection.ListIsRight: counts later pushes and orders by push, since order of failure is false under concurrency.
