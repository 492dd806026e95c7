/** One row of the jobs table, the history kept beside it, and what each statement does to a row. */
module Jobs {
  import opened Wrappers

  /** A UUID as the number its 32 hexadecimal digits denote: numeric order is the order of the strings. */
  type Id = nat
  type WorkerId = nat
  /** Microseconds since the epoch. */
  type Time = int

  datatype Status = Scheduled | Pending | Processing | Completed | Failed | Cancelled

  datatype Job = Job(
    priority: int,
    createdAt: nat,
    scheduledAt: Option<Time>,
    status: Status,
    attempts: nat,
    maxAttempts: nat,
    nextRunAt: Option<Time>,
    workerId: Option<WorkerId>,
    leasedUntil: Option<Time>,
    startedAt: Option<Time>,
    completedAt: Option<Time>,
    result: Option<string>,
    error: Option<string>,
    progress: int,
    key: Option<string>)

  /**
   * The settings the protocol depends on, in microseconds where they are durations. `batch` is the limit of one cycle
   * of the feeder, the reaper and the scheduler, a constant 100 in all three.
   */
  datatype Settings = Settings(lease: int, defaultMaxAttempts: nat, backoffAfter1: int, backoffAfter2: int, batch: nat)

  predicate Terminal(j: Job) {
    j.status in {Completed, Failed, Cancelled}
  }

  // ---- submit ----

  function NewJob(c: Settings, priority: int, scheduledAt: Option<Time>, key: Option<string>, now: nat): Job {
    Job(priority, now, scheduledAt, if scheduledAt.Some? then Scheduled else Pending,
        0, c.defaultMaxAttempts, scheduledAt, None, None, None, None, None, None, 0, key)
  }

  /** A row as a submit creates it, column by column. */
  predicate AsSubmitted(c: Settings, j: Job, priority: int, scheduledAt: Option<Time>, key: Option<string>, now: Time) {
    && j.priority == priority && j.createdAt == now && j.key == key
    && j.scheduledAt == scheduledAt && j.nextRunAt == scheduledAt
    && j.status == (if scheduledAt.Some? then Scheduled else Pending)
    && j.attempts == 0 && j.maxAttempts == c.defaultMaxAttempts && j.progress == 0
    && j.workerId.None? && j.leasedUntil.None? && j.startedAt.None? && j.completedAt.None?
    && j.result.None? && j.error.None?
  }

  // ---- guarded UPDATE statements ----

  predicate Ready(j: Job, now: Time) {
    j.status == Pending && (j.nextRunAt.Some? ==> j.nextRunAt.value <= now)
  }

  function ClaimRow(j: Job, w: WorkerId, until: Time, now: Time): Job {
    j.(status := Processing, workerId := Some(w), leasedUntil := Some(until), startedAt := Some(now),
       attempts := j.attempts + 1)
  }

  predicate OwnedBy(j: Job, w: WorkerId) {
    j.status == Processing && j.workerId == Some(w)
  }

  predicate Expired(j: Job, now: Time) {
    j.status == Processing && j.leasedUntil.Some? && j.leasedUntil.value < now
  }

  function ReapRow(j: Job): Job {
    j.(status := Pending, workerId := None, leasedUntil := None, nextRunAt := None)
  }

  predicate Due(j: Job, now: Time) {
    j.status == Scheduled && j.scheduledAt.Some? && j.scheduledAt.value <= now
  }

  function PromoteRow(j: Job): Job {
    j.(status := Pending, nextRunAt := None)
  }

  // ---- what a session assigns to its own copy of the row ----

  function CompleteCopy(m: Job, result: string, now: Time): Job {
    m.(status := Completed, result := Some(result), progress := 100, completedAt := Some(now),
       error := None, nextRunAt := None, leasedUntil := None)
  }

  function Backoff(c: Settings, attempts: nat): int {
    if attempts == 1 then c.backoffAfter1 else c.backoffAfter2
  }

  predicate ShouldRetry(attempts: nat, maxAttempts: nat) {
    attempts < maxAttempts
  }

  /** Whether a failure sends the job back to pending. */
  predicate Retries(m: Job, permanent: bool) {
    !permanent && ShouldRetry(m.attempts, m.maxAttempts)
  }

  function FailCopy(c: Settings, m: Job, message: string, permanent: bool, now: Time): Job {
    var m' := m.(error := Some(message), leasedUntil := None, workerId := None, result := None);
    if Retries(m, permanent) then
      m'.(status := Pending, nextRunAt := Some(now + Backoff(c, m.attempts)), startedAt := None, completedAt := None)
    else
      m'.(status := Failed, nextRunAt := None, completedAt := Some(now))
  }

  function ProgressCopy(m: Job, pct: int): Job {
    m.(progress := if pct < 0 then 0 else if pct > 100 then 100 else pct)
  }

  predicate Cancellable(j: Job) {
    j.status in {Pending, Scheduled}
  }

  function CancelCopy(m: Job): Job {
    m.(status := Cancelled, nextRunAt := None, leasedUntil := None, workerId := None)
  }

  function ReopenCopy(m: Job, now: Time): Job {
    m.(maxAttempts := m.maxAttempts + 1, status := Pending, nextRunAt := Some(now), completedAt := None,
       startedAt := None, leasedUntil := None, workerId := None, error := None)
  }

  // ---- the flush of a session: an UPDATE by primary key of the columns that changed ----

  function Column<T(==)>(row: T, loaded: T, edited: T): T {
    if edited == loaded then row else edited
  }

  /** The row after a session that had loaded one copy commits another: only changed columns are written. */
  function Flush(row: Job, loaded: Job, edited: Job): Job {
    Job(Column(row.priority, loaded.priority, edited.priority),
        Column(row.createdAt, loaded.createdAt, edited.createdAt),
        Column(row.scheduledAt, loaded.scheduledAt, edited.scheduledAt),
        Column(row.status, loaded.status, edited.status),
        Column(row.attempts, loaded.attempts, edited.attempts),
        Column(row.maxAttempts, loaded.maxAttempts, edited.maxAttempts),
        Column(row.nextRunAt, loaded.nextRunAt, edited.nextRunAt),
        Column(row.workerId, loaded.workerId, edited.workerId),
        Column(row.leasedUntil, loaded.leasedUntil, edited.leasedUntil),
        Column(row.startedAt, loaded.startedAt, edited.startedAt),
        Column(row.completedAt, loaded.completedAt, edited.completedAt),
        Column(row.result, loaded.result, edited.result),
        Column(row.error, loaded.error, edited.error),
        Column(row.progress, loaded.progress, edited.progress),
        Column(row.key, loaded.key, edited.key))
  }

  // ---- history ----

  datatype Kind =
    | JobCreated | JobStarted | RetryScheduled | FailedPermanently | JobCompleted | JobCancelled | ManualRetry
    | Claimed | Reaped | Promoted

  /** A committed change of one job: when, at which attempt count and, for a retry, the backoff given. */
  datatype Event = Event(kind: Kind, at: Time, attempt: nat, delay: int)

  /** A row and everything that was ever committed about it, oldest first. */
  datatype Entry = Entry(job: Job, history: seq<Event>)

  /** The audit trail job_logs has an entry for these; claims, reaps and promotions are not logged. */
  predicate Logged(k: Kind) {
    k !in {Claimed, Reaped, Promoted}
  }

  function Count(h: seq<Event>, k: Kind): nat {
    if h == [] then 0
    else Count(h[..|h| - 1], k) + (if h[|h| - 1].kind == k then 1 else 0)
  }

  function LastLogged(h: seq<Event>): Option<Kind> {
    if h == [] then None
    else if Logged(h[|h| - 1].kind) then Some(h[|h| - 1].kind)
    else LastLogged(h[..|h| - 1])
  }

  function FirstClaim(h: seq<Event>): Option<Time> {
    if h == [] then None
    else
      var before := FirstClaim(h[..|h| - 1]);
      if before.None? && h[|h| - 1].kind == Claimed then Some(h[|h| - 1].at) else before
  }

  function LastClaim(h: seq<Event>): Option<Time> {
    if h == [] then None
    else if h[|h| - 1].kind == Claimed then Some(h[|h| - 1].at)
    else LastClaim(h[..|h| - 1])
  }

  /** Backoff, each less `skew`, of the retries scheduled since the last claim. */
  function Owed(h: seq<Event>, skew: int): int {
    if h == [] || h[|h| - 1].kind == Claimed then 0
    else Owed(h[..|h| - 1], skew) + (if h[|h| - 1].kind == RetryScheduled then h[|h| - 1].delay - skew else 0)
  }

  /** Backoff, each less `skew`, of the retries scheduled before the last claim. */
  function Waited(h: seq<Event>, skew: int): int {
    if h == [] then 0
    else Waited(h[..|h| - 1], skew) + (if h[|h| - 1].kind == Claimed then Owed(h[..|h| - 1], skew) else 0)
  }

  lemma LoggedAre(k: Kind)
    ensures Logged(k)
       <==> k in {JobCreated, JobStarted, RetryScheduled, FailedPermanently, JobCompleted, JobCancelled, ManualRetry}
  {
  }

  /** How each history function grows with one more event. */
  lemma Grow(h: seq<Event>, e: Event, skew: int)
    ensures forall k :: Count(h + [e], k) == Count(h, k) + (if e.kind == k then 1 else 0)
    ensures LastLogged(h + [e])
         == if e.kind in {JobCreated, JobStarted, RetryScheduled, FailedPermanently, JobCompleted, JobCancelled,
                          ManualRetry} then Some(e.kind)
            else LastLogged(h)
    ensures FirstClaim(h + [e]) == if FirstClaim(h).None? && e.kind == Claimed then Some(e.at) else FirstClaim(h)
    ensures LastClaim(h + [e]) == if e.kind == Claimed then Some(e.at) else LastClaim(h)
    ensures Owed(h + [e], skew)
         == if e.kind == Claimed then 0
            else Owed(h, skew) + (if e.kind == RetryScheduled then e.delay - skew else 0)
    ensures Waited(h + [e], skew) == Waited(h, skew) + (if e.kind == Claimed then Owed(h, skew) else 0)
  {
    assert (h + [e])[..|h|] == h;
    LoggedAre(e.kind);
  }
}
