/**
 * The database-only protocol: the jobs table, the workers' in-memory copies and the API requests in flight.
 * One committed transaction is one step. Redis does not occur here: a worker may try to claim any job.
 */
module Protocol {
  import opened Wrappers
  import opened Jobs

  /** A claimed job in a worker: its copy of the row, when it read the clock for the lease, when the claim committed. */
  datatype Hold = Hold(id: Id, copy: Job, readAt: Time, since: Time, started: bool)

  datatype Worker = Worker(hold: Option<Hold>, crashedAt: Option<Time>)

  /** A cancel or manual retry between its read and its write. */
  datatype Request = Cancelling(id: Id, copy: Job) | Retrying(id: Id, copy: Job)

  datatype State = State(
    clock: Time,
    table: map<Id, Entry>,
    workers: map<WorkerId, Worker>,
    requests: map<nat, Request>)

  /**
   * The steps, by actor. `now` is the timestamp of the transaction, no later than its commit; `wall` is what the
   * process read from its own clock, and `readAt` the database time at which it read it.
   */
  datatype Action =
    | World(env: WorldAction)
    | Work(w: WorkerId, work: WorkAction)
    | Upkeep(chore: Chore)
    | Api(call: Call)

  datatype WorldAction = Tick(to: Time) | Spawn(worker: WorkerId) | Crash(worker: WorkerId)

  datatype WorkAction =
    | Claim(id: Id, wall: Time, readAt: Time, now: Time)
    | Start
    | Progress(pct: int)
    | Complete(result: string, wall: Time)
    | Fail(message: string, permanent: bool, wall: Time, readAt: Time)
    | Renew(id: Id, wall: Time, readAt: Time)

  datatype Chore = Reap(id: Id, now: Time) | Promote(id: Id, now: Time) | Cleanup(wall: Time)

  datatype Call =
    | Insert(id: Id, priority: int, scheduledAt: Option<Time>, key: Option<string>, created: nat)
    | ReadCancel(r: nat, id: Id)
    | CommitCancel(r: nat)
    | ReadRetry(r: nat, id: Id)
    | CommitRetry(r: nat, wall: Time)
    | Drop(r: nat)

  /** Twenty-four hours. */
  const IDEMPOTENCY_TTL: int := 86_400_000_000

  function Initial(clock: Time): State {
    State(clock, map[], map[], map[])
  }

  predicate Alive(s: State, w: WorkerId) {
    w in s.workers && s.workers[w].crashedAt.None?
  }

  predicate Holds(s: State, w: WorkerId) {
    w in s.workers && s.workers[w].hold.Some?
  }

  /** A live worker between its successful claim and its final commit. */
  predicate InFlight(s: State, w: WorkerId) {
    Alive(s, w) && Holds(s, w)
  }

  function HoldOf(s: State, w: WorkerId): Hold
    requires Holds(s, w)
  {
    s.workers[w].hold.value
  }

  predicate KeyFree(s: State, key: Option<string>) {
    key.Some? ==> forall id :: id in s.table ==> s.table[id].job.key != key
  }

  predicate CanWork(s: State, w: WorkerId, a: WorkAction) {
    Alive(s, w) &&
    match a
    case Claim(id, _, readAt, now) =>
      !Holds(s, w) && id in s.table && readAt <= s.clock && now <= s.clock && Ready(s.table[id].job, now)
    case Start => Holds(s, w) && !HoldOf(s, w).started && HoldOf(s, w).id in s.table
    case Progress(_) => Executing(s, w)
    case Complete(_, _) => Executing(s, w)
    case Fail(_, _, _, readAt) => Executing(s, w) && HoldOf(s, w).since <= readAt <= s.clock
    case Renew(id, _, readAt) => id in s.table && readAt <= s.clock && OwnedBy(s.table[id].job, w)
  }

  predicate Executing(s: State, w: WorkerId) {
    Holds(s, w) && HoldOf(s, w).started && HoldOf(s, w).id in s.table
  }

  predicate CanUpkeep(s: State, a: Chore) {
    match a
    case Reap(id, now) => id in s.table && now <= s.clock && Expired(s.table[id].job, now)
    case Promote(id, now) => id in s.table && now <= s.clock && Due(s.table[id].job, now)
    case Cleanup(_) => true
  }

  predicate CanCall(c: Settings, s: State, a: Call) {
    match a
    case Insert(id, _, _, key, created) =>
      id !in s.table && created <= s.clock && KeyFree(s, key) && c.defaultMaxAttempts > 0
    case ReadCancel(r, id) => r !in s.requests && id in s.table && Cancellable(s.table[id].job)
    case CommitCancel(r) => r in s.requests && s.requests[r].Cancelling? && s.requests[r].id in s.table
    case ReadRetry(r, id) => r !in s.requests && id in s.table && s.table[id].job.status == Failed
    case CommitRetry(r, _) => r in s.requests && s.requests[r].Retrying? && s.requests[r].id in s.table
    case Drop(r) => r in s.requests
  }

  predicate Enabled(c: Settings, s: State, a: Action) {
    match a
    case World(Tick(to)) => s.clock <= to
    case World(Spawn(w)) => w !in s.workers
    case World(Crash(w)) => Alive(s, w)
    case Work(w, work) => CanWork(s, w, work)
    case Upkeep(chore) => CanUpkeep(s, chore)
    case Api(call) => CanCall(c, s, call)
  }

  /** A commit that changes one row and is recorded in its history. */
  function Commit(s: State, id: Id, job: Job, kind: Kind, attempt: nat, delay: int): State
    requires id in s.table
  {
    s.(table := s.table[id := Entry(job, s.table[id].history + [Event(kind, s.clock, attempt, delay)])])
  }

  function Write(s: State, id: Id, job: Job): State
    requires id in s.table
  {
    s.(table := s.table[id := s.table[id].(job := job)])
  }

  function SetHold(s: State, w: WorkerId, hold: Option<Hold>): State
    requires w in s.workers
  {
    s.(workers := s.workers[w := s.workers[w].(hold := hold)])
  }

  /** The final write of a worker: an unguarded flush by primary key. */
  function Finish(s: State, w: WorkerId, edited: Job, kind: Kind, delay: int): State
    requires Holds(s, w) && HoldOf(s, w).id in s.table
  {
    var h := HoldOf(s, w);
    SetHold(Commit(s, h.id, Flush(s.table[h.id].job, h.copy, edited), kind, h.copy.attempts, delay), w, None)
  }

  /** The final write of a cancel or manual retry: also by primary key, with no second look at the status. */
  function Respond(s: State, r: nat, edited: Job, kind: Kind): State
    requires r in s.requests && s.requests[r].id in s.table
  {
    var q := s.requests[r];
    Commit(s, q.id, Flush(s.table[q.id].job, q.copy, edited), kind, q.copy.attempts, 0)
      .(requests := s.requests - {r})
  }

  predicate Stale(j: Job, wall: Time) {
    j.key.Some? && j.createdAt < wall - IDEMPOTENCY_TTL
  }

  function ClearKeys(table: map<Id, Entry>, wall: Time): map<Id, Entry> {
    map id | id in table ::
      if Stale(table[id].job, wall) then table[id].(job := table[id].job.(key := None)) else table[id]
  }

  function ApplyWorld(s: State, a: WorldAction): State
    requires a.Crash? ==> Alive(s, a.worker)
  {
    match a
    case Tick(to) => s.(clock := to)
    case Spawn(w) => s.(workers := s.workers[w := Worker(None, None)])
    case Crash(w) => s.(workers := s.workers[w := s.workers[w].(crashedAt := Some(s.clock))])
  }

  function ApplyWork(c: Settings, s: State, w: WorkerId, a: WorkAction): State
    requires CanWork(s, w, a)
  {
    match a
    case Claim(id, wall, readAt, now) =>
      var job := ClaimRow(s.table[id].job, w, wall + c.lease, now);
      SetHold(Commit(s, id, job, Claimed, job.attempts, 0), w, Some(Hold(id, job, readAt, s.clock, false)))
    case Start =>
      var h := HoldOf(s, w);
      SetHold(Commit(s, h.id, s.table[h.id].job, JobStarted, h.copy.attempts, 0), w, Some(h.(started := true)))
    case Progress(pct) =>
      var h := HoldOf(s, w);
      var copy := ProgressCopy(h.copy, pct);
      SetHold(Write(s, h.id, Flush(s.table[h.id].job, h.copy, copy)), w, Some(h.(copy := copy)))
    case Complete(result, wall) => Finish(s, w, CompleteCopy(HoldOf(s, w).copy, result, wall), JobCompleted, 0)
    case Fail(message, permanent, wall, _) =>
      var copy := HoldOf(s, w).copy;
      Finish(s, w, FailCopy(c, copy, message, permanent, wall), FailKind(copy, permanent), Delay(c, copy, permanent))
    case Renew(id, wall, _) => Write(s, id, s.table[id].job.(leasedUntil := Some(wall + c.lease)))
  }

  function FailKind(copy: Job, permanent: bool): Kind {
    if Retries(copy, permanent) then RetryScheduled else FailedPermanently
  }

  function Delay(c: Settings, copy: Job, permanent: bool): int {
    if Retries(copy, permanent) then Backoff(c, copy.attempts) else 0
  }

  function ApplyChore(s: State, a: Chore): State
    requires CanUpkeep(s, a)
  {
    match a
    case Reap(id, _) => Commit(s, id, ReapRow(s.table[id].job), Reaped, s.table[id].job.attempts, 0)
    case Promote(id, _) => Commit(s, id, PromoteRow(s.table[id].job), Promoted, s.table[id].job.attempts, 0)
    case Cleanup(wall) => s.(table := ClearKeys(s.table, wall))
  }

  function ApplyCall(c: Settings, s: State, a: Call): State
    requires CanCall(c, s, a)
  {
    match a
    case Insert(id, priority, scheduledAt, key, created) =>
      s.(table := s.table[id :=
        Entry(NewJob(c, priority, scheduledAt, key, created), [Event(JobCreated, s.clock, 0, 0)])])
    case ReadCancel(r, id) => s.(requests := s.requests[r := Cancelling(id, s.table[id].job)])
    case CommitCancel(r) => Respond(s, r, CancelCopy(s.requests[r].copy), JobCancelled)
    case ReadRetry(r, id) => s.(requests := s.requests[r := Retrying(id, s.table[id].job)])
    case CommitRetry(r, wall) => Respond(s, r, ReopenCopy(s.requests[r].copy, wall), ManualRetry)
    case Drop(r) => s.(requests := s.requests - {r})
  }

  function Apply(c: Settings, s: State, a: Action): State
    requires Enabled(c, s, a)
  {
    match a
    case World(env) => ApplyWorld(s, env)
    case Work(w, work) => ApplyWork(c, s, w, work)
    case Upkeep(chore) => ApplyChore(s, chore)
    case Api(call) => ApplyCall(c, s, call)
  }

  /** The untimed regime: any delay and any interleaving. */
  ghost predicate RunsTo(c: Settings, s: State, acts: seq<Action>, t: State)
    decreases |acts|
  {
    if acts == [] then s == t
    else Enabled(c, s, acts[0]) && RunsTo(c, Apply(c, s, acts[0]), acts[1..], t)
  }

  predicate Claims(a: Action, id: Id) {
    a.Work? && a.work.Claim? && a.work.id == id
  }

  /** Successful claims of a job in a run. */
  function ClaimsOf(acts: seq<Action>, id: Id): nat {
    if acts == [] then 0 else (if Claims(acts[0], id) then 1 else 0) + ClaimsOf(acts[1..], id)
  }

  // ---- the disciplined regime ----

  /**
   * Timing bounds: a live worker commits its final write within `finish` of reading the clock for its lease, a
   * heartbeat commits a renewal within `renew` of reading its clock, and process and database clocks differ by
   * at most `skew`.
   */
  datatype Bounds = Bounds(finish: int, renew: int, skew: int)

  predicate Fits(c: Settings, b: Bounds) {
    b.finish >= 0 && b.renew >= 0 && b.skew >= 0 && b.finish + b.renew + b.skew <= c.lease
  }

  predicate Near(b: Bounds, wall: Time, readAt: Time) {
    readAt - b.skew <= wall <= readAt + b.skew
  }

  /** H1: no live worker in flight is past its bound. */
  predicate OnTime(b: Bounds, s: State) {
    forall w :: w in s.workers && InFlight(s, w) ==> s.clock <= HoldOf(s, w).readAt + b.finish
  }

  /** Clock readings are near database time, renewals are not late, and (H2) a request writes the row it read. */
  predicate Careful(c: Settings, b: Bounds, s: State, a: Action)
    requires Enabled(c, s, a)
  {
    match a
    case Work(_, Claim(_, wall, readAt, _)) => Near(b, wall, readAt)
    case Work(_, Fail(_, _, wall, readAt)) => Near(b, wall, readAt)
    case Work(_, Renew(_, wall, readAt)) => Near(b, wall, readAt) && s.clock <= readAt + b.renew
    case Upkeep(Cleanup(wall)) => wall <= s.clock + b.skew
    case Api(CommitCancel(r)) => s.table[s.requests[r].id].job == s.requests[r].copy
    case Api(CommitRetry(r, _)) => s.table[s.requests[r].id].job == s.requests[r].copy
    case _ => true
  }

  predicate Step(c: Settings, b: Bounds, s: State, a: Action) {
    Enabled(c, s, a) && Careful(c, b, s, a) && OnTime(b, Apply(c, s, a))
  }

  /** The disciplined regime: every step is careful and leaves every live worker on time. */
  ghost predicate Disciplined(c: Settings, b: Bounds, s: State, acts: seq<Action>, t: State)
    decreases |acts|
  {
    if acts == [] then s == t
    else Step(c, b, s, acts[0]) && Disciplined(c, b, Apply(c, s, acts[0]), acts[1..], t)
  }

  /** What holds of every run holds of the disciplined ones. */
  lemma {:induction false} DisciplinedRuns(c: Settings, b: Bounds, s: State, acts: seq<Action>, t: State)
    requires Disciplined(c, b, s, acts, t)
    ensures RunsTo(c, s, acts, t)
    decreases |acts|
  {
    if acts != [] { DisciplinedRuns(c, b, Apply(c, s, acts[0]), acts[1..], t); }
  }

  lemma {:induction false} Extend(c: Settings, b: Bounds, s: State, acts: seq<Action>, t: State, a: Action)
    requires Disciplined(c, b, s, acts, t) && Step(c, b, t, a)
    ensures Disciplined(c, b, s, acts + [a], Apply(c, t, a))
    decreases |acts|
  {
    if acts == [] {
      assert [a][1..] == [];
    } else {
      Extend(c, b, Apply(c, s, acts[0]), acts[1..], t, a);
      assert (acts + [a])[1..] == acts[1..] + [a];
    }
  }
}
