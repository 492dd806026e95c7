/** The worker: pop an id, claim its row, run the handler, commit the outcome; and its heartbeat. */
module Executor {
  import opened Wrappers
  import opened Jobs
  import opened Protocol
  import opened Ownership
  import opened Redis
  import opened Database

  /** What a handler under its timeout can do. */
  datatype Outcome = Success(result: string) | TimedOut | UnknownType(message: string) | Raised(message: string)

  const TIMEOUT_MESSAGE := "timed out"

  /** The job held by this worker, shared by the executor and the heartbeat. */
  class LeaseHolder {
    var jobId: Option<Id>

    constructor ()
      ensures jobId.None?
    {
      jobId := None;
    }
  }

  /** The copy an attempt that ends in this way commits. */
  function Final(c: Settings, copy: Job, o: Outcome, wall: Time): Job {
    match o
    case Success(result) => CompleteCopy(copy, result, wall)
    case TimedOut => FailCopy(c, copy, TIMEOUT_MESSAGE, false, wall)
    case UnknownType(message) => FailCopy(c, copy, message, true, wall)
    case Raised(message) => FailCopy(c, copy, message, false, wall)
  }

  function FinalAction(o: Outcome, wall: Time, now: Time): WorkAction {
    match o
    case Success(result) => Complete(result, wall)
    case TimedOut => Fail(TIMEOUT_MESSAGE, false, wall, now)
    case UnknownType(message) => Fail(message, true, wall, now)
    case Raised(message) => Fail(message, false, wall, now)
  }

  /** What happens while a handler runs: time passes, and it may report percentages. */
  datatype Moment = Pass(to: Time) | Report(pct: int)

  /** The copy after the handler ran. */
  function Reported(copy: Job, during: seq<Moment>): Job {
    if during == [] then copy
    else
      var before := Reported(copy, during[..|during| - 1]);
      if during[|during| - 1].Report? then ProgressCopy(before, during[|during| - 1].pct) else before
  }

  function After(now: Time, during: seq<Moment>): Time {
    if during == [] then now
    else if during[|during| - 1].Pass? then during[|during| - 1].to
    else After(now, during[..|during| - 1])
  }

  function Steps(w: WorkerId, during: seq<Moment>): seq<Action> {
    if during == [] then []
    else
      Steps(w, during[..|during| - 1])
      + [if during[|during| - 1].Pass? then World(Tick(during[|during| - 1].to))
         else Work(w, Progress(during[|during| - 1].pct))]
  }

  /** An attempt: when it claimed and by which clock, what happened then, how it ended and by which clock. */
  datatype Trial = Trial(at: Time, lease: Time, during: seq<Moment>, outcome: Outcome, wall: Time)

  /** The steps of one attempt. */
  function Attempt(w: WorkerId, id: Id, t: Trial): seq<Action> {
    [Work(w, Claim(id, t.lease, t.at, t.at)), Work(w, Start)] + Steps(w, t.during)
    + [Work(w, FinalAction(t.outcome, t.wall, After(t.at, t.during)))]
  }

  /** The row an attempt leaves behind. */
  function Left(c: Settings, row: Job, w: WorkerId, t: Trial): Job {
    Final(c, Reported(ClaimRow(row, w, t.lease + c.lease, t.at), t.during), t.outcome, t.wall)
  }

  /**
   * What an attempt that ends in this way leaves of the row it claimed, column by column: which ends are final, what
   * is kept of the outcome, and when a retry is due.
   */
  predicate Ended(c: Settings, before: Job, after: Job, w: WorkerId, o: Outcome, at: Time, wall: Time) {
    && after.attempts == before.attempts + 1 && after.maxAttempts == before.maxAttempts
    && after.priority == before.priority && after.createdAt == before.createdAt
    && after.scheduledAt == before.scheduledAt && after.key == before.key && after.leasedUntil.None?
    && (after.status == Completed <==> o.Success?)
    && (after.status == Failed <==> o.UnknownType? || (!o.Success? && before.attempts + 1 >= before.maxAttempts))
    && (after.status in {Completed, Failed, Pending})
    && after.result == (if o.Success? then Some(o.result) else None)
    && after.error == (if o.Success? then None else Some(if o.TimedOut? then "timed out" else o.message))
    && after.workerId == (if o.Success? then Some(w) else None)
    && after.startedAt == (if after.status == Pending then None else Some(at))
    && after.completedAt == (if after.status == Pending then None else Some(wall))
    && (o.Success? ==> after.progress == 100)
    && after.nextRunAt == (if after.status != Pending then None
                           else if before.attempts == 0 then Some(wall + c.backoffAfter1)
                           else Some(wall + c.backoffAfter2))
  }

  lemma {:induction false} ReportedOnly(copy: Job, during: seq<Moment>)
    ensures Reported(copy, during) == copy.(progress := Reported(copy, during).progress)
  {
    if during != [] { ReportedOnly(copy, during[..|during| - 1]); }
  }

  lemma EndedBy(c: Settings, row: Job, w: WorkerId, t: Trial)
    ensures Ended(c, row, Left(c, row, w, t), w, t.outcome, t.at, t.wall)
  {
    ReportedOnly(ClaimRow(row, w, t.lease + c.lease, t.at), t.during);
  }

  lemma AttemptJoins(before: seq<Action>, w: WorkerId, id: Id, t: Trial)
    ensures before + [Work(w, Claim(id, t.lease, t.at, t.at))] + [Work(w, Start)] + Steps(w, t.during)
              + [Work(w, FinalAction(t.outcome, t.wall, After(t.at, t.during)))]
         == before + Attempt(w, id, t)
  {
  }

  lemma OneMore(copy: Job, now: Time, w: WorkerId, during: seq<Moment>, m: Moment)
    ensures Reported(copy, during + [m])
         == if m.Report? then ProgressCopy(Reported(copy, during), m.pct) else Reported(copy, during)
    ensures After(now, during + [m]) == if m.Pass? then m.to else After(now, during)
    ensures Steps(w, during + [m])
         == Steps(w, during) + [if m.Pass? then World(Tick(m.to)) else Work(w, Progress(m.pct))]
  {
    assert (during + [m])[..|during|] == during;
  }

  lemma TwoMore(copy: Job, now: Time, w: WorkerId, during: seq<Moment>, to: Time, pct: int)
    ensures Reported(copy, during + [Pass(to)] + [Report(pct)]) == ProgressCopy(Reported(copy, during), pct)
    ensures After(now, during + [Pass(to)] + [Report(pct)]) == to
    ensures Steps(w, during + [Pass(to)] + [Report(pct)])
         == Steps(w, during) + [World(Tick(to)), Work(w, Progress(pct))]
  {
    OneMore(copy, now, w, during, Pass(to));
    OneMore(copy, now, w, during + [Pass(to)], Report(pct));
  }

  lemma FlushSelf(copy: Job, edited: Job)
    ensures Flush(copy, copy, edited) == edited
  {
  }

  /** A report changes only the percentage, of the row as of the copy. */
  lemma FlushProgress(row: Job, copy: Job, pct: int)
    requires row.progress == copy.progress
    ensures Flush(row, copy, ProgressCopy(copy, pct)) == row.(progress := ProgressCopy(copy, pct).progress)
    ensures ProgressCopy(copy, pct) == copy.(progress := ProgressCopy(copy, pct).progress)
  {
  }

  /** Some time passes and the handler reports a percentage. */
  method PassAndReport(store: Store, w: WorkerId, id: Id, copy: Job) returns (edited: Job, ghost pct: int)
    requires store.Valid() && store.Serving(w, id, copy) && id in store.rows
    requires store.rows[id].progress == copy.progress
    modifies store`rows, store`clock, store`sessions, store`model, store`trace
    ensures store.Valid() && store.Serving(w, id, edited) && store.sessions.Keys == old(store.sessions).Keys
    ensures edited == ProgressCopy(copy, pct) == copy.(progress := edited.progress)
    ensures store.rows == old(store.rows)[id := old(store.rows)[id].(progress := edited.progress)]
    ensures old(store.clock) <= store.clock
    ensures store.trace == old(store.trace) + [World(Tick(store.clock)), Work(w, Progress(pct))]
    ensures SetHold(store.model, w, None).workers == old(SetHold(store.model, w, None).workers)
  {
    store.Elapse();
    var percent: int := *;
    pct := percent;
    FlushProgress(store.rows[id], copy, pct);
    edited := store.ReportProgress(w, id, copy, percent);
  }

  /** What was there when the handler started. */
  datatype Baseline = Baseline(rows: map<Id, Job>, clock: Time, sessions: set<WorkerId>, workers: map<WorkerId, Worker>,
                               trace: seq<Action>, copy: Job)

  ghost function Now(store: Store, w: WorkerId, copy: Job): Baseline
    requires w in store.model.workers
    reads store
  {
    Baseline(store.rows, store.clock, store.sessions.Keys, SetHold(store.model, w, None).workers, store.trace, copy)
  }

  /** A handler that has reported so far, and what has changed since its start. */
  ghost predicate Underway(store: Store, w: WorkerId, id: Id, start: Baseline, edited: Job, during: seq<Moment>)
    reads store
  {
    && store.Valid() && store.Serving(w, id, edited) && store.sessions.Keys == start.sessions
    && edited == Reported(start.copy, during) && edited == start.copy.(progress := edited.progress)
    && id in start.rows && store.rows == start.rows[id := start.rows[id].(progress := edited.progress)]
    && start.clock <= store.clock == After(start.clock, during)
    && store.trace == start.trace + Steps(w, during)
    && SetHold(store.model, w, None).workers == start.workers
  }

  /** One report more. */
  method Chat(store: Store, w: WorkerId, id: Id, ghost start: Baseline, copy: Job, ghost before: seq<Moment>)
    returns (edited: Job, ghost during: seq<Moment>)
    requires Underway(store, w, id, start, copy, before)
    modifies store`rows, store`clock, store`sessions, store`model, store`trace
    ensures Underway(store, w, id, start, edited, during)
  {
    ghost var pct;
    edited, pct := PassAndReport(store, w, id, copy);
    TwoMore(start.copy, start.clock, w, before, store.clock, pct);
    during := before + [Pass(store.clock)] + [Report(pct)];
  }

  /** Some time passes. */
  method Wait(store: Store, w: WorkerId, id: Id, ghost start: Baseline, copy: Job, ghost before: seq<Moment>)
    returns (ghost during: seq<Moment>)
    requires Underway(store, w, id, start, copy, before)
    modifies store`clock, store`model, store`trace
    ensures Underway(store, w, id, start, copy, during)
  {
    store.Elapse();
    OneMore(start.copy, start.clock, w, before, Pass(store.clock));
    during := before + [Pass(store.clock)];
  }

  /** A handler may run as long as H1 allows and report progress any number of times, however it is going to end. */
  method RunHandler(store: Store, w: WorkerId, id: Id, copy: Job) returns (edited: Job, ghost during: seq<Moment>)
    requires store.Valid() && store.Serving(w, id, copy) && id in store.rows
    requires store.rows[id].progress == copy.progress
    modifies store`rows, store`clock, store`sessions, store`model, store`trace
    ensures Underway(store, w, id, old(Now(store, w, copy)), edited, during)
  {
    edited, during := copy, [];
    ghost var start := Now(store, w, copy);
    var left: int := *;
    while left > 0
      invariant Underway(store, w, id, start, edited, during)
    {
      edited, during := Chat(store, w, id, start, edited, during);
      left := left - 1;
    }
    during := Wait(store, w, id, start, edited, during);
  }

  /** Records a failure, and indexes a final one in the dead-letter list. */
  method ApplyFailure(store: Store, queue: QueueClient, w: WorkerId, id: Id, copy: Job, message: string,
                      permanent: bool, wall: Time)
    requires store.Valid() && store.Serving(w, id, copy) && id in store.rows && Near(store.b, wall, store.clock)
    modifies store`rows, store`sessions, store`model, store`trace, queue`dead
    ensures store.Valid() && store.Idle(w) && store.sessions == old(store.sessions) - {w}
    ensures store.rows
         == old(store.rows)[id := Flush(old(store.rows)[id], copy, FailCopy(store.c, copy, message, permanent, wall))]
    ensures AfterFailure(store.c, old(store.rows)[id], store.rows[id], message, permanent, wall)
    ensures store.trace == old(store.trace) + [Work(w, Fail(message, permanent, wall, store.clock))]
    ensures store.model.workers == old(SetHold(store.model, w, None).workers)
    ensures queue.dead == if Retries(copy, permanent) then old(queue.dead) else PushDead(old(queue.dead), id)
  {
    var final := store.FailJob(w, id, copy, message, permanent, wall);
    if final {
      queue.DeadLetter(id);
    }
  }

  /** The final commit of an attempt. */
  method Conclude(store: Store, queue: QueueClient, w: WorkerId, id: Id, copy: Job, o: Outcome)
    returns (ghost wall: Time)
    requires store.Valid() && store.Serving(w, id, copy) && id in store.rows
    modifies store`rows, store`sessions, store`model, store`trace, queue`dead
    ensures store.Valid() && store.Idle(w) && store.sessions == old(store.sessions) - {w}
    ensures Near(store.b, wall, store.clock)
    ensures store.rows == old(store.rows)[id := Flush(old(store.rows)[id], copy, Final(store.c, copy, o, wall))]
    ensures store.trace == old(store.trace) + [Work(w, FinalAction(o, wall, store.clock))]
    ensures store.model.workers == old(SetHold(store.model, w, None).workers)
    ensures queue.dead == if Final(store.c, copy, o, wall).status == Failed then PushDead(old(queue.dead), id)
                          else old(queue.dead)
  {
    var now := store.ReadClock();
    wall := now;
    match o {
      case Success(result) => store.CompleteJob(w, id, copy, result, now);
      case TimedOut => ApplyFailure(store, queue, w, id, copy, TIMEOUT_MESSAGE, false, now);
      case UnknownType(message) => ApplyFailure(store, queue, w, id, copy, message, true, now);
      case Raised(message) => ApplyFailure(store, queue, w, id, copy, message, false, now);
    }
  }

  /** On a row equal to the copy, the percentage and then the whole copy: together the final one. */
  lemma FinalRow(rows: map<Id, Job>, id: Id, copy: Job, edited: Job, final: Job)
    requires id in rows && rows[id] == copy && edited == copy.(progress := edited.progress)
    ensures var mid := rows[id := rows[id].(progress := edited.progress)];
            mid[id := Flush(mid[id], edited, final)] == rows[id := final]
  {
    FlushSelf(edited, final);
  }

  /** Handler and final commit of a job whose start was logged, and which the heartbeat may renew meanwhile. */
  method Perform(store: Store, queue: QueueClient, holder: LeaseHolder, w: WorkerId, id: Id, copy: Job, o: Outcome)
    returns (ghost during: seq<Moment>, ghost wall: Time)
    requires store.Valid() && store.Serving(w, id, copy) && id in store.rows
    requires store.rows[id].progress == copy.progress && holder.jobId == Some(id)
    modifies store`rows, store`clock, store`sessions, store`model, store`trace, queue`dead
    ensures store.Valid() && store.Idle(w) && store.sessions.Keys == old(store.sessions).Keys - {w}
    ensures old(store.clock) <= store.clock == After(old(store.clock), during) && Near(store.b, wall, store.clock)
    ensures old(store.rows)[id] == copy ==>
              store.rows == old(store.rows)[id := Final(store.c, Reported(copy, during), o, wall)]
    ensures store.trace == old(store.trace) + Steps(w, during) + [Work(w, FinalAction(o, wall, store.clock))]
    ensures store.model.workers == old(SetHold(store.model, w, None).workers)
    ensures queue.dead == if Final(store.c, Reported(copy, during), o, wall).status == Failed
                          then PushDead(old(queue.dead), id) else old(queue.dead)
  {
    var edited;
    edited, during := RunHandler(store, w, id, copy);
    wall := Conclude(store, queue, w, id, edited, o);
    if old(store.rows)[id] == copy { FinalRow(old(store.rows), id, copy, edited, Final(store.c, edited, o, wall)); }
  }

  /** The start of a claimed job is logged; nothing but that changes for the others. */
  method Announce(store: Store, w: WorkerId, id: Id, copy: Job)
    requires store.Valid() && Alive(store.model, w) && Holds(store.model, w) && HoldOf(store.model, w).id == id
    requires HoldOf(store.model, w).copy == copy && !HoldOf(store.model, w).started
    requires HoldOf(store.model, w).since <= store.clock && id in store.rows
    modifies store`sessions, store`model, store`trace
    ensures store.Valid() && store.Serving(w, id, copy) && store.sessions.Keys == old(store.sessions).Keys
    ensures store.trace == old(store.trace) + [Work(w, Start)]
    ensures SetHold(store.model, w, None).workers == old(SetHold(store.model, w, None).workers)
  {
    store.LogStarted(w, id, copy);
  }

  /** The start is logged, the handler runs and the outcome commits; the holder names the job meanwhile. */
  method Execute(store: Store, queue: QueueClient, holder: LeaseHolder, w: WorkerId, id: Id, copy: Job, o: Outcome)
    returns (ghost during: seq<Moment>, ghost wall: Time)
    requires store.Valid() && Alive(store.model, w) && Holds(store.model, w) && HoldOf(store.model, w).id == id
    requires HoldOf(store.model, w).copy == copy && !HoldOf(store.model, w).started
    requires HoldOf(store.model, w).since <= store.clock && id in store.rows && store.rows[id] == copy
    modifies store`rows, store`clock, store`sessions, store`model, store`trace, queue`dead, holder
    ensures store.Valid() && store.Idle(w)
    ensures old(store.clock) <= store.clock == After(old(store.clock), during) && Near(store.b, wall, store.clock)
    ensures store.rows == old(store.rows)[id := Final(store.c, Reported(copy, during), o, wall)]
    ensures store.trace
         == old(store.trace) + [Work(w, Start)] + Steps(w, during) + [Work(w, FinalAction(o, wall, store.clock))]
    ensures store.model.workers == old(SetHold(store.model, w, None).workers)
    ensures queue.dead == if store.rows[id].status == Failed then PushDead(old(queue.dead), id) else old(queue.dead)
    ensures holder.jobId == None
  {
    holder.jobId := Some(id);
    Announce(store, w, id, copy);
    during, wall := Perform(store, queue, holder, w, id, copy, o);
    if holder.jobId == Some(id) {
      holder.jobId := None;
    }
  }

  /** What one round did: nothing popped, a stale entry, or an attempt; `at` is the database time of the claim. */
  datatype Round = Empty | Skipped(id: Id, at: Time) | Attempted(id: Id, trial: Trial)

  function At(r: Round): Time
    requires !r.Empty?
  {
    if r.Skipped? then r.at else r.trial.at
  }

  /** The steps of one round. */
  function RoundSteps(w: WorkerId, r: Round): seq<Action>
    requires !r.Empty?
  {
    [World(Tick(At(r)))] + if r.Attempted? then Attempt(w, r.id, r.trial) else []
  }

  /** Sees the attempt of a row through that was just claimed. */
  method Attend(store: Store, queue: QueueClient, holder: LeaseHolder, w: WorkerId, id: Id, copy: Job, o: Outcome,
                ghost row: Job, ghost lease: Time)
    returns (ghost t: Trial)
    requires store.Valid() && Alive(store.model, w) && Holds(store.model, w) && HoldOf(store.model, w).id == id
    requires HoldOf(store.model, w).copy == copy && !HoldOf(store.model, w).started
    requires HoldOf(store.model, w).since <= store.clock && id in store.rows && store.rows[id] == copy
    requires copy == ClaimRow(row, w, lease + store.c.lease, store.clock)
    modifies store`rows, store`clock, store`sessions, store`model, store`trace, queue`dead, holder
    ensures store.Valid() && store.Idle(w)
    ensures t.at == old(store.clock) <= store.clock == After(t.at, t.during)
    ensures t.lease == lease && t.outcome == o && Near(store.b, t.wall, store.clock)
    ensures store.rows == old(store.rows)[id := Left(store.c, row, w, t)]
    ensures store.trace == old(store.trace) + [Work(w, Start)] + Steps(w, t.during)
                           + [Work(w, FinalAction(o, t.wall, store.clock))]
    ensures store.model.workers == old(SetHold(store.model, w, None).workers)
    ensures queue.dead == if store.rows[id].status == Failed then PushDead(old(queue.dead), id) else old(queue.dead)
    ensures holder.jobId == None
  {
    ghost var at := store.clock;
    ghost var during, wall := Execute(store, queue, holder, w, id, copy, o);
    t := Trial(at, lease, during, o, wall);
  }

  /** Claims the row of a popped id if it is ready, and sees the attempt through; `holder` names the job meanwhile. */
  method TryJob(store: Store, queue: QueueClient, holder: LeaseHolder, w: WorkerId, id: Id, o: Outcome)
    returns (ghost tried: Option<Trial>)
    requires store.Valid() && store.Idle(w)
    modifies store`rows, store`clock, store`sessions, store`model, store`trace, queue`dead, holder
    ensures store.Valid() && store.Idle(w) && store.model.workers == old(store.model.workers)
    ensures store.sessions == old(store.sessions)
    ensures tried.Some? <==> id in old(store.rows) && Ready(old(store.rows)[id], old(store.clock))
    ensures tried.None? ==> store.rows == old(store.rows) && store.trace == old(store.trace)
    ensures tried.None? ==> store.clock == old(store.clock) && queue.dead == old(queue.dead)
    ensures holder.jobId == if tried.None? then old(holder.jobId) else None
    ensures tried.Some? ==>
              var t := tried.value;
              && t.outcome == o && t.at == old(store.clock) <= store.clock == After(t.at, t.during)
              && Near(store.b, t.lease, t.at) && Near(store.b, t.wall, store.clock)
              && store.rows == old(store.rows)[id := Left(store.c, old(store.rows)[id], w, t)]
              && store.trace == old(store.trace) + Attempt(w, id, t)
              && queue.dead == if store.rows[id].status == Failed then PushDead(old(queue.dead), id)
                               else old(queue.dead)
  {
    var lease := store.ReadClock();
    var job := store.ClaimJob(id, w, lease);
    if job.None? {
      return None;
    }
    ghost var t := Attend(store, queue, holder, w, id, job.value, o, old(store.rows)[id], lease);
    tried := Some(t);
    AttemptJoins(old(store.trace), w, id, t);
    assert store.model.workers == old(store.model.workers);
    SameSessions(store.b, old(store.model), store.model);
  }

  /** The same some time after the pop: `at` is when the claim is made. */
  method TryPopped(store: Store, queue: QueueClient, holder: LeaseHolder, w: WorkerId, id: Id, o: Outcome)
    returns (ghost at: Time, ghost tried: Option<Trial>)
    requires store.Valid() && store.Idle(w)
    modifies store`rows, store`clock, store`sessions, store`model, store`trace, queue`dead, holder
    ensures store.Valid() && store.Idle(w) && store.model.workers == old(store.model.workers)
    ensures store.sessions == old(store.sessions) && old(store.clock) <= at <= store.clock
    ensures tried.Some? <==> id in old(store.rows) && Ready(old(store.rows)[id], at)
    ensures tried.None? ==> store.rows == old(store.rows) && store.trace == old(store.trace) + [World(Tick(at))]
    ensures tried.None? ==> store.clock == at && queue.dead == old(queue.dead)
    ensures holder.jobId == if tried.None? then old(holder.jobId) else None
    ensures tried.Some? ==>
              var t := tried.value;
              && t.outcome == o && t.at == at && store.clock == After(at, t.during)
              && Near(store.b, t.lease, t.at) && Near(store.b, t.wall, store.clock)
              && store.rows == old(store.rows)[id := Left(store.c, old(store.rows)[id], w, t)]
              && store.trace == old(store.trace) + [World(Tick(at))] + Attempt(w, id, t)
              && queue.dead == if store.rows[id].status == Failed then PushDead(old(queue.dead), id)
                               else old(queue.dead)
  {
    store.Elapse();
    at := store.clock;
    tried := TryJob(store, queue, holder, w, id, o);
  }

  /**
   * One round, in which a handler that is run ends as `o` says: consumes an entry unless the set is empty; attempts
   * the job exactly when its row is ready by then.
   */
  method ProcessOne(store: Store, queue: QueueClient, holder: LeaseHolder, w: WorkerId, o: Outcome)
    returns (consumed: bool, ghost round: Round)
    requires store.Valid() && store.Idle(w)
    modifies store`rows, store`clock, store`sessions, store`model, store`trace, queue`pending, queue`dead, holder
    ensures store.Valid() && store.Idle(w) && store.model.workers == old(store.model.workers)
    ensures store.sessions == old(store.sessions)
    ensures consumed <==> old(queue.pending) != map[]
    ensures consumed <==> !round.Empty?
    ensures consumed ==> First(old(queue.pending), round.id) && queue.pending == old(queue.pending) - {round.id}
    ensures consumed ==> old(store.clock) <= At(round) <= store.clock
    ensures consumed ==> store.trace == old(store.trace) + RoundSteps(w, round)
    ensures !consumed ==> queue.pending == map[] && store.trace == old(store.trace) && store.clock == old(store.clock)
    ensures round.Attempted? <==> consumed && round.id in old(store.rows) && Ready(old(store.rows)[round.id], At(round))
    ensures !round.Attempted? ==> store.rows == old(store.rows) && queue.dead == old(queue.dead)
    ensures round.Skipped? ==> store.clock == At(round)
    ensures round.Attempted? ==>
              var t := round.trial;
              && t.outcome == o && store.clock == After(t.at, t.during)
              && Near(store.b, t.lease, t.at) && Near(store.b, t.wall, store.clock)
              && store.rows == old(store.rows)[round.id := Left(store.c, old(store.rows)[round.id], w, t)]
              && Ended(store.c, old(store.rows)[round.id], store.rows[round.id], w, o, t.at, t.wall)
              && queue.dead == if store.rows[round.id].status == Failed then PushDead(old(queue.dead), round.id)
                               else old(queue.dead)
    ensures holder.jobId == if round.Attempted? then None else old(holder.jobId)
  {
    round := Empty;
    var popped := queue.Dequeue();
    if popped.None? {
      return false, Empty;
    }
    ghost var at, tried := TryPopped(store, queue, holder, w, popped.value, o);
    if tried.Some? { EndedBy(store.c, old(store.rows)[popped.value], w, tried.value); }
    return true, if tried.Some? then Attempted(popped.value, tried.value) else Skipped(popped.value, at);
  }

  /** One beat: renews the lease of the held job while this worker owns it, and lets go of it otherwise. */
  method Beat(store: Store, holder: LeaseHolder, w: WorkerId, wall: Time)
    requires store.Valid() && Alive(store.model, w) && Near(store.b, wall, store.clock)
    modifies store`rows, store`model, store`trace, holder
    ensures store.Valid()
    ensures var held := old(holder.jobId);
            if held.Some? && held.value in old(store.rows) && old(store.rows)[held.value].status == Processing
               && old(store.rows)[held.value].workerId == Some(w) then
              && holder.jobId == held
              && store.rows
                 == old(store.rows)[held.value :=
                      old(store.rows)[held.value].(leasedUntil := Some(wall + store.c.lease))]
            else holder.jobId == None && store.rows == old(store.rows)
  {
    var id := holder.jobId;
    if id.Some? {
      var renewed := store.RenewJobLease(id.value, w, wall);
      if renewed.None? && holder.jobId == id {
        holder.jobId := None;
      }
    }
  }
}
