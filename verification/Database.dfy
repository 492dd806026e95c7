/**
 * The jobs table as the program changes it. Every method commits at most the steps it names, and the ghost trace
 * of an object is a disciplined run of the protocol that ends in its rows.
 */
module Database {
  import opened Wrappers
  import opened Jobs
  import opened Protocol
  import opened Ownership

  function Rows(s: State): map<Id, Job> {
    map id | id in s.table :: s.table[id].job
  }

  lemma SameClock(c: Settings, b: Bounds, s: State, a: Action)
    requires Fits(c, b) && OnTime(b, s) && Enabled(c, s, a) && Careful(c, b, s, a) && !(a.World? && a.env.Tick?)
    requires a.Work? && a.work.Claim? ==> s.clock <= a.work.readAt + b.finish
    ensures Step(c, b, s, a)
  {
    var t := Apply(c, s, a);
    forall w | w in t.workers && InFlight(t, w) ensures t.clock <= HoldOf(t, w).readAt + b.finish {
      assert a.World? || w in s.workers;
    }
  }

  lemma {:induction false} StaysOnTime(c: Settings, b: Bounds, s: State, acts: seq<Action>, t: State)
    requires OnTime(b, s) && Disciplined(c, b, s, acts, t)
    ensures OnTime(b, t)
    decreases |acts|
  {
    if acts != [] { StaysOnTime(c, b, Apply(c, s, acts[0]), acts[1..], t); }
  }

  /** The open session of a live worker: its job, its copy, whether the start was logged, and when H1 ends it. */
  datatype Session = Session(id: Id, copy: Job, started: bool, deadline: Time)

  function SessionOf(b: Bounds, h: Hold): Session {
    Session(h.id, h.copy, h.started, h.readAt + b.finish)
  }

  function Sessions(b: Bounds, s: State): map<WorkerId, Session> {
    map w | w in s.workers && InFlight(s, w) :: SessionOf(b, HoldOf(s, w))
  }

  /** Only one worker's session changes when only its hold does. */
  lemma OneSession(b: Bounds, s: State, t: State, w: WorkerId)
    requires Alive(s, w) && w in t.workers && t.workers == s.workers[w := s.workers[w].(hold := t.workers[w].hold)]
    ensures Sessions(b, t)
         == if Holds(t, w) then Sessions(b, s)[w := SessionOf(b, HoldOf(t, w))] else Sessions(b, s) - {w}
  {
  }

  lemma SameSessions(b: Bounds, s: State, t: State)
    requires t.workers == s.workers
    ensures Sessions(b, t) == Sessions(b, s)
  {
  }

  /** A report writes the percentage by way of the copy. */
  lemma ProgressStep(c: Settings, b: Bounds, s: State, w: WorkerId, pct: int)
    requires CanWork(s, w, Progress(pct))
    ensures var t := Apply(c, s, Work(w, Progress(pct)));
            var h := HoldOf(s, w);
            var edited := ProgressCopy(h.copy, pct);
            && t.clock == s.clock && Rows(t) == Rows(s)[h.id := Flush(Rows(s)[h.id], h.copy, edited)]
            && Alive(t, w) && Executing(t, w) && HoldOf(t, w) == h.(copy := edited)
            && Sessions(b, t) == Sessions(b, s)[w := SessionOf(b, h.(copy := edited))]
  {
    OneSession(b, s, Apply(c, s, Work(w, Progress(pct))), w);
  }

  /** A final write leaves the worker idle. */
  lemma FinalStep(c: Settings, b: Bounds, s: State, w: WorkerId, a: WorkAction)
    requires CanWork(s, w, a) && (a.Complete? || a.Fail?)
    ensures var t := Apply(c, s, Work(w, a));
            var h := HoldOf(s, w);
            var edited := if a.Complete? then CompleteCopy(h.copy, a.result, a.wall)
                          else FailCopy(c, h.copy, a.message, a.permanent, a.wall);
            && t.clock == s.clock && Rows(t) == Rows(s)[h.id := Flush(Rows(s)[h.id], h.copy, edited)]
            && Alive(t, w) && !Holds(t, w) && Sessions(b, t) == Sessions(b, s) - {w}
  {
    OneSession(b, s, Apply(c, s, Work(w, a)), w);
  }

  /** A claim writes the row it hands out. */
  lemma ClaimStep(c: Settings, b: Bounds, s: State, w: WorkerId, a: WorkAction)
    requires CanWork(s, w, a) && a.Claim?
    ensures var t := Apply(c, s, Work(w, a));
            var row := ClaimRow(Rows(s)[a.id], w, a.wall + c.lease, a.now);
            && t.clock == s.clock && Rows(t) == Rows(s)[a.id := row]
            && Sessions(b, t) == Sessions(b, s)[w := Session(a.id, row, false, a.readAt + b.finish)]
  {
    OneSession(b, s, Apply(c, s, Work(w, a)), w);
  }

  /** These rows without their stale keys. */
  function Unkeyed(rows: map<Id, Job>, wall: Time): map<Id, Job> {
    map id | id in rows :: if Stale(rows[id], wall) then rows[id].(key := None) else rows[id]
  }

  /** The rows that change are those whose keys are stale. */
  lemma UnkeyedDiffer(rows: map<Id, Job>, wall: Time)
    ensures (set id | id in rows && Unkeyed(rows, wall)[id] != rows[id]) == set id | id in rows && Stale(rows[id], wall)
  {
  }

  /** A cleanup clears the stale keys and touches nothing else. */
  lemma CleanupStep(c: Settings, b: Bounds, s: State, wall: Time)
    ensures var t := Apply(c, s, Upkeep(Cleanup(wall)));
            && t.clock == s.clock && Sessions(b, t) == Sessions(b, s)
            && Rows(t) == Unkeyed(Rows(s), wall)
  {
    SameSessions(b, s, Apply(c, s, Upkeep(Cleanup(wall))));
  }

  /** A cancel or manual retry with no commit between its read and its write. */
  lemma AnswerAtOnce(c: Settings, b: Bounds, s: State, read: Call, commit: Call)
    requires (read.ReadCancel? && commit.CommitCancel?) || (read.ReadRetry? && commit.CommitRetry?)
    requires read.r == commit.r && CanCall(c, s, read)
    ensures var t := ApplyCall(c, s, read);
            && CanCall(c, t, commit) && Careful(c, b, t, Api(commit))
            && ApplyCall(c, t, commit).clock == s.clock && Sessions(b, ApplyCall(c, t, commit)) == Sessions(b, s)
            && Rows(ApplyCall(c, t, commit))
               == Rows(s)[read.id := if read.ReadCancel? then CancelCopy(s.table[read.id].job)
                                     else ReopenCopy(s.table[read.id].job, commit.wall)]
  {
    SameSessions(b, s, ApplyCall(c, ApplyCall(c, s, read), commit));
  }

  /** What the invariant of the protocol says of an open session. */
  lemma SessionAgrees(c: Settings, b: Bounds, epoch: Time, acts: seq<Action>, s: State, w: WorkerId)
    requires Fits(c, b) && Disciplined(c, b, Initial(epoch), acts, s) && w in s.workers && InFlight(s, w)
    ensures HoldOf(s, w).id in s.table && HoldOf(s, w).since <= s.clock
    ensures Agree(s.table[HoldOf(s, w).id].job, HoldOf(s, w).copy) && HoldOf(s, w).copy.leasedUntil.Some?
  {
    AlwaysInv(c, b, Initial(epoch), acts, s);
    assert Owns(b, s, w);
    assert Sound(c, b, s.table[HoldOf(s, w).id], s.clock);
  }

  lemma FlushedProgress(row: Job, copy: Job, pct: int)
    requires row.progress == copy.progress
    ensures Flush(row, copy, ProgressCopy(copy, pct))
         == row.(progress := if pct < 0 then 0 else if pct > 100 then 100 else pct)
  {
  }

  class Store {
    const c: Settings
    const b: Bounds
    ghost const epoch: Time
    var rows: map<Id, Job>
    var clock: Time
    var sessions: map<WorkerId, Session>
    ghost var model: State
    ghost var trace: seq<Action>

    ghost predicate Valid()
      reads this
    {
      && rows == Rows(model) && clock == model.clock && sessions == Sessions(b, model)
      && Fits(c, b) && Disciplined(c, b, Initial(epoch), trace, model)
    }

    ghost predicate Idle(w: WorkerId)
      reads this
    {
      Alive(model, w) && !Holds(model, w)
    }

    /** The executing session of worker `w`: its job and its copy. */
    ghost predicate Serving(w: WorkerId, id: Id, copy: Job)
      reads this
    {
      && Alive(model, w) && Executing(model, w)
      && HoldOf(model, w).id == id && HoldOf(model, w).copy == copy && HoldOf(model, w).since <= model.clock
    }

    constructor (c: Settings, b: Bounds, clock: Time)
      requires Fits(c, b)
      ensures Valid() && rows == map[] && this.clock == clock && this.c == c && this.b == b
    {
      this.c, this.b, this.epoch := c, b, clock;
      rows, this.clock, sessions, model, trace := map[], clock, map[], Initial(clock), [];
    }

    /** Records one more step of the run. */
    ghost method Record(a: Action)
      requires Disciplined(c, b, Initial(epoch), trace, model) && Fits(c, b)
      requires Enabled(c, model, a) && Careful(c, b, model, a) && !(a.World? && a.env.Tick?)
      requires a.Work? && a.work.Claim? ==> model.clock <= a.work.readAt + b.finish
      modifies `model, `trace
      ensures model == Apply(c, old(model), a) && trace == old(trace) + [a]
      ensures Disciplined(c, b, Initial(epoch), trace, model)
    {
      StaysOnTime(c, b, Initial(epoch), trace, model);
      SameClock(c, b, model, a);
      Extend(c, b, Initial(epoch), trace, model, a);
      model, trace := Apply(c, model, a), trace + [a];
    }

    ghost method RecordAnswer(read: Call, commit: Call)
      requires Disciplined(c, b, Initial(epoch), trace, model) && Fits(c, b)
      requires (read.ReadCancel? && commit.CommitCancel?) || (read.ReadRetry? && commit.CommitRetry?)
      requires read.r == commit.r && CanCall(c, model, read)
      modifies `model, `trace
      ensures Disciplined(c, b, Initial(epoch), trace, model) && trace == old(trace) + [Api(read), Api(commit)]
      ensures model.clock == old(model).clock && Sessions(b, model) == Sessions(b, old(model))
      ensures Rows(model)
           == Rows(old(model))[read.id := if read.ReadCancel? then CancelCopy(old(model).table[read.id].job)
                                          else ReopenCopy(old(model).table[read.id].job, commit.wall)]
    {
      AnswerAtOnce(c, b, model, read, commit);
      Record(Api(read));
      Record(Api(commit));
    }

    /** Time passes, no further than H1 lets it while live workers are in flight. */
    method Advance(to: Time)
      requires Valid() && clock <= to && forall w :: w in sessions ==> to <= sessions[w].deadline
      modifies `clock, `model, `trace
      ensures Valid() && clock == to && model == old(model).(clock := to)
      ensures trace == old(trace) + [World(Tick(to))]
    {
      ghost var next := model.(clock := to);
      assert OnTime(b, next) by {
        forall w | w in next.workers && InFlight(next, w) ensures to <= HoldOf(next, w).readAt + b.finish {
          assert w in Sessions(b, model) && SessionOf(b, HoldOf(model, w)) == sessions[w];
        }
      }
      Extend(c, b, Initial(epoch), trace, model, World(Tick(to)));
      trace, model := trace + [World(Tick(to))], next;
      clock := to;
      assert Sessions(b, next) == sessions;
    }

    /** Any amount of time passes that H1 lets pass. */
    method Elapse()
      requires Valid()
      modifies `clock, `model, `trace
      ensures Valid() && clock >= old(clock) && model == old(model).(clock := clock)
      ensures trace == old(trace) + [World(Tick(clock))]
    {
      StaysOnTime(c, b, Initial(epoch), trace, model);
      assert forall w :: w in sessions ==> clock <= sessions[w].deadline;
      var to: int := *;
      if to < clock || exists w :: w in sessions && sessions[w].deadline < to {
        to := clock;
      }
      Advance(to);
    }

    /** A process reads its own clock. */
    method ReadClock() returns (wall: Time)
      requires Valid()
      ensures Near(b, wall, clock)
    {
      var drift: int := *;
      if drift < -b.skew || drift > b.skew {
        drift := 0;
      }
      wall := clock + drift;
    }

    ghost method RecordClaim(id: Id, w: WorkerId, wall: Time)
      requires Valid() && Idle(w) && Near(b, wall, clock) && id in rows && Ready(rows[id], clock)
      modifies `model, `trace
      ensures Disciplined(c, b, Initial(epoch), trace, model) && model.clock == clock
      ensures Rows(model) == rows[id := ClaimRow(rows[id], w, wall + c.lease, clock)]
      ensures Sessions(b, model)
           == sessions[w := Session(id, ClaimRow(rows[id], w, wall + c.lease, clock), false, clock + b.finish)]
      ensures trace == old(trace) + [Work(w, Claim(id, wall, clock, clock))]
      ensures model == Apply(c, old(model), Work(w, Claim(id, wall, clock, clock)))
    {
      ClaimStep(c, b, model, w, Claim(id, wall, clock, clock));
      Record(Work(w, Claim(id, wall, clock, clock)));
    }

    /** The columns that a claim sets. */
    method MarkClaimed(row: Job, w: WorkerId, leasedUntil: Time) returns (claimed: Job)
      ensures claimed == ClaimRow(row, w, leasedUntil, clock)
    {
      claimed := row.(status := Processing, workerId := Some(w), leasedUntil := Some(leasedUntil),
                      startedAt := Some(clock), attempts := row.attempts + 1);
    }

    /** The UPDATE of a claim whose guard holds. */
    method Grant(id: Id, w: WorkerId, wall: Time, leasedUntil: Time) returns (row: Job)
      requires Valid() && Idle(w) && Near(b, wall, clock) && leasedUntil == wall + c.lease
      requires id in rows && Ready(rows[id], clock)
      modifies `rows, `sessions, `model, `trace
      ensures Valid() && sessions == old(sessions)[w := Session(id, row, false, clock + b.finish)]
      ensures row == ClaimRow(old(rows)[id], w, leasedUntil, clock) && rows == old(rows)[id := row]
      ensures trace == old(trace) + [Work(w, Claim(id, wall, clock, clock))]
      ensures model == Apply(c, old(model), Work(w, Claim(id, wall, clock, clock)))
    {
      RecordClaim(id, w, wall);
      row := MarkClaimed(rows[id], w, leasedUntil);
      rows, sessions := rows[id := row], sessions[w := Session(id, row, false, clock + b.finish)];
    }

    method ClaimJob(id: Id, w: WorkerId, wall: Time) returns (job: Option<Job>)
      requires Valid() && Idle(w) && Near(b, wall, clock)
      modifies `rows, `sessions, `model, `trace
      ensures Valid()
      ensures sessions == if job.None? then old(sessions)
                          else old(sessions)[w := Session(id, job.value, false, clock + b.finish)]
      ensures job.Some? <==> id in old(rows) && Ready(old(rows)[id], clock)
      ensures job.Some? <==>
                && id in old(rows) && old(rows)[id].status == Pending
                && (old(rows)[id].nextRunAt.Some? ==> old(rows)[id].nextRunAt.value <= clock)
      ensures job.None? ==> rows == old(rows) && model == old(model) && trace == old(trace)
      ensures job.Some? ==>
                && job.value == ClaimRow(old(rows)[id], w, wall + c.lease, clock)
                && job.value == old(rows)[id].(status := Processing, workerId := Some(w), startedAt := Some(clock),
                                               leasedUntil := Some(wall + c.lease),
                                               attempts := old(rows)[id].attempts + 1)
                && rows == old(rows)[id := job.value]
                && trace == old(trace) + [Work(w, Claim(id, wall, clock, clock))]
                && model == Apply(c, old(model), Work(w, Claim(id, wall, clock, clock)))
    {
      var leasedUntil := wall + c.lease;
      if id !in rows || rows[id].status != Pending || (rows[id].nextRunAt.Some? && rows[id].nextRunAt.value > clock) {
        return None;
      }
      var row := Grant(id, w, wall, leasedUntil);
      job := Some(row);
    }

    /** The "job started" entry of the audit log. */
    method LogStarted(w: WorkerId, id: Id, copy: Job)
      requires Valid() && Alive(model, w) && Holds(model, w) && HoldOf(model, w).id == id && id in rows
      requires HoldOf(model, w).copy == copy && !HoldOf(model, w).started && HoldOf(model, w).since <= clock
      modifies `sessions, `model, `trace
      ensures Valid() && Serving(w, id, copy) && id in rows && sessions.Keys == old(sessions).Keys
      ensures trace == old(trace) + [Work(w, Start)] && model == Apply(c, old(model), Work(w, Start))
    {
      Record(Work(w, Start));
      OneSession(b, old(model), model, w);
      sessions := sessions[w := sessions[w].(started := true)];
    }

    method MarkProgress(copy: Job, pct: int) returns (edited: Job)
      ensures edited == ProgressCopy(copy, pct)
    {
      edited := copy.(progress := if pct < 0 then 0 else if 100 < pct then 100 else pct);
    }

    ghost method RecordProgress(w: WorkerId, id: Id, copy: Job, pct: int)
      requires Valid() && Serving(w, id, copy) && id in rows
      modifies `model, `trace
      ensures Disciplined(c, b, Initial(epoch), trace, model) && model.clock == clock
      ensures Serving(w, id, ProgressCopy(copy, pct)) && w in sessions
      ensures Rows(model) == rows[id := Flush(rows[id], copy, ProgressCopy(copy, pct))]
      ensures Sessions(b, model) == sessions[w := sessions[w].(copy := ProgressCopy(copy, pct))]
      ensures trace == old(trace) + [Work(w, Progress(pct))] && model == Apply(c, old(model), Work(w, Progress(pct)))
    {
      ProgressStep(c, b, model, w, pct);
      Record(Work(w, Progress(pct)));
    }

    method ReportProgress(w: WorkerId, id: Id, copy: Job, pct: int) returns (edited: Job)
      requires Valid() && Serving(w, id, copy) && id in rows
      modifies `rows, `sessions, `model, `trace
      ensures Valid() && Serving(w, id, edited) && edited == ProgressCopy(copy, pct)
      ensures sessions.Keys == old(sessions).Keys
      ensures rows == old(rows)[id := Flush(old(rows)[id], copy, edited)]
      ensures rows == old(rows)[id := old(rows)[id].(progress := if pct < 0 then 0 else if pct > 100 then 100 else pct)]
      ensures trace == old(trace) + [Work(w, Progress(pct))] && model == Apply(c, old(model), Work(w, Progress(pct)))
    {
      SessionAgrees(c, b, epoch, trace, model, w);
      FlushedProgress(rows[id], copy, pct);
      RecordProgress(w, id, copy, pct);
      edited := MarkProgress(copy, pct);
      rows := rows[id := Flush(rows[id], copy, edited)];
      sessions := sessions[w := sessions[w].(copy := edited)];
    }

    method CompleteJob(w: WorkerId, id: Id, copy: Job, result: string, wall: Time)
      requires Valid() && Serving(w, id, copy) && id in rows
      modifies `rows, `sessions, `model, `trace
      ensures Valid() && Idle(w) && sessions == old(sessions) - {w}
      ensures rows == old(rows)[id := Flush(old(rows)[id], copy, CompleteCopy(copy, result, wall))]
      ensures rows[id] == old(rows)[id].(status := Completed, result := Some(result), progress := 100,
                                         completedAt := Some(wall), error := None, nextRunAt := None,
                                         leasedUntil := None)
      ensures trace == old(trace) + [Work(w, Complete(result, wall))]
      ensures model == Apply(c, old(model), Work(w, Complete(result, wall)))
    {
      SessionAgrees(c, b, epoch, trace, model, w);
      CompletedColumns(rows[id], copy, result, wall);
      FinalStep(c, b, model, w, Complete(result, wall));
      Record(Work(w, Complete(result, wall)));
      var edited := copy.(status := Completed, result := Some(result), progress := 100);
      edited := edited.(completedAt := Some(wall), error := None, nextRunAt := None, leasedUntil := None);
      rows := rows[id := Flush(rows[id], copy, edited)];
      sessions := sessions - {w};
    }

    /** What a failure assigns to the copy. */
    method MarkFailed(copy: Job, message: string, permanent: bool, wall: Time) returns (edited: Job, final: bool)
      ensures edited == FailCopy(c, copy, message, permanent, wall)
      ensures final <==> permanent || copy.attempts >= copy.maxAttempts
    {
      edited := copy.(error := Some(message), leasedUntil := None, workerId := None, result := None);
      if !permanent && copy.attempts < copy.maxAttempts {
        var delay := Backoff(c, copy.attempts);
        edited := edited.(status := Pending, nextRunAt := Some(wall + delay), startedAt := None, completedAt := None);
        final := false;
      } else {
        edited := edited.(status := Failed, nextRunAt := None, completedAt := Some(wall));
        final := true;
      }
    }

    /** A failure goes back to pending after its backoff, or is final; the caller indexes a final one. */
    method FailJob(w: WorkerId, id: Id, copy: Job, message: string, permanent: bool, wall: Time) returns (final: bool)
      requires Valid() && Serving(w, id, copy) && id in rows && Near(b, wall, clock)
      modifies `rows, `sessions, `model, `trace
      ensures Valid() && Idle(w) && sessions == old(sessions) - {w}
      ensures final <==> permanent || copy.attempts >= copy.maxAttempts
      ensures rows == old(rows)[id := Flush(old(rows)[id], copy, FailCopy(c, copy, message, permanent, wall))]
      ensures AfterFailure(c, old(rows)[id], rows[id], message, permanent, wall)
      ensures trace == old(trace) + [Work(w, Fail(message, permanent, wall, clock))]
      ensures model == Apply(c, old(model), Work(w, Fail(message, permanent, wall, clock)))
    {
      SessionAgrees(c, b, epoch, trace, model, w);
      FailedColumns(c, rows[id], copy, message, permanent, wall);
      FinalStep(c, b, model, w, Fail(message, permanent, wall, clock));
      Record(Work(w, Fail(message, permanent, wall, clock)));
      var edited;
      edited, final := MarkFailed(copy, message, permanent, wall);
      rows := rows[id := Flush(rows[id], copy, edited)];
      sessions := sessions - {w};
    }

    method RenewJobLease(id: Id, w: WorkerId, wall: Time) returns (until: Option<Time>)
      requires Valid() && Alive(model, w) && Near(b, wall, clock)
      modifies `rows, `model, `trace
      ensures Valid()
      ensures until.Some? <==> id in old(rows) && OwnedBy(old(rows)[id], w)
      ensures until.Some? <==>
                id in old(rows) && old(rows)[id].status == Processing && old(rows)[id].workerId == Some(w)
      ensures until.None? ==> rows == old(rows) && trace == old(trace) && model == old(model)
      ensures until.Some? ==>
                && until.value == wall + c.lease
                && rows == old(rows)[id := old(rows)[id].(leasedUntil := until)]
                && trace == old(trace) + [Work(w, Renew(id, wall, clock))]
    {
      if id !in rows || rows[id].status != Processing || rows[id].workerId != Some(w) {
        return None;
      }
      Record(Work(w, Renew(id, wall, clock)));
      until := Some(wall + c.lease);
      rows := rows[id := rows[id].(leasedUntil := until)];
    }

    method ReapOne(id: Id) returns (reaped: bool)
      requires Valid()
      modifies `rows, `model, `trace
      ensures Valid()
      ensures reaped <==> id in old(rows) && Expired(old(rows)[id], clock)
      ensures reaped <==>
                && id in old(rows) && old(rows)[id].status == Processing
                && old(rows)[id].leasedUntil.Some? && old(rows)[id].leasedUntil.value < clock
      ensures !reaped ==> rows == old(rows) && trace == old(trace) && model == old(model)
      ensures reaped ==> rows == old(rows)[id := ReapRow(old(rows)[id])]
      ensures reaped ==>
                rows[id] == old(rows)[id].(status := Pending, workerId := None, leasedUntil := None, nextRunAt := None)
      ensures reaped ==> trace == old(trace) + [Upkeep(Reap(id, clock))]
      ensures reaped ==> model.workers == old(model.workers)
    {
      if id !in rows || rows[id].status != Processing
         || rows[id].leasedUntil.None? || rows[id].leasedUntil.value >= clock
      {
        return false;
      }
      Record(Upkeep(Reap(id, clock)));
      SameSessions(b, old(model), model);
      rows := rows[id := rows[id].(status := Pending, workerId := None, leasedUntil := None, nextRunAt := None)];
      reaped := true;
    }

    method PromoteOne(id: Id) returns (promoted: bool)
      requires Valid()
      modifies `rows, `model, `trace
      ensures Valid()
      ensures promoted <==> id in old(rows) && Due(old(rows)[id], clock)
      ensures promoted <==>
                && id in old(rows) && old(rows)[id].status == Scheduled
                && old(rows)[id].scheduledAt.Some? && old(rows)[id].scheduledAt.value <= clock
      ensures !promoted ==> rows == old(rows) && trace == old(trace) && model == old(model)
      ensures promoted ==> rows == old(rows)[id := PromoteRow(old(rows)[id])]
      ensures promoted ==> rows[id] == old(rows)[id].(status := Pending, nextRunAt := None)
      ensures promoted ==> trace == old(trace) + [Upkeep(Promote(id, clock))]
      ensures promoted ==> model.workers == old(model.workers)
    {
      if id !in rows || rows[id].status != Scheduled
         || rows[id].scheduledAt.None? || rows[id].scheduledAt.value > clock
      {
        return false;
      }
      Record(Upkeep(Promote(id, clock)));
      SameSessions(b, old(model), model);
      rows := rows[id := rows[id].(status := Pending, nextRunAt := None)];
      promoted := true;
    }

    method FindByKey(key: string) returns (id: Option<Id>)
      ensures id.Some? ==> id.value in rows && rows[id.value].key == Some(key)
      ensures id.None? ==> forall i :: i in rows ==> rows[i].key != Some(key)
    {
      if i :| i in rows && rows[i].key == Some(key) {
        id := Some(i);
      } else {
        id := None;
      }
    }

    /** The insert and its flush: refused when the unique index already has the key. */
    method InsertJob(id: Id, priority: int, scheduledAt: Option<Time>, key: Option<string>) returns (inserted: bool)
      requires Valid() && id !in rows && c.defaultMaxAttempts > 0 && clock >= 0
      modifies `rows, `model, `trace
      ensures Valid()
      ensures inserted <==> key.None? || forall i :: i in old(rows) ==> old(rows)[i].key != key
      ensures !inserted ==> rows == old(rows) && trace == old(trace)
      ensures inserted ==> rows == old(rows)[id := NewJob(c, priority, scheduledAt, key, clock)]
      ensures inserted ==> AsSubmitted(c, rows[id], priority, scheduledAt, key, clock)
      ensures inserted ==> trace == old(trace) + [Api(Insert(id, priority, scheduledAt, key, clock))]
    {
      if key.Some? && exists i :: i in rows && rows[i].key == key {
        return false;
      }
      assert KeyFree(model, key) by {
        forall i | i in model.table && key.Some? ensures model.table[i].job.key != key {
          assert i in rows;
        }
      }
      Record(Api(Insert(id, priority, scheduledAt, key, clock)));
      SameSessions(b, old(model), model);
      rows := rows[id := NewJob(c, priority, scheduledAt, key, clock)];
      inserted := true;
    }

    /** Reads, checks and writes in one session with no commit in between; `r` names the request. */
    method Cancel(id: Id, ghost r: nat) returns (cancelled: bool)
      requires Valid() && id in rows && r !in model.requests
      modifies `rows, `model, `trace
      ensures Valid()
      ensures cancelled <==> old(rows)[id].status in {Pending, Scheduled}
      ensures !cancelled ==> rows == old(rows) && trace == old(trace)
      ensures cancelled ==> rows == old(rows)[id := CancelCopy(old(rows)[id])]
      ensures cancelled ==>
                rows[id] == old(rows)[id].(status := Cancelled, nextRunAt := None, leasedUntil := None,
                                           workerId := None)
      ensures cancelled ==> trace == old(trace) + [Api(ReadCancel(r, id)), Api(CommitCancel(r))]
    {
      var copy := rows[id];
      if copy.status != Pending && copy.status != Scheduled {
        return false;
      }
      RecordAnswer(ReadCancel(r, id), CommitCancel(r));
      var edited := copy.(status := Cancelled, nextRunAt := None, leasedUntil := None, workerId := None);
      rows := rows[id := Flush(rows[id], copy, edited)];
      cancelled := true;
    }

    method Reopen(id: Id, wall: Time, ghost r: nat) returns (reopened: bool)
      requires Valid() && id in rows && r !in model.requests
      modifies `rows, `model, `trace
      ensures Valid()
      ensures reopened <==> old(rows)[id].status == Failed
      ensures !reopened ==> rows == old(rows) && trace == old(trace)
      ensures reopened ==> rows == old(rows)[id := ReopenCopy(old(rows)[id], wall)]
      ensures reopened ==>
                rows[id] == old(rows)[id].(status := Pending, maxAttempts := old(rows)[id].maxAttempts + 1,
                                           nextRunAt := Some(wall), completedAt := None, startedAt := None,
                                           leasedUntil := None, workerId := None, error := None)
      ensures reopened ==> trace == old(trace) + [Api(ReadRetry(r, id)), Api(CommitRetry(r, wall))]
    {
      var copy := rows[id];
      if copy.status != Failed {
        return false;
      }
      RecordAnswer(ReadRetry(r, id), CommitRetry(r, wall));
      var edited := copy.(maxAttempts := copy.maxAttempts + 1, status := Pending, nextRunAt := Some(wall));
      edited := edited.(completedAt := None, startedAt := None, leasedUntil := None, workerId := None, error := None);
      rows := rows[id := Flush(rows[id], copy, edited)];
      reopened := true;
    }

    /** UPDATE of the rows whose keys are past the window, and how many there were. */
    method ClearStale(wall: Time) returns (cleared: nat)
      modifies `rows
      ensures rows == Unkeyed(old(rows), wall)
      ensures cleared == |set id | id in old(rows) && Stale(old(rows)[id], wall)|
    {
      var stale := set id | id in rows && rows[id].key.Some? && rows[id].createdAt < wall - IDEMPOTENCY_TTL;
      assert stale == set id | id in rows && Stale(rows[id], wall);
      rows := map id | id in rows :: if id in stale then rows[id].(key := None) else rows[id];
      cleared := |stale|;
    }

    method CleanupExpiredKeys(wall: Time) returns (cleared: nat)
      requires Valid() && wall <= clock + b.skew
      modifies `rows, `model, `trace
      ensures Valid()
      ensures rows.Keys == old(rows).Keys
      ensures forall id :: id in rows ==>
                rows[id] == if old(rows)[id].key.Some? && old(rows)[id].createdAt < wall - 24 * 60 * 60 * 1_000_000
                            then old(rows)[id].(key := None) else old(rows)[id]
      ensures cleared == |set id | id in old(rows) && Stale(old(rows)[id], wall)|
      ensures cleared == |set id | id in old(rows) && rows[id] != old(rows)[id]|
      ensures trace == old(trace) + [Upkeep(Cleanup(wall))]
    {
      CleanupStep(c, b, model, wall);
      Record(Upkeep(Cleanup(wall)));
      UnkeyedDiffer(rows, wall);
      cleared := ClearStale(wall);
    }
  }
}
