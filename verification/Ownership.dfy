/**
 * The disciplined regime: a live worker owns its row from its claim to its final commit, and what follows from
 * that for every row.
 */
module Ownership {
  import opened Wrappers
  import opened Jobs
  import opened Protocol

  function One(p: bool): nat { if p then 1 else 0 }

  // ---- the invariant of one row ----

  /** Which columns are null in which status. */
  predicate Shaped(j: Job) {
    && (j.leasedUntil.Some? <==> j.status == Processing)
    && (j.workerId.Some? <==> j.status in {Processing, Completed})
    && (j.completedAt.Some? <==> j.status in {Completed, Failed})
    && (j.result.Some? <==> j.status == Completed)
    && (j.status == Scheduled ==> j.scheduledAt.Some? && j.nextRunAt == j.scheduledAt)
    && (j.status == Processing ==> j.startedAt.Some? && (j.nextRunAt.Some? ==> j.nextRunAt.value <= j.startedAt.value))
    && (j.status == Completed ==> j.progress == 100 && j.error.None?)
    && (Terminal(j) ==> j.nextRunAt.None?)
    && 0 <= j.progress <= 100
  }

  /** Every attempt is accounted for, and so is every addition to the allowance. */
  predicate Conserved(c: Settings, e: Entry) {
    && e.job.attempts == Count(e.history, RetryScheduled) + Count(e.history, FailedPermanently)
                         + Count(e.history, Reaped) + One(e.job.status == Processing) + One(e.job.status == Completed)
    && e.job.maxAttempts == c.defaultMaxAttempts + Count(e.history, ManualRetry)
    && e.job.attempts <= e.job.maxAttempts + Count(e.history, Reaped)
    && (e.job.status in {Pending, Scheduled} ==> e.job.attempts < e.job.maxAttempts + Count(e.history, Reaped))
  }

  /** The audit log tells the status, balances permanent failures with manual retries, and never over-reports starts. */
  predicate Audited(e: Entry) {
    && (LastLogged(e.history) == Some(JobCompleted) <==> e.job.status == Completed)
    && (LastLogged(e.history) == Some(FailedPermanently) <==> e.job.status == Failed)
    && (LastLogged(e.history) == Some(JobCancelled) <==> e.job.status == Cancelled)
    && (e.job.status == Scheduled ==> LastLogged(e.history) == Some(JobCreated))
    && Count(e.history, FailedPermanently) == Count(e.history, ManualRetry) + One(e.job.status == Failed)
    && Count(e.history, JobStarted) <= e.job.attempts
  }

  /** The latest claim is no earlier than the first claim plus the backoff of every retry in between. */
  predicate Paced(b: Bounds, e: Entry, clock: Time) {
    var first, last := FirstClaim(e.history), LastClaim(e.history);
    var owed, waited := Owed(e.history, b.skew), Waited(e.history, b.skew);
    && (first.Some? <==> last.Some?)
    && (last.None? ==> waited == 0 && owed == 0)
    && (last.Some? ==> last.value <= clock && last.value - first.value >= waited)
    && (e.job.status == Pending && owed > 0 ==>
          last.Some? && e.job.nextRunAt.Some? && e.job.nextRunAt.value >= last.value + owed)
    && (e.job.status !in {Pending, Cancelled} ==> owed == 0)
  }

  predicate Sound(c: Settings, b: Bounds, e: Entry, clock: Time) {
    Shaped(e.job) && Conserved(c, e) && Audited(e) && Paced(b, e, clock)
  }

  // ---- the invariant of a live hold ----

  /** The worker's row is still its own, agrees with its copy, and its lease covers its bound. */
  predicate Owned(b: Bounds, e: Entry, w: WorkerId, h: Hold) {
    && e.job.status == Processing && e.job.workerId == Some(w)
    && Agree(e.job, h.copy)
    && h.copy.leasedUntil.Some? && e.job.leasedUntil.Some? && e.job.leasedUntil.value >= h.readAt + b.finish
    && LastClaim(e.history) == Some(h.since)
    && (!h.started ==> Count(e.history, JobStarted) < e.job.attempts)
    && (h.started ==> LastLogged(e.history) == Some(JobStarted))
  }

  /** Only a renewal and the key cleanup may have touched the row since the copy was taken. */
  predicate Agree(row: Job, copy: Job) {
    row == copy.(leasedUntil := row.leasedUntil, key := row.key)
  }

  predicate Owns(b: Bounds, s: State, w: WorkerId)
    requires Holds(s, w)
  {
    HoldOf(s, w).id in s.table && HoldOf(s, w).readAt <= s.clock && Owned(b, s.table[HoldOf(s, w).id], w, HoldOf(s, w))
  }

  /**
   * A processing row has an owner; the owner crashed, or is in flight on this very row; and the lease reaches at
   * most one lease length and the skew past the owner's last sign of life.
   */
  predicate Attended(c: Settings, b: Bounds, s: State, id: Id, j: Job) {
    j.status == Processing ==>
      && j.workerId.Some? && j.workerId.value in s.workers && j.leasedUntil.Some?
      && j.leasedUntil.value <= LastSeen(s, j.workerId.value) + c.lease + b.skew
      && (Alive(s, j.workerId.value) ==> Holds(s, j.workerId.value) && HoldOf(s, j.workerId.value).id == id)
  }

  function LastSeen(s: State, w: WorkerId): Time
    requires w in s.workers
  {
    if s.workers[w].crashedAt.Some? then s.workers[w].crashedAt.value else s.clock
  }

  predicate AllSound(c: Settings, b: Bounds, table: map<Id, Entry>, clock: Time) {
    forall id :: id in table ==> Sound(c, b, table[id], clock)
  }

  predicate AllAttended(c: Settings, b: Bounds, s: State) {
    forall id :: id in s.table ==> Attended(c, b, s, id, s.table[id].job)
  }

  predicate AllOwn(b: Bounds, s: State) {
    forall w :: w in s.workers && InFlight(s, w) ==> Owns(b, s, w)
  }

  /** What a cancel or manual retry saw when it looked. */
  predicate AllAsked(s: State) {
    forall r :: r in s.requests ==>
      if s.requests[r].Cancelling? then Cancellable(s.requests[r].copy) else s.requests[r].copy.status == Failed
  }

  predicate Inv(c: Settings, b: Bounds, s: State) {
    AllSound(c, b, s.table, s.clock) && AllAttended(c, b, s) && AllOwn(b, s) && AllAsked(s)
  }

  // ---- rows, one statement at a time ----

  lemma FlushAgreed(row: Job, copy: Job, edited: Job)
    requires Agree(row, copy) && edited.key == copy.key
    ensures Flush(row, copy, edited)
         == edited.(key := row.key, leasedUntil := Column(row.leasedUntil, copy.leasedUntil, edited.leasedUntil))
  {
  }

  /** What a failure leaves of a row, column by column. */
  predicate AfterFailure(c: Settings, before: Job, after: Job, message: string, permanent: bool, wall: Time) {
    if !permanent && before.attempts < before.maxAttempts then
      after == before.(status := Pending, error := Some(message), leasedUntil := None, workerId := None, result := None,
                       nextRunAt := Some(wall + if before.attempts == 1 then c.backoffAfter1 else c.backoffAfter2),
                       startedAt := None, completedAt := None)
    else
      after == before.(status := Failed, error := Some(message), leasedUntil := None, workerId := None, result := None,
                       nextRunAt := None, completedAt := Some(wall))
  }

  /** A completion flushed from an agreeing copy. */
  lemma CompletedColumns(row: Job, copy: Job, result: string, wall: Time)
    requires Agree(row, copy) && copy.leasedUntil.Some?
    ensures Flush(row, copy, CompleteCopy(copy, result, wall))
         == row.(status := Completed, result := Some(result), progress := 100, completedAt := Some(wall), error := None,
                 nextRunAt := None, leasedUntil := None)
  {
    FlushAgreed(row, copy, CompleteCopy(copy, result, wall));
  }

  /** A failure flushed from an agreeing copy. */
  lemma FailedColumns(c: Settings, row: Job, copy: Job, message: string, permanent: bool, wall: Time)
    requires Agree(row, copy) && copy.leasedUntil.Some?
    ensures var row' := Flush(row, copy, FailCopy(c, copy, message, permanent, wall));
            AfterFailure(c, row, row', message, permanent, wall)
  {
    FlushAgreed(row, copy, FailCopy(c, copy, message, permanent, wall));
  }

  lemma SoundClaim(c: Settings, b: Bounds, e: Entry, w: WorkerId, until: Time, now: Time, clock: Time)
    requires Sound(c, b, e, clock) && Ready(e.job, now) && now <= clock
    ensures Sound(c, b, Entry(ClaimRow(e.job, w, until, now),
                              e.history + [Event(Claimed, clock, e.job.attempts + 1, 0)]), clock)
  {
    Grow(e.history, Event(Claimed, clock, e.job.attempts + 1, 0), b.skew);
  }

  lemma SoundStart(c: Settings, b: Bounds, e: Entry, attempt: nat, clock: Time)
    requires Sound(c, b, e, clock) && e.job.status == Processing && Count(e.history, JobStarted) < e.job.attempts
    ensures Sound(c, b, e.(history := e.history + [Event(JobStarted, clock, attempt, 0)]), clock)
  {
    Grow(e.history, Event(JobStarted, clock, attempt, 0), b.skew);
  }

  lemma SoundComplete(c: Settings, b: Bounds, e: Entry, w: WorkerId, h: Hold, result: string, wall: Time, clock: Time)
    requires Sound(c, b, e, clock) && Owned(b, e, w, h)
    ensures Sound(c, b, Entry(Flush(e.job, h.copy, CompleteCopy(h.copy, result, wall)),
                              e.history + [Event(JobCompleted, clock, h.copy.attempts, 0)]), clock)
  {
    FlushAgreed(e.job, h.copy, CompleteCopy(h.copy, result, wall));
    Grow(e.history, Event(JobCompleted, clock, h.copy.attempts, 0), b.skew);
  }

  lemma SoundFail(c: Settings, b: Bounds, e: Entry, w: WorkerId, h: Hold, a: WorkAction, clock: Time)
    requires Sound(c, b, e, clock) && Owned(b, e, w, h) && a.Fail? && Near(b, a.wall, a.readAt) && h.since <= a.readAt
    ensures Sound(c, b, Entry(Flush(e.job, h.copy, FailCopy(c, h.copy, a.message, a.permanent, a.wall)),
                              e.history + [Event(FailKind(h.copy, a.permanent), clock, h.copy.attempts,
                                                 Delay(c, h.copy, a.permanent))]), clock)
  {
    FlushAgreed(e.job, h.copy, FailCopy(c, h.copy, a.message, a.permanent, a.wall));
    var v := Event(FailKind(h.copy, a.permanent), clock, h.copy.attempts, Delay(c, h.copy, a.permanent));
    Grow(e.history, v, b.skew);
  }

  lemma SoundReap(c: Settings, b: Bounds, e: Entry, now: Time, clock: Time)
    requires Sound(c, b, e, clock) && Expired(e.job, now)
    ensures Sound(c, b, Entry(ReapRow(e.job), e.history + [Event(Reaped, clock, e.job.attempts, 0)]), clock)
  {
    Grow(e.history, Event(Reaped, clock, e.job.attempts, 0), b.skew);
  }

  lemma PacedQuiet(b: Bounds, e: Entry, job: Job, v: Event, clock: Time)
    requires Paced(b, e, clock) && v.kind in {Promoted, JobCancelled}
    requires job.status == Cancelled || (e.job.status == Scheduled && job.status == Pending)
    ensures Paced(b, Entry(job, e.history + [v]), clock)
  {
    Grow(e.history, v, b.skew);
  }

  lemma AuditedQuiet(e: Entry, job: Job, v: Event)
    requires Audited(e) && Cancellable(e.job) && job.attempts == e.job.attempts
    requires (v.kind == Promoted && job.status == Pending) || (v.kind == JobCancelled && job.status == Cancelled)
    ensures Audited(Entry(job, e.history + [v]))
  {
    Grow(e.history, v, 0);
  }

  /** An event that no count of the ledger takes in, and a row that keeps its counts and is not processing. */
  lemma SoundQuiet(c: Settings, b: Bounds, e: Entry, job: Job, v: Event, clock: Time)
    requires Sound(c, b, e, clock) && v.kind in {Promoted, JobCancelled} && Cancellable(e.job) && Shaped(job)
    requires job.attempts == e.job.attempts && job.maxAttempts == e.job.maxAttempts
    requires v.kind == Promoted ==> e.job.status == Scheduled && job.status == Pending
    requires v.kind == JobCancelled ==> job.status == Cancelled
    ensures Sound(c, b, Entry(job, e.history + [v]), clock)
  {
    AuditedQuiet(e, job, v);
    PacedQuiet(b, e, job, v, clock);
    assert Conserved(c, Entry(job, e.history + [v])) by { Grow(e.history, v, b.skew); }
  }

  lemma SoundPromote(c: Settings, b: Bounds, e: Entry, now: Time, clock: Time)
    requires Sound(c, b, e, clock) && Due(e.job, now)
    ensures Sound(c, b, Entry(PromoteRow(e.job), e.history + [Event(Promoted, clock, e.job.attempts, 0)]), clock)
  {
    SoundQuiet(c, b, e, PromoteRow(e.job), Event(Promoted, clock, e.job.attempts, 0), clock);
  }

  lemma SoundCancel(c: Settings, b: Bounds, e: Entry, clock: Time)
    requires Sound(c, b, e, clock) && Cancellable(e.job)
    ensures Sound(c, b, Entry(Flush(e.job, e.job, CancelCopy(e.job)),
                              e.history + [Event(JobCancelled, clock, e.job.attempts, 0)]), clock)
  {
    FlushAgreed(e.job, e.job, CancelCopy(e.job));
    SoundQuiet(c, b, e, CancelCopy(e.job), Event(JobCancelled, clock, e.job.attempts, 0), clock);
  }

  lemma SoundReopen(c: Settings, b: Bounds, e: Entry, wall: Time, clock: Time)
    requires Sound(c, b, e, clock) && e.job.status == Failed
    ensures Sound(c, b, Entry(Flush(e.job, e.job, ReopenCopy(e.job, wall)),
                              e.history + [Event(ManualRetry, clock, e.job.attempts, 0)]), clock)
  {
    Grow(e.history, Event(ManualRetry, clock, e.job.attempts, 0), b.skew);
  }

  lemma SoundNew(c: Settings, b: Bounds, job: Job, clock: Time)
    requires c.defaultMaxAttempts > 0
    requires exists p, at, k, t :: job == NewJob(c, p, at, k, t)
    ensures Sound(c, b, Entry(job, [Event(JobCreated, clock, 0, 0)]), clock)
  {
    Grow([], Event(JobCreated, clock, 0, 0), b.skew);
    assert [] + [Event(JobCreated, clock, 0, 0)] == [Event(JobCreated, clock, 0, 0)];
  }

  // ---- one step of the whole system ----

  /** No live worker holds a row that is not processing. */
  lemma NotHeld(c: Settings, b: Bounds, s: State, id: Id)
    requires Inv(c, b, s) && (id in s.table ==> s.table[id].job.status != Processing)
    ensures forall w :: w in s.workers && InFlight(s, w) ==> HoldOf(s, w).id != id
  {
    forall w | w in s.workers && InFlight(s, w) ensures HoldOf(s, w).id != id {
      assert Owns(b, s, w);
    }
  }

  lemma ReplaceSound(c: Settings, b: Bounds, table: map<Id, Entry>, id: Id, e: Entry, clock: Time)
    requires AllSound(c, b, table, clock) && Sound(c, b, e, clock)
    ensures AllSound(c, b, table[id := e], clock)
  {
  }

  lemma SoundKey(c: Settings, b: Bounds, e: Entry, clock: Time)
    requires Sound(c, b, e, clock)
    ensures Sound(c, b, e.(job := e.job.(key := None)), clock)
  {
  }

  lemma ClaimOwned(c: Settings, b: Bounds, e: Entry, w: WorkerId, a: WorkAction, clock: Time)
    requires Fits(c, b) && Sound(c, b, e, clock) && a.Claim? && Near(b, a.wall, a.readAt)
    ensures var job := ClaimRow(e.job, w, a.wall + c.lease, a.now);
            Owned(b, Entry(job, e.history + [Event(Claimed, clock, job.attempts, 0)]), w,
                  Hold(a.id, job, a.readAt, clock, false))
  {
    Grow(e.history, Event(Claimed, clock, e.job.attempts + 1, 0), b.skew);
  }

  /** The state after worker `w` changed row `id` and its own hold. */
  function Replace(s: State, w: WorkerId, hold: Option<Hold>, id: Id, e: Entry): State
    requires w in s.workers
  {
    s.(table := s.table[id := e], workers := s.workers[w := s.workers[w].(hold := hold)])
  }

  /** A live worker may change a row that only it can hold, if it then owns the row or has left it. */
  predicate MayReplace(c: Settings, b: Bounds, s: State, w: WorkerId, hold: Option<Hold>, id: Id, e: Entry) {
    && Alive(s, w) && id in s.table
    && (Holds(s, w) ==> HoldOf(s, w).id == id)
    && (forall v :: v in s.workers && v != w && InFlight(s, v) ==> HoldOf(s, v).id != id)
    && (hold.None? ==> e.job.status != Processing)
    && (hold.Some? ==>
          && hold.value.id == id && hold.value.readAt <= s.clock && Owned(b, e, w, hold.value)
          && e.job.leasedUntil.value <= s.clock + c.lease + b.skew)
  }

  lemma ReplaceOwn(c: Settings, b: Bounds, s: State, w: WorkerId, hold: Option<Hold>, id: Id, e: Entry)
    requires AllOwn(b, s) && MayReplace(c, b, s, w, hold, id, e)
    ensures AllOwn(b, Replace(s, w, hold, id, e))
  {
    var t := Replace(s, w, hold, id, e);
    forall v | v in t.workers && InFlight(t, v) ensures Owns(b, t, v) {
      if v != w { assert Owns(b, s, v); }
    }
  }

  lemma ReplaceAttended(c: Settings, b: Bounds, s: State, w: WorkerId, hold: Option<Hold>, id: Id, e: Entry)
    requires AllAttended(c, b, s) && MayReplace(c, b, s, w, hold, id, e)
    ensures AllAttended(c, b, Replace(s, w, hold, id, e))
  {
    var t := Replace(s, w, hold, id, e);
    forall i | i in t.table ensures Attended(c, b, t, i, t.table[i].job) {
      if i != id { assert Attended(c, b, s, i, s.table[i].job); }
    }
  }

  lemma ReplaceInv(c: Settings, b: Bounds, s: State, w: WorkerId, hold: Option<Hold>, id: Id, e: Entry)
    requires Inv(c, b, s) && MayReplace(c, b, s, w, hold, id, e) && Sound(c, b, e, s.clock)
    ensures Inv(c, b, Replace(s, w, hold, id, e))
  {
    ReplaceSound(c, b, s.table, id, e, s.clock);
    ReplaceOwn(c, b, s, w, hold, id, e);
    ReplaceAttended(c, b, s, w, hold, id, e);
  }

  /** Two live workers never hold one row. */
  lemma OnlyOwner(c: Settings, b: Bounds, s: State, w: WorkerId)
    requires Inv(c, b, s) && w in s.workers && InFlight(s, w)
    ensures Owns(b, s, w)
    ensures forall v :: v in s.workers && v != w && InFlight(s, v) ==> HoldOf(s, v).id != HoldOf(s, w).id
  {
    forall v | v in s.workers && v != w && InFlight(s, v) ensures HoldOf(s, v).id != HoldOf(s, w).id {
      assert Owns(b, s, v) && Owns(b, s, w);
    }
  }

  lemma MayClaim(c: Settings, b: Bounds, s: State, w: WorkerId, a: WorkAction, job: Job, e: Entry)
    requires Fits(c, b) && Inv(c, b, s) && a.Claim? && CanWork(s, w, a) && Near(b, a.wall, a.readAt)
    requires job == ClaimRow(s.table[a.id].job, w, a.wall + c.lease, a.now)
    requires e == Entry(job, s.table[a.id].history + [Event(Claimed, s.clock, job.attempts, 0)])
    ensures MayReplace(c, b, s, w, Some(Hold(a.id, job, a.readAt, s.clock, false)), a.id, e)
    ensures Sound(c, b, e, s.clock)
  {
    SoundClaim(c, b, s.table[a.id], w, a.wall + c.lease, a.now, s.clock);
    ClaimOwned(c, b, s.table[a.id], w, a, s.clock);
    NotHeld(c, b, s, a.id);
  }

  lemma ClaimReplaces(c: Settings, s: State, w: WorkerId, a: WorkAction, job: Job)
    requires a.Claim? && CanWork(s, w, a) && job == ClaimRow(s.table[a.id].job, w, a.wall + c.lease, a.now)
    ensures var e := Entry(job, s.table[a.id].history + [Event(Claimed, s.clock, job.attempts, 0)]);
            ApplyWork(c, s, w, a) == Replace(s, w, Some(Hold(a.id, job, a.readAt, s.clock, false)), a.id, e)
  {
  }

  lemma ClaimInv(c: Settings, b: Bounds, s: State, w: WorkerId, a: WorkAction)
    requires Fits(c, b) && Inv(c, b, s) && a.Claim? && CanWork(s, w, a) && Near(b, a.wall, a.readAt)
    ensures Inv(c, b, ApplyWork(c, s, w, a))
  {
    var job := ClaimRow(s.table[a.id].job, w, a.wall + c.lease, a.now);
    var e := Entry(job, s.table[a.id].history + [Event(Claimed, s.clock, job.attempts, 0)]);
    ClaimReplaces(c, s, w, a, job);
    MayClaim(c, b, s, w, a, job, e);
    ReplaceInv(c, b, s, w, Some(Hold(a.id, job, a.readAt, s.clock, false)), a.id, e);
  }

  lemma StartInv(c: Settings, b: Bounds, s: State, w: WorkerId)
    requires Inv(c, b, s) && CanWork(s, w, Start)
    ensures Inv(c, b, ApplyWork(c, s, w, Start))
  {
    var h := HoldOf(s, w);
    var e := s.table[h.id];
    OnlyOwner(c, b, s, w);
    SoundStart(c, b, e, h.copy.attempts, s.clock);
    Grow(e.history, Event(JobStarted, s.clock, h.copy.attempts, 0), b.skew);
    ReplaceInv(c, b, s, w, Some(h.(started := true)), h.id,
               e.(history := e.history + [Event(JobStarted, s.clock, h.copy.attempts, 0)]));
  }

  lemma ProgressInv(c: Settings, b: Bounds, s: State, w: WorkerId, pct: int)
    requires Inv(c, b, s) && CanWork(s, w, Progress(pct))
    ensures Inv(c, b, ApplyWork(c, s, w, Progress(pct)))
  {
    var h := HoldOf(s, w);
    var e := s.table[h.id];
    OnlyOwner(c, b, s, w);
    FlushAgreed(e.job, h.copy, ProgressCopy(h.copy, pct));
    ReplaceInv(c, b, s, w, Some(h.(copy := ProgressCopy(h.copy, pct))), h.id,
               e.(job := Flush(e.job, h.copy, ProgressCopy(h.copy, pct))));
  }

  lemma FinishInv(c: Settings, b: Bounds, s: State, w: WorkerId, edited: Job, kind: Kind, delay: int)
    requires Inv(c, b, s) && Alive(s, w) && Executing(s, w) && edited.status != Processing
    requires var h := HoldOf(s, w);
             Sound(c, b, Entry(Flush(s.table[h.id].job, h.copy, edited),
                               s.table[h.id].history + [Event(kind, s.clock, h.copy.attempts, delay)]), s.clock)
    ensures Inv(c, b, Finish(s, w, edited, kind, delay))
  {
    var h := HoldOf(s, w);
    OnlyOwner(c, b, s, w);
    ReplaceInv(c, b, s, w, None, h.id,
               Entry(Flush(s.table[h.id].job, h.copy, edited),
                     s.table[h.id].history + [Event(kind, s.clock, h.copy.attempts, delay)]));
  }

  /** A renewal, read no earlier than `b.renew` ago, still covers the worker's bound. */
  lemma RenewOwned(c: Settings, b: Bounds, e: Entry, w: WorkerId, h: Hold, wall: Time, readAt: Time, clock: Time)
    requires Fits(c, b) && Owned(b, e, w, h) && h.readAt <= clock
    requires Near(b, wall, readAt) && clock <= readAt + b.renew
    ensures Owned(b, e.(job := e.job.(leasedUntil := Some(wall + c.lease))), w, h)
  {
  }

  lemma SoundRenew(c: Settings, b: Bounds, e: Entry, until: Time, clock: Time)
    requires Sound(c, b, e, clock) && e.job.status == Processing
    ensures Sound(c, b, e.(job := e.job.(leasedUntil := Some(until))), clock)
  {
  }

  lemma MayRenew(c: Settings, b: Bounds, s: State, w: WorkerId, a: WorkAction)
    requires Fits(c, b) && Inv(c, b, s) && a.Renew? && CanWork(s, w, a)
    requires Near(b, a.wall, a.readAt) && s.clock <= a.readAt + b.renew
    ensures var e := s.table[a.id].(job := s.table[a.id].job.(leasedUntil := Some(a.wall + c.lease)));
            MayReplace(c, b, s, w, s.workers[w].hold, a.id, e) && Sound(c, b, e, s.clock)
  {
    var e := s.table[a.id];
    assert Attended(c, b, s, a.id, e.job);
    OnlyOwner(c, b, s, w);
    RenewOwned(c, b, e, w, HoldOf(s, w), a.wall, a.readAt, s.clock);
    SoundRenew(c, b, e, a.wall + c.lease, s.clock);
  }

  lemma RenewReplaces(c: Settings, s: State, w: WorkerId, a: WorkAction)
    requires a.Renew? && CanWork(s, w, a)
    ensures ApplyWork(c, s, w, a)
         == Replace(s, w, s.workers[w].hold, a.id,
                    s.table[a.id].(job := s.table[a.id].job.(leasedUntil := Some(a.wall + c.lease))))
  {
    assert s.workers[w := s.workers[w].(hold := s.workers[w].hold)] == s.workers;
  }

  lemma RenewInv(c: Settings, b: Bounds, s: State, w: WorkerId, a: WorkAction)
    requires Fits(c, b) && Inv(c, b, s) && a.Renew? && CanWork(s, w, a)
    requires Near(b, a.wall, a.readAt) && s.clock <= a.readAt + b.renew
    ensures Inv(c, b, ApplyWork(c, s, w, a))
  {
    RenewReplaces(c, s, w, a);
    MayRenew(c, b, s, w, a);
    ReplaceInv(c, b, s, w, s.workers[w].hold, a.id,
               s.table[a.id].(job := s.table[a.id].job.(leasedUntil := Some(a.wall + c.lease))));
  }

  lemma WorkInv(c: Settings, b: Bounds, s: State, w: WorkerId, a: WorkAction)
    requires Fits(c, b) && Inv(c, b, s) && Enabled(c, s, Work(w, a)) && Careful(c, b, s, Work(w, a))
    ensures Inv(c, b, ApplyWork(c, s, w, a))
  {
    match a {
      case Claim(_, _, _, _) => ClaimInv(c, b, s, w, a);
      case Start => StartInv(c, b, s, w);
      case Progress(pct) => ProgressInv(c, b, s, w, pct);
      case Complete(result, wall) =>
        var h := HoldOf(s, w);
        assert Owns(b, s, w);
        SoundComplete(c, b, s.table[h.id], w, h, result, wall, s.clock);
        FinishInv(c, b, s, w, CompleteCopy(h.copy, result, wall), JobCompleted, 0);
      case Fail(message, permanent, wall, _) =>
        var h := HoldOf(s, w);
        assert Owns(b, s, w);
        SoundFail(c, b, s.table[h.id], w, h, a, s.clock);
        FinishInv(c, b, s, w, FailCopy(c, h.copy, message, permanent, wall), FailKind(h.copy, permanent),
                  Delay(c, h.copy, permanent));
      case Renew(_, _, _) => RenewInv(c, b, s, w, a);
    }
  }

  lemma FreeRowOwn(b: Bounds, s: State, id: Id, e: Entry)
    requires AllOwn(b, s) && forall w :: w in s.workers && InFlight(s, w) ==> HoldOf(s, w).id != id
    ensures AllOwn(b, s.(table := s.table[id := e]))
  {
    var t := s.(table := s.table[id := e]);
    forall v | v in t.workers && InFlight(t, v) ensures Owns(b, t, v) {
      assert Owns(b, s, v);
    }
  }

  /** A row that no live worker holds may be replaced by any sound one. */
  lemma FreeRow(c: Settings, b: Bounds, s: State, id: Id, e: Entry)
    requires Inv(c, b, s) && Sound(c, b, e, s.clock) && e.job.status != Processing
    requires forall w :: w in s.workers && InFlight(s, w) ==> HoldOf(s, w).id != id
    ensures Inv(c, b, s.(table := s.table[id := e]))
  {
    var t := s.(table := s.table[id := e]);
    ReplaceSound(c, b, s.table, id, e, s.clock);
    FreeRowOwn(b, s, id, e);
    assert AllAttended(c, b, t) by {
      forall i | i in t.table ensures Attended(c, b, t, i, t.table[i].job) {
        if i != id { assert Attended(c, b, s, i, s.table[i].job); }
      }
    }
  }

  /** The reaper takes no job from a live worker. */
  lemma NotReaped(c: Settings, b: Bounds, s: State, id: Id, now: Time)
    requires Inv(c, b, s) && OnTime(b, s) && id in s.table && now <= s.clock && Expired(s.table[id].job, now)
    ensures forall w :: w in s.workers && InFlight(s, w) ==> HoldOf(s, w).id != id
  {
    forall w | w in s.workers && InFlight(s, w) ensures HoldOf(s, w).id != id {
      assert Owns(b, s, w);
    }
  }

  lemma ReapInv(c: Settings, b: Bounds, s: State, id: Id, now: Time)
    requires Inv(c, b, s) && OnTime(b, s) && CanUpkeep(s, Reap(id, now))
    ensures Inv(c, b, ApplyChore(s, Reap(id, now)))
  {
    NotReaped(c, b, s, id, now);
    SoundReap(c, b, s.table[id], now, s.clock);
    FreeRow(c, b, s, id, Entry(ReapRow(s.table[id].job),
                               s.table[id].history + [Event(Reaped, s.clock, s.table[id].job.attempts, 0)]));
  }

  lemma PromoteInv(c: Settings, b: Bounds, s: State, id: Id, now: Time)
    requires Inv(c, b, s) && CanUpkeep(s, Promote(id, now))
    ensures Inv(c, b, ApplyChore(s, Promote(id, now)))
  {
    NotHeld(c, b, s, id);
    SoundPromote(c, b, s.table[id], now, s.clock);
    FreeRow(c, b, s, id, Entry(PromoteRow(s.table[id].job),
                               s.table[id].history + [Event(Promoted, s.clock, s.table[id].job.attempts, 0)]));
  }

  lemma CleanupOwn(b: Bounds, s: State, wall: Time)
    requires AllOwn(b, s)
    ensures AllOwn(b, s.(table := ClearKeys(s.table, wall)))
  {
    var t := s.(table := ClearKeys(s.table, wall));
    forall v | v in t.workers && InFlight(t, v) ensures Owns(b, t, v) {
      assert Owns(b, s, v);
    }
  }

  lemma CleanupSound(c: Settings, b: Bounds, table: map<Id, Entry>, wall: Time, clock: Time)
    requires AllSound(c, b, table, clock)
    ensures AllSound(c, b, ClearKeys(table, wall), clock)
  {
    forall id | id in table ensures Sound(c, b, ClearKeys(table, wall)[id], clock) {
      SoundKey(c, b, table[id], clock);
    }
  }

  lemma CleanupAttended(c: Settings, b: Bounds, s: State, wall: Time)
    requires AllAttended(c, b, s)
    ensures AllAttended(c, b, s.(table := ClearKeys(s.table, wall)))
  {
    var t := s.(table := ClearKeys(s.table, wall));
    forall id | id in t.table ensures Attended(c, b, t, id, t.table[id].job) {
      assert Attended(c, b, s, id, s.table[id].job);
    }
  }

  lemma CleanupInv(c: Settings, b: Bounds, s: State, wall: Time)
    requires Inv(c, b, s)
    ensures Inv(c, b, ApplyChore(s, Cleanup(wall)))
  {
    CleanupOwn(b, s, wall);
    CleanupSound(c, b, s.table, wall, s.clock);
    CleanupAttended(c, b, s, wall);
  }

  lemma InsertInv(c: Settings, b: Bounds, s: State, a: Call)
    requires Inv(c, b, s) && a.Insert? && CanCall(c, s, a)
    ensures Inv(c, b, ApplyCall(c, s, a))
  {
    NotHeld(c, b, s, a.id);
    var job := NewJob(c, a.priority, a.scheduledAt, a.key, a.created);
    SoundNew(c, b, job, s.clock);
    FreeRow(c, b, s, a.id, Entry(job, [Event(JobCreated, s.clock, 0, 0)]));
  }

  lemma AnswerInv(c: Settings, b: Bounds, s: State, r: nat, edited: Job, kind: Kind)
    requires Inv(c, b, s) && r in s.requests && s.requests[r].id in s.table
    requires var q := s.requests[r];
             && s.table[q.id].job == q.copy && q.copy.status != Processing && edited.status != Processing
             && Sound(c, b, Entry(Flush(q.copy, q.copy, edited),
                                  s.table[q.id].history + [Event(kind, s.clock, q.copy.attempts, 0)]), s.clock)
    ensures Inv(c, b, Respond(s, r, edited, kind))
  {
    var q := s.requests[r];
    NotHeld(c, b, s, q.id);
    FreeRow(c, b, s, q.id, Entry(Flush(q.copy, q.copy, edited),
                                 s.table[q.id].history + [Event(kind, s.clock, q.copy.attempts, 0)]));
    RequestsInv(c, b, Commit(s, q.id, Flush(q.copy, q.copy, edited), kind, q.copy.attempts, 0), s.requests - {r});
  }

  lemma RequestsInv(c: Settings, b: Bounds, s: State, requests: map<nat, Request>)
    requires Inv(c, b, s) && AllAsked(s.(requests := requests))
    ensures Inv(c, b, s.(requests := requests))
  {
    var t := s.(requests := requests);
    assert AllSound(c, b, t.table, t.clock) && AllAttended(c, b, t);
    forall v | v in t.workers && InFlight(t, v) ensures Owns(b, t, v) {
      assert Owns(b, s, v);
    }
  }

  lemma CancelInv(c: Settings, b: Bounds, s: State, r: nat)
    requires Inv(c, b, s) && CanCall(c, s, CommitCancel(r)) && s.table[s.requests[r].id].job == s.requests[r].copy
    ensures Inv(c, b, ApplyCall(c, s, CommitCancel(r)))
  {
    SoundCancel(c, b, s.table[s.requests[r].id], s.clock);
    AnswerInv(c, b, s, r, CancelCopy(s.requests[r].copy), JobCancelled);
  }

  lemma ReopenInv(c: Settings, b: Bounds, s: State, r: nat, wall: Time)
    requires Inv(c, b, s) && CanCall(c, s, CommitRetry(r, wall)) && s.table[s.requests[r].id].job == s.requests[r].copy
    ensures Inv(c, b, ApplyCall(c, s, CommitRetry(r, wall)))
  {
    SoundReopen(c, b, s.table[s.requests[r].id], wall, s.clock);
    AnswerInv(c, b, s, r, ReopenCopy(s.requests[r].copy, wall), ManualRetry);
  }

  /** Reads and lost requests change no row. */
  lemma ReadInv(c: Settings, b: Bounds, s: State, a: Call)
    requires Inv(c, b, s) && CanCall(c, s, a) && (a.ReadCancel? || a.ReadRetry? || a.Drop?)
    ensures Inv(c, b, ApplyCall(c, s, a))
  {
    RequestsInv(c, b, s, ApplyCall(c, s, a).requests);
  }

  lemma CallInv(c: Settings, b: Bounds, s: State, a: Call)
    requires Inv(c, b, s) && Enabled(c, s, Api(a)) && Careful(c, b, s, Api(a))
    ensures Inv(c, b, ApplyCall(c, s, a))
  {
    match a {
      case Insert(_, _, _, _, _) => InsertInv(c, b, s, a);
      case CommitCancel(r) => CancelInv(c, b, s, r);
      case CommitRetry(r, wall) => ReopenInv(c, b, s, r, wall);
      case _ => ReadInv(c, b, s, a);
    }
  }

  lemma WorldOwn(c: Settings, b: Bounds, s: State, a: WorldAction)
    requires AllOwn(b, s) && Enabled(c, s, World(a))
    ensures AllOwn(b, ApplyWorld(s, a))
  {
    var t := ApplyWorld(s, a);
    forall v | v in t.workers && InFlight(t, v) ensures Owns(b, t, v) {
      assert Owns(b, s, v);
    }
  }

  lemma WorldAttended(c: Settings, b: Bounds, s: State, a: WorldAction)
    requires AllAttended(c, b, s) && Enabled(c, s, World(a))
    ensures AllAttended(c, b, ApplyWorld(s, a))
  {
    var t := ApplyWorld(s, a);
    forall id | id in t.table ensures Attended(c, b, t, id, t.table[id].job) {
      assert Attended(c, b, s, id, s.table[id].job);
    }
  }

  lemma SoundLater(c: Settings, b: Bounds, table: map<Id, Entry>, clock: Time, later: Time)
    requires AllSound(c, b, table, clock) && clock <= later
    ensures AllSound(c, b, table, later)
  {
    forall id | id in table ensures Sound(c, b, table[id], later) {
      assert Sound(c, b, table[id], clock);
    }
  }

  lemma WorldInv(c: Settings, b: Bounds, s: State, a: WorldAction)
    requires Inv(c, b, s) && Enabled(c, s, World(a))
    ensures Inv(c, b, ApplyWorld(s, a))
  {
    SoundLater(c, b, s.table, s.clock, ApplyWorld(s, a).clock);
    WorldAttended(c, b, s, a);
    WorldOwn(c, b, s, a);
  }

  lemma StepInv(c: Settings, b: Bounds, s: State, a: Action)
    requires Fits(c, b) && Inv(c, b, s) && OnTime(b, s) && Enabled(c, s, a) && Careful(c, b, s, a)
    ensures Inv(c, b, Apply(c, s, a))
  {
    match a {
      case World(env) => WorldInv(c, b, s, env);
      case Work(w, work) => WorkInv(c, b, s, w, work);
      case Upkeep(Reap(id, now)) => ReapInv(c, b, s, id, now);
      case Upkeep(Promote(id, now)) => PromoteInv(c, b, s, id, now);
      case Upkeep(Cleanup(wall)) => CleanupInv(c, b, s, wall);
      case Api(call) => CallInv(c, b, s, call);
    }
  }

  lemma {:induction false} AlwaysInv(c: Settings, b: Bounds, s: State, acts: seq<Action>, t: State)
    requires Fits(c, b) && Inv(c, b, s) && OnTime(b, s) && Disciplined(c, b, s, acts, t)
    ensures Inv(c, b, t) && OnTime(b, t)
    decreases |acts|
  {
    if acts != [] {
      StepInv(c, b, s, acts[0]);
      AlwaysInv(c, b, Apply(c, s, acts[0]), acts[1..], t);
    }
  }
}
