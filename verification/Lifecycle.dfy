/**
 * The theorems of the disciplined regime: what holds in every state of every disciplined run of the system.
 */
module Lifecycle {
  import opened Wrappers
  import opened Jobs
  import opened Protocol
  import opened Ownership
  import opened UntimedSafety

  /** States some disciplined run from an empty database ends in. */
  ghost predicate Reachable(c: Settings, b: Bounds, s: State) {
    Fits(c, b) && exists clock, acts :: Disciplined(c, b, Initial(clock), acts, s)
  }

  lemma ReachableInv(c: Settings, b: Bounds, s: State)
    requires Reachable(c, b, s)
    ensures Inv(c, b, s) && OnTime(b, s)
  {
    var clock, acts :| Disciplined(c, b, Initial(clock), acts, s);
    AlwaysInv(c, b, Initial(clock), acts, s);
  }

  lemma ReachableStep(c: Settings, b: Bounds, s: State, a: Action)
    requires Reachable(c, b, s) && Step(c, b, s, a)
    ensures Reachable(c, b, Apply(c, s, a))
  {
    var clock, acts :| Disciplined(c, b, Initial(clock), acts, s);
    Extend(c, b, Initial(clock), acts, s, a);
  }

  /**
   * Exclusive ownership: from its claim to its final commit a live worker's row is processing, carries its name
   * and its attempt count, and has an unexpired lease; and no other live worker holds that job.
   */
  lemma ExclusiveOwnership(c: Settings, b: Bounds, s: State, w: WorkerId)
    requires Reachable(c, b, s) && InFlight(s, w)
    ensures var h := HoldOf(s, w);
            && h.id in s.table
            && OwnedBy(s.table[h.id].job, w)
            && s.table[h.id].job.attempts == h.copy.attempts
            && s.table[h.id].job.leasedUntil.Some? && s.clock <= s.table[h.id].job.leasedUntil.value
    ensures forall v :: v in s.workers && v != w && InFlight(s, v) ==> HoldOf(s, v).id != HoldOf(s, w).id
  {
    ReachableInv(c, b, s);
    OnlyOwner(c, b, s, w);
  }

  /** The reaper takes a job only when its owner has crashed. */
  lemma ReapsOnlyTheCrashed(c: Settings, b: Bounds, s: State, id: Id, now: Time)
    requires Reachable(c, b, s) && Enabled(c, s, Upkeep(Reap(id, now)))
    ensures var owner := s.table[id].job.workerId;
            owner.Some? && owner.value in s.workers && s.workers[owner.value].crashedAt.Some?
  {
    ReachableInv(c, b, s);
    NotReaped(c, b, s, id, now);
    assert Attended(c, b, s, id, s.table[id].job);
  }

  /**
   * Every unguarded final write lands on a row its writer still owns, and leaves exactly these columns of that row
   * changed.
   */
  lemma FinalWriteLands(c: Settings, b: Bounds, s: State, w: WorkerId, a: WorkAction)
    requires Reachable(c, b, s) && (a.Complete? || a.Fail?) && Enabled(c, s, Work(w, a))
    ensures var row := s.table[HoldOf(s, w).id].job;
            var row' := Apply(c, s, Work(w, a)).table[HoldOf(s, w).id].job;
            && row.status == Processing && row.workerId == Some(w)
            && (a.Complete? ==>
                  row' == row.(status := Completed, result := Some(a.result), progress := 100,
                               completedAt := Some(a.wall), error := None, nextRunAt := None, leasedUntil := None))
            && (a.Fail? ==> AfterFailure(c, row, row', a.message, a.permanent, a.wall))
  {
    ReachableInv(c, b, s);
    assert Owns(b, s, w);
    var h := HoldOf(s, w);
    if a.Complete? {
      CompletedColumns(s.table[h.id].job, h.copy, a.result, a.wall);
    } else {
      FailedColumns(c, s.table[h.id].job, h.copy, a.message, a.permanent, a.wall);
    }
  }

  /** With no commit since its read, a cancel or manual retry leaves exactly these columns changed. */
  lemma AnswerLands(c: Settings, b: Bounds, s: State, a: Call)
    requires (a.CommitCancel? || a.CommitRetry?) && Enabled(c, s, Api(a)) && Careful(c, b, s, Api(a))
    ensures var id := s.requests[a.r].id;
            var row := s.table[id].job;
            Apply(c, s, Api(a)).table[id].job
            == if s.requests[a.r].Cancelling? then
                 row.(status := Cancelled, nextRunAt := None, leasedUntil := None, workerId := None)
               else
                 row.(status := Pending, maxAttempts := row.maxAttempts + 1, nextRunAt := Some(a.wall),
                      completedAt := None, startedAt := None, leasedUntil := None, workerId := None, error := None)
  {
  }

  /** Crash recovery: one lease and the skew after the crash, whatever its owner left behind can be reaped. */
  lemma CrashedLeaseExpires(c: Settings, b: Bounds, s: State, id: Id, now: Time)
    requires Reachable(c, b, s) && id in s.table && s.table[id].job.status == Processing
    requires var owner := s.table[id].job.workerId;
             && owner.Some? && owner.value in s.workers && s.workers[owner.value].crashedAt.Some?
             && now > s.workers[owner.value].crashedAt.value + c.lease + b.skew
    ensures Expired(s.table[id].job, now)
  {
    ReachableInv(c, b, s);
    assert Attended(c, b, s, id, s.table[id].job);
  }

  /** Which columns are null in which status. */
  lemma RowShape(c: Settings, b: Bounds, s: State, id: Id)
    requires Reachable(c, b, s) && id in s.table
    ensures var j := s.table[id].job;
            && (j.leasedUntil.Some? <==> j.status == Processing)
            && (j.workerId.Some? <==> j.status == Processing || j.status == Completed)
            && (j.completedAt.Some? <==> j.status == Completed || j.status == Failed)
            && (j.result.Some? <==> j.status == Completed)
            && (j.status == Scheduled ==> j.scheduledAt.Some? && j.nextRunAt == j.scheduledAt)
            && (j.status == Processing && j.nextRunAt.Some? ==>
                  j.startedAt.Some? && j.nextRunAt.value <= j.startedAt.value)
            && (j.status == Completed ==> j.progress == 100 && j.error.None?)
            && 0 <= j.progress <= 100
  {
    ReachableInv(c, b, s);
    assert Sound(c, b, s.table[id], s.clock);
  }

  /** Attempts and allowances are conserved. */
  lemma AttemptsConserved(c: Settings, b: Bounds, s: State, id: Id)
    requires Reachable(c, b, s) && id in s.table
    ensures var j := s.table[id].job;
            var h := s.table[id].history;
            && j.attempts == Count(h, RetryScheduled) + Count(h, FailedPermanently) + Count(h, Reaped)
                             + (if j.status in {Processing, Completed} then 1 else 0)
            && j.maxAttempts == c.defaultMaxAttempts + Count(h, ManualRetry)
            && j.attempts <= j.maxAttempts + Count(h, Reaped)
            && (j.status == Pending ==> j.attempts < j.maxAttempts + Count(h, Reaped))
  {
    ReachableInv(c, b, s);
    assert Sound(c, b, s.table[id], s.clock);
  }

  /** The events before the latest claim. */
  function BeforeLastClaim(h: seq<Event>): seq<Event> {
    if h == [] then []
    else if h[|h| - 1].kind == Claimed then h[..|h| - 1]
    else BeforeLastClaim(h[..|h| - 1])
  }

  /** The backoff of every retry in a history, by the attempt that failed, each less `skew`. */
  function Backoffs(c: Settings, h: seq<Event>, skew: int): int {
    if h == [] then 0
    else
      Backoffs(c, h[..|h| - 1], skew)
      + (if h[|h| - 1].kind != RetryScheduled then 0
         else (if h[|h| - 1].attempt == 1 then c.backoffAfter1 else c.backoffAfter2) - skew)
  }

  lemma {:induction false} OwedAndWaited(c: Settings, h: seq<Event>, skew: int)
    requires Spaced(c, h)
    ensures Waited(h, skew) + Owed(h, skew) == Backoffs(c, h, skew)
  {
    if h != [] { OwedAndWaited(c, h[..|h| - 1], skew); }
  }

  lemma {:induction false} WaitedBefore(c: Settings, h: seq<Event>, skew: int)
    requires Spaced(c, h)
    ensures Waited(h, skew) == Backoffs(c, BeforeLastClaim(h), skew)
  {
    if h != [] {
      OwedAndWaited(c, h[..|h| - 1], skew);
      WaitedBefore(c, h[..|h| - 1], skew);
    }
  }

  /** Backoff adds up: each retry before the latest claim delayed it by its backoff, less the clock skew. */
  lemma BackoffAddsUp(c: Settings, b: Bounds, s: State, id: Id)
    requires Reachable(c, b, s) && id in s.table && LastClaim(s.table[id].history).Some?
    ensures FirstClaim(s.table[id].history).Some?
    ensures LastClaim(s.table[id].history).value - FirstClaim(s.table[id].history).value
         >= Backoffs(c, BeforeLastClaim(s.table[id].history), b.skew)
  {
    ReachableInv(c, b, s);
    assert Sound(c, b, s.table[id], s.clock);
    var clock, acts :| Disciplined(c, b, Initial(clock), acts, s);
    DisciplinedRuns(c, b, Initial(clock), acts, s);
    AlwaysSpaced(c, Initial(clock), acts, s);
    WaitedBefore(c, s.table[id].history, b.skew);
  }

  // ---- when a retry is due ----

  /**
   * A pending row whose latest event is a retry waits for the backoff setting of the attempt that failed: counted, up
   * to the skew of the clocks, from no earlier than its claim and from no later than the commit of its failure.
   */
  predicate Timely(c: Settings, b: Bounds, e: Entry) {
    var n := |e.history|;
    n > 0 && e.history[n - 1].kind == RetryScheduled && e.job.status == Pending ==>
      var d := if e.history[n - 1].attempt == 1 then c.backoffAfter1 else c.backoffAfter2;
      && e.job.nextRunAt.Some? && LastClaim(e.history).Some?
      && LastClaim(e.history).value + d - b.skew <= e.job.nextRunAt.value <= e.history[n - 1].at + d + b.skew
  }

  predicate AllTimely(c: Settings, b: Bounds, table: map<Id, Entry>) {
    forall id :: id in table ==> Timely(c, b, table[id])
  }

  lemma TimelyFailure(c: Settings, b: Bounds, e: Entry, w: WorkerId, h: Hold, a: WorkAction, clock: Time)
    requires Owned(b, e, w, h) && a.Fail? && Near(b, a.wall, a.readAt) && h.since <= a.readAt <= clock
    ensures Timely(c, b, Entry(Flush(e.job, h.copy, FailCopy(c, h.copy, a.message, a.permanent, a.wall)),
                               e.history + [Event(FailKind(h.copy, a.permanent), clock, h.copy.attempts,
                                                  Delay(c, h.copy, a.permanent))]))
  {
    FailedColumns(c, e.job, h.copy, a.message, a.permanent, a.wall);
    Grow(e.history, Event(FailKind(h.copy, a.permanent), clock, h.copy.attempts, Delay(c, h.copy, a.permanent)), 0);
  }

  /** A row whose latest event is no retry, or that is not pending, is timely. */
  lemma TimelyElse(c: Settings, b: Bounds, e: Entry)
    requires e.history != []
    requires e.history[|e.history| - 1].kind != RetryScheduled || e.job.status != Pending
    ensures Timely(c, b, e)
  {
  }

  lemma TimelyOne(c: Settings, b: Bounds, table: map<Id, Entry>, table': map<Id, Entry>, id: Id)
    requires AllTimely(c, b, table) && id in table' && table' == table[id := table'[id]] && Timely(c, b, table'[id])
    ensures AllTimely(c, b, table')
  {
  }

  lemma TimelyFinish(c: Settings, b: Bounds, s: State, w: WorkerId, a: WorkAction)
    requires Inv(c, b, s) && CanWork(s, w, a) && (a.Complete? || a.Fail?) && (a.Fail? ==> Near(b, a.wall, a.readAt))
    ensures Timely(c, b, ApplyWork(c, s, w, a).table[HoldOf(s, w).id])
  {
    if a.Fail? {
      assert Owns(b, s, w);
      TimelyFailure(c, b, s.table[HoldOf(s, w).id], w, HoldOf(s, w), a, s.clock);
    }
  }

  lemma TimelyProgress(c: Settings, b: Bounds, s: State, w: WorkerId, pct: int)
    requires Inv(c, b, s) && CanWork(s, w, Progress(pct))
    ensures Timely(c, b, ApplyWork(c, s, w, Progress(pct)).table[HoldOf(s, w).id])
  {
    assert Owns(b, s, w);
  }

  lemma TimelyWork(c: Settings, b: Bounds, s: State, w: WorkerId, a: WorkAction)
    requires Inv(c, b, s) && AllTimely(c, b, s.table) && CanWork(s, w, a) && (a.Fail? ==> Near(b, a.wall, a.readAt))
    ensures AllTimely(c, b, ApplyWork(c, s, w, a).table)
  {
    if a.Complete? || a.Fail? {
      TimelyFinish(c, b, s, w, a);
    } else if a.Progress? {
      TimelyProgress(c, b, s, w, a.pct);
    }
    TimelyOne(c, b, s.table, ApplyWork(c, s, w, a).table, if a.Claim? || a.Renew? then a.id else HoldOf(s, w).id);
  }

  lemma TimelyChore(c: Settings, b: Bounds, s: State, a: Chore)
    requires AllTimely(c, b, s.table) && CanUpkeep(s, a)
    ensures AllTimely(c, b, ApplyChore(s, a).table)
  {
    if !a.Cleanup? { TimelyOne(c, b, s.table, ApplyChore(s, a).table, a.id); }
  }

  lemma TimelyCall(c: Settings, b: Bounds, s: State, a: Call)
    requires AllTimely(c, b, s.table) && CanCall(c, s, a)
    ensures AllTimely(c, b, ApplyCall(c, s, a).table)
  {
    if a.CommitCancel? || a.CommitRetry? {
      var id := s.requests[a.r].id;
      TimelyElse(c, b, ApplyCall(c, s, a).table[id]);
      TimelyOne(c, b, s.table, ApplyCall(c, s, a).table, id);
    }
  }

  lemma TimelyStep(c: Settings, b: Bounds, s: State, a: Action)
    requires Inv(c, b, s) && AllTimely(c, b, s.table) && Enabled(c, s, a) && Careful(c, b, s, a)
    ensures AllTimely(c, b, Apply(c, s, a).table)
  {
    match a {
      case World(_) =>
      case Work(w, work) => TimelyWork(c, b, s, w, work);
      case Upkeep(chore) => TimelyChore(c, b, s, chore);
      case Api(call) => TimelyCall(c, b, s, call);
    }
  }

  lemma {:induction false} AlwaysTimely(c: Settings, b: Bounds, s: State, acts: seq<Action>, t: State)
    requires Fits(c, b) && Inv(c, b, s) && OnTime(b, s) && AllTimely(c, b, s.table) && Disciplined(c, b, s, acts, t)
    ensures AllTimely(c, b, t.table)
    decreases |acts|
  {
    if acts != [] {
      StepInv(c, b, s, acts[0]);
      TimelyStep(c, b, s, acts[0]);
      AlwaysTimely(c, b, Apply(c, s, acts[0]), acts[1..], t);
    }
  }

  /** Every pending retry is due neither before nor after its backoff, up to the skew. */
  lemma RetryIsTimely(c: Settings, b: Bounds, s: State, id: Id)
    requires Reachable(c, b, s) && id in s.table
    ensures Timely(c, b, s.table[id])
  {
    var clock, acts :| Disciplined(c, b, Initial(clock), acts, s);
    AlwaysTimely(c, b, Initial(clock), acts, s);
  }

  /** The audit log tells the status, and its entries balance. */
  lemma AuditAgrees(c: Settings, b: Bounds, s: State, id: Id)
    requires Reachable(c, b, s) && id in s.table
    ensures var j := s.table[id].job;
            var h := s.table[id].history;
            && (LastLogged(h) == Some(JobCompleted) <==> j.status == Completed)
            && (LastLogged(h) == Some(FailedPermanently) <==> j.status == Failed)
            && (LastLogged(h) == Some(JobCancelled) <==> j.status == Cancelled)
            && (j.status == Scheduled ==> LastLogged(h) == Some(JobCreated))
            && (forall w :: Alive(s, w) && Executing(s, w) && HoldOf(s, w).id == id ==>
                  LastLogged(h) == Some(JobStarted))
            && Count(h, FailedPermanently) == Count(h, ManualRetry) + (if j.status == Failed then 1 else 0)
            && Count(h, JobStarted) <= j.attempts
  {
    ReachableInv(c, b, s);
    assert Sound(c, b, s.table[id], s.clock);
  }

  // ---- terminal states ----

  /** Starts the handler of a job. */
  predicate StartsHandler(s: State, a: Action, id: Id) {
    a.Work? && a.work.Start? && Holds(s, a.w) && HoldOf(s, a.w).id == id
  }

  /** Writes a manual retry of a job. */
  predicate Reopens(s: State, a: Action, id: Id) {
    a.Api? && a.call.CommitRetry? && a.call.r in s.requests && s.requests[a.call.r].id == id
  }

  /** Some step of the run satisfies `p` in the state it is taken in. */
  ghost predicate Occurs(c: Settings, s: State, acts: seq<Action>, p: (State, Action) -> bool)
    decreases |acts|
  {
    acts != [] && (p(s, acts[0]) || (Enabled(c, s, acts[0]) && Occurs(c, Apply(c, s, acts[0]), acts[1..], p)))
  }

  /** The row is as it was, but for its key. */
  predicate SameButKey(e: Entry, f: Entry) {
    f == e.(job := e.job.(key := f.job.key))
  }

  lemma TerminalStep(c: Settings, b: Bounds, s: State, a: Action, id: Id)
    requires Fits(c, b) && Inv(c, b, s) && OnTime(b, s) && Enabled(c, s, a) && Careful(c, b, s, a)
    requires id in s.table && Terminal(s.table[id].job)
    ensures !StartsHandler(s, a, id)
    ensures Reopens(s, a, id) ==> s.table[id].job.status == Failed
    ensures id in Apply(c, s, a).table
    ensures !Reopens(s, a, id) ==> SameButKey(s.table[id], Apply(c, s, a).table[id])
  {
    NotHeld(c, b, s, id);
    match a {
      case Work(w, work) => TerminalWork(c, b, s, w, work, id);
      case Upkeep(chore) => TerminalChore(s, chore, id);
      case Api(call) => TerminalCall(c, b, s, call, id);
      case World(_) =>
    }
  }

  lemma TerminalChore(s: State, a: Chore, id: Id)
    requires CanUpkeep(s, a) && id in s.table && Terminal(s.table[id].job)
    ensures id in ApplyChore(s, a).table && SameButKey(s.table[id], ApplyChore(s, a).table[id])
  {
  }

  lemma TerminalCall(c: Settings, b: Bounds, s: State, a: Call, id: Id)
    requires Inv(c, b, s) && CanCall(c, s, a) && Careful(c, b, s, Api(a))
    requires id in s.table && Terminal(s.table[id].job)
    ensures Reopens(s, Api(a), id) ==> s.table[id].job.status == Failed
    ensures id in ApplyCall(c, s, a).table
    ensures !Reopens(s, Api(a), id) ==> ApplyCall(c, s, a).table[id] == s.table[id]
  {
  }

  lemma TerminalWork(c: Settings, b: Bounds, s: State, w: WorkerId, a: WorkAction, id: Id)
    requires CanWork(s, w, a) && id in s.table && Terminal(s.table[id].job)
    requires forall v :: v in s.workers && InFlight(s, v) ==> HoldOf(s, v).id != id
    ensures !(a.Start? && HoldOf(s, w).id == id)
    ensures id in ApplyWork(c, s, w, a).table && ApplyWork(c, s, w, a).table[id] == s.table[id]
  {
  }

  /** Completed and cancelled are absorbing, failed is left only by a manual retry, and no handler starts meanwhile. */
  lemma {:induction false} TerminalForever(c: Settings, b: Bounds, s: State, acts: seq<Action>, t: State, id: Id)
    requires Reachable(c, b, s) && Disciplined(c, b, s, acts, t)
    requires id in s.table && s.table[id].job.status in {Completed, Failed, Cancelled}
    requires s.table[id].job.status == Failed ==> !Occurs(c, s, acts, (x, a) => Reopens(x, a, id))
    ensures id in t.table && SameButKey(s.table[id], t.table[id])
    ensures !Occurs(c, s, acts, (x, a) => StartsHandler(x, a, id))
    decreases |acts|
  {
    if acts != [] {
      ReachableInv(c, b, s);
      TerminalStep(c, b, s, acts[0], id);
      ReachableStep(c, b, s, acts[0]);
      TerminalForever(c, b, Apply(c, s, acts[0]), acts[1..], t, id);
    }
  }
}
