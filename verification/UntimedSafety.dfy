/**
 * What holds with no hypothesis on delays: late unguarded commits, stale cancels and retries, wild clocks.
 */
module UntimedSafety {
  import opened Wrappers
  import opened Jobs
  import opened Protocol

  /** Per row: attempts count claims, a processing row can be reaped, nothing ran before its scheduled time. */
  predicate Sane(e: Entry, clock: Time) {
    && e.job.attempts == Count(e.history, Claimed)
    && (e.job.status == Processing ==> e.job.workerId.Some? && e.job.leasedUntil.Some?)
    && (e.job.status in {Completed, Failed} ==> e.job.attempts > 0)
    && (e.job.status in {Pending, Processing} || e.job.attempts > 0 ==> Arrived(e.job, clock))
    && ClaimsArrived(e.history, e.job)
    && UniqueStarts(e.history)
    && (forall k :: k in Starts(e.history) ==> k <= e.job.attempts)
  }

  predicate Arrived(j: Job, t: Time) {
    j.scheduledAt.Some? ==> j.scheduledAt.value <= t
  }

  /** No claim was committed before the scheduled time. */
  predicate ClaimsArrived(h: seq<Event>, j: Job) {
    h != [] ==>
      ClaimsArrived(h[..|h| - 1], j) && (h[|h| - 1].kind == Claimed ==> Arrived(j, h[|h| - 1].at))
  }

  /** The attempt numbers under which the handler was started. */
  function Starts(h: seq<Event>): set<nat> {
    if h == [] then {}
    else Starts(h[..|h| - 1]) + (if h[|h| - 1].kind == JobStarted then {h[|h| - 1].attempt} else {})
  }

  predicate UniqueStarts(h: seq<Event>) {
    h != [] ==>
      UniqueStarts(h[..|h| - 1]) && (h[|h| - 1].kind == JobStarted ==> h[|h| - 1].attempt !in Starts(h[..|h| - 1]))
  }

  /** A worker's copy, live or crashed, and however old. */
  predicate CopySane(s: State, h: Hold) {
    && h.id in s.table
    && h.copy.status == Processing && h.copy.workerId.Some? && h.copy.leasedUntil.Some?
    && 0 < h.copy.attempts <= s.table[h.id].job.attempts
    && (!h.started ==> h.copy.attempts !in Starts(s.table[h.id].history))
  }

  predicate RequestSane(s: State, q: Request) {
    && q.id in s.table
    && (q.Cancelling? ==> Cancellable(q.copy))
    && (q.Retrying? ==> q.copy.status == Failed && s.table[q.id].job.attempts > 0)
  }

  predicate RowsSane(s: State) {
    forall id :: id in s.table ==> Sane(s.table[id], s.clock)
  }

  predicate CopiesSane(s: State) {
    && (forall w :: w in s.workers && Holds(s, w) ==> CopySane(s, HoldOf(s, w)))
    && (forall v, w :: v in s.workers && w in s.workers && v != w && Holds(s, v) && Holds(s, w)
            && HoldOf(s, v).id == HoldOf(s, w).id
          ==> HoldOf(s, v).copy.attempts != HoldOf(s, w).copy.attempts)
  }

  predicate RequestsSane(s: State) {
    forall r :: r in s.requests ==> RequestSane(s, s.requests[r])
  }

  predicate Safe(s: State) {
    RowsSane(s) && CopiesSane(s) && RequestsSane(s)
  }

  lemma Append(h: seq<Event>, v: Event, j: Job)
    ensures Count(h + [v], Claimed) == Count(h, Claimed) + (if v.kind == Claimed then 1 else 0)
    ensures ClaimsArrived(h + [v], j) <==> ClaimsArrived(h, j) && (v.kind == Claimed ==> Arrived(j, v.at))
    ensures Starts(h + [v]) == Starts(h) + (if v.kind == JobStarted then {v.attempt} else {})
    ensures UniqueStarts(h + [v]) <==> UniqueStarts(h) && (v.kind == JobStarted ==> v.attempt !in Starts(h))
  {
    assert (h + [v])[..|h|] == h;
  }

  lemma {:induction false} SameSchedule(h: seq<Event>, j: Job, k: Job)
    requires j.scheduledAt == k.scheduledAt && ClaimsArrived(h, j)
    ensures ClaimsArrived(h, k)
  {
    if h != [] { SameSchedule(h[..|h| - 1], j, k); }
  }

  lemma CommitSane(e: Entry, clock: Time, job: Job, v: Event)
    requires Sane(e, clock) && v.at == clock
    requires job.scheduledAt == e.job.scheduledAt
    requires job.attempts == e.job.attempts + (if v.kind == Claimed then 1 else 0)
    requires job.status == Processing ==> job.workerId.Some? && job.leasedUntil.Some?
    requires job.status in {Completed, Failed} ==> job.attempts > 0
    requires job.status in {Pending, Processing} || job.attempts > 0 ==> Arrived(job, clock)
    requires v.kind == JobStarted ==> v.attempt <= job.attempts && v.attempt !in Starts(e.history)
    ensures Sane(Entry(job, e.history + [v]), clock)
    ensures Starts(e.history + [v]) == Starts(e.history) + (if v.kind == JobStarted then {v.attempt} else {})
  {
    Append(e.history, v, job);
    SameSchedule(e.history, e.job, job);
  }

  /** A row stays, with the same starts and no fewer attempts. */
  predicate Keeps(e: Entry, e': Entry) {
    e'.job.attempts >= e.job.attempts && Starts(e'.history) == Starts(e.history)
  }

  /** Copies and requests stay sane while every row they name stays. */
  lemma KeepSafe(s: State, t: State)
    requires Safe(s) && RowsSane(t) && t.workers == s.workers && t.requests == s.requests
    requires forall id :: id in s.table ==> id in t.table && Keeps(s.table[id], t.table[id])
    ensures Safe(t)
  {
    forall w | w in t.workers && Holds(t, w) ensures CopySane(t, HoldOf(t, w)) {
      assert CopySane(s, HoldOf(s, w));
    }
    forall r | r in t.requests ensures RequestSane(t, t.requests[r]) {
      assert RequestSane(s, s.requests[r]);
    }
  }

  /** Replacing a row by a sane one that keeps its starts and does not take attempts back. */
  lemma ReplaceSafe(s: State, id: Id, e: Entry)
    requires Safe(s) && id in s.table && Sane(e, s.clock)
    requires e.job.attempts >= s.table[id].job.attempts && Starts(e.history) == Starts(s.table[id].history)
    ensures Safe(s.(table := s.table[id := e]))
  {
    KeepSafe(s, s.(table := s.table[id := e]));
  }

  /** A commit that is neither a claim nor a start. */
  lemma TouchSafe(s: State, id: Id, job: Job, kind: Kind, attempt: nat, delay: int)
    requires Safe(s) && id in s.table && kind != Claimed && kind != JobStarted
    requires job.scheduledAt == s.table[id].job.scheduledAt && job.attempts == s.table[id].job.attempts
    requires job.status != Processing
    requires job.status in {Completed, Failed} ==> job.attempts > 0
    requires job.status == Pending ==> Arrived(job, s.clock)
    ensures Safe(Commit(s, id, job, kind, attempt, delay))
  {
    CommitSane(s.table[id], s.clock, job, Event(kind, s.clock, attempt, delay));
    ReplaceSafe(s, id, Entry(job, s.table[id].history + [Event(kind, s.clock, attempt, delay)]));
  }

  lemma DropSafe(s: State, w: WorkerId)
    requires Safe(s) && w in s.workers
    ensures Safe(SetHold(s, w, None))
  {
    var t := SetHold(s, w, None);
    forall v | v in t.workers && Holds(t, v) ensures CopySane(t, HoldOf(t, v)) {
      assert CopySane(s, HoldOf(s, v));
    }
    forall r | r in t.requests ensures RequestSane(t, t.requests[r]) { assert RequestSane(s, s.requests[r]); }
  }

  lemma FlushFinished(row: Job, copy: Job, edited: Job)
    requires copy.status == Processing && edited.status != Processing
    requires edited.scheduledAt == copy.scheduledAt && edited.attempts == copy.attempts
    ensures var j := Flush(row, copy, edited);
            j.scheduledAt == row.scheduledAt && j.attempts == row.attempts && j.status == edited.status
  {
  }

  lemma FinishSafe(s: State, w: WorkerId, edited: Job, kind: Kind, delay: int)
    requires Safe(s) && Holds(s, w) && HoldOf(s, w).id in s.table && kind != Claimed && kind != JobStarted
    requires edited.scheduledAt == HoldOf(s, w).copy.scheduledAt && edited.attempts == HoldOf(s, w).copy.attempts
    requires edited.status in {Pending, Completed, Failed}
    ensures Safe(Finish(s, w, edited, kind, delay))
  {
    var h := HoldOf(s, w);
    assert CopySane(s, h);
    FlushFinished(s.table[h.id].job, h.copy, edited);
    var row := Flush(s.table[h.id].job, h.copy, edited);
    TouchSafe(s, h.id, row, kind, h.copy.attempts, delay);
    DropSafe(Commit(s, h.id, row, kind, h.copy.attempts, delay), w);
  }

  lemma AnswerSafe(s: State, r: nat, edited: Job, kind: Kind)
    requires Safe(s) && r in s.requests && s.requests[r].id in s.table && kind in {JobCancelled, ManualRetry}
    requires edited.scheduledAt == s.requests[r].copy.scheduledAt && edited.attempts == s.requests[r].copy.attempts
    requires edited.status == if s.requests[r].Cancelling? then Cancelled else Pending
    ensures Safe(Respond(s, r, edited, kind))
  {
    var q := s.requests[r];
    assert RequestSane(s, q);
    TouchSafe(s, q.id, Flush(s.table[q.id].job, q.copy, edited), kind, q.copy.attempts, 0);
    RequestsSafe(Commit(s, q.id, Flush(s.table[q.id].job, q.copy, edited), kind, q.copy.attempts, 0), s.requests - {r});
  }

  lemma RequestsSafe(s: State, requests: map<nat, Request>)
    requires Safe(s) && RequestsSane(s.(requests := requests))
    ensures Safe(s.(requests := requests))
  {
    var t := s.(requests := requests);
    forall w | w in t.workers && Holds(t, w) ensures CopySane(t, HoldOf(t, w)) {
      assert CopySane(s, HoldOf(s, w));
    }
  }

  /** A worker may take a hold whose attempt number no other copy of that job carries. */
  lemma HoldSafe(s: State, w: WorkerId, h: Hold)
    requires Safe(s) && w in s.workers && CopySane(s, h)
    requires forall v :: v in s.workers && v != w && Holds(s, v) && HoldOf(s, v).id == h.id
               ==> HoldOf(s, v).copy.attempts != h.copy.attempts
    ensures Safe(SetHold(s, w, Some(h)))
  {
    var t := SetHold(s, w, Some(h));
    forall v | v in t.workers && Holds(t, v) ensures CopySane(t, HoldOf(t, v)) {
      if v != w { assert CopySane(s, HoldOf(s, v)); }
    }
  }

  /** An update that no history records and that changes neither attempts, dates nor the status. */
  lemma WriteSafe(s: State, id: Id, job: Job)
    requires Safe(s) && id in s.table
    requires job.attempts == s.table[id].job.attempts && job.scheduledAt == s.table[id].job.scheduledAt
    requires job.status == s.table[id].job.status && job.workerId == s.table[id].job.workerId
    requires s.table[id].job.leasedUntil.Some? ==> job.leasedUntil.Some?
    ensures Safe(Write(s, id, job))
  {
    SameSchedule(s.table[id].history, s.table[id].job, job);
    KeepSafe(s, Write(s, id, job));
  }

  /** The next attempt number is above that of every copy. */
  lemma CopiesBehind(s: State, id: Id)
    requires CopiesSane(s) && id in s.table
    ensures forall w :: w in s.workers && Holds(s, w) && HoldOf(s, w).id == id ==>
              HoldOf(s, w).copy.attempts <= s.table[id].job.attempts
  {
    forall w | w in s.workers && Holds(s, w) && HoldOf(s, w).id == id
      ensures HoldOf(s, w).copy.attempts <= s.table[id].job.attempts
    {
      assert CopySane(s, HoldOf(s, w));
    }
  }

  lemma ClaimedSane(e: Entry, w: WorkerId, until: Time, now: Time, clock: Time)
    requires Sane(e, clock) && Ready(e.job, now)
    ensures var job := ClaimRow(e.job, w, until, now);
            var e' := Entry(job, e.history + [Event(Claimed, clock, job.attempts, 0)]);
            Sane(e', clock) && Keeps(e, e')
  {
    var job := ClaimRow(e.job, w, until, now);
    CommitSane(e, clock, job, Event(Claimed, clock, job.attempts, 0));
  }

  lemma ClaimSafe(c: Settings, s: State, w: WorkerId, a: WorkAction)
    requires Safe(s) && a.Claim? && CanWork(s, w, a)
    ensures Safe(ApplyWork(c, s, w, a))
  {
    var e := s.table[a.id];
    var job := ClaimRow(e.job, w, a.wall + c.lease, a.now);
    var e' := Entry(job, e.history + [Event(Claimed, s.clock, job.attempts, 0)]);
    ClaimedSane(e, w, a.wall + c.lease, a.now, s.clock);
    CopiesBehind(s, a.id);
    TakeSafe(s, w, Hold(a.id, job, a.readAt, s.clock, false), e');
  }

  /** A worker takes a row under a number above that of every copy. */
  lemma TakeSafe(s: State, w: WorkerId, h: Hold, e: Entry)
    requires Safe(s) && w in s.workers && h.id in s.table && Sane(e, s.clock) && Keeps(s.table[h.id], e)
    requires h.copy == e.job
    requires e.job.status == Processing && e.job.attempts == s.table[h.id].job.attempts + 1
    requires forall v :: v in s.workers && Holds(s, v) && HoldOf(s, v).id == h.id ==>
               HoldOf(s, v).copy.attempts < h.copy.attempts
    ensures Safe(SetHold(s.(table := s.table[h.id := e]), w, Some(h)))
  {
    ReplaceSafe(s, h.id, e);
    assert h.copy.attempts !in Starts(s.table[h.id].history);
    HoldSafe(s.(table := s.table[h.id := e]), w, h);
  }

  /** A start goes on record whose number is carried by started copies only. */
  lemma StartedSafe(s: State, id: Id, e: Entry, n: nat)
    requires Safe(s) && id in s.table && Sane(e, s.clock) && e.job == s.table[id].job
    requires Starts(e.history) == Starts(s.table[id].history) + {n}
    requires forall v :: v in s.workers && Holds(s, v) && HoldOf(s, v).id == id && HoldOf(s, v).copy.attempts == n ==>
               HoldOf(s, v).started
    ensures Safe(s.(table := s.table[id := e]))
  {
    var t := s.(table := s.table[id := e]);
    forall v | v in t.workers && Holds(t, v) ensures CopySane(t, HoldOf(t, v)) { assert CopySane(s, HoldOf(s, v)); }
    forall r | r in t.requests ensures RequestSane(t, t.requests[r]) { assert RequestSane(s, s.requests[r]); }
  }

  lemma StartSafe(c: Settings, s: State, w: WorkerId)
    requires Safe(s) && CanWork(s, w, Start)
    ensures Safe(ApplyWork(c, s, w, Start))
  {
    var h := HoldOf(s, w);
    var e := Event(JobStarted, s.clock, h.copy.attempts, 0);
    assert CopySane(s, h);
    CommitSane(s.table[h.id], s.clock, s.table[h.id].job, e);
    HoldSafe(s, w, h.(started := true));
    var mid := SetHold(s, w, Some(h.(started := true)));
    StartedSafe(mid, h.id, Entry(s.table[h.id].job, s.table[h.id].history + [e]), h.copy.attempts);
  }

  lemma ProgressSafe(c: Settings, s: State, w: WorkerId, pct: int)
    requires Safe(s) && CanWork(s, w, Progress(pct))
    ensures Safe(ApplyWork(c, s, w, Progress(pct)))
  {
    var h := HoldOf(s, w);
    assert CopySane(s, h);
    var copy := ProgressCopy(h.copy, pct);
    WriteSafe(s, h.id, Flush(s.table[h.id].job, h.copy, copy));
    HoldSafe(Write(s, h.id, Flush(s.table[h.id].job, h.copy, copy)), w, h.(copy := copy));
  }

  lemma WorkSafe(c: Settings, s: State, w: WorkerId, a: WorkAction)
    requires Safe(s) && CanWork(s, w, a)
    ensures Safe(ApplyWork(c, s, w, a))
  {
    match a {
      case Claim(_, _, _, _) => ClaimSafe(c, s, w, a);
      case Start => StartSafe(c, s, w);
      case Progress(pct) => ProgressSafe(c, s, w, pct);
      case Complete(result, wall) => FinishSafe(s, w, CompleteCopy(HoldOf(s, w).copy, result, wall), JobCompleted, 0);
      case Fail(message, permanent, wall, _) =>
        var copy := HoldOf(s, w).copy;
        FinishSafe(s, w, FailCopy(c, copy, message, permanent, wall), FailKind(copy, permanent),
                   Delay(c, copy, permanent));
      case Renew(id, wall, _) => WriteSafe(s, id, s.table[id].job.(leasedUntil := Some(wall + c.lease)));
    }
  }

  lemma CleanupSafe(s: State, wall: Time)
    requires Safe(s)
    ensures Safe(ApplyChore(s, Cleanup(wall)))
  {
    var t := ApplyChore(s, Cleanup(wall));
    forall id | id in t.table ensures Sane(t.table[id], t.clock) {
      SameSchedule(s.table[id].history, s.table[id].job, t.table[id].job);
    }
    KeepSafe(s, t);
  }

  lemma ChoreSafe(s: State, a: Chore)
    requires Safe(s) && CanUpkeep(s, a)
    ensures Safe(ApplyChore(s, a))
  {
    match a {
      case Reap(id, _) => TouchSafe(s, id, ReapRow(s.table[id].job), Reaped, s.table[id].job.attempts, 0);
      case Promote(id, _) => TouchSafe(s, id, PromoteRow(s.table[id].job), Promoted, s.table[id].job.attempts, 0);
      case Cleanup(wall) => CleanupSafe(s, wall);
    }
  }

  lemma NewSane(job: Job, clock: Time)
    requires job.attempts == 0 && job.status in {Pending, Scheduled}
    requires job.status == Pending ==> job.scheduledAt.None?
    ensures Sane(Entry(job, [Event(JobCreated, clock, 0, 0)]), clock)
  {
    Append([], Event(JobCreated, clock, 0, 0), job);
    assert [] + [Event(JobCreated, clock, 0, 0)] == [Event(JobCreated, clock, 0, 0)];
  }

  lemma InsertSafe(c: Settings, s: State, a: Call)
    requires Safe(s) && a.Insert? && CanCall(c, s, a)
    ensures Safe(ApplyCall(c, s, a))
  {
    NewSane(NewJob(c, a.priority, a.scheduledAt, a.key, a.created), s.clock);
    KeepSafe(s, ApplyCall(c, s, a));
  }

  lemma CallSafe(c: Settings, s: State, a: Call)
    requires Safe(s) && CanCall(c, s, a)
    ensures Safe(ApplyCall(c, s, a))
  {
    match a {
      case Insert(_, _, _, _, _) => InsertSafe(c, s, a);
      case CommitCancel(r) => AnswerSafe(s, r, CancelCopy(s.requests[r].copy), JobCancelled);
      case CommitRetry(r, wall) => AnswerSafe(s, r, ReopenCopy(s.requests[r].copy, wall), ManualRetry);
      case _ => RequestsSafe(s, ApplyCall(c, s, a).requests);
    }
  }

  lemma WorldSafe(s: State, a: WorldAction)
    requires Safe(s)
    requires match a case Tick(to) => s.clock <= to case Spawn(w) => w !in s.workers case Crash(w) => Alive(s, w)
    ensures Safe(ApplyWorld(s, a))
  {
    var t := ApplyWorld(s, a);
    forall w | w in t.workers && Holds(t, w) ensures CopySane(t, HoldOf(t, w)) {
      assert CopySane(s, HoldOf(s, w));
    }
  }

  lemma StepSafe(c: Settings, s: State, a: Action)
    requires Safe(s) && Enabled(c, s, a)
    ensures Safe(Apply(c, s, a))
  {
    match a {
      case World(env) => WorldSafe(s, env);
      case Work(w, work) => WorkSafe(c, s, w, work);
      case Upkeep(chore) => ChoreSafe(s, chore);
      case Api(call) => CallSafe(c, s, call);
    }
  }

  lemma {:induction false} AlwaysSafe(c: Settings, s: State, acts: seq<Action>, t: State)
    requires Safe(s) && RunsTo(c, s, acts, t)
    ensures Safe(t)
    decreases |acts|
  {
    if acts != [] {
      StepSafe(c, s, acts[0]);
      AlwaysSafe(c, Apply(c, s, acts[0]), acts[1..], t);
    }
  }

  // ---- the theorems ----

  lemma AttemptsWork(c: Settings, s: State, w: WorkerId, a: WorkAction, id: Id)
    requires CanWork(s, w, a) && id in s.table
    ensures id in ApplyWork(c, s, w, a).table
    ensures ApplyWork(c, s, w, a).table[id].job.attempts
         == s.table[id].job.attempts + (if a.Claim? && a.id == id then 1 else 0)
  {
  }

  lemma AttemptsStep(c: Settings, s: State, a: Action, id: Id)
    requires Enabled(c, s, a)
    ensures id in s.table ==> id in Apply(c, s, a).table
    ensures id in s.table ==>
              Apply(c, s, a).table[id].job.attempts == s.table[id].job.attempts + (if Claims(a, id) then 1 else 0)
    ensures id !in s.table ==> !Claims(a, id)
    ensures id !in s.table && id in Apply(c, s, a).table ==> Apply(c, s, a).table[id].job.attempts == 0
  {
    if a.Work? && id in s.table { AttemptsWork(c, s, a.w, a.work, id); }
  }

  /** In every run, from any state, the attempt count of a job grows by exactly one for each successful claim. */
  lemma {:induction false} AttemptsCountClaims(c: Settings, s: State, acts: seq<Action>, t: State, id: Id)
    requires RunsTo(c, s, acts, t) && id in t.table
    ensures t.table[id].job.attempts == (if id in s.table then s.table[id].job.attempts else 0) + ClaimsOf(acts, id)
    decreases |acts|
  {
    if acts != [] {
      AttemptsStep(c, s, acts[0], id);
      AttemptsCountClaims(c, Apply(c, s, acts[0]), acts[1..], t, id);
    }
  }

  lemma {:induction false} StartIn(h: seq<Event>, i: nat)
    requires i < |h| && h[i].kind == JobStarted
    ensures h[i].attempt in Starts(h)
  {
    if i < |h| - 1 { StartIn(h[..|h| - 1], i); }
  }

  lemma {:induction false} StartsDiffer(h: seq<Event>, i: nat, j: nat)
    requires UniqueStarts(h) && i < j < |h| && h[i].kind == JobStarted && h[j].kind == JobStarted
    ensures h[i].attempt != h[j].attempt
  {
    if j < |h| - 1 { StartsDiffer(h[..|h| - 1], i, j); } else { StartIn(h[..|h| - 1], i); }
  }

  lemma {:induction false} ClaimWasDue(h: seq<Event>, job: Job, i: nat)
    requires ClaimsArrived(h, job) && i < |h| && h[i].kind == Claimed
    ensures Arrived(job, h[i].at)
  {
    if i < |h| - 1 { ClaimWasDue(h[..|h| - 1], job, i); }
  }

  /** No two handler starts of a job, by any workers at any delay, share an attempt number. */
  lemma StartsAreUnique(c: Settings, clock: Time, acts: seq<Action>, s: State, id: Id, i: nat, j: nat)
    requires RunsTo(c, Initial(clock), acts, s) && id in s.table
    requires i < j < |s.table[id].history|
    requires s.table[id].history[i].kind == JobStarted && s.table[id].history[j].kind == JobStarted
    ensures s.table[id].history[i].attempt != s.table[id].history[j].attempt
  {
    AlwaysSafe(c, Initial(clock), acts, s);
    StartsDiffer(s.table[id].history, i, j);
  }

  /** No claim commits before the scheduled time of its job. */
  lemma NeverEarly(c: Settings, clock: Time, acts: seq<Action>, s: State, id: Id, i: nat)
    requires RunsTo(c, Initial(clock), acts, s) && id in s.table
    requires i < |s.table[id].history| && s.table[id].history[i].kind == Claimed
    ensures s.table[id].job.scheduledAt.Some? ==> s.table[id].job.scheduledAt.value <= s.table[id].history[i].at
  {
    AlwaysSafe(c, Initial(clock), acts, s);
    ClaimWasDue(s.table[id].history, s.table[id].job, i);
  }

  /** A processing row always has an owner and a lease, so once the clock passes the lease the reaper can take it. */
  lemma AlwaysReapable(c: Settings, clock: Time, acts: seq<Action>, s: State, id: Id, later: Time)
    requires RunsTo(c, Initial(clock), acts, s) && id in s.table && s.table[id].job.status == Processing
    ensures s.table[id].job.workerId.Some? && s.table[id].job.leasedUntil.Some?
    ensures s.clock <= later && s.table[id].job.leasedUntil.value < later ==>
              RunsTo(c, s, [World(Tick(later)), Upkeep(Reap(id, later))],
                     Apply(c, s.(clock := later), Upkeep(Reap(id, later))))
  {
    AlwaysSafe(c, Initial(clock), acts, s);
    if s.clock <= later && s.table[id].job.leasedUntil.value < later {
      var run := [World(Tick(later)), Upkeep(Reap(id, later))];
      assert Apply(c, s, run[0]) == s.(clock := later);
      assert run[1..] == [Upkeep(Reap(id, later))];
      assert run[1..][1..] == [];
    }
  }

  lemma StatusStep(c: Settings, s: State, a: Action, id: Id)
    requires CopiesSane(s) && RequestsSane(s)
    requires Enabled(c, s, a) && id in s.table && s.table[id].job.status != Scheduled
    ensures id in Apply(c, s, a).table && Apply(c, s, a).table[id].job.status != Scheduled
  {
    if a.Work? { StatusWork(c, s, a.w, a.work, id); }
  }

  lemma StatusWork(c: Settings, s: State, w: WorkerId, a: WorkAction, id: Id)
    requires CopiesSane(s) && CanWork(s, w, a) && id in s.table && s.table[id].job.status != Scheduled
    ensures id in ApplyWork(c, s, w, a).table && ApplyWork(c, s, w, a).table[id].job.status != Scheduled
  {
    if a.Fail? { assert CopySane(s, HoldOf(s, w)); }
  }

  /** A job that has left `scheduled` never returns to it, and its row never disappears. */
  lemma {:induction false} NeverRescheduled(c: Settings, s: State, acts: seq<Action>, t: State, id: Id)
    requires Safe(s) && RunsTo(c, s, acts, t) && id in s.table && s.table[id].job.status != Scheduled
    ensures id in t.table && t.table[id].job.status != Scheduled
    decreases |acts|
  {
    if acts != [] {
      StatusStep(c, s, acts[0], id);
      StepSafe(c, s, acts[0]);
      NeverRescheduled(c, Apply(c, s, acts[0]), acts[1..], t, id);
    }
  }

  // ---- leases ----

  /** Writes the lease of a job: a claim or a renewal. */
  predicate Leases(a: Action, id: Id) {
    a.Work? && (a.work.Claim? || a.work.Renew?) && a.work.id == id
  }

  /** The clock reading behind the last lease a run wrote for a job, if it wrote one after `before`. */
  function LastReading(acts: seq<Action>, id: Id, before: Time): Time {
    if acts == [] then before
    else LastReading(acts[1..], id, if Leases(acts[0], id) then acts[0].work.wall else before)
  }

  predicate LeasedFrom(c: Settings, s: State, id: Id, reading: Time) {
    id in s.table && s.table[id].job.status == Processing ==> s.table[id].job.leasedUntil == Some(reading + c.lease)
  }

  lemma LeaseStep(c: Settings, s: State, a: Action, id: Id, reading: Time)
    requires CopiesSane(s) && RequestsSane(s) && Enabled(c, s, a) && LeasedFrom(c, s, id, reading)
    ensures LeasedFrom(c, Apply(c, s, a), id, if Leases(a, id) then a.work.wall else reading)
  {
    if a.Work? {
      LeaseWork(c, s, a.w, a.work, id, reading);
    } else if a.Api? && (a.call.CommitCancel? || a.call.CommitRetry?) {
      assert RequestSane(s, s.requests[a.call.r]);
    }
  }

  lemma LeaseWork(c: Settings, s: State, w: WorkerId, a: WorkAction, id: Id, reading: Time)
    requires CopiesSane(s) && CanWork(s, w, a) && LeasedFrom(c, s, id, reading)
    ensures LeasedFrom(c, ApplyWork(c, s, w, a), id, if Leases(Work(w, a), id) then a.wall else reading)
  {
    if a.Progress? || a.Complete? || a.Fail? {
      assert CopySane(s, HoldOf(s, w));
    }
  }

  /**
   * Whatever commits late, the lease of a processing row is one lease length past the last clock reading that a
   * claim or renewal wrote: so a renewal whose clock has not gone back since then never shortens it.
   */
  lemma {:induction false} LeaseFromLastReading(c: Settings, s: State, acts: seq<Action>, t: State, id: Id,
                                                before: Time)
    requires Safe(s) && RunsTo(c, s, acts, t) && LeasedFrom(c, s, id, before)
    ensures LeasedFrom(c, t, id, LastReading(acts, id, before))
    ensures forall w, wall, readAt ::
              CanWork(t, w, Renew(id, wall, readAt)) && wall >= LastReading(acts, id, before) ==>
                ApplyWork(c, t, w, Renew(id, wall, readAt)).table[id].job.leasedUntil.value
                  >= t.table[id].job.leasedUntil.value
    decreases |acts|
  {
    if acts != [] {
      LeaseStep(c, s, acts[0], id, before);
      StepSafe(c, s, acts[0]);
      LeaseFromLastReading(c, Apply(c, s, acts[0]), acts[1..], t, id,
                           if Leases(acts[0], id) then acts[0].work.wall else before);
    }
  }

  // ---- backoff ----

  /** Every retry was given the backoff of its attempt. */
  predicate Spaced(c: Settings, h: seq<Event>) {
    forall i :: 0 <= i < |h| && h[i].kind == RetryScheduled ==>
      h[i].delay == if h[i].attempt == 1 then c.backoffAfter1 else c.backoffAfter2
  }

  predicate AllSpaced(c: Settings, s: State) {
    forall id :: id in s.table ==> Spaced(c, s.table[id].history)
  }

  lemma SpacedStep(c: Settings, s: State, a: Action)
    requires AllSpaced(c, s) && Enabled(c, s, a)
    ensures AllSpaced(c, Apply(c, s, a))
  {
    if a.Work? { SpacedWork(c, s, a.w, a.work); }
  }

  lemma SpacedWork(c: Settings, s: State, w: WorkerId, a: WorkAction)
    requires AllSpaced(c, s) && CanWork(s, w, a)
    ensures AllSpaced(c, ApplyWork(c, s, w, a))
  {
  }

  /** In every run each retry waits the backoff of the attempt that failed. */
  lemma {:induction false} AlwaysSpaced(c: Settings, s: State, acts: seq<Action>, t: State)
    requires AllSpaced(c, s) && RunsTo(c, s, acts, t)
    ensures AllSpaced(c, t)
    decreases |acts|
  {
    if acts != [] {
      SpacedStep(c, s, acts[0]);
      AlwaysSpaced(c, Apply(c, s, acts[0]), acts[1..], t);
    }
  }
}
