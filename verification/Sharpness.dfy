/** The hypotheses of the disciplined regime are needed, and their bound is exact. */
module Sharpness {
  import opened Wrappers
  import opened Jobs
  import opened Ordering
  import opened Protocol
  import opened UntimedSafety
  import opened Ownership
  import opened Lifecycle
  import opened Measure

  predicate NoneNegative(b: Bounds) {
    b.finish >= 0 && b.renew >= 0 && b.skew >= 0
  }

  /** Some run within the bounds ends in this state; whether the bounds fit into a lease is left open. */
  ghost predicate Arises(c: Settings, b: Bounds, s: State) {
    exists clock, acts :: Disciplined(c, b, Initial(clock), acts, s)
  }

  /** In every such state each live worker in flight owns its row. */
  ghost predicate KeepsOwners(c: Settings, b: Bounds) {
    forall s, w :: Arises(c, b, s) && InFlight(s, w) ==>
      HoldOf(s, w).id in s.table && OwnedBy(s.table[HoldOf(s, w).id].job, w)
  }

  lemma ArisesNext(c: Settings, b: Bounds, s: State, a: Action)
    requires Arises(c, b, s) && Step(c, b, s, a)
    ensures Arises(c, b, Apply(c, s, a))
  {
    var clock, acts :| Disciplined(c, b, Initial(clock), acts, s);
    Extend(c, b, Initial(clock), acts, s, a);
  }

  /** One idle worker and one job that is ready. */
  predicate Restful(s: State) {
    s.workers == map[0 := Worker(None, None)] && s.requests == map[] && 0 in s.table && Ready(s.table[0].job, s.clock)
  }

  lemma Inserted(c: Settings, b: Bounds) returns (s: State)
    requires NoneNegative(b) && c.defaultMaxAttempts > 0
    ensures Arises(c, b, s) && Restful(s) && s.clock == 0
  {
    assert Disciplined(c, b, Initial(0), [], Initial(0));
    var spawn := World(Spawn(0));
    ArisesNext(c, b, Initial(0), spawn);
    var s1 := Apply(c, Initial(0), spawn);
    var insert := Api(Insert(0, 0, None, None, 0));
    ArisesNext(c, b, s1, insert);
    s := Apply(c, s1, insert);
  }

  /** The worker claims the job and starts. */
  lemma TakenUp(c: Settings, b: Bounds, s0: State) returns (s: State)
    requires NoneNegative(b) && Arises(c, b, s0) && Restful(s0) && s0.clock == 0
    ensures Arises(c, b, s) && s.clock == 0 && s.workers.Keys == s0.workers.Keys && s.requests == map[]
    ensures Alive(s, 0) && Executing(s, 0)
    ensures 0 in s.table && HoldOf(s, 0) == Hold(0, s.table[0].job, 0, 0, true) && s.table[0].job.status == Processing
  {
    var claim := Work(0, Claim(0, 0, 0, 0));
    ArisesNext(c, b, s0, claim);
    var s1 := Apply(c, s0, claim);
    ArisesNext(c, b, s1, Work(0, Start));
    s := Apply(c, s1, Work(0, Start));
  }

  /** The worker fails the job for good, while its heartbeat has just read the clock. */
  lemma FailsForGood(c: Settings, b: Bounds, s0: State) returns (s: State)
    requires NoneNegative(b) && Arises(c, b, s0) && Restful(s0) && s0.clock == 0
    ensures Arises(c, b, s) && s.clock == 0 && s.workers == s0.workers && s.requests == map[]
    ensures 0 in s.table && s.table[0].job.status == Failed
  {
    var s1 := TakenUp(c, b, s0);
    var fail := Work(0, Fail("", true, 0, 0));
    ArisesNext(c, b, s1, fail);
    s := Apply(c, s1, fail);
    assert s.workers[0] == Worker(None, None);
  }

  /** A manual retry makes it ready again at once. */
  lemma Reopened(c: Settings, b: Bounds, s0: State) returns (s: State)
    requires NoneNegative(b) && Arises(c, b, s0) && s0.clock == 0 && s0.requests == map[]
    requires s0.workers == map[0 := Worker(None, None)] && 0 in s0.table && s0.table[0].job.status == Failed
    ensures Arises(c, b, s) && Restful(s) && s.clock == 0
  {
    ArisesNext(c, b, s0, Api(ReadRetry(0, 0)));
    var s1 := Apply(c, s0, Api(ReadRetry(0, 0)));
    ArisesNext(c, b, s1, Api(CommitRetry(0, 0)));
    s := Apply(c, s1, Api(CommitRetry(0, 0)));
  }

  /** The worker claims it once more just before the renewal for its first claim commits. */
  lemma Reclaimed(c: Settings, b: Bounds, s0: State) returns (s: State)
    requires NoneNegative(b) && Arises(c, b, s0) && Restful(s0) && s0.clock == 0
    ensures Arises(c, b, s) && InFlight(s, 0) && s.workers.Keys == {0} && s.clock == b.renew
    ensures HoldOf(s, 0).id == 0 && HoldOf(s, 0).readAt == b.renew
    ensures 0 in s.table && OwnedBy(s.table[0].job, 0)
  {
    var tick := World(Tick(b.renew));
    ArisesNext(c, b, s0, tick);
    var s1 := Apply(c, s0, tick);
    var claim := Work(0, Claim(0, b.renew, b.renew, b.renew));
    ArisesNext(c, b, s1, claim);
    s := Apply(c, s1, claim);
  }

  lemma RenewedLate(c: Settings, b: Bounds, s0: State) returns (s: State)
    requires NoneNegative(b) && Arises(c, b, s0) && InFlight(s0, 0) && s0.workers.Keys == {0} && s0.clock == b.renew
    requires HoldOf(s0, 0).id == 0 && HoldOf(s0, 0).readAt == b.renew
    requires 0 in s0.table && OwnedBy(s0.table[0].job, 0)
    ensures Arises(c, b, s) && s.workers == s0.workers && s.clock == b.renew
    ensures 0 in s.table && s.table[0].job.status == Processing && s.table[0].job.leasedUntil == Some(c.lease - b.skew)
  {
    var renew := Work(0, Renew(0, -b.skew, 0));
    ArisesNext(c, b, s0, renew);
    s := Apply(c, s0, renew);
  }

  /** So the lease runs out while the worker is still on time, and the reaper takes the job from it. */
  lemma ReapedAlive(c: Settings, b: Bounds, s0: State) returns (s: State)
    requires NoneNegative(b) && c.lease < b.finish + b.renew + b.skew
    requires Arises(c, b, s0) && InFlight(s0, 0) && s0.workers.Keys == {0} && s0.clock == b.renew
    requires HoldOf(s0, 0).id == 0 && HoldOf(s0, 0).readAt == b.renew
    requires 0 in s0.table && s0.table[0].job.status == Processing
    requires s0.table[0].job.leasedUntil == Some(c.lease - b.skew)
    ensures Arises(c, b, s) && InFlight(s, 0) && HoldOf(s, 0).id == 0
    ensures 0 in s.table && s.table[0].job.status == Pending
  {
    var tick := World(Tick(b.renew + b.finish));
    ArisesNext(c, b, s0, tick);
    var s1 := Apply(c, s0, tick);
    var reap := Upkeep(Reap(0, b.renew + b.finish));
    ArisesNext(c, b, s1, reap);
    s := Apply(c, s1, reap);
  }

  /** Exclusive ownership holds over all runs exactly when the three bounds together fit into a lease. */
  lemma BoundIsExact(c: Settings, b: Bounds)
    requires NoneNegative(b) && c.defaultMaxAttempts > 0
    ensures KeepsOwners(c, b) <==> b.finish + b.renew + b.skew <= c.lease
  {
    if b.finish + b.renew + b.skew <= c.lease {
      forall s, w | Arises(c, b, s) && InFlight(s, w)
        ensures HoldOf(s, w).id in s.table && OwnedBy(s.table[HoldOf(s, w).id].job, w)
      {
        assert Reachable(c, b, s);
        ExclusiveOwnership(c, b, s, w);
      }
    } else {
      var s := Inserted(c, b);
      s := FailsForGood(c, b, s);
      s := Reopened(c, b, s);
      s := Reclaimed(c, b, s);
      s := RenewedLate(c, b, s);
      s := ReapedAlive(c, b, s);
    }
  }

  // ---- without H2 ----

  /** Every live worker in flight owns its row. */
  predicate OwnersKept(s: State) {
    forall w :: w in s.workers && InFlight(s, w) ==>
      HoldOf(s, w).id in s.table && OwnedBy(s.table[HoldOf(s, w).id].job, w)
  }

  /** A cancel or manual retry, however old its read, spares every owner exactly when no live worker runs the job. */
  lemma AnswerSparesExactly(c: Settings, b: Bounds, s: State, a: Call)
    requires Reachable(c, b, s) && (a.CommitCancel? || a.CommitRetry?) && CanCall(c, s, a)
    ensures OwnersKept(ApplyCall(c, s, a)) <==> !Running(s, s.table[s.requests[a.r].id].job)
  {
    ReachableInv(c, b, s);
    var id := s.requests[a.r].id;
    AnswerTakes(c, s, a);
    TakenSpares(c, b, s, ApplyCall(c, s, a), id);
  }

  /** The row an answer writes is processing no longer. */
  lemma AnswerTakes(c: Settings, s: State, a: Call)
    requires AllAsked(s) && (a.CommitCancel? || a.CommitRetry?) && CanCall(c, s, a)
    ensures var t := ApplyCall(c, s, a);
            var id := s.requests[a.r].id;
            t.workers == s.workers && id in t.table && t.table == s.table[id := t.table[id]]
            && t.table[id].job.status != Processing
  {
  }

  /** Taking a row out of processing spares every owner exactly when no live worker runs the job. */
  lemma TakenSpares(c: Settings, b: Bounds, s: State, t: State, id: Id)
    requires Inv(c, b, s) && id in s.table && id in t.table && t.workers == s.workers
    requires t.table == s.table[id := t.table[id]] && t.table[id].job.status != Processing
    ensures OwnersKept(t) <==> !Running(s, s.table[id].job)
  {
    assert Attended(c, b, s, id, s.table[id].job);
    if Running(s, s.table[id].job) {
      var w := s.table[id].job.workerId.value;
      assert w in t.workers && InFlight(t, w) && HoldOf(t, w).id == id;
    } else {
      forall w | w in t.workers && InFlight(t, w)
        ensures HoldOf(t, w).id in t.table && OwnedBy(t.table[HoldOf(t, w).id].job, w)
      {
        assert Owns(b, s, w);
      }
    }
  }

  lemma {:induction false} ExtendRun(c: Settings, s: State, acts: seq<Action>, t: State, a: Action)
    requires RunsTo(c, s, acts, t) && Enabled(c, t, a)
    ensures RunsTo(c, s, acts + [a], Apply(c, t, a))
    decreases |acts|
  {
    if acts == [] {
      assert [a][1..] == [];
    } else {
      ExtendRun(c, Apply(c, s, acts[0]), acts[1..], t, a);
      assert (acts + [a])[1..] == acts[1..] + [a];
    }
  }

  /** A cancel has read the row, and then a worker claims it. */
  lemma ClaimedUnread(c: Settings) returns (acts: seq<Action>, s: State)
    requires c.defaultMaxAttempts > 0
    ensures RunsTo(c, Initial(0), acts, s) && 0 in s.table && s.clock == 0
    ensures 0 in s.requests && s.requests[0].Cancelling? && s.requests[0].id == 0
    ensures s.requests[0].copy.status == Pending
    ensures InFlight(s, 0) && !HoldOf(s, 0).started && HoldOf(s, 0).id == 0 && HoldOf(s, 0).copy.status == Processing
  {
    var spawn, insert := World(Spawn(0)), Api(Insert(0, 0, None, None, 0));
    var read, claim := Api(ReadCancel(0, 0)), Work(0, Claim(0, 0, 0, 0));
    var s0 := Initial(0);
    var s1 := Apply(c, s0, spawn);
    var s2 := Apply(c, s1, insert);
    var s3 := Apply(c, s2, read);
    ExtendRun(c, s0, [], s0, spawn);
    ExtendRun(c, s0, [] + [spawn], s1, insert);
    ExtendRun(c, s0, [] + [spawn] + [insert], s2, read);
    ExtendRun(c, s0, [] + [spawn] + [insert] + [read], s3, claim);
    acts, s := [] + [spawn] + [insert] + [read] + [claim], Apply(c, s3, claim);
  }

  /** A claim slips in between the read and the write of a cancel. */
  lemma CancelledUnderway(c: Settings) returns (acts: seq<Action>, s: State)
    requires c.defaultMaxAttempts > 0
    ensures RunsTo(c, Initial(0), acts, s) && 0 in s.table && s.table[0].job.status == Cancelled && s.clock == 0
    ensures InFlight(s, 0) && !HoldOf(s, 0).started && HoldOf(s, 0).id == 0 && HoldOf(s, 0).copy.status == Processing
  {
    var before, s1 := ClaimedUnread(c);
    var commit := Api(CommitCancel(0));
    ExtendRun(c, Initial(0), before, s1, commit);
    acts, s := before + [commit], Apply(c, s1, commit);
  }

  /** Then a cancelled job's handler starts, and the job ends completed. */
  lemma StaleCancelIsLost(c: Settings) returns (acts: seq<Action>, s: State, more: seq<Action>, t: State)
    requires c.defaultMaxAttempts > 0
    ensures RunsTo(c, Initial(0), acts, s) && 0 in s.table && s.table[0].job.status == Cancelled
    ensures RunsTo(c, s, more, t) && 0 in t.table && t.table[0].job.status == Completed && s.clock == t.clock == 0
    ensures Occurs(c, s, more, (x, a) => StartsHandler(x, a, 0))
  {
    acts, s := CancelledUnderway(c);
    var complete := Work(0, Complete("", 0));
    var s1 := Apply(c, s, Work(0, Start));
    t := Apply(c, s1, complete);
    more := [] + [Work(0, Start)] + [complete];
    ExtendRun(c, s, [], s, Work(0, Start));
    ExtendRun(c, s, [] + [Work(0, Start)], s1, complete);
    assert StartsHandler(s, more[0], 0);
  }

  // ---- when a cancelled job's handler can still start ----

  /** Some continuation, at any delay, starts the job's handler. */
  ghost predicate CanStillStart(c: Settings, s: State, id: Id) {
    exists acts, t :: RunsTo(c, s, acts, t) && Occurs(c, s, acts, (x, a) => StartsHandler(x, a, id))
  }

  predicate HeldAlive(s: State, id: Id) {
    exists w :: w in s.workers && InFlight(s, w) && HoldOf(s, w).id == id
  }

  predicate RetryUnderway(s: State, id: Id) {
    exists r :: r in s.requests && s.requests[r].Retrying? && s.requests[r].id == id
  }

  lemma StartsAfter(c: Settings, s: State, a: Action, id: Id)
    requires Enabled(c, s, a) && CanStillStart(c, Apply(c, s, a), id)
    ensures CanStillStart(c, s, id)
  {
    var next := Apply(c, s, a);
    var acts, t :| RunsTo(c, next, acts, t) && Occurs(c, next, acts, (x, a) => StartsHandler(x, a, id));
    assert ([a] + acts)[1..] == acts;
    assert RunsTo(c, s, [a] + acts, t);
  }

  lemma FromFreshHold(c: Settings, s: State, w: WorkerId)
    requires InFlight(s, w) && HoldOf(s, w).id in s.table && !HoldOf(s, w).started
    ensures CanStillStart(c, s, HoldOf(s, w).id)
  {
    var run := [Work(w, Start)];
    assert run[1..] == [];
    assert RunsTo(c, s, run, Apply(c, s, Work(w, Start)));
    assert StartsHandler(s, run[0], HoldOf(s, w).id);
  }

  lemma FromReady(c: Settings, s: State, id: Id)
    requires id in s.table && Ready(s.table[id].job, s.clock)
    ensures CanStillStart(c, s, id)
  {
    var w := Unused(s.workers.Keys);
    var s1 := Apply(c, s, World(Spawn(w)));
    var claim := Work(w, Claim(id, s.clock, s.clock, s.clock));
    FromFreshHold(c, Apply(c, s1, claim), w);
    StartsAfter(c, s1, claim, id);
    StartsAfter(c, s, World(Spawn(w)), id);
  }

  lemma FromRetry(c: Settings, s: State, r: nat)
    requires r in s.requests && s.requests[r].Retrying? && s.requests[r].copy.status == Failed
    requires s.requests[r].id in s.table
    ensures CanStillStart(c, s, s.requests[r].id)
  {
    var wall := if s.requests[r].copy.nextRunAt == Some(s.clock) then s.clock - 1 else s.clock;
    FromReady(c, Apply(c, s, Api(CommitRetry(r, wall))), s.requests[r].id);
    StartsAfter(c, s, Api(CommitRetry(r, wall)), s.requests[r].id);
  }

  lemma FromFailed(c: Settings, s: State, id: Id)
    requires id in s.table && s.table[id].job.status == Failed
    ensures CanStillStart(c, s, id)
  {
    var r := Unused(s.requests.Keys);
    FromRetry(c, Apply(c, s, Api(ReadRetry(r, id))), r);
    StartsAfter(c, s, Api(ReadRetry(r, id)), id);
  }

  lemma FromHold(c: Settings, s: State, w: WorkerId)
    requires InFlight(s, w) && HoldOf(s, w).id in s.table && HoldOf(s, w).copy.status == Processing
    ensures CanStillStart(c, s, HoldOf(s, w).id)
  {
    var h := HoldOf(s, w);
    if !h.started {
      FromFreshHold(c, s, w);
    } else {
      var tick := World(Tick(if h.since > s.clock then h.since else s.clock));
      var s1 := Apply(c, s, tick);
      var fail := Work(w, Fail("", true, s1.clock, s1.clock));
      FromFailed(c, Apply(c, s1, fail), h.id);
      StartsAfter(c, s1, fail, h.id);
      StartsAfter(c, s, tick, h.id);
    }
  }

  /** Cancelled for good: no live worker holds the job and no manual retry of it is waiting to be written. */
  predicate Buried(s: State, id: Id) {
    && id in s.table && s.table[id].job.status == Cancelled
    && !HeldAlive(s, id) && !RetryUnderway(s, id)
  }

  lemma BuriedWork(c: Settings, s: State, w: WorkerId, a: WorkAction, id: Id)
    requires Buried(s, id) && CanWork(s, w, a)
    ensures !StartsHandler(s, Work(w, a), id) && Buried(ApplyWork(c, s, w, a), id)
  {
    var t := ApplyWork(c, s, w, a);
    assert Holds(s, w) ==> HoldOf(s, w).id != id;
    forall v | v in t.workers && InFlight(t, v) ensures HoldOf(t, v).id != id {
      assert InFlight(s, v) ==> HoldOf(s, v).id != id;
    }
  }

  lemma BuriedCall(c: Settings, s: State, a: Call, id: Id)
    requires Buried(s, id) && RequestsSane(s) && CanCall(c, s, a)
    ensures Buried(ApplyCall(c, s, a), id)
  {
    var t := ApplyCall(c, s, a);
    if a.CommitCancel? || a.CommitRetry? { assert RequestSane(s, s.requests[a.r]); }
    forall v | v in t.workers && InFlight(t, v) ensures HoldOf(t, v).id != id {
      assert v in s.workers && InFlight(s, v);
    }
    forall r | r in t.requests && t.requests[r].Retrying? ensures t.requests[r].id != id {
      assert r in s.requests ==> !(s.requests[r].Retrying? && s.requests[r].id == id);
    }
  }

  lemma BuriedStep(c: Settings, s: State, a: Action, id: Id)
    requires Buried(s, id) && RequestsSane(s) && Enabled(c, s, a)
    ensures !StartsHandler(s, a, id) && Buried(Apply(c, s, a), id)
  {
    match a {
      case Work(w, work) => BuriedWork(c, s, w, work, id);
      case Api(call) => BuriedCall(c, s, call, id);
      case Upkeep(_) =>
        assert !HeldAlive(Apply(c, s, a), id);
      case World(env) =>
        var t := ApplyWorld(s, env);
        forall v | v in t.workers && InFlight(t, v) ensures HoldOf(t, v).id != id {
          assert v in s.workers && InFlight(s, v);
        }
    }
  }

  lemma {:induction false} BuriedRun(c: Settings, s: State, acts: seq<Action>, t: State, id: Id)
    requires Safe(s) && Buried(s, id) && RunsTo(c, s, acts, t)
    ensures !Occurs(c, s, acts, (x, a) => StartsHandler(x, a, id))
    decreases |acts|
  {
    if acts != [] {
      BuriedStep(c, s, acts[0], id);
      StepSafe(c, s, acts[0]);
      BuriedRun(c, Apply(c, s, acts[0]), acts[1..], t, id);
    }
  }

  /**
   * At any delay, the handler of a cancelled job can still start exactly when a live worker holds the job or a
   * manual retry of it, read before the cancel, is waiting to be written.
   */
  lemma CancelledStartsExactly(c: Settings, clock: Time, before: seq<Action>, s: State, id: Id)
    requires RunsTo(c, Initial(clock), before, s) && id in s.table && s.table[id].job.status == Cancelled
    ensures CanStillStart(c, s, id) <==> HeldAlive(s, id) || RetryUnderway(s, id)
  {
    AlwaysSafe(c, Initial(clock), before, s);
    if HeldAlive(s, id) {
      var w :| w in s.workers && InFlight(s, w) && HoldOf(s, w).id == id;
      assert CopySane(s, HoldOf(s, w));
      FromHold(c, s, w);
    } else if RetryUnderway(s, id) {
      var r :| r in s.requests && s.requests[r].Retrying? && s.requests[r].id == id;
      assert RequestSane(s, s.requests[r]);
      FromRetry(c, s, r);
    } else if CanStillStart(c, s, id) {
      var acts, t :| RunsTo(c, s, acts, t) && Occurs(c, s, acts, (x, a) => StartsHandler(x, a, id));
      BuriedRun(c, s, acts, t, id);
    }
  }
}
