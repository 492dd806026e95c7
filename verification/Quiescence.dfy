/** Repeating reap, promote, feed and drain as time passes ends with every job terminal. */
module Quiescence {
  import opened Wrappers
  import opened Jobs
  import opened Protocol
  import opened Ownership
  import opened Ordering
  import opened Redis
  import opened Database
  import opened Measure
  import opened Reaper
  import opened Feeder
  import opened Scheduler
  import opened Executor
  import opened Dispatch

  lemma {:induction false} SuffixRun(c: Settings, b: Bounds, s: State, acts: seq<Action>, mid: State,
                                     more: seq<Action>, t: State)
    requires Disciplined(c, b, s, acts, mid) && Disciplined(c, b, s, acts + more, t)
    ensures Disciplined(c, b, mid, more, t)
    decreases |acts|
  {
    if acts == [] {
      assert acts + more == more;
    } else {
      assert (acts + more)[1..] == acts[1..] + more;
      SuffixRun(c, b, Apply(c, s, acts[0]), acts[1..], mid, more, t);
    }
  }

  /** A quiet extension of the run costs the measure every claim it makes. */
  lemma RunCosts(c: Settings, b: Bounds, epoch: Time, acts: seq<Action>, mid: State, more: seq<Action>, t: State)
    requires Fits(c, b) && Disciplined(c, b, Initial(epoch), acts, mid)
    requires Disciplined(c, b, Initial(epoch), acts + more, t) && AllQuiet(more)
    ensures ClaimCount(more) + Potential(t) <= Potential(mid)
  {
    SuffixRun(c, b, Initial(epoch), acts, mid, more, t);
    AlwaysInv(c, b, Initial(epoch), acts, mid);
    ClaimsBounded(c, b, mid, more, t);
  }

  /** A time by which every lease has expired and every wait is over. */
  predicate Past(rows: map<Id, Job>, to: Time) {
    forall id :: id in rows ==>
      && (rows[id].leasedUntil.Some? ==> rows[id].leasedUntil.value < to)
      && (rows[id].nextRunAt.Some? ==> rows[id].nextRunAt.value <= to)
      && (rows[id].scheduledAt.Some? ==> rows[id].scheduledAt.value <= to)
  }

  function Later(t: Option<Time>, to: Time): Time {
    if t.Some? && t.value >= to then t.value + 1 else to
  }

  method Horizon(rows: map<Id, Job>, clock: Time) returns (to: Time)
    ensures clock <= to && Past(rows, to)
  {
    to := clock;
    var rest := rows.Keys;
    while rest != {}
      invariant clock <= to && rest <= rows.Keys
      invariant Past(map id | id in rows && id !in rest :: rows[id], to)
      decreases |rest|
    {
      var id :| id in rest;
      to := Later(rows[id].leasedUntil, Later(rows[id].nextRunAt, Later(rows[id].scheduledAt, to)));
      rest := rest - {id};
    }
    assert (map id | id in rows && id !in rest :: rows[id]) == rows;
  }

  /** What the row invariants give this argument: what is unfinished is waiting for a time that can pass. */
  predicate Waiting(rows: map<Id, Job>) {
    forall id :: id in rows ==>
      && (rows[id].status == Processing ==> rows[id].leasedUntil.Some?)
      && (rows[id].status == Scheduled ==> rows[id].scheduledAt.Some?)
  }

  lemma RowsWait(c: Settings, b: Bounds, epoch: Time, acts: seq<Action>, s: State)
    requires Fits(c, b) && Disciplined(c, b, Initial(epoch), acts, s)
    ensures Waiting(Rows(s))
  {
    AlwaysInv(c, b, Initial(epoch), acts, s);
    forall id | id in Rows(s)
      ensures Rows(s)[id].status == Processing ==> Rows(s)[id].leasedUntil.Some?
      ensures Rows(s)[id].status == Scheduled ==> Rows(s)[id].scheduledAt.Some?
    {
      assert Sound(c, b, s.table[id], s.clock);
    }
  }

  /** Reaping and promoting at such a time leaves some row ready, if any is unfinished. */
  lemma SomethingReady(rows: map<Id, Job>, now: Time, limit: nat, reaped: seq<Id>, ids: seq<Id>, dbIds: seq<Id>)
    requires Waiting(rows) && Past(rows, now) && limit > 0
    requires exists id :: id in rows && !Terminal(rows[id])
    requires TopOf(reaped, ExpiredRanks(rows, now), limit)
    requires TopOf(dbIds, DueRanks(ReapAll(rows, reaped), now), limit) && Elems(dbIds) <= Elems(ids)
    ensures exists id :: ReadyIn(PromoteAll(ReapAll(rows, reaped), ids, now), now, id)
  {
    var id :| id in rows && !Terminal(rows[id]);
    var rows1 := ReapAll(rows, reaped);
    var rows2 := PromoteAll(rows1, ids, now);
    if rows[id].status == Pending {
      assert id !in reaped;
      assert ReadyIn(rows2, now, id);
    } else if rows[id].status == Processing {
      assert id in ExpiredRanks(rows, now);
      assert reaped[0] in reaped && reaped[0] in ExpiredRanks(rows, now);
      assert ReadyIn(rows2, now, reaped[0]);
    } else {
      assert id !in reaped && id in DueRanks(rows1, now);
      assert dbIds[0] in dbIds && dbIds[0] in DueRanks(rows1, now) && dbIds[0] in Elems(dbIds);
      assert dbIds[0] in Promotable(rows1, ids, now);
      assert ReadyIn(rows2, now, dbIds[0]);
    }
  }

  /** One cycle each of the reaper and the scheduler, past every lease and wait, leaves a row ready. */
  method Maintain(store: Store, queue: QueueClient, limit: nat)
    requires store.Valid() && Waiting(store.rows) && Past(store.rows, store.clock) && limit > 0
    requires exists id :: id in store.rows && !Terminal(store.rows[id])
    modifies store`rows, store`model, store`trace, queue`pending, queue`scheduled
    ensures store.Valid() && OnlyChores(old(store.trace), store.trace)
    ensures store.model.workers == old(store.model.workers)
    ensures exists id :: ReadyIn(store.rows, store.clock, id)
  {
    ghost var rows := store.rows;
    var _, reaped := ReapExpiredLeases(store, limit);
    ghost var middle := store.trace;
    var _, ids, _, dbIds := PromoteDueScheduled(store, queue, store.clock, limit);
    ChoresJoin(old(store.trace), middle, store.trace);
    SomethingReady(rows, store.clock, limit, reaped, ids, dbIds);
  }

  /** Time passes, and then one cycle each of the reaper, the scheduler, the feeder and a worker. */
  method Sweep(store: Store, queue: QueueClient, holder: LeaseHolder, w: WorkerId, limit: nat)
    returns (ghost run: seq<Action>)
    requires store.Valid() && store.Idle(w) && store.sessions == map[] && limit > 0
    requires exists id :: id in store.rows && !Terminal(store.rows[id])
    modifies store`rows, store`clock, store`sessions, store`model, store`trace
    modifies queue`pending, queue`scheduled, queue`dead, holder
    ensures store.Valid() && store.Idle(w) && store.sessions == map[] && store.model.workers == old(store.model.workers)
    ensures store.trace == old(store.trace) + run && AllQuiet(run) && ClaimCount(run) > 0
  {
    RowsWait(store.c, store.b, store.epoch, store.trace, store.model);
    ghost var trace0 := store.trace;
    var to := Horizon(store.rows, store.clock);
    store.Advance(to);
    ghost var trace1 := store.trace;
    Maintain(store, queue, limit);
    ghost var trace2, rows2, pending2, now2 := store.trace, store.rows, queue.pending, store.clock;
    ghost var ids, claimed, at, attempts := FeedThenDrain(store, queue, holder, w, limit);
    SomeClaimed(rows2, pending2, now2, limit, ids, claimed, at, store.rows);
    run := JoinRuns(trace0, to, trace1, trace2, attempts);
  }

  lemma SomeClaimed(rows0: map<Id, Job>, pending0: ZSet, now0: Time, limit: nat, ids: seq<Id>, claimed: seq<Id>,
                    at: map<Id, Time>, rows: map<Id, Job>)
    requires TopOf(ids, ReadyRanks(rows0, now0), limit) && (forall id :: id in ids ==> ReadyIn(rows0, now0, id))
    requires Drained(Fed(pending0, rows0, ids), rows0, now0, claimed, at, map[], rows)
    requires limit > 0 && exists id :: ReadyIn(rows0, now0, id)
    ensures |claimed| > 0
  {
    var id :| ReadyIn(rows0, now0, id);
    assert id in ReadyRanks(rows0, now0);
    assert ids[0] in ids && ids[0] in Fed(pending0, rows0, ids) && ids[0] in at;
    assert ids[0] in claimed;
  }

  lemma JoinRuns(trace0: seq<Action>, to: Time, trace1: seq<Action>, trace2: seq<Action>, attempts: seq<Action>)
    returns (run: seq<Action>)
    requires trace1 == trace0 + [World(Tick(to))] && OnlyChores(trace1, trace2) && AllQuiet(attempts)
    ensures trace2 + attempts == trace0 + run && AllQuiet(run) && ClaimCount(run) >= ClaimCount(attempts)
  {
    ChoresGrow(trace1, trace2);
    var before := trace2[|trace0|..];
    run := before + attempts;
    assert trace2 == trace0 + before;
    forall i | 0 <= i < |before| ensures Quiet(before[i]) {
      assert before[i] == trace2[|trace0| + i];
      if i == 0 { assert trace2[|trace0|] == trace1[|trace0|]; }
    }
    ClaimCountConcat(before, attempts);
  }

  // ---- jobs in flight at live workers ----

  function LiveWorkers(s: State): set<WorkerId> {
    set w | w in s.workers && Alive(s, w)
  }

  /** Changing a worker's hold leaves it as alive as it was. */
  lemma SameLive(s: State, t: State, w: WorkerId)
    requires w in s.workers && w in t.workers && SetHold(t, w, None).workers == SetHold(s, w, None).workers
    ensures LiveWorkers(t) == LiveWorkers(s)
  {
    forall v ensures v in LiveWorkers(t) <==> v in LiveWorkers(s) {
      assert v in t.workers <==> v in SetHold(t, w, None).workers;
      assert v in s.workers <==> v in SetHold(s, w, None).workers;
    }
  }

  /** Two runs with nothing loud make one. */
  lemma QuietSum(run: seq<Action>, more: seq<Action>)
    requires AllQuiet(run) && AllQuiet(more)
    ensures AllQuiet(run + more) && ClaimCount(run + more) == ClaimCount(run) + ClaimCount(more)
  {
    ClaimCountConcat(run, more);
  }

  /** The steps that end an attempt under way. */
  function Rest(w: WorkerId, started: bool, during: seq<Moment>, final: WorkAction): seq<Action> {
    (if started then [] else [Work(w, Start)]) + Steps(w, during) + [Work(w, final)]
  }

  lemma RestQuiet(w: WorkerId, started: bool, during: seq<Moment>, final: WorkAction)
    requires final.Complete? || final.Fail?
    ensures AllQuiet(Rest(w, started, during, final)) && ClaimCount(Rest(w, started, during, final)) == 0
  {
    var first := if started then [] else [Work(w, Start)];
    if !started {
      QuietMore([], Work(w, Start));
      assert [] + [Work(w, Start)] == first;
    }
    StepsQuiet(first, w, during);
    QuietMore(first + Steps(w, during), Work(w, final));
  }

  /** A live worker in flight starts its handler if it has not. */
  method Begin(store: Store, w: WorkerId)
    requires store.Valid() && w in store.sessions
    modifies store`sessions, store`model, store`trace
    ensures var s := old(store.sessions)[w];
            && store.Valid() && store.Serving(w, s.id, s.copy) && store.sessions.Keys == old(store.sessions).Keys
            && s.id in store.rows && store.rows[s.id].progress == s.copy.progress
            && store.trace == old(store.trace) + (if s.started then [] else [Work(w, Start)])
    ensures LiveWorkers(store.model) == LiveWorkers(old(store.model))
  {
    var session := store.sessions[w];
    SessionAgrees(store.c, store.b, store.epoch, store.trace, store.model, w);
    if !session.started {
      Announce(store, w, session.id, session.copy);
      SameLive(old(store.model), store.model, w);
    }
  }

  /** And it ends its attempt in any way. */
  method End(store: Store, queue: QueueClient, w: WorkerId, id: Id, copy: Job)
    returns (ghost during: seq<Moment>, ghost final: WorkAction)
    requires store.Valid() && store.Serving(w, id, copy) && id in store.rows
    requires store.rows[id].progress == copy.progress
    modifies store`rows, store`clock, store`sessions, store`model, store`trace, queue`dead
    ensures store.Valid() && store.sessions.Keys == old(store.sessions).Keys - {w}
    ensures LiveWorkers(store.model) == LiveWorkers(old(store.model))
    ensures store.trace == old(store.trace) + Steps(w, during) + [Work(w, final)] && (final.Complete? || final.Fail?)
  {
    ghost var wall;
    var o: Outcome := *;
    var holder := new LeaseHolder();
    holder.jobId := Some(id);
    during, wall := Perform(store, queue, holder, w, id, copy, o);
    final := FinalAction(o, wall, store.clock);
    SameLive(old(store.model), store.model, w);
  }

  method FinishSession(store: Store, queue: QueueClient, w: WorkerId) returns (ghost run: seq<Action>)
    requires store.Valid() && w in store.sessions
    modifies store`rows, store`clock, store`sessions, store`model, store`trace, queue`dead
    ensures store.Valid() && store.sessions.Keys == old(store.sessions).Keys - {w}
    ensures LiveWorkers(store.model) == LiveWorkers(old(store.model))
    ensures store.trace == old(store.trace) + run && AllQuiet(run) && ClaimCount(run) == 0
  {
    var session := store.sessions[w];
    Begin(store, w);
    ghost var during, final := End(store, queue, w, session.id, session.copy);
    run := Rest(w, session.started, during, final);
    RestQuiet(w, session.started, during, final);
  }

  /** What has happened since a state: nothing loud, and no worker is less alive. */
  ghost predicate Calm(store: Store, trace: seq<Action>, live: set<WorkerId>, run: seq<Action>)
    reads store
  {
    && store.Valid() && store.trace == trace + run && AllQuiet(run) && ClaimCount(run) == 0
    && LiveWorkers(store.model) == live
  }

  method FinishOne(store: Store, queue: QueueClient, w: WorkerId, ghost trace: seq<Action>, ghost live: set<WorkerId>,
                   ghost before: seq<Action>)
    returns (ghost run: seq<Action>)
    requires Calm(store, trace, live, before) && w in store.sessions
    modifies store`rows, store`clock, store`sessions, store`model, store`trace, queue`dead
    ensures Calm(store, trace, live, run) && store.sessions.Keys == old(store.sessions).Keys - {w}
  {
    ghost var more := FinishSession(store, queue, w);
    QuietSum(before, more);
    run := before + more;
  }

  /** Every attempt under way is started if it was not, and ended. */
  method FinishAll(store: Store, queue: QueueClient) returns (ghost run: seq<Action>)
    requires store.Valid()
    modifies store`rows, store`clock, store`sessions, store`model, store`trace, queue`dead
    ensures store.Valid() && store.sessions == map[]
    ensures LiveWorkers(store.model) == LiveWorkers(old(store.model))
    ensures store.trace == old(store.trace) + run && AllQuiet(run) && ClaimCount(run) == 0
  {
    run := [];
    while store.sessions != map[]
      invariant Calm(store, old(store.trace), LiveWorkers(old(store.model)), run)
      decreases |store.sessions.Keys|
    {
      var w :| w in store.sessions;
      run := FinishOne(store, queue, w, old(store.trace), LiveWorkers(old(store.model)), run);
    }
  }

  /** The attempts under way end, at no claim. */
  method Settle(store: Store, queue: QueueClient) returns (ghost run: seq<Action>)
    requires store.Valid()
    modifies store`rows, store`clock, store`sessions, store`model, store`trace, queue`dead
    ensures store.sessions == map[] && LiveWorkers(store.model) == LiveWorkers(old(store.model))
    ensures Spent(store, old(store.trace), Potential(old(store.model)), run)
  {
    run := FinishAll(store, queue);
    RunCosts(store.c, store.b, store.epoch, old(store.trace), old(store.model), run, store.model);
  }

  /** What has happened since a state with this trace and measure: nothing loud, and claims the measure paid for. */
  ghost predicate Spent(store: Store, trace: seq<Action>, potential: nat, run: seq<Action>)
    reads store
  {
    && store.Valid() && store.trace == trace + run && AllQuiet(run)
    && ClaimCount(run) + Potential(store.model) <= potential
  }

  /** One sweep lowers the measure. */
  method SweepOn(store: Store, queue: QueueClient, holder: LeaseHolder, w: WorkerId, limit: nat,
                 ghost trace: seq<Action>, ghost potential: nat, ghost before: seq<Action>)
    returns (ghost run: seq<Action>)
    requires Spent(store, trace, potential, before) && store.Idle(w) && store.sessions == map[] && limit > 0
    requires exists id :: id in store.rows && !Terminal(store.rows[id])
    modifies store`rows, store`clock, store`sessions, store`model, store`trace
    modifies queue`pending, queue`scheduled, queue`dead, holder
    ensures Spent(store, trace, potential, run) && store.Idle(w) && store.sessions == map[]
    ensures Potential(store.model) < Potential(old(store.model))
  {
    ghost var more := Sweep(store, queue, holder, w, limit);
    RunCosts(store.c, store.b, store.epoch, old(store.trace), old(store.model), more, store.model);
    QuietSum(before, more);
    run := before + more;
  }

  lemma NoSession(b: Bounds, s: State, w: WorkerId)
    requires Sessions(b, s) == map[] && Alive(s, w)
    ensures !Holds(s, w)
  {
    assert Holds(s, w) ==> w in Sessions(b, s);
  }

  /**
   * Termination of the whole system: from any state of a disciplined run with at least one live worker, whatever
   * handlers do and whatever Redis holds, live workers end the attempts they are in and sweeps end with every job
   * completed, failed or cancelled, after no more claims than the measure allowed.
   */
  method RunUntilDone(store: Store, queue: QueueClient, holder: LeaseHolder, w: WorkerId, limit: nat)
    returns (ghost run: seq<Action>)
    requires store.Valid() && Alive(store.model, w) && limit > 0
    modifies store`rows, store`clock, store`sessions, store`model, store`trace
    modifies queue`pending, queue`scheduled, queue`dead, holder
    ensures store.Valid()
    ensures forall id :: id in store.rows ==> store.rows[id].status in {Completed, Failed, Cancelled}
    ensures store.trace == old(store.trace) + run && AllQuiet(run)
    ensures ClaimCount(run) <= Potential(old(store.model))
  {
    run := Settle(store, queue);
    assert w in LiveWorkers(store.model);
    NoSession(store.b, store.model, w);
    while exists id :: id in store.rows && !Terminal(store.rows[id])
      invariant Spent(store, old(store.trace), Potential(old(store.model)), run)
      invariant store.Idle(w) && store.sessions == map[]
      decreases Potential(store.model)
    {
      run := SweepOn(store, queue, holder, w, limit, old(store.trace), Potential(old(store.model)), run);
    }
  }
}
