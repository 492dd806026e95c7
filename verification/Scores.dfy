/** Every entry of the sorted sets, and every entry on its way there, carries what its row says. */
module Scores {
  import opened Wrappers
  import opened Jobs
  import opened Keys
  import opened Protocol
  import opened Redis
  import opened Scheduler
  import opened Dispatch
  import opened FullSystem

  predicate Scored(table: map<Id, Entry>, o: Offer) {
    o.id in table && o.score == JobScore(table[o.id].job)
  }

  predicate Timed(table: map<Id, Entry>, id: Id, runAt: Time) {
    id in table && table[id].job.scheduledAt == Some(runAt)
  }

  /** The entries an errand has still to add. */
  predicate ErrandAgrees(table: map<Id, Entry>, e: Errand) {
    match e
    case Enqueueing(o) => Scored(table, o)
    case Scheduling(id, runAt) => Timed(table, id, runAt)
    case Feeding(todo) => forall i :: 0 <= i < |todo| ==> Scored(table, todo[i])
    case Moving(_, _, o) => Scored(table, o)
    case Adding(_, _, o) => Scored(table, o)
    case _ => true
  }

  predicate PendingAgrees(table: map<Id, Entry>, z: ZSet) {
    forall id :: id in z ==> Scored(table, Offer(id, z[id]))
  }

  predicate ScheduledAgrees(table: map<Id, Entry>, z: ZSet) {
    forall id :: id in z ==> Timed(table, id, z[id])
  }

  predicate ErrandsAgree(table: map<Id, Entry>, errands: map<nat, Errand>) {
    forall p :: p in errands ==> ErrandAgrees(table, errands[p])
  }

  predicate Agreeing(s: System) {
    && PendingAgrees(s.table, s.pending) && ScheduledAgrees(s.table, s.scheduled)
    && ErrandsAgree(s.table, s.errands)
  }

  // ---- no commit of any actor changes a row's priority or dates ----

  predicate SameDates(j: Job, k: Job) {
    j.priority == k.priority && j.createdAt == k.createdAt && j.scheduledAt == k.scheduledAt
  }

  lemma WorkDates(c: Settings, s: State, w: WorkerId, a: WorkAction, id: Id)
    requires CanWork(s, w, a) && id in s.table
    ensures id in ApplyWork(c, s, w, a).table && SameDates(ApplyWork(c, s, w, a).table[id].job, s.table[id].job)
  {
  }

  lemma DatesStep(c: Settings, s: State, a: Action, id: Id)
    requires Enabled(c, s, a) && id in s.table
    ensures id in Apply(c, s, a).table && SameDates(Apply(c, s, a).table[id].job, s.table[id].job)
  {
    if a.Work? { WorkDates(c, s, a.w, a.work, id); }
  }

  predicate DatesKept(before: map<Id, Entry>, after: map<Id, Entry>) {
    forall id :: id in before ==> id in after && SameDates(after[id].job, before[id].job)
  }

  lemma TookDates(c: Settings, s: State, step: seq<Action>, t: State)
    requires Took(c, s, step, t)
    ensures DatesKept(s.table, t.table)
  {
    if step != [] {
      forall id | id in s.table ensures id in t.table && SameDates(t.table[id].job, s.table[id].job) {
        DatesStep(c, s, step[0], id);
      }
    }
  }

  lemma MoveDates(c: Settings, s: System, m: Move)
    requires CanMove(c, s, m)
    ensures DatesKept(s.table, MoveOn(c, s, m).table)
  {
    Simulates(c, s, m);
    TookDates(c, Abs(s), DbStep(c, s, m), Abs(MoveOn(c, s, m)));
  }

  /** What agreed with the rows agrees with them later. */
  lemma DatesGrown(before: map<Id, Entry>, after: map<Id, Entry>, s: System)
    requires DatesKept(before, after)
    ensures PendingAgrees(before, s.pending) ==> PendingAgrees(after, s.pending)
    ensures ScheduledAgrees(before, s.scheduled) ==> ScheduledAgrees(after, s.scheduled)
    ensures ErrandsAgree(before, s.errands) ==> ErrandsAgree(after, s.errands)
  {
    if ErrandsAgree(before, s.errands) {
      forall p | p in s.errands ensures ErrandAgrees(after, s.errands[p]) {
        assert ErrandAgrees(before, s.errands[p]);
      }
    }
  }

  /** A move that changes neither set, and sets one errand. */
  lemma OneErrandOn(s: System, t: System, p: nat, e: Errand)
    requires Agreeing(s) && DatesKept(s.table, t.table) && t.pending == s.pending && t.scheduled == s.scheduled
    requires t.errands == s.errands[p := e] && ErrandAgrees(t.table, e)
    ensures Agreeing(t)
  {
    DatesGrown(s.table, t.table, s);
  }

  /** Or ends one. */
  lemma OneErrandOff(s: System, t: System, p: nat)
    requires Agreeing(s) && DatesKept(s.table, t.table) && t.pending == s.pending && t.scheduled == s.scheduled
    requires t.errands == s.errands - {p}
    ensures Agreeing(t)
  {
    DatesGrown(s.table, t.table, s);
  }

  // ---- move by move ----

  lemma EnvAgrees(s: System, e: EnvMove)
    requires Agreeing(s) && CanEnv(s, e) && !e.Corrupt?
    ensures Agreeing(DoEnv(s, e))
  {
  }

  /** A worker adds to no set and changes no errand. */
  predicate NoAdds(s: System, t: System) {
    && t.errands == s.errands && t.scheduled == s.scheduled
    && forall id :: id in t.pending ==> id in s.pending && t.pending[id] == s.pending[id]
  }

  lemma WorkKeeps(c: Settings, s: System, w: WorkerId, m: WorkerMove)
    requires CanBy(s, w, m) && (m.Begin? || m.Report? || m.Succeed? || m.Break? || m.TryClaim?)
    ensures NoAdds(s, DoBy(c, s, w, m))
  {
  }

  lemma ByKeeps(c: Settings, s: System, w: WorkerId, m: WorkerMove)
    requires CanBy(s, w, m)
    ensures NoAdds(s, DoBy(c, s, w, m))
  {
    match m {
      case Pop =>
      case PushFailed =>
      case Glance(_) =>
      case Beat =>
      case _ => WorkKeeps(c, s, w, m);
    }
  }

  lemma ByAgrees(c: Settings, s: System, w: WorkerId, m: WorkerMove)
    requires Agreeing(s) && CanBy(s, w, m) && DatesKept(s.table, DoBy(c, s, w, m).table)
    ensures Agreeing(DoBy(c, s, w, m))
  {
    ByKeeps(c, s, w, m);
    DatesGrown(s.table, DoBy(c, s, w, m).table, s);
  }

  lemma CreateAgrees(c: Settings, s: System, p: nat, r: RequestMove)
    requires r.Create? && CanFor(c, s, p, r) && Agreeing(s)
    requires DatesKept(s.table, DoCreate(c, s, p, r.id, r.priority, r.scheduledAt, r.created).table)
    ensures Agreeing(DoCreate(c, s, p, r.id, r.priority, r.scheduledAt, r.created))
  {
    var t := DoCreate(c, s, p, r.id, r.priority, r.scheduledAt, r.created);
    if KeyTaken(s.table, s.errands[p].key) {
      OneErrandOff(s, t, p);
    } else {
      CreatedAgrees(c, s, p, r);
      OneErrandOn(s, t, p, t.errands[p]);
    }
  }

  /** The ZADD that a submit owes carries the score or the schedule of the row it has just inserted. */
  lemma CreatedAgrees(c: Settings, s: System, p: nat, r: RequestMove)
    requires r.Create? && CanFor(c, s, p, r) && !KeyTaken(s.table, s.errands[p].key)
    ensures var t := DoCreate(c, s, p, r.id, r.priority, r.scheduledAt, r.created);
            && p in t.errands && t == s.(table := t.table, errands := s.errands[p := t.errands[p]])
            && ErrandAgrees(t.table, t.errands[p])
  {
  }

  lemma WriteAgrees(s: System, p: nat, wall: Time)
    requires p in s.errands && s.errands[p].Asking? && s.errands[p].q.id in s.table && Agreeing(s)
    requires DatesKept(s.table, DoWrite(s, p, wall).table)
    ensures Agreeing(DoWrite(s, p, wall))
  {
    var q := s.errands[p].q;
    OneErrandOn(s, DoWrite(s, p, wall), p, if q.Cancelling? then Unqueueing(q.id) else Unlisting(q.id, |s.notes|));
  }

  lemma OnAgrees(s: System, p: nat, e: Errand)
    requires Agreeing(s) && ErrandAgrees(s.table, e)
    ensures Agreeing(On(s, p, e))
  {
  }

  lemma AskAgrees(s: System, p: nat, id: Id, retry: bool)
    requires Agreeing(s) && id in s.table
    ensures Agreeing(DoAsk(s, p, id, retry))
  {
    OnAgrees(s, p, Asking(Retrying(id, s.table[id].job)));
    OnAgrees(s, p, Asking(Cancelling(id, s.table[id].job)));
  }

  lemma ForAgrees(c: Settings, s: System, p: nat, r: RequestMove)
    requires Agreeing(s) && CanFor(c, s, p, r) && DatesKept(s.table, DoFor(c, s, p, r).table)
    ensures Agreeing(DoFor(c, s, p, r))
  {
    match r {
      case Submit(key) => OnAgrees(s, p, Inserting(key, s.clock));
      case Create(_, _, _, _) => CreateAgrees(c, s, p, r);
      case Ask(id, retry) => AskAgrees(s, p, id, retry);
      case Write(wall) => WriteAgrees(s, p, wall);
    }
  }

  lemma OffersAgree(s: System, ids: seq<Id>)
    requires forall id :: id in ids ==> id in s.table
    ensures ErrandAgrees(s.table, Feeding(Offers(RowsOf(s), ids)))
  {
    var offers := Offers(RowsOf(s), ids);
    forall i | 0 <= i < |offers| ensures Scored(s.table, offers[i]) {
      assert ids[i] in ids;
    }
  }

  lemma UpdateShape(s: System, p: nat, now: Time)
    requires p in s.errands && s.errands[p].Promoting? && s.errands[p].ids != []
    ensures var t, ids := DoUpdate(s, p, now), s.errands[p].ids;
            && t.pending == s.pending && t.scheduled == s.scheduled
            && t.errands == s.errands[p := t.errands[p]]
            && (t.errands[p].Dropping?
                || (ids[0] in s.table
                    && t.errands[p] == Moving(ids, now, Offer(ids[0], JobScore(s.table[ids[0]].job)))))
  {
  }

  lemma UpdateAgrees(s: System, p: nat, now: Time)
    requires p in s.errands && s.errands[p].Promoting? && s.errands[p].ids != [] && Agreeing(s)
    requires DatesKept(s.table, DoUpdate(s, p, now).table)
    ensures Agreeing(DoUpdate(s, p, now))
  {
    UpdateShape(s, p, now);
    OneErrandOn(s, DoUpdate(s, p, now), p, DoUpdate(s, p, now).errands[p]);
  }

  lemma TakeBackShape(s: System, p: nat, now: Time)
    requires p in s.errands && s.errands[p].Reaping? && s.errands[p].ids != []
    ensures var t := DoTakeBack(s, p, now);
            && t.pending == s.pending && t.scheduled == s.scheduled
            && t.errands == s.errands[p := Reaping(s.errands[p].ids[1..], now)]
  {
  }

  lemma TakeBackAgrees(s: System, t: System, p: nat, now: Time)
    requires p in s.errands && s.errands[p].Reaping? && s.errands[p].ids != [] && Agreeing(s)
    requires t == DoTakeBack(s, p, now) && DatesKept(s.table, t.table)
    ensures Agreeing(t)
  {
    TakeBackShape(s, p, now);
    OneErrandOn(s, t, p, Reaping(s.errands[p].ids[1..], now));
  }

  lemma TendAgrees(c: Settings, s: System, p: nat, b: BatchMove)
    requires Agreeing(s) && CanTend(c, s, p, b) && DatesKept(s.table, DoTend(c, s, p, b).table)
    ensures Agreeing(DoTend(c, s, p, b))
  {
    match b {
      case Wake => OnAgrees(s, p, Awake(s.clock));
      case Feed(ids) =>
        OffersAgree(s, ids);
        OnAgrees(s, p, Feeding(Offers(RowsOf(s), ids)));
      case Survey(ids) => OnAgrees(s, p, Reaping(ids, s.errands[p].since));
      case TakeBack(now) => TakeBackAgrees(s, DoTakeBack(s, p, now), p, now);
      case Look(moment, ids) => OnAgrees(s, p, Looked(moment, ids, s.clock));
      case Scan(now, ids) => OnAgrees(s, p, Promoting(Dedupe(s.errands[p].fromRedis + ids), now));
      case Update(now) => UpdateAgrees(s, p, now);
    }
  }

  lemma AddAgrees(table: map<Id, Entry>, z: ZSet, e: Errand)
    requires PendingAgrees(table, z) && ErrandAgrees(table, e)
    ensures PendingAgrees(table, PendingAfter(z, e))
  {
    if NextAdd(e).Some? {
      var (o, nx) := NextAdd(e).value;
      assert Scored(table, o);
    }
  }

  lemma GoAgrees(s: System, p: nat)
    requires Agreeing(s) && p in s.errands && Commanding(s.errands[p])
    ensures Agreeing(DoGo(s, p))
  {
    var e, t := s.errands[p], DoGo(s, p);
    assert ErrandAgrees(s.table, e);
    AddAgrees(s.table, s.pending, e);
    forall q | q in t.errands ensures ErrandAgrees(t.table, t.errands[q]) {
      if q != p { assert t.errands[q] == s.errands[q]; }
    }
  }

  lemma MoveAgrees(c: Settings, s: System, m: Move)
    requires Agreeing(s) && CanMove(c, s, m) && !(m.Env? && m.e.Corrupt?)
    ensures Agreeing(MoveOn(c, s, m))
  {
    MoveDates(c, s, m);
    match m {
      case Env(e) => EnvAgrees(s, e);
      case By(w, a) => ByAgrees(c, s, w, a);
      case For(p, r) => ForAgrees(c, s, p, r);
      case Tend(p, b) => TendAgrees(c, s, p, b);
      case Clean(_) => DatesGrown(s.table, MoveOn(c, s, m).table, s);
      case Go(p) => GoAgrees(s, p);
    }
  }

  /** From empty Redis, through any interleaving, delay, crash or loss, every entry carries the score of its row. */
  lemma {:induction false} ScoresAlwaysAgree(c: Settings, s: System, moves: seq<Move>, t: System)
    requires Agreeing(s) && Moves(c, s, moves, t) && Honest(moves)
    ensures Agreeing(t)
    ensures forall now :: ScoresAgree(t.pending, RowsOf(t), now)
    decreases |moves|
  {
    if moves != [] {
      MoveAgrees(c, s, moves[0]);
      assert forall i :: 0 <= i < |moves[1..]| ==> moves[1..][i] == moves[i + 1];
      ScoresAlwaysAgree(c, MoveOn(c, s, moves[0]), moves[1..], t);
    }
  }

  /** So the plain and the NX adds of any two actors commute, and none ever moves an entry. */
  lemma AddsCommute(s: System, p: nat, q: nat)
    requires Agreeing(s) && p in s.errands && q in s.errands
    requires NextAdd(s.errands[p]).Some? && NextAdd(s.errands[q]).Some?
    ensures var (o, nx) := NextAdd(s.errands[p]).value;
            var (u, ny) := NextAdd(s.errands[q]).value;
            && ZAdd(ZAdd(s.pending, o.id, o.score, nx), u.id, u.score, ny)
               == ZAdd(ZAdd(s.pending, u.id, u.score, ny), o.id, o.score, nx)
            && forall id :: id in s.pending ==> ZAdd(s.pending, o.id, o.score, nx)[id] == s.pending[id]
  {
    assert ErrandAgrees(s.table, s.errands[p]) && ErrandAgrees(s.table, s.errands[q]);
    var (o, nx) := NextAdd(s.errands[p]).value;
    var (u, ny) := NextAdd(s.errands[q]).value;
    AddsOfRows(s.table, s.pending, o, nx, u, ny);
  }

  lemma AddsOfRows(table: map<Id, Entry>, z: ZSet, o: Offer, nx: bool, u: Offer, ny: bool)
    requires PendingAgrees(table, z) && Scored(table, o) && Scored(table, u)
    ensures ZAdd(ZAdd(z, o.id, o.score, nx), u.id, u.score, ny) == ZAdd(ZAdd(z, u.id, u.score, ny), o.id, o.score, nx)
    ensures forall id :: id in z ==> ZAdd(z, o.id, o.score, nx)[id] == z[id]
  {
    assert o.id in z ==> Scored(table, Offer(o.id, z[o.id]));
    assert u.id in z ==> Scored(table, Offer(u.id, z[u.id]));
  }
}
