/**
 * The other half of Redis independence: which steps of the database alone the processes can bring about by their own
 * commands, within the limit of a batch and with no outside hand on Redis but its loss.
 */
module Realization {
  import opened Wrappers
  import opened Jobs
  import opened Ordering
  import opened Protocol
  import opened Redis
  import opened Database
  import opened DeadLetter
  import opened Feeder
  import opened Scheduler
  import opened Reaper
  import opened FullSystem

  /** Workers are idle or hold a job, no heartbeat is under way, and errands are requests between read and write. */
  ghost predicate AtRest(s: System) {
    && (forall w :: w in s.procs && Live(s, w) ==> WorkerAtRest(s.procs[w]))
    && (forall p :: p in s.errands ==> s.errands[p].Asking?)
  }

  predicate WorkerAtRest(p: Process) {
    p.beat.None? && if p.phase.Held? then p.holder == Some(p.phase.hold.id) else p.phase.Idle? && p.holder.None?
  }

  /** An honest run whose database steps are exactly these. */
  ghost predicate Way(c: Settings, s: System, moves: seq<Move>, acts: seq<Action>, t: System) {
    Moves(c, s, moves, t) && Honest(moves) && DbRun(c, s, moves) == acts
  }

  /** Some honest run has exactly this database step. */
  ghost predicate Realizable(c: Settings, s: System, a: Action) {
    exists moves, t :: Way(c, s, moves, [a], t)
  }

  /** The rest of an honest run. */
  lemma WayTail(c: Settings, s: System, moves: seq<Move>, acts: seq<Action>, t: System) returns (rest: seq<Action>)
    requires Way(c, s, moves, acts, t) && moves != []
    ensures CanMove(c, s, moves[0]) && !(moves[0].Env? && moves[0].e.Corrupt?)
    ensures Way(c, MoveOn(c, s, moves[0]), moves[1..], rest, t) && acts == DbStep(c, s, moves[0]) + rest
  {
    rest := DbRun(c, MoveOn(c, s, moves[0]), moves[1..]);
    assert forall i :: 0 <= i < |moves[1..]| ==> moves[1..][i] == moves[i + 1];
  }

  lemma WayCons(c: Settings, s: System, m: Move, moves: seq<Move>, acts: seq<Action>, t: System)
    requires CanMove(c, s, m) && !(m.Env? && m.e.Corrupt?) && Way(c, MoveOn(c, s, m), moves, acts, t)
    ensures Way(c, s, [m] + moves, DbStep(c, s, m) + acts, t)
  {
    assert ([m] + moves)[1..] == moves;
  }

  lemma Regroup<T>(x: seq<T>, y: seq<T>, z: seq<T>)
    ensures x + y + z == x + (y + z)
  {
  }

  lemma {:induction false} WayJoin(c: Settings, s: System, moves: seq<Move>, acts: seq<Action>, mid: System,
                                   more: seq<Move>, rest: seq<Action>, t: System)
    requires Way(c, s, moves, acts, mid) && Way(c, mid, more, rest, t)
    ensures Way(c, s, moves + more, acts + rest, t)
    decreases |moves|
  {
    if moves == [] {
      assert moves + more == more && acts + rest == rest;
    } else {
      var acts' := WayTail(c, s, moves, acts, mid);
      WayJoin(c, MoveOn(c, s, moves[0]), moves[1..], acts', mid, more, rest, t);
      WayCons(c, s, moves[0], moves[1..] + more, acts' + rest, t);
      Regroup(DbStep(c, s, moves[0]), acts', rest);
      Regroup([moves[0]], moves[1..], more);
      assert [moves[0]] + moves[1..] == moves;
    }
  }

  lemma OneWay(c: Settings, s: System, m: Move)
    requires CanMove(c, s, m) && !(m.Env? && m.e.Corrupt?)
    ensures Way(c, s, [m], DbStep(c, s, m), MoveOn(c, s, m))
  {
    WayCons(c, s, m, [], [], MoveOn(c, s, m));
    assert [m] + [] == [m] && DbStep(c, s, m) + [] == DbStep(c, s, m);
  }

  /** One more honest move at the end. */
  lemma Then(c: Settings, s: System, moves: seq<Move>, acts: seq<Action>, mid: System, m: Move)
    requires Way(c, s, moves, acts, mid) && CanMove(c, mid, m) && !(m.Env? && m.e.Corrupt?)
    ensures Way(c, s, moves + [m], acts + DbStep(c, mid, m), MoveOn(c, mid, m))
  {
    OneWay(c, mid, m);
    WayJoin(c, s, moves, acts, mid, [m], DbStep(c, mid, m), MoveOn(c, mid, m));
  }

  lemma NoMove(c: Settings, s: System)
    ensures Way(c, s, [], [], s)
  {
  }

  function Wiped(s: System): System {
    s.(pending := map[], scheduled := map[], dead := [], log := s.log + [Cleared])
  }

  function Rid(s: System, p: nat): System {
    s.(errands := s.errands - {p})
  }

  lemma ThenWipe(c: Settings, s: System, moves: seq<Move>, acts: seq<Action>, mid: System)
    requires Way(c, s, moves, acts, mid)
    ensures Way(c, s, moves + [Env(Wipe)], acts, Wiped(mid))
  {
    Then(c, s, moves, acts, mid, Env(Wipe));
    assert acts + [] == acts;
  }

  lemma ThenGo(c: Settings, s: System, moves: seq<Move>, acts: seq<Action>, mid: System, p: nat)
    requires Way(c, s, moves, acts, mid) && p in mid.errands && Commanding(mid.errands[p])
    ensures Way(c, s, moves + [Go(p)], acts, DoGo(mid, p))
  {
    Then(c, s, moves, acts, mid, Go(p));
    assert acts + [] == acts;
  }

  /** A statement of a maintenance cycle. */
  lemma ThenTend(c: Settings, s: System, moves: seq<Move>, acts: seq<Action>, mid: System, p: nat, b: BatchMove)
    requires Way(c, s, moves, acts, mid) && CanTend(c, mid, p, b)
    ensures Way(c, s, moves + [Tend(p, b)], acts + TendStep(c, mid, p, b), DoTend(c, mid, p, b))
  {
    Then(c, s, moves, acts, mid, Tend(p, b));
  }

  lemma ThenRead(c: Settings, s: System, moves: seq<Move>, acts: seq<Action>, mid: System, p: nat, b: BatchMove,
                 e: Errand)
    requires Way(c, s, moves, acts, mid) && CanTend(c, mid, p, b)
    requires TendStep(c, mid, p, b) == [] && DoTend(c, mid, p, b) == On(mid, p, e)
    ensures Way(c, s, moves + [Tend(p, b)], acts, On(mid, p, e))
  {
    ThenTend(c, s, moves, acts, mid, p, b);
    assert acts + [] == acts;
  }

  lemma ThenAbandon(c: Settings, s: System, moves: seq<Move>, acts: seq<Action>, mid: System, p: nat)
    requires Way(c, s, moves, acts, mid) && p in mid.errands && !mid.errands[p].Asking?
    ensures Way(c, s, moves + [Env(Abandon(p))], acts, Rid(mid, p))
    ensures Abs(Rid(mid, p)) == Abs(mid)
  {
    Then(c, s, moves, acts, mid, Env(Abandon(p)));
    assert acts + [] == acts;
    NoRequest(mid.errands, p, Feeding([]));
  }

  lemma ThenBy(c: Settings, s: System, moves: seq<Move>, acts: seq<Action>, mid: System, w: WorkerId, m: WorkerMove)
    requires Way(c, s, moves, acts, mid) && CanBy(mid, w, m)
    ensures Way(c, s, moves + [By(w, m)], acts + ByStep(mid, w, m), DoBy(c, mid, w, m))
  {
    Then(c, s, moves, acts, mid, By(w, m));
  }

  // ---- which rows a feeder, a scheduler and a reaper can reach ----

  /** Fewer than a batch of the rows ready now are more urgent. */
  predicate Feedable(c: Settings, clock: Time, rows: map<Id, Job>, id: Id) {
    id in rows && Ready(rows[id], clock) && |MoreUrgent(rows, clock, id)| < c.batch
  }

  lemma FeedableRanks(rows: map<Id, Job>, clock: Time, id: Id)
    requires id in rows && Ready(rows[id], clock)
    ensures id in ReadyRanks(rows, clock) && Preceding(ReadyRanks(rows, clock), id) == MoreUrgent(rows, clock, id)
  {
  }

  /** No row due now has a smaller scheduled time. */
  predicate EarliestDue(c: Settings, clock: Time, rows: map<Id, Job>, id: Id) {
    && id in rows && Due(rows[id], clock) && c.batch > 0
    && forall x :: x in rows && Due(rows[x], clock) ==> rows[id].scheduledAt.value <= rows[x].scheduledAt.value
  }

  lemma EarliestRanks(c: Settings, clock: Time, rows: map<Id, Job>, id: Id)
    requires c.batch > 0
    ensures EarliestDue(c, clock, rows, id)
       <==> id in DueRanks(rows, clock) && Preceding(DueRanks(rows, clock), id) == {}
  {
    var ranks := DueRanks(rows, clock);
    if id in ranks && Preceding(ranks, id) == {} {
      forall x | x in rows && Due(rows[x], clock) ensures rows[id].scheduledAt.value <= rows[x].scheduledAt.value {
        assert x in ranks && x !in Preceding(ranks, id);
      }
    }
  }

  /** No lease that has expired by now is older. */
  predicate OldestExpired(c: Settings, clock: Time, rows: map<Id, Job>, id: Id) {
    && id in rows && Expired(rows[id], clock) && c.batch > 0
    && forall x :: x in rows && Expired(rows[x], clock) ==> rows[id].leasedUntil.value <= rows[x].leasedUntil.value
  }

  lemma OldestRanks(c: Settings, clock: Time, rows: map<Id, Job>, id: Id)
    requires c.batch > 0
    ensures OldestExpired(c, clock, rows, id)
       <==> id in ExpiredRanks(rows, clock) && Preceding(ExpiredRanks(rows, clock), id) == {}
  {
    var ranks := ExpiredRanks(rows, clock);
    if id in ranks && Preceding(ranks, id) == {} {
      forall x | x in rows && Expired(rows[x], clock) ensures rows[id].leasedUntil.value <= rows[x].leasedUntil.value {
        assert x in ranks && x !in Preceding(ranks, id);
      }
    }
  }

  /** Whatever ranks strictly before a candidate stands before it in the list. */
  predicate Led(ranks: map<Id, Rank>, ids: seq<Id>) {
    forall j, y :: 0 <= j < |ids| && ids[j] in ranks && y in ranks && Strictly(ranks[y], ranks[ids[j]])
      ==> y in ids[..j]
  }

  lemma LedTail(ranks: map<Id, Rank>, ids: seq<Id>)
    requires Led(ranks, ids) && ids != [] && ids[0] !in ranks
    ensures Led(ranks, ids[1..])
  {
    forall j, y | 0 <= j < |ids[1..]| && ids[1..][j] in ranks && y in ranks && Strictly(ranks[y], ranks[ids[1..][j]])
      ensures y in ids[1..][..j]
    {
      assert ids[1..][j] == ids[j + 1] && y in ids[..j + 1];
      var i :| 0 <= i < j + 1 && ids[i] == y;
      assert ids[1..][..j][i - 1] == y;
    }
  }

  lemma LedHead(ranks: map<Id, Rank>, ids: seq<Id>)
    requires Led(ranks, ids) && ids != [] && ids[0] in ranks
    ensures Preceding(ranks, ids[0]) == {}
  {
    assert ids[..0] == [];
  }

  /** The answer of a query leads with what ranks first, also by another order that it respects. */
  lemma LedTop(ids: seq<Id>, rank: map<Id, Rank>, limit: nat, ranks: map<Id, Rank>)
    requires TopOf(ids, rank, limit)
    requires forall x, y :: x in rank && x in ranks && y in ranks && Strictly(ranks[y], ranks[x]) ==>
               y in rank && Strictly(rank[y], rank[x])
    ensures Led(ranks, ids)
  {
    forall j, y | 0 <= j < |ids| && ids[j] in ranks && y in ranks && Strictly(ranks[y], ranks[ids[j]])
      ensures y in ids[..j]
    {
      assert ids[j] in ids && y in rank && y in ids;
      var i :| 0 <= i < |ids| && ids[i] == y;
      assert i < j ==> ids[..j][i] == y;
      assert i != j;
    }
  }

  lemma {:induction false} DedupeDistinct(ids: seq<Id>)
    requires Distinct(ids)
    ensures Dedupe(ids) == ids
  {
    if ids != [] {
      var before := ids[..|ids| - 1];
      DedupeDistinct(before);
      assert ids[|ids| - 1] !in before;
    }
  }

  // ---- what a run with no database step can lead to ----

  /** Where an errand can be at an instant, from rest and from empty sets. */
  predicate ErrandFresh(c: Settings, clock: Time, rows: map<Id, Job>, e: Errand) {
    match e
    case Enqueueing(_) => false
    case Scheduling(_, _) => false
    case Moving(_, _, _) => false
    case Adding(_, _, _) => false
    case Inserting(_, since) => since == clock
    case Awake(since) => since == clock
    case Feeding(todo) => forall i :: 0 <= i < |todo| ==> Feedable(c, clock, rows, todo[i].id)
    case Reaping(ids, since) => since == clock && Led(ExpiredRanks(rows, clock), ids) && (ids != [] ==> c.batch > 0)
    case Looked(_, fromRedis, since) => since == clock && fromRedis == []
    case Promoting(ids, since) => since == clock && Led(DueRanks(rows, clock), ids) && (ids != [] ==> c.batch > 0)
    case Dropping(ids, since) =>
      since == clock && ids != [] && Led(DueRanks(rows, clock), ids[1..]) && c.batch > 0
    case _ => true
  }

  predicate PendingFresh(c: Settings, clock: Time, rows: map<Id, Job>, z: ZSet) {
    forall id :: id in z ==> Feedable(c, clock, rows, id)
  }

  predicate ProcFresh(c: Settings, clock: Time, rows: map<Id, Job>, p: Process) {
    && (p.phase.Popped? ==> p.phase.at == clock && Feedable(c, clock, rows, p.phase.id))
    && (p.holder.Some? ==> p.phase.Held? && p.phase.hold.id == p.holder.value)
    && (p.beat.Some? ==> p.beat.value.readAt == clock && p.phase.Held? && p.phase.hold.id == p.beat.value.id)
    && !p.phase.Owing?
  }

  ghost predicate Fresh(c: Settings, s: System) {
    && s.scheduled == map[] && PendingFresh(c, s.clock, RowsOf(s), s.pending)
    && (forall w :: w in s.procs && Live(s, w) ==> ProcFresh(c, s.clock, RowsOf(s), s.procs[w]))
    && (forall p :: p in s.errands ==> ErrandFresh(c, s.clock, RowsOf(s), s.errands[p]))
  }

  lemma FreshEnv(c: Settings, s: System, e: EnvMove)
    requires Fresh(c, s) && CanEnv(s, e) && EnvStep(s, e) == [] && !e.Corrupt?
    ensures Fresh(c, DoEnv(s, e))
  {
    assert RowsOf(DoEnv(s, e)) == RowsOf(s);
  }

  /** A worker's move with no database step: same table, no new entry or errand, and only its own process changed. */
  predicate StepsAside(s: System, t: System, w: WorkerId) {
    && t.clock == s.clock && t.table == s.table && t.errands == s.errands && t.scheduled == s.scheduled
    && (forall id :: id in t.pending ==> id in s.pending)
    && w in t.procs && t.procs == s.procs[w := t.procs[w]]
  }

  lemma FreshAside(c: Settings, s: System, t: System, w: WorkerId)
    requires Fresh(c, s) && StepsAside(s, t, w) && ProcFresh(c, s.clock, RowsOf(s), t.procs[w])
    ensures Fresh(c, t)
  {
    assert RowsOf(t) == RowsOf(s);
  }

  lemma FreshPop(c: Settings, s: System, w: WorkerId)
    requires Fresh(c, s) && CanBy(s, w, Pop)
    ensures Fresh(c, DoPop(s, w))
  {
    assert Head(s.pending) in Ranks(s.pending);
    assert ProcFresh(c, s.clock, RowsOf(s), s.procs[w]);
    FreshAside(c, s, DoPop(s, w), w);
  }

  lemma FreshBy(c: Settings, s: System, w: WorkerId, m: WorkerMove)
    requires Fresh(c, s) && CanBy(s, w, m) && ByStep(s, w, m) == []
    ensures Fresh(c, DoBy(c, s, w, m))
  {
    assert ProcFresh(c, s.clock, RowsOf(s), s.procs[w]);
    match m {
      case Pop => FreshPop(c, s, w);
      case Glance(wall) => FreshAside(c, s, DoGlance(s, w, wall), w);
      case Beat => FreshAside(c, s, DoBeat(c, s, w), w);
      case _ =>
    }
  }

  lemma FreshOn(c: Settings, s: System, p: nat, e: Errand)
    requires Fresh(c, s) && ErrandFresh(c, s.clock, RowsOf(s), e)
    ensures Fresh(c, On(s, p, e))
  {
    assert RowsOf(On(s, p, e)) == RowsOf(s);
  }

  lemma FreshRid(c: Settings, s: System, p: nat)
    requires Fresh(c, s)
    ensures Fresh(c, Rid(s, p))
  {
    assert RowsOf(Rid(s, p)) == RowsOf(s);
  }

  lemma FreshFor(c: Settings, s: System, p: nat, r: RequestMove)
    requires Fresh(c, s) && CanFor(c, s, p, r) && ForStep(c, s, p, r) == []
    ensures Fresh(c, DoFor(c, s, p, r))
  {
    match r {
      case Submit(key) => FreshOn(c, s, p, Inserting(key, s.clock));
      case Create(_, _, _, _) => FreshRid(c, s, p);
      case _ =>
    }
  }

  lemma FreshFeed(c: Settings, s: System, p: nat, ids: seq<Id>)
    requires Fresh(c, s) && CanTend(c, s, p, Feed(ids))
    ensures ErrandFresh(c, s.clock, RowsOf(s), Feeding(Offers(RowsOf(s), ids)))
  {
    assert ErrandFresh(c, s.clock, RowsOf(s), s.errands[p]);
    var rows, offers := RowsOf(s), Offers(RowsOf(s), ids);
    forall i | 0 <= i < |offers| ensures Feedable(c, s.clock, rows, offers[i].id) {
      assert ids[i] in ids;
      OfferedInTime(rows, s.clock, c.batch, ids, ids[i]);
    }
  }

  lemma FreshSurvey(c: Settings, s: System, p: nat, ids: seq<Id>)
    requires Fresh(c, s) && CanTend(c, s, p, Survey(ids))
    ensures ErrandFresh(c, s.clock, RowsOf(s), Reaping(ids, s.errands[p].since))
  {
    assert ErrandFresh(c, s.clock, RowsOf(s), s.errands[p]);
    LedTop(ids, ExpiredRanks(RowsOf(s), s.clock), c.batch, ExpiredRanks(RowsOf(s), s.clock));
  }

  /** Rows due at the moment rank as rows due by the database clock do. */
  lemma DueAlike(rows: map<Id, Job>, moment: Time, clock: Time, ids: seq<Id>, limit: nat)
    requires TopOf(ids, DueRanks(rows, moment), limit)
    ensures Led(DueRanks(rows, clock), ids)
  {
    LedTop(ids, DueRanks(rows, moment), limit, DueRanks(rows, clock));
  }

  lemma FreshScan(c: Settings, s: System, p: nat, now: Time, ids: seq<Id>)
    requires Fresh(c, s) && CanTend(c, s, p, Scan(now, ids))
    ensures ErrandFresh(c, s.clock, RowsOf(s), Promoting(Dedupe(s.errands[p].fromRedis + ids), now))
  {
    var e := s.errands[p];
    assert ErrandFresh(c, s.clock, RowsOf(s), e);
    DedupeDistinct(ids);
    assert e.fromRedis + ids == ids;
    DueAlike(RowsOf(s), e.moment, s.clock, ids, c.batch);
  }

  lemma FreshTakeBack(c: Settings, s: System, p: nat, now: Time)
    requires Fresh(c, s) && CanTend(c, s, p, TakeBack(now)) && TendStep(c, s, p, TakeBack(now)) == []
    ensures Fresh(c, DoTakeBack(s, p, now))
  {
    var ids := s.errands[p].ids;
    assert ErrandFresh(c, s.clock, RowsOf(s), s.errands[p]);
    LedTail(ExpiredRanks(RowsOf(s), s.clock), ids);
    FreshOn(c, s, p, Reaping(ids[1..], now));
  }

  lemma FreshUpdate(c: Settings, s: System, p: nat, now: Time)
    requires Fresh(c, s) && CanTend(c, s, p, Update(now)) && TendStep(c, s, p, Update(now)) == []
    ensures Fresh(c, DoUpdate(s, p, now))
  {
    var ids := s.errands[p].ids;
    assert ErrandFresh(c, s.clock, RowsOf(s), s.errands[p]);
    LedTail(DueRanks(RowsOf(s), s.clock), ids);
    FreshOn(c, s, p, Dropping(ids, now));
  }

  lemma FreshTend(c: Settings, s: System, p: nat, b: BatchMove)
    requires Fresh(c, s) && CanTend(c, s, p, b) && TendStep(c, s, p, b) == []
    ensures Fresh(c, DoTend(c, s, p, b))
  {
    match b {
      case Wake => FreshOn(c, s, p, Awake(s.clock));
      case Feed(ids) =>
        FreshFeed(c, s, p, ids);
        FreshOn(c, s, p, Feeding(Offers(RowsOf(s), ids)));
      case Survey(ids) =>
        FreshSurvey(c, s, p, ids);
        FreshOn(c, s, p, Reaping(ids, s.errands[p].since));
      case TakeBack(now) => FreshTakeBack(c, s, p, now);
      case Look(moment, ids) =>
        assert Ranks(DueMembers(s.scheduled, moment)) == map[];
        FreshOn(c, s, p, Looked(moment, ids, s.clock));
      case Scan(now, ids) =>
        FreshScan(c, s, p, now, ids);
        FreshOn(c, s, p, Promoting(Dedupe(s.errands[p].fromRedis + ids), now));
      case Update(now) => FreshUpdate(c, s, p, now);
    }
  }

  lemma FreshAfter(c: Settings, clock: Time, rows: map<Id, Job>, e: Errand)
    requires ErrandFresh(c, clock, rows, e) && Commanding(e)
    ensures Onward(e).Some? ==> ErrandFresh(c, clock, rows, Onward(e).value)
    ensures forall z :: PendingFresh(c, clock, rows, z) ==> PendingFresh(c, clock, rows, PendingAfter(z, e))
    ensures ScheduledAfter(map[], e) == map[]
  {
  }

  lemma FreshGo(c: Settings, s: System, p: nat)
    requires Fresh(c, s) && p in s.errands && Commanding(s.errands[p])
    ensures Fresh(c, DoGo(s, p))
  {
    assert ErrandFresh(c, s.clock, RowsOf(s), s.errands[p]);
    FreshAfter(c, s.clock, RowsOf(s), s.errands[p]);
    assert RowsOf(DoGo(s, p)) == RowsOf(s);
  }

  lemma FreshMove(c: Settings, s: System, m: Move)
    requires Fresh(c, s) && CanMove(c, s, m) && DbStep(c, s, m) == [] && !(m.Env? && m.e.Corrupt?)
    ensures Fresh(c, MoveOn(c, s, m)) && Abs(MoveOn(c, s, m)) == Abs(s)
  {
    Simulates(c, s, m);
    match m {
      case Env(e) => FreshEnv(c, s, e);
      case By(w, a) => FreshBy(c, s, w, a);
      case For(p, r) => FreshFor(c, s, p, r);
      case Tend(p, b) => FreshTend(c, s, p, b);
      case Go(p) => FreshGo(c, s, p);
    }
  }

  /**
   * What the processes can bring about at an instant, from rest and from empty sets: statements carry that instant as
   * their time, a claim is of a row the feeder reaches within a batch, the scheduler and the reaper take rows in
   * order, and a heartbeat renews what its worker holds.
   */
  predicate InReach(c: Settings, s: State, a: Action) {
    match a
    case Work(_, Claim(id, _, readAt, now)) => readAt == now == s.clock && Feedable(c, s.clock, Rows(s), id)
    case Work(w, Renew(id, _, readAt)) => readAt == s.clock && Holds(s, w) && HoldOf(s, w).id == id
    case Upkeep(Promote(id, now)) => now == s.clock && EarliestDue(c, s.clock, Rows(s), id)
    case Upkeep(Reap(id, now)) => now == s.clock && OldestExpired(c, s.clock, Rows(s), id)
    case Api(Insert(_, _, _, _, created)) => created == s.clock
    case _ => true
  }

  lemma FreshByStep(c: Settings, s: System, w: WorkerId, m: WorkerMove)
    requires Fresh(c, s) && CanBy(s, w, m) && ByStep(s, w, m) != []
    ensures InReach(c, Abs(s), ByStep(s, w, m)[0])
  {
    assert ProcFresh(c, s.clock, RowsOf(s), s.procs[w]);
    assert Rows(Abs(s)) == RowsOf(s);
  }

  lemma FreshForStep(c: Settings, s: System, p: nat, r: RequestMove)
    requires Fresh(c, s) && CanFor(c, s, p, r) && ForStep(c, s, p, r) != []
    ensures InReach(c, Abs(s), ForStep(c, s, p, r)[0])
  {
    if r.Create? { assert ErrandFresh(c, s.clock, RowsOf(s), s.errands[p]); }
  }

  lemma FreshStep(c: Settings, s: System, m: Move, a: Action)
    requires Fresh(c, s) && CanMove(c, s, m) && DbStep(c, s, m) == [a]
    ensures InReach(c, Abs(s), a)
  {
    match m {
      case By(w, x) => FreshByStep(c, s, w, x);
      case For(p, r) => FreshForStep(c, s, p, r);
      case Tend(p, b) => FreshTendStep(c, s, p, b);
      case _ =>
    }
  }

  lemma FreshTendStep(c: Settings, s: System, p: nat, b: BatchMove)
    requires Fresh(c, s) && CanTend(c, s, p, b) && TendStep(c, s, p, b) != []
    ensures InReach(c, Abs(s), TendStep(c, s, p, b)[0])
  {
    assert Rows(Abs(s)) == RowsOf(s);
    assert ErrandFresh(c, s.clock, RowsOf(s), s.errands[p]);
    if b.TakeBack? {
      LedHead(ExpiredRanks(RowsOf(s), s.clock), s.errands[p].ids);
      OldestRanks(c, s.clock, RowsOf(s), s.errands[p].ids[0]);
    } else {
      LedHead(DueRanks(RowsOf(s), s.clock), s.errands[p].ids);
      EarliestRanks(c, s.clock, RowsOf(s), s.errands[p].ids[0]);
    }
  }

  lemma OnlyOne(step: seq<Action>, rest: seq<Action>, a: Action)
    requires step + rest == [a] && |step| <= 1
    ensures if step == [] then rest == [a] else step == [a]
  {
    if step == [] { assert step + rest == rest; } else { assert (step + rest)[0] == step[0]; }
  }

  lemma TookOne(c: Settings, s: State, step: seq<Action>, t: State)
    requires Took(c, s, step, t)
    ensures |step| <= 1 && (step != [] ==> Enabled(c, s, step[0]))
  {
  }

  lemma {:induction false} OnlyInReach(c: Settings, s: System, moves: seq<Move>, t: System, a: Action)
    requires Fresh(c, s) && Way(c, s, moves, [a], t)
    ensures InReach(c, Abs(s), a) && Enabled(c, Abs(s), a)
    decreases |moves|
  {
    var m := moves[0];
    var rest := WayTail(c, s, moves, [a], t);
    StepTaken(c, s, m);
    OnlyOne(DbStep(c, s, m), rest, a);
    if DbStep(c, s, m) == [] {
      FreshMove(c, s, m);
      OnlyInReach(c, MoveOn(c, s, m), moves[1..], t, a);
    } else {
      FreshStep(c, s, m, a);
    }
  }

  lemma StepTaken(c: Settings, s: System, m: Move)
    requires CanMove(c, s, m)
    ensures |DbStep(c, s, m)| <= 1 && (DbStep(c, s, m) != [] ==> Enabled(c, Abs(s), DbStep(c, s, m)[0]))
  {
    Simulates(c, s, m);
    TookOne(c, Abs(s), DbStep(c, s, m), Abs(MoveOn(c, s, m)));
  }

  ghost predicate EmptySets(s: System) {
    s.pending == map[] && s.scheduled == map[]
  }

  lemma RestIsFresh(c: Settings, s: System)
    requires AtRest(s) && EmptySets(s)
    ensures Fresh(c, s)
  {
    forall w | w in s.procs && Live(s, w) ensures ProcFresh(c, s.clock, RowsOf(s), s.procs[w]) {
      assert WorkerAtRest(s.procs[w]);
    }
  }

  // ---- bringing them about ----

  lemma {:induction false} WayRuns(c: Settings, s: System, moves: seq<Move>, a: Action, t: System)
    requires Way(c, s, moves, [a], t)
    ensures Enabled(c, Abs(s), a) && Abs(t) == Apply(c, Abs(s), a)
  {
    ProjectsToDatabase(c, s, moves, t);
    assert [a][1..] == [];
  }

  /** Alike in all that the database and the other errands see. */
  predicate Alike(s: System, t: System, p: nat) {
    && t.clock == s.clock && t.table == s.table && t.procs == s.procs
    && t.errands - {p} == s.errands - {p} && p in t.errands
  }

  lemma AlikeOn(s: System, p: nat, e: Errand, f: Errand)
    ensures On(On(s, p, f), p, e) == On(s, p, e) && Alike(s, On(s, p, e), p) && RowsOf(On(s, p, e)) == RowsOf(s)
  {
    assert On(s, p, e).errands - {p} == s.errands - {p};
  }

  lemma FeedNext(s: System, p: nat)
    requires p in s.errands && s.errands[p].Feeding? && s.errands[p].todo != [] && s.pending == map[]
    ensures var t := DoGo(s, p);
            && Alike(s, t, p) && t.pending.Keys == {s.errands[p].todo[0].id}
            && t.errands[p] == Feeding(s.errands[p].todo[1..])
  {
  }

  lemma FirstOffer(todo: seq<Offer>, id: Id)
    requires exists i :: 0 <= i < |todo| && todo[i].id == id
    ensures todo != [] && (todo[0].id == id || exists i :: 0 <= i < |todo[1..]| && todo[1..][i].id == id)
  {
    var i :| 0 <= i < |todo| && todo[i].id == id;
    if i > 0 { assert todo[1..][i - 1].id == id; }
  }

  /** The feeder adds what it holds until the wanted job, Redis being lost before each further one. */
  lemma {:induction false} FeedUntil(c: Settings, s0: System, before: seq<Move>, acts: seq<Action>, s: System, p: nat,
                                     id: Id)
    returns (moves: seq<Move>, t: System)
    requires Way(c, s0, before, acts, s) && p in s.errands && s.errands[p].Feeding? && s.pending == map[]
    requires exists i :: 0 <= i < |s.errands[p].todo| && s.errands[p].todo[i].id == id
    ensures Way(c, s0, moves, acts, t) && Alike(s, t, p) && t.pending.Keys == {id} && !t.errands[p].Asking?
    decreases |s.errands[p].todo|
  {
    FirstOffer(s.errands[p].todo, id);
    FeedNext(s, p);
    ThenGo(c, s0, before, acts, s, p);
    var s1 := DoGo(s, p);
    if s.errands[p].todo[0].id == id {
      moves, t := before + [Go(p)], s1;
    } else {
      ThenWipe(c, s0, before + [Go(p)], acts, s1);
      moves, t := FeedUntil(c, s0, before + [Go(p)] + [Env(Wipe)], acts, Wiped(s1), p, id);
    }
  }

  lemma HasOffer(rows: map<Id, Job>, ids: seq<Id>, id: Id)
    requires (forall x :: x in ids ==> x in rows) && id in ids
    ensures exists i :: 0 <= i < |Offers(rows, ids)| && Offers(rows, ids)[i].id == id
  {
    var i :| 0 <= i < |ids| && ids[i] == id;
    assert Offers(rows, ids)[i].id == id;
  }

  lemma FeedAnswer(c: Settings, rows: map<Id, Job>, clock: Time, id: Id) returns (ids: seq<Id>)
    requires Feedable(c, clock, rows, id)
    ensures TopOf(ids, ReadyRanks(rows, clock), c.batch) && (forall x :: x in ids ==> x in rows)
    ensures exists i :: 0 <= i < |Offers(rows, ids)| && Offers(rows, ids)[i].id == id
  {
    FeedableRanks(rows, clock, id);
    ids := TopWith(ReadyRanks(rows, clock), c.batch, id);
    assert forall x :: x in ids ==> x in ReadyRanks(rows, clock) && x in rows;
    HasOffer(rows, ids, id);
  }

  /** The job alone in the dispatch set, by the feeder's own doing. */
  lemma Offered(c: Settings, s0: System, before: seq<Move>, acts: seq<Action>, s: System, id: Id, p: nat)
    returns (moves: seq<Move>, t: System)
    requires Way(c, s0, before, acts, s) && p !in s.errands && s.pending == map[]
    requires Feedable(c, s.clock, RowsOf(s), id)
    ensures Way(c, s0, moves, acts, t) && Alike(s, t, p) && t.pending.Keys == {id} && !t.errands[p].Asking?
  {
    var feeding, offers := AboutToFeed(c, s0, before, acts, s, id, p);
    AlikeOn(s, p, Feeding(offers), Awake(s.clock));
    moves, t := FeedUntil(c, s0, feeding, acts, On(s, p, Feeding(offers)), p, id);
  }

  lemma FeedIs(c: Settings, s: System, p: nat, ids: seq<Id>)
    requires p in s.errands && s.errands[p] == Awake(s.clock)
    requires TopOf(ids, ReadyRanks(RowsOf(s), s.clock), c.batch) && forall x :: x in ids ==> x in RowsOf(s)
    ensures CanTend(c, s, p, Feed(ids)) && TendStep(c, s, p, Feed(ids)) == []
    ensures DoTend(c, s, p, Feed(ids)) == On(s, p, Feeding(Offers(RowsOf(s), ids)))
  {
  }

  /** The feeder has asked for the ready rows, and the job is among them. */
  lemma AboutToFeed(c: Settings, s0: System, before: seq<Move>, acts: seq<Action>, s: System, id: Id, p: nat)
    returns (moves: seq<Move>, offers: seq<Offer>)
    requires Way(c, s0, before, acts, s) && p !in s.errands && Feedable(c, s.clock, RowsOf(s), id)
    ensures Way(c, s0, moves, acts, On(s, p, Feeding(offers))) && exists i :: 0 <= i < |offers| && offers[i].id == id
  {
    var ids := FeedAnswer(c, RowsOf(s), s.clock, id);
    offers := Offers(RowsOf(s), ids);
    AlikeOn(s, p, Feeding(offers), Awake(s.clock));
    AlikeOn(s, p, Awake(s.clock), Feeding(offers));
    ThenRead(c, s0, before, acts, s, p, Wake, Awake(s.clock));
    FeedIs(c, On(s, p, Awake(s.clock)), p, ids);
    ThenRead(c, s0, before + [Tend(p, Wake)], acts, On(s, p, Awake(s.clock)), p, Feed(ids), Feeding(offers));
    moves := before + [Tend(p, Wake)] + [Tend(p, Feed(ids))];
  }

  lemma PopIs(s: System, w: WorkerId, id: Id)
    requires Live(s, w) && s.procs[w].phase.Idle? && s.pending.Keys == {id}
    ensures CanBy(s, w, Pop) && DoPop(s, w) == s.(pending := map[], procs := InPhase(s, w, Popped(id, s.clock)))
  {
    assert id in s.pending && Head(s.pending) in Ranks(s.pending) && Head(s.pending) == id;
    assert s.pending - {id} == map[];
  }

  /** A worker pops the one entry there is and claims it. */
  lemma PopAndClaim(c: Settings, s0: System, before: seq<Move>, s: System, w: WorkerId, id: Id, wall: Time)
    returns (moves: seq<Move>, t: System)
    requires Way(c, s0, before, [], s) && Live(s, w) && s.procs[w].phase.Idle? && s.pending.Keys == {id}
    requires id in s.table && Ready(s.table[id].job, s.clock)
    ensures Way(c, s0, moves, [Work(w, Claim(id, wall, s.clock, s.clock))], t)
    ensures t.errands == s.errands && w in t.procs && t.procs == s.procs[w := t.procs[w]]
    ensures t.procs[w].phase.Held? && t.procs[w].phase.hold.id == id && t.procs[w].holder == Some(id)
    ensures t.procs[w].beat == s.procs[w].beat
  {
    PopIs(s, w, id);
    var s1 := s.(pending := map[], procs := InPhase(s, w, Popped(id, s.clock)));
    ThenBy(c, s0, before, [], s, w, Pop);
    assert [] + ByStep(s, w, Pop) == [];
    var claim := TryClaim(wall, s.clock, s.clock);
    ThenBy(c, s0, before + [By(w, Pop)], [], s1, w, claim);
    assert [] + ByStep(s1, w, claim) == [Work(w, Claim(id, wall, s.clock, s.clock))];
    moves, t := before + [By(w, Pop)] + [By(w, claim)], DoTryClaim(c, s1, w, wall, s.clock, s.clock);
  }

  lemma RestAgain(s: System, t: System, w: WorkerId)
    requires AtRest(s) && w in t.procs && t.procs == s.procs[w := t.procs[w]] && t.errands == s.errands
    requires Live(t, w) ==> WorkerAtRest(t.procs[w])
    ensures AtRest(t)
  {
  }

  lemma RealizeClaim(c: Settings, s: System, w: WorkerId, id: Id, wall: Time) returns (moves: seq<Move>, t: System)
    requires AtRest(s) && s.pending == map[] && Live(s, w) && s.procs[w].phase.Idle?
    requires Feedable(c, s.clock, RowsOf(s), id)
    ensures Way(c, s, moves, [Work(w, Claim(id, wall, s.clock, s.clock))], t) && AtRest(t)
  {
    var p := Unused(s.errands.Keys);
    NoMove(c, s);
    var s1, s2;
    moves, s1 := Offered(c, s, [], [], s, id, p);
    moves, s2 := PopAndClaim(c, s, moves, s1, w, id, wall);
    ThenAbandon(c, s, moves, [Work(w, Claim(id, wall, s.clock, s.clock))], s2, p);
    moves, t := moves + [Env(Abandon(p))], Rid(s2, p);
    assert t.errands == s1.errands - {p} == s.errands;
    RestAgain(s, t, w);
  }

  lemma ScanAnswer(c: Settings, rows: map<Id, Job>, clock: Time, id: Id) returns (ids: seq<Id>)
    requires EarliestDue(c, clock, rows, id)
    ensures TopOf(ids, DueRanks(rows, clock), c.batch) && ids != [] && ids[0] == id && Dedupe([] + ids) == ids
  {
    EarliestRanks(c, clock, rows, id);
    ids := TopWith(DueRanks(rows, clock), c.batch, id);
    DedupeDistinct(ids);
    assert [] + ids == ids;
  }

  lemma LookIs(c: Settings, s: System, p: nat)
    requires p !in s.errands && s.scheduled == map[]
    ensures CanTend(c, s, p, Look(s.clock, []))
    ensures DoTend(c, s, p, Look(s.clock, [])) == On(s, p, Looked(s.clock, [], s.clock))
  {
    assert Ranks(DueMembers(s.scheduled, s.clock)) == map[];
  }

  lemma ScanIs(c: Settings, s: System, p: nat, ids: seq<Id>)
    requires p in s.errands && s.errands[p] == Looked(s.clock, [], s.clock)
    requires TopOf(ids, DueRanks(RowsOf(s), s.clock), c.batch) && Dedupe([] + ids) == ids
    ensures CanTend(c, s, p, Scan(s.clock, ids))
    ensures DoTend(c, s, p, Scan(s.clock, ids)) == On(s, p, Promoting(ids, s.clock))
  {
  }

  /** The scheduler about to promote this job, from its scan of the table. */
  lemma Considered(c: Settings, s: System, p: nat, id: Id) returns (moves: seq<Move>, ids: seq<Id>)
    requires p !in s.errands && s.scheduled == map[] && EarliestDue(c, s.clock, RowsOf(s), id)
    ensures Way(c, s, moves, [], On(s, p, Promoting(ids, s.clock))) && ids != [] && ids[0] == id
  {
    ids := ScanAnswer(c, RowsOf(s), s.clock, id);
    var look, scan := Look(s.clock, []), Scan(s.clock, ids);
    var looked, ready := Looked(s.clock, [], s.clock), Promoting(ids, s.clock);
    AlikeOn(s, p, ready, looked);
    AlikeOn(s, p, looked, ready);
    NoMove(c, s);
    LookIs(c, s, p);
    ThenRead(c, s, [], [], s, p, look, looked);
    ScanIs(c, On(s, p, looked), p, ids);
    ThenRead(c, s, [] + [Tend(p, look)], [], On(s, p, looked), p, scan, ready);
    moves := [] + [Tend(p, look)] + [Tend(p, scan)];
  }

  lemma RealizePromote(c: Settings, s: System, id: Id) returns (moves: seq<Move>, t: System)
    requires AtRest(s) && s.scheduled == map[] && EarliestDue(c, s.clock, RowsOf(s), id)
    ensures Way(c, s, moves, [Upkeep(Promote(id, s.clock))], t) && AtRest(t)
  {
    var p := Unused(s.errands.Keys);
    var ids;
    moves, ids := Considered(c, s, p, id);
    assert id in DueRanks(RowsOf(s), s.clock);
    moves, t := UpdateAndLeave(c, s, moves, On(s, p, Promoting(ids, s.clock)), p, id);
    RestErrands(s, t, p);
  }

  lemma RestErrands(s: System, t: System, p: nat)
    requires AtRest(s) && p !in s.errands && t.procs == s.procs && t.errands - {p} == s.errands - {p} && p !in t.errands
    ensures AtRest(t)
  {
    assert t.errands == t.errands - {p} && s.errands == s.errands - {p};
  }

  lemma UpdateAndLeave(c: Settings, s0: System, before: seq<Move>, s: System, p: nat, id: Id)
    returns (moves: seq<Move>, t: System)
    requires Way(c, s0, before, [], s) && p in s.errands && s.errands[p].Promoting? && s.errands[p].since == s.clock
    requires s.errands[p].ids != [] && s.errands[p].ids[0] == id && id in s.table && Due(s.table[id].job, s.clock)
    ensures Way(c, s0, moves, [Upkeep(Promote(id, s.clock))], t)
    ensures t.procs == s.procs && t.errands == s.errands - {p}
  {
    ThenTend(c, s0, before, [], s, p, Update(s.clock));
    assert [] + TendStep(c, s, p, Update(s.clock)) == [Upkeep(Promote(id, s.clock))];
    var s1 := DoUpdate(s, p, s.clock);
    ThenAbandon(c, s0, before + [Tend(p, Update(s.clock))], [Upkeep(Promote(id, s.clock))], s1, p);
    moves, t := before + [Tend(p, Update(s.clock))] + [Env(Abandon(p))], Rid(s1, p);
  }

  lemma TakeBackAndLeave(c: Settings, s0: System, before: seq<Move>, s: System, p: nat, id: Id)
    returns (moves: seq<Move>, t: System)
    requires Way(c, s0, before, [], s) && p in s.errands && s.errands[p].Reaping? && s.errands[p].since == s.clock
    requires s.errands[p].ids != [] && s.errands[p].ids[0] == id && id in s.table && Expired(s.table[id].job, s.clock)
    ensures Way(c, s0, moves, [Upkeep(Reap(id, s.clock))], t)
    ensures t.procs == s.procs && t.errands == s.errands - {p}
  {
    ThenTend(c, s0, before, [], s, p, TakeBack(s.clock));
    assert [] + TendStep(c, s, p, TakeBack(s.clock)) == [Upkeep(Reap(id, s.clock))];
    var s1 := DoTakeBack(s, p, s.clock);
    ThenAbandon(c, s0, before + [Tend(p, TakeBack(s.clock))], [Upkeep(Reap(id, s.clock))], s1, p);
    moves, t := before + [Tend(p, TakeBack(s.clock))] + [Env(Abandon(p))], Rid(s1, p);
  }

  /** The reaper about to take this lease back. */
  lemma Surveyed(c: Settings, s: System, p: nat, id: Id) returns (moves: seq<Move>, ids: seq<Id>)
    requires p !in s.errands && OldestExpired(c, s.clock, RowsOf(s), id)
    ensures Way(c, s, moves, [], On(s, p, Reaping(ids, s.clock))) && ids != [] && ids[0] == id
  {
    OldestRanks(c, s.clock, RowsOf(s), id);
    ids := TopWith(ExpiredRanks(RowsOf(s), s.clock), c.batch, id);
    var awake, reaping := Awake(s.clock), Reaping(ids, s.clock);
    AlikeOn(s, p, reaping, awake);
    AlikeOn(s, p, awake, reaping);
    NoMove(c, s);
    ThenRead(c, s, [], [], s, p, Wake, awake);
    ThenRead(c, s, [] + [Tend(p, Wake)], [], On(s, p, awake), p, Survey(ids), reaping);
    moves := [] + [Tend(p, Wake)] + [Tend(p, Survey(ids))];
  }

  lemma RealizeReap(c: Settings, s: System, id: Id) returns (moves: seq<Move>, t: System)
    requires AtRest(s) && OldestExpired(c, s.clock, RowsOf(s), id)
    ensures Way(c, s, moves, [Upkeep(Reap(id, s.clock))], t) && AtRest(t)
  {
    var p := Unused(s.errands.Keys);
    var ids;
    moves, ids := Surveyed(c, s, p, id);
    assert id in ExpiredRanks(RowsOf(s), s.clock);
    moves, t := TakeBackAndLeave(c, s, moves, On(s, p, Reaping(ids, s.clock)), p, id);
    RestErrands(s, t, p);
  }

  // ---- every other step ----

  /** The move that takes a step which no Redis command has to prepare. */
  function MoveFor(a: Action): Move
    requires Direct(a)
  {
    match a
    case World(Tick(to)) => Env(Pass(to))
    case World(Spawn(w)) => Env(Launch(w))
    case World(Crash(w)) => Env(Kill(w))
    case Work(w, Start) => By(w, Begin)
    case Work(w, Progress(pct)) => By(w, Report(pct))
    case Work(w, Complete(result, wall)) => By(w, Succeed(result, wall))
    case Work(w, Fail(message, permanent, wall, readAt)) => By(w, Break(message, permanent, wall, readAt))
    case Upkeep(Cleanup(wall)) => Clean(wall)
    case Api(ReadCancel(r, id)) => For(r, Ask(id, false))
    case Api(CommitCancel(r)) => For(r, Write(0))
    case Api(ReadRetry(r, id)) => For(r, Ask(id, true))
    case Api(CommitRetry(r, wall)) => For(r, Write(wall))
    case Api(Drop(r)) => Env(Abandon(r))
  }

  predicate Direct(a: Action) {
    match a
    case World(_) => true
    case Work(_, work) => !work.Claim? && !work.Renew?
    case Upkeep(chore) => chore.Cleanup?
    case Api(call) => !call.Insert?
  }

  lemma MoveForWorld(c: Settings, s: System, e: WorldAction)
    requires AtRest(s) && Enabled(c, Abs(s), World(e))
    ensures CanMove(c, s, MoveFor(World(e))) && DbStep(c, s, MoveFor(World(e))) == [World(e)]
    ensures AtRest(MoveOn(c, s, MoveFor(World(e))))
  {
  }

  lemma MoveForWork(c: Settings, s: System, w: WorkerId, a: WorkAction)
    requires AtRest(s) && Direct(Work(w, a)) && Enabled(c, Abs(s), Work(w, a))
    ensures CanMove(c, s, MoveFor(Work(w, a))) && DbStep(c, s, MoveFor(Work(w, a))) == [Work(w, a)]
  {
  }

  lemma MoveForCall(c: Settings, s: System, a: Call)
    requires AtRest(s) && Direct(Api(a)) && Enabled(c, Abs(s), Api(a))
    ensures CanMove(c, s, MoveFor(Api(a))) && DbStep(c, s, MoveFor(Api(a))) == [Api(a)]
  {
  }

  /** After its step a worker is at rest, or owes a push. */
  lemma WorkerAfter(c: Settings, s: System, w: WorkerId, a: WorkAction)
    requires AtRest(s) && Direct(Work(w, a)) && CanMove(c, s, MoveFor(Work(w, a)))
    ensures var t := MoveOn(c, s, MoveFor(Work(w, a)));
            && t.errands == s.errands && w in t.procs && t.procs == s.procs[w := t.procs[w]] && Live(t, w)
            && (WorkerAtRest(t.procs[w])
                || (t.procs[w].phase.Owing? && t.procs[w].beat.None? && t.procs[w].holder == Some(t.procs[w].phase.id)))
  {
    assert WorkerAtRest(s.procs[w]);
    ByApart(c, s, w, MoveFor(Work(w, a)).m);
    if !a.Start? { FlushAfter(c, s, w, MoveFor(Work(w, a)).m); }
  }

  lemma FlushAfter(c: Settings, s: System, w: WorkerId, m: WorkerMove)
    requires CanBy(s, w, m) && (m.Report? || m.Succeed? || m.Break?) && WorkerAtRest(s.procs[w])
    ensures var t := DoBy(c, s, w, m);
            && w in t.procs && t.procs == s.procs[w := t.procs[w]] && Live(t, w)
            && (WorkerAtRest(t.procs[w])
                || (t.procs[w].phase.Owing? && t.procs[w].beat.None? && t.procs[w].holder == Some(t.procs[w].phase.id)))
  {
  }

  lemma RealizeWork(c: Settings, s: System, w: WorkerId, a: WorkAction) returns (moves: seq<Move>, t: System)
    requires AtRest(s) && Direct(Work(w, a)) && Enabled(c, Abs(s), Work(w, a))
    ensures Way(c, s, moves, [Work(w, a)], t) && AtRest(t)
  {
    var first, mid := Worked(c, s, w, a);
    moves, t := PayPush(c, s, first, [Work(w, a)], mid, w);
    RestAgain(s, t, w);
  }

  lemma Worked(c: Settings, s: System, w: WorkerId, a: WorkAction) returns (moves: seq<Move>, t: System)
    requires AtRest(s) && Direct(Work(w, a)) && Enabled(c, Abs(s), Work(w, a))
    ensures Way(c, s, moves, [Work(w, a)], t)
    ensures t.errands == s.errands && w in t.procs && t.procs == s.procs[w := t.procs[w]] && Live(t, w)
    ensures WorkerAtRest(t.procs[w])
         || (t.procs[w].phase.Owing? && t.procs[w].beat.None? && t.procs[w].holder == Some(t.procs[w].phase.id))
  {
    MoveForWork(c, s, w, a);
    WorkerAfter(c, s, w, a);
    OneMove(c, s, MoveFor(Work(w, a)), Work(w, a));
    moves, t := [MoveFor(Work(w, a))], MoveOn(c, s, MoveFor(Work(w, a)));
  }

  lemma OneMove(c: Settings, s: System, m: Move, a: Action)
    requires CanMove(c, s, m) && DbStep(c, s, m) == [a] && !(m.Env? && m.e.Corrupt?)
    ensures Way(c, s, [m], [a], MoveOn(c, s, m))
  {
    OneWay(c, s, m);
  }

  lemma PayPush(c: Settings, s0: System, before: seq<Move>, acts: seq<Action>, s: System, w: WorkerId)
    returns (moves: seq<Move>, t: System)
    requires Way(c, s0, before, acts, s) && Live(s, w)
    requires WorkerAtRest(s.procs[w])
          || (s.procs[w].phase.Owing? && s.procs[w].beat.None? && s.procs[w].holder == Some(s.procs[w].phase.id))
    ensures Way(c, s0, moves, acts, t) && t.errands == s.errands && w in t.procs && t.procs == s.procs[w := t.procs[w]]
    ensures WorkerAtRest(t.procs[w])
  {
    moves, t := before, s;
    if s.procs[w].phase.Owing? {
      ThenBy(c, s0, before, acts, s, w, PushFailed);
      assert acts + [] == acts;
      moves, t := before + [By(w, PushFailed)], DoPush(s, w);
    }
  }

  lemma RealizeRenew(c: Settings, s: System, w: WorkerId, id: Id, wall: Time) returns (moves: seq<Move>, t: System)
    requires AtRest(s) && Live(s, w) && s.procs[w].phase.Held? && s.procs[w].phase.hold.id == id
    requires id in s.table && OwnedBy(s.table[id].job, w)
    ensures Way(c, s, moves, [Work(w, Renew(id, wall, s.clock))], t) && AtRest(t)
  {
    assert WorkerAtRest(s.procs[w]);
    NoMove(c, s);
    ThenBy(c, s, [], [], s, w, Glance(wall));
    assert [] + ByStep(s, w, Glance(wall)) == [];
    var s1 := DoGlance(s, w, wall);
    ThenBy(c, s, [] + [By(w, Glance(wall))], [], s1, w, Beat);
    assert [] + ByStep(s1, w, Beat) == [Work(w, Renew(id, wall, s.clock))];
    moves, t := [] + [By(w, Glance(wall))] + [By(w, Beat)], DoBeat(c, s1, w);
    RestAgain(s, t, w);
  }

  /** Commands that a request still owes are lost with it. */
  lemma Forsake(c: Settings, s0: System, before: seq<Move>, acts: seq<Action>, s: System, p: nat)
    returns (moves: seq<Move>, t: System)
    requires Way(c, s0, before, acts, s)
    requires forall q :: q in s.errands && q != p ==> s.errands[q].Asking?
    requires forall w :: w in s.procs && Live(s, w) ==> WorkerAtRest(s.procs[w])
    ensures Way(c, s0, moves, acts, t) && AtRest(t)
  {
    moves, t := before, s;
    if p in s.errands && !s.errands[p].Asking? {
      ThenAbandon(c, s0, before, acts, s, p);
      moves, t := before + [Env(Abandon(p))], Rid(s, p);
    }
  }

  lemma CallAfter(c: Settings, s: System, a: Call)
    requires AtRest(s) && Direct(Api(a)) && CanMove(c, s, MoveFor(Api(a)))
    ensures var t := MoveOn(c, s, MoveFor(Api(a)));
            t.procs == s.procs && forall q :: q in t.errands && q != a.r ==> t.errands[q].Asking?
  {
    if !a.Drop? { ForAfter(c, s, a.r, MoveFor(Api(a)).r); }
  }

  lemma ForAfter(c: Settings, s: System, p: nat, r: RequestMove)
    requires CanFor(c, s, p, r) && (r.Ask? || r.Write?)
    ensures var t := DoFor(c, s, p, r);
            && t.procs == s.procs
            && forall q :: q in t.errands && q != p ==> q in s.errands && t.errands[q] == s.errands[q]
  {
  }

  lemma RealizeCall(c: Settings, s: System, a: Call) returns (moves: seq<Move>, t: System)
    requires AtRest(s) && Direct(Api(a)) && Enabled(c, Abs(s), Api(a))
    ensures Way(c, s, moves, [Api(a)], t) && AtRest(t)
  {
    MoveForCall(c, s, a);
    CallAfter(c, s, a);
    OneMove(c, s, MoveFor(Api(a)), Api(a));
    moves, t := Forsake(c, s, [MoveFor(Api(a))], [Api(a)], MoveOn(c, s, MoveFor(Api(a))), a.r);
  }

  lemma ThenFor(c: Settings, s: System, moves: seq<Move>, acts: seq<Action>, mid: System, p: nat, r: RequestMove)
    requires Way(c, s, moves, acts, mid) && CanFor(c, mid, p, r)
    ensures Way(c, s, moves + [For(p, r)], acts + ForStep(c, mid, p, r), DoFor(c, mid, p, r))
  {
    Then(c, s, moves, acts, mid, For(p, r));
  }

  lemma RealizeInsert(c: Settings, s: System, a: Call) returns (moves: seq<Move>, t: System)
    requires AtRest(s) && a.Insert? && Enabled(c, Abs(s), Api(a)) && a.created == s.clock
    ensures Way(c, s, moves, [Api(a)], t) && AtRest(t)
  {
    var p := Unused(s.errands.Keys);
    var create := Create(a.id, a.priority, a.scheduledAt, a.created);
    var s1 := On(s, p, Inserting(a.key, s.clock));
    assert !KeyTaken(s.table, a.key);
    NoMove(c, s);
    ThenFor(c, s, [], [], s, p, Submit(a.key));
    assert [] + ForStep(c, s, p, Submit(a.key)) == [];
    ThenFor(c, s, [] + [For(p, Submit(a.key))], [], s1, p, create);
    assert [] + ForStep(c, s1, p, create) == [Api(a)];
    moves := [] + [For(p, Submit(a.key))] + [For(p, create)];
    moves, t := Forsake(c, s, moves, [Api(a)], DoFor(c, s1, p, create), p);
  }

  lemma RealizeDirect(c: Settings, s: System, a: Action) returns (moves: seq<Move>, t: System)
    requires AtRest(s) && Direct(a) && Enabled(c, Abs(s), a)
    ensures Way(c, s, moves, [a], t) && AtRest(t)
  {
    match a {
      case Work(w, work) => moves, t := RealizeWork(c, s, w, work);
      case Api(call) => moves, t := RealizeCall(c, s, call);
      case World(e) =>
        MoveForWorld(c, s, e);
        OneMove(c, s, MoveFor(a), a);
        moves, t := [MoveFor(a)], MoveOn(c, s, MoveFor(a));
      case Upkeep(Cleanup(wall)) =>
        OneMove(c, s, Clean(wall), a);
        moves, t := [Clean(wall)], MoveOn(c, s, Clean(wall));
    }
  }

  lemma RealizeStep(c: Settings, s: System, a: Action) returns (moves: seq<Move>, t: System)
    requires AtRest(s) && EmptySets(s) && Enabled(c, Abs(s), a) && InReach(c, Abs(s), a)
    ensures Way(c, s, moves, [a], t) && AtRest(t)
  {
    assert Rows(Abs(s)) == RowsOf(s);
    if Direct(a) {
      moves, t := RealizeDirect(c, s, a);
    } else {
      match a {
        case Work(w, Claim(id, wall, _, _)) => moves, t := RealizeClaim(c, s, w, id, wall);
        case Work(w, Renew(id, wall, _)) => moves, t := RealizeRenew(c, s, w, id, wall);
        case Upkeep(Promote(id, _)) => moves, t := RealizePromote(c, s, id);
        case Upkeep(Reap(id, _)) => moves, t := RealizeReap(c, s, id);
        case Api(call) => moves, t := RealizeInsert(c, s, call);
      }
    }
  }

  /**
   * From rest and from empty sets, some honest run has exactly this step of the database as its own if and only if
   * the step is possible and within reach; for a claim, that fewer than a batch of ready rows rank before the row.
   */
  lemma RealizableExactly(c: Settings, s: System, a: Action)
    requires AtRest(s) && EmptySets(s)
    ensures Realizable(c, s, a) <==> Enabled(c, Abs(s), a) && InReach(c, Abs(s), a)
  {
    if Realizable(c, s, a) {
      var moves, t :| Way(c, s, moves, [a], t);
      RestIsFresh(c, s);
      OnlyInReach(c, s, moves, t, a);
    } else if Enabled(c, Abs(s), a) && InReach(c, Abs(s), a) {
      var moves, t := RealizeStep(c, s, a);
    }
  }

  // ---- whole runs ----

  ghost predicate AllInReach(c: Settings, s: State, acts: seq<Action>)
    decreases |acts|
  {
    acts != [] && Enabled(c, s, acts[0]) ==> InReach(c, s, acts[0]) && AllInReach(c, Apply(c, s, acts[0]), acts[1..])
  }

  lemma WipedIsFree(c: Settings, s: System)
    requires AtRest(s)
    ensures AtRest(Wiped(s)) && EmptySets(Wiped(s)) && Abs(Wiped(s)) == Abs(s)
    ensures Way(c, s, [Env(Wipe)], [], Wiped(s))
  {
    NoMove(c, s);
    ThenWipe(c, s, [], [], s);
    assert [] + [Env(Wipe)] == [Env(Wipe)];
  }

  /** Every run of the database alone whose steps are within reach is exactly what some honest run does to it. */
  lemma {:induction false} RealizesDatabase(c: Settings, s: System, acts: seq<Action>, end: State)
    returns (moves: seq<Move>, t: System)
    requires AtRest(s) && RunsTo(c, Abs(s), acts, end) && AllInReach(c, Abs(s), acts)
    ensures Way(c, s, moves, acts, t) && AtRest(t) && Abs(t) == end
    decreases |acts|
  {
    if acts == [] {
      moves, t := [], s;
    } else {
      var first, mid := RealizeNext(c, s, acts[0]);
      var rest;
      rest, t := RealizesDatabase(c, mid, acts[1..], end);
      WayJoin(c, s, first, [acts[0]], mid, rest, acts[1..], t);
      moves := first + rest;
      assert [acts[0]] + acts[1..] == acts;
    }
  }

  /** One step, from any state at rest: Redis is lost first. */
  lemma RealizeNext(c: Settings, s: System, a: Action) returns (moves: seq<Move>, t: System)
    requires AtRest(s) && Enabled(c, Abs(s), a) && InReach(c, Abs(s), a)
    ensures Way(c, s, moves, [a], t) && AtRest(t) && Abs(t) == Apply(c, Abs(s), a)
  {
    WipedIsFree(c, s);
    var more;
    more, t := RealizeStep(c, Wiped(s), a);
    WayRuns(c, Wiped(s), more, a, t);
    WayJoin(c, s, [Env(Wipe)], [], Wiped(s), more, [a], t);
    moves := [Env(Wipe)] + more;
    assert [] + [a] == [a];
  }

  // ---- the limit hides rows ----

  function Upto(n: nat): (ids: set<Id>)
    ensures |ids| == n && forall i: nat :: i in ids <==> i < n
  {
    if n == 0 then {} else Upto(n - 1) + {n - 1}
  }

  function Urgent(n: nat, i: nat): Call {
    Insert(i, if i < n then 1 else 0, None, None, 0)
  }

  /** An idle worker and the first `k` of these jobs, all but the last more urgent than it. */
  predicate Crowd(c: Settings, n: nat, k: nat, s: State) {
    && s.clock == 0 && s.workers == map[0 := Worker(None, None)] && s.table.Keys == Upto(k)
    && forall i: nat :: i < k ==> s.table[i].job == NewJob(c, if i < n then 1 else 0, None, None, 0)
  }

  lemma {:induction false} RunSnoc(c: Settings, s: State, acts: seq<Action>, t: State, a: Action)
    requires RunsTo(c, s, acts, t) && AllInReach(c, s, acts) && Enabled(c, t, a) && InReach(c, t, a)
    ensures RunsTo(c, s, acts + [a], Apply(c, t, a)) && AllInReach(c, s, acts + [a])
    decreases |acts|
  {
    if acts == [] {
      assert acts + [a] == [a] && [a][1..] == [];
    } else {
      assert (acts + [a])[1..] == acts[1..] + [a];
      RunSnoc(c, Apply(c, s, acts[0]), acts[1..], t, a);
    }
  }

  lemma CrowdNext(c: Settings, n: nat, k: nat, s: State)
    requires Crowd(c, n, k, s) && c.defaultMaxAttempts > 0
    ensures Enabled(c, s, Api(Urgent(n, k))) && InReach(c, s, Api(Urgent(n, k)))
    ensures Crowd(c, n, k + 1, Apply(c, s, Api(Urgent(n, k))))
  {
    assert k !in Upto(k);
    InsertCrowds(c, n, k, s, Apply(c, s, Api(Urgent(n, k))));
  }

  lemma InsertCrowds(c: Settings, n: nat, k: nat, s: State, t: State)
    requires Crowd(c, n, k, s) && k !in s.table && t.clock == s.clock && t.workers == s.workers
    requires k in t.table && t.table == s.table[k := t.table[k]]
    requires t.table[k].job == NewJob(c, if k < n then 1 else 0, None, None, 0)
    ensures Crowd(c, n, k + 1, t)
  {
    assert t.table.Keys == s.table.Keys + {k};
  }

  lemma {:induction false} Collect(c: Settings, n: nat, k: nat) returns (acts: seq<Action>, s: State)
    requires c.defaultMaxAttempts > 0
    ensures RunsTo(c, Initial(0), acts, s) && AllInReach(c, Initial(0), acts) && Crowd(c, n, k, s)
    decreases k
  {
    if k == 0 {
      acts, s := [] + [World(Spawn(0))], Apply(c, Initial(0), World(Spawn(0)));
      RunSnoc(c, Initial(0), [], Initial(0), World(Spawn(0)));
    } else {
      acts, s := Collect(c, n, k - 1);
      CrowdNext(c, n, k - 1, s);
      RunSnoc(c, Initial(0), acts, s, Api(Urgent(n, k - 1)));
      acts, s := acts + [Api(Urgent(n, k - 1))], Apply(c, s, Api(Urgent(n, k - 1)));
    }
  }

  lemma LastIsBehind(c: Settings, s: State)
    requires Crowd(c, c.batch, c.batch + 1, s)
    ensures Enabled(c, s, Work(0, Claim(c.batch, 0, 0, 0))) && !InReach(c, s, Work(0, Claim(c.batch, 0, 0, 0)))
  {
    var n := c.batch;
    assert n in Upto(n + 1) && n in Rows(s);
    forall i | i in Upto(n) ensures i in MoreUrgent(Rows(s), 0, n) {
      assert i in Upto(n + 1) && i in Rows(s);
    }
    Smaller(Upto(n), MoreUrgent(Rows(s), 0, n));
  }

  /**
   * Not every run of the database alone can be brought about: whatever the limit, with that many more urgent rows
   * ready the claim of a further row is possible in the database, but no honest run has it as its only step.
   */
  lemma LimitHidesRows(c: Settings) returns (moves: seq<Move>, s: System)
    requires c.defaultMaxAttempts > 0
    ensures Moves(c, Opening(0, map[], map[]), moves, s) && Honest(moves) && AtRest(s) && EmptySets(s)
    ensures Enabled(c, Abs(s), Work(0, Claim(c.batch, 0, 0, 0)))
    ensures !Realizable(c, s, Work(0, Claim(c.batch, 0, 0, 0)))
  {
    var acts, end := Collect(c, c.batch, c.batch + 1);
    OpeningAbs(0, map[], map[]);
    moves, s := RealizesDatabase(c, Opening(0, map[], map[]), acts, end);
    WipedIsFree(c, s);
    WayJoin(c, Opening(0, map[], map[]), moves, acts, s, [Env(Wipe)], [], Wiped(s));
    moves, s := moves + [Env(Wipe)], Wiped(s);
    LastIsBehind(c, Abs(s));
    RealizableExactly(c, s, Work(0, Claim(c.batch, 0, 0, 0)));
  }
}
