/**
 * What goes wrong with the dead-letter list, as disciplined runs of the whole system from an empty one: all at one
 * instant, with every clock in step, no crash and no loss of Redis, for any settings and bounds.
 */
module Mishaps {
  import opened Wrappers
  import opened Jobs
  import opened Keys
  import opened Ordering
  import opened Protocol
  import opened Redis
  import opened Feeder
  import opened DeadLetter
  import opened FullSystem
  import opened Inspection

  /** No time has passed, and every worker that holds a job read its clock then. */
  predicate AtZero(s: System) {
    s.clock == 0 && forall w :: w in s.procs && s.procs[w].phase.Held? ==> s.procs[w].phase.hold.readAt == 0
  }

  /** Some disciplined run leads here from an empty system, and no time has passed. */
  ghost predicate Attained(c: Settings, b: Bounds, s: System) {
    Fits(c, b) && AtZero(s) && exists moves :: DisciplinedMoves(c, b, Opening(0, map[], map[]), moves, s)
  }

  lemma {:induction false} DisciplinedSnoc(c: Settings, b: Bounds, s: System, moves: seq<Move>, mid: System, m: Move)
    requires DisciplinedMoves(c, b, s, moves, mid) && CanMove(c, mid, m)
    requires forall a :: a in DbStep(c, mid, m) ==> Step(c, b, Abs(mid), a)
    ensures DisciplinedMoves(c, b, s, moves + [m], MoveOn(c, mid, m))
    decreases |moves|
  {
    if moves == [] {
      assert moves + [m] == [m] && [m][1..] == [];
    } else {
      assert (moves + [m])[1..] == moves[1..] + [m];
      DisciplinedSnoc(c, b, MoveOn(c, s, moves[0]), moves[1..], mid, m);
    }
  }

  lemma ZeroIsOnTime(b: Bounds, t: System)
    requires AtZero(t) && b.finish >= 0
    ensures OnTime(b, Abs(t))
  {
  }

  lemma ReachQuiet(c: Settings, b: Bounds, s: System, m: Move)
    requires Attained(c, b, s) && CanMove(c, s, m) && DbStep(c, s, m) == [] && AtZero(MoveOn(c, s, m))
    ensures Attained(c, b, MoveOn(c, s, m))
  {
    var moves :| DisciplinedMoves(c, b, Opening(0, map[], map[]), moves, s);
    DisciplinedSnoc(c, b, Opening(0, map[], map[]), moves, s, m);
  }

  lemma ReachStep(c: Settings, b: Bounds, s: System, m: Move, a: Action)
    requires Attained(c, b, s) && CanMove(c, s, m) && DbStep(c, s, m) == [a] && AtZero(MoveOn(c, s, m))
    requires Enabled(c, Abs(s), a) ==> Careful(c, b, Abs(s), a)
    ensures Attained(c, b, MoveOn(c, s, m))
  {
    Simulates(c, s, m);
    ZeroIsOnTime(b, MoveOn(c, s, m));
    var moves :| DisciplinedMoves(c, b, Opening(0, map[], map[]), moves, s);
    DisciplinedSnoc(c, b, Opening(0, map[], map[]), moves, s, m);
  }

  lemma ReachOpening(c: Settings, b: Bounds)
    requires Fits(c, b)
    ensures Attained(c, b, Opening(0, map[], map[]))
  {
    assert DisciplinedMoves(c, b, Opening(0, map[], map[]), [], Opening(0, map[], map[]));
  }

  // ---- what a worker, a request and the feeder do in a few moves ----

  const FREE: Process := Process(Idle, None, None, None)

  lemma Hire(c: Settings, b: Bounds, s: System, w: WorkerId) returns (t: System)
    requires Attained(c, b, s) && w !in s.procs
    ensures Attained(c, b, t) && t == s.(procs := s.procs[w := FREE])
  {
    var m := Env(Launch(w));
    t := MoveOn(c, s, m);
    ReachStep(c, b, s, m, World(Spawn(w)));
  }

  lemma JobInserted(c: Settings, b: Bounds, s: System, p: nat, id: Id) returns (t: System)
    requires Attained(c, b, s) && p in s.errands && s.errands[p] == Inserting(None, 0) && id !in s.table
    requires c.defaultMaxAttempts > 0
    ensures var job := NewJob(c, 0, None, None, 0);
            && Attained(c, b, t) && id in t.table && t.table[id].job == job
            && t == s.(table := s.table[id := t.table[id]],
                       errands := s.errands[p := Enqueueing(Offer(id, JobScore(job)))])
  {
    t := DoCreate(c, s, p, id, 0, None, 0);
    ReachStep(c, b, s, For(p, Create(id, 0, None, 0)), Api(Insert(id, 0, None, None, 0)));
  }

  /** The next command of an errand that owes the dead-letter list nothing. */
  lemma Command(c: Settings, b: Bounds, s: System, p: nat)
    requires Attained(c, b, s) && p in s.errands && Commanding(s.errands[p])
    ensures Attained(c, b, DoGo(s, p))
  {
    ReachQuiet(c, b, s, Go(p));
  }

  lemma JobAdded(c: Settings, b: Bounds, s: System, p: nat, offer: Offer) returns (t: System)
    requires Attained(c, b, s) && p in s.errands && s.errands[p] == Enqueueing(offer)
    ensures Attained(c, b, t)
    ensures t == s.(pending := s.pending[offer.id := offer.score], errands := s.errands - {p})
  {
    Command(c, b, s, p);
    t := DoGo(s, p);
  }

  lemma LookupMissed(c: Settings, b: Bounds, s: System, p: nat) returns (t: System)
    requires Attained(c, b, s) && p !in s.errands
    ensures Attained(c, b, t) && t == On(s, p, Inserting(None, 0))
  {
    t := DoSubmit(s, p, None);
    ReachQuiet(c, b, s, For(p, Submit(None)));
  }

  /** A submit with no key, up to its ZADD. */
  lemma JobCommitted(c: Settings, b: Bounds, s: System, p: nat, id: Id) returns (t: System, offer: Offer)
    requires Attained(c, b, s) && p !in s.errands && id !in s.table && c.defaultMaxAttempts > 0
    ensures Attained(c, b, t) && id in t.table && t.table[id].job == NewJob(c, 0, None, None, 0) && offer.id == id
    ensures t == s.(table := s.table[id := t.table[id]], errands := s.errands[p := Enqueueing(offer)])
  {
    var s1 := LookupMissed(c, b, s, p);
    t := JobInserted(c, b, s1, p, id);
    offer := t.errands[p].offer;
  }

  lemma Enter(c: Settings, b: Bounds, s: System, p: nat, id: Id) returns (t: System)
    requires Attained(c, b, s) && p !in s.errands && id !in s.table && c.defaultMaxAttempts > 0
    ensures Attained(c, b, t) && id in t.table && t.table[id].job == NewJob(c, 0, None, None, 0)
    ensures t == s.(table := s.table[id := t.table[id]], pending := t.pending)
    ensures t.pending.Keys == s.pending.Keys + {id}
  {
    var s1, offer := JobCommitted(c, b, s, p, id);
    t := JobAdded(c, b, s1, p, offer);
    Gone(s.errands, p, Enqueueing(offer));
  }

  lemma Popping(c: Settings, b: Bounds, s: System, w: WorkerId, id: Id) returns (t: System)
    requires Attained(c, b, s) && w in s.procs && s.procs[w] == FREE && s.pending.Keys == {id}
    ensures Attained(c, b, t)
    ensures t == s.(pending := map[], procs := s.procs[w := Process(FullSystem.Popped(id, 0), None, None, None)])
  {
    t := DoPop(s, w);
    assert Head(s.pending) in Ranks(s.pending) && Head(s.pending) in s.pending.Keys;
    assert t.pending == map[];
    ReachQuiet(c, b, s, By(w, Pop));
  }

  lemma Claiming(c: Settings, b: Bounds, s: System, w: WorkerId, id: Id) returns (t: System)
    requires Attained(c, b, s) && w in s.procs && s.procs[w] == Process(FullSystem.Popped(id, 0), None, None, None)
    requires id in s.table && Ready(s.table[id].job, 0)
    ensures Attained(c, b, t) && id in t.table && t == s.(table := s.table[id := t.table[id]],
              procs := s.procs[w := Process(Held(Hold(id, t.table[id].job, 0, 0, false)), Some(id), None, None)])
  {
    t := DoTryClaim(c, s, w, 0, 0, 0);
    ReachStep(c, b, s, By(w, TryClaim(0, 0, 0)), Work(w, Claim(id, 0, 0, 0)));
  }

  lemma Beginning(c: Settings, b: Bounds, s: System, w: WorkerId, id: Id) returns (t: System)
    requires Attained(c, b, s) && w in s.procs && id in s.table
    requires s.procs[w] == Process(Held(Hold(id, s.table[id].job, 0, 0, false)), Some(id), None, None)
    ensures Attained(c, b, t) && id in t.table && t == s.(table := s.table[id := t.table[id]],
              procs := s.procs[w := Process(Held(Hold(id, t.table[id].job, 0, 0, true)), Some(id), None, None)])
  {
    t := DoBegin(s, w);
    ReachStep(c, b, s, By(w, Begin), Work(w, Start));
  }

  lemma Breaking(c: Settings, b: Bounds, s: System, w: WorkerId, id: Id) returns (t: System)
    requires Attained(c, b, s) && w in s.procs && id in s.table
    requires s.procs[w] == Process(Held(Hold(id, s.table[id].job, 0, 0, true)), Some(id), None, None)
    ensures Attained(c, b, t) && id in t.table && t.table[id].job.status == Failed
    ensures t == s.(table := s.table[id := t.table[id]], notes := s.notes + [Note(id, true)],
                    procs := s.procs[w := Process(Owing(id, |s.notes|), Some(id), None, None)])
  {
    var m := Break("", true, 0, 0);
    t := DoBreak(c, s, w, "", true, 0);
    ReachStep(c, b, s, By(w, m), Work(w, Fail("", true, 0, 0)));
  }

  /** An idle worker pops the only entry and claims it. */
  lemma Take(c: Settings, b: Bounds, s: System, w: WorkerId, id: Id) returns (t: System)
    requires Attained(c, b, s) && w in s.procs && s.procs[w] == FREE && s.pending.Keys == {id}
    requires id in s.table && Ready(s.table[id].job, 0)
    ensures Attained(c, b, t) && id in t.table
    ensures t == s.(pending := map[], table := s.table[id := t.table[id]],
              procs := s.procs[w := Process(Held(Hold(id, t.table[id].job, 0, 0, false)), Some(id), None, None)])
  {
    var s1 := Popping(c, b, s, w, id);
    t := Claiming(c, b, s1, w, id);
  }

  /** It starts, and fails for good. */
  lemma Spoil(c: Settings, b: Bounds, s: System, w: WorkerId, id: Id) returns (t: System)
    requires Attained(c, b, s) && w in s.procs && id in s.table
    requires s.procs[w] == Process(Held(Hold(id, s.table[id].job, 0, 0, false)), Some(id), None, None)
    ensures Attained(c, b, t) && id in t.table && t.table[id].job.status == Failed
    ensures t == s.(table := s.table[id := t.table[id]], notes := s.notes + [Note(id, true)],
                    procs := s.procs[w := Process(Owing(id, |s.notes|), Some(id), None, None)])
  {
    var s1 := Beginning(c, b, s, w, id);
    t := Breaking(c, b, s1, w, id);
  }

  /** A free worker pops the only entry, claims it, starts and fails, and owes the push. */
  lemma FailForGood(c: Settings, b: Bounds, s: System, w: WorkerId, id: Id) returns (t: System)
    requires Attained(c, b, s) && w in s.procs && s.procs[w] == FREE && s.pending.Keys == {id}
    requires id in s.table && Ready(s.table[id].job, 0)
    ensures Attained(c, b, t) && id in t.table && t.table[id].job.status == Failed
    ensures t == s.(pending := map[], table := s.table[id := t.table[id]], notes := s.notes + [Note(id, true)],
                    procs := s.procs[w := Process(Owing(id, |s.notes|), Some(id), None, None)])
  {
    var s1 := Take(c, b, s, w, id);
    t := Spoil(c, b, s1, w, id);
  }

  lemma Pay(c: Settings, b: Bounds, s: System, w: WorkerId, id: Id, note: nat) returns (t: System)
    requires Attained(c, b, s) && w in s.procs && s.procs[w] == Process(Owing(id, note), Some(id), None, None)
    ensures Attained(c, b, t)
    ensures t == s.(dead := PushDead(s.dead, id), log := s.log + [Pushed(id, note)], procs := s.procs[w := FREE])
  {
    t := DoPush(s, w);
    ReachQuiet(c, b, s, By(w, PushFailed));
  }

  lemma RetryAsked(c: Settings, b: Bounds, s: System, p: nat, id: Id) returns (t: System)
    requires Attained(c, b, s) && p !in s.errands && id in s.table && s.table[id].job.status == Failed
    ensures Attained(c, b, t) && t == On(s, p, Asking(Retrying(id, s.table[id].job)))
  {
    t := DoAsk(s, p, id, true);
    ReachStep(c, b, s, For(p, Ask(id, true)), Api(ReadRetry(p, id)));
  }

  lemma RetryCommitted(c: Settings, b: Bounds, s: System, p: nat, id: Id) returns (t: System)
    requires Attained(c, b, s) && id in s.table
    requires p in s.errands && s.errands[p] == Asking(Retrying(id, s.table[id].job))
    ensures Attained(c, b, t) && id in t.table && Ready(t.table[id].job, 0)
    ensures t == s.(table := s.table[id := t.table[id]], notes := s.notes + [Note(id, false)],
                    errands := s.errands[p := Unlisting(id, |s.notes|)])
  {
    t := DoWrite(s, p, 0);
    ReachStep(c, b, s, For(p, Write(0)), Api(CommitRetry(p, 0)));
  }

  /** A manual retry commits, and owes the removal. */
  lemma Retry(c: Settings, b: Bounds, s: System, p: nat, id: Id) returns (t: System)
    requires Attained(c, b, s) && p !in s.errands && id in s.table && s.table[id].job.status == Failed
    ensures Attained(c, b, t) && id in t.table && Ready(t.table[id].job, 0)
    ensures t == s.(table := s.table[id := t.table[id]], notes := s.notes + [Note(id, false)],
                    errands := s.errands[p := Unlisting(id, |s.notes|)])
  {
    var s1 := RetryAsked(c, b, s, p, id);
    t := RetryCommitted(c, b, s1, p, id);
  }

  lemma Unlist(c: Settings, b: Bounds, s: System, p: nat, id: Id, note: nat) returns (t: System)
    requires Attained(c, b, s) && p in s.errands && s.errands[p] == Unlisting(id, note)
    ensures Attained(c, b, t)
    ensures t == s.(dead := Without(s.dead, id), errands := s.errands - {p}, log := s.log + [Removed(id, note)])
  {
    Command(c, b, s, p);
    t := DoGo(s, p);
  }

  lemma Waking(c: Settings, b: Bounds, s: System, p: nat) returns (t: System)
    requires Attained(c, b, s) && p !in s.errands
    ensures Attained(c, b, t) && t == On(s, p, Awake(0))
  {
    t := On(s, p, Awake(0));
    ReachQuiet(c, b, s, Tend(p, Wake));
  }

  /** The answer of the feeder's query when there is only one row. */
  lemma OnlyRow(rows: map<Id, Job>, id: Id, limit: nat)
    requires rows.Keys == {id} && Ready(rows[id], 0) && limit > 0
    ensures TopOf([id], ReadyRanks(rows, 0), limit)
  {
    assert ReadyRanks(rows, 0).Keys == {id};
  }

  lemma OfferedOne(c: Settings, s: System, p: nat, id: Id) returns (offer: Offer)
    requires p in s.errands && s.errands[p] == Awake(0) && s.table.Keys == {id} && Ready(s.table[id].job, 0)
    requires c.batch > 0
    ensures CanTend(c, s, p, Feed([id])) && DoTend(c, s, p, Feed([id])) == On(s, p, Feeding([offer])) && offer.id == id
  {
    OnlyRow(RowsOf(s), id, c.batch);
    var offers := Offers(RowsOf(s), [id]);
    offer := offers[0];
    assert offers == [offer];
  }

  lemma Answering(c: Settings, b: Bounds, s: System, p: nat, id: Id) returns (t: System, offer: Offer)
    requires Attained(c, b, s) && p in s.errands && s.errands[p] == Awake(0) && s.table.Keys == {id}
    requires Ready(s.table[id].job, 0) && c.batch > 0
    ensures Attained(c, b, t) && t == On(s, p, Feeding([offer])) && offer.id == id
  {
    offer := OfferedOne(c, s, p, id);
    t := On(s, p, Feeding([offer]));
    ReachQuiet(c, b, s, Tend(p, Feed([id])));
  }

  lemma Feeds(c: Settings, b: Bounds, s: System, p: nat, offer: Offer) returns (t: System)
    requires Attained(c, b, s) && p in s.errands && s.errands[p] == Feeding([offer]) && s.pending == map[]
    ensures Attained(c, b, t) && t == s.(pending := map[offer.id := offer.score], errands := s.errands - {p})
  {
    var s1 := s.(pending := map[offer.id := offer.score], errands := s.errands[p := Feeding([])]);
    assert [offer][1..] == [];
    assert s.log + Sent(s.errands[p]) == s.log;
    Command(c, b, s, p);
    assert DoGo(s, p) == s1;
    Command(c, b, s1, p);
    t := DoGo(s1, p);
    assert s1.log + Sent(s1.errands[p]) == s1.log && t.errands == s.errands - {p};
  }

  /** The feeder offers the only row. */
  lemma Offering(c: Settings, b: Bounds, s: System, p: nat, id: Id) returns (t: System)
    requires Attained(c, b, s) && p !in s.errands && s.table.Keys == {id} && Ready(s.table[id].job, 0)
    requires s.pending == map[] && c.batch > 0
    ensures Attained(c, b, t) && t == s.(pending := t.pending) && t.pending.Keys == {id}
  {
    var s1 := Waking(c, b, s, p);
    var s2, offer := Answering(c, b, s1, p, id);
    t := Feeds(c, b, s2, p, offer);
    assert s2.errands == s.errands[p := Feeding([offer])];
    Gone(s.errands, p, Feeding([offer]));
  }

  // ---- the runs ----

  /** One free worker and one job in the dispatch set. */
  lemma Begun(c: Settings, b: Bounds, id: Id) returns (t: System)
    requires Fits(c, b) && c.defaultMaxAttempts > 0
    ensures Attained(c, b, t) && t.procs == map[0 := FREE] && t.errands == map[] && t.table.Keys == {id}
    ensures Ready(t.table[id].job, 0) && t.pending.Keys == {id} && t.notes == [] && t.log == [] && t.dead == []
  {
    ReachOpening(c, b);
    var s := Hire(c, b, Opening(0, map[], map[]), 0);
    t := Enter(c, b, s, 0, id);
  }

  /** The job has failed, and the push is owed. */
  lemma Fallen(c: Settings, b: Bounds, id: Id) returns (t: System)
    requires Fits(c, b) && c.defaultMaxAttempts > 0
    ensures Attained(c, b, t) && t.procs == map[0 := Process(Owing(id, 0), Some(id), None, None)] && t.errands == map[]
    ensures t.table.Keys == {id} && t.table[id].job.status == Failed && t.pending == map[]
    ensures t.notes == [Note(id, true)] && t.log == [] && t.dead == []
  {
    var s := Begun(c, b, id);
    t := FailForGood(c, b, s, 0, id);
  }

  /** Another job has failed too, on another worker; both pushes are owed. */
  lemma BothFallen(c: Settings, b: Bounds, x: Id, y: Id) returns (t: System)
    requires Fits(c, b) && c.defaultMaxAttempts > 0 && x != y
    ensures Attained(c, b, t) && t.errands == map[] && JobFailed(t, x) && JobFailed(t, y) && t.procs.Keys == {0, 1}
    ensures t.procs[0] == Process(Owing(x, 0), Some(x), None, None)
    ensures t.procs[1] == Process(Owing(y, 1), Some(y), None, None)
    ensures t.notes == [Note(x, true), Note(y, true)] && t.log == [] && t.dead == []
  {
    var s := Fallen(c, b, x);
    var s1 := Hire(c, b, s, 1);
    var s2 := Enter(c, b, s1, 0, y);
    t := FailForGood(c, b, s2, 1, y);
  }

  /** Nothing is owed or under way. */
  predicate NothingOwed(t: System) {
    t.errands == map[] && forall w :: w in t.procs ==> t.procs[w] == FREE
  }

  /** The push of the second lands first. */
  lemma BothPaid(c: Settings, b: Bounds, x: Id, y: Id) returns (t: System)
    requires Fits(c, b) && c.defaultMaxAttempts > 0 && x != y
    ensures Attained(c, b, t) && NothingOwed(t) && JobFailed(t, x) && JobFailed(t, y)
    ensures t.notes == [Note(x, true), Note(y, true)] && t.dead == [x, y] && t.log == [Pushed(y, 1), Pushed(x, 0)]
  {
    var s := BothFallen(c, b, x, y);
    var s1 := Pay(c, b, s, 1, y, 1);
    t := Pay(c, b, s1, 0, x, 0);
  }

  lemma LandedAgainstOrder(x: Id, y: Id)
    requires x != y
    ensures !NewestFirst(Marks([Pushed(y, 1), Pushed(x, 0)]))
  {
    RemovalRestoresOrder(x, y);
  }

  lemma RunTo(c: Settings, b: Bounds, t: System) returns (moves: seq<Move>)
    requires Attained(c, b, t)
    ensures DisciplinedMoves(c, b, Opening(0, map[], map[]), moves, t)
  {
    moves :| DisciplinedMoves(c, b, Opening(0, map[], map[]), moves, t);
  }

  /**
   * Two jobs fail, and the push of the second lands first: the list holds both once, but the earlier failure stands
   * first.
   */
  lemma OrderMayFollowPushes(c: Settings, b: Bounds, x: Id, y: Id) returns (moves: seq<Move>, t: System)
    requires Fits(c, b) && c.defaultMaxAttempts > 0 && x != y
    ensures DisciplinedMoves(c, b, Opening(0, map[], map[]), moves, t) && NothingOwed(t)
    ensures t.notes == [Note(x, true), Note(y, true)] && JobFailed(t, x) && JobFailed(t, y)
    ensures t.dead == [x, y] && !NewestFirst(Marks(t.log))
  {
    t := BothPaid(c, b, x, y);
    LandedAgainstOrder(x, y);
    moves := RunTo(c, b, t);
  }

  /** The push has landed, the job was retried by hand and offered again, and the removal is owed. */
  lemma RetriedAndOffered(c: Settings, b: Bounds, id: Id) returns (t: System)
    requires Fits(c, b) && c.defaultMaxAttempts > 0 && c.batch > 0
    ensures Attained(c, b, t) && t.procs == map[0 := FREE] && t.errands == map[0 := Unlisting(id, 1)]
    ensures t.table.Keys == {id} && Ready(t.table[id].job, 0) && t.pending.Keys == {id}
    ensures t.notes == [Note(id, true), Note(id, false)] && t.log == [Pushed(id, 0)] && t.dead == [id]
  {
    var s := Fallen(c, b, id);
    var s1 := Pay(c, b, s, 0, id, 0);
    var s2 := Retry(c, b, s1, 0, id);
    t := Offering(c, b, s2, 1, id);
  }

  /** It failed again, and both pushes have landed, but not the removal. */
  lemma RetriedAndListed(c: Settings, b: Bounds, id: Id) returns (t: System)
    requires Fits(c, b) && c.defaultMaxAttempts > 0 && c.batch > 0
    ensures Attained(c, b, t) && t.procs == map[0 := FREE] && t.errands == map[0 := Unlisting(id, 1)]
    ensures JobFailed(t, id)
    ensures t.notes == [Note(id, true), Note(id, false), Note(id, true)]
    ensures t.log == [Pushed(id, 0), Pushed(id, 2)] && t.dead == [id, id]
  {
    var s := RetriedAndOffered(c, b, id);
    var s1 := FailForGood(c, b, s, 0, id);
    t := Pay(c, b, s1, 0, id, 2);
  }

  /** The late removal takes the second failure off the list too, and nothing is owed that would bring it back. */
  lemma LateRemovalLosesAFailure(c: Settings, b: Bounds, id: Id) returns (moves: seq<Move>, t: System)
    requires Fits(c, b) && c.defaultMaxAttempts > 0 && c.batch > 0
    ensures DisciplinedMoves(c, b, Opening(0, map[], map[]), moves, t) && NothingOwed(t)
    ensures t.notes == [Note(id, true), Note(id, false), Note(id, true)]
    ensures JobFailed(t, id) && t.dead == []
  {
    var s := RetriedAndListed(c, b, id);
    t := Unlist(c, b, s, 0, id, 1);
    moves := RunTo(c, b, t);
  }

  /** Another manual retry has committed, and both removals are owed. */
  lemma RetriedAgain(c: Settings, b: Bounds, id: Id) returns (t: System)
    requires Fits(c, b) && c.defaultMaxAttempts > 0 && c.batch > 0
    ensures Attained(c, b, t) && t.procs == map[0 := FREE]
    ensures t.errands == map[0 := Unlisting(id, 1), 1 := Unlisting(id, 3)]
    ensures t.notes == [Note(id, true), Note(id, false), Note(id, true), Note(id, false)]
    ensures t.log == [Pushed(id, 0), Pushed(id, 2)] && t.dead == [id, id] && id in t.table && !JobFailed(t, id)
  {
    var s := RetriedAndListed(c, b, id);
    t := Retry(c, b, s, 1, id);
  }

  /** The second removal lands, and then the first. */
  lemma RemovedTwice(c: Settings, b: Bounds, id: Id) returns (t: System)
    requires Fits(c, b) && c.defaultMaxAttempts > 0 && c.batch > 0
    ensures Attained(c, b, t) && NothingOwed(t) && id in t.table && !JobFailed(t, id) && t.dead == []
    ensures t.notes == [Note(id, true), Note(id, false), Note(id, true), Note(id, false)]
    ensures t.log == [Pushed(id, 0), Pushed(id, 2), Removed(id, 3), Removed(id, 1)]
  {
    var s := RetriedAgain(c, b, id);
    var s1 := Unlist(c, b, s, 1, id, 3);
    t := Unlist(c, b, s1, 0, id, 1);
  }

  /**
   * It is not needed that the last command about a job belongs to its last commit: after another manual retry, whose
   * removal overtakes the late one, the list is right although the command of the first retry came last.
   */
  lemma LastCommandMayBeOld(c: Settings, b: Bounds, id: Id) returns (moves: seq<Move>, t: System)
    requires Fits(c, b) && c.defaultMaxAttempts > 0 && c.batch > 0
    ensures DisciplinedMoves(c, b, Opening(0, map[], map[]), moves, t) && NothingOwed(t)
    ensures t.notes == [Note(id, true), Note(id, false), Note(id, true), Note(id, false)]
    ensures t.log == [Pushed(id, 0), Pushed(id, 2), Removed(id, 3), Removed(id, 1)]
    ensures id in t.table && !JobFailed(t, id) && t.dead == Names(Marks(t.log)) == []
  {
    t := RemovedTwice(c, b, id);
    BelongingIsNotExact(id);
    moves := RunTo(c, b, t);
  }

  /** The removal of the manual retry has overtaken the push, and then the job was offered again. */
  lemma Overtaken(c: Settings, b: Bounds, id: Id) returns (t: System)
    requires Fits(c, b) && c.defaultMaxAttempts > 0 && c.batch > 0
    ensures Attained(c, b, t) && t.procs == map[0 := FREE] && t.errands == map[]
    ensures t.table.Keys == {id} && Ready(t.table[id].job, 0) && t.pending.Keys == {id}
    ensures t.notes == [Note(id, true), Note(id, false)] && t.log == [Removed(id, 1), Pushed(id, 0)] && t.dead == [id]
  {
    var s := Fallen(c, b, id);
    var s1 := Retry(c, b, s, 0, id);
    var s2 := Unlist(c, b, s1, 0, id, 1);
    var s3 := Pay(c, b, s2, 0, id, 0);
    t := Offering(c, b, s3, 0, id);
  }

  /** It failed again, and that push has landed too. */
  lemma PushedTwice(c: Settings, b: Bounds, id: Id) returns (t: System)
    requires Fits(c, b) && c.defaultMaxAttempts > 0 && c.batch > 0
    ensures Attained(c, b, t) && NothingOwed(t) && JobFailed(t, id) && t.dead == [id, id]
    ensures t.notes == [Note(id, true), Note(id, false), Note(id, true)]
    ensures t.log == [Removed(id, 1), Pushed(id, 0), Pushed(id, 2)]
  {
    var s := Overtaken(c, b, id);
    var s1 := FailForGood(c, b, s, 0, id);
    t := Pay(c, b, s1, 0, id, 2);
  }

  /** Nor is it enough: the list holds the job twice although the last command is the push of its last failure. */
  lemma LastCommandMayRepeat(c: Settings, b: Bounds, id: Id) returns (moves: seq<Move>, t: System)
    requires Fits(c, b) && c.defaultMaxAttempts > 0 && c.batch > 0
    ensures DisciplinedMoves(c, b, Opening(0, map[], map[]), moves, t) && NothingOwed(t)
    ensures t.notes == [Note(id, true), Note(id, false), Note(id, true)]
    ensures t.log == [Removed(id, 1), Pushed(id, 0), Pushed(id, 2)]
    ensures JobFailed(t, id) && t.dead == Names(Marks(t.log)) == [id, id]
  {
    t := PushedTwice(c, b, id);
    BelongingIsNotExact(id);
    moves := RunTo(c, b, t);
  }
}
