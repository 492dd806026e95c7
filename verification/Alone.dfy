/**
 * Operations of the whole system that nothing interrupts: their statements and commands, one after another, come to
 * what the methods over the two stores promise.
 */
module Alone {
  import opened Wrappers
  import opened Jobs
  import opened Keys
  import opened Ordering
  import opened Protocol
  import opened Redis
  import opened DeadLetter
  import opened Feeder
  import opened Scheduler
  import opened Reaper
  import opened Executor
  import opened FullSystem

  /** Moves of one request or maintenance cycle. */
  predicate Of(p: nat, m: Move) {
    (m.For? && m.p == p) || (m.Tend? && m.p == p) || (m.Go? && m.p == p)
  }

  /** A run of that request or cycle only. */
  ghost predicate OnItsOwn(c: Settings, s: System, p: nat, moves: seq<Move>, t: System) {
    Moves(c, s, moves, t) && forall i :: 0 <= i < |moves| ==> Of(p, moves[i])
  }

  lemma {:induction false} MovesJoin(c: Settings, s: System, moves: seq<Move>, mid: System, more: seq<Move>, t: System)
    requires Moves(c, s, moves, mid) && Moves(c, mid, more, t)
    ensures Moves(c, s, moves + more, t)
    decreases |moves|
  {
    if moves == [] {
      assert moves + more == more;
    } else {
      assert (moves + more)[1..] == moves[1..] + more;
      MovesJoin(c, MoveOn(c, s, moves[0]), moves[1..], mid, more, t);
    }
  }

  lemma Single(c: Settings, s: System, m: Move)
    requires CanMove(c, s, m)
    ensures Moves(c, s, [m], MoveOn(c, s, m))
  {
    assert [m][1..] == [];
  }

  /** One more move of its own. */
  lemma Next(c: Settings, s: System, p: nat, moves: seq<Move>, mid: System, m: Move)
    requires OnItsOwn(c, s, p, moves, mid) && CanMove(c, mid, m) && Of(p, m)
    ensures OnItsOwn(c, s, p, moves + [m], MoveOn(c, mid, m))
  {
    Single(c, mid, m);
    MovesJoin(c, s, moves, mid, [m], MoveOn(c, mid, m));
  }

  lemma NextFor(c: Settings, s: System, p: nat, moves: seq<Move>, mid: System, r: RequestMove)
    requires OnItsOwn(c, s, p, moves, mid) && CanFor(c, mid, p, r)
    ensures OnItsOwn(c, s, p, moves + [For(p, r)], DoFor(c, mid, p, r))
  {
    Next(c, s, p, moves, mid, For(p, r));
  }

  lemma NextTend(c: Settings, s: System, p: nat, moves: seq<Move>, mid: System, b: BatchMove)
    requires OnItsOwn(c, s, p, moves, mid) && CanTend(c, mid, p, b)
    ensures OnItsOwn(c, s, p, moves + [Tend(p, b)], DoTend(c, mid, p, b))
  {
    Next(c, s, p, moves, mid, Tend(p, b));
  }

  lemma NextGo(c: Settings, s: System, p: nat, moves: seq<Move>, mid: System)
    requires OnItsOwn(c, s, p, moves, mid) && p in mid.errands && Commanding(mid.errands[p])
    ensures OnItsOwn(c, s, p, moves + [Go(p)], DoGo(mid, p))
  {
    Next(c, s, p, moves, mid, Go(p));
  }

  lemma Started(c: Settings, s: System, p: nat)
    ensures OnItsOwn(c, s, p, [], s)
  {
  }

  // ---- requests ----

  /** The insert of a submit whose key is free, at any time after its lookup if it has none. */
  lemma Inserts(c: Settings, s: System, p: nat, id: Id, priority: int, scheduledAt: Option<Time>, key: Option<string>,
                since: Time, at: nat)
    requires p in s.errands && s.errands[p] == Inserting(key, since) && id !in s.table
    requires since <= at <= s.clock && (key.Some? ==> at == since)
    requires c.defaultMaxAttempts > 0 && !KeyTaken(s.table, key)
    ensures var t := DoCreate(c, s, p, id, priority, scheduledAt, at);
            && CanFor(c, s, p, Create(id, priority, scheduledAt, at))
            && id in t.table && AsSubmitted(c, t.table[id].job, priority, scheduledAt, key, at)
            && t == s.(table := s.table[id := t.table[id]],
                       errands := s.errands[p :=
                         if scheduledAt.Some? then Scheduling(id, scheduledAt.value)
                         else Enqueueing(Offer(id, at / 1000 - priority * 1_000_000_000_000))])
  {
  }

  /** The ZADD it owes, to one of the two sets. */
  lemma AddsIt(s: System, p: nat, id: Id, scheduledAt: Option<Time>, score: int)
    requires p in s.errands
    requires s.errands[p] == if scheduledAt.Some? then Scheduling(id, scheduledAt.value)
                             else Enqueueing(Offer(id, score))
    ensures Commanding(s.errands[p])
    ensures DoGo(s, p)
         == s.(pending := if scheduledAt.None? then s.pending[id := score] else s.pending,
               scheduled := if scheduledAt.Some? then s.scheduled[id := scheduledAt.value] else s.scheduled,
               errands := s.errands - {p})
  {
    assert s.log + [] == s.log;
  }

  /** A submit whose key is free creates the row it was asked for, and sends it to exactly one of the two sets. */
  lemma SubmitAlone(c: Settings, s: System, p: nat, id: Id, priority: int, scheduledAt: Option<Time>,
                    key: Option<string>)
    returns (moves: seq<Move>, t: System)
    requires p !in s.errands && id !in s.table && c.defaultMaxAttempts > 0 && s.clock >= 0
    requires key.Some? ==> forall i :: i in s.table ==> s.table[i].job.key != key
    ensures OnItsOwn(c, s, p, moves, t)
    ensures id in t.table && AsSubmitted(c, t.table[id].job, priority, scheduledAt, key, s.clock)
    ensures t == s.(table := s.table[id := t.table[id]],
                    pending := if scheduledAt.None? then
                                 s.pending[id := s.clock / 1000 - priority * 1_000_000_000_000]
                               else s.pending,
                    scheduled := if scheduledAt.Some? then s.scheduled[id := scheduledAt.value] else s.scheduled)
  {
    var score := s.clock / 1000 - priority * 1_000_000_000_000;
    var s1;
    moves, s1 := InsertsAlone(c, s, p, id, priority, scheduledAt, key);
    AddsIt(s1, p, id, scheduledAt, score);
    NextGo(c, s, p, moves, s1);
    moves, t := moves + [Go(p)], DoGo(s1, p);
    Gone(s.errands, p, s1.errands[p]);
  }

  lemma InsertsAlone(c: Settings, s: System, p: nat, id: Id, priority: int, scheduledAt: Option<Time>,
                     key: Option<string>)
    returns (moves: seq<Move>, t: System)
    requires p !in s.errands && id !in s.table && c.defaultMaxAttempts > 0 && s.clock >= 0 && !KeyTaken(s.table, key)
    ensures OnItsOwn(c, s, p, moves, t) && id in t.table && p in t.errands
    ensures AsSubmitted(c, t.table[id].job, priority, scheduledAt, key, s.clock)
    ensures t == s.(table := s.table[id := t.table[id]],
                    errands := s.errands[p :=
                      if scheduledAt.Some? then Scheduling(id, scheduledAt.value)
                      else Enqueueing(Offer(id, s.clock / 1000 - priority * 1_000_000_000_000))])
  {
    var create := Create(id, priority, scheduledAt, s.clock);
    Started(c, s, p);
    NextFor(c, s, p, [], s, Submit(key));
    var s1 := On(s, p, Inserting(key, s.clock));
    Inserts(c, s1, p, id, priority, scheduledAt, key, s.clock, s.clock);
    NextFor(c, s, p, [] + [For(p, Submit(key))], s1, create);
    moves := [] + [For(p, Submit(key))] + [For(p, create)];
    t := DoCreate(c, s1, p, id, priority, scheduledAt, s.clock);
    assert t.errands == s.errands[p := t.errands[p]];
  }

  /** One whose key is carried by a row changes nothing. */
  lemma DuplicateAlone(c: Settings, s: System, p: nat, key: string, holder: Id)
    requires p !in s.errands && holder in s.table && s.table[holder].job.key == Some(key)
    ensures CanFor(c, s, p, Submit(Some(key))) && DoFor(c, s, p, Submit(Some(key))) == s
  {
  }

  lemma CancelWrites(c: Settings, s: System, p: nat, id: Id)
    requires p in s.errands && id in s.table && s.errands[p] == Asking(Cancelling(id, s.table[id].job))
    ensures var t := DoWrite(s, p, 0);
            && CanFor(c, s, p, Write(0)) && id in t.table
            && t.table[id].job == s.table[id].job.(status := Cancelled, nextRunAt := None, leasedUntil := None,
                                                   workerId := None)
            && t == s.(table := s.table[id := t.table[id]], errands := s.errands[p := Unqueueing(id)])
  {
  }

  lemma Unqueues(s: System, p: nat, id: Id)
    requires p in s.errands && s.errands[p] == Unqueueing(id)
    ensures Commanding(s.errands[p])
    ensures DoGo(s, p) == s.(pending := s.pending - {id}, errands := s.errands[p := Unscheduling(id)])
  {
    assert s.log + [] == s.log;
  }

  lemma Unschedules(s: System, p: nat, id: Id)
    requires p in s.errands && s.errands[p] == Unscheduling(id)
    ensures Commanding(s.errands[p])
    ensures DoGo(s, p) == s.(scheduled := s.scheduled - {id}, errands := s.errands - {p})
  {
    assert s.log + [] == s.log;
  }

  /** A cancel of a pending or scheduled job cancels its row and takes it out of both sets. */
  lemma CancelAlone(c: Settings, s: System, p: nat, id: Id) returns (moves: seq<Move>, t: System)
    requires p !in s.errands && id in s.table && s.table[id].job.status in {Pending, Scheduled}
    ensures OnItsOwn(c, s, p, moves, t) && id in t.table
    ensures t.table[id].job == s.table[id].job.(status := Cancelled, nextRunAt := None, leasedUntil := None,
                                                workerId := None)
    ensures t == s.(table := s.table[id := t.table[id]], pending := s.pending - {id}, scheduled := s.scheduled - {id})
  {
    Started(c, s, p);
    NextFor(c, s, p, [], s, Ask(id, false));
    var s1 := On(s, p, Asking(Cancelling(id, s.table[id].job)));
    CancelWrites(c, s1, p, id);
    moves := [] + [For(p, Ask(id, false))];
    NextFor(c, s, p, moves, s1, Write(0));
    var s2 := DoWrite(s1, p, 0);
    Unqueues(s2, p, id);
    NextGo(c, s, p, moves + [For(p, Write(0))], s2);
    var s3 := DoGo(s2, p);
    Unschedules(s3, p, id);
    NextGo(c, s, p, moves + [For(p, Write(0))] + [Go(p)], s3);
    moves, t := moves + [For(p, Write(0))] + [Go(p)] + [Go(p)], DoGo(s3, p);
    Gone(s.errands, p, Unscheduling(id));
    assert s3.errands == s.errands[p := Unscheduling(id)];
  }

  lemma RetryWrites(c: Settings, s: System, p: nat, id: Id, wall: Time)
    requires p in s.errands && id in s.table && s.errands[p] == Asking(Retrying(id, s.table[id].job))
    ensures var t := DoWrite(s, p, wall);
            && CanFor(c, s, p, Write(wall)) && id in t.table
            && t.table[id].job == s.table[id].job.(status := Pending, maxAttempts := s.table[id].job.maxAttempts + 1,
                                                   nextRunAt := Some(wall), completedAt := None, startedAt := None,
                                                   leasedUntil := None, workerId := None, error := None)
            && t == s.(table := s.table[id := t.table[id]], notes := s.notes + [Note(id, false)],
                       errands := s.errands[p := Unlisting(id, |s.notes|)])
  {
  }

  /** A manual retry of a failed job reopens its row and takes every entry of it off the dead-letter list. */
  lemma RetryAlone(c: Settings, s: System, p: nat, id: Id, wall: Time) returns (moves: seq<Move>, t: System)
    requires p !in s.errands && id in s.table && s.table[id].job.status == Failed
    ensures OnItsOwn(c, s, p, moves, t) && id in t.table
    ensures t.table[id].job == s.table[id].job.(status := Pending, maxAttempts := s.table[id].job.maxAttempts + 1,
                                                nextRunAt := Some(wall), completedAt := None, startedAt := None,
                                                leasedUntil := None, workerId := None, error := None)
    ensures t == s.(table := s.table[id := t.table[id]], notes := s.notes + [Note(id, false)],
                    dead := Without(s.dead, id), log := s.log + [Removed(id, |s.notes|)])
    ensures id !in t.dead && t.pending == s.pending
  {
    Started(c, s, p);
    NextFor(c, s, p, [], s, Ask(id, true));
    var s1 := On(s, p, Asking(Retrying(id, s.table[id].job)));
    RetryWrites(c, s1, p, id, wall);
    moves := [] + [For(p, Ask(id, true))];
    NextFor(c, s, p, moves, s1, Write(wall));
    var s2 := DoWrite(s1, p, wall);
    NextGo(c, s, p, moves + [For(p, Write(wall))], s2);
    moves, t := moves + [For(p, Write(wall))] + [Go(p)], DoGo(s2, p);
    Gone(s.errands, p, Unlisting(id, |s.notes|));
    assert s2.errands == s.errands[p := Unlisting(id, |s.notes|)];
  }

  // ---- a cycle of the feeder ----

  lemma OnAgain(s: System, p: nat, e: Errand, f: Errand)
    ensures On(On(s, p, e), p, f) == On(s, p, f) && RowsOf(On(s, p, e)) == RowsOf(s)
  {
  }

  /** An errand that was not there before is gone at the end. */
  lemma OnThenGone(s: System, p: nat, e: Errand)
    requires p !in s.errands
    ensures On(s, p, e).errands - {p} == s.errands
  {
    Gone(s.errands, p, e);
  }

  function AddAll(z: ZSet, todo: seq<Offer>): ZSet
    decreases |todo|
  {
    if todo == [] then z else AddAll(ZAdd(z, todo[0].id, todo[0].score, true), todo[1..])
  }

  lemma OffersTail(rows: map<Id, Job>, ids: seq<Id>)
    requires ids != [] && forall id :: id in ids ==> id in rows
    ensures forall id :: id in ids[1..] ==> id in rows
    ensures Offers(rows, ids)[0] == Offer(ids[0], JobScore(rows[ids[0]]))
    ensures Offers(rows, ids)[1..] == Offers(rows, ids[1..])
  {
    assert ids[0] in ids;
  }

  lemma {:induction false} AddAllFeeds(z: ZSet, rows: map<Id, Job>, ids: seq<Id>)
    requires forall id :: id in ids ==> id in rows
    ensures AddAll(z, Offers(rows, ids)) == Fed(z, rows, ids)
    decreases |ids|
  {
    if ids == [] {
      assert Fed(z, rows, ids) == z;
    } else {
      OffersTail(rows, ids);
      var z' := ZAdd(z, ids[0], JobScore(rows[ids[0]]), true);
      AddAllFeeds(z', rows, ids[1..]);
      FedFront(z, rows, ids);
    }
  }

  lemma FedFront(z: ZSet, rows: map<Id, Job>, ids: seq<Id>)
    requires ids != [] && (forall id :: id in ids ==> id in rows) && forall id :: id in ids[1..] ==> id in rows
    ensures ids[0] in rows
    ensures Fed(ZAdd(z, ids[0], JobScore(rows[ids[0]]), true), rows, ids[1..]) == Fed(z, rows, ids)
  {
    assert ids[0] in ids && Elems(ids) == {ids[0]} + Elems(ids[1..]);
  }

  lemma FeedsNext(s: System, p: nat, todo: seq<Offer>)
    requires p in s.errands && s.errands[p] == Feeding(todo)
    ensures Commanding(s.errands[p])
    ensures DoGo(s, p)
         == if todo == [] then s.(errands := s.errands - {p})
            else s.(pending := ZAdd(s.pending, todo[0].id, todo[0].score, true),
                    errands := s.errands[p := Feeding(todo[1..])])
  {
    assert s.log + [] == s.log;
  }

  lemma {:induction false} FeedsOut(c: Settings, s0: System, p: nat, before: seq<Move>, s: System, todo: seq<Offer>)
    returns (moves: seq<Move>, t: System)
    requires OnItsOwn(c, s0, p, before, s) && p in s.errands && s.errands[p] == Feeding(todo)
    ensures OnItsOwn(c, s0, p, moves, t)
    ensures t == s.(pending := AddAll(s.pending, todo), errands := s.errands - {p})
    decreases |todo|
  {
    FeedsNext(s, p, todo);
    NextGo(c, s0, p, before, s);
    if todo == [] {
      moves, t := before + [Go(p)], DoGo(s, p);
    } else {
      moves, t := FeedsOut(c, s0, p, before + [Go(p)], DoGo(s, p), todo[1..]);
      assert DoGo(s, p).errands - {p} == s.errands - {p};
    }
  }

  /** The feeder offers the rows of its answer with their scores, and moves no entry. */
  lemma FeederAlone(c: Settings, s: System, p: nat, ids: seq<Id>) returns (moves: seq<Move>, t: System)
    requires p !in s.errands && TopOf(ids, ReadyRanks(RowsOf(s), s.clock), c.batch)
    requires forall id :: id in ids ==> id in s.table
    ensures OnItsOwn(c, s, p, moves, t) && t == s.(pending := t.pending)
    ensures t.pending.Keys == s.pending.Keys + Elems(ids)
    ensures forall id :: id in t.pending ==>
              t.pending[id] == if id in s.pending then s.pending[id]
                               else s.table[id].job.createdAt / 1000 - s.table[id].job.priority * 1_000_000_000_000
  {
    moves, t := FeederAdds(c, s, p, ids);
    FedHolds(s.pending, RowsOf(s), ids);
  }

  lemma FeederAdds(c: Settings, s: System, p: nat, ids: seq<Id>) returns (moves: seq<Move>, t: System)
    requires p !in s.errands && TopOf(ids, ReadyRanks(RowsOf(s), s.clock), c.batch)
    requires forall id :: id in ids ==> id in s.table
    ensures OnItsOwn(c, s, p, moves, t) && t == s.(pending := Fed(s.pending, RowsOf(s), ids))
  {
    var offers := Offers(RowsOf(s), ids);
    var asked := FeederAsks(c, s, p, ids);
    moves, t := FeedsOut(c, s, p, asked, On(s, p, Feeding(offers)), offers);
    OnThenGone(s, p, Feeding(offers));
    AddAllFeeds(s.pending, RowsOf(s), ids);
  }

  lemma FeederAsks(c: Settings, s: System, p: nat, ids: seq<Id>) returns (moves: seq<Move>)
    requires p !in s.errands && TopOf(ids, ReadyRanks(RowsOf(s), s.clock), c.batch)
    requires forall id :: id in ids ==> id in s.table
    ensures OnItsOwn(c, s, p, moves, On(s, p, Feeding(Offers(RowsOf(s), ids))))
  {
    var awake, feeding := Awake(s.clock), Feeding(Offers(RowsOf(s), ids));
    OnAgain(s, p, awake, feeding);
    Started(c, s, p);
    NextTend(c, s, p, [], s, Wake);
    NextTend(c, s, p, [] + [Tend(p, Wake)], On(s, p, awake), Feed(ids));
    moves := [] + [Tend(p, Wake)] + [Tend(p, Feed(ids))];
  }

  lemma FedHolds(z: ZSet, rows: map<Id, Job>, ids: seq<Id>)
    requires forall id :: id in ids ==> id in rows
    ensures Fed(z, rows, ids).Keys == z.Keys + Elems(ids)
    ensures forall id :: id in Fed(z, rows, ids) ==>
              Fed(z, rows, ids)[id] == if id in z then z[id]
                                       else rows[id].createdAt / 1000 - rows[id].priority * 1_000_000_000_000
  {
  }

  // ---- a cycle of the scheduler ----

  function TallyOf(s: System, promoted: nat): Tally {
    Tally(RowsOf(s), s.pending, s.scheduled, promoted)
  }

  /** The cycle is at these candidates, and otherwise only the rows and the two sets may have changed. */
  predicate Amid(s: System, t: System, p: nat, ids: seq<Id>) {
    && p in t.errands && t.errands[p] == Promoting(ids, s.clock)
    && t == s.(table := t.table, pending := t.pending, scheduled := t.scheduled,
               errands := s.errands[p := Promoting(ids, s.clock)])
  }

  /** The UPDATE of one row may come at any time after the scan. */
  lemma UpdateDue(c: Settings, s: System, p: nat, ids: seq<Id>, since: Time, now: Time)
    requires p in s.errands && s.errands[p] == Promoting(ids, since) && ids != [] && since <= now <= s.clock
    requires ids[0] in s.table && Due(s.table[ids[0]].job, now)
    ensures var t := DoUpdate(s, p, now);
            && CanTend(c, s, p, Update(now))
            && p in t.errands && t.errands[p] == Moving(ids, now, Offer(ids[0], JobScore(s.table[ids[0]].job)))
            && RowsOf(t) == RowsOf(s)[ids[0] := PromoteRow(s.table[ids[0]].job)]
            && t == s.(table := t.table, errands := s.errands[p := t.errands[p]])
  {
  }

  lemma MoveDue(s: System, p: nat, ids: seq<Id>, offer: Offer)
    requires p in s.errands && s.errands[p] == Moving(ids, s.clock, offer) && ids != [] && offer.id == ids[0]
    ensures Commanding(s.errands[p])
    ensures DoGo(s, p)
         == s.(scheduled := s.scheduled - {ids[0]}, errands := s.errands[p := Adding(ids, s.clock, offer)])
  {
    assert s.log + [] == s.log;
  }

  lemma AddDue(s: System, p: nat, ids: seq<Id>, offer: Offer)
    requires p in s.errands && s.errands[p] == Adding(ids, s.clock, offer) && ids != [] && offer.id == ids[0]
    ensures Commanding(s.errands[p])
    ensures DoGo(s, p)
         == s.(pending := ZAdd(s.pending, ids[0], offer.score, false),
               errands := s.errands[p := Promoting(ids[1..], s.clock)])
  {
    assert s.log + [] == s.log;
  }

  /** A due candidate: the UPDATE, the ZREM and the ZADD. */
  lemma PromotesDue(c: Settings, s0: System, p: nat, before: seq<Move>, s: System, ids: seq<Id>)
    returns (moves: seq<Move>, t: System)
    requires OnItsOwn(c, s0, p, before, s) && p in s.errands && s.errands[p] == Promoting(ids, s.clock) && ids != []
    requires ids[0] in s.table && Due(s.table[ids[0]].job, s.clock)
    ensures OnItsOwn(c, s0, p, moves, t) && Amid(s, t, p, ids[1..])
    ensures RowsOf(t) == RowsOf(s)[ids[0] := PromoteRow(s.table[ids[0]].job)]
    ensures t.pending == ZAdd(s.pending, ids[0], JobScore(s.table[ids[0]].job), false)
    ensures t.scheduled == s.scheduled - {ids[0]}
  {
    var offer := Offer(ids[0], JobScore(s.table[ids[0]].job));
    UpdateDue(c, s, p, ids, s.clock, s.clock);
    NextTend(c, s0, p, before, s, Update(s.clock));
    moves, t := MovesDue(c, s0, p, before + [Tend(p, Update(s.clock))], DoUpdate(s, p, s.clock), ids, offer);
    assert t.errands == s.errands[p := Promoting(ids[1..], s.clock)];
  }

  lemma MovesDue(c: Settings, s0: System, p: nat, before: seq<Move>, s: System, ids: seq<Id>, offer: Offer)
    returns (moves: seq<Move>, t: System)
    requires OnItsOwn(c, s0, p, before, s) && p in s.errands && s.errands[p] == Moving(ids, s.clock, offer)
    requires ids != [] && offer.id == ids[0]
    ensures OnItsOwn(c, s0, p, moves, t)
    ensures t == s.(pending := ZAdd(s.pending, ids[0], offer.score, false), scheduled := s.scheduled - {ids[0]},
                    errands := s.errands[p := Promoting(ids[1..], s.clock)])
  {
    MoveDue(s, p, ids, offer);
    NextGo(c, s0, p, before, s);
    var s1 := DoGo(s, p);
    AddDue(s1, p, ids, offer);
    NextGo(c, s0, p, before + [Go(p)], s1);
    moves, t := before + [Go(p)] + [Go(p)], DoGo(s1, p);
  }

  lemma DropStale(s: System, p: nat, ids: seq<Id>)
    requires p in s.errands && s.errands[p] == Dropping(ids, s.clock) && ids != []
    ensures Commanding(s.errands[p])
    ensures DoGo(s, p)
         == s.(scheduled := s.scheduled - {ids[0]}, errands := s.errands[p := Promoting(ids[1..], s.clock)])
  {
    assert s.log + [] == s.log;
  }

  /** Any other: the UPDATE that finds nothing, and the ZREM. */
  lemma DropsStale(c: Settings, s0: System, p: nat, before: seq<Move>, s: System, ids: seq<Id>)
    returns (moves: seq<Move>, t: System)
    requires OnItsOwn(c, s0, p, before, s) && p in s.errands && s.errands[p] == Promoting(ids, s.clock) && ids != []
    requires !(ids[0] in s.table && Due(s.table[ids[0]].job, s.clock))
    ensures OnItsOwn(c, s0, p, moves, t) && Amid(s, t, p, ids[1..])
    ensures t.table == s.table && t.pending == s.pending && t.scheduled == s.scheduled - {ids[0]}
  {
    NextTend(c, s0, p, before, s, Update(s.clock));
    var s1 := On(s, p, Dropping(ids, s.clock));
    DropStale(s1, p, ids);
    NextGo(c, s0, p, before + [Tend(p, Update(s.clock))], s1);
    moves, t := before + [Tend(p, Update(s.clock))] + [Go(p)], DoGo(s1, p);
    assert t.errands == s.errands[p := Promoting(ids[1..], s.clock)];
  }

  lemma PromotesOne(c: Settings, s0: System, p: nat, before: seq<Move>, s: System, ids: seq<Id>, promoted: nat)
    returns (moves: seq<Move>, t: System, promoted': nat)
    requires OnItsOwn(c, s0, p, before, s) && p in s.errands && s.errands[p] == Promoting(ids, s.clock) && ids != []
    ensures OnItsOwn(c, s0, p, moves, t) && Amid(s, t, p, ids[1..])
    ensures TallyOf(t, promoted') == HandleOne(TallyOf(s, promoted), ids[0], s.clock)
  {
    if ids[0] in s.table && Due(s.table[ids[0]].job, s.clock) {
      moves, t := PromotesDue(c, s0, p, before, s, ids);
      promoted' := promoted + 1;
    } else {
      moves, t := DropsStale(c, s0, p, before, s, ids);
      promoted' := promoted;
      assert RowsOf(t) == RowsOf(s);
    }
  }

  lemma {:induction false} HandleFront(q: Tally, id: Id, ids: seq<Id>, now: Time)
    ensures HandleAll(q, [id] + ids, now) == HandleAll(HandleOne(q, id, now), ids, now)
    decreases |ids|
  {
    var all := [id] + ids;
    if ids == [] {
      assert all[..|all| - 1] == [];
    } else {
      HandleFront(q, id, ids[..|ids| - 1], now);
      assert all[..|all| - 1] == [id] + ids[..|ids| - 1];
    }
  }

  lemma HandleFrom(p: Tally, p1: Tally, q: Tally, ids: seq<Id>, now: Time)
    requires ids != [] && p1 == HandleOne(p, ids[0], now) && q == HandleAll(p1, ids[1..], now)
    ensures q == HandleAll(p, ids, now)
  {
    HandleFront(p, ids[0], ids[1..], now);
    assert [ids[0]] + ids[1..] == ids;
  }

  lemma {:induction false} PromotesAll(c: Settings, s0: System, p: nat, before: seq<Move>, s: System, ids: seq<Id>,
                                       promoted: nat)
    returns (moves: seq<Move>, t: System, promoted': nat)
    requires OnItsOwn(c, s0, p, before, s) && p in s.errands && s.errands[p] == Promoting(ids, s.clock)
    ensures OnItsOwn(c, s0, p, moves, t) && Amid(s, t, p, [])
    ensures TallyOf(t, promoted') == HandleAll(TallyOf(s, promoted), ids, s.clock)
    decreases |ids|
  {
    if ids == [] {
      moves, t, promoted' := before, s, promoted;
    } else {
      var s1, n1;
      moves, s1, n1 := PromotesOne(c, s0, p, before, s, ids, promoted);
      moves, t, promoted' := PromotesAll(c, s0, p, moves, s1, ids[1..], n1);
      StillAt(s, s1, t, p, ids[1..]);
      HandleFrom(TallyOf(s, promoted), TallyOf(s1, n1), TallyOf(t, promoted'), ids, s.clock);
    }
  }

  lemma StillAt(s: System, s1: System, t: System, p: nat, ids: seq<Id>)
    requires Amid(s, s1, p, ids) && Amid(s1, t, p, [])
    ensures Amid(s, t, p, [])
  {
    assert s1.errands[p := Promoting([], s.clock)] == s.errands[p := Promoting([], s.clock)];
  }

  lemma Concludes(s: System, p: nat)
    requires p in s.errands && s.errands[p] == Promoting([], s.clock)
    ensures Commanding(s.errands[p]) && DoGo(s, p) == s.(errands := s.errands - {p})
  {
    assert s.log + [] == s.log;
  }

  /** The scheduler's cycle does to the rows and to the two sets exactly what its method does. */
  lemma SchedulerAlone(c: Settings, s: System, p: nat, moment: Time, redisIds: seq<Id>, dbIds: seq<Id>)
    returns (moves: seq<Move>, t: System, promoted: nat)
    requires p !in s.errands && TopOf(redisIds, Ranks(DueMembers(s.scheduled, moment)), c.batch)
    requires TopOf(dbIds, DueRanks(RowsOf(s), moment), c.batch)
    ensures OnItsOwn(c, s, p, moves, t)
    ensures t == s.(table := t.table, pending := t.pending, scheduled := t.scheduled)
    ensures TallyOf(t, promoted) == Handled(TallyOf(s, 0), Dedupe(redisIds + dbIds), s.clock)
  {
    var ids := Dedupe(redisIds + dbIds);
    var asked := SchedulerAsks(c, s, p, moment, redisIds, dbIds);
    var s1 := On(s, p, Promoting(ids, s.clock));
    OnAgain(s, p, Promoting(ids, s.clock), Promoting([], s.clock));
    var s2;
    moves, s2, promoted := PromotesAll(c, s, p, asked, s1, ids, 0);
    Concludes(s2, p);
    NextGo(c, s, p, moves, s2);
    moves, t := moves + [Go(p)], DoGo(s2, p);
    OnThenGone(s, p, Promoting([], s.clock));
    HandleAllIs(TallyOf(s, 0), ids, s.clock);
    assert TallyOf(t, promoted) == TallyOf(s2, promoted) && TallyOf(s1, 0) == TallyOf(s, 0);
  }

  lemma SchedulerAsks(c: Settings, s: System, p: nat, moment: Time, redisIds: seq<Id>, dbIds: seq<Id>)
    returns (moves: seq<Move>)
    requires p !in s.errands && TopOf(redisIds, Ranks(DueMembers(s.scheduled, moment)), c.batch)
    requires TopOf(dbIds, DueRanks(RowsOf(s), moment), c.batch)
    ensures OnItsOwn(c, s, p, moves, On(s, p, Promoting(Dedupe(redisIds + dbIds), s.clock)))
  {
    var looked := Looked(moment, redisIds, s.clock);
    OnAgain(s, p, looked, Promoting(Dedupe(redisIds + dbIds), s.clock));
    Started(c, s, p);
    NextTend(c, s, p, [], s, Look(moment, redisIds));
    NextTend(c, s, p, [] + [Tend(p, Look(moment, redisIds))], On(s, p, looked), Scan(s.clock, dbIds));
    moves := [] + [Tend(p, Look(moment, redisIds))] + [Tend(p, Scan(s.clock, dbIds))];
  }

  // ---- a cycle of the reaper ----

  /** The UPDATE of one row may come at any time after the survey. */
  lemma TakesBack(c: Settings, s: System, p: nat, ids: seq<Id>, since: Time, now: Time)
    requires p in s.errands && s.errands[p] == Reaping(ids, since) && ids != [] && since <= now <= s.clock
    requires ids[0] in s.table && Expired(s.table[ids[0]].job, now)
    ensures var t := DoTakeBack(s, p, now);
            && CanTend(c, s, p, TakeBack(now))
            && RowsOf(t) == RowsOf(s)[ids[0] := ReapRow(s.table[ids[0]].job)]
            && t == s.(table := t.table, errands := s.errands[p := Reaping(ids[1..], now)])
  {
  }

  lemma ReapFront(rows: map<Id, Job>, ids: seq<Id>)
    requires ids != [] && Distinct(ids) && ids[0] in rows
    ensures ReapAll(rows[ids[0] := ReapRow(rows[ids[0]])], ids[1..]) == ReapAll(rows, ids)
  {
    assert forall id :: id in ids <==> id == ids[0] || id in ids[1..];
    assert ids[0] !in ids[1..];
  }

  lemma {:induction false} TakesBackAll(c: Settings, s0: System, p: nat, before: seq<Move>, s: System, ids: seq<Id>)
    returns (moves: seq<Move>, t: System)
    requires OnItsOwn(c, s0, p, before, s) && p in s.errands && s.errands[p] == Reaping(ids, s.clock) && Distinct(ids)
    requires forall id :: id in ids ==> id in s.table && Expired(s.table[id].job, s.clock)
    ensures OnItsOwn(c, s0, p, moves, t) && RowsOf(t) == ReapAll(RowsOf(s), ids)
    ensures t == s.(table := t.table, errands := s.errands[p := Reaping([], s.clock)])
    decreases |ids|
  {
    if ids == [] {
      moves, t := before, s;
      assert ReapAll(RowsOf(s), []) == RowsOf(s) && s.errands == s.errands[p := Reaping([], s.clock)];
    } else {
      assert ids[0] in ids;
      TakesBack(c, s, p, ids, s.clock, s.clock);
      NextTend(c, s0, p, before, s, TakeBack(s.clock));
      var s1 := DoTakeBack(s, p, s.clock);
      forall id | id in ids[1..] ensures id in s1.table && Expired(s1.table[id].job, s.clock) {
        assert id in ids && RowsOf(s1)[id] == RowsOf(s)[id];
      }
      moves, t := TakesBackAll(c, s0, p, before + [Tend(p, TakeBack(s.clock))], s1, ids[1..]);
      ReapFront(RowsOf(s), ids);
    }
  }

  /** The reaper's cycle takes back exactly the leases of its survey. */
  lemma ReaperAlone(c: Settings, s: System, p: nat, ids: seq<Id>) returns (moves: seq<Move>, t: System)
    requires p !in s.errands && TopOf(ids, ExpiredRanks(RowsOf(s), s.clock), c.batch)
    ensures OnItsOwn(c, s, p, moves, t) && t == s.(table := t.table) && t.table.Keys == s.table.Keys
    ensures forall id :: id in s.table ==>
              t.table[id].job
              == if id !in ids then s.table[id].job
                 else s.table[id].job.(status := Pending, workerId := None, leasedUntil := None, nextRunAt := None)
  {
    var taken, s1 := ReaperTakes(c, s, p, ids);
    EndsSurvey(s1, p);
    NextGo(c, s, p, taken, s1);
    moves, t := taken + [Go(p)], s1.(errands := s1.errands - {p});
    Gone(s.errands, p, Reaping([], s.clock));
    ReapHolds(s.table, t.table, ids);
  }

  lemma ReaperTakes(c: Settings, s: System, p: nat, ids: seq<Id>) returns (moves: seq<Move>, t: System)
    requires p !in s.errands && TopOf(ids, ExpiredRanks(RowsOf(s), s.clock), c.batch)
    ensures OnItsOwn(c, s, p, moves, t) && RowsOf(t) == ReapAll(RowsOf(s), ids)
    ensures t == s.(table := t.table, errands := s.errands[p := Reaping([], s.clock)])
  {
    var asked := ReaperAsks(c, s, p, ids);
    OnAgain(s, p, Reaping(ids, s.clock), Reaping([], s.clock));
    forall id | id in ids ensures id in s.table && Expired(s.table[id].job, s.clock) {
      assert id in ExpiredRanks(RowsOf(s), s.clock);
    }
    moves, t := TakesBackAll(c, s, p, asked, On(s, p, Reaping(ids, s.clock)), ids);
  }

  lemma EndsSurvey(s: System, p: nat)
    requires p in s.errands && s.errands[p] == Reaping([], s.clock)
    ensures Commanding(s.errands[p]) && DoGo(s, p) == s.(errands := s.errands - {p})
  {
    assert s.log + [] == s.log;
  }

  lemma ReaperAsks(c: Settings, s: System, p: nat, ids: seq<Id>) returns (moves: seq<Move>)
    requires p !in s.errands && TopOf(ids, ExpiredRanks(RowsOf(s), s.clock), c.batch)
    ensures OnItsOwn(c, s, p, moves, On(s, p, Reaping(ids, s.clock)))
  {
    OnAgain(s, p, Awake(s.clock), Reaping(ids, s.clock));
    Started(c, s, p);
    NextTend(c, s, p, [], s, Wake);
    NextTend(c, s, p, [] + [Tend(p, Wake)], On(s, p, Awake(s.clock)), Survey(ids));
    moves := [] + [Tend(p, Wake)] + [Tend(p, Survey(ids))];
  }

  lemma ReapHolds(table: map<Id, Entry>, table': map<Id, Entry>, ids: seq<Id>)
    requires (map id | id in table' :: table'[id].job) == ReapAll(map id | id in table :: table[id].job, ids)
    ensures table'.Keys == table.Keys
    ensures forall id :: id in table ==>
              table'[id].job
              == if id !in ids then table[id].job
                 else table[id].job.(status := Pending, workerId := None, leasedUntil := None, nextRunAt := None)
  {
    var rows, rows' := map id | id in table :: table[id].job, map id | id in table' :: table'[id].job;
    assert table'.Keys == rows'.Keys == rows.Keys == table.Keys;
    forall id | id in table
      ensures table'[id].job == if id in ids then ReapRow(table[id].job) else table[id].job
    {
      assert id in rows' && rows'[id] == ReapAll(rows, ids)[id];
    }
  }

  // ---- a worker ----

  /** A run of one worker's executor only. */
  ghost predicate ByItself(c: Settings, s: System, w: WorkerId, moves: seq<Move>, t: System) {
    Moves(c, s, moves, t) && forall i :: 0 <= i < |moves| ==> moves[i].By? && moves[i].w == w
  }

  lemma NextBy(c: Settings, s: System, w: WorkerId, moves: seq<Move>, mid: System, m: WorkerMove)
    requires ByItself(c, s, w, moves, mid) && CanBy(mid, w, m)
    ensures ByItself(c, s, w, moves + [By(w, m)], DoBy(c, mid, w, m))
  {
    Single(c, mid, By(w, m));
    MovesJoin(c, s, moves, mid, [By(w, m)], DoBy(c, mid, w, m));
  }

  /** The state after a worker changed one row and went on to a phase with this holder. */
  predicate Went(s: System, t: System, w: WorkerId, id: Id, phase: Phase, holder: Option<Id>) {
    && id in t.table && w in s.procs
    && t == s.(table := s.table[id := t.table[id]],
               procs := s.procs[w := s.procs[w].(phase := phase, holder := holder)])
  }

  lemma PopsFirst(s: System, w: WorkerId, id: Id)
    requires w in s.procs && First(s.pending, id)
    ensures s.pending != map[]
    ensures DoPop(s, w)
         == s.(pending := s.pending - {id}, procs := s.procs[w := s.procs[w].(phase := FullSystem.Popped(id, s.clock))])
  {
    assert id in Ranks(s.pending) && id in s.pending;
    OneFirst(s.pending, Head(s.pending), id);
  }

  /** A claim may come at any time after the pop, with its lease read at any time between. */
  lemma ClaimsIt(c: Settings, s: System, w: WorkerId, id: Id, at: Time, lease: Time, readAt: Time, now: Time)
    requires Live(s, w) && s.procs[w].phase == FullSystem.Popped(id, at) && at <= readAt <= now <= s.clock
    requires id in s.table && Ready(s.table[id].job, now)
    ensures var t := DoTryClaim(c, s, w, lease, readAt, now);
            var job := ClaimRow(s.table[id].job, w, lease + c.lease, now);
            && CanBy(s, w, TryClaim(lease, readAt, now))
            && Went(s, t, w, id, Held(Hold(id, job, readAt, s.clock, false)), Some(id)) && t.table[id].job == job
  {
  }

  lemma Begins(c: Settings, s: System, w: WorkerId, id: Id, hold: Hold)
    requires Live(s, w) && s.procs[w].phase == Held(hold) && hold.id == id && !hold.started && id in s.table
    ensures var t := DoBegin(s, w);
            && CanBy(s, w, Begin) && Went(s, t, w, id, Held(hold.(started := true)), s.procs[w].holder)
            && t.table[id].job == s.table[id].job
  {
  }

  /** The commit that an outcome leads to. */
  function EndMove(o: Outcome, wall: Time, readAt: Time): WorkerMove {
    match o
    case Success(result) => Succeed(result, wall)
    case TimedOut => Break("timed out", false, wall, readAt)
    case UnknownType(message) => Break(message, true, wall, readAt)
    case Raised(message) => Break(message, false, wall, readAt)
  }

  /** The attempt is over: its row was left as the outcome says, and a final failure was pushed. */
  predicate Over(c: Settings, s: System, t: System, w: WorkerId, id: Id, row: Job, o: Outcome, wall: Time) {
    && id in t.table && w in s.procs && Ended(c, row, t.table[id].job, w, o, s.clock, wall)
    && var failed := t.table[id].job.status == Failed;
       t == s.(table := s.table[id := t.table[id]],
               procs := s.procs[w := s.procs[w].(phase := Idle, holder := None)],
               dead := if failed then PushDead(s.dead, id) else s.dead,
               log := if failed then s.log + [Pushed(id, |s.notes|)] else s.log,
               notes := if failed then s.notes + [Note(id, true)] else s.notes)
  }

  /** Its handler has started, and its row is as the claim left it. */
  ghost predicate Underway(s: System, w: WorkerId, id: Id, hold: Hold, row: Job) {
    && Live(s, w) && s.procs[w].phase == Held(hold) && hold.id == id && hold.started && hold.since == s.clock
    && s.procs[w].holder == Some(id) && id in s.table && s.table[id].job == hold.copy
    && exists until :: hold.copy == ClaimRow(row, w, until, s.clock)
  }

  lemma Completes(c: Settings, s: System, w: WorkerId, id: Id, hold: Hold, row: Job, result: string, wall: Time)
    requires Underway(s, w, id, hold, row)
    ensures var t := DoSucceed(s, w, result, wall);
            CanBy(s, w, Succeed(result, wall)) && Over(c, s, t, w, id, row, Success(result), wall)
  {
  }

  /** The commit of a failure: the row waits again, or the push is owed. */
  predicate Broken(c: Settings, s: System, t: System, w: WorkerId, id: Id, row: Job, o: Outcome, wall: Time) {
    && id in t.table && Ended(c, row, t.table[id].job, w, o, s.clock, wall)
    && (t.table[id].job.status == Pending ==> Went(s, t, w, id, Idle, None))
    && (t.table[id].job.status == Failed ==>
          Went(s.(notes := s.notes + [Note(id, true)]), t, w, id, Owing(id, |s.notes|), Some(id)))
  }

  lemma FailsAs(c: Settings, copy: Job, row: Job, w: WorkerId, until: Time, at: Time, o: Outcome, wall: Time)
    requires copy == ClaimRow(row, w, until, at) && !o.Success?
    ensures var m := EndMove(o, wall, at);
            var after := FailCopy(c, copy, m.message, m.permanent, wall);
            Ended(c, row, after, w, o, at, wall) && (after.status == Pending <==> Retries(copy, m.permanent))
  {
  }

  lemma FailsOn(c: Settings, s: System, w: WorkerId, id: Id, message: string, permanent: bool, wall: Time)
    requires Live(s, w) && s.procs[w].phase.Held? && s.procs[w].phase.hold.id == id && s.procs[w].phase.hold.started
    requires s.procs[w].holder == Some(id) && id in s.table && s.table[id].job == s.procs[w].phase.hold.copy
    ensures var t, copy := DoBreak(c, s, w, message, permanent, wall), s.procs[w].phase.hold.copy;
            && id in t.table && t.table[id].job == FailCopy(c, copy, message, permanent, wall)
            && if Retries(copy, permanent) then Went(s, t, w, id, Idle, None)
               else Went(s.(notes := s.notes + [Note(id, true)]), t, w, id, Owing(id, |s.notes|), Some(id))
  {
  }

  lemma Breaks(c: Settings, s: System, w: WorkerId, id: Id, hold: Hold, row: Job, o: Outcome, wall: Time)
    requires Underway(s, w, id, hold, row) && !o.Success?
    ensures var m := EndMove(o, wall, s.clock);
            CanBy(s, w, m) && Broken(c, s, DoBreak(c, s, w, m.message, m.permanent, wall), w, id, row, o, wall)
  {
    var m := EndMove(o, wall, s.clock);
    var until :| hold.copy == ClaimRow(row, w, until, s.clock);
    FailsAs(c, hold.copy, row, w, until, s.clock, o, wall);
    FailsOn(c, s, w, id, m.message, m.permanent, wall);
  }

  lemma BreaksAlone(c: Settings, s0: System, w: WorkerId, before: seq<Move>, s: System, id: Id, hold: Hold, row: Job,
                    o: Outcome, wall: Time)
    returns (moves: seq<Move>, t: System)
    requires ByItself(c, s0, w, before, s) && Underway(s, w, id, hold, row) && !o.Success?
    ensures ByItself(c, s0, w, moves, t) && Broken(c, s, t, w, id, row, o, wall)
  {
    var m := EndMove(o, wall, s.clock);
    Breaks(c, s, w, id, hold, row, o, wall);
    NextBy(c, s0, w, before, s, m);
    moves, t := before + [By(w, m)], DoBreak(c, s, w, m.message, m.permanent, wall);
  }

  lemma Pushes(s: System, w: WorkerId, id: Id, at: nat)
    requires Live(s, w) && s.procs[w].phase == Owing(id, at) && s.procs[w].holder == Some(id)
    ensures CanBy(s, w, PushFailed)
    ensures DoPush(s, w) == s.(dead := PushDead(s.dead, id), log := s.log + [Pushed(id, at)],
                               procs := s.procs[w := s.procs[w].(phase := Idle, holder := None)])
  {
  }

  lemma BreaksOut(c: Settings, s0: System, w: WorkerId, before: seq<Move>, s: System, id: Id, hold: Hold, row: Job,
                  o: Outcome, wall: Time)
    returns (moves: seq<Move>, t: System)
    requires ByItself(c, s0, w, before, s) && Underway(s, w, id, hold, row) && !o.Success?
    ensures ByItself(c, s0, w, moves, t) && Over(c, s, t, w, id, row, o, wall)
  {
    moves, t := BreaksAlone(c, s0, w, before, s, id, hold, row, o, wall);
    if t.table[id].job.status == Failed {
      Pushes(t, w, id, |s.notes|);
      NextBy(c, s0, w, moves, t, PushFailed);
      moves, t := moves + [By(w, PushFailed)], DoPush(t, w);
    }
  }

  lemma EndsAlone(c: Settings, s0: System, w: WorkerId, before: seq<Move>, s: System, id: Id, hold: Hold, row: Job,
                  o: Outcome, wall: Time)
    returns (moves: seq<Move>, t: System)
    requires ByItself(c, s0, w, before, s) && Underway(s, w, id, hold, row)
    ensures ByItself(c, s0, w, moves, t) && Over(c, s, t, w, id, row, o, wall)
  {
    if o.Success? {
      Completes(c, s, w, id, hold, row, o.result, wall);
      NextBy(c, s0, w, before, s, Succeed(o.result, wall));
      moves, t := before + [By(w, Succeed(o.result, wall))], DoSucceed(s, w, o.result, wall);
    } else {
      moves, t := BreaksOut(c, s0, w, before, s, id, hold, row, o, wall);
    }
  }

  /**
   * An idle worker, for any outcome of the handler: pops the first entry, claims its row if it is ready, and leaves
   * of the row what the outcome says; a final failure is pushed to the dead-letter list.
   */
  lemma AttemptAlone(c: Settings, s: System, w: WorkerId, id: Id, o: Outcome, lease: Time, wall: Time)
    returns (moves: seq<Move>, t: System)
    requires Live(s, w) && s.procs[w].phase.Idle? && First(s.pending, id)
    requires id in s.table && s.table[id].job.status == Pending
    requires s.table[id].job.nextRunAt.Some? ==> s.table[id].job.nextRunAt.value <= s.clock
    ensures ByItself(c, s, w, moves, t)
    ensures Over(c, s.(pending := s.pending - {id}), t, w, id, s.table[id].job, o, wall)
  {
    var s1, hold;
    moves, s1, hold := ClaimsAlone(c, s, w, id, lease);
    moves, t := EndsAlone(c, s, w, moves, s1, id, hold, s.table[id].job, o, wall);
  }

  lemma ClaimsAlone(c: Settings, s: System, w: WorkerId, id: Id, lease: Time)
    returns (moves: seq<Move>, t: System, hold: Hold)
    requires Live(s, w) && s.procs[w].phase.Idle? && First(s.pending, id)
    requires id in s.table && Ready(s.table[id].job, s.clock)
    ensures ByItself(c, s, w, moves, t) && hold.id == id && hold.started && hold.since == s.clock
    ensures Went(s.(pending := s.pending - {id}), t, w, id, Held(hold), Some(id))
    ensures t.table[id].job == hold.copy == ClaimRow(s.table[id].job, w, lease + c.lease, s.clock)
  {
    var claim := TryClaim(lease, s.clock, s.clock);
    assert ByItself(c, s, w, [], s);
    PopsFirst(s, w, id);
    NextBy(c, s, w, [], s, Pop);
    var s1 := DoPop(s, w);
    ClaimsIt(c, s1, w, id, s.clock, lease, s.clock, s.clock);
    NextBy(c, s, w, [] + [By(w, Pop)], s1, claim);
    var s2 := DoTryClaim(c, s1, w, lease, s.clock, s.clock);
    hold := s2.procs[w].phase.hold;
    Begins(c, s2, w, id, hold);
    NextBy(c, s, w, [] + [By(w, Pop)] + [By(w, claim)], s2, Begin);
    moves, t := [] + [By(w, Pop)] + [By(w, claim)] + [By(w, Begin)], DoBegin(s2, w);
    hold := hold.(started := true);
  }

  /** An entry whose row is not ready is consumed, and nothing else changes. */
  lemma SkipAlone(c: Settings, s: System, w: WorkerId, id: Id, lease: Time) returns (moves: seq<Move>, t: System)
    requires Live(s, w) && s.procs[w].phase.Idle? && First(s.pending, id)
    requires id in s.table && s.table[id].job.status == Pending ==>
               s.table[id].job.nextRunAt.Some? && s.table[id].job.nextRunAt.value > s.clock
    ensures ByItself(c, s, w, moves, t) && t == s.(pending := s.pending - {id})
  {
    var claim := TryClaim(lease, s.clock, s.clock);
    assert ByItself(c, s, w, [], s);
    PopsFirst(s, w, id);
    NextBy(c, s, w, [], s, Pop);
    var s1 := DoPop(s, w);
    NextBy(c, s, w, [] + [By(w, Pop)], s1, claim);
    moves, t := [] + [By(w, Pop)] + [By(w, claim)], DoTryClaim(c, s1, w, lease, s.clock, s.clock);
    assert t.procs == s.procs;
  }

  // ---- crashes and losses ----

  /** Time may pass, a request or a cycle may die between any two of its steps, and Redis may lose or hold anything. */
  lemma Hazards(s: System, p: nat, to: Time, pending: ZSet, scheduled: ZSet)
    ensures p in s.errands ==> CanEnv(s, Abandon(p)) && DoEnv(s, Abandon(p)) == s.(errands := s.errands - {p})
    ensures s.clock <= to ==> CanEnv(s, EnvMove.Pass(to)) && DoEnv(s, EnvMove.Pass(to)) == s.(clock := to)
    ensures CanEnv(s, Corrupt(pending, scheduled))
         && DoEnv(s, Corrupt(pending, scheduled)) == s.(pending := pending, scheduled := scheduled)
    ensures CanEnv(s, Wipe)
         && DoEnv(s, Wipe) == s.(pending := map[], scheduled := map[], dead := [], log := s.log + [Cleared])
  {
  }

  /** A worker can crash at any point, and nothing but its own end happens then. */
  lemma Crashes(c: Settings, s: System, w: WorkerId, to: Time)
    requires Live(s, w) && s.clock <= to
    ensures var t := s.(clock := to, procs := s.procs[w := s.procs[w].(crashedAt := Some(s.clock))]);
            Moves(c, s, [Env(Kill(w)), Env(EnvMove.Pass(to))], t)
  {
    var t, pass := MoveOn(c, s, Env(Kill(w))), Env(EnvMove.Pass(to));
    Single(c, s, Env(Kill(w)));
    Single(c, t, pass);
    MovesJoin(c, s, [Env(Kill(w))], t, [pass], MoveOn(c, t, pass));
  }

  /**
   * A worker that dies wherever it is, and a reaper past the lease of its job: the job is pending again with its
   * attempt counted, unless a batch of leases expired no later.
   */
  lemma CrashAlone(c: Settings, s: System, w: WorkerId, id: Id, to: Time, p: nat, ids: seq<Id>)
    returns (moves: seq<Move>, t: System)
    requires Live(s, w) && id in s.table && OwnedBy(s.table[id].job, w) && s.table[id].job.leasedUntil.Some?
    requires s.clock <= to && s.table[id].job.leasedUntil.value < to && p !in s.errands
    requires TopOf(ids, ExpiredRanks(RowsOf(s), to), c.batch) && |ExpiredBefore(RowsOf(s), to, id)| < c.batch
    ensures Moves(c, s, moves, t) && id in t.table && t.clock == to
    ensures t.table[id].job
         == s.table[id].job.(status := Pending, workerId := None, leasedUntil := None, nextRunAt := None)
    ensures t.procs == s.procs[w := s.procs[w].(crashedAt := Some(s.clock))]
    ensures t.pending == s.pending && t.scheduled == s.scheduled && t.dead == s.dead && t.errands == s.errands
  {
    Crashes(c, s, w, to);
    var late := s.(clock := to, procs := s.procs[w := s.procs[w].(crashedAt := Some(s.clock))]);
    assert RowsOf(late) == RowsOf(s);
    var reaped;
    reaped, t := ReaperAlone(c, late, p, ids);
    FreedInTime(RowsOf(s), to, c.batch, ids, id);
    MovesJoin(c, s, [Env(Kill(w)), Env(EnvMove.Pass(to))], late, reaped, t);
    moves := [Env(Kill(w)), Env(EnvMove.Pass(to))] + reaped;
  }
}
