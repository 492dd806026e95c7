/**
 * Draining the dispatch set as time passes, and the order in which one feeder cycle and one drain claim the ready
 * rows.
 */
module Dispatch {
  import opened Wrappers
  import opened Jobs
  import opened Keys
  import opened Protocol
  import opened Ordering
  import opened Redis
  import opened Database
  import opened Measure
  import opened Feeder
  import opened Executor

  /**
   * How far a drain has come. `at` is when each popped entry met its claim: what was popped came first, and the
   * popped entries whose rows were ready by then were claimed, in that order.
   */
  ghost predicate Drained(pending0: ZSet, rows0: map<Id, Job>, now0: Time, claimed: seq<Id>, at: map<Id, Time>,
                          pending: ZSet, rows: map<Id, Job>) {
    && (forall x :: x in pending ==> x in pending0 && pending[x] == pending0[x])
    && (forall x :: x in at <==> x in pending0 && x !in pending)
    && (forall x, y :: x in at && y in pending ==> Leq(Ranks(pending0)[x], Ranks(pending0)[y]))
    && (forall x :: x in at ==> now0 <= at[x])
    && Distinct(claimed)
    && (forall x :: x in claimed <==> x in at && x in rows0 && Ready(rows0[x], at[x]))
    && Sorted(claimed, Ranks(pending0))
    && rows.Keys == rows0.Keys
    && (forall x :: x in rows && x !in claimed ==> rows[x] == rows0[x])
    && (forall x :: x in claimed ==> rows[x].status in {Completed, Pending, Failed})
  }

  /** The first of what is left ranks no later than the rest of it in the original set too. */
  lemma FirstLeads(pending0: ZSet, pending: ZSet, id: Id)
    requires First(pending, id) && forall x :: x in pending ==> x in pending0 && pending[x] == pending0[x]
    ensures id in pending && forall y :: y in pending ==> Leq(Ranks(pending0)[id], Ranks(pending0)[y])
  {
    assert id in Ranks(pending);
    forall y | y in pending ensures Leq(Ranks(pending0)[id], Ranks(pending0)[y]) {
      assert y in Ranks(pending) && Leq(Ranks(pending)[id], Ranks(pending)[y]);
    }
  }

  lemma PopStale(pending0: ZSet, rows0: map<Id, Job>, now0: Time, claimed: seq<Id>, at: map<Id, Time>,
                 pending: ZSet, rows: map<Id, Job>, id: Id, now: Time)
    requires Drained(pending0, rows0, now0, claimed, at, pending, rows) && First(pending, id) && now0 <= now
    requires !(id in rows && Ready(rows[id], now))
    ensures Drained(pending0, rows0, now0, claimed, at[id := now], pending - {id}, rows)
  {
    FirstLeads(pending0, pending, id);
    assert id !in claimed;
  }

  lemma SortedMore(claimed: seq<Id>, ranks: map<Id, Rank>, id: Id)
    requires (forall x :: x in claimed ==> x in ranks && x != id) && id in ranks
    requires Distinct(claimed) && Sorted(claimed, ranks)
    requires forall x :: x in claimed ==> Leq(ranks[x], ranks[id])
    ensures (forall x :: x in claimed + [id] <==> x in claimed || x == id)
    ensures Distinct(claimed + [id]) && Sorted(claimed + [id], ranks)
  {
    var claimed' := claimed + [id];
    forall i, j | 0 <= i < j < |claimed'|
      ensures Leq(ranks[claimed'[i]], ranks[claimed'[j]]) && claimed'[i] != claimed'[j]
    {
      assert claimed'[i] in claimed;
    }
  }

  lemma PopReady(pending0: ZSet, rows0: map<Id, Job>, now0: Time, claimed: seq<Id>, at: map<Id, Time>,
                 pending: ZSet, rows: map<Id, Job>, id: Id, now: Time, final: Job)
    requires Drained(pending0, rows0, now0, claimed, at, pending, rows) && First(pending, id) && now0 <= now
    requires id in rows && Ready(rows[id], now) && final.status in {Completed, Pending, Failed}
    ensures Drained(pending0, rows0, now0, claimed + [id], at[id := now], pending - {id}, rows[id := final])
  {
    FirstLeads(pending0, pending, id);
    assert id !in claimed;
    SortedMore(claimed, Ranks(pending0), id);
  }

  lemma LeftStatus(c: Settings, row: Job, w: WorkerId, t: Trial)
    ensures Left(c, row, w, t).status in {Completed, Pending, Failed}
  {
  }

  // ---- the steps of a round ----

  lemma QuietMore(run: seq<Action>, a: Action)
    requires AllQuiet(run) && Quiet(a)
    ensures AllQuiet(run + [a])
    ensures ClaimedIds(run + [a]) == ClaimedIds(run) + (if AnyClaim(a) then [a.work.id] else [])
  {
    ClaimedIdsAppend(run, a);
  }

  lemma {:induction false} StepsQuiet(run: seq<Action>, w: WorkerId, during: seq<Moment>)
    requires AllQuiet(run)
    ensures AllQuiet(run + Steps(w, during)) && ClaimedIds(run + Steps(w, during)) == ClaimedIds(run)
  {
    if during == [] {
      assert run + [] == run;
    } else {
      var m, before := during[|during| - 1], during[..|during| - 1];
      StepsQuiet(run, w, before);
      var a := if m.Pass? then World(Tick(m.to)) else Work(w, Progress(m.pct));
      QuietMore(run + Steps(w, before), a);
      assert run + Steps(w, during) == run + Steps(w, before) + [a];
    }
  }

  lemma AttemptClaims(run: seq<Action>, w: WorkerId, id: Id, t: Trial)
    requires AllQuiet(run)
    ensures AllQuiet(run + Attempt(w, id, t)) && ClaimedIds(run + Attempt(w, id, t)) == ClaimedIds(run) + [id]
  {
    var claim := Work(w, Claim(id, t.lease, t.at, t.at));
    var final := Work(w, FinalAction(t.outcome, t.wall, After(t.at, t.during)));
    QuietMore(run, claim);
    QuietMore(run + [claim], Work(w, Start));
    StepsQuiet(run + [claim] + [Work(w, Start)], w, t.during);
    QuietMore(run + [claim] + [Work(w, Start)] + Steps(w, t.during), final);
    AttemptJoins(run, w, id, t);
  }

  lemma RoundClaims(run: seq<Action>, w: WorkerId, r: Round)
    requires AllQuiet(run) && !r.Empty?
    ensures AllQuiet(run + RoundSteps(w, r))
    ensures ClaimedIds(run + RoundSteps(w, r)) == ClaimedIds(run) + (if r.Attempted? then [r.id] else [])
  {
    var ticked := run + [World(Tick(At(r)))];
    QuietMore(run, World(Tick(At(r))));
    if r.Attempted? {
      AttemptClaims(ticked, w, r.id, r.trial);
      assert run + RoundSteps(w, r) == ticked + Attempt(w, r.id, r.trial);
    } else {
      assert run + RoundSteps(w, r) == ticked;
    }
  }

  // ---- a drain as a sequence of rounds ----

  datatype Shift = Shift(c: Settings, w: WorkerId)

  /** What is left to pop, the table, the time, the jobs claimed so far, when each entry was popped, the steps taken. */
  datatype Front = Front(
    pending: ZSet,
    rows: map<Id, Job>,
    now: Time,
    claimed: seq<Id>,
    at: map<Id, Time>,
    run: seq<Action>)

  function Play(d: Shift, f: Front, r: Round): Front {
    if r.Empty? then f
    else if r.Attempted? && r.id in f.rows then
      Front(f.pending - {r.id}, f.rows[r.id := Left(d.c, f.rows[r.id], d.w, r.trial)],
            After(r.trial.at, r.trial.during), f.claimed + [r.id], f.at[r.id := At(r)], f.run + RoundSteps(d.w, r))
    else f.(pending := f.pending - {r.id}, now := At(r), at := f.at[r.id := At(r)], run := f.run + RoundSteps(d.w, r))
  }

  function PlayAll(d: Shift, f: Front, rounds: seq<Round>): Front {
    if rounds == [] then f else Play(d, PlayAll(d, f, rounds[..|rounds| - 1]), rounds[|rounds| - 1])
  }

  /** A round, some time later, consumes the first entry and attempts it exactly when its row is ready by then. */
  predicate LegalRound(f: Front, r: Round) {
    && !r.Empty? && First(f.pending, r.id) && f.now <= At(r)
    && (r.Attempted? <==> r.id in f.rows && Ready(f.rows[r.id], At(r)))
    && (r.Attempted? ==> At(r) <= After(r.trial.at, r.trial.during))
  }

  predicate Legal(d: Shift, f: Front, rounds: seq<Round>) {
    rounds != [] ==>
      && Legal(d, f, rounds[..|rounds| - 1])
      && LegalRound(PlayAll(d, f, rounds[..|rounds| - 1]), rounds[|rounds| - 1])
  }

  ghost predicate Standing(f0: Front, f: Front) {
    f0.now <= f.now && Drained(f0.pending, f0.rows, f0.now, f.claimed, f.at, f.pending, f.rows)
  }

  ghost predicate Accounted(f0: Front, f: Front) {
    Standing(f0, f) && AllQuiet(f.run) && ClaimedIds(f.run) == f.claimed
  }

  lemma RoundReady(d: Shift, f0: Front, f: Front, r: Round)
    requires Standing(f0, f) && LegalRound(f, r) && r.Attempted?
    ensures Standing(f0, Play(d, f, r))
  {
    var final := Left(d.c, f.rows[r.id], d.w, r.trial);
    LeftStatus(d.c, f.rows[r.id], d.w, r.trial);
    PopReady(f0.pending, f0.rows, f0.now, f.claimed, f.at, f.pending, f.rows, r.id, At(r), final);
  }

  lemma RoundStale(d: Shift, f0: Front, f: Front, r: Round)
    requires Standing(f0, f) && LegalRound(f, r) && !r.Attempted?
    ensures Standing(f0, Play(d, f, r))
  {
    PopStale(f0.pending, f0.rows, f0.now, f.claimed, f.at, f.pending, f.rows, r.id, At(r));
  }

  lemma RoundAccounted(d: Shift, f0: Front, f: Front, r: Round)
    requires Accounted(f0, f) && LegalRound(f, r)
    ensures Accounted(f0, Play(d, f, r))
  {
    if r.Attempted? {
      RoundReady(d, f0, f, r);
    } else {
      RoundStale(d, f0, f, r);
    }
    RoundClaims(f.run, d.w, r);
  }

  /** Legal rounds claim what is ready by its time among what they pop, in order, and touch no other row. */
  lemma {:induction false} RoundsAccounted(d: Shift, f0: Front, rounds: seq<Round>)
    requires Legal(d, f0, rounds) && f0.claimed == [] && f0.at == map[] && f0.run == []
    ensures Accounted(f0, PlayAll(d, f0, rounds))
  {
    if rounds != [] {
      var before := rounds[..|rounds| - 1];
      RoundsAccounted(d, f0, before);
      RoundAccounted(d, f0, PlayAll(d, f0, before), rounds[|rounds| - 1]);
    }
  }

  /** An entry still to pop has not been claimed. */
  lemma Untouched(f0: Front, f: Front, id: Id)
    requires Standing(f0, f) && id in f.pending
    ensures id !in f.claimed && (id in f.rows <==> id in f0.rows) && (id in f.rows ==> f.rows[id] == f0.rows[id])
  {
  }

  /**
   * Over a whole drain each attempt leaves of the row it found exactly what its outcome says, and nothing that
   * follows touches that row.
   */
  lemma {:induction false} RoundsEnd(d: Shift, f0: Front, rounds: seq<Round>, i: nat)
    requires Legal(d, f0, rounds) && f0.claimed == [] && f0.at == map[] && f0.run == []
    requires i < |rounds| && rounds[i].Attempted?
    ensures var r := rounds[i];
            && r.id in f0.rows && r.id in PlayAll(d, f0, rounds).rows && r.id !in PlayAll(d, f0, rounds).pending
            && Ended(d.c, f0.rows[r.id], PlayAll(d, f0, rounds).rows[r.id], d.w, r.trial.outcome, r.trial.at,
                     r.trial.wall)
  {
    var before, last := rounds[..|rounds| - 1], rounds[|rounds| - 1];
    var f := PlayAll(d, f0, before);
    RoundsAccounted(d, f0, before);
    assert last.id in Ranks(f.pending);
    if i == |before| {
      Untouched(f0, f, last.id);
      EndedBy(d.c, f.rows[last.id], d.w, last.trial);
    } else {
      assert before[i] == rounds[i];
      RoundsEnd(d, f0, before, i);
    }
  }

  /** The database and Redis stand where a drain that began with trace `base` has come. */
  ghost predicate Reached(store: Store, queue: QueueClient, base: seq<Action>, f: Front)
    reads store, queue
  {
    && queue.pending == f.pending && store.rows == f.rows && store.clock == f.now
    && store.trace == base + f.run
  }

  lemma PlayIs(d: Shift, f: Front, r: Round, base: seq<Action>)
    requires LegalRound(f, r)
    ensures Play(d, f, r).pending == f.pending - {r.id}
    ensures Play(d, f, r).rows
         == if r.Attempted? then f.rows[r.id := Left(d.c, f.rows[r.id], d.w, r.trial)] else f.rows
    ensures Play(d, f, r).now == if r.Attempted? then After(r.trial.at, r.trial.during) else At(r)
    ensures base + Play(d, f, r).run == base + f.run + RoundSteps(d.w, r)
  {
  }

  /** A round of the executor is a legal round, unless the set was empty. */
  method PlayRound(store: Store, queue: QueueClient, holder: LeaseHolder, w: WorkerId, ghost base: seq<Action>,
                   ghost f: Front)
    returns (more: bool, ghost round: Round)
    requires store.Valid() && store.Idle(w) && Reached(store, queue, base, f)
    modifies store`rows, store`clock, store`sessions, store`model, store`trace, queue`pending, queue`dead, holder
    ensures store.Valid() && store.Idle(w) && store.model.workers == old(store.model.workers)
    ensures store.sessions == old(store.sessions)
    ensures !more ==> f.pending == map[] && Reached(store, queue, base, f)
    ensures more ==> LegalRound(f, round) && Reached(store, queue, base, Play(Shift(store.c, w), f, round))
    ensures more ==> |queue.pending| < |f.pending|
  {
    var o: Outcome := *;
    more, round := ProcessOne(store, queue, holder, w, o);
    if more {
      FewerLeft(f.pending, round.id);
      PlayIs(Shift(store.c, w), f, round, base);
    }
  }

  /** The executor's loop until the dispatch set is empty. */
  method Drain(store: Store, queue: QueueClient, holder: LeaseHolder, w: WorkerId)
    returns (ghost rounds: seq<Round>)
    requires store.Valid() && store.Idle(w)
    modifies store`rows, store`clock, store`sessions, store`model, store`trace, queue`pending, queue`dead, holder
    ensures store.Valid() && store.Idle(w) && store.model.workers == old(store.model.workers)
    ensures store.sessions == old(store.sessions) && queue.pending == map[]
    ensures var d := Shift(store.c, w);
            var f0 := old(Front(queue.pending, store.rows, store.clock, [], map[], []));
            Legal(d, f0, rounds) && Reached(store, queue, old(store.trace), PlayAll(d, f0, rounds))
  {
    ghost var d := Shift(store.c, w);
    ghost var f0 := Front(queue.pending, store.rows, store.clock, [], map[], []);
    ghost var f := f0;
    rounds := [];
    var more := true;
    while more
      invariant store.Valid() && store.Idle(w) && store.model.workers == old(store.model.workers)
      invariant store.sessions == old(store.sessions)
      invariant Legal(d, f0, rounds) && f == PlayAll(d, f0, rounds) && Reached(store, queue, old(store.trace), f)
      invariant !more ==> f.pending == map[]
      decreases more, |f.pending|
    {
      ghost var round;
      more, round := PlayRound(store, queue, holder, w, old(store.trace), f);
      if more {
        assert (rounds + [round])[..|rounds|] == rounds;
        rounds, f := rounds + [round], Play(d, f, round);
      }
    }
  }

  lemma FewerLeft(z: ZSet, id: Id)
    requires First(z, id)
    ensures |z - {id}| < |z|
  {
    assert id in Ranks(z);
    assert (z - {id}).Keys == z.Keys - {id};
  }

  // ---- dispatch order ----

  predicate ReadyIn(rows: map<Id, Job>, now: Time, id: Id) {
    id in rows && Ready(rows[id], now)
  }

  /** Entries of ready rows carry the score of their row; stale entries may carry anything. */
  predicate ScoresAgree(pending: ZSet, rows: map<Id, Job>, now: Time) {
    forall id :: id in pending && ReadyIn(rows, now, id) ==> pending[id] == JobScore(rows[id])
  }

  /** The ready rows were created less than 10^12 milliseconds apart. */
  ghost predicate Contemporary(rows: map<Id, Job>, now: Time) {
    forall x, y :: ReadyIn(rows, now, x) && ReadyIn(rows, now, y)
      ==> Millis(rows[x].createdAt) - Millis(rows[y].createdAt) < 1_000_000_000_000
  }

  /** `x` may go before `y`: its priority is higher, or equal and it is no younger to the millisecond. */
  predicate MayPrecede(x: Job, y: Job) {
    x.priority > y.priority || (x.priority == y.priority && Millis(x.createdAt) <= Millis(y.createdAt))
  }

  /**
   * The first `limit` claims are the best rows ready at `now`: each of them is ready then and best of those not yet
   * taken, and if there are fewer claims, every row ready then is among them.
   */
  ghost predicate TopFirst(claimed: seq<Id>, rows: map<Id, Job>, now: Time, limit: nat) {
    && (forall i :: 0 <= i < |claimed| && i < limit ==> ReadyIn(rows, now, claimed[i]))
    && (forall i, y :: 0 <= i < |claimed| && i < limit && ReadyIn(rows, now, y) && y !in claimed[..i]
          ==> MayPrecede(rows[claimed[i]], rows[y]))
    && (|claimed| >= limit || forall y :: ReadyIn(rows, now, y) ==> y in claimed)
  }

  /** An entry whose waiting time ended between the feeder's look at the table and its own pop. */
  predicate Late(rows: map<Id, Job>, now: Time, at: map<Id, Time>, id: Id) {
    && id in at && id in rows && rows[id].status == Pending
    && rows[id].nextRunAt.Some? && now < rows[id].nextRunAt.value <= at[id]
  }

  /** Entries of rows ready at `now` that come before an entry. */
  function Ahead(fed: ZSet, rows: map<Id, Job>, now: Time, id: Id): set<Id>
    requires id in fed
  {
    set x | x in fed && x != id && ReadyIn(rows, now, x) && Leq(Ranks(fed)[x], Ranks(fed)[id])
  }

  lemma ScoreMeansPrecede(x: Job, y: Job)
    requires -1_000_000_000_000 < Millis(x.createdAt) - Millis(y.createdAt) < 1_000_000_000_000
    ensures JobScore(x) <= JobScore(y) <==> MayPrecede(x, y)
  {
    ScoreRefines(x.priority, x.createdAt, y.priority, y.createdAt);
    ScoreRefines(y.priority, y.createdAt, x.priority, x.createdAt);
  }

  /** A full selection has a member outside any shorter list. */
  lemma Leftover(ids: seq<Id>, taken: seq<Id>) returns (t: Id)
    requires Distinct(ids) && Distinct(taken) && |taken| < |ids|
    ensures t in ids && t !in taken
  {
    Cardinality(ids);
    Cardinality(taken);
    if Elems(ids) <= Elems(taken) { Smaller(Elems(ids), Elems(taken)); }
    t :| t in Elems(ids) && t !in Elems(taken);
  }

  lemma FedScore(pending0: ZSet, rows: map<Id, Job>, now: Time, ids: seq<Id>, x: Id)
    requires (forall id :: id in ids ==> id in rows) && ScoresAgree(pending0, rows, now)
    requires x in Fed(pending0, rows, ids) && ReadyIn(rows, now, x)
    ensures Fed(pending0, rows, ids)[x] == JobScore(rows[x])
  {
  }

  /** What a drain of the whole set claims at `i` came no later than any entry claimed only after it. */
  lemma DrainOrder(fed: ZSet, rows: map<Id, Job>, now: Time, claimed: seq<Id>, at: map<Id, Time>,
                   rows': map<Id, Job>, i: nat, y: Id)
    requires Drained(fed, rows, now, claimed, at, map[], rows')
    requires i < |claimed| && y in fed && ReadyIn(rows, now, y) && y !in claimed[..i]
    ensures y in claimed && claimed[i] in fed && fed[claimed[i]] <= fed[y]
  {
    assert y in at && y in claimed && claimed[i] in claimed;
    var j :| 0 <= j < |claimed| && claimed[j] == y;
    assert forall k :: 0 <= k < i ==> claimed[k] in claimed[..i];
    assert Leq(Ranks(fed)[claimed[i]], Ranks(fed)[y]);
  }

  /** Claims between two fed and ready rows follow their rows' order. */
  lemma FedOrder(pending0: ZSet, rows: map<Id, Job>, now: Time, ids: seq<Id>, claimed: seq<Id>, at: map<Id, Time>,
                 rows': map<Id, Job>, i: nat, y: Id)
    requires (forall id :: id in ids ==> ReadyIn(rows, now, id))
    requires ScoresAgree(pending0, rows, now) && Contemporary(rows, now)
    requires Drained(Fed(pending0, rows, ids), rows, now, claimed, at, map[], rows')
    requires i < |claimed| && ReadyIn(rows, now, claimed[i])
    requires y in Fed(pending0, rows, ids) && ReadyIn(rows, now, y) && y !in claimed[..i]
    ensures MayPrecede(rows[claimed[i]], rows[y])
  {
    DrainOrder(Fed(pending0, rows, ids), rows, now, claimed, at, rows', i, y);
    FedScore(pending0, rows, now, ids, claimed[i]);
    FedScore(pending0, rows, now, ids, y);
    ScoreMeansPrecede(rows[claimed[i]], rows[y]);
  }

  lemma PrecedeThrough(x: Job, y: Job, z: Job)
    requires MayPrecede(x, y) && MayPrecede(y, z)
    ensures MayPrecede(x, z)
  {
  }

  /** When the answer leaves out a ready row, it has a row not yet taken that may go before that one. */
  lemma PassedOver(rows: map<Id, Job>, now: Time, limit: nat, ids: seq<Id>, taken: seq<Id>, y: Id) returns (t: Id)
    requires TopOf(ids, ReadyRanks(rows, now), limit) && ReadyIn(rows, now, y) && y !in ids
    requires Distinct(taken) && |taken| < limit
    ensures t in ids && t !in taken && t in rows && MayPrecede(rows[t], rows[y])
  {
    var ranks := ReadyRanks(rows, now);
    assert y in ranks;
    LeftOut(ids, ranks, limit, y);
    t := Leftover(ids, taken);
    assert Leq(ranks[t], ranks[y]);
  }

  lemma OfferedIsFed(pending0: ZSet, rows: map<Id, Job>, ids: seq<Id>)
    requires forall id :: id in ids ==> id in rows
    ensures forall id :: id in ids ==> id in Fed(pending0, rows, ids)
  {
  }

  lemma DistinctFront(claimed: seq<Id>, i: nat)
    requires Distinct(claimed) && i <= |claimed|
    ensures Distinct(claimed[..i])
  {
  }

  lemma UnfedOrder(pending0: ZSet, rows: map<Id, Job>, now: Time, limit: nat, ids: seq<Id>, claimed: seq<Id>,
                   at: map<Id, Time>, rows': map<Id, Job>, i: nat, y: Id)
    requires TopOf(ids, ReadyRanks(rows, now), limit) && (forall id :: id in ids ==> ReadyIn(rows, now, id))
    requires ScoresAgree(pending0, rows, now) && Contemporary(rows, now)
    requires Drained(Fed(pending0, rows, ids), rows, now, claimed, at, map[], rows')
    requires i < |claimed| && i < limit && ReadyIn(rows, now, claimed[i])
    requires ReadyIn(rows, now, y) && y !in Fed(pending0, rows, ids)
    ensures MayPrecede(rows[claimed[i]], rows[y])
  {
    OfferedIsFed(pending0, rows, ids);
    DistinctFront(claimed, i);
    var t := PassedOver(rows, now, limit, ids, claimed[..i], y);
    FedOrder(pending0, rows, now, ids, claimed, at, rows', i, t);
    PrecedeThrough(rows[claimed[i]], rows[t], rows[y]);
  }

  /** What the feeder offered is claimed. */
  lemma FedClaimed(pending0: ZSet, rows: map<Id, Job>, now: Time, ids: seq<Id>, claimed: seq<Id>, at: map<Id, Time>,
                   rows': map<Id, Job>, t: Id)
    requires (forall id :: id in ids ==> id in rows && ReadyIn(rows, now, id)) && t in ids
    requires Drained(Fed(pending0, rows, ids), rows, now, claimed, at, map[], rows')
    ensures t in claimed
  {
    assert t in Fed(pending0, rows, ids) && t in at;
  }

  /** A drain that claims fewer than the limit has claimed every row that was ready when the feeder looked. */
  lemma AllClaimed(pending0: ZSet, rows: map<Id, Job>, now: Time, limit: nat, ids: seq<Id>, claimed: seq<Id>,
                   at: map<Id, Time>, rows': map<Id, Job>)
    requires TopOf(ids, ReadyRanks(rows, now), limit) && (forall id :: id in ids ==> ReadyIn(rows, now, id))
    requires Drained(Fed(pending0, rows, ids), rows, now, claimed, at, map[], rows') && |claimed| < limit
    ensures forall y :: ReadyIn(rows, now, y) ==> y in claimed
  {
    forall t | t in Elems(ids) ensures t in Elems(claimed) {
      FedClaimed(pending0, rows, now, ids, claimed, at, rows', t);
    }
    Cardinality(ids);
    Cardinality(claimed);
    Smaller(Elems(ids), Elems(claimed));
    forall y | ReadyIn(rows, now, y) ensures y in claimed {
      assert y in ReadyRanks(rows, now);
      if y !in ids { LeftOut(ids, ReadyRanks(rows, now), limit, y); }
      assert y in Elems(ids);
    }
  }

  lemma StrictOrder(fed: ZSet, claimed: seq<Id>, i: nat, j: nat)
    requires (forall x :: x in claimed ==> x in fed) && Sorted(claimed, Ranks(fed)) && i < |claimed| && j < |claimed|
    requires claimed[i] != claimed[j] && Leq(Ranks(fed)[claimed[j]], Ranks(fed)[claimed[i]])
    ensures j < i
  {
  }

  /** What is ahead of an entry is claimed before it. */
  lemma AheadClaimed(fed: ZSet, rows: map<Id, Job>, now: Time, claimed: seq<Id>, at: map<Id, Time>,
                     rows': map<Id, Job>, i: nat)
    requires Drained(fed, rows, now, claimed, at, map[], rows') && i < |claimed| && claimed[i] in fed
    ensures |Ahead(fed, rows, now, claimed[i])| <= i
  {
    forall x | x in Ahead(fed, rows, now, claimed[i]) ensures x in Elems(claimed[..i]) {
      assert x in at && x in claimed;
      var j :| 0 <= j < |claimed| && claimed[j] == x;
      StrictOrder(fed, claimed, i, j);
      assert claimed[..i][j] == x;
    }
    Cardinality(claimed[..i]);
    Smaller(Ahead(fed, rows, now, claimed[i]), Elems(claimed[..i]));
  }

  /** And what was claimed before it, if ready when the feeder looked, is ahead of it. */
  lemma ClaimedAhead(fed: ZSet, rows: map<Id, Job>, now: Time, claimed: seq<Id>, at: map<Id, Time>,
                     rows': map<Id, Job>, i: nat, limit: nat)
    requires Drained(fed, rows, now, claimed, at, map[], rows') && limit <= i < |claimed| && claimed[i] in fed
    requires forall k :: 0 <= k < limit ==> ReadyIn(rows, now, claimed[k])
    ensures |Ahead(fed, rows, now, claimed[i])| >= limit
  {
    forall x | x in Elems(claimed[..limit]) ensures x in Ahead(fed, rows, now, claimed[i]) {
      var k :| 0 <= k < limit && claimed[..limit][k] == x;
      assert claimed[k] == x && x in claimed && Leq(Ranks(fed)[claimed[k]], Ranks(fed)[claimed[i]]);
    }
    Cardinality(claimed[..limit]);
    Smaller(Elems(claimed[..limit]), Ahead(fed, rows, now, claimed[i]));
  }

  lemma LateIs(fed: ZSet, rows: map<Id, Job>, now: Time, claimed: seq<Id>, at: map<Id, Time>, rows': map<Id, Job>,
               id: Id)
    requires Drained(fed, rows, now, claimed, at, map[], rows')
    ensures Late(rows, now, at, id) <==> id in claimed && !ReadyIn(rows, now, id)
    ensures id in claimed ==> id in fed
  {
    if id in claimed { assert id in at && Ready(rows[id], at[id]); }
  }

  /** Every late entry waits behind at least `limit` entries that were ready in time. */
  predicate LateBehind(fed: ZSet, rows: map<Id, Job>, now: Time, at: map<Id, Time>, limit: nat) {
    forall id :: id in fed && Late(rows, now, at, id) ==> |Ahead(fed, rows, now, id)| >= limit
  }

  lemma TopFirstIf(pending0: ZSet, rows: map<Id, Job>, now: Time, limit: nat, ids: seq<Id>, claimed: seq<Id>,
                   at: map<Id, Time>, rows': map<Id, Job>)
    requires TopOf(ids, ReadyRanks(rows, now), limit) && (forall id :: id in ids ==> ReadyIn(rows, now, id))
    requires ScoresAgree(pending0, rows, now) && Contemporary(rows, now)
    requires Drained(Fed(pending0, rows, ids), rows, now, claimed, at, map[], rows')
    requires LateBehind(Fed(pending0, rows, ids), rows, now, at, limit)
    ensures TopFirst(claimed, rows, now, limit)
  {
    var fed := Fed(pending0, rows, ids);
    forall i | 0 <= i < |claimed| && i < limit ensures ReadyIn(rows, now, claimed[i]) {
      LateIs(fed, rows, now, claimed, at, rows', claimed[i]);
      assert claimed[i] in claimed;
      AheadClaimed(fed, rows, now, claimed, at, rows', i);
    }
    forall i, y | 0 <= i < |claimed| && i < limit && ReadyIn(rows, now, y) && y !in claimed[..i]
      ensures MayPrecede(rows[claimed[i]], rows[y])
    {
      if y in fed {
        FedOrder(pending0, rows, now, ids, claimed, at, rows', i, y);
      } else {
        UnfedOrder(pending0, rows, now, limit, ids, claimed, at, rows', i, y);
      }
    }
    if |claimed| < limit { AllClaimed(pending0, rows, now, limit, ids, claimed, at, rows'); }
  }

  lemma TopFirstOnlyIf(fed: ZSet, rows: map<Id, Job>, now: Time, limit: nat, claimed: seq<Id>, at: map<Id, Time>,
                       rows': map<Id, Job>)
    requires Drained(fed, rows, now, claimed, at, map[], rows') && TopFirst(claimed, rows, now, limit)
    ensures LateBehind(fed, rows, now, at, limit)
  {
    forall id | id in fed && Late(rows, now, at, id) ensures |Ahead(fed, rows, now, id)| >= limit {
      LateIs(fed, rows, now, claimed, at, rows', id);
      var i :| 0 <= i < |claimed| && claimed[i] == id;
      ClaimedAhead(fed, rows, now, claimed, at, rows', i, limit);
    }
  }

  lemma InScoreOrder(fed: ZSet, rows: map<Id, Job>, now: Time, claimed: seq<Id>, at: map<Id, Time>, rows': map<Id, Job>)
    requires Drained(fed, rows, now, claimed, at, map[], rows')
    ensures forall i, j :: 0 <= i < j < |claimed| ==>
              claimed[i] in fed && claimed[j] in fed && fed[claimed[i]] <= fed[claimed[j]]
  {
    forall i, j | 0 <= i < j < |claimed|
      ensures claimed[i] in fed && claimed[j] in fed && fed[claimed[i]] <= fed[claimed[j]]
    {
      assert claimed[i] in claimed && claimed[j] in claimed && Leq(Ranks(fed)[claimed[i]], Ranks(fed)[claimed[j]]);
    }
  }

  /**
   * One drain, at any times of its pops: claims are always in score order, and the first `limit` are the best rows of
   * the feeder's instant exactly when every entry that became ready between that instant and its pop has at least
   * `limit` of them ahead of it.
   */
  lemma OneDrainExactly(pending0: ZSet, rows: map<Id, Job>, now: Time, limit: nat, ids: seq<Id>, claimed: seq<Id>,
                        at: map<Id, Time>, rows': map<Id, Job>)
    requires TopOf(ids, ReadyRanks(rows, now), limit) && (forall id :: id in ids ==> ReadyIn(rows, now, id))
    requires ScoresAgree(pending0, rows, now) && Contemporary(rows, now)
    requires Drained(Fed(pending0, rows, ids), rows, now, claimed, at, map[], rows')
    ensures forall i, j :: 0 <= i < j < |claimed| ==>
              var fed := Fed(pending0, rows, ids);
              claimed[i] in fed && claimed[j] in fed && fed[claimed[i]] <= fed[claimed[j]]
    ensures TopFirst(claimed, rows, now, limit) <==> LateBehind(Fed(pending0, rows, ids), rows, now, at, limit)
  {
    var fed := Fed(pending0, rows, ids);
    InScoreOrder(fed, rows, now, claimed, at, rows');
    if LateBehind(fed, rows, now, at, limit) {
      TopFirstIf(pending0, rows, now, limit, ids, claimed, at, rows');
    } else if TopFirst(claimed, rows, now, limit) {
      TopFirstOnlyIf(fed, rows, now, limit, claimed, at, rows');
    }
  }

  // ---- all drains of a fed set ----

  function Outset(fed: ZSet, rows: map<Id, Job>, now: Time): Front {
    Front(fed, rows, now, [], map[], [])
  }

  /** These rounds, each at its own time, drain the set. */
  predicate Drains(d: Shift, fed: ZSet, rows: map<Id, Job>, now: Time, rounds: seq<Round>) {
    Legal(d, Outset(fed, rows, now), rounds) && PlayAll(d, Outset(fed, rows, now), rounds).pending == map[]
  }

  /** Whatever the pop times and the outcomes, the first `limit` claims are the best rows of the feeder's instant. */
  ghost predicate AlwaysTopFirst(d: Shift, fed: ZSet, rows: map<Id, Job>, now: Time, limit: nat) {
    forall rounds :: Drains(d, fed, rows, now, rounds) ==>
      TopFirst(PlayAll(d, Outset(fed, rows, now), rounds).claimed, rows, now, limit)
  }

  /** A pending row whose waiting time is not over. */
  predicate Waits(rows: map<Id, Job>, now: Time, id: Id) {
    id in rows && rows[id].status == Pending && rows[id].nextRunAt.Some? && now < rows[id].nextRunAt.value
  }

  /** Every entry of a waiting row has at least `limit` entries of ready rows ahead of it. */
  predicate WaitersBehind(fed: ZSet, rows: map<Id, Job>, now: Time, limit: nat) {
    forall id :: id in fed && Waits(rows, now, id) ==> |Ahead(fed, rows, now, id)| >= limit
  }

  /** A round at a given time that loses no further time. */
  function Instant(f: Front, id: Id, to: Time): Round {
    if id in f.rows && Ready(f.rows[id], to) then Attempted(id, Trial(to, to, [], TimedOut, to)) else Skipped(id, to)
  }

  /** Every front can be drained at one later instant. */
  lemma {:induction false} DrainAt(d: Shift, f0: Front, before: seq<Round>, to: Time) returns (rounds: seq<Round>)
    requires Legal(d, f0, before) && PlayAll(d, f0, before).now <= to
    requires forall x :: x in PlayAll(d, f0, before).at ==> PlayAll(d, f0, before).at[x] == to
    ensures Legal(d, f0, rounds) && PlayAll(d, f0, rounds).pending == map[]
    ensures forall x :: x in PlayAll(d, f0, rounds).at ==> PlayAll(d, f0, rounds).at[x] == to
    decreases |PlayAll(d, f0, before).pending|
  {
    var f := PlayAll(d, f0, before);
    if f.pending == map[] {
      rounds := before;
    } else {
      assert Ranks(f.pending).Keys == f.pending.Keys;
      LeastExists(Ranks(f.pending));
      var id :| Least(Ranks(f.pending), id);
      var r := Instant(f, id, to);
      FewerLeft(f.pending, id);
      InstantIsLegal(d, f, id, to);
      assert (before + [r])[..|before|] == before;
      rounds := DrainAt(d, f0, before + [r], to);
    }
  }

  lemma InstantIsLegal(d: Shift, f: Front, id: Id, to: Time)
    requires First(f.pending, id) && f.now <= to && forall x :: x in f.at ==> f.at[x] == to
    ensures LegalRound(f, Instant(f, id, to))
    ensures var g := Play(d, f, Instant(f, id, to));
            g.now == to && g.pending == f.pending - {id} && forall x :: x in g.at ==> g.at[x] == to
  {
  }

  lemma AllDrainsIf(d: Shift, pending0: ZSet, rows: map<Id, Job>, now: Time, limit: nat, ids: seq<Id>,
                    rounds: seq<Round>)
    requires TopOf(ids, ReadyRanks(rows, now), limit) && (forall id :: id in ids ==> ReadyIn(rows, now, id))
    requires ScoresAgree(pending0, rows, now) && Contemporary(rows, now)
    requires WaitersBehind(Fed(pending0, rows, ids), rows, now, limit)
    requires Drains(d, Fed(pending0, rows, ids), rows, now, rounds)
    ensures TopFirst(PlayAll(d, Outset(Fed(pending0, rows, ids), rows, now), rounds).claimed, rows, now, limit)
  {
    var fed := Fed(pending0, rows, ids);
    var f := PlayAll(d, Outset(fed, rows, now), rounds);
    RoundsAccounted(d, Outset(fed, rows, now), rounds);
    LateWaited(fed, rows, now, f.at, limit);
    OneDrainExactly(pending0, rows, now, limit, ids, f.claimed, f.at, f.rows);
  }

  /** A late entry was of a waiting row. */
  lemma LateWaited(fed: ZSet, rows: map<Id, Job>, now: Time, at: map<Id, Time>, limit: nat)
    requires WaitersBehind(fed, rows, now, limit)
    ensures LateBehind(fed, rows, now, at, limit)
  {
  }

  /** The drain at the instant a waiting row becomes ready lets it overtake. */
  lemma AllDrainsOnlyIf(d: Shift, pending0: ZSet, rows: map<Id, Job>, now: Time, limit: nat, ids: seq<Id>, id: Id)
    requires TopOf(ids, ReadyRanks(rows, now), limit) && (forall id :: id in ids ==> ReadyIn(rows, now, id))
    requires ScoresAgree(pending0, rows, now) && Contemporary(rows, now)
    requires id in Fed(pending0, rows, ids) && Waits(rows, now, id)
    requires |Ahead(Fed(pending0, rows, ids), rows, now, id)| < limit
    ensures !AlwaysTopFirst(d, Fed(pending0, rows, ids), rows, now, limit)
  {
    var fed := Fed(pending0, rows, ids);
    var rounds := DrainAt(d, Outset(fed, rows, now), [], rows[id].nextRunAt.value);
    var f := PlayAll(d, Outset(fed, rows, now), rounds);
    RoundsAccounted(d, Outset(fed, rows, now), rounds);
    OneDrainExactly(pending0, rows, now, limit, ids, f.claimed, f.at, f.rows);
    assert id in f.at && Late(rows, now, f.at, id);
    assert Drains(d, fed, rows, now, rounds);
  }

  /**
   * Dispatch order refines database order, whatever stale entries the dispatch set holds: all drains of the fed set,
   * at any pop times and with any outcomes, claim the best rows of the feeder's instant first exactly when every
   * entry of a row still waiting at that instant has at least `limit` entries of ready rows ahead of it.
   */
  lemma DispatchOrder(d: Shift, pending0: ZSet, rows: map<Id, Job>, now: Time, limit: nat, ids: seq<Id>)
    requires TopOf(ids, ReadyRanks(rows, now), limit) && (forall id :: id in ids ==> ReadyIn(rows, now, id))
    requires ScoresAgree(pending0, rows, now) && Contemporary(rows, now)
    ensures AlwaysTopFirst(d, Fed(pending0, rows, ids), rows, now, limit)
       <==> WaitersBehind(Fed(pending0, rows, ids), rows, now, limit)
  {
    var fed := Fed(pending0, rows, ids);
    if WaitersBehind(fed, rows, now, limit) {
      forall rounds | Drains(d, fed, rows, now, rounds)
        ensures TopFirst(PlayAll(d, Outset(fed, rows, now), rounds).claimed, rows, now, limit)
      {
        AllDrainsIf(d, pending0, rows, now, limit, ids, rounds);
      }
    } else {
      var id :| id in fed && Waits(rows, now, id) && |Ahead(fed, rows, now, id)| < limit;
      AllDrainsOnlyIf(d, pending0, rows, now, limit, ids, id);
    }
  }

  /** One feeder cycle and one drain, with no concurrent writer and time passing between and within the rounds. */
  method FeedThenDrain(store: Store, queue: QueueClient, holder: LeaseHolder, w: WorkerId, limit: nat)
    returns (ghost ids: seq<Id>, ghost claimed: seq<Id>, ghost at: map<Id, Time>, ghost run: seq<Action>)
    requires store.Valid() && store.Idle(w)
    modifies store`rows, store`clock, store`sessions, store`model, store`trace, queue`pending, queue`dead, holder
    ensures store.Valid() && store.Idle(w) && store.model.workers == old(store.model.workers)
    ensures store.sessions == old(store.sessions)
    ensures queue.pending == map[] && store.trace == old(store.trace) + run
    ensures AllQuiet(run) && ClaimedIds(run) == claimed
    ensures TopOf(ids, ReadyRanks(old(store.rows), old(store.clock)), limit)
    ensures forall id :: id in ids ==> ReadyIn(old(store.rows), old(store.clock), id)
    ensures Drained(Fed(old(queue.pending), old(store.rows), ids), old(store.rows), old(store.clock), claimed, at,
                    map[], store.rows)
    ensures var rows0, pending0, now0 := old(store.rows), old(queue.pending), old(store.clock);
            var top := TopFirst(claimed, rows0, now0, limit);
            var behind := LateBehind(Fed(pending0, rows0, ids), rows0, now0, at, limit);
            && (ScoresAgree(pending0, rows0, now0) && Contemporary(rows0, now0) ==> (top <==> behind))
            && (WaitersBehind(Fed(pending0, rows0, ids), rows0, now0, limit) ==> behind)
  {
    ghost var rows0, pending0, now0 := store.rows, queue.pending, store.clock;
    var promoted;
    promoted, ids := PromoteReadyJobs(store, queue, limit);
    assert forall id :: id in ids ==> id in ReadyRanks(rows0, now0) && ReadyIn(rows0, now0, id);
    ghost var d := Shift(store.c, w);
    ghost var rounds := Drain(store, queue, holder, w);
    ghost var f0 := Front(Fed(pending0, rows0, ids), rows0, now0, [], map[], []);
    ghost var f := PlayAll(d, f0, rounds);
    RoundsAccounted(d, f0, rounds);
    claimed, at, run := f.claimed, f.at, f.run;
    if ScoresAgree(pending0, rows0, now0) && Contemporary(rows0, now0) {
      OneDrainExactly(pending0, rows0, now0, limit, ids, claimed, at, store.rows);
    }
  }

  /**
   * A waiting entry does overtake: a stale entry of higher priority whose waiting time ends between the feeder's look
   * and the first pop is claimed first, although only the other row was ready when the feeder looked.
   */
  lemma LateEntryOvertakes(d: Shift, low: Job, high: Job)
    returns (rows: map<Id, Job>, pending0: ZSet, ids: seq<Id>, rounds: seq<Round>)
    requires low.status == high.status == Pending && low.nextRunAt.None? && high.nextRunAt == Some(1)
    requires JobScore(high) < JobScore(low)
    ensures rows == map[3 := high, 7 := low] && pending0 == map[3 := JobScore(high)] && ids == [7]
    ensures TopOf(ids, ReadyRanks(rows, 0), 1) && ScoresAgree(pending0, rows, 0) && Contemporary(rows, 0)
    ensures Drains(d, Fed(pending0, rows, ids), rows, 0, rounds)
    ensures var claimed := PlayAll(d, Outset(Fed(pending0, rows, ids), rows, 0), rounds).claimed;
            claimed == [3, 7] && !TopFirst(claimed, rows, 0, 1)
  {
    rows, pending0, ids := map[3 := high, 7 := low], map[3 := JobScore(high)], [7];
    OnlyLowReady(low, high);
    rounds := TwoRounds(d, low, high, rows, Fed(pending0, rows, ids));
    assert [3, 7][0] == 3 && !ReadyIn(rows, 0, 3);
  }

  lemma OnlyLowReady(low: Job, high: Job)
    requires low.status == high.status == Pending && low.nextRunAt.None? && high.nextRunAt == Some(1)
    ensures var rows := map[3 := high, 7 := low];
            var pending0 := map[3 := JobScore(high)];
            && TopOf([7], ReadyRanks(rows, 0), 1) && ScoresAgree(pending0, rows, 0) && Contemporary(rows, 0)
            && Fed(pending0, rows, [7]) == map[3 := JobScore(high), 7 := JobScore(low)]
  {
    var rows := map[3 := high, 7 := low];
    assert ReadyRanks(rows, 0) == map[7 := Rank(-low.priority, low.createdAt)];
    assert Elems([7]) == {7};
  }

  /** At time 1 the entry of the more urgent row is the first, and its row is ready. */
  lemma FirstRound(d: Shift, low: Job, high: Job, f0: Front) returns (f1: Front)
    requires low.status == high.status == Pending && low.nextRunAt.None? && high.nextRunAt == Some(1)
    requires JobScore(high) < JobScore(low)
    requires f0 == Outset(map[3 := JobScore(high), 7 := JobScore(low)], map[3 := high, 7 := low], 0)
    ensures LegalRound(f0, Instant(f0, 3, 1)) && f1 == Play(d, f0, Instant(f0, 3, 1))
    ensures f1.pending == map[7 := JobScore(low)] && f1.claimed == [3] && f1.now == 1 && f1.at == map[3 := 1]
    ensures 7 in f1.rows && f1.rows[7] == low
  {
    assert Ranks(f0.pending) == map[3 := Rank(JobScore(high), 3), 7 := Rank(JobScore(low), 7)];
    InstantIsLegal(d, f0, 3, 1);
    f1 := Play(d, f0, Instant(f0, 3, 1));
    assert f1.pending == map[7 := JobScore(low)];
  }

  lemma SecondRound(d: Shift, low: Job, f1: Front) returns (f2: Front)
    requires low.status == Pending && low.nextRunAt.None? && 7 in f1.rows && f1.rows[7] == low
    requires f1.pending == map[7 := JobScore(low)] && f1.claimed == [3] && f1.now == 1 && f1.at == map[3 := 1]
    ensures LegalRound(f1, Instant(f1, 7, 1)) && f2 == Play(d, f1, Instant(f1, 7, 1))
    ensures f2.pending == map[] && f2.claimed == [3, 7]
  {
    assert Ranks(f1.pending) == map[7 := Rank(JobScore(low), 7)];
    InstantIsLegal(d, f1, 7, 1);
    f2 := Play(d, f1, Instant(f1, 7, 1));
  }

  lemma PlayTwo(d: Shift, f: Front, r: Round, q: Round)
    requires LegalRound(f, r) && LegalRound(Play(d, f, r), q)
    ensures Legal(d, f, [r, q]) && PlayAll(d, f, [r, q]) == Play(d, Play(d, f, r), q)
  {
    assert [r, q][..1] == [r] && [r][..0] == [];
    assert PlayAll(d, f, [r]) == Play(d, f, r) && Legal(d, f, [r]);
  }

  lemma TwoRounds(d: Shift, low: Job, high: Job, rows: map<Id, Job>, fed: ZSet) returns (rounds: seq<Round>)
    requires low.status == high.status == Pending && low.nextRunAt.None? && high.nextRunAt == Some(1)
    requires rows == map[3 := high, 7 := low] && fed == map[3 := JobScore(high), 7 := JobScore(low)]
    requires JobScore(high) < JobScore(low)
    ensures Drains(d, fed, rows, 0, rounds) && PlayAll(d, Outset(fed, rows, 0), rounds).claimed == [3, 7]
  {
    var f0 := Outset(fed, rows, 0);
    var f1 := FirstRound(d, low, high, f0);
    var f2 := SecondRound(d, low, f1);
    rounds := [Instant(f0, 3, 1), Instant(f1, 7, 1)];
    PlayTwo(d, f0, rounds[0], rounds[1]);
  }
}
