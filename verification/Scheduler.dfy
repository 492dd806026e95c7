/** Promotion of due scheduled jobs, from the merged Redis and database candidates. */
module Scheduler {
  import opened Wrappers
  import opened Jobs
  import opened Keys
  import opened Protocol
  import opened Ordering
  import opened Redis
  import opened Database
  import opened Reaper

  /** Rows due at `moment`, earliest first. */
  function DueRanks(rows: map<Id, Job>, moment: Time): map<Id, Rank> {
    map id | id in rows && Due(rows[id], moment) :: Rank(rows[id].scheduledAt.value, 0)
  }

  /** The first occurrence of each id. */
  function Dedupe(s: seq<Id>): (d: seq<Id>)
    ensures Distinct(d) && Elems(d) == Elems(s)
  {
    if s == [] then []
    else
      var d := Dedupe(s[..|s| - 1]);
      assert Elems(s) == Elems(s[..|s| - 1]) + {s[|s| - 1]};
      if s[|s| - 1] in s[..|s| - 1] then
        assert s[|s| - 1] in Elems(s[..|s| - 1]);
        d
      else
        assert s[|s| - 1] !in Elems(d);
        d + [s[|s| - 1]]
  }

  /** The candidates that the database lets through at `now`. */
  function Promotable(rows: map<Id, Job>, ids: seq<Id>, now: Time): set<Id> {
    set id | id in ids && id in rows && Due(rows[id], now)
  }

  function PromoteThose(rows: map<Id, Job>, chosen: set<Id>): map<Id, Job> {
    map id | id in rows :: if id in chosen then PromoteRow(rows[id]) else rows[id]
  }

  function PromoteAll(rows: map<Id, Job>, ids: seq<Id>, now: Time): map<Id, Job> {
    PromoteThose(rows, Promotable(rows, ids, now))
  }

  function EnqueueThose(pending: ZSet, rows: map<Id, Job>, chosen: set<Id>): ZSet
    requires chosen <= rows.Keys
  {
    map id | id in pending.Keys + chosen :: if id in chosen then JobScore(rows[id]) else pending[id]
  }

  function Enqueued(pending: ZSet, rows: map<Id, Job>, ids: seq<Id>, now: Time): ZSet {
    EnqueueThose(pending, rows, Promotable(rows, ids, now))
  }

  lemma OneMorePromoted(rows: map<Id, Job>, chosen: set<Id>, id: Id)
    requires id in rows && id !in chosen
    ensures PromoteThose(rows, chosen + {id}) == PromoteThose(rows, chosen)[id := PromoteRow(rows[id])]
  {
  }

  lemma OneMoreEnqueued(pending: ZSet, rows: map<Id, Job>, chosen: set<Id>, id: Id)
    requires chosen <= rows.Keys && id in rows && id !in chosen
    ensures EnqueueThose(pending, rows, chosen + {id})
         == ZAdd(EnqueueThose(pending, rows, chosen), id, JobScore(rows[id]), false)
  {
  }

  lemma PromotableNext(rows: map<Id, Job>, ids: seq<Id>, id: Id, now: Time)
    requires id !in ids
    ensures id !in Promotable(rows, ids, now)
    ensures Promotable(rows, ids + [id], now)
         == Promotable(rows, ids, now) + (if id in rows && Due(rows[id], now) then {id} else {})
  {
    assert forall x :: x in ids + [id] <==> x in ids || x == id;
  }

  /** What the database and Redis hold once these candidates were handled. */
  datatype Tally = Tally(rows: map<Id, Job>, pending: ZSet, scheduled: ZSet, promoted: nat)

  function Handled(p: Tally, ids: seq<Id>, now: Time): Tally {
    Tally(PromoteAll(p.rows, ids, now), Enqueued(p.pending, p.rows, ids, now), p.scheduled - Elems(ids),
          p.promoted + |Promotable(p.rows, ids, now)|)
  }

  /** The conditional update of one candidate, then its commands. */
  function HandleOne(p: Tally, id: Id, now: Time): Tally {
    if id in p.rows && Due(p.rows[id], now) then
      Tally(p.rows[id := PromoteRow(p.rows[id])], ZAdd(p.pending, id, JobScore(p.rows[id]), false),
            p.scheduled - {id}, p.promoted + 1)
    else p.(scheduled := p.scheduled - {id})
  }

  function HandleAll(p: Tally, ids: seq<Id>, now: Time): Tally {
    if ids == [] then p else HandleOne(HandleAll(p, ids[..|ids| - 1], now), ids[|ids| - 1], now)
  }

  lemma HandleNone(p: Tally, now: Time)
    ensures Handled(p, [], now) == p
  {
    assert Promotable(p.rows, [], now) == {};
    assert PromoteAll(p.rows, [], now) == p.rows;
    assert Enqueued(p.pending, p.rows, [], now) == p.pending;
  }

  /** One by one, distinct candidates come to what the database lets through. */
  lemma {:induction false} HandleAllIs(p: Tally, ids: seq<Id>, now: Time)
    requires Distinct(ids)
    ensures HandleAll(p, ids, now) == Handled(p, ids, now)
  {
    if ids == [] {
      HandleNone(p, now);
    } else {
      var before, id := ids[..|ids| - 1], ids[|ids| - 1];
      assert before + [id] == ids && id !in before;
      HandleAllIs(p, before, now);
      HandleNext(p, before, now, id);
    }
  }

  /** The earlier candidates leave the next one as it was. */
  lemma NextUntouched(rows: map<Id, Job>, ids: seq<Id>, now: Time, id: Id)
    requires id !in ids
    ensures id in PromoteAll(rows, ids, now) <==> id in rows
    ensures id in rows ==> PromoteAll(rows, ids, now)[id] == rows[id]
  {
  }

  lemma HandleNext(p: Tally, ids: seq<Id>, now: Time, id: Id)
    requires id !in ids
    ensures HandleOne(Handled(p, ids, now), id, now) == Handled(p, ids + [id], now)
  {
    var q, r := Handled(p, ids, now), Handled(p, ids + [id], now);
    NextUntouched(p.rows, ids, now, id);
    DroppedNext(p.scheduled, ids, id);
    if id in p.rows && Due(p.rows[id], now) {
      HandleNextDue(p, ids, now, id);
      assert HandleOne(q, id, now).rows == r.rows;
      assert HandleOne(q, id, now).pending == r.pending;
    } else {
      HandleNextStale(p, ids, now, id);
      assert HandleOne(q, id, now).rows == r.rows;
    }
  }

  lemma DroppedNext(scheduled: ZSet, ids: seq<Id>, id: Id)
    ensures scheduled - Elems(ids) - {id} == scheduled - Elems(ids + [id])
  {
    assert Elems(ids + [id]) == Elems(ids) + {id};
  }

  lemma HandleNextDue(p: Tally, ids: seq<Id>, now: Time, id: Id)
    requires id in p.rows && Due(p.rows[id], now) && id !in ids
    ensures |Promotable(p.rows, ids + [id], now)| == |Promotable(p.rows, ids, now)| + 1
    ensures PromoteAll(p.rows, ids + [id], now) == PromoteAll(p.rows, ids, now)[id := PromoteRow(p.rows[id])]
    ensures Enqueued(p.pending, p.rows, ids + [id], now)
         == ZAdd(Enqueued(p.pending, p.rows, ids, now), id, JobScore(p.rows[id]), false)
  {
    PromotableNext(p.rows, ids, id, now);
    OneMorePromoted(p.rows, Promotable(p.rows, ids, now), id);
    OneMoreEnqueued(p.pending, p.rows, Promotable(p.rows, ids, now), id);
  }

  lemma HandleNextStale(p: Tally, ids: seq<Id>, now: Time, id: Id)
    requires !(id in p.rows && Due(p.rows[id], now)) && id !in ids
    ensures |Promotable(p.rows, ids + [id], now)| == |Promotable(p.rows, ids, now)|
    ensures PromoteAll(p.rows, ids + [id], now) == PromoteAll(p.rows, ids, now)
    ensures Enqueued(p.pending, p.rows, ids + [id], now) == Enqueued(p.pending, p.rows, ids, now)
  {
    PromotableNext(p.rows, ids, id, now);
  }

  /** One candidate: the conditional update, then Redis. */
  method PromoteCandidate(store: Store, queue: QueueClient, id: Id, promoted: nat) returns (promoted': nat)
    requires store.Valid()
    modifies store`rows, store`model, store`trace, queue`pending, queue`scheduled
    ensures store.Valid() && store.model.workers == old(store.model.workers)
    ensures OnlyChores(old(store.trace), store.trace)
    ensures Tally(store.rows, queue.pending, queue.scheduled, promoted')
         == HandleOne(old(Tally(store.rows, queue.pending, queue.scheduled, promoted)), id, store.clock)
  {
    OneChore(store.trace, store.trace, Promote(id, store.clock));
    var ok := store.PromoteOne(id);
    queue.RemoveScheduled(id);
    if !ok {
      return promoted;
    }
    var _ := queue.Enqueue(id, JobScore(store.rows[id]), false);
    promoted' := promoted + 1;
  }

  method HandleCandidates(store: Store, queue: QueueClient, ids: seq<Id>) returns (promoted: nat)
    requires store.Valid()
    modifies store`rows, store`model, store`trace, queue`pending, queue`scheduled
    ensures store.Valid() && OnlyChores(old(store.trace), store.trace)
    ensures store.model.workers == old(store.model.workers)
    ensures Tally(store.rows, queue.pending, queue.scheduled, promoted)
         == HandleAll(old(Tally(store.rows, queue.pending, queue.scheduled, 0)), ids, store.clock)
  {
    promoted := 0;
    ghost var p := Tally(store.rows, queue.pending, queue.scheduled, 0);
    var i := 0;
    while i < |ids|
      invariant 0 <= i <= |ids|
      invariant store.Valid() && OnlyChores(old(store.trace), store.trace)
      invariant store.model.workers == old(store.model.workers)
      invariant Tally(store.rows, queue.pending, queue.scheduled, promoted) == HandleAll(p, ids[..i], store.clock)
    {
      ghost var before := store.trace;
      promoted := PromoteCandidate(store, queue, ids[i], promoted);
      ChoresJoin(old(store.trace), before, store.trace);
      assert ids[..i + 1][..i] == ids[..i];
      i := i + 1;
    }
    assert ids[..|ids|] == ids;
  }

  /** What the method below promises about a cycle. */
  predicate Cycle(rows: map<Id, Job>, scheduled: ZSet, moment: Time, limit: nat, now: Time,
                  ids: seq<Id>, redisIds: seq<Id>, dbIds: seq<Id>) {
    && TopOf(redisIds, Ranks(DueMembers(scheduled, moment)), limit)
    && TopOf(dbIds, DueRanks(rows, moment), limit)
    && Distinct(ids) && Elems(ids) == Elems(redisIds) + Elems(dbIds)
    && moment <= now
  }

  /** Other rows that are due and were scheduled no later. */
  function DueBefore(rows: map<Id, Job>, moment: Time, id: Id): set<Id>
    requires id in rows && Due(rows[id], moment)
  {
    set x | x in rows && x != id && Due(rows[x], moment) && rows[x].scheduledAt.value <= rows[id].scheduledAt.value
  }

  /** A due row is in the scan unless `limit` others were scheduled no later. */
  lemma ScannedInTime(rows: map<Id, Job>, moment: Time, limit: nat, dbIds: seq<Id>, id: Id)
    requires TopOf(dbIds, DueRanks(rows, moment), limit) && id in rows && Due(rows[id], moment)
    requires |DueBefore(rows, moment, id)| < limit
    ensures id in dbIds
  {
    var ranks := DueRanks(rows, moment);
    assert UpTo(ranks, id) == DueBefore(rows, moment, id) + {id};
    EarlyEnough(dbIds, ranks, limit, id);
  }

  lemma AllInTime(rows: map<Id, Job>, moment: Time, limit: nat, ids: seq<Id>, redisIds: seq<Id>, dbIds: seq<Id>)
    requires TopOf(dbIds, DueRanks(rows, moment), limit) && Elems(ids) == Elems(redisIds) + Elems(dbIds)
    ensures forall id ::
              id in rows && Due(rows[id], moment) && |DueBefore(rows, moment, id)| < limit ==> id in ids
  {
    forall id | id in rows && Due(rows[id], moment) && |DueBefore(rows, moment, id)| < limit ensures id in ids {
      ScannedInTime(rows, moment, limit, dbIds, id);
      assert id in Elems(dbIds) && id in Elems(ids);
    }
  }

  /**
   * What a cycle leaves: the candidates due by now are pending, counted, and in the dispatch set by the score of their
   * rows; no candidate is in the delayed set; and nothing else has changed.
   */
  ghost predicate CycleLeaves(p: Tally, q: Tally, ids: seq<Id>, now: Time) {
    && q.rows.Keys == p.rows.Keys
    && (forall id :: id in p.rows ==>
          q.rows[id] == if id in ids && Due(p.rows[id], now) then p.rows[id].(status := Pending, nextRunAt := None)
                        else p.rows[id])
    && SentAlong(p.pending, q.pending, p.rows, ids, now)
    && (forall id :: id in q.scheduled <==> id in p.scheduled && id !in ids)
    && (forall id :: id in q.scheduled ==> q.scheduled[id] == p.scheduled[id])
    && q.promoted == p.promoted + |set id | id in ids && id in p.rows && Due(p.rows[id], now)|
  }

  ghost predicate SentAlong(pending: ZSet, pending': ZSet, rows: map<Id, Job>, ids: seq<Id>, now: Time) {
    && (forall id :: id in pending' <==> id in pending || (id in ids && id in rows && Due(rows[id], now)))
    && (forall id :: id in pending' ==>
          pending'[id] == if id in ids && id in rows && Due(rows[id], now)
                          then rows[id].createdAt / 1000 - rows[id].priority * 1_000_000_000_000
                          else pending[id])
  }

  lemma EnqueuedAlong(pending: ZSet, rows: map<Id, Job>, ids: seq<Id>, now: Time)
    ensures SentAlong(pending, Enqueued(pending, rows, ids, now), rows, ids, now)
  {
  }

  lemma HandledLeaves(p: Tally, ids: seq<Id>, now: Time)
    ensures CycleLeaves(p, Handled(p, ids, now), ids, now)
  {
    EnqueuedAlong(p.pending, p.rows, ids, now);
    assert Promotable(p.rows, ids, now) == set id | id in ids && id in p.rows && Due(p.rows[id], now);
  }

  /**
   * So the next quiet cycle whose database clock is not behind promotes it, sends it to the dispatch set with its
   * score, and drops its entry from the delayed set.
   */
  lemma PromotedInTime(p: Tally, moment: Time, limit: nat, now: Time, ids: seq<Id>, redisIds: seq<Id>, dbIds: seq<Id>,
                       id: Id)
    requires Cycle(p.rows, p.scheduled, moment, limit, now, ids, redisIds, dbIds)
    requires id in p.rows && Due(p.rows[id], moment) && |DueBefore(p.rows, moment, id)| < limit
    ensures var q := Handled(p, ids, now);
            && id in q.rows && q.rows[id] == p.rows[id].(status := Pending, nextRunAt := None)
            && id in q.pending && q.pending[id] == p.rows[id].createdAt / 1000 - p.rows[id].priority * 1_000_000_000_000
            && id !in q.scheduled
  {
    ScannedInTime(p.rows, moment, limit, dbIds, id);
    assert id in Elems(dbIds) && id in Promotable(p.rows, ids, now);
  }

  /** The due members and the due rows, none twice. */
  method Gather(store: Store, queue: QueueClient, moment: Time, limit: nat)
    returns (ids: seq<Id>, ghost redisIds: seq<Id>, ghost dbIds: seq<Id>)
    ensures TopOf(redisIds, Ranks(DueMembers(queue.scheduled, moment)), limit)
    ensures TopOf(dbIds, DueRanks(store.rows, moment), limit)
    ensures Distinct(ids) && Elems(ids) == Elems(redisIds) + Elems(dbIds)
  {
    var fromRedis := queue.DueScheduled(moment, limit);
    var fromDb := Select(DueRanks(store.rows, moment), limit);
    ids, redisIds, dbIds := Dedupe(fromRedis + fromDb), fromRedis, fromDb;
    assert Elems(fromRedis + fromDb) == Elems(fromRedis) + Elems(fromDb);
  }

  /**
   * A quiet cycle: no candidate twice; promotes and enqueues exactly the candidates due by the database clock;
   * drops exactly the candidates from the scheduled set.
   */
  method PromoteDueScheduled(store: Store, queue: QueueClient, moment: Time, limit: nat)
    returns (promoted: nat, ghost ids: seq<Id>, ghost redisIds: seq<Id>, ghost dbIds: seq<Id>)
    requires store.Valid()
    modifies store`rows, store`model, store`trace, queue`pending, queue`scheduled
    ensures store.Valid() && OnlyChores(old(store.trace), store.trace)
    ensures store.model.workers == old(store.model.workers)
    ensures TopOf(redisIds, Ranks(DueMembers(old(queue.scheduled), moment)), limit)
    ensures TopOf(dbIds, DueRanks(old(store.rows), moment), limit)
    ensures Distinct(ids) && Elems(ids) == Elems(redisIds) + Elems(dbIds)
    ensures Tally(store.rows, queue.pending, queue.scheduled, promoted)
         == Handled(old(Tally(store.rows, queue.pending, queue.scheduled, 0)), ids, store.clock)
    ensures forall id ::
              id in old(store.rows) && Due(old(store.rows)[id], moment)
              && |DueBefore(old(store.rows), moment, id)| < limit
              ==> id in ids
  {
    var candidates;
    candidates, redisIds, dbIds := Gather(store, queue, moment, limit);
    ids := candidates;
    HandleAllIs(Tally(store.rows, queue.pending, queue.scheduled, 0), candidates, store.clock);
    AllInTime(store.rows, moment, limit, candidates, redisIds, dbIds);
    promoted := HandleCandidates(store, queue, candidates);
  }

  // ---- progress ----

  /** Rows and Redis members still due at `moment`. */
  function DueLeft(rows: map<Id, Job>, scheduled: ZSet, moment: Time): nat {
    |DueRanks(rows, moment)| + |DueMembers(scheduled, moment)|
  }

  /** A cycle whose database clock is not behind promotes at least the smaller of the limit and the rows due. */
  lemma PromotesEnough(rows: map<Id, Job>, scheduled: ZSet, moment: Time, limit: nat, now: Time,
                       ids: seq<Id>, redisIds: seq<Id>, dbIds: seq<Id>)
    requires Cycle(rows, scheduled, moment, limit, now, ids, redisIds, dbIds)
    ensures |Promotable(rows, ids, now)| >= limit || |Promotable(rows, ids, now)| >= |DueRanks(rows, moment)|
    ensures Elems(dbIds) <= Promotable(rows, ids, now)
  {
    Cardinality(dbIds);
    forall id | id in Elems(dbIds) ensures id in Promotable(rows, ids, now) {
      assert id in DueRanks(rows, moment) && id in Elems(ids);
    }
    Smaller(Elems(dbIds), Promotable(rows, ids, now));
  }

  /** A member is dropped only if its row was just promoted, is missing, is not scheduled, or is not yet due. */
  lemma DropsOnlyTheStale(rows: map<Id, Job>, scheduled: ZSet, moment: Time, limit: nat, now: Time,
                          ids: seq<Id>, redisIds: seq<Id>, dbIds: seq<Id>, id: Id)
    requires Cycle(rows, scheduled, moment, limit, now, ids, redisIds, dbIds)
    requires id in scheduled && id !in scheduled - Elems(ids)
    ensures id in Promotable(rows, ids, now) || id !in rows || rows[id].status != Scheduled
         || rows[id].scheduledAt.None? || rows[id].scheduledAt.value > now
  {
    assert id in ids;
  }

  /** Each cycle with something due leaves strictly less due. */
  lemma CycleProgress(rows: map<Id, Job>, scheduled: ZSet, moment: Time, limit: nat, now: Time,
                      ids: seq<Id>, redisIds: seq<Id>, dbIds: seq<Id>)
    requires Cycle(rows, scheduled, moment, limit, now, ids, redisIds, dbIds) && limit > 0
    requires DueLeft(rows, scheduled, moment) > 0
    ensures DueLeft(PromoteAll(rows, ids, now), scheduled - Elems(ids), moment) < DueLeft(rows, scheduled, moment)
  {
    var members := DueMembers(scheduled, moment);
    assert Ranks(members).Keys == members.Keys && |Ranks(members)| == |members|;
    DueShrinks(DueRanks(rows, moment).Keys, DueRanks(PromoteAll(rows, ids, now), moment).Keys, Elems(dbIds));
    DueShrinks(members.Keys, DueMembers(scheduled - Elems(ids), moment).Keys, Elems(redisIds));
    Cardinality(dbIds);
    Cardinality(redisIds);
  }

  lemma DueShrinks(due: set<Id>, left: set<Id>, gone: set<Id>)
    requires left <= due - gone && gone <= due
    ensures |left| <= |due| - |gone|
  {
    Smaller(left, due - gone);
  }

  /** Repeated quiet cycles empty what is due. */
  method PromoteUntilNoneDue(store: Store, queue: QueueClient, moment: Time, limit: nat)
    requires store.Valid() && limit > 0 && moment <= store.clock
    modifies store`rows, store`model, store`trace, queue`pending, queue`scheduled
    ensures store.Valid() && OnlyChores(old(store.trace), store.trace)
    ensures store.model.workers == old(store.model.workers)
    ensures forall id :: id in store.rows ==> !Due(store.rows[id], moment)
    ensures forall id :: id in queue.scheduled ==> queue.scheduled[id] > moment
  {
    while DueLeft(store.rows, queue.scheduled, moment) > 0
      invariant store.Valid() && OnlyChores(old(store.trace), store.trace)
      invariant store.model.workers == old(store.model.workers)
      decreases DueLeft(store.rows, queue.scheduled, moment)
    {
      ghost var rows, scheduled := store.rows, queue.scheduled;
      ghost var before := store.trace;
      var _, ids, redisIds, dbIds := PromoteDueScheduled(store, queue, moment, limit);
      ChoresJoin(old(store.trace), before, store.trace);
      CycleProgress(rows, scheduled, moment, limit, store.clock, ids, redisIds, dbIds);
    }
    assert DueRanks(store.rows, moment) == map[] && DueMembers(queue.scheduled, moment) == map[];
    assert forall id :: id in store.rows && Due(store.rows[id], moment) ==> id in DueRanks(store.rows, moment);
    assert forall id :: id in queue.scheduled && queue.scheduled[id] <= moment ==>
             id in DueMembers(queue.scheduled, moment);
  }
}
