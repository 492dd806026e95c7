/** Rebuilding the dispatch set from the database. */
module Feeder {
  import opened Jobs
  import opened Keys
  import opened Ordering
  import opened Redis
  import opened Database

  /** Ready rows, higher priority first, then older first. */
  function ReadyRanks(rows: map<Id, Job>, now: Time): map<Id, Rank> {
    map id | id in rows && Ready(rows[id], now) :: Rank(-rows[id].priority, rows[id].createdAt)
  }

  /** The dispatch set after these jobs were offered to it. */
  function Fed(pending: ZSet, rows: map<Id, Job>, ids: seq<Id>): ZSet
    requires forall id :: id in ids ==> id in rows
  {
    map id | id in pending.Keys + Elems(ids) :: if id in pending then pending[id] else JobScore(rows[id])
  }

  lemma FeedOne(pending: ZSet, rows: map<Id, Job>, ids: seq<Id>, id: Id)
    requires id in rows && forall x :: x in ids ==> x in rows
    ensures Fed(pending, rows, ids + [id]) == ZAdd(Fed(pending, rows, ids), id, JobScore(rows[id]), true)
  {
    assert Elems(ids + [id]) == Elems(ids) + {id};
  }

  /** One offer more, and one entry more if it was not there. */
  lemma OfferNext(pending: ZSet, rows: map<Id, Job>, ids: seq<Id>, i: nat)
    requires i < |ids| && forall x :: x in ids ==> x in rows
    ensures ids[i] in rows && (forall x :: x in ids[..i] ==> x in rows) && (forall x :: x in ids[..i + 1] ==> x in rows)
    ensures var z, z' := Fed(pending, rows, ids[..i]), Fed(pending, rows, ids[..i + 1]);
            z' == ZAdd(z, ids[i], JobScore(rows[ids[i]]), true) && |z'| == |z| + if ids[i] in z then 0 else 1
  {
    assert ids[i] in ids && ids[..i + 1] == ids[..i] + [ids[i]];
    FeedOne(pending, rows, ids[..i], ids[i]);
  }

  /** Other ready rows that are no less urgent: of higher priority, or of the same and no younger. */
  function AsUrgent(rows: map<Id, Job>, now: Time, id: Id): set<Id>
    requires id in rows
  {
    set x | x in rows && x != id && Ready(rows[x], now)
            && (rows[x].priority > rows[id].priority
                || (rows[x].priority == rows[id].priority && rows[x].createdAt <= rows[id].createdAt))
  }

  /** Ready rows that are more urgent. */
  function MoreUrgent(rows: map<Id, Job>, now: Time, id: Id): set<Id>
    requires id in rows
  {
    set x | x in rows && Ready(rows[x], now)
            && (rows[x].priority > rows[id].priority
                || (rows[x].priority == rows[id].priority && rows[x].createdAt < rows[id].createdAt))
  }

  /** A ready row is offered by the next cycle unless `limit` others are no less urgent, or if `limit` are more. */
  lemma OfferedInTime(rows: map<Id, Job>, now: Time, limit: nat, ids: seq<Id>, id: Id)
    requires TopOf(ids, ReadyRanks(rows, now), limit) && id in rows && Ready(rows[id], now)
    ensures |AsUrgent(rows, now, id)| < limit ==> id in ids
    ensures id in ids ==> |MoreUrgent(rows, now, id)| < limit
  {
    var ranks := ReadyRanks(rows, now);
    if |AsUrgent(rows, now, id)| < limit {
      assert UpTo(ranks, id) == AsUrgent(rows, now, id) + {id};
      EarlyEnough(ids, ranks, limit, id);
    }
    if id in ids {
      assert Preceding(ranks, id) == MoreUrgent(rows, now, id);
      TopWithin(ids, ranks, limit, id);
    }
  }

  /** One cycle: offers the top `limit` ready rows, keeps every entry already there, and counts the new ones. */
  method PromoteReadyJobs(store: Store, queue: QueueClient, limit: nat) returns (promoted: nat, ghost ids: seq<Id>)
    modifies queue`pending
    ensures TopOf(ids, ReadyRanks(store.rows, store.clock), limit)
    ensures forall id :: id in ids ==> id in store.rows
    ensures queue.pending == Fed(old(queue.pending), store.rows, ids)
    ensures queue.pending.Keys == old(queue.pending).Keys + Elems(ids)
    ensures forall id :: id in queue.pending ==>
              queue.pending[id] == if id in old(queue.pending) then old(queue.pending)[id]
                                   else store.rows[id].createdAt / 1000 - store.rows[id].priority * 1_000_000_000_000
    ensures forall id :: id in store.rows && Ready(store.rows[id], store.clock) ==>
              && (|AsUrgent(store.rows, store.clock, id)| < limit ==> id in ids)
              && (id in ids ==> |MoreUrgent(store.rows, store.clock, id)| < limit)
    ensures promoted == |queue.pending| - |old(queue.pending)|
  {
    var jobs := Select(ReadyRanks(store.rows, store.clock), limit);
    ids := jobs;
    forall id | id in store.rows && Ready(store.rows[id], store.clock)
      ensures |AsUrgent(store.rows, store.clock, id)| < limit ==> id in ids
      ensures id in ids ==> |MoreUrgent(store.rows, store.clock, id)| < limit
    {
      OfferedInTime(store.rows, store.clock, limit, ids, id);
    }
    promoted := OfferAll(store, queue, jobs);
  }

  method OfferAll(store: Store, queue: QueueClient, jobs: seq<Id>) returns (promoted: nat)
    requires forall id :: id in jobs ==> id in store.rows
    modifies queue`pending
    ensures queue.pending == Fed(old(queue.pending), store.rows, jobs)
    ensures promoted == |queue.pending| - |old(queue.pending)|
  {
    promoted := 0;
    for i := 0 to |jobs|
      invariant forall id :: id in jobs[..i] ==> id in store.rows
      invariant queue.pending == Fed(old(queue.pending), store.rows, jobs[..i])
      invariant promoted == |queue.pending| - |old(queue.pending)|
    {
      OfferNext(old(queue.pending), store.rows, jobs, i);
      var added := queue.Enqueue(jobs[i], JobScore(store.rows[jobs[i]]), true);
      if added {
        promoted := promoted + 1;
      }
    }
    assert jobs[..|jobs|] == jobs;
  }
}
