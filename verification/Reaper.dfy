/** The batch loop that takes back expired leases. */
module Reaper {
  import opened Wrappers
  import opened Jobs
  import opened Protocol
  import opened Ordering
  import opened Lifecycle
  import opened Database

  /** Expired rows by lease, oldest first. */
  function ExpiredRanks(rows: map<Id, Job>, now: Time): map<Id, Rank> {
    map id | id in rows && Expired(rows[id], now) :: Rank(rows[id].leasedUntil.value, 0)
  }

  /** The run grew by maintenance steps only. */
  predicate OnlyChores(before: seq<Action>, after: seq<Action>)
    decreases |after|
  {
    after == before
    || (|after| > |before| && after[|after| - 1].Upkeep? && OnlyChores(before, after[..|after| - 1]))
  }

  lemma OneChore(before: seq<Action>, after: seq<Action>, chore: Chore)
    requires OnlyChores(before, after)
    ensures OnlyChores(before, after + [Upkeep(chore)])
  {
    assert (after + [Upkeep(chore)])[..|after|] == after;
    ChoresGrow(before, after);
  }

  lemma {:induction false} ChoresGrow(before: seq<Action>, after: seq<Action>)
    requires OnlyChores(before, after)
    ensures before <= after && forall i :: |before| <= i < |after| ==> after[i].Upkeep?
    decreases |after|
  {
    if after != before {
      ChoresGrow(before, after[..|after| - 1]);
    }
  }

  lemma {:induction false} ChoresJoin(before: seq<Action>, middle: seq<Action>, after: seq<Action>)
    requires OnlyChores(before, middle) && OnlyChores(middle, after)
    ensures OnlyChores(before, after)
    decreases |after|
  {
    if after != middle {
      ChoresJoin(before, middle, after[..|after| - 1]);
      ChoresGrow(before, after[..|after| - 1]);
    }
  }

  /** The rows after these leases were taken back. */
  function ReapAll(rows: map<Id, Job>, ids: seq<Id>): map<Id, Job> {
    map id | id in rows :: if id in ids then ReapRow(rows[id]) else rows[id]
  }

  lemma ReapNext(rows: map<Id, Job>, ids: seq<Id>, id: Id)
    requires id in rows && id !in ids
    ensures ReapAll(rows, ids + [id]) == ReapAll(rows, ids)[id := ReapRow(rows[id])]
  {
  }

  method ReapEach(store: Store, expired: seq<Id>) returns (reaped: nat)
    requires store.Valid() && Distinct(expired)
    requires forall id :: id in expired ==> id in store.rows && Expired(store.rows[id], store.clock)
    modifies store`rows, store`model, store`trace
    ensures store.Valid() && OnlyChores(old(store.trace), store.trace)
    ensures store.model.workers == old(store.model.workers)
    ensures reaped == |expired| && store.rows == ReapAll(old(store.rows), expired)
  {
    reaped := 0;
    for i := 0 to |expired|
      invariant store.Valid() && OnlyChores(old(store.trace), store.trace)
      invariant store.model.workers == old(store.model.workers)
      invariant reaped == i && store.rows == ReapAll(old(store.rows), expired[..i])
    {
      assert expired[i] in expired && expired[i] !in expired[..i];
      ReapNext(old(store.rows), expired[..i], expired[i]);
      assert expired[..i + 1] == expired[..i] + [expired[i]];
      OneChore(old(store.trace), store.trace, Reap(expired[i], store.clock));
      var ok := store.ReapOne(expired[i]);
      if !ok {
        continue;
      }
      reaped := reaped + 1;
    }
    assert expired[..|expired|] == expired;
  }

  /** Other rows whose lease expired no later. */
  function ExpiredBefore(rows: map<Id, Job>, now: Time, id: Id): set<Id>
    requires id in rows && Expired(rows[id], now)
  {
    set x | x in rows && x != id && Expired(rows[x], now) && rows[x].leasedUntil.value <= rows[id].leasedUntil.value
  }

  /** An expired row is freed by the next quiet cycle unless `limit` others expired no later. */
  lemma FreedInTime(rows: map<Id, Job>, now: Time, limit: nat, ids: seq<Id>, id: Id)
    requires TopOf(ids, ExpiredRanks(rows, now), limit) && id in rows && Expired(rows[id], now)
    requires |ExpiredBefore(rows, now, id)| < limit
    ensures id in ids
  {
    var ranks := ExpiredRanks(rows, now);
    assert UpTo(ranks, id) == ExpiredBefore(rows, now, id) + {id};
    EarlyEnough(ids, ranks, limit, id);
  }

  /**
   * A quiet cycle: with no concurrent writer it frees exactly the `limit` expired rows with the oldest leases, or
   * all of them, and leaves every other row as it was.
   */
  method ReapExpiredLeases(store: Store, limit: nat) returns (reaped: nat, ghost ids: seq<Id>)
    requires store.Valid()
    modifies store`rows, store`model, store`trace
    ensures store.Valid() && OnlyChores(old(store.trace), store.trace)
    ensures store.model.workers == old(store.model.workers)
    ensures TopOf(ids, ExpiredRanks(old(store.rows), store.clock), limit)
    ensures reaped == |ids| && store.rows == ReapAll(old(store.rows), ids)
    ensures forall id :: id in old(store.rows) ==>
              store.rows[id] == if id !in ids then old(store.rows)[id]
                                else old(store.rows)[id].(status := Pending, workerId := None, leasedUntil := None,
                                                          nextRunAt := None)
    ensures forall id ::
              id in old(store.rows) && Expired(old(store.rows)[id], store.clock)
              && |ExpiredBefore(old(store.rows), store.clock, id)| < limit
              ==> id in ids
  {
    ghost var rows := store.rows;
    var expired := Select(ExpiredRanks(store.rows, store.clock), limit);
    ids := expired;
    forall id | id in rows && Expired(rows[id], store.clock) && |ExpiredBefore(rows, store.clock, id)| < limit
      ensures id in ids
    {
      FreedInTime(rows, store.clock, limit, ids, id);
    }
    reaped := ReapEach(store, expired);
  }

  /**
   * Crash recovery: any quiet cycle later than one lease and the skew after the crash of its owner returns a job
   * to pending, unless `limit` leases expired no later than its own.
   */
  lemma CrashRecovered(c: Settings, b: Bounds, s: State, id: Id, limit: nat, ids: seq<Id>)
    requires Reachable(c, b, s) && id in s.table && s.table[id].job.status == Processing
    requires var owner := s.table[id].job.workerId;
             && owner.Some? && owner.value in s.workers && s.workers[owner.value].crashedAt.Some?
             && s.clock > s.workers[owner.value].crashedAt.value + c.lease + b.skew
    requires TopOf(ids, ExpiredRanks(Rows(s), s.clock), limit)
    requires Expired(s.table[id].job, s.clock) ==> |ExpiredBefore(Rows(s), s.clock, id)| < limit
    ensures ReapAll(Rows(s), ids)[id]
         == s.table[id].job.(status := Pending, workerId := None, leasedUntil := None, nextRunAt := None)
  {
    CrashedLeaseExpires(c, b, s, id, s.clock);
    FreedInTime(Rows(s), s.clock, limit, ids, id);
  }
}
