/** The API: submit, cancel and manual retry, each a commit followed by its Redis command. */
module JobService {
  import opened Wrappers
  import opened Jobs
  import opened Keys
  import opened Redis
  import opened Database
  import opened Idempotency

  datatype Submission = Submitted(id: Id, created: bool) | InvalidKey

  datatype Change = Changed | NotFound | Conflict

  function KeyOf(n: Normalized): Option<string> {
    if n.Key? then Some(n.key) else None
  }

  /**
   * A submit with no other commit between its lookup and its insert: a key already carried answers with its
   * holder and touches nothing; otherwise the row is inserted and sent to one of the two sets.
   */
  method SubmitJob(store: Store, queue: QueueClient, newId: Id, priority: int, scheduledAt: Option<Time>,
                   rawKey: Option<string>) returns (r: Submission)
    requires store.Valid() && newId !in store.rows && store.c.defaultMaxAttempts > 0 && store.clock >= 0
    modifies store`rows, store`model, store`trace, queue`pending, queue`scheduled
    ensures store.Valid()
    ensures r.InvalidKey?
       <==> rawKey.Some?
            && (AllSpace(rawKey.value) || exists key :: |key| > 255 && TrimmedFrom(rawKey.value, key))
    ensures rawKey.None? ==>
              r == Submitted(newId, true) && newId in store.rows && store.rows[newId].key.None?
    ensures r.Submitted? && r.created ==>
              && r.id == newId && store.rows.Keys == old(store.rows).Keys + {newId}
              && (forall id :: id in old(store.rows) ==> store.rows[id] == old(store.rows)[id])
              && AsSubmitted(store.c, store.rows[newId], priority, scheduledAt, KeyOf(Normalize(rawKey)), store.clock)
              && (Normalize(rawKey).Key? ==>
                    forall id :: id in old(store.rows) ==> old(store.rows)[id].key != Some(Normalize(rawKey).key))
    ensures r.Submitted? && !r.created ==>
              && Normalize(rawKey).Key? && r.id in old(store.rows)
              && old(store.rows)[r.id].key == Some(Normalize(rawKey).key)
    ensures !(r.Submitted? && r.created) ==> store.rows == old(store.rows) && store.trace == old(store.trace)
    ensures queue.scheduled == if r.Submitted? && r.created && scheduledAt.Some?
                               then old(queue.scheduled)[newId := scheduledAt.value]
                               else old(queue.scheduled)
    ensures queue.pending == if r.Submitted? && r.created && scheduledAt.None?
                             then old(queue.pending)[newId := store.clock / 1000 - priority * 1_000_000_000_000]
                             else old(queue.pending)
  {
    var normalized := Normalize(rawKey);
    NormalizeRejects(rawKey);
    if normalized.Invalid? {
      return InvalidKey;
    }
    if normalized.Key? {
      var existing := store.FindByKey(normalized.key);
      if existing.Some? {
        return Submitted(existing.value, false);
      }
    }
    var inserted := store.InsertJob(newId, priority, scheduledAt, KeyOf(normalized));
    assert inserted;
    if scheduledAt.Some? {
      var _ := queue.Schedule(newId, scheduledAt.value);
    } else {
      var _ := queue.Enqueue(newId, JobScore(store.rows[newId]), false);
    }
    r := Submitted(newId, true);
  }

  /** Cancels a pending or scheduled job and takes its id out of both sets; `req` names the request. */
  method CancelJob(store: Store, queue: QueueClient, id: Id, ghost req: nat) returns (r: Change)
    requires store.Valid() && req !in store.model.requests
    modifies store`rows, store`model, store`trace, queue`pending, queue`scheduled
    ensures store.Valid()
    ensures r == if id !in old(store.rows) then NotFound
                 else if old(store.rows)[id].status in {Pending, Scheduled} then Changed else Conflict
    ensures r.Changed? ==>
              && store.rows == old(store.rows)[id := old(store.rows)[id].(status := Cancelled, nextRunAt := None,
                                                                          leasedUntil := None, workerId := None)]
              && queue.pending == old(queue.pending) - {id} && queue.scheduled == old(queue.scheduled) - {id}
    ensures !r.Changed? ==>
              && store.rows == old(store.rows)
              && queue.pending == old(queue.pending) && queue.scheduled == old(queue.scheduled)
  {
    if id !in store.rows {
      return NotFound;
    }
    var cancelled := store.Cancel(id, req);
    if !cancelled {
      return Conflict;
    }
    queue.Remove(id);
    r := Changed;
  }

  /** Gives a failed job one more attempt and takes it out of the dead-letter list; the feeder will enqueue it. */
  method RetryJob(store: Store, queue: QueueClient, id: Id, wall: Time, ghost req: nat) returns (r: Change)
    requires store.Valid() && req !in store.model.requests
    modifies store`rows, store`model, store`trace, queue`dead
    ensures store.Valid()
    ensures r == if id !in old(store.rows) then NotFound
                 else if old(store.rows)[id].status == Failed then Changed else Conflict
    ensures r.Changed? ==>
              && store.rows == old(store.rows)[id :=
                   old(store.rows)[id].(status := Pending, maxAttempts := old(store.rows)[id].maxAttempts + 1,
                                        nextRunAt := Some(wall), completedAt := None, startedAt := None,
                                        leasedUntil := None, workerId := None, error := None)]
              && queue.dead == Without(old(queue.dead), id)
    ensures !r.Changed? ==> store.rows == old(store.rows) && queue.dead == old(queue.dead)
  {
    if id !in store.rows {
      return NotFound;
    }
    var reopened := store.Reopen(id, wall, req);
    if !reopened {
      return Conflict;
    }
    queue.RemoveDeadLetter(id);
    r := Changed;
  }
}
