/** The two dispatch sorted sets and the dead-letter list, and the client over them. */
module Redis {
  import opened Wrappers
  import opened Jobs
  import opened Ordering

  type ZSet = map<Id, int>

  const DEAD_LETTER_MAX_LEN := 1000

  /** Members in order of score, then member. */
  function Ranks(z: ZSet): map<Id, Rank> {
    map id | id in z :: Rank(z[id], id)
  }

  function ZAdd(z: ZSet, id: Id, score: int, nx: bool): ZSet {
    if nx && id in z then z else z[id := score]
  }

  /** The members ZPOPMIN may return: there is exactly one in a non-empty set. */
  predicate First(z: ZSet, id: Id) {
    Least(Ranks(z), id)
  }

  /** The members with score at most `now`. */
  function DueMembers(z: ZSet, now: Time): ZSet {
    map id | id in z && z[id] <= now :: z[id]
  }

  /** LPUSH followed by LTRIM. */
  function PushDead(dead: seq<Id>, id: Id): (d: seq<Id>)
    ensures |d| <= DEAD_LETTER_MAX_LEN
  {
    var pushed := [id] + dead;
    if |pushed| <= DEAD_LETTER_MAX_LEN then pushed else pushed[..DEAD_LETTER_MAX_LEN]
  }

  /** LREM of every occurrence. */
  function Without(dead: seq<Id>, id: Id): (d: seq<Id>)
    ensures |d| <= |dead|
    ensures forall x :: x in d <==> x in dead && x != id
  {
    if dead == [] then []
    else if dead[0] == id then Without(dead[1..], id)
    else [dead[0]] + Without(dead[1..], id)
  }

  /** What is left of a list when some entries are taken out of it. */
  predicate Within(part: seq<Id>, whole: seq<Id>) {
    if part == [] then true
    else if whole == [] then false
    else Within(part, whole[1..]) || (part[0] == whole[0] && Within(part[1..], whole[1..]))
  }

  /** A removal takes out every entry of this job and no other, and leaves the others in their order. */
  lemma {:induction false} WithoutIs(dead: seq<Id>, id: Id)
    ensures Within(Without(dead, id), dead)
    ensures forall x ::
              multiset(Without(dead, id))[x] == if x == id then 0 else multiset(dead)[x]
  {
    if dead != [] {
      WithoutIs(dead[1..], id);
      assert dead == [dead[0]] + dead[1..];
    }
  }

  lemma OneFirst(z: ZSet, x: Id, y: Id)
    requires First(z, x) && First(z, y)
    ensures x == y
  {
    assert Leq(Ranks(z)[x], Ranks(z)[y]) && Leq(Ranks(z)[y], Ranks(z)[x]);
  }

  /** Lowest score, and of those the smallest member. */
  lemma FirstIs(z: ZSet, id: Id)
    requires First(z, id)
    ensures id in z && forall x :: x in z ==> z[id] < z[x] || (z[id] == z[x] && id <= x)
  {
    forall x | x in z ensures z[id] < z[x] || (z[id] == z[x] && id <= x) {
      assert x in Ranks(z) && Leq(Ranks(z)[id], Ranks(z)[x]);
    }
  }

  /** The first `limit` members due, lowest score first. */
  predicate FirstDue(z: ZSet, now: Time, limit: nat, ids: seq<Id>) {
    && Distinct(ids) && |ids| <= limit && (forall id :: id in ids ==> id in z && z[id] <= now)
    && (forall i, j :: 0 <= i < j < |ids| ==> z[ids[i]] <= z[ids[j]])
    && (forall x :: x in z && z[x] <= now && x !in ids ==> |ids| == limit && forall id :: id in ids ==> z[id] <= z[x])
  }

  lemma DueIsFirst(z: ZSet, now: Time, limit: nat, ids: seq<Id>)
    requires TopOf(ids, Ranks(DueMembers(z, now)), limit)
    ensures FirstDue(z, now, limit, ids)
  {
    var ranks := Ranks(DueMembers(z, now));
    forall i | 0 <= i < |ids| ensures ids[i] in ranks && ids[i] in z && z[ids[i]] <= now {
      assert ids[i] in ids;
    }
    forall i, j | 0 <= i < j < |ids| ensures z[ids[i]] <= z[ids[j]] {
      assert ids[i] in ids && ids[j] in ids && Leq(ranks[ids[i]], ranks[ids[j]]);
    }
    forall x | x in z && z[x] <= now && x !in ids ensures |ids| == limit && forall id :: id in ids ==> z[id] <= z[x] {
      assert x in ranks;
      LeftOut(ids, ranks, limit, x);
    }
  }

  class QueueClient {
    var pending: ZSet
    var scheduled: ZSet
    var dead: seq<Id>

    constructor ()
      ensures pending == map[] && scheduled == map[] && dead == []
    {
      pending, scheduled, dead := map[], map[], [];
    }

    method Enqueue(id: Id, score: int, nx: bool) returns (added: bool)
      modifies `pending
      ensures pending == ZAdd(old(pending), id, score, nx)
      ensures pending == if nx && id in old(pending) then old(pending) else old(pending)[id := score]
      ensures added <==> id !in old(pending)
    {
      added := id !in pending;
      if added || !nx {
        pending := pending[id := score];
      }
    }

    method Schedule(id: Id, runAt: Time) returns (added: bool)
      modifies `scheduled
      ensures scheduled == ZAdd(old(scheduled), id, runAt, false) == old(scheduled)[id := runAt]
      ensures added <==> id !in old(scheduled)
    {
      added := id !in scheduled;
      scheduled := scheduled[id := runAt];
    }

    method Dequeue() returns (popped: Option<Id>)
      modifies `pending
      ensures popped.None? <==> old(pending) == map[]
      ensures popped.Some? ==>
                && First(old(pending), popped.value) && popped.value in old(pending)
                && (forall x :: x in old(pending) ==>
                      old(pending)[popped.value] < old(pending)[x]
                      || (old(pending)[popped.value] == old(pending)[x] && popped.value <= x))
                && pending == old(pending) - {popped.value}
      ensures popped.None? ==> pending == old(pending)
    {
      if pending == map[] {
        return None;
      }
      var ranks := Ranks(pending);
      assert ranks.Keys == pending.Keys;
      LeastExists(ranks);
      var x :| x in pending && First(pending, x);
      FirstIs(pending, x);
      pending := pending - {x};
      popped := Some(x);
    }

    method DueScheduled(now: Time, limit: nat) returns (ids: seq<Id>)
      ensures TopOf(ids, Ranks(DueMembers(scheduled, now)), limit) && FirstDue(scheduled, now, limit, ids)
    {
      ids := Select(Ranks(DueMembers(scheduled, now)), limit);
      DueIsFirst(scheduled, now, limit, ids);
    }

    method NextScheduledScore() returns (score: Option<int>)
      ensures score.None? <==> scheduled == map[]
      ensures score.Some? ==> exists x :: First(scheduled, x) && score.value == scheduled[x]
      ensures score.Some? ==> forall x :: x in scheduled ==> score.value <= scheduled[x]
    {
      if scheduled == map[] {
        return None;
      }
      var ranks := Ranks(scheduled);
      assert ranks.Keys == scheduled.Keys;
      LeastExists(ranks);
      var x :| x in scheduled && First(scheduled, x);
      FirstIs(scheduled, x);
      score := Some(scheduled[x]);
    }

    method RemoveScheduled(id: Id)
      modifies `scheduled
      ensures scheduled == old(scheduled) - {id}
    {
      scheduled := scheduled - {id};
    }

    method Remove(id: Id)
      modifies `pending, `scheduled
      ensures pending == old(pending) - {id} && scheduled == old(scheduled) - {id}
    {
      pending := pending - {id};
      scheduled := scheduled - {id};
    }

    method DeadLetter(id: Id)
      modifies `dead
      ensures dead == PushDead(old(dead), id)
      ensures dead == if |old(dead)| < 1000 then [id] + old(dead) else [id] + old(dead)[..999]
    {
      dead := [id] + dead;
      if |dead| > DEAD_LETTER_MAX_LEN {
        dead := dead[..DEAD_LETTER_MAX_LEN];
      }
    }

    method RemoveDeadLetter(id: Id)
      modifies `dead
      ensures dead == Without(old(dead), id) && Within(dead, old(dead))
      ensures forall x :: multiset(dead)[x] == if x == id then 0 else multiset(old(dead))[x]
    {
      WithoutIs(dead, id);
      dead := Without(dead, id);
    }
  }
}
