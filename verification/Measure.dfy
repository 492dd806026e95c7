/** The global measure: how many more claims a quiet system can make. */
module Measure {
  import opened Jobs
  import opened Protocol
  import opened Ownership

  // ---- sums over finite maps ----

  ghost function Total(m: map<Id, nat>): nat
    decreases |m|
  {
    if m == map[] then 0
    else
      var k :| k in m;
      m[k] + Total(m - {k})
  }

  lemma {:induction false} TotalSplit(m: map<Id, nat>, k: Id)
    requires k in m
    ensures Total(m) == m[k] + Total(m - {k})
    decreases |m|
  {
    var i :| i in m && Total(m) == m[i] + Total(m - {i});
    if i != k {
      TotalSplit(m - {i}, k);
      TotalSplit(m - {k}, i);
      assert m - {i} - {k} == m - {k} - {i};
    }
  }

  lemma {:induction false} TotalBelow(m: map<Id, nat>, n: map<Id, nat>)
    requires n.Keys == m.Keys && forall k :: k in m ==> n[k] <= m[k]
    ensures Total(n) <= Total(m)
    decreases |m|
  {
    if m != map[] {
      var k :| k in m;
      TotalSplit(m, k);
      TotalSplit(n, k);
      TotalBelow(m - {k}, n - {k});
    } else {
      assert n == map[];
    }
  }

  lemma TotalLess(m: map<Id, nat>, n: map<Id, nat>, k: Id)
    requires n.Keys == m.Keys && (forall i :: i in m ==> n[i] <= m[i]) && k in m && n[k] < m[k]
    ensures Total(n) < Total(m)
  {
    TotalSplit(m, k);
    TotalSplit(n, k);
    TotalBelow(m - {k}, n - {k});
  }

  lemma {:induction false} TotalZero(m: map<Id, nat>, k: Id)
    requires Total(m) == 0 && k in m
    ensures m[k] == 0
  {
    TotalSplit(m, k);
  }

  // ---- the measure ----

  /** Claims a job may still see: none once terminal, none above its allowance while a live worker runs it. */
  function Weight(s: State, e: Entry): nat {
    var left := e.job.maxAttempts - e.job.attempts;
    if Terminal(e.job) then 0
    else if Running(s, e.job) then (if left > 0 then left else 0)
    else if left > 1 then left else 1
  }

  /** In flight at a live worker. */
  predicate Running(s: State, j: Job) {
    j.status == Processing && j.workerId.Some? && Alive(s, j.workerId.value)
  }

  function Weights(s: State): map<Id, nat> {
    map id | id in s.table :: Weight(s, s.table[id])
  }

  ghost function Potential(s: State): nat {
    Total(Weights(s))
  }

  /** Submissions, manual retries and crashes have stopped. */
  predicate Quiet(a: Action) {
    !(a.World? && a.env.Crash?) && !(a.Api? && (a.call.Insert? || a.call.CommitRetry?))
  }

  predicate AnyClaim(a: Action) {
    a.Work? && a.work.Claim?
  }

  function ClaimCount(acts: seq<Action>): nat {
    if acts == [] then 0 else (if AnyClaim(acts[0]) then 1 else 0) + ClaimCount(acts[1..])
  }

  /** The jobs a run claims, in order. */
  function ClaimedIds(acts: seq<Action>): (ids: seq<Id>)
    ensures |ids| == ClaimCount(acts)
  {
    if acts == [] then []
    else (if AnyClaim(acts[0]) then [acts[0].work.id] else []) + ClaimedIds(acts[1..])
  }

  lemma {:induction false} ClaimedIdsAppend(acts: seq<Action>, a: Action)
    ensures ClaimedIds(acts + [a]) == ClaimedIds(acts) + (if AnyClaim(a) then [a.work.id] else [])
  {
    if acts == [] {
      assert [] + [a] == [a] && [a][1..] == [];
    } else {
      ClaimedIdsAppend(acts[1..], a);
      assert (acts + [a])[1..] == acts[1..] + [a];
    }
  }

  lemma {:induction false} ClaimCountConcat(acts: seq<Action>, more: seq<Action>)
    ensures ClaimCount(acts + more) == ClaimCount(acts) + ClaimCount(more)
  {
    if acts == [] {
      assert [] + more == more;
    } else {
      ClaimCountConcat(acts[1..], more);
      assert (acts + more)[1..] == acts[1..] + more;
    }
  }

  // ---- one job ----

  /** A row that a step leaves in its status, at its owner and with its counts weighs what it did. */
  lemma SameWeight(s: State, t: State, e: Entry, e': Entry)
    requires e'.job.status == e.job.status && e'.job.workerId == e.job.workerId
    requires e'.job.attempts == e.job.attempts && e'.job.maxAttempts == e.job.maxAttempts
    requires Running(t, e.job) <==> Running(s, e.job)
    ensures Weight(t, e') == Weight(s, e)
  {
  }

  lemma FinishWeight(b: Bounds, s: State, e: Entry, w: WorkerId, h: Hold, edited: Job, t: State, e': Entry)
    requires Alive(s, w) && Owned(b, e, w, h) && edited.key == h.copy.key && e'.job == Flush(e.job, h.copy, edited)
    requires edited.attempts == h.copy.attempts && edited.maxAttempts == h.copy.maxAttempts
    requires Terminal(edited) || (edited.status == Pending && edited.attempts < edited.maxAttempts)
    ensures Weight(t, e') <= Weight(s, e)
  {
    FlushAgreed(e.job, h.copy, edited);
  }

  /** The row of a final write weighs no more than before. */
  lemma FinalWeight(c: Settings, b: Bounds, s: State, w: WorkerId, edited: Job, kind: Kind, delay: int)
    requires Inv(c, b, s) && Alive(s, w) && Executing(s, w) && edited.key == HoldOf(s, w).copy.key
    requires edited.attempts == HoldOf(s, w).copy.attempts && edited.maxAttempts == HoldOf(s, w).copy.maxAttempts
    requires Terminal(edited) || (edited.status == Pending && edited.attempts < edited.maxAttempts)
    ensures var t, id := Finish(s, w, edited, kind, delay), HoldOf(s, w).id;
            id in t.table && Weight(t, t.table[id]) <= Weight(s, s.table[id])
  {
    var h := HoldOf(s, w);
    var t := Finish(s, w, edited, kind, delay);
    assert Owns(b, s, w);
    FinishWeight(b, s, s.table[h.id], w, h, edited, t, t.table[h.id]);
  }

  /** The row a worker's step is about. */
  function RowOf(s: State, w: WorkerId, a: WorkAction): Id
    requires CanWork(s, w, a)
  {
    if a.Claim? || a.Renew? then a.id else HoldOf(s, w).id
  }

  lemma CompletedWeight(c: Settings, b: Bounds, s: State, w: WorkerId, a: WorkAction)
    requires Inv(c, b, s) && CanWork(s, w, a) && a.Complete?
    ensures var t, id := ApplyWork(c, s, w, a), RowOf(s, w, a);
            id in t.table && Weight(t, t.table[id]) <= Weight(s, s.table[id])
  {
    FinalWeight(c, b, s, w, CompleteCopy(HoldOf(s, w).copy, a.result, a.wall), JobCompleted, 0);
  }

  lemma FailedWeight(c: Settings, b: Bounds, s: State, w: WorkerId, a: WorkAction)
    requires Inv(c, b, s) && CanWork(s, w, a) && a.Fail?
    ensures var t, id := ApplyWork(c, s, w, a), RowOf(s, w, a);
            id in t.table && Weight(t, t.table[id]) <= Weight(s, s.table[id])
  {
    var copy := HoldOf(s, w).copy;
    FinalWeight(c, b, s, w, FailCopy(c, copy, a.message, a.permanent, a.wall), FailKind(copy, a.permanent),
                Delay(c, copy, a.permanent));
  }

  lemma ClaimWeight(c: Settings, s: State, w: WorkerId, a: WorkAction)
    requires CanWork(s, w, a) && a.Claim?
    ensures var t := ApplyWork(c, s, w, a);
            a.id in t.table && Weight(t, t.table[a.id]) + 1 == Weight(s, s.table[a.id])
  {
  }

  lemma FlushProgressed(row: Job, copy: Job, pct: int)
    ensures var j := Flush(row, copy, ProgressCopy(copy, pct));
            && j.status == row.status && j.workerId == row.workerId
            && j.attempts == row.attempts && j.maxAttempts == row.maxAttempts
  {
  }

  /** A report leaves the status and the counts of its row. */
  lemma ProgressKeeps(c: Settings, s: State, w: WorkerId, a: WorkAction)
    requires CanWork(s, w, a) && a.Progress?
    ensures var t, id := ApplyWork(c, s, w, a), HoldOf(s, w).id;
            && id in t.table && t.table == s.table[id := t.table[id]]
            && t.table[id].job.status == s.table[id].job.status && t.table[id].job.workerId == s.table[id].job.workerId
            && t.table[id].job.attempts == s.table[id].job.attempts
            && t.table[id].job.maxAttempts == s.table[id].job.maxAttempts
            && forall v :: Alive(t, v) <==> Alive(s, v)
  {
    FlushProgressed(s.table[HoldOf(s, w).id].job, HoldOf(s, w).copy, a.pct);
  }

  lemma ProgressWeight(c: Settings, s: State, w: WorkerId, a: WorkAction)
    requires CanWork(s, w, a) && a.Progress?
    ensures var t, id := ApplyWork(c, s, w, a), RowOf(s, w, a);
            id in t.table && Weight(t, t.table[id]) == Weight(s, s.table[id])
  {
    var t, id := ApplyWork(c, s, w, a), HoldOf(s, w).id;
    ProgressKeeps(c, s, w, a);
    SameWeight(s, t, s.table[id], t.table[id]);
  }

  lemma StartWeight(c: Settings, s: State, w: WorkerId, a: WorkAction)
    requires CanWork(s, w, a) && (a.Start? || a.Renew?)
    ensures var t, id := ApplyWork(c, s, w, a), RowOf(s, w, a);
            id in t.table && Weight(t, t.table[id]) == Weight(s, s.table[id])
  {
    var t, id := ApplyWork(c, s, w, a), RowOf(s, w, a);
    SameWeight(s, t, s.table[id], t.table[id]);
  }

  lemma WorkElsewhere(c: Settings, s: State, w: WorkerId, a: WorkAction, id: Id)
    requires CanWork(s, w, a) && id in s.table && id != RowOf(s, w, a)
    ensures var t := ApplyWork(c, s, w, a);
            id in t.table && t.table[id] == s.table[id] && Weight(t, t.table[id]) == Weight(s, s.table[id])
  {
    var t := ApplyWork(c, s, w, a);
    SameWeight(s, t, s.table[id], t.table[id]);
  }

  lemma WorkWeight(c: Settings, b: Bounds, s: State, w: WorkerId, a: WorkAction, id: Id)
    requires Inv(c, b, s) && CanWork(s, w, a) && id in s.table
    ensures var t := ApplyWork(c, s, w, a);
            id in t.table
            && Weight(t, t.table[id]) + (if a.Claim? && a.id == id then 1 else 0) <= Weight(s, s.table[id])
  {
    if id != RowOf(s, w, a) {
      WorkElsewhere(c, s, w, a, id);
    } else if a.Claim? {
      ClaimWeight(c, s, w, a);
    } else if a.Complete? {
      CompletedWeight(c, b, s, w, a);
    } else if a.Fail? {
      FailedWeight(c, b, s, w, a);
    } else if a.Progress? {
      ProgressWeight(c, s, w, a);
    } else {
      StartWeight(c, s, w, a);
    }
  }

  /** A job that no live worker runs weighs what it did while its counts stay, whatever it waits for. */
  lemma WaitingWeight(s: State, t: State, e: Entry, e': Entry)
    requires !Terminal(e.job) && !Terminal(e'.job) && !Running(s, e.job) && !Running(t, e'.job)
    requires e'.job.attempts == e.job.attempts && e'.job.maxAttempts == e.job.maxAttempts
    ensures Weight(t, e') == Weight(s, e)
  {
  }

  lemma ReapWeight(c: Settings, b: Bounds, s: State, a: Chore)
    requires Inv(c, b, s) && OnTime(b, s) && CanUpkeep(s, a) && a.Reap?
    ensures var t := ApplyChore(s, a); a.id in t.table && Weight(t, t.table[a.id]) == Weight(s, s.table[a.id])
  {
    NotReaped(c, b, s, a.id, a.now);
    assert Attended(c, b, s, a.id, s.table[a.id].job);
    WaitingWeight(s, ApplyChore(s, a), s.table[a.id], ApplyChore(s, a).table[a.id]);
  }

  lemma PromoteWeight(s: State, a: Chore)
    requires CanUpkeep(s, a) && a.Promote?
    ensures var t := ApplyChore(s, a); a.id in t.table && Weight(t, t.table[a.id]) == Weight(s, s.table[a.id])
  {
    WaitingWeight(s, ApplyChore(s, a), s.table[a.id], ApplyChore(s, a).table[a.id]);
  }

  /** The cleanup, and the rows that a chore is not about. */
  lemma ChoreElsewhere(s: State, a: Chore, id: Id)
    requires CanUpkeep(s, a) && id in s.table && (a.Cleanup? || a.id != id)
    ensures var t := ApplyChore(s, a); id in t.table && Weight(t, t.table[id]) == Weight(s, s.table[id])
  {
    SameWeight(s, ApplyChore(s, a), s.table[id], ApplyChore(s, a).table[id]);
  }

  lemma ChoreWeight(c: Settings, b: Bounds, s: State, a: Chore, id: Id)
    requires Inv(c, b, s) && OnTime(b, s) && CanUpkeep(s, a) && id in s.table
    ensures var t := ApplyChore(s, a); id in t.table && Weight(t, t.table[id]) <= Weight(s, s.table[id])
  {
    if a.Cleanup? || a.id != id {
      ChoreElsewhere(s, a, id);
    } else if a.Reap? {
      ReapWeight(c, b, s, a);
    } else {
      PromoteWeight(s, a);
    }
  }

  /** A new worker runs nothing. */
  lemma SameRunning(s: State, t: State, j: Job)
    requires j.status == Processing ==> j.workerId.Some? && j.workerId.value in s.workers
    requires forall w :: w in s.workers ==> (Alive(t, w) <==> Alive(s, w))
    ensures Running(t, j) <==> Running(s, j)
  {
  }

  lemma WorldWeight(c: Settings, b: Bounds, s: State, a: WorldAction, id: Id)
    requires Inv(c, b, s) && Enabled(c, s, World(a)) && !a.Crash? && id in s.table
    ensures var t := ApplyWorld(s, a); id in t.table && Weight(t, t.table[id]) == Weight(s, s.table[id])
  {
    assert Attended(c, b, s, id, s.table[id].job);
    SameRunning(s, ApplyWorld(s, a), s.table[id].job);
  }

  lemma CallWeight(c: Settings, b: Bounds, s: State, a: Call, id: Id)
    requires CanCall(c, s, a) && Careful(c, b, s, Api(a)) && !a.Insert? && !a.CommitRetry? && id in s.table
    ensures var t := ApplyCall(c, s, a); id in t.table && Weight(t, t.table[id]) <= Weight(s, s.table[id])
  {
  }

  lemma StepWeight(c: Settings, b: Bounds, s: State, a: Action, id: Id)
    requires Inv(c, b, s) && OnTime(b, s) && Enabled(c, s, a) && Careful(c, b, s, a) && Quiet(a) && id in s.table
    ensures var t := Apply(c, s, a);
            id in t.table && Weight(t, t.table[id]) + (if Claims(a, id) then 1 else 0) <= Weight(s, s.table[id])
  {
    match a {
      case World(env) => WorldWeight(c, b, s, env, id);
      case Work(w, work) => WorkWeight(c, b, s, w, work, id);
      case Upkeep(chore) => ChoreWeight(c, b, s, chore, id);
      case Api(call) => CallWeight(c, b, s, call, id);
    }
  }

  // ---- all jobs ----

  lemma PotentialBelow(s: State, t: State)
    requires t.table.Keys == s.table.Keys
    requires forall id :: id in s.table ==> Weight(t, t.table[id]) <= Weight(s, s.table[id])
    ensures Potential(t) <= Potential(s)
  {
    TotalBelow(Weights(s), Weights(t));
  }

  lemma PotentialLess(s: State, t: State, k: Id)
    requires t.table.Keys == s.table.Keys
    requires forall id :: id in s.table ==> Weight(t, t.table[id]) <= Weight(s, s.table[id])
    requires k in s.table && Weight(t, t.table[k]) < Weight(s, s.table[k])
    ensures Potential(t) < Potential(s)
  {
    TotalLess(Weights(s), Weights(t), k);
  }

  lemma WorkKeys(c: Settings, s: State, w: WorkerId, a: WorkAction)
    requires CanWork(s, w, a)
    ensures ApplyWork(c, s, w, a).table.Keys == s.table.Keys
  {
  }

  lemma QuietKeys(c: Settings, s: State, a: Action)
    requires Enabled(c, s, a) && Quiet(a) && !a.Work?
    ensures Apply(c, s, a).table.Keys == s.table.Keys
  {
  }

  lemma WorkPotential(c: Settings, b: Bounds, s: State, w: WorkerId, a: WorkAction)
    requires Inv(c, b, s) && CanWork(s, w, a)
    ensures Potential(ApplyWork(c, s, w, a)) + (if a.Claim? then 1 else 0) <= Potential(s)
  {
    var t := ApplyWork(c, s, w, a);
    WorkKeys(c, s, w, a);
    forall id | id in s.table
      ensures Weight(t, t.table[id]) + (if a.Claim? && a.id == id then 1 else 0) <= Weight(s, s.table[id])
    {
      WorkWeight(c, b, s, w, a, id);
    }
    if a.Claim? {
      PotentialLess(s, t, a.id);
    } else {
      PotentialBelow(s, t);
    }
  }

  /** A quiet step never raises the measure, and a claim lowers it. */
  lemma StepPotential(c: Settings, b: Bounds, s: State, a: Action)
    requires Inv(c, b, s) && OnTime(b, s) && Enabled(c, s, a) && Careful(c, b, s, a) && Quiet(a)
    ensures Potential(Apply(c, s, a)) + (if AnyClaim(a) then 1 else 0) <= Potential(s)
  {
    if a.Work? {
      WorkPotential(c, b, s, a.w, a.work);
    } else {
      QuietKeys(c, s, a);
      forall id | id in s.table ensures Weight(Apply(c, s, a), Apply(c, s, a).table[id]) <= Weight(s, s.table[id]) {
        StepWeight(c, b, s, a, id);
      }
      PotentialBelow(s, Apply(c, s, a));
    }
  }

  ghost predicate AllQuiet(acts: seq<Action>) {
    forall i :: 0 <= i < |acts| ==> Quiet(acts[i])
  }

  /**
   * Termination: once submissions, manual retries and crashes stop, the claims of any further run and the measure
   * it leaves never exceed the measure it began with.
   */
  lemma {:induction false} ClaimsBounded(c: Settings, b: Bounds, s: State, acts: seq<Action>, t: State)
    requires Fits(c, b) && Inv(c, b, s) && OnTime(b, s) && Disciplined(c, b, s, acts, t) && AllQuiet(acts)
    ensures ClaimCount(acts) + Potential(t) <= Potential(s)
    decreases |acts|
  {
    if acts != [] {
      StepPotential(c, b, s, acts[0]);
      StepInv(c, b, s, acts[0]);
      assert AllQuiet(acts[1..]) by {
        forall i | 0 <= i < |acts[1..]| ensures Quiet(acts[1..][i]) { assert acts[1..][i] == acts[i + 1]; }
      }
      ClaimsBounded(c, b, Apply(c, s, acts[0]), acts[1..], t);
    }
  }

  lemma {:induction false} AllZero(m: map<Id, nat>)
    requires forall k :: k in m ==> m[k] == 0
    ensures Total(m) == 0
    decreases |m|
  {
    if m != map[] {
      var k :| k in m && Total(m) == m[k] + Total(m - {k});
      AllZero(m - {k});
    }
  }

  /** The measure is zero exactly when every job is terminal or on a live worker's last attempt. */
  lemma NothingLeft(s: State)
    ensures Potential(s) == 0
       <==> forall id :: id in s.table ==>
              var j := s.table[id].job;
              j.status in {Completed, Failed, Cancelled} || (Running(s, j) && j.maxAttempts <= j.attempts)
  {
    if Potential(s) == 0 {
      forall id | id in s.table ensures Weight(s, s.table[id]) == 0 {
        TotalZero(Weights(s), id);
      }
    } else {
      if forall id :: id in s.table ==> Weight(s, s.table[id]) == 0 {
        AllZero(Weights(s));
      }
    }
  }

  lemma {:induction false} ClaimsWeigh(c: Settings, b: Bounds, s: State, acts: seq<Action>, t: State, id: Id)
    requires Fits(c, b) && Inv(c, b, s) && OnTime(b, s) && Disciplined(c, b, s, acts, t) && AllQuiet(acts)
    requires id in s.table
    ensures id in t.table && ClaimsOf(acts, id) + Weight(t, t.table[id]) <= Weight(s, s.table[id])
    decreases |acts|
  {
    if acts != [] {
      StepWeight(c, b, s, acts[0], id);
      StepInv(c, b, s, acts[0]);
      assert AllQuiet(acts[1..]) by {
        forall i | 0 <= i < |acts[1..]| ensures Quiet(acts[1..][i]) { assert acts[1..][i] == acts[i + 1]; }
      }
      ClaimsWeigh(c, b, Apply(c, s, acts[0]), acts[1..], t, id);
    }
  }

  /**
   * So over any such run a job is claimed as often as its allowance leaves, or once more if that is spent and no live
   * worker runs it; and not at all once it is completed, failed or cancelled.
   */
  lemma JobClaimsBounded(c: Settings, b: Bounds, s: State, acts: seq<Action>, t: State, id: Id)
    requires Fits(c, b) && Inv(c, b, s) && OnTime(b, s) && Disciplined(c, b, s, acts, t) && AllQuiet(acts)
    requires id in s.table
    ensures var j := s.table[id].job;
            var left := j.maxAttempts - j.attempts;
            && (j.status in {Completed, Failed, Cancelled} ==> ClaimsOf(acts, id) == 0)
            && (left > 0 ==> ClaimsOf(acts, id) <= left)
            && (left <= 0 ==> ClaimsOf(acts, id) <= 1)
            && (left <= 0 && j.status == Processing && j.workerId.Some? && Alive(s, j.workerId.value)
                ==> ClaimsOf(acts, id) == 0)
  {
    ClaimsWeigh(c, b, s, acts, t, id);
  }
}
