/** The heartbeat in runs of the whole system: a live worker in flight is always in its own lease holder. */
module Heartbeat {
  import opened Wrappers
  import opened Jobs
  import opened Protocol
  import opened Ownership
  import opened Redis
  import opened FullSystem
  import opened Inspection

  predicate NamesJob(p: Process) {
    p.phase.Held? && p.crashedAt.None? ==> p.holder == Some(p.phase.hold.id)
  }

  /** The holder of every live worker in flight names its job. */
  predicate HoldersName(s: System) {
    forall w :: w in s.procs ==> NamesJob(s.procs[w])
  }

  /** Only one process changed, and its holder names its job. */
  lemma OneNames(s: System, t: System, w: WorkerId)
    requires HoldersName(s) && w in t.procs && t.procs == s.procs[w := t.procs[w]] && NamesJob(t.procs[w])
    ensures HoldersName(t)
  {
  }

  lemma HeldIsOwned(c: Settings, b: Bounds, s: System, w: WorkerId)
    requires Inv(c, b, Abs(s)) && Live(s, w) && s.procs[w].phase.Held?
    ensures s.procs[w].phase.hold.id in s.table && OwnedBy(s.table[s.procs[w].phase.hold.id].job, w)
  {
    assert Owns(b, Abs(s), w);
  }

  /** A beat finds the job of a worker in flight still owned, and so does not let go of it. */
  lemma BeatNames(c: Settings, b: Bounds, s: System, w: WorkerId)
    requires HoldersName(s) && Inv(c, b, Abs(s)) && CanBy(s, w, Beat)
    ensures HoldersName(DoBeat(c, s, w))
  {
    assert NamesJob(s.procs[w]);
    if s.procs[w].phase.Held? { HeldIsOwned(c, b, s, w); }
    BeatKeeps(c, s, w);
    OneNames(s, DoBeat(c, s, w), w);
  }

  lemma BeatKeeps(c: Settings, s: System, w: WorkerId)
    requires w in s.procs && s.procs[w].beat.Some? && NamesJob(s.procs[w])
    requires s.procs[w].phase.Held? && s.procs[w].crashedAt.None? ==>
               s.procs[w].phase.hold.id in s.table && OwnedBy(s.table[s.procs[w].phase.hold.id].job, w)
    ensures var t := DoBeat(c, s, w); w in t.procs && t.procs == s.procs[w := t.procs[w]] && NamesJob(t.procs[w])
  {
  }

  lemma FlushNames(c: Settings, s: System, w: WorkerId, m: WorkerMove)
    requires HoldersName(s) && CanBy(s, w, m) && (m.Report? || m.Succeed? || m.Break?)
    ensures HoldersName(DoBy(c, s, w, m))
  {
    assert NamesJob(s.procs[w]);
    OneNames(s, DoBy(c, s, w, m), w);
  }

  lemma OtherNames(c: Settings, s: System, w: WorkerId, m: WorkerMove)
    requires HoldersName(s) && CanBy(s, w, m) && (m.Pop? || m.TryClaim? || m.Begin? || m.PushFailed? || m.Glance?)
    ensures HoldersName(DoBy(c, s, w, m))
  {
    assert NamesJob(s.procs[w]);
    OneNames(s, DoBy(c, s, w, m), w);
  }

  lemma ByNames(c: Settings, b: Bounds, s: System, w: WorkerId, m: WorkerMove)
    requires HoldersName(s) && Inv(c, b, Abs(s)) && CanBy(s, w, m)
    ensures HoldersName(DoBy(c, s, w, m))
  {
    if m.Report? || m.Succeed? || m.Break? {
      FlushNames(c, s, w, m);
    } else if m.Beat? {
      BeatNames(c, b, s, w);
    } else {
      OtherNames(c, s, w, m);
    }
  }

  lemma EnvNames(s: System, e: EnvMove)
    requires HoldersName(s) && CanEnv(s, e)
    ensures HoldersName(DoEnv(s, e))
  {
    match e {
      case Launch(w) => OneNames(s, DoEnv(s, e), w);
      case Kill(w) => OneNames(s, DoEnv(s, e), w);
      case _ =>
    }
  }

  lemma MoveNames(c: Settings, b: Bounds, s: System, m: Move)
    requires HoldersName(s) && Inv(c, b, Abs(s)) && CanMove(c, s, m)
    ensures HoldersName(MoveOn(c, s, m))
  {
    match m {
      case By(w, a) => ByNames(c, b, s, w, a);
      case For(p, r) => ForOwing(c, s, p, r);
      case Tend(p, b) => TendApart(c, s, p, b);
      case Env(e) => EnvNames(s, e);
      case Clean(_) =>
      case Go(_) =>
    }
  }

  lemma {:induction false} AlwaysNames(c: Settings, b: Bounds, s: System, moves: seq<Move>, t: System)
    requires Fits(c, b) && Inv(c, b, Abs(s)) && OnTime(b, Abs(s)) && HoldersName(s)
    requires DisciplinedMoves(c, b, s, moves, t)
    ensures HoldersName(t) && Inv(c, b, Abs(t))
    decreases |moves|
  {
    if moves != [] {
      MoveInv(c, b, s, moves[0]);
      MoveNames(c, b, s, moves[0]);
      AlwaysNames(c, b, MoveOn(c, s, moves[0]), moves[1..], t);
    }
  }

  lemma GlanceThenBeat(c: Settings, s: System, w: WorkerId, id: Id, wall: Time)
    requires Live(s, w) && s.procs[w].holder == Some(id) && s.procs[w].beat.None?
    requires id in s.table && OwnedBy(s.table[id].job, w)
    ensures CanBy(s, w, Glance(wall)) && CanBy(DoGlance(s, w, wall), w, Beat)
    ensures DoBeat(c, DoGlance(s, w, wall), w)
         == s.(table := s.table[id := s.table[id].(job := s.table[id].job.(leasedUntil := Some(wall + c.lease)))])
  {
    assert DoBeat(c, DoGlance(s, w, wall), w).procs == s.procs;
  }

  /** A beat that finds its job no longer processing under its name changes no row, and lets go of that job only. */
  lemma LostIsLetGo(c: Settings, s: System, w: WorkerId)
    requires CanBy(s, w, Beat)
    requires var id := s.procs[w].beat.value.id;
             id in s.table && s.table[id].job.status == Processing ==> s.table[id].job.workerId != Some(w)
    ensures var t, id := DoBeat(c, s, w), s.procs[w].beat.value.id;
            && t == s.(procs := t.procs) && t.procs.Keys == s.procs.Keys
            && (forall v :: v in s.procs && v != w ==> t.procs[v] == s.procs[v])
            && t.procs[w].phase == s.procs[w].phase && t.procs[w].beat.None?
            && t.procs[w].holder == if s.procs[w].holder == Some(id) then None else s.procs[w].holder
  {
  }

  /**
   * In every disciplined run, whatever Redis holds, the lease holder of a live worker in flight names its job; and a
   * beat from there, whatever its clock reads, writes exactly one lease from that reading and keeps the job.
   */
  lemma InFlightIsRenewed(c: Settings, b: Bounds, clock: Time, pending: ZSet, scheduled: ZSet, moves: seq<Move>,
                          s: System, w: WorkerId, wall: Time)
    requires Fits(c, b) && DisciplinedMoves(c, b, Opening(clock, pending, scheduled), moves, s)
    requires Live(s, w) && s.procs[w].phase.Held? && s.procs[w].beat.None?
    ensures var id := s.procs[w].phase.hold.id;
            && s.procs[w].holder == Some(id) && id in s.table && CanBy(s, w, Glance(wall))
            && CanBy(DoGlance(s, w, wall), w, Beat)
            && DoBeat(c, DoGlance(s, w, wall), w)
               == s.(table := s.table[id :=
                       s.table[id].(job := s.table[id].job.(leasedUntil := Some(wall + c.lease)))])
  {
    OpeningAbs(clock, pending, scheduled);
    AlwaysNames(c, b, Opening(clock, pending, scheduled), moves, s);
    assert NamesJob(s.procs[w]);
    HeldIsOwned(c, b, s, w);
    GlanceThenBeat(c, s, w, s.procs[w].phase.hold.id, wall);
  }
}
