/** What the dead-letter list says in runs of the whole system: crashes, delays and interleaved pushes and removals. */
module Inspection {
  import opened Jobs
  import opened Ordering
  import opened Protocol
  import opened Ownership
  import opened Redis
  import opened DeadLetter
  import opened FullSystem

  // ---- what a move writes down ----

  function NoteBy(s: System, w: WorkerId, m: WorkerMove): seq<Note> {
    if m.Break? && w in s.procs && s.procs[w].phase.Held? && !Retries(s.procs[w].phase.hold.copy, m.permanent)
    then [Note(s.procs[w].phase.hold.id, true)] else []
  }

  function NoteFor(s: System, p: nat, r: RequestMove): seq<Note> {
    if r.Write? && p in s.errands && s.errands[p].Asking? && s.errands[p].q.Retrying?
    then [Note(s.errands[p].q.id, false)] else []
  }

  /** The permanent failure or manual retry that a move commits. */
  function NoteOf(s: System, m: Move): seq<Note> {
    match m
    case By(w, a) => NoteBy(s, w, a)
    case For(p, r) => NoteFor(s, p, r)
    case _ => []
  }

  /** The command of a move to the dead-letter list. */
  function LandingOf(s: System, m: Move): seq<Landing> {
    match m
    case By(w, PushFailed) =>
      if w in s.procs && s.procs[w].phase.Owing? then [Pushed(s.procs[w].phase.id, s.procs[w].phase.note)] else []
    case Go(p) => if p in s.errands then Sent(s.errands[p]) else []
    case Env(Wipe) => [Cleared]
    case _ => []
  }

  /** What is added to the histories, and what becomes of the list. */
  predicate Adds(s: System, t: System, notes: seq<Note>, log: seq<Landing>) {
    && t.notes == s.notes + notes && t.log == s.log + log
    && t.dead == if log == [] then s.dead else Land(s.dead, log[0])
  }

  lemma BreakWrites(c: Settings, s: System, w: WorkerId, m: WorkerMove)
    requires CanBy(s, w, m) && m.Break?
    ensures Adds(s, DoBreak(c, s, w, m.message, m.permanent, m.wall), NoteBy(s, w, m), [])
  {
  }

  lemma FlushWrites(c: Settings, s: System, w: WorkerId, m: WorkerMove)
    requires CanBy(s, w, m) && (m.Report? || m.Succeed?)
    ensures Adds(s, DoBy(c, s, w, m), NoteBy(s, w, m), [])
  {
  }

  lemma ByWrites(c: Settings, s: System, w: WorkerId, m: WorkerMove)
    requires CanBy(s, w, m) && !m.PushFailed?
    ensures Adds(s, DoBy(c, s, w, m), NoteBy(s, w, m), [])
  {
    if m.Break? {
      BreakWrites(c, s, w, m);
    } else if m.Report? || m.Succeed? {
      FlushWrites(c, s, w, m);
    }
  }

  lemma ForWrites(c: Settings, s: System, p: nat, r: RequestMove)
    requires CanFor(c, s, p, r)
    ensures Adds(s, DoFor(c, s, p, r), NoteFor(s, p, r), [])
  {
  }

  lemma TendWrites(c: Settings, s: System, p: nat, b: BatchMove)
    requires CanTend(c, s, p, b)
    ensures Adds(s, DoTend(c, s, p, b), [], [])
  {
    TendApart(c, s, p, b);
  }

  lemma PushWrites(s: System, w: WorkerId)
    requires w in s.procs && s.procs[w].phase.Owing?
    ensures Adds(s, DoPush(s, w), [], [Pushed(s.procs[w].phase.id, s.procs[w].phase.note)])
  {
  }

  lemma GoWrites(s: System, p: nat)
    requires p in s.errands && Commanding(s.errands[p])
    ensures Adds(s, DoGo(s, p), [], Sent(s.errands[p]))
  {
  }

  lemma EnvWrites(s: System, e: EnvMove)
    requires CanEnv(s, e)
    ensures Adds(s, DoEnv(s, e), [], if e.Wipe? then [Cleared] else [])
  {
  }

  lemma Writes(c: Settings, s: System, m: Move)
    requires CanMove(c, s, m)
    ensures Adds(s, MoveOn(c, s, m), NoteOf(s, m), LandingOf(s, m))
    ensures |NoteOf(s, m)| <= 1 && |LandingOf(s, m)| <= 1 && (NoteOf(s, m) == [] || LandingOf(s, m) == [])
  {
    match m {
      case By(w, PushFailed) => PushWrites(s, w);
      case By(w, a) => ByWrites(c, s, w, a);
      case For(p, r) => ForWrites(c, s, p, r);
      case Tend(p, b) => TendWrites(c, s, p, b);
      case Go(p) => GoWrites(s, p);
      case Env(e) => EnvWrites(s, e);
      case Clean(_) =>
    }
  }

  /** In every run the list is the untrimmed one cut at 1000, and lacks only what 1000 later pushes displaced. */
  lemma {:induction false} AlwaysKept(c: Settings, s: System, moves: seq<Move>, t: System)
    requires Kept(s.dead, s.log) && Moves(c, s, moves, t)
    ensures Kept(t.dead, t.log)
    decreases |moves|
  {
    if moves != [] {
      Writes(c, s, moves[0]);
      if LandingOf(s, moves[0]) != [] {
        LandKept(s.dead, s.log, LandingOf(s, moves[0])[0]);
      } else {
        assert s.log + [] == s.log;
      }
      AlwaysKept(c, MoveOn(c, s, moves[0]), moves[1..], t);
    }
  }

  // ---- the failed jobs ----

  function FailedJobs(s: State): set<Id> {
    set id | id in s.table && s.table[id].job.status == Failed
  }

  /** The last note about a job is a permanent failure. */
  predicate LastFailed(notes: seq<Note>, id: Id) {
    notes != [] &&
    if notes[|notes| - 1].id == id then notes[|notes| - 1].failed else LastFailed(notes[..|notes| - 1], id)
  }

  /** Failures and manual retries of each job alternate, a failure first. */
  predicate Alternating(notes: seq<Note>) {
    notes != [] ==>
      && Alternating(notes[..|notes| - 1])
      && notes[|notes| - 1].failed == !LastFailed(notes[..|notes| - 1], notes[|notes| - 1].id)
  }

  ghost predicate NotesMatch(notes: seq<Note>, failed: set<Id>) {
    Alternating(notes) && forall id :: LastFailed(notes, id) <==> id in failed
  }

  /** The failures and manual retries among the steps of the database. */
  function NotedBy(s: State, a: Action): seq<Note> {
    match a
    case Work(w, Fail(_, permanent, _, _)) =>
      if Holds(s, w) && !Retries(HoldOf(s, w).copy, permanent) then [Note(HoldOf(s, w).id, true)] else []
    case Api(CommitRetry(r, _)) => if r in s.requests then [Note(s.requests[r].id, false)] else []
    case _ => []
  }

  /** A step that changes one row moves at most that job in or out of the failed set. */
  lemma OneStatus(s: State, t: State, id: Id)
    requires id in s.table && id in t.table && t.table == s.table[id := t.table[id]]
    ensures FailedJobs(t) == if t.table[id].job.status == Failed then FailedJobs(s) + {id} else FailedJobs(s) - {id}
  {
  }

  /** The failed set follows the notes of a step, and each note is news. */
  predicate Follows(before: set<Id>, notes: seq<Note>, after: set<Id>) {
    if notes == [] then after == before
    else
      && |notes| == 1 && (notes[0].failed <==> notes[0].id !in before)
      && after == if notes[0].failed then before + {notes[0].id} else before - {notes[0].id}
  }

  lemma FailedByChore(s: State, a: Chore)
    requires CanUpkeep(s, a)
    ensures FailedJobs(ApplyChore(s, a)) == FailedJobs(s)
  {
    if !a.Cleanup? { OneStatus(s, ApplyChore(s, a), a.id); }
  }

  lemma FailedByCall(c: Settings, b: Bounds, s: State, a: Call)
    requires AllAsked(s) && CanCall(c, s, a) && Careful(c, b, s, Api(a))
    ensures Follows(FailedJobs(s), NotedBy(s, Api(a)), FailedJobs(ApplyCall(c, s, a)))
  {
    if a.CommitRetry? || a.CommitCancel? {
      OneStatus(s, ApplyCall(c, s, a), s.requests[a.r].id);
    }
  }

  lemma FailedByEnd(c: Settings, b: Bounds, s: State, w: WorkerId, a: WorkAction)
    requires Inv(c, b, s) && CanWork(s, w, a) && (a.Complete? || a.Fail?)
    ensures Follows(FailedJobs(s), NotedBy(s, Work(w, a)), FailedJobs(ApplyWork(c, s, w, a)))
  {
    OwnsProcessing(c, b, s, w);
    EndStatus(c, s, w, a);
    StatusFollows(s, ApplyWork(c, s, w, a), HoldOf(s, w).id, NotedBy(s, Work(w, a)));
  }

  lemma StatusFollows(s: State, t: State, id: Id, notes: seq<Note>)
    requires id in s.table && id in t.table && t.table == s.table[id := t.table[id]] && s.table[id].job.status != Failed
    requires notes == if t.table[id].job.status == Failed then [Note(id, true)] else []
    ensures Follows(FailedJobs(s), notes, FailedJobs(t))
  {
    OneStatus(s, t, id);
  }

  lemma OwnsProcessing(c: Settings, b: Bounds, s: State, w: WorkerId)
    requires Inv(c, b, s) && InFlight(s, w)
    ensures HoldOf(s, w).id in s.table && s.table[HoldOf(s, w).id].job.status == Processing
    ensures HoldOf(s, w).copy.status == Processing
  {
    assert Owns(b, s, w);
  }

  /** The row that a final write leaves is failed exactly after a permanent failure. */
  lemma EndStatus(c: Settings, s: State, w: WorkerId, a: WorkAction)
    requires CanWork(s, w, a) && (a.Complete? || a.Fail?) && HoldOf(s, w).copy.status == Processing
    ensures var t := ApplyWork(c, s, w, a);
            var h := HoldOf(s, w);
            && h.id in t.table && t.table == s.table[h.id := t.table[h.id]]
            && (t.table[h.id].job.status == Failed <==> a.Fail? && !Retries(h.copy, a.permanent))
  {
  }

  lemma FailedByWork(c: Settings, b: Bounds, s: State, w: WorkerId, a: WorkAction)
    requires Inv(c, b, s) && CanWork(s, w, a)
    ensures Follows(FailedJobs(s), NotedBy(s, Work(w, a)), FailedJobs(ApplyWork(c, s, w, a)))
  {
    if a.Complete? || a.Fail? {
      FailedByEnd(c, b, s, w, a);
    } else if a.Claim? || a.Renew? {
      OneStatus(s, ApplyWork(c, s, w, a), a.id);
    } else {
      FailedUnderway(c, b, s, w, a);
    }
  }

  /** Starts and reports leave a processing row processing. */
  lemma FailedUnderway(c: Settings, b: Bounds, s: State, w: WorkerId, a: WorkAction)
    requires Inv(c, b, s) && CanWork(s, w, a) && (a.Start? || a.Progress?)
    ensures FailedJobs(ApplyWork(c, s, w, a)) == FailedJobs(s)
  {
    assert Owns(b, s, w);
    if a.Start? {
      OneStatus(s, ApplyWork(c, s, w, a), HoldOf(s, w).id);
    } else {
      FailedReport(c, s, w, a);
    }
  }

  lemma FailedReport(c: Settings, s: State, w: WorkerId, a: WorkAction)
    requires CanWork(s, w, a) && a.Progress?
    ensures FailedJobs(ApplyWork(c, s, w, a)) == FailedJobs(s)
  {
    OneStatus(s, ApplyWork(c, s, w, a), HoldOf(s, w).id);
  }

  lemma FailedByStep(c: Settings, b: Bounds, s: State, a: Action)
    requires Inv(c, b, s) && Enabled(c, s, a) && Careful(c, b, s, a)
    ensures Follows(FailedJobs(s), NotedBy(s, a), FailedJobs(Apply(c, s, a)))
  {
    match a {
      case Work(w, work) => FailedByWork(c, b, s, w, work);
      case Api(call) => FailedByCall(c, b, s, call);
      case Upkeep(chore) => FailedByChore(s, chore);
      case World(_) =>
    }
  }

  lemma NotesAs(c: Settings, s: System, m: Move)
    requires CanMove(c, s, m)
    ensures NoteOf(s, m) == if DbStep(c, s, m) == [] then [] else NotedBy(Abs(s), DbStep(c, s, m)[0])
  {
  }

  lemma MoreNotes(notes: seq<Note>, failed: set<Id>, more: seq<Note>, failed': set<Id>)
    requires NotesMatch(notes, failed) && Follows(failed, more, failed')
    ensures NotesMatch(notes + more, failed')
  {
    if more == [] {
      assert notes + more == notes;
    } else {
      assert (notes + more)[..|notes|] == notes;
    }
  }

  lemma MoveMatches(c: Settings, b: Bounds, s: System, m: Move)
    requires Inv(c, b, Abs(s)) && NotesMatch(s.notes, FailedJobs(Abs(s))) && CanMove(c, s, m)
    requires forall a :: a in DbStep(c, s, m) ==> Step(c, b, Abs(s), a)
    ensures NotesMatch(MoveOn(c, s, m).notes, FailedJobs(Abs(MoveOn(c, s, m))))
  {
    Simulates(c, s, m);
    Writes(c, s, m);
    NotesAs(c, s, m);
    if DbStep(c, s, m) != [] {
      assert DbStep(c, s, m)[0] in DbStep(c, s, m);
      FailedByStep(c, b, Abs(s), DbStep(c, s, m)[0]);
    }
    MoreNotes(s.notes, FailedJobs(Abs(s)), NoteOf(s, m), FailedJobs(Abs(MoveOn(c, s, m))));
  }

  lemma MoveInv(c: Settings, b: Bounds, s: System, m: Move)
    requires Fits(c, b) && Inv(c, b, Abs(s)) && OnTime(b, Abs(s)) && CanMove(c, s, m)
    requires forall a :: a in DbStep(c, s, m) ==> Step(c, b, Abs(s), a)
    ensures Inv(c, b, Abs(MoveOn(c, s, m))) && OnTime(b, Abs(MoveOn(c, s, m)))
  {
    Simulates(c, s, m);
    if DbStep(c, s, m) != [] {
      assert DbStep(c, s, m)[0] in DbStep(c, s, m);
      StepInv(c, b, Abs(s), DbStep(c, s, m)[0]);
    }
  }

  /** In disciplined runs a job is failed exactly when its last note is a permanent failure. */
  lemma {:induction false} AlwaysMatches(c: Settings, b: Bounds, s: System, moves: seq<Move>, t: System)
    requires Fits(c, b) && Inv(c, b, Abs(s)) && OnTime(b, Abs(s)) && NotesMatch(s.notes, FailedJobs(Abs(s)))
    requires DisciplinedMoves(c, b, s, moves, t)
    ensures NotesMatch(t.notes, FailedJobs(Abs(t)))
    decreases |moves|
  {
    if moves != [] {
      var next := MoveOn(c, s, moves[0]);
      MoveMatches(c, b, s, moves[0]);
      MoveInv(c, b, s, moves[0]);
      AlwaysMatches(c, b, next, moves[1..], t);
    }
  }

  // ---- exactly when the list is right ----

  lemma {:induction false} DisciplinedMovesAre(c: Settings, b: Bounds, s: System, moves: seq<Move>, t: System)
    requires DisciplinedMoves(c, b, s, moves, t)
    ensures Moves(c, s, moves, t)
    decreases |moves|
  {
    if moves != [] { DisciplinedMovesAre(c, b, MoveOn(c, s, moves[0]), moves[1..], t); }
  }

  lemma FromOpening(c: Settings, b: Bounds, clock: Time, pending: ZSet, scheduled: ZSet, moves: seq<Move>, t: System)
    requires Fits(c, b) && DisciplinedMoves(c, b, Opening(clock, pending, scheduled), moves, t)
    ensures Moves(c, Opening(clock, pending, scheduled), moves, t)
    ensures NotesMatch(t.notes, FailedJobs(Abs(t))) && Kept(t.dead, t.log)
  {
    var s := Opening(clock, pending, scheduled);
    OpeningAbs(clock, pending, scheduled);
    AlwaysMatches(c, b, s, moves, t);
    DisciplinedMovesAre(c, b, s, moves, t);
    AlwaysKept(c, s, moves, t);
  }

  function Listed(s: System, id: Id): nat {
    Occurrences(Names(Marks(s.log)), id)
  }

  predicate JobFailed(s: System, id: Id) {
    id in s.table && s.table[id].job.status == Failed
  }

  /**
   * In every disciplined run of the whole system, with crashes, losses and any delays of pushes and removals: the
   * list, but for the trimming, holds a job once if it is failed and not at all otherwise, exactly when the commands
   * about that job landed right; and trimming takes only what 1000 later pushes displaced.
   */
  lemma ListExactly(c: Settings, b: Bounds, clock: Time, pending: ZSet, scheduled: ZSet, moves: seq<Move>, t: System,
                    id: Id)
    requires Fits(c, b) && DisciplinedMoves(c, b, Opening(clock, pending, scheduled), moves, t)
    ensures Listed(t, id) == (if JobFailed(t, id) then 1 else 0) <==> LandedRight(Relevant(t.log, id), JobFailed(t, id))
    ensures LastFailed(t.notes, id) <==> JobFailed(t, id)
    ensures Kept(t.dead, t.log)
  {
    FromOpening(c, b, clock, pending, scheduled, moves, t);
    RightExactly(t.log, id, JobFailed(t, id));
  }

  // ---- in turn ----

  /** The notes about a job. */
  function NotesOf(notes: seq<Note>, id: Id): seq<nat> {
    if notes == [] then []
    else NotesOf(notes[..|notes| - 1], id) + (if notes[|notes| - 1].id == id then [|notes| - 1] else [])
  }

  /** The notes about a job whose commands landed, in the order they landed. */
  function LandedOf(log: seq<Landing>, id: Id): seq<nat> {
    if log == [] then []
    else
      LandedOf(log[..|log| - 1], id)
      + (if !log[|log| - 1].Cleared? && log[|log| - 1].id == id then [log[|log| - 1].note] else [])
  }

  lemma {:induction false} NotesOfHas(notes: seq<Note>, id: Id)
    ensures forall n: nat :: n in NotesOf(notes, id) <==> n < |notes| && notes[n].id == id
  {
    if notes != [] { NotesOfHas(notes[..|notes| - 1], id); }
  }

  lemma {:induction false} LandedOfHas(log: seq<Landing>, id: Id, n: nat)
    ensures n in LandedOf(log, id) ==>
              exists k :: 0 <= k < |log| && !log[k].Cleared? && log[k].id == id && log[k].note == n
  {
    if log != [] {
      LandedOfHas(log[..|log| - 1], id, n);
    }
  }

  /** A command stands for the note it carries. */
  predicate StandsFor(notes: seq<Note>, id: Id, note: nat, failed: bool) {
    note < |notes| && notes[note] == Note(id, failed)
  }

  predicate LandingStands(notes: seq<Note>, l: Landing) {
    l.Cleared? || StandsFor(notes, l.id, l.note, l.Pushed?)
  }

  /** Owed commands and landed ones stand for their notes. */
  predicate AllStand(s: System) {
    && (forall w :: w in s.procs && s.procs[w].phase.Owing? ==>
          StandsFor(s.notes, s.procs[w].phase.id, s.procs[w].phase.note, true))
    && (forall p :: p in s.errands && s.errands[p].Unlisting? ==>
          StandsFor(s.notes, s.errands[p].id, s.errands[p].note, false))
    && (forall k :: 0 <= k < |s.log| ==> LandingStands(s.notes, s.log[k]))
  }

  /** No command is owed twice. */
  predicate OwedOnce(s: System) {
    && (forall v, w :: v in s.procs && w in s.procs && v != w && s.procs[v].phase.Owing? && s.procs[w].phase.Owing?
          ==> s.procs[v].phase.note != s.procs[w].phase.note)
    && (forall p, q :: p in s.errands && q in s.errands && p != q && s.errands[p].Unlisting? && s.errands[q].Unlisting?
          ==> s.errands[p].note != s.errands[q].note)
  }

  predicate Unlanded(log: seq<Landing>, note: nat) {
    forall k :: 0 <= k < |log| && !log[k].Cleared? ==> log[k].note != note
  }

  /** No owed command has landed. */
  predicate OwedUnlanded(s: System) {
    && (forall w :: w in s.procs && s.procs[w].phase.Owing? ==> Unlanded(s.log, s.procs[w].phase.note))
    && (forall p :: p in s.errands && s.errands[p].Unlisting? ==> Unlanded(s.log, s.errands[p].note))
  }

  predicate Orderly(s: System) {
    AllStand(s) && OwedOnce(s) && OwedUnlanded(s)
  }

  /** A worker owes a push as it did before, or because it has just failed a job for good. */
  predicate OwesAsBefore(s: System, m: Move, w: WorkerId, phase: Phase) {
    phase.Owing? ==>
      || (w in s.procs && phase == s.procs[w].phase && m != By(w, PushFailed))
      || (m.By? && m.w == w && NoteOf(s, m) == [Note(phase.id, true)] && phase.note == |s.notes|)
  }

  /** An errand owes a removal as it did before, or because its manual retry has just committed. */
  predicate UnlistsAsBefore(s: System, m: Move, p: nat, e: Errand) {
    e.Unlisting? ==>
      || (p in s.errands && e == s.errands[p] && m != Go(p))
      || (m.For? && m.p == p && NoteOf(s, m) == [Note(e.id, false)] && e.note == |s.notes|)
  }

  predicate OwingAsBefore(s: System, m: Move, t: System) {
    forall w :: w in t.procs ==> OwesAsBefore(s, m, w, t.procs[w].phase)
  }

  predicate UnlistingAsBefore(s: System, m: Move, t: System) {
    forall p :: p in t.errands ==> UnlistsAsBefore(s, m, p, t.errands[p])
  }

  lemma ByOwing(c: Settings, s: System, w: WorkerId, m: WorkerMove)
    requires CanBy(s, w, m)
    ensures OwingAsBefore(s, By(w, m), DoBy(c, s, w, m)) && DoBy(c, s, w, m).errands == s.errands
  {
    ByApart(c, s, w, m);
    if m.Report? || m.Succeed? || m.Break? { FlushOwing(c, s, w, m); }
  }

  lemma ForOwing(c: Settings, s: System, p: nat, r: RequestMove)
    requires CanFor(c, s, p, r)
    ensures UnlistingAsBefore(s, For(p, r), DoFor(c, s, p, r)) && DoFor(c, s, p, r).procs == s.procs
  {
    if r.Write? { WriteOwing(c, s, p, r); }
  }

  lemma WriteOwing(c: Settings, s: System, p: nat, r: RequestMove)
    requires CanFor(c, s, p, r) && r.Write?
    ensures UnlistingAsBefore(s, For(p, r), DoWrite(s, p, r.wall)) && DoWrite(s, p, r.wall).procs == s.procs
  {
  }

  lemma TendOwing(c: Settings, s: System, p: nat, b: BatchMove)
    requires CanTend(c, s, p, b)
    ensures UnlistingAsBefore(s, Tend(p, b), DoTend(c, s, p, b)) && DoTend(c, s, p, b).procs == s.procs
  {
    TendApart(c, s, p, b);
  }

  lemma GoOwing(s: System, p: nat)
    requires p in s.errands && Commanding(s.errands[p])
    ensures UnlistingAsBefore(s, Go(p), DoGo(s, p))
  {
  }

  lemma FlushOwing(c: Settings, s: System, w: WorkerId, m: WorkerMove)
    requires CanBy(s, w, m) && (m.Report? || m.Succeed? || m.Break?)
    ensures OwingAsBefore(s, By(w, m), DoBy(c, s, w, m))
  {
  }

  lemma EnvOwing(s: System, e: EnvMove)
    requires CanEnv(s, e)
    ensures OwingAsBefore(s, Env(e), DoEnv(s, e)) && UnlistingAsBefore(s, Env(e), DoEnv(s, e))
  {
  }

  lemma OwedAfter(c: Settings, s: System, m: Move)
    requires CanMove(c, s, m)
    ensures OwingAsBefore(s, m, MoveOn(c, s, m)) && UnlistingAsBefore(s, m, MoveOn(c, s, m))
  {
    match m {
      case By(w, a) => ByOwing(c, s, w, a);
      case For(p, r) => ForOwing(c, s, p, r);
      case Tend(p, b) => TendOwing(c, s, p, b);
      case Go(p) => GoOwing(s, p);
      case Env(e) => EnvOwing(s, e);
      case Clean(_) =>
    }
  }

  lemma MoveOrderly(c: Settings, s: System, m: Move)
    requires Orderly(s) && CanMove(c, s, m)
    ensures Orderly(MoveOn(c, s, m))
  {
    Writes(c, s, m);
    OwedAfter(c, s, m);
    OrderlyAfter(s, MoveOn(c, s, m), m);
  }

  lemma StandAfter(s: System, t: System, m: Move)
    requires AllStand(s) && t.notes == s.notes + NoteOf(s, m) && t.log == s.log + LandingOf(s, m)
    requires OwingAsBefore(s, m, t) && UnlistingAsBefore(s, m, t)
    ensures AllStand(t)
  {
    assert forall n: nat :: n < |s.notes| ==> t.notes[n] == s.notes[n];
  }

  lemma OnceAfter(s: System, t: System, m: Move)
    requires AllStand(s) && OwedOnce(s)
    requires OwingAsBefore(s, m, t) && UnlistingAsBefore(s, m, t)
    ensures OwedOnce(t)
  {
  }

  lemma UnlandedAfter(s: System, t: System, m: Move)
    requires Orderly(s) && t.log == s.log + LandingOf(s, m)
    requires OwingAsBefore(s, m, t) && UnlistingAsBefore(s, m, t)
    ensures OwedUnlanded(t)
  {
    forall w | w in t.procs && t.procs[w].phase.Owing? ensures Unlanded(t.log, t.procs[w].phase.note) {
      assert OwesAsBefore(s, m, w, t.procs[w].phase);
    }
    forall p | p in t.errands && t.errands[p].Unlisting? ensures Unlanded(t.log, t.errands[p].note) {
      assert UnlistsAsBefore(s, m, p, t.errands[p]);
    }
  }

  lemma OrderlyAfter(s: System, t: System, m: Move)
    requires Orderly(s) && t.notes == s.notes + NoteOf(s, m) && t.log == s.log + LandingOf(s, m)
    requires OwingAsBefore(s, m, t) && UnlistingAsBefore(s, m, t)
    ensures Orderly(t)
  {
    StandAfter(s, t, m);
    OnceAfter(s, t, m);
    UnlandedAfter(s, t, m);
  }

  /** All commands about a job have landed, in the order of their commits. */
  predicate Caught(s: System, id: Id) {
    LandedOf(s.log, id) == NotesOf(s.notes, id)
  }

  /** All but that of the last commit. */
  predicate Behind(s: System, id: Id) {
    var ns := NotesOf(s.notes, id);
    ns != [] && LandedOf(s.log, id) == ns[..|ns| - 1]
  }

  /** A failure or manual retry of the job commits only once all earlier commands about it have landed. */
  predicate InTurn(s: System, m: Move, id: Id) {
    m != Env(Wipe) && forall n :: n in NoteOf(s, m) && n.id == id ==> Caught(s, id)
  }

  ghost predicate AllInTurn(c: Settings, s: System, moves: seq<Move>, id: Id)
    decreases |moves|
  {
    moves != [] && CanMove(c, s, moves[0]) ==>
      InTurn(s, moves[0], id) && AllInTurn(c, MoveOn(c, s, moves[0]), moves[1..], id)
  }

  lemma NotesOfNext(notes: seq<Note>, n: Note, id: Id)
    ensures NotesOf(notes + [n], id) == if n.id == id then NotesOf(notes, id) + [|notes|] else NotesOf(notes, id)
  {
    assert (notes + [n])[..|notes|] == notes;
  }

  lemma LandedOfNext(log: seq<Landing>, l: Landing, id: Id)
    ensures LandedOf(log + [l], id)
         == if !l.Cleared? && l.id == id then LandedOf(log, id) + [l.note] else LandedOf(log, id)
  {
    assert (log + [l])[..|log|] == log;
  }

  /** What lands about a job in turn is the one command that was still owed. */
  lemma LastToLand(s: System, id: Id, l: Landing)
    requires Orderly(s) && (Caught(s, id) || Behind(s, id)) && !l.Cleared? && l.id == id && LandingStands(s.notes, l)
    requires Unlanded(s.log, l.note)
    ensures LandedOf(s.log, id) + [l.note] == NotesOf(s.notes, id)
  {
    var ns := NotesOf(s.notes, id);
    NotesOfHas(s.notes, id);
    LandedOfHas(s.log, id, l.note);
    assert l.note in ns && l.note !in LandedOf(s.log, id);
    assert ns == ns[..|ns| - 1] + [ns[|ns| - 1]];
  }

  predicate Unwiped(log: seq<Landing>) {
    forall k :: 0 <= k < |log| ==> !log[k].Cleared?
  }

  lemma NoteInTurn(s: System, t: System, n: Note, id: Id)
    requires (Caught(s, id) || Behind(s, id)) && (n.id == id ==> Caught(s, id))
    requires t.notes == s.notes + [n] && t.log == s.log
    ensures Caught(t, id) || Behind(t, id)
  {
    NotesOfNext(s.notes, n, id);
  }

  lemma LandInTurn(s: System, t: System, l: Landing, id: Id)
    requires Orderly(s) && (Caught(s, id) || Behind(s, id)) && !l.Cleared? && LandingStands(s.notes, l)
    requires Unlanded(s.log, l.note) && t.notes == s.notes && t.log == s.log + [l]
    ensures Caught(t, id) || Behind(t, id)
  {
    LandedOfNext(s.log, l, id);
    if l.id == id { LastToLand(s, id, l); }
  }

  lemma LandingOwed(s: System, m: Move)
    requires Orderly(s) && m != Env(Wipe) && LandingOf(s, m) != []
    ensures var l := LandingOf(s, m)[0];
            LandingOf(s, m) == [l] && !l.Cleared? && LandingStands(s.notes, l) && Unlanded(s.log, l.note)
  {
  }

  lemma LandingInTurn(s: System, t: System, m: Move, id: Id)
    requires Orderly(s) && (Caught(s, id) || Behind(s, id)) && Unwiped(s.log) && m != Env(Wipe)
    requires LandingOf(s, m) != [] && t.notes == s.notes && t.log == s.log + LandingOf(s, m)
    ensures (Caught(t, id) || Behind(t, id)) && Unwiped(t.log)
  {
    LandingOwed(s, m);
    LandInTurn(s, t, LandingOf(s, m)[0], id);
  }

  /** What one note, one landing or neither makes of a job in turn. */
  lemma InTurnAfter(s: System, t: System, m: Move, id: Id)
    requires Orderly(s) && (Caught(s, id) || Behind(s, id)) && Unwiped(s.log) && InTurn(s, m, id)
    requires t.notes == s.notes + NoteOf(s, m) && t.log == s.log + LandingOf(s, m)
    requires |NoteOf(s, m)| <= 1 && (NoteOf(s, m) == [] || LandingOf(s, m) == [])
    ensures (Caught(t, id) || Behind(t, id)) && Unwiped(t.log)
  {
    if NoteOf(s, m) != [] {
      var n := NoteOf(s, m)[0];
      assert n in NoteOf(s, m) && NoteOf(s, m) == [n] && t.log == s.log;
      NoteInTurn(s, t, n, id);
    } else if LandingOf(s, m) != [] {
      LandingInTurn(s, t, m, id);
    } else {
      assert t.notes == s.notes && t.log == s.log;
    }
  }

  lemma MoveInTurn(c: Settings, s: System, m: Move, id: Id)
    requires Orderly(s) && (Caught(s, id) || Behind(s, id)) && Unwiped(s.log) && CanMove(c, s, m) && InTurn(s, m, id)
    ensures var t := MoveOn(c, s, m); (Caught(t, id) || Behind(t, id)) && Unwiped(t.log)
  {
    Writes(c, s, m);
    InTurnAfter(s, MoveOn(c, s, m), m, id);
  }

  lemma {:induction false} StaysInTurn(c: Settings, s: System, moves: seq<Move>, t: System, id: Id)
    requires Orderly(s) && (Caught(s, id) || Behind(s, id)) && Unwiped(s.log)
    requires Moves(c, s, moves, t) && AllInTurn(c, s, moves, id)
    ensures Orderly(t) && Unwiped(t.log)
    decreases |moves|
  {
    if moves != [] {
      MoveOrderly(c, s, moves[0]);
      MoveInTurn(c, s, moves[0], id);
      StaysInTurn(c, MoveOn(c, s, moves[0]), moves[1..], t, id);
    }
  }

  lemma {:induction false} AlwaysOrderly(c: Settings, s: System, moves: seq<Move>, t: System)
    requires Orderly(s) && Moves(c, s, moves, t)
    ensures Orderly(t)
    decreases |moves|
  {
    if moves != [] {
      MoveOrderly(c, s, moves[0]);
      AlwaysOrderly(c, MoveOn(c, s, moves[0]), moves[1..], t);
    }
  }

  /**
   * In every run each entry stands for a permanent failure, numbered in the order of the commits, and the list is in
   * reverse order of failure exactly when no two pushes that still stand landed against that order.
   */
  lemma OrderExactly(c: Settings, clock: Time, pending: ZSet, scheduled: ZSet, moves: seq<Move>, t: System)
    requires Moves(c, Opening(clock, pending, scheduled), moves, t)
    ensures forall m :: m in Marks(t.log) ==> m.note < |t.notes| && t.notes[m.note] == Note(m.id, true)
    ensures NewestFirst(Marks(t.log))
       <==> forall m, n :: Stands(t.log, m) && Stands(t.log, n) && m.pos < n.pos ==> m.note < n.note
  {
    AlwaysOrderly(c, Opening(clock, pending, scheduled), moves, t);
    MarksStand(t.log);
    OrderOfFailure(t.log);
    forall m | m in Marks(t.log) ensures m.note < |t.notes| && t.notes[m.note] == Note(m.id, true) {
      assert LandingStands(t.notes, t.log[m.pos]);
    }
  }

  /** Without a wipe the commands that concern a job are those that carry its notes. */
  lemma {:induction false} RelevantCarry(log: seq<Landing>, id: Id)
    requires Unwiped(log)
    ensures |Relevant(log, id)| == |LandedOf(log, id)|
    ensures forall k :: 0 <= k < |Relevant(log, id)| ==>
              && Relevant(log, id)[k] in log && Relevant(log, id)[k].id == id
              && Relevant(log, id)[k].note == LandedOf(log, id)[k]
    decreases |log|
  {
    if log != [] {
      RelevantCarry(log[..|log| - 1], id);
      assert forall l :: l in log[..|log| - 1] ==> l in log;
    }
  }

  /** The last two notes about a job. */
  lemma {:induction false} LastNotes(notes: seq<Note>, id: Id)
    requires Alternating(notes)
    ensures var ns := NotesOf(notes, id);
            && (forall k :: 0 <= k < |ns| ==> ns[k] < |notes|)
            && (ns == [] ==> !LastFailed(notes, id))
            && (ns != [] ==> notes[ns[|ns| - 1]].failed == LastFailed(notes, id))
            && (|ns| > 1 ==> notes[ns[|ns| - 2]].failed == !LastFailed(notes, id))
    decreases |notes|
  {
    if notes != [] {
      LastNotes(notes[..|notes| - 1], id);
    }
  }

  lemma CaughtLandsRight(s: System, id: Id)
    requires Orderly(s) && Unwiped(s.log) && Caught(s, id) && Alternating(s.notes)
    ensures LandedRight(Relevant(s.log, id), LastFailed(s.notes, id))
  {
    var ls := Relevant(s.log, id);
    RelevantCarry(s.log, id);
    LastNotes(s.notes, id);
    forall k | 0 <= k < |ls| ensures ls[k].Pushed? == s.notes[ls[k].note].failed {
      assert ls[k] in s.log;
      var i :| 0 <= i < |s.log| && s.log[i] == ls[k];
      assert LandingStands(s.notes, s.log[i]);
    }
  }

  lemma OpeningInTurn(c: Settings, clock: Time, pending: ZSet, scheduled: ZSet, moves: seq<Move>, t: System, id: Id)
    requires Moves(c, Opening(clock, pending, scheduled), moves, t)
    requires AllInTurn(c, Opening(clock, pending, scheduled), moves, id)
    ensures Orderly(t) && Unwiped(t.log)
  {
    StaysInTurn(c, Opening(clock, pending, scheduled), moves, t, id);
  }

  /**
   * In a disciplined run without loss of Redis, if each failure and manual retry of a job waits until the commands
   * of the earlier ones have landed, and at the end all have, then the list is right about that job.
   */
  lemma InTurnIsRight(c: Settings, b: Bounds, clock: Time, pending: ZSet, scheduled: ZSet, moves: seq<Move>, t: System,
                      id: Id)
    requires Fits(c, b) && DisciplinedMoves(c, b, Opening(clock, pending, scheduled), moves, t)
    requires AllInTurn(c, Opening(clock, pending, scheduled), moves, id) && Caught(t, id)
    ensures Listed(t, id) == if JobFailed(t, id) then 1 else 0
  {
    FromOpening(c, b, clock, pending, scheduled, moves, t);
    OpeningInTurn(c, clock, pending, scheduled, moves, t, id);
    CaughtLandsRight(t, id);
    RightExactly(t.log, id, JobFailed(t, id));
  }

  lemma {:induction false} OnceIsDistinct(names: seq<Id>)
    requires forall id :: Occurrences(names, id) <= 1
    ensures Distinct(names)
  {
    if names != [] {
      forall id ensures Occurrences(names[1..], id) <= 1 { assert Occurrences(names, id) <= 1; }
      OnceIsDistinct(names[1..]);
      assert Occurrences(names, names[0]) <= 1;
      NoneOccurs(names[1..], names[0]);
    }
  }

  lemma NotInFront(front: seq<Id>, names: seq<Id>, i: nat)
    requires front <= names && i < |names| && names[i] !in front
    ensures i >= |front|
  {
  }

  /**
   * So with every job in turn and caught up, the list is free of duplicates, holds failed jobs only, latest push
   * first, and lacks a failed job only after at least 1000 later pushes.
   */
  lemma ListIsRight(c: Settings, b: Bounds, clock: Time, pending: ZSet, scheduled: ZSet, moves: seq<Move>, t: System)
    requires Fits(c, b) && DisciplinedMoves(c, b, Opening(clock, pending, scheduled), moves, t)
    requires forall id :: AllInTurn(c, Opening(clock, pending, scheduled), moves, id) && Caught(t, id)
    ensures |t.dead| <= 1000 && t.dead <= Names(Marks(t.log)) && Recent(Marks(t.log))
    ensures Distinct(t.dead) && forall id :: id in t.dead ==> JobFailed(t, id)
    ensures forall id :: JobFailed(t, id) && id !in t.dead ==>
              exists i :: 0 <= i < |Marks(t.log)| && Marks(t.log)[i].id == id
                && PushesAfter(t.log, Marks(t.log)[i].pos) >= 1000
  {
    var marks := Marks(t.log);
    var names := Names(marks);
    ListExactly(c, b, clock, pending, scheduled, moves, t, 0);
    MarksRecent(t.log);
    forall id ensures Occurrences(names, id) == (if JobFailed(t, id) then 1 else 0) {
      InTurnIsRight(c, b, clock, pending, scheduled, moves, t, id);
    }
    OnceIsDistinct(names);
    forall id ensures id in names <==> JobFailed(t, id) { NoneOccurs(names, id); }
    OnlyDisplaced(t.dead, t.log);
  }

  /** What the list lacks of the untrimmed one was displaced by later pushes. */
  lemma OnlyDisplaced(dead: seq<Id>, log: seq<Landing>)
    requires Kept(dead, log)
    ensures forall id :: id in dead ==> id in Names(Marks(log))
    ensures forall id :: id in Names(Marks(log)) && id !in dead ==>
              exists i :: 0 <= i < |Marks(log)| && Marks(log)[i].id == id
                && PushesAfter(log, Marks(log)[i].pos) >= 1000
  {
    var marks, names := Marks(log), Names(Marks(log));
    forall id | id in names && id !in dead
      ensures exists i :: 0 <= i < |marks| && marks[i].id == id
                && PushesAfter(log, marks[i].pos) >= 1000
    {
      var i :| 0 <= i < |names| && names[i] == id;
      NotInFront(dead, names, i);
    }
  }
}
