/**
 * The whole system: the database, Redis, and every process with what it will do next. A worker claims what it
 * popped; the heartbeat, the scheduler, the feeder, the reaper and the API carry out one statement or one Redis
 * command at a time, each decided by where the process is and by what the database and Redis answer. Any process can
 * be lost between two of them.
 */
module FullSystem {
  import opened Wrappers
  import opened Jobs
  import opened Keys
  import opened Ordering
  import opened Protocol
  import opened Lifecycle
  import opened Redis
  import opened DeadLetter
  import opened Feeder
  import opened Scheduler
  import opened Reaper

  /** A worker between jobs, with a popped id, with a claimed job, or owing the push of its permanent failure. */
  datatype Phase = Idle | Popped(id: Id, at: Time) | Held(hold: Hold) | Owing(id: Id, note: nat)

  /** What a heartbeat read before it renews: the job in the holder, and the time by its clock and the database's. */
  datatype Reading = Reading(id: Id, wall: Time, readAt: Time)

  datatype Process = Process(phase: Phase, holder: Option<Id>, beat: Option<Reading>, crashedAt: Option<Time>)

  /** A job and the score its row had when it was read. */
  datatype Offer = Offer(id: Id, score: int)

  /**
   * Where an API request or a cycle of the feeder, the reaper or the scheduler is. `since` is the latest time it has
   * reached: no statement it still has to make carries an earlier timestamp.
   */
  datatype Errand =
    | Asking(q: Request)
    | Inserting(key: Option<string>, since: Time)
    | Unqueueing(id: Id)
    | Unscheduling(id: Id)
    | Unlisting(id: Id, note: nat)
    | Enqueueing(offer: Offer)
    | Scheduling(id: Id, runAt: Time)
    | Awake(since: Time)
    | Feeding(todo: seq<Offer>)
    | Reaping(ids: seq<Id>, since: Time)
    | Looked(moment: Time, fromRedis: seq<Id>, since: Time)
    | Promoting(ids: seq<Id>, since: Time)
    | Dropping(ids: seq<Id>, since: Time)
    | Moving(ids: seq<Id>, since: Time, offer: Offer)
    | Adding(ids: seq<Id>, since: Time, offer: Offer)

  /** The permanent failures and manual retries committed so far. */
  datatype Note = Note(id: Id, failed: bool)

  /** `notes` and `log` are histories: of the commits that owe the dead-letter list a command, and of its commands. */
  datatype System = System(
    clock: Time,
    table: map<Id, Entry>,
    procs: map<WorkerId, Process>,
    errands: map<nat, Errand>,
    pending: ZSet,
    scheduled: ZSet,
    dead: seq<Id>,
    notes: seq<Note>,
    log: seq<Landing>)

  /**
   * Who acts: the world, a worker, a request, a maintenance cycle, the key cleanup, or an errand with its next Redis
   * command. Left open are clock readings, answers of queries that may have ties, and handler outcomes.
   */
  datatype Move =
    | Env(e: EnvMove)
    | By(w: WorkerId, m: WorkerMove)
    | For(p: nat, r: RequestMove)
    | Tend(p: nat, b: BatchMove)
    | Clean(wall: Time)
    | Go(p: nat)

  datatype EnvMove =
    | Pass(to: Time)
    | Launch(w: WorkerId)
    | Kill(w: WorkerId)
    | Abandon(p: nat)
    | Wipe
    | Corrupt(toPending: ZSet, toScheduled: ZSet)

  datatype WorkerMove =
    | Pop
    | TryClaim(wall: Time, readAt: Time, now: Time)
    | Begin
    | Report(pct: int)
    | Succeed(result: string, wall: Time)
    | Break(message: string, permanent: bool, wall: Time, readAt: Time)
    | PushFailed
    | Glance(wall: Time)
    | Beat

  datatype RequestMove =
    | Submit(key: Option<string>)
    | Create(id: Id, priority: int, scheduledAt: Option<Time>, created: nat)
    | Ask(id: Id, retry: bool)
    | Write(wall: Time)

  datatype BatchMove =
    | Wake
    | Feed(ids: seq<Id>)
    | Survey(ids: seq<Id>)
    | TakeBack(now: Time)
    | Look(moment: Time, ids: seq<Id>)
    | Scan(now: Time, ids: seq<Id>)
    | Update(now: Time)

  function RowsOf(s: System): map<Id, Job> {
    map id | id in s.table :: s.table[id].job
  }

  predicate Live(s: System, w: WorkerId) {
    w in s.procs && s.procs[w].crashedAt.None?
  }

  /** A live worker with a claimed job whose row exists. */
  predicate Working(s: System, w: WorkerId) {
    Live(s, w) && s.procs[w].phase.Held? && s.procs[w].phase.hold.id in s.table
  }

  predicate Performing(s: System, w: WorkerId) {
    Working(s, w) && s.procs[w].phase.hold.started
  }

  // ---- when a process is where it can make the move; the guards of its statements are not looked at here ----

  predicate CanEnv(s: System, e: EnvMove) {
    match e
    case Pass(to) => s.clock <= to
    case Launch(w) => w !in s.procs
    case Kill(w) => Live(s, w)
    case Abandon(p) => p in s.errands
    case _ => true
  }

  predicate CanBy(s: System, w: WorkerId, m: WorkerMove) {
    Live(s, w) &&
    match m
    case Pop => s.procs[w].phase.Idle? && s.pending != map[]
    case TryClaim(_, readAt, now) => s.procs[w].phase.Popped? && s.procs[w].phase.at <= readAt <= now <= s.clock
    case Begin => Working(s, w) && !s.procs[w].phase.hold.started
    case Report(_) => Performing(s, w)
    case Succeed(_, _) => Performing(s, w)
    case Break(_, _, _, readAt) => Performing(s, w) && s.procs[w].phase.hold.since <= readAt <= s.clock
    case PushFailed => s.procs[w].phase.Owing?
    case Glance(_) => s.procs[w].holder.Some? && s.procs[w].beat.None?
    case Beat => s.procs[w].beat.Some? && s.procs[w].beat.value.readAt <= s.clock
  }

  predicate CanFor(c: Settings, s: System, p: nat, r: RequestMove) {
    match r
    case Submit(_) => p !in s.errands
    case Create(id, _, _, created) =>
      && p in s.errands && s.errands[p].Inserting? && id !in s.table && c.defaultMaxAttempts > 0
      && s.errands[p].since <= created <= s.clock && (s.errands[p].key.Some? ==> created == s.errands[p].since)
    case Ask(id, _) => p !in s.errands && id in s.table
    case Write(_) => p in s.errands && s.errands[p].Asking? && s.errands[p].q.id in s.table
  }

  predicate CanTend(c: Settings, s: System, p: nat, b: BatchMove) {
    match b
    case Wake => p !in s.errands
    case Feed(ids) =>
      && p in s.errands && s.errands[p].Awake? && (forall id :: id in ids ==> id in s.table)
      && TopOf(ids, ReadyRanks(RowsOf(s), s.errands[p].since), c.batch)
    case Survey(ids) =>
      p in s.errands && s.errands[p].Awake? && TopOf(ids, ExpiredRanks(RowsOf(s), s.errands[p].since), c.batch)
    case TakeBack(now) =>
      p in s.errands && s.errands[p].Reaping? && s.errands[p].ids != [] && s.errands[p].since <= now <= s.clock
    case Look(moment, ids) => p !in s.errands && TopOf(ids, Ranks(DueMembers(s.scheduled, moment)), c.batch)
    case Scan(now, ids) =>
      && p in s.errands && s.errands[p].Looked? && s.errands[p].since <= now <= s.clock
      && TopOf(ids, DueRanks(RowsOf(s), s.errands[p].moment), c.batch)
    case Update(now) =>
      p in s.errands && s.errands[p].Promoting? && s.errands[p].ids != [] && s.errands[p].since <= now <= s.clock
  }

  /** An errand whose next step is a Redis command, or that has nothing left to do. */
  predicate Commanding(e: Errand) {
    match e
    case Unqueueing(_) => true
    case Unscheduling(_) => true
    case Unlisting(_, _) => true
    case Enqueueing(_) => true
    case Scheduling(_, _) => true
    case Feeding(_) => true
    case Reaping(ids, _) => ids == []
    case Promoting(ids, _) => ids == []
    case Dropping(ids, _) => ids != []
    case Moving(ids, _, _) => ids != []
    case Adding(ids, _, _) => ids != []
    case _ => false
  }

  predicate CanMove(c: Settings, s: System, m: Move) {
    match m
    case Env(e) => CanEnv(s, e)
    case By(w, a) => CanBy(s, w, a)
    case For(p, r) => CanFor(c, s, p, r)
    case Tend(p, b) => CanTend(c, s, p, b)
    case Clean(_) => true
    case Go(p) => p in s.errands && Commanding(s.errands[p])
  }

  // ---- the world ----

  function DoEnv(s: System, e: EnvMove): System
    requires CanEnv(s, e)
  {
    match e
    case Pass(to) => s.(clock := to)
    case Launch(w) => s.(procs := s.procs[w := Process(Idle, None, None, None)])
    case Kill(w) => s.(procs := s.procs[w := s.procs[w].(crashedAt := Some(s.clock))])
    case Abandon(p) => s.(errands := s.errands - {p})
    case Wipe => s.(pending := map[], scheduled := map[], dead := [], log := s.log + [Cleared])
    case Corrupt(pending, scheduled) => s.(pending := pending, scheduled := scheduled)
  }

  // ---- workers ----

  function Put(s: System, id: Id, job: Job, kind: Kind, attempt: nat, delay: int): map<Id, Entry>
    requires id in s.table
  {
    s.table[id := Entry(job, s.table[id].history + [Event(kind, s.clock, attempt, delay)])]
  }

  function InPhase(s: System, w: WorkerId, phase: Phase): map<WorkerId, Process>
    requires w in s.procs
  {
    s.procs[w := s.procs[w].(phase := phase)]
  }

  function LetGo(holder: Option<Id>, id: Id): Option<Id> {
    if holder == Some(id) then None else holder
  }

  /** Done with a job: the holder lets go of it. */
  function Freed(s: System, w: WorkerId, id: Id): map<WorkerId, Process>
    requires w in s.procs
  {
    s.procs[w := s.procs[w].(phase := Idle, holder := LetGo(s.procs[w].holder, id))]
  }

  /** The member ZPOPMIN takes. */
  ghost function Head(z: ZSet): (id: Id)
    requires z != map[]
    ensures First(z, id)
  {
    assert Ranks(z).Keys == z.Keys;
    LeastExists(Ranks(z));
    assert exists x :: First(z, x) by {
      var x :| Least(Ranks(z), x);
      assert First(z, x);
    }
    var id :| First(z, id);
    id
  }

  ghost function DoPop(s: System, w: WorkerId): System
    requires w in s.procs && s.pending != map[]
  {
    s.(pending := s.pending - {Head(s.pending)}, procs := InPhase(s, w, Popped(Head(s.pending), s.clock)))
  }

  /** UPDATE ... WHERE status = 'pending' ... RETURNING, and whether a row came back. */
  function DoTryClaim(c: Settings, s: System, w: WorkerId, wall: Time, readAt: Time, now: Time): System
    requires Live(s, w) && s.procs[w].phase.Popped?
  {
    var id := s.procs[w].phase.id;
    if id in s.table && Ready(s.table[id].job, now) then
      var job := ClaimRow(s.table[id].job, w, wall + c.lease, now);
      s.(table := Put(s, id, job, Claimed, job.attempts, 0),
         procs := s.procs[w := s.procs[w].(phase := Held(Hold(id, job, readAt, s.clock, false)), holder := Some(id))])
    else s.(procs := InPhase(s, w, Idle))
  }

  function DoBegin(s: System, w: WorkerId): System
    requires Working(s, w)
  {
    var h := s.procs[w].phase.hold;
    s.(table := Put(s, h.id, s.table[h.id].job, JobStarted, h.copy.attempts, 0),
       procs := InPhase(s, w, Held(h.(started := true))))
  }

  function DoReport(s: System, w: WorkerId, pct: int): System
    requires Working(s, w)
  {
    var h := s.procs[w].phase.hold;
    var copy := ProgressCopy(h.copy, pct);
    s.(table := s.table[h.id := s.table[h.id].(job := Flush(s.table[h.id].job, h.copy, copy))],
       procs := InPhase(s, w, Held(h.(copy := copy))))
  }

  function DoSucceed(s: System, w: WorkerId, result: string, wall: Time): System
    requires Working(s, w)
  {
    var h := s.procs[w].phase.hold;
    var row := Flush(s.table[h.id].job, h.copy, CompleteCopy(h.copy, result, wall));
    s.(table := Put(s, h.id, row, JobCompleted, h.copy.attempts, 0), procs := Freed(s, w, h.id))
  }

  /** The failure commits, and then a permanent one is owed its push. */
  function DoBreak(c: Settings, s: System, w: WorkerId, message: string, permanent: bool, wall: Time): System
    requires Working(s, w)
  {
    var h := s.procs[w].phase.hold;
    var row := Flush(s.table[h.id].job, h.copy, FailCopy(c, h.copy, message, permanent, wall));
    if Retries(h.copy, permanent) then
      s.(table := Put(s, h.id, row, RetryScheduled, h.copy.attempts, Backoff(c, h.copy.attempts)),
         procs := Freed(s, w, h.id))
    else
      s.(table := Put(s, h.id, row, FailedPermanently, h.copy.attempts, 0),
         procs := InPhase(s, w, Owing(h.id, |s.notes|)), notes := s.notes + [Note(h.id, true)])
  }

  function DoPush(s: System, w: WorkerId): System
    requires w in s.procs && s.procs[w].phase.Owing?
  {
    var o := s.procs[w].phase;
    s.(dead := PushDead(s.dead, o.id), log := s.log + [Pushed(o.id, o.note)], procs := Freed(s, w, o.id))
  }

  function DoGlance(s: System, w: WorkerId, wall: Time): System
    requires w in s.procs && s.procs[w].holder.Some?
  {
    s.(procs := s.procs[w := s.procs[w].(beat := Some(Reading(s.procs[w].holder.value, wall, s.clock)))])
  }

  /** The renewal, and whether a row came back; if not, the holder lets go. */
  function DoBeat(c: Settings, s: System, w: WorkerId): System
    requires w in s.procs && s.procs[w].beat.Some?
  {
    var r := s.procs[w].beat.value;
    if r.id in s.table && OwnedBy(s.table[r.id].job, w) then
      s.(table := s.table[r.id := s.table[r.id].(job := s.table[r.id].job.(leasedUntil := Some(r.wall + c.lease)))],
         procs := s.procs[w := s.procs[w].(beat := None)])
    else
      s.(procs := s.procs[w := s.procs[w].(beat := None, holder := LetGo(s.procs[w].holder, r.id))])
  }

  ghost function DoBy(c: Settings, s: System, w: WorkerId, m: WorkerMove): System
    requires CanBy(s, w, m)
  {
    match m
    case Pop => DoPop(s, w)
    case TryClaim(wall, readAt, now) => DoTryClaim(c, s, w, wall, readAt, now)
    case Begin => DoBegin(s, w)
    case Report(pct) => DoReport(s, w, pct)
    case Succeed(result, wall) => DoSucceed(s, w, result, wall)
    case Break(message, permanent, wall, _) => DoBreak(c, s, w, message, permanent, wall)
    case PushFailed => DoPush(s, w)
    case Glance(wall) => DoGlance(s, w, wall)
    case Beat => DoBeat(c, s, w)
  }

  lemma FlushApart(c: Settings, s: System, w: WorkerId, m: WorkerMove)
    requires CanBy(s, w, m) && (m.Report? || m.Succeed? || m.Break?)
    ensures var t := DoBy(c, s, w, m); t.errands == s.errands && t.scheduled == s.scheduled && t.clock == s.clock
  {
  }

  /** A worker touches no errand, and not the delayed set. */
  lemma ByApart(c: Settings, s: System, w: WorkerId, m: WorkerMove)
    requires CanBy(s, w, m)
    ensures var t := DoBy(c, s, w, m); t.errands == s.errands && t.scheduled == s.scheduled && t.clock == s.clock
  {
    if m.Report? || m.Succeed? || m.Break? { FlushApart(c, s, w, m); }
  }

  // ---- requests ----

  predicate KeyTaken(table: map<Id, Entry>, key: Option<string>) {
    key.Some? && exists i :: i in table && table[i].job.key == key
  }

  /** The lookup of a submit: it answers with the holder of its key, or goes on to the insert. */
  function DoSubmit(s: System, p: nat, key: Option<string>): System {
    if KeyTaken(s.table, key) then s else s.(errands := s.errands[p := Inserting(key, s.clock)])
  }

  /** The insert, unless the unique index has the key by now; then the ZADD is owed. */
  function DoCreate(c: Settings, s: System, p: nat, id: Id, priority: int, scheduledAt: Option<Time>, created: nat)
    : System
    requires p in s.errands && s.errands[p].Inserting?
  {
    var key := s.errands[p].key;
    if KeyTaken(s.table, key) then s.(errands := s.errands - {p})
    else
      var job := NewJob(c, priority, scheduledAt, key, created);
      s.(table := s.table[id := Entry(job, [Event(JobCreated, s.clock, 0, 0)])],
         errands := s.errands[p := if scheduledAt.Some? then Scheduling(id, scheduledAt.value)
                                   else Enqueueing(Offer(id, JobScore(job)))])
  }

  /** The read and the check of a cancel or manual retry. */
  function DoAsk(s: System, p: nat, id: Id, retry: bool): System
    requires id in s.table
  {
    var job := s.table[id].job;
    if retry && job.status == Failed then s.(errands := s.errands[p := Asking(Retrying(id, job))])
    else if !retry && Cancellable(job) then s.(errands := s.errands[p := Asking(Cancelling(id, job))])
    else s
  }

  /** Its write by primary key, and the commands it then owes. */
  function DoWrite(s: System, p: nat, wall: Time): System
    requires p in s.errands && s.errands[p].Asking? && s.errands[p].q.id in s.table
  {
    var q := s.errands[p].q;
    if q.Cancelling? then
      var row := Flush(s.table[q.id].job, q.copy, CancelCopy(q.copy));
      s.(table := Put(s, q.id, row, JobCancelled, q.copy.attempts, 0), errands := s.errands[p := Unqueueing(q.id)])
    else
      var row := Flush(s.table[q.id].job, q.copy, ReopenCopy(q.copy, wall));
      s.(table := Put(s, q.id, row, ManualRetry, q.copy.attempts, 0),
         errands := s.errands[p := Unlisting(q.id, |s.notes|)], notes := s.notes + [Note(q.id, false)])
  }

  function DoFor(c: Settings, s: System, p: nat, r: RequestMove): System
    requires CanFor(c, s, p, r)
  {
    match r
    case Submit(key) => DoSubmit(s, p, key)
    case Create(id, priority, scheduledAt, created) => DoCreate(c, s, p, id, priority, scheduledAt, created)
    case Ask(id, retry) => DoAsk(s, p, id, retry)
    case Write(wall) => DoWrite(s, p, wall)
  }

  // ---- maintenance ----

  function Offers(rows: map<Id, Job>, ids: seq<Id>): (offers: seq<Offer>)
    requires forall id :: id in ids ==> id in rows
    ensures |offers| == |ids| && forall i :: 0 <= i < |ids| ==> offers[i] == Offer(ids[i], JobScore(rows[ids[i]]))
  {
    if ids == [] then []
    else Offers(rows, ids[..|ids| - 1]) + [Offer(ids[|ids| - 1], JobScore(rows[ids[|ids| - 1]]))]
  }

  /** An errand that was not there before leaves no trace when it is gone. */
  lemma Gone(errands: map<nat, Errand>, p: nat, e: Errand)
    requires p !in errands
    ensures errands[p := e] - {p} == errands
  {
  }

  function On(s: System, p: nat, e: Errand): System {
    s.(errands := s.errands[p := e])
  }

  /** The reaper's conditional UPDATE of its next row. */
  function DoTakeBack(s: System, p: nat, now: Time): System
    requires p in s.errands && s.errands[p].Reaping? && s.errands[p].ids != []
  {
    var ids := s.errands[p].ids;
    if ids[0] in s.table && Expired(s.table[ids[0]].job, now) then
      var job := s.table[ids[0]].job;
      s.(table := Put(s, ids[0], ReapRow(job), Reaped, job.attempts, 0),
         errands := s.errands[p := Reaping(ids[1..], now)])
    else On(s, p, Reaping(ids[1..], now))
  }

  /** The scheduler's conditional UPDATE of its next candidate, and whether a row came back. */
  function DoUpdate(s: System, p: nat, now: Time): System
    requires p in s.errands && s.errands[p].Promoting? && s.errands[p].ids != []
  {
    var ids := s.errands[p].ids;
    if ids[0] in s.table && Due(s.table[ids[0]].job, now) then
      var job := s.table[ids[0]].job;
      s.(table := Put(s, ids[0], PromoteRow(job), Promoted, job.attempts, 0),
         errands := s.errands[p := Moving(ids, now, Offer(ids[0], JobScore(job)))])
    else On(s, p, Dropping(ids, now))
  }

  function DoTend(c: Settings, s: System, p: nat, b: BatchMove): System
    requires CanTend(c, s, p, b)
  {
    match b
    case Wake => On(s, p, Awake(s.clock))
    case Feed(ids) => On(s, p, Feeding(Offers(RowsOf(s), ids)))
    case Survey(ids) => On(s, p, Reaping(ids, s.errands[p].since))
    case TakeBack(now) => DoTakeBack(s, p, now)
    case Look(moment, ids) => On(s, p, Looked(moment, ids, s.clock))
    case Scan(now, ids) => On(s, p, Promoting(Dedupe(s.errands[p].fromRedis + ids), now))
    case Update(now) => DoUpdate(s, p, now)
  }

  /** A cycle of the feeder, the reaper or the scheduler. */
  predicate Cycling(e: Errand) {
    e.Awake? || e.Feeding? || e.Reaping? || e.Looked? || e.Promoting? || e.Dropping? || e.Moving? || e.Adding?
  }

  /** A statement of a cycle touches its own errand, and otherwise at most the table. */
  lemma TendApart(c: Settings, s: System, p: nat, b: BatchMove)
    requires CanTend(c, s, p, b)
    ensures var t := DoTend(c, s, p, b);
            && p in t.errands && t == s.(table := t.table, errands := s.errands[p := t.errands[p]])
            && Cycling(t.errands[p]) && (p in s.errands ==> Cycling(s.errands[p]))
  {
    match b {
      case TakeBack(now) => TakeBackApart(s, p, now);
      case Update(now) => UpdateApart(s, p, now);
      case _ =>
    }
  }

  lemma TakeBackApart(s: System, p: nat, now: Time)
    requires p in s.errands && s.errands[p].Reaping? && s.errands[p].ids != []
    ensures var t := DoTakeBack(s, p, now);
            && p in t.errands && t == s.(table := t.table, errands := s.errands[p := t.errands[p]])
            && Cycling(t.errands[p])
  {
  }

  lemma UpdateApart(s: System, p: nat, now: Time)
    requires p in s.errands && s.errands[p].Promoting? && s.errands[p].ids != []
    ensures var t := DoUpdate(s, p, now);
            && p in t.errands && t == s.(table := t.table, errands := s.errands[p := t.errands[p]])
            && Cycling(t.errands[p])
  {
  }

  // ---- Redis commands ----

  /** Where an errand goes from its next Redis command. */
  function Onward(e: Errand): Option<Errand>
    requires Commanding(e)
  {
    match e
    case Unqueueing(id) => Some(Unscheduling(id))
    case Feeding(todo) => if todo == [] then None else Some(Feeding(todo[1..]))
    case Dropping(ids, since) => Some(Promoting(ids[1..], since))
    case Moving(ids, since, o) => Some(Adding(ids, since, o))
    case Adding(ids, since, _) => Some(Promoting(ids[1..], since))
    case _ => None
  }

  /** The next ZADD to the dispatch set, and whether it is an NX add. */
  function NextAdd(e: Errand): Option<(Offer, bool)> {
    match e
    case Enqueueing(o) => Some((o, false))
    case Adding(_, _, o) => Some((o, false))
    case Feeding(todo) => if todo == [] then None else Some((todo[0], true))
    case _ => None
  }

  function PendingAfter(z: ZSet, e: Errand): ZSet {
    if e.Unqueueing? then z - {e.id}
    else if NextAdd(e).Some? then
      var (o, nx) := NextAdd(e).value;
      ZAdd(z, o.id, o.score, nx)
    else z
  }

  function ScheduledAfter(z: ZSet, e: Errand): ZSet {
    match e
    case Unscheduling(id) => z - {id}
    case Scheduling(id, runAt) => ZAdd(z, id, runAt, false)
    case Dropping(ids, _) => if ids == [] then z else z - {ids[0]}
    case Moving(ids, _, _) => if ids == [] then z else z - {ids[0]}
    case _ => z
  }

  /** What it sends to the dead-letter list. */
  function Sent(e: Errand): seq<Landing> {
    if e.Unlisting? then [Removed(e.id, e.note)] else []
  }

  function DoGo(s: System, p: nat): System
    requires p in s.errands && Commanding(s.errands[p])
  {
    var e := s.errands[p];
    s.(pending := PendingAfter(s.pending, e), scheduled := ScheduledAfter(s.scheduled, e),
       dead := if e.Unlisting? then Without(s.dead, e.id) else s.dead, log := s.log + Sent(e),
       errands := if Onward(e).Some? then s.errands[p := Onward(e).value] else s.errands - {p})
  }

  ghost function MoveOn(c: Settings, s: System, m: Move): System
    requires CanMove(c, s, m)
  {
    match m
    case Env(e) => DoEnv(s, e)
    case By(w, a) => DoBy(c, s, w, a)
    case For(p, r) => DoFor(c, s, p, r)
    case Tend(p, b) => DoTend(c, s, p, b)
    case Clean(wall) => s.(table := ClearKeys(s.table, wall))
    case Go(p) => DoGo(s, p)
  }

  ghost predicate Moves(c: Settings, s: System, moves: seq<Move>, t: System)
    decreases |moves|
  {
    if moves == [] then s == t
    else CanMove(c, s, moves[0]) && Moves(c, MoveOn(c, s, moves[0]), moves[1..], t)
  }

  /** No outside hand on the content of the sorted sets, but for their loss. */
  predicate Honest(moves: seq<Move>) {
    forall i :: 0 <= i < |moves| ==> !(moves[i].Env? && moves[i].e.Corrupt?)
  }

  // ---- the database alone, as seen in the whole system ----

  function WorkerIn(p: Process): Worker {
    Worker(if p.phase.Held? then Some(p.phase.hold) else None, p.crashedAt)
  }

  function WorkersIn(procs: map<WorkerId, Process>): map<WorkerId, Worker> {
    map w | w in procs :: WorkerIn(procs[w])
  }

  function RequestsIn(errands: map<nat, Errand>): map<nat, Request> {
    map p | p in errands && errands[p].Asking? :: errands[p].q
  }

  function Abs(s: System): State {
    State(s.clock, s.table, WorkersIn(s.procs), RequestsIn(s.errands))
  }

  // ---- the database step of a move: none while the process talks to Redis, and none when its guard fails ----

  function EnvStep(s: System, e: EnvMove): seq<Action> {
    match e
    case Pass(to) => [World(Tick(to))]
    case Launch(w) => [World(Spawn(w))]
    case Kill(w) => [World(Crash(w))]
    case Abandon(p) => if p in s.errands && s.errands[p].Asking? then [Api(Drop(p))] else []
    case _ => []
  }

  function ByStep(s: System, w: WorkerId, m: WorkerMove): seq<Action>
    requires CanBy(s, w, m)
  {
    match m
    case TryClaim(wall, readAt, now) =>
      var id := s.procs[w].phase.id;
      if id in s.table && Ready(s.table[id].job, now) then [Work(w, Claim(id, wall, readAt, now))] else []
    case Begin => [Work(w, Start)]
    case Report(pct) => [Work(w, Progress(pct))]
    case Succeed(result, wall) => [Work(w, Complete(result, wall))]
    case Break(message, permanent, wall, readAt) => [Work(w, Fail(message, permanent, wall, readAt))]
    case Beat =>
      var r := s.procs[w].beat.value;
      if r.id in s.table && OwnedBy(s.table[r.id].job, w) then [Work(w, Renew(r.id, r.wall, r.readAt))] else []
    case _ => []
  }

  function ForStep(c: Settings, s: System, p: nat, r: RequestMove): seq<Action>
    requires CanFor(c, s, p, r)
  {
    match r
    case Submit(_) => []
    case Create(id, priority, scheduledAt, created) =>
      var key := s.errands[p].key;
      if KeyTaken(s.table, key) then [] else [Api(Insert(id, priority, scheduledAt, key, created))]
    case Ask(id, retry) =>
      if retry && s.table[id].job.status == Failed then [Api(ReadRetry(p, id))]
      else if !retry && Cancellable(s.table[id].job) then [Api(ReadCancel(p, id))]
      else []
    case Write(wall) => if s.errands[p].q.Cancelling? then [Api(CommitCancel(p))] else [Api(CommitRetry(p, wall))]
  }

  function TendStep(c: Settings, s: System, p: nat, b: BatchMove): seq<Action>
    requires CanTend(c, s, p, b)
  {
    match b
    case TakeBack(now) =>
      var id := s.errands[p].ids[0];
      if id in s.table && Expired(s.table[id].job, now) then [Upkeep(Reap(id, now))] else []
    case Update(now) =>
      var id := s.errands[p].ids[0];
      if id in s.table && Due(s.table[id].job, now) then [Upkeep(Promote(id, now))] else []
    case _ => []
  }

  function DbStep(c: Settings, s: System, m: Move): seq<Action>
    requires CanMove(c, s, m)
  {
    match m
    case Env(e) => EnvStep(s, e)
    case By(w, a) => ByStep(s, w, a)
    case For(p, r) => ForStep(c, s, p, r)
    case Tend(p, b) => TendStep(c, s, p, b)
    case Clean(wall) => [Upkeep(Cleanup(wall))]
    case Go(_) => []
  }

  /** The database went from `s` to `t` by this step, or stayed. */
  predicate Took(c: Settings, s: State, step: seq<Action>, t: State) {
    if step == [] then t == s else |step| == 1 && Enabled(c, s, step[0]) && t == Apply(c, s, step[0])
  }

  lemma OneWorker(procs: map<WorkerId, Process>, w: WorkerId, p: Process)
    ensures WorkersIn(procs[w := p]) == WorkersIn(procs)[w := WorkerIn(p)]
  {
  }

  lemma SameWorkers(procs: map<WorkerId, Process>, w: WorkerId, p: Process)
    requires w in procs && WorkerIn(p) == WorkerIn(procs[w])
    ensures WorkersIn(procs[w := p]) == WorkersIn(procs)
  {
    OneWorker(procs, w, p);
  }

  lemma OneErrand(errands: map<nat, Errand>, p: nat, e: Errand)
    ensures RequestsIn(errands[p := e])
         == if e.Asking? then RequestsIn(errands)[p := e.q] else RequestsIn(errands) - {p}
    ensures RequestsIn(errands - {p}) == RequestsIn(errands) - {p}
  {
  }

  /** An errand that is not a request in its read-and-write is none before and after. */
  lemma NoRequest(errands: map<nat, Errand>, p: nat, e: Errand)
    requires !e.Asking? && (p in errands ==> !errands[p].Asking?)
    ensures RequestsIn(errands[p := e]) == RequestsIn(errands) && RequestsIn(errands - {p}) == RequestsIn(errands)
  {
  }

  lemma SimulateClaim(c: Settings, s: System, w: WorkerId, m: WorkerMove)
    requires m.TryClaim? && CanBy(s, w, m)
    ensures Took(c, Abs(s), ByStep(s, w, m), Abs(DoTryClaim(c, s, w, m.wall, m.readAt, m.now)))
  {
    var t := DoTryClaim(c, s, w, m.wall, m.readAt, m.now);
    OneWorker(s.procs, w, t.procs[w]);
    if ByStep(s, w, m) == [] { SameWorkers(s.procs, w, t.procs[w]); }
  }

  lemma SimulateBegin(c: Settings, s: System, w: WorkerId)
    requires CanBy(s, w, Begin)
    ensures Took(c, Abs(s), ByStep(s, w, Begin), Abs(DoBegin(s, w)))
  {
    OneWorker(s.procs, w, DoBegin(s, w).procs[w]);
  }

  lemma SimulateReport(c: Settings, s: System, w: WorkerId, pct: int)
    requires CanBy(s, w, Report(pct))
    ensures Took(c, Abs(s), ByStep(s, w, Report(pct)), Abs(DoReport(s, w, pct)))
  {
    OneWorker(s.procs, w, DoReport(s, w, pct).procs[w]);
  }

  lemma SimulateSucceed(c: Settings, s: System, w: WorkerId, m: WorkerMove)
    requires m.Succeed? && CanBy(s, w, m)
    ensures Took(c, Abs(s), ByStep(s, w, m), Abs(DoSucceed(s, w, m.result, m.wall)))
  {
    OneWorker(s.procs, w, DoSucceed(s, w, m.result, m.wall).procs[w]);
  }

  lemma SimulateBreak(c: Settings, s: System, w: WorkerId, m: WorkerMove)
    requires m.Break? && CanBy(s, w, m)
    ensures Took(c, Abs(s), ByStep(s, w, m), Abs(DoBreak(c, s, w, m.message, m.permanent, m.wall)))
  {
    OneWorker(s.procs, w, DoBreak(c, s, w, m.message, m.permanent, m.wall).procs[w]);
  }

  lemma SimulateBeat(c: Settings, s: System, w: WorkerId)
    requires CanBy(s, w, Beat)
    ensures Took(c, Abs(s), ByStep(s, w, Beat), Abs(DoBeat(c, s, w)))
  {
    SameWorkers(s.procs, w, DoBeat(c, s, w).procs[w]);
  }

  lemma SimulateQuietWorker(c: Settings, s: System, w: WorkerId, m: WorkerMove)
    requires (m.Pop? || m.PushFailed? || m.Glance?) && CanBy(s, w, m)
    ensures Took(c, Abs(s), ByStep(s, w, m), Abs(DoBy(c, s, w, m)))
  {
    SameWorkers(s.procs, w, DoBy(c, s, w, m).procs[w]);
  }

  lemma SimulateBy(c: Settings, s: System, w: WorkerId, m: WorkerMove)
    requires CanBy(s, w, m)
    ensures Took(c, Abs(s), ByStep(s, w, m), Abs(DoBy(c, s, w, m)))
  {
    match m {
      case TryClaim(_, _, _) => SimulateClaim(c, s, w, m);
      case Begin => SimulateBegin(c, s, w);
      case Report(pct) => SimulateReport(c, s, w, pct);
      case Succeed(_, _) => SimulateSucceed(c, s, w, m);
      case Break(_, _, _, _) => SimulateBreak(c, s, w, m);
      case Beat => SimulateBeat(c, s, w);
      case _ => SimulateQuietWorker(c, s, w, m);
    }
  }

  lemma SimulateSubmit(c: Settings, s: System, p: nat, key: Option<string>)
    requires p !in s.errands
    ensures Abs(DoSubmit(s, p, key)) == Abs(s)
  {
    NoRequest(s.errands, p, Inserting(key, s.clock));
  }

  lemma SimulateCreate(c: Settings, s: System, p: nat, r: RequestMove)
    requires r.Create? && CanFor(c, s, p, r)
    ensures Took(c, Abs(s), ForStep(c, s, p, r), Abs(DoCreate(c, s, p, r.id, r.priority, r.scheduledAt, r.created)))
  {
    var t := DoCreate(c, s, p, r.id, r.priority, r.scheduledAt, r.created);
    NoRequest(s.errands, p, if p in t.errands then t.errands[p] else s.errands[p]);
  }

  lemma SimulateAsk(c: Settings, s: System, p: nat, r: RequestMove)
    requires r.Ask? && CanFor(c, s, p, r)
    ensures Took(c, Abs(s), ForStep(c, s, p, r), Abs(DoAsk(s, p, r.id, r.retry)))
  {
    OneErrand(s.errands, p, Asking(Retrying(r.id, s.table[r.id].job)));
    OneErrand(s.errands, p, Asking(Cancelling(r.id, s.table[r.id].job)));
  }

  lemma SimulateWrite(c: Settings, s: System, p: nat, wall: Time)
    requires CanFor(c, s, p, Write(wall))
    ensures Took(c, Abs(s), ForStep(c, s, p, Write(wall)), Abs(DoWrite(s, p, wall)))
  {
    OneErrand(s.errands, p, DoWrite(s, p, wall).errands[p]);
  }

  lemma SimulateFor(c: Settings, s: System, p: nat, r: RequestMove)
    requires CanFor(c, s, p, r)
    ensures Took(c, Abs(s), ForStep(c, s, p, r), Abs(DoFor(c, s, p, r)))
  {
    match r {
      case Submit(key) => SimulateSubmit(c, s, p, key);
      case Create(_, _, _, _) => SimulateCreate(c, s, p, r);
      case Ask(_, _) => SimulateAsk(c, s, p, r);
      case Write(wall) => SimulateWrite(c, s, p, wall);
    }
  }

  lemma SimulateOn(s: System, p: nat, e: Errand)
    requires !e.Asking? && (p in s.errands ==> !s.errands[p].Asking?)
    ensures Abs(On(s, p, e)) == Abs(s)
  {
    NoRequest(s.errands, p, e);
  }

  lemma SimulateTakeBack(c: Settings, s: System, p: nat, now: Time)
    requires CanTend(c, s, p, TakeBack(now))
    ensures Took(c, Abs(s), TendStep(c, s, p, TakeBack(now)), Abs(DoTakeBack(s, p, now)))
  {
    NoRequest(s.errands, p, Reaping(s.errands[p].ids[1..], now));
  }

  lemma SimulateUpdate(c: Settings, s: System, p: nat, now: Time)
    requires CanTend(c, s, p, Update(now))
    ensures Took(c, Abs(s), TendStep(c, s, p, Update(now)), Abs(DoUpdate(s, p, now)))
  {
    NoRequest(s.errands, p, DoUpdate(s, p, now).errands[p]);
  }

  lemma SimulateTend(c: Settings, s: System, p: nat, b: BatchMove)
    requires CanTend(c, s, p, b)
    ensures Took(c, Abs(s), TendStep(c, s, p, b), Abs(DoTend(c, s, p, b)))
  {
    match b {
      case TakeBack(now) => SimulateTakeBack(c, s, p, now);
      case Update(now) => SimulateUpdate(c, s, p, now);
      case Wake => SimulateOn(s, p, Awake(s.clock));
      case Feed(ids) => SimulateOn(s, p, Feeding(Offers(RowsOf(s), ids)));
      case Survey(ids) => SimulateOn(s, p, Reaping(ids, s.errands[p].since));
      case Look(moment, ids) => SimulateOn(s, p, Looked(moment, ids, s.clock));
      case Scan(now, ids) => SimulateOn(s, p, Promoting(Dedupe(s.errands[p].fromRedis + ids), now));
    }
  }

  lemma SimulateGo(s: System, p: nat)
    requires p in s.errands && Commanding(s.errands[p])
    ensures Abs(DoGo(s, p)) == Abs(s)
  {
    var e := s.errands[p];
    NoRequest(s.errands, p, if Onward(e).Some? then Onward(e).value else e);
  }

  lemma SimulateEnv(c: Settings, s: System, e: EnvMove)
    requires CanEnv(s, e)
    ensures Took(c, Abs(s), EnvStep(s, e), Abs(DoEnv(s, e)))
  {
    match e {
      case Launch(w) => OneWorker(s.procs, w, Process(Idle, None, None, None));
      case Kill(w) => OneWorker(s.procs, w, s.procs[w].(crashedAt := Some(s.clock)));
      case Abandon(p) =>
        OneErrand(s.errands, p, Feeding([]));
        if !s.errands[p].Asking? { NoRequest(s.errands, p, Feeding([])); }
      case _ =>
    }
  }

  /** Every move of every process is one step of the database alone, or none. */
  lemma Simulates(c: Settings, s: System, m: Move)
    requires CanMove(c, s, m)
    ensures Took(c, Abs(s), DbStep(c, s, m), Abs(MoveOn(c, s, m)))
  {
    match m {
      case Env(e) => SimulateEnv(c, s, e);
      case By(w, a) => SimulateBy(c, s, w, a);
      case For(p, r) => SimulateFor(c, s, p, r);
      case Tend(p, b) => SimulateTend(c, s, p, b);
      case Clean(_) =>
      case Go(p) => SimulateGo(s, p);
    }
  }

  ghost function DbRun(c: Settings, s: System, moves: seq<Move>): seq<Action>
    decreases |moves|
  {
    if moves == [] || !CanMove(c, s, moves[0]) then []
    else DbStep(c, s, moves[0]) + DbRun(c, MoveOn(c, s, moves[0]), moves[1..])
  }

  lemma TookThen(c: Settings, s: State, step: seq<Action>, mid: State, rest: seq<Action>, t: State)
    requires Took(c, s, step, mid) && RunsTo(c, mid, rest, t)
    ensures RunsTo(c, s, step + rest, t)
  {
    if step == [] {
      assert step + rest == rest;
    } else {
      assert (step + rest)[1..] == rest;
    }
  }

  /** Every run of the whole system, whatever Redis holds, projects onto a run of the database alone. */
  lemma {:induction false} ProjectsToDatabase(c: Settings, s: System, moves: seq<Move>, t: System)
    requires Moves(c, s, moves, t)
    ensures RunsTo(c, Abs(s), DbRun(c, s, moves), Abs(t))
    decreases |moves|
  {
    if moves != [] {
      var next := MoveOn(c, s, moves[0]);
      Simulates(c, s, moves[0]);
      ProjectsToDatabase(c, next, moves[1..], t);
      TookThen(c, Abs(s), DbStep(c, s, moves[0]), Abs(next), DbRun(c, next, moves[1..]), Abs(t));
    }
  }

  /** A run in the disciplined regime: every database step of it is careful and leaves workers on time. */
  ghost predicate DisciplinedMoves(c: Settings, b: Bounds, s: System, moves: seq<Move>, t: System)
    decreases |moves|
  {
    if moves == [] then s == t
    else
      && CanMove(c, s, moves[0])
      && (forall a :: a in DbStep(c, s, moves[0]) ==> Step(c, b, Abs(s), a))
      && DisciplinedMoves(c, b, MoveOn(c, s, moves[0]), moves[1..], t)
  }

  lemma TookDisciplined(c: Settings, b: Bounds, s: State, step: seq<Action>, mid: State, rest: seq<Action>, t: State)
    requires Took(c, s, step, mid) && Disciplined(c, b, mid, rest, t) && forall a :: a in step ==> Step(c, b, s, a)
    ensures Disciplined(c, b, s, step + rest, t)
  {
    if step == [] {
      assert step + rest == rest;
    } else {
      assert step[0] in step && (step + rest)[1..] == rest;
    }
  }

  lemma {:induction false} DisciplinedProjects(c: Settings, b: Bounds, s: System, moves: seq<Move>, t: System)
    requires DisciplinedMoves(c, b, s, moves, t)
    ensures Disciplined(c, b, Abs(s), DbRun(c, s, moves), Abs(t))
    decreases |moves|
  {
    if moves != [] {
      var next := MoveOn(c, s, moves[0]);
      Simulates(c, s, moves[0]);
      DisciplinedProjects(c, b, next, moves[1..], t);
      TookDisciplined(c, b, Abs(s), DbStep(c, s, moves[0]), Abs(next), DbRun(c, next, moves[1..]), Abs(t));
    }
  }

  function Opening(clock: Time, pending: ZSet, scheduled: ZSet): System {
    System(clock, map[], map[], map[], pending, scheduled, [], [], [])
  }

  lemma OpeningAbs(clock: Time, pending: ZSet, scheduled: ZSet)
    ensures Abs(Opening(clock, pending, scheduled)) == Initial(clock)
  {
  }

  /** Hence no content of Redis can break exclusive ownership. */
  lemma OwnershipWhateverRedisHolds(c: Settings, b: Bounds, clock: Time, pending: ZSet, scheduled: ZSet,
                                    moves: seq<Move>, t: System, w: WorkerId)
    requires Fits(c, b) && DisciplinedMoves(c, b, Opening(clock, pending, scheduled), moves, t)
    requires Live(t, w) && t.procs[w].phase.Held?
    ensures var h := t.procs[w].phase.hold;
            && h.id in t.table && OwnedBy(t.table[h.id].job, w) && t.table[h.id].job.attempts == h.copy.attempts
            && forall v :: v != w && Live(t, v) && t.procs[v].phase.Held? ==> t.procs[v].phase.hold.id != h.id
  {
    OpeningAbs(clock, pending, scheduled);
    DisciplinedProjects(c, b, Opening(clock, pending, scheduled), moves, t);
    assert Reachable(c, b, Abs(t));
    ExclusiveOwnership(c, b, Abs(t), w);
    forall v | v != w && Live(t, v) && t.procs[v].phase.Held?
      ensures t.procs[v].phase.hold.id != t.procs[w].phase.hold.id
    {
      assert InFlight(Abs(t), v);
    }
  }

  /** Nor can it start a completed or cancelled job's handler: not by a late pop, nor by pushing its id again. */
  lemma TerminalWhateverRedisHolds(c: Settings, b: Bounds, s: System, moves: seq<Move>, t: System, id: Id)
    requires Reachable(c, b, Abs(s)) && DisciplinedMoves(c, b, s, moves, t)
    requires id in s.table && s.table[id].job.status in {Completed, Cancelled}
    ensures id in t.table && t.table[id].job.status == s.table[id].job.status
    ensures !Occurs(c, Abs(s), DbRun(c, s, moves), (x, a) => StartsHandler(x, a, id))
  {
    DisciplinedProjects(c, b, s, moves, t);
    TerminalForever(c, b, Abs(s), DbRun(c, s, moves), Abs(t), id);
  }
}
