/** The submits of the whole system: its runs are runs of the submit desk; and what they add to the sorted sets. */
module Reception {
  import opened Wrappers
  import opened Jobs
  import opened Protocol
  import opened Redis
  import opened Submission
  import opened FullSystem

  function WaitingIn(errands: map<nat, Errand>): map<nat, Option<string>> {
    map p | p in errands && errands[p].Inserting? :: errands[p].key
  }

  /** The job that a submit has created and not yet added to a sorted set. */
  function ToAdd(e: Errand): Option<Id> {
    match e
    case Enqueueing(o) => Some(o.id)
    case Scheduling(id, _) => Some(id)
    case _ => None
  }

  function OwedIn(errands: map<nat, Errand>): map<nat, Id> {
    map p | p in errands && ToAdd(errands[p]).Some? :: ToAdd(errands[p]).value
  }

  /** The desk shows the database and the submits in flight. */
  predicate Shows(x: Desk, s: System) {
    x.db == Abs(s) && x.waiting == WaitingIn(s.errands) && x.owed == OwedIn(s.errands)
  }

  // ---- what a move is at the desk ----

  function Others(acts: seq<Action>): seq<Visit> {
    if acts == [] then [] else [Other(acts[0])]
  }

  function VisitOf(c: Settings, s: System, m: Move): seq<Visit>
    requires CanMove(c, s, m)
  {
    match m
    case For(p, Submit(key)) => [LookUp(p, key)]
    case For(p, Create(id, priority, scheduledAt, created)) => [Add(p, id, priority, scheduledAt, created)]
    case Env(Abandon(p)) =>
      if s.errands[p].Inserting? || ToAdd(s.errands[p]).Some? then [Lose(p)] else Others(DbStep(c, s, m))
    case Go(p) => if ToAdd(s.errands[p]).Some? then [Send(p)] else []
    case _ => Others(DbStep(c, s, m))
  }

  ghost function VisitsOf(c: Settings, s: System, moves: seq<Move>): seq<Visit>
    decreases |moves|
  {
    if moves == [] || !CanMove(c, s, moves[0]) then []
    else VisitOf(c, s, moves[0]) + VisitsOf(c, MoveOn(c, s, moves[0]), moves[1..])
  }

  /** The ZADDs of submits in a run, in order. */
  function AddOf(s: System, m: Move): seq<Id> {
    if m.Go? && m.p in s.errands && ToAdd(s.errands[m.p]).Some? then [ToAdd(s.errands[m.p]).value] else []
  }

  ghost function AddsOf(c: Settings, s: System, moves: seq<Move>): seq<Id>
    decreases |moves|
  {
    if moves == [] || !CanMove(c, s, moves[0]) then []
    else AddOf(s, moves[0]) + AddsOf(c, MoveOn(c, s, moves[0]), moves[1..])
  }

  /** Key cleanups use a clock at most `skew` ahead of the database. */
  predicate NotAhead(skew: int, s: System, m: Move) {
    m.Clean? ==> m.wall <= s.clock + skew
  }

  ghost predicate NeverAhead(c: Settings, skew: int, s: System, moves: seq<Move>)
    decreases |moves|
  {
    moves != [] && CanMove(c, s, moves[0]) ==>
      NotAhead(skew, s, moves[0]) && NeverAhead(c, skew, MoveOn(c, s, moves[0]), moves[1..])
  }

  /** What a submit answers, if a move answers one. */
  ghost function ReplyOf(s: System, m: Move): seq<Answer> {
    match m
    case For(p, Submit(key)) =>
      if KeyFree(Abs(s), key) then [] else [Answer(key, Returned(Submission.Holder(Abs(s), key), false), s.clock)]
    case For(p, Create(id, _, _, _)) =>
      if p in s.errands && s.errands[p].Inserting? then
        var key := s.errands[p].key;
        [Answer(key, if KeyFree(Abs(s), key) then Returned(id, true) else Raised, s.clock)]
      else []
    case _ => []
  }

  ghost function RepliesOf(c: Settings, s: System, moves: seq<Move>): seq<Answer>
    decreases |moves|
  {
    if moves == [] || !CanMove(c, s, moves[0]) then []
    else ReplyOf(s, moves[0]) + RepliesOf(c, MoveOn(c, s, moves[0]), moves[1..])
  }

  /** The desk went from `x` to `y` by this visit, or stayed; with these answers and these ZADDs. */
  ghost predicate Visited(c: Settings, skew: int, x: Desk, visits: seq<Visit>, replies: seq<Answer>, added: seq<Id>,
                          y: Desk)
  {
    && y.answers == x.answers + replies && y.sent == x.sent + added
    && if visits == [] then y == x
       else |visits| == 1 && CanVisit(c, skew, x, visits[0]) && y == DoVisit(c, skew, x, visits[0])
  }

  /** A step of the database alone, by an errand that is no submit or by none. */
  lemma ElsewhereShows(c: Settings, skew: int, x: Desk, s: System, t: System, step: seq<Action>)
    requires Shows(x, s) && Took(c, Abs(s), step, Abs(t))
    requires WaitingIn(t.errands) == WaitingIn(s.errands) && OwedIn(t.errands) == OwedIn(s.errands)
    requires forall a :: a in step ==> !(a.Api? && a.call.Insert?)
    requires forall a :: a in step && a.Upkeep? && a.chore.Cleanup? ==> a.chore.wall <= s.clock + skew
    ensures Shows(x.(db := Abs(t)), t) && Visited(c, skew, x, Others(step), [], [], x.(db := Abs(t)))
  {
    if step != [] { assert step[0] in step; }
  }

  lemma SameDesk(errands: map<nat, Errand>, p: nat, e: Errand)
    requires !e.Inserting? && ToAdd(e).None?
    requires p in errands ==> !errands[p].Inserting? && ToAdd(errands[p]).None?
    ensures WaitingIn(errands[p := e]) == WaitingIn(errands) && OwedIn(errands[p := e]) == OwedIn(errands)
    ensures WaitingIn(errands - {p}) == WaitingIn(errands) && OwedIn(errands - {p}) == OwedIn(errands)
  {
  }

  lemma KeysAlike(s: System, key: Option<string>)
    ensures KeyFree(Abs(s), key) <==> !KeyTaken(s.table, key)
  {
  }

  lemma NowWaits(errands: map<nat, Errand>, p: nat, key: Option<string>, since: Time)
    requires p !in errands
    ensures WaitingIn(errands[p := Inserting(key, since)]) == WaitingIn(errands)[p := key]
    ensures OwedIn(errands[p := Inserting(key, since)]) == OwedIn(errands)
  {
  }

  lemma NowOwes(errands: map<nat, Errand>, p: nat, e: Errand)
    requires p in errands && errands[p].Inserting? && ToAdd(e).Some?
    ensures WaitingIn(errands[p := e]) == WaitingIn(errands) - {p}
    ensures OwedIn(errands[p := e]) == OwedIn(errands)[p := ToAdd(e).value]
  {
  }

  lemma NowGone(errands: map<nat, Errand>, p: nat)
    ensures WaitingIn(errands - {p}) == WaitingIn(errands) - {p} && OwedIn(errands - {p}) == OwedIn(errands) - {p}
  {
  }

  lemma SubmitShows(c: Settings, skew: int, x: Desk, s: System, p: nat, key: Option<string>) returns (y: Desk)
    requires Shows(x, s) && p !in s.errands
    ensures var t := DoSubmit(s, p, key);
            Shows(y, t) && Visited(c, skew, x, [LookUp(p, key)], ReplyOf(s, For(p, Submit(key))), [], y)
  {
    y := DoVisit(c, skew, x, LookUp(p, key));
    SimulateSubmit(c, s, p, key);
    KeysAlike(s, key);
    NowWaits(s.errands, p, key, s.clock);
  }

  lemma RaiseShows(c: Settings, skew: int, x: Desk, s: System, p: nat, r: RequestMove) returns (y: Desk)
    requires Shows(x, s) && r.Create? && CanFor(c, s, p, r) && !KeyFree(Abs(s), s.errands[p].key)
    ensures var t := DoCreate(c, s, p, r.id, r.priority, r.scheduledAt, r.created);
            && Shows(y, t)
            && Visited(c, skew, x, [Add(p, r.id, r.priority, r.scheduledAt, r.created)], ReplyOf(s, For(p, r)), [], y)
  {
    y := DoVisit(c, skew, x, Add(p, r.id, r.priority, r.scheduledAt, r.created));
    SimulateCreate(c, s, p, r);
    KeysAlike(s, s.errands[p].key);
    NowGone(s.errands, p);
  }

  /** The errand of a submit that has created its job. */
  lemma CreateOwes(c: Settings, s: System, p: nat, r: RequestMove)
    requires r.Create? && CanFor(c, s, p, r) && !KeyTaken(s.table, s.errands[p].key)
    ensures var t := DoCreate(c, s, p, r.id, r.priority, r.scheduledAt, r.created);
            && Took(c, Abs(s), [Api(Insert(r.id, r.priority, r.scheduledAt, s.errands[p].key, r.created))], Abs(t))
            && WaitingIn(t.errands) == WaitingIn(s.errands) - {p} && OwedIn(t.errands) == OwedIn(s.errands)[p := r.id]
  {
    SimulateCreate(c, s, p, r);
    NowOwes(s.errands, p, DoCreate(c, s, p, r.id, r.priority, r.scheduledAt, r.created).errands[p]);
  }

  lemma CreateShows(c: Settings, skew: int, x: Desk, s: System, p: nat, r: RequestMove) returns (y: Desk)
    requires Shows(x, s) && r.Create? && CanFor(c, s, p, r) && KeyFree(Abs(s), s.errands[p].key)
    ensures var t := DoCreate(c, s, p, r.id, r.priority, r.scheduledAt, r.created);
            && Shows(y, t)
            && Visited(c, skew, x, [Add(p, r.id, r.priority, r.scheduledAt, r.created)], ReplyOf(s, For(p, r)), [], y)
  {
    y := DoVisit(c, skew, x, Add(p, r.id, r.priority, r.scheduledAt, r.created));
    KeysAlike(s, s.errands[p].key);
    CreateOwes(c, s, p, r);
  }

  lemma SendShows(c: Settings, skew: int, x: Desk, s: System, p: nat) returns (y: Desk)
    requires Shows(x, s) && p in s.errands && ToAdd(s.errands[p]).Some?
    ensures Shows(y, DoGo(s, p)) && Visited(c, skew, x, [Send(p)], [], [ToAdd(s.errands[p]).value], y)
  {
    y := DoVisit(c, skew, x, Send(p));
    SimulateGo(s, p);
    NowGone(s.errands, p);
  }

  lemma LoseShows(c: Settings, skew: int, x: Desk, s: System, p: nat) returns (y: Desk)
    requires Shows(x, s) && p in s.errands && (s.errands[p].Inserting? || ToAdd(s.errands[p]).Some?)
    ensures Shows(y, DoEnv(s, Abandon(p))) && Visited(c, skew, x, [Lose(p)], [], [], y)
  {
    y := DoVisit(c, skew, x, Lose(p));
    SimulateEnv(c, s, Abandon(p));
    NowGone(s.errands, p);
  }

  /** A move that is no visit of a submit. */
  predicate Elsewhere(s: System, m: Move) {
    match m
    case For(_, Submit(_)) => false
    case For(_, Create(_, _, _, _)) => false
    case Env(Abandon(p)) => p in s.errands && !s.errands[p].Inserting? && ToAdd(s.errands[p]).None?
    case Go(p) => p in s.errands && ToAdd(s.errands[p]).None?
    case _ => true
  }

  lemma EnvElsewhere(s: System, e: EnvMove)
    requires CanEnv(s, e) && Elsewhere(s, Env(e))
    ensures WaitingIn(DoEnv(s, e).errands) == WaitingIn(s.errands) && OwedIn(DoEnv(s, e).errands) == OwedIn(s.errands)
  {
    if e.Abandon? { SameDesk(s.errands, e.p, Feeding([])); }
  }

  lemma ForElsewhere(c: Settings, s: System, p: nat, r: RequestMove)
    requires CanFor(c, s, p, r) && (r.Ask? || r.Write?)
    ensures var t := DoFor(c, s, p, r);
            WaitingIn(t.errands) == WaitingIn(s.errands) && OwedIn(t.errands) == OwedIn(s.errands)
  {
    if r.Write? {
      WriteElsewhere(s, p, r.wall);
    } else {
      SameDesk(s.errands, p, Asking(Retrying(r.id, s.table[r.id].job)));
      SameDesk(s.errands, p, Asking(Cancelling(r.id, s.table[r.id].job)));
    }
  }

  lemma WriteElsewhere(s: System, p: nat, wall: Time)
    requires p in s.errands && s.errands[p].Asking? && s.errands[p].q.id in s.table
    ensures var t := DoWrite(s, p, wall);
            WaitingIn(t.errands) == WaitingIn(s.errands) && OwedIn(t.errands) == OwedIn(s.errands)
  {
    SameDesk(s.errands, p, DoWrite(s, p, wall).errands[p]);
  }

  lemma TendElsewhere(c: Settings, s: System, p: nat, b: BatchMove)
    requires CanTend(c, s, p, b)
    ensures var t := DoTend(c, s, p, b);
            WaitingIn(t.errands) == WaitingIn(s.errands) && OwedIn(t.errands) == OwedIn(s.errands)
  {
    TendApart(c, s, p, b);
    SameDesk(s.errands, p, DoTend(c, s, p, b).errands[p]);
  }

  lemma GoElsewhere(s: System, p: nat)
    requires p in s.errands && Commanding(s.errands[p]) && ToAdd(s.errands[p]).None?
    ensures WaitingIn(DoGo(s, p).errands) == WaitingIn(s.errands) && OwedIn(DoGo(s, p).errands) == OwedIn(s.errands)
  {
    var e := Onward(s.errands[p]);
    SameDesk(s.errands, p, if e.Some? then e.value else Feeding([]));
  }

  lemma MoveElsewhere(c: Settings, s: System, m: Move)
    requires CanMove(c, s, m) && Elsewhere(s, m)
    ensures var t := MoveOn(c, s, m);
            WaitingIn(t.errands) == WaitingIn(s.errands) && OwedIn(t.errands) == OwedIn(s.errands)
  {
    match m {
      case Env(e) => EnvElsewhere(s, e);
      case For(p, r) => ForElsewhere(c, s, p, r);
      case Tend(p, b) => TendElsewhere(c, s, p, b);
      case Go(p) => GoElsewhere(s, p);
      case By(w, a) => ByApart(c, s, w, a);
      case Clean(_) =>
    }
  }

  lemma StepsElsewhere(c: Settings, skew: int, s: System, m: Move)
    requires CanMove(c, s, m) && Elsewhere(s, m) && NotAhead(skew, s, m)
    ensures VisitOf(c, s, m) == Others(DbStep(c, s, m)) && ReplyOf(s, m) == [] && AddOf(s, m) == []
    ensures forall a :: a in DbStep(c, s, m) ==> !(a.Api? && a.call.Insert?)
    ensures forall a :: a in DbStep(c, s, m) && a.Upkeep? && a.chore.Cleanup? ==> a.chore.wall <= s.clock + skew
  {
  }

  lemma SubmitsShow(c: Settings, skew: int, x: Desk, s: System, p: nat, r: RequestMove) returns (y: Desk)
    requires Shows(x, s) && CanFor(c, s, p, r) && (r.Submit? || r.Create?)
    ensures Shows(y, DoFor(c, s, p, r))
    ensures Visited(c, skew, x, VisitOf(c, s, For(p, r)), ReplyOf(s, For(p, r)), [], y)
  {
    if r.Submit? {
      y := SubmitShows(c, skew, x, s, p, r.key);
    } else if KeyFree(Abs(s), s.errands[p].key) {
      y := CreateShows(c, skew, x, s, p, r);
    } else {
      y := RaiseShows(c, skew, x, s, p, r);
    }
  }

  /** Every move of the system is a visit to the desk or none. */
  lemma MoveShows(c: Settings, skew: int, x: Desk, s: System, m: Move) returns (y: Desk)
    requires Shows(x, s) && CanMove(c, s, m) && NotAhead(skew, s, m)
    ensures Shows(y, MoveOn(c, s, m)) && Visited(c, skew, x, VisitOf(c, s, m), ReplyOf(s, m), AddOf(s, m), y)
  {
    if Elsewhere(s, m) {
      Simulates(c, s, m);
      MoveElsewhere(c, s, m);
      StepsElsewhere(c, skew, s, m);
      y := x.(db := Abs(MoveOn(c, s, m)));
      ElsewhereShows(c, skew, x, s, MoveOn(c, s, m), DbStep(c, s, m));
    } else {
      match m {
        case For(p, r) => y := SubmitsShow(c, skew, x, s, p, r);
        case Env(e) => y := LoseShows(c, skew, x, s, e.p);
        case Go(p) => y := SendShows(c, skew, x, s, p);
      }
    }
  }

  lemma VisitedThen(c: Settings, skew: int, x: Desk, visits: seq<Visit>, replies: seq<Answer>, added: seq<Id>, y: Desk,
                    more: seq<Visit>, z: Desk)
    requires Visited(c, skew, x, visits, replies, added, y) && Visits(c, skew, y, more, z)
    ensures Visits(c, skew, x, visits + more, z)
  {
    if visits == [] {
      assert visits + more == more;
    } else {
      assert (visits + more)[1..] == more;
    }
  }

  lemma Appended<T>(x: seq<T>, y: seq<T>, z: seq<T>)
    ensures x + y + z == x + (y + z)
  {
  }

  /** Every run of the whole system is a run of the desk, with the same answers; its sends are the ZADDs of submits. */
  lemma {:induction false} RunsShow(c: Settings, skew: int, x: Desk, s: System, moves: seq<Move>, t: System)
    returns (y: Desk)
    requires Shows(x, s) && Moves(c, s, moves, t) && NeverAhead(c, skew, s, moves)
    ensures Visits(c, skew, x, VisitsOf(c, s, moves), y) && Shows(y, t)
    ensures y.answers == x.answers + RepliesOf(c, s, moves) && y.sent == x.sent + AddsOf(c, s, moves)
    decreases |moves|
  {
    if moves == [] {
      y := x;
    } else {
      var m, next := moves[0], MoveOn(c, s, moves[0]);
      var z := MoveShows(c, skew, x, s, m);
      y := RunsShow(c, skew, z, next, moves[1..], t);
      VisitedThen(c, skew, x, VisitOf(c, s, m), ReplyOf(s, m), AddOf(s, m), z, VisitsOf(c, next, moves[1..]), y);
      Appended(x.answers, ReplyOf(s, m), RepliesOf(c, next, moves[1..]));
      Appended(x.sent, AddOf(s, m), AddsOf(c, next, moves[1..]));
    }
  }

  // ---- what the window and the sends are in the whole system ----

  lemma OpeningShows(clock: Time, pending: ZSet, scheduled: ZSet)
    ensures Shows(EmptyDesk(clock), Opening(clock, pending, scheduled))
  {
    OpeningAbs(clock, pending, scheduled);
  }

  /**
   * The window in runs of the whole system, whatever Redis holds: within the window of the job that a submit answered
   * with, no later submit of its key answers with another job or creates one.
   */
  lemma OneJobPerKeyInRuns(c: Settings, skew: int, clock: Time, pending: ZSet, scheduled: ZSet, moves: seq<Move>,
                           t: System, i: nat, j: nat)
    requires Moves(c, Opening(clock, pending, scheduled), moves, t)
    requires NeverAhead(c, skew, Opening(clock, pending, scheduled), moves)
    requires var replies := RepliesOf(c, Opening(clock, pending, scheduled), moves);
             i < j < |replies| && replies[i].key == replies[j].key && replies[i].key.Some? && replies[i].reply.Returned?
    ensures var replies := RepliesOf(c, Opening(clock, pending, scheduled), moves);
            var id := replies[i].reply.id;
            && id in t.table
            && (replies[j].at <= t.table[id].job.createdAt + 24 * 60 * 60 * 1_000_000 - skew
                ==> replies[j].reply == Returned(id, false) || replies[j].reply == Raised)
  {
    var s := Opening(clock, pending, scheduled);
    OpeningShows(clock, pending, scheduled);
    var y := RunsShow(c, skew, EmptyDesk(clock), s, moves, t);
    assert y.answers == RepliesOf(c, s, moves);
    OneJobPerKey(c, skew, clock, VisitsOf(c, s, moves), y, i, j);
  }

  /** Some bound holds of the clocks of all cleanups in a run. */
  lemma {:induction false} SomeSkew(c: Settings, s: System, moves: seq<Move>) returns (skew: int)
    ensures NeverAhead(c, skew, s, moves)
    decreases |moves|
  {
    skew := 0;
    if moves != [] && CanMove(c, s, moves[0]) {
      skew := SomeSkew(c, MoveOn(c, s, moves[0]), moves[1..]);
      if !NotAhead(skew, s, moves[0]) {
        MoreSkew(c, MoveOn(c, s, moves[0]), moves[1..], skew, moves[0].wall - s.clock);
        skew := moves[0].wall - s.clock;
      }
    }
  }

  lemma {:induction false} MoreSkew(c: Settings, s: System, moves: seq<Move>, skew: int, more: int)
    requires NeverAhead(c, skew, s, moves) && skew <= more
    ensures NeverAhead(c, more, s, moves)
    decreases |moves|
  {
    if moves != [] && CanMove(c, s, moves[0]) { MoreSkew(c, MoveOn(c, s, moves[0]), moves[1..], skew, more); }
  }

  /**
   * In every run, with any crash and any content of Redis, the ZADDs of submits are of jobs that a submit of the run
   * has created, and of each at most once.
   */
  lemma SubmitsAddOnce(c: Settings, clock: Time, pending: ZSet, scheduled: ZSet, moves: seq<Move>, t: System)
    requires Moves(c, Opening(clock, pending, scheduled), moves, t)
    ensures var s := Opening(clock, pending, scheduled);
            var added := AddsOf(c, s, moves);
            && (forall i, j :: 0 <= i < j < |added| ==> added[i] != added[j])
            && (forall id :: id in added ==> id in Created(RepliesOf(c, s, moves)) && id in t.table)
  {
    var s := Opening(clock, pending, scheduled);
    var skew := SomeSkew(c, s, moves);
    OpeningShows(clock, pending, scheduled);
    var y := RunsShow(c, skew, EmptyDesk(clock), s, moves, t);
    assert y.answers == RepliesOf(c, s, moves) && y.sent == AddsOf(c, s, moves);
    SendsOnlyTheCreated(c, skew, clock, VisitsOf(c, s, moves), y);
  }

  lemma MoveSchedules(c: Settings, s: System, m: Move)
    requires CanMove(c, s, m) && !(m.Env? && m.e.Corrupt?)
    ensures forall id :: id in MoveOn(c, s, m).scheduled ==> id in s.scheduled || id in AddOf(s, m)
  {
    match m {
      case By(w, a) => ByApart(c, s, w, a);
      case Tend(p, b) => TendApart(c, s, p, b);
      case _ =>
    }
  }

  /** Without an outside hand on Redis the delayed set gains members by the ZADDs of submits only. */
  lemma {:induction false} ScheduledBySubmitsOnly(c: Settings, s: System, moves: seq<Move>, t: System)
    requires Moves(c, s, moves, t) && Honest(moves)
    ensures forall id :: id in t.scheduled ==> id in s.scheduled || id in AddsOf(c, s, moves)
    decreases |moves|
  {
    if moves != [] {
      MoveSchedules(c, s, moves[0]);
      assert forall i :: 0 <= i < |moves[1..]| ==> moves[1..][i] == moves[i + 1];
      ScheduledBySubmitsOnly(c, MoveOn(c, s, moves[0]), moves[1..], t);
    }
  }
}
