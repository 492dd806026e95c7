/**
 * Submits in flight, interleaved with each other and with every step of the protocol: a submit with a key looks it
 * up, and if it finds nothing, or has no key, inserts later. What each answered is kept.
 */
module Submission {
  import opened Wrappers
  import opened Jobs
  import opened Protocol
  import opened Idempotency

  /** The job and whether it was created, or the unique violation of the insert. */
  datatype Reply = Returned(id: Id, created: bool) | Raised

  datatype Answer = Answer(key: Option<string>, reply: Reply, at: Time)

  /**
   * The database, the submits between lookup and insert, the answers given, the submits between the commit of a job
   * and its ZADD, and the jobs that were added, in order.
   */
  datatype Desk = Desk(
    db: State,
    waiting: map<nat, Option<string>>,
    answers: seq<Answer>,
    owed: map<nat, Id>,
    sent: seq<Id>)

  datatype Visit =
    | Other(a: Action)
    | LookUp(n: nat, key: Option<string>)
    | Add(n: nat, id: Id, priority: int, scheduledAt: Option<Time>, created: nat)
    | Send(n: nat)
    | Lose(n: nat)

  /** Key cleanups use a clock at most `skew` ahead of the database; inserts come from submits only. */
  predicate CanVisit(c: Settings, skew: int, x: Desk, v: Visit) {
    match v
    case Other(a) =>
      && Enabled(c, x.db, a)
      && !(a.Api? && a.call.Insert?)
      && (a.Upkeep? && a.chore.Cleanup? ==> a.chore.wall <= x.db.clock + skew)
    case LookUp(n, _) => n !in x.waiting && n !in x.owed
    case Add(n, id, _, _, created) =>
      n in x.waiting && id !in x.db.table && created <= x.db.clock && c.defaultMaxAttempts > 0
    case Send(n) => n in x.owed
    case Lose(n) => n in x.waiting || n in x.owed
  }

  /** The row the lookup answers with. */
  ghost function Holder(s: State, key: Option<string>): (id: Id)
    requires !KeyFree(s, key)
    ensures Carries(s, id, key.value)
  {
    var id :| id in s.table && s.table[id].job.key == key;
    id
  }

  ghost function DoVisit(c: Settings, skew: int, x: Desk, v: Visit): Desk
    requires CanVisit(c, skew, x, v)
  {
    match v
    case Other(a) => x.(db := Apply(c, x.db, a))
    case LookUp(n, key) =>
      if KeyFree(x.db, key) then x.(waiting := x.waiting[n := key])
      else x.(answers := x.answers + [Answer(key, Returned(Holder(x.db, key), false), x.db.clock)])
    case Add(n, id, priority, scheduledAt, created) =>
      var key := x.waiting[n];
      if KeyFree(x.db, key) then
        Desk(Apply(c, x.db, Api(Insert(id, priority, scheduledAt, key, created))), x.waiting - {n},
             x.answers + [Answer(key, Returned(id, true), x.db.clock)], x.owed[n := id], x.sent)
      else
        x.(waiting := x.waiting - {n}, answers := x.answers + [Answer(key, Raised, x.db.clock)])
    case Send(n) => x.(owed := x.owed - {n}, sent := x.sent + [x.owed[n]])
    case Lose(n) => x.(waiting := x.waiting - {n}, owed := x.owed - {n})
  }

  ghost predicate Visits(c: Settings, skew: int, x: Desk, visits: seq<Visit>, y: Desk)
    decreases |visits|
  {
    if visits == [] then x == y
    else CanVisit(c, skew, x, visits[0]) && Visits(c, skew, DoVisit(c, skew, x, visits[0]), visits[1..], y)
  }

  // ---- the window ----

  /** The end of the window of a job: 24 hours after its creation, less the skew. */
  function WindowEnd(s: State, id: Id, skew: int): Time
    requires id in s.table
  {
    s.table[id].job.createdAt + 24 * 60 * 60 * 1_000_000 - skew
  }

  /** A job that was returned for a key carries it until its window ends. */
  ghost predicate KeyHeld(skew: int, s: State, a: Answer) {
    a.key.Some? && a.reply.Returned? ==>
      a.reply.id in s.table && (Carries(s, a.reply.id, a.key.value) || s.clock > WindowEnd(s, a.reply.id, skew))
  }

  /** Within the window of the first of two answers to one key, the second does not return another job, or a new one. */
  predicate Consistent(skew: int, s: State, a: Answer, later: Answer) {
    a.key.Some? && a.key == later.key && a.reply.Returned? && a.reply.id in s.table
    && later.at <= WindowEnd(s, a.reply.id, skew)
    ==> later.reply in {Returned(a.reply.id, false), Raised}
  }

  ghost predicate Settled(skew: int, x: Desk) {
    && OneHolder(x.db)
    && (forall i :: 0 <= i < |x.answers| ==> KeyHeld(skew, x.db, x.answers[i]))
    && (forall i, j :: 0 <= i < j < |x.answers| ==> Consistent(skew, x.db, x.answers[i], x.answers[j]))
  }

  /** The ZADDs done and owed are of jobs that were created, each at most once. */
  ghost predicate Sparing(x: Desk) {
    && (forall i, j :: 0 <= i < j < |x.sent| ==> x.sent[i] != x.sent[j])
    && (forall id :: id in x.sent ==> id in Created(x.answers))
    && (forall n :: n in x.owed ==> x.owed[n] in Created(x.answers) && x.owed[n] !in x.sent)
    && (forall n, m :: n in x.owed && m in x.owed && n != m ==> x.owed[n] != x.owed[m])
    && (forall id :: id in Created(x.answers) ==> id in x.db.table)
    && x.waiting.Keys !! x.owed.Keys
  }

  /** The jobs that answers called created. */
  function Created(answers: seq<Answer>): seq<Id> {
    if answers == [] then []
    else
      Created(answers[..|answers| - 1])
      + (if answers[|answers| - 1].reply.Returned? && answers[|answers| - 1].reply.created
         then [answers[|answers| - 1].reply.id] else [])
  }

  lemma OtherSettled(c: Settings, skew: int, x: Desk, a: Action)
    requires Settled(skew, x) && CanVisit(c, skew, x, Other(a))
    ensures Settled(skew, x.(db := Apply(c, x.db, a)))
  {
    var y := x.(db := Apply(c, x.db, a));
    HolderStep(c, x.db, a);
    forall i | 0 <= i < |y.answers| ensures KeyHeld(skew, y.db, y.answers[i]) {
      assert KeyHeld(skew, x.db, x.answers[i]);
      if x.answers[i].reply.Returned? { KeyStep(c, x.db, a, x.answers[i].reply.id); }
    }
    forall i, j | 0 <= i < j < |y.answers| ensures Consistent(skew, y.db, y.answers[i], y.answers[j]) {
      assert KeyHeld(skew, x.db, x.answers[i]) && Consistent(skew, x.db, x.answers[i], x.answers[j]);
      if x.answers[i].reply.Returned? { KeyStep(c, x.db, a, x.answers[i].reply.id); }
    }
  }

  /** One more answer at the present time, of the holder or of a violation while there is a holder. */
  lemma AnswerSettled(skew: int, x: Desk, y: Desk, a: Answer)
    requires Settled(skew, x) && y.db == x.db && y.answers == x.answers + [a] && a.at == x.db.clock
    requires !KeyFree(x.db, a.key)
    requires a.reply == Raised || (a.reply.Returned? && !a.reply.created && Carries(x.db, a.reply.id, a.key.value))
    ensures Settled(skew, y)
  {
    forall i | 0 <= i < |x.answers| ensures Consistent(skew, y.db, x.answers[i], a) {
      assert KeyHeld(skew, x.db, x.answers[i]);
    }
  }

  lemma AddSettled(c: Settings, skew: int, x: Desk, v: Visit)
    requires Settled(skew, x) && v.Add? && CanVisit(c, skew, x, v) && KeyFree(x.db, x.waiting[v.n])
    ensures Settled(skew, DoVisit(c, skew, x, v))
  {
    var key := x.waiting[v.n];
    var a := Api(Insert(v.id, v.priority, v.scheduledAt, key, v.created));
    var y := DoVisit(c, skew, x, v);
    HolderStep(c, x.db, a);
    forall i | 0 <= i < |x.answers|
      ensures KeyHeld(skew, y.db, x.answers[i]) && Consistent(skew, y.db, x.answers[i], y.answers[|x.answers|])
    {
      assert KeyHeld(skew, x.db, x.answers[i]);
    }
    forall i, j | 0 <= i < j < |x.answers| ensures Consistent(skew, y.db, x.answers[i], x.answers[j]) {
      assert KeyHeld(skew, x.db, x.answers[i]) && Consistent(skew, x.db, x.answers[i], x.answers[j]);
    }
  }

  lemma VisitSettled(c: Settings, skew: int, x: Desk, v: Visit)
    requires Settled(skew, x) && CanVisit(c, skew, x, v)
    ensures Settled(skew, DoVisit(c, skew, x, v))
  {
    var y := DoVisit(c, skew, x, v);
    match v {
      case Other(a) => OtherSettled(c, skew, x, a);
      case LookUp(_, key) =>
        if !KeyFree(x.db, key) { AnswerSettled(skew, x, y, y.answers[|x.answers|]); }
      case Add(n, _, _, _, _) =>
        if KeyFree(x.db, x.waiting[n]) {
          AddSettled(c, skew, x, v);
        } else {
          AnswerSettled(skew, x, y, y.answers[|x.answers|]);
        }
      case _ =>
    }
  }

  lemma {:induction false} AlwaysSettled(c: Settings, skew: int, x: Desk, visits: seq<Visit>, y: Desk)
    requires Settled(skew, x) && Visits(c, skew, x, visits, y)
    ensures Settled(skew, y)
    decreases |visits|
  {
    if visits != [] {
      VisitSettled(c, skew, x, visits[0]);
      AlwaysSettled(c, skew, DoVisit(c, skew, x, visits[0]), visits[1..], y);
    }
  }

  lemma CreatedAppend(answers: seq<Answer>, a: Answer)
    ensures Created(answers + [a])
         == Created(answers) + (if a.reply.Returned? && a.reply.created then [a.reply.id] else [])
  {
    assert (answers + [a])[..|answers|] == answers;
  }

  lemma AddSparing(c: Settings, skew: int, x: Desk, v: Visit)
    requires Sparing(x) && v.Add? && CanVisit(c, skew, x, v) && KeyFree(x.db, x.waiting[v.n])
    ensures Sparing(DoVisit(c, skew, x, v))
  {
    var y := DoVisit(c, skew, x, v);
    CreatedAppend(x.answers, y.answers[|x.answers|]);
    assert forall id :: id in Created(y.answers) <==> id in Created(x.answers) || id == v.id;
    assert v.id !in Created(x.answers);
    forall n | n in y.owed ensures y.owed[n] in Created(y.answers) && y.owed[n] !in y.sent {
      assert n != v.n ==> y.owed[n] == x.owed[n];
    }
  }

  lemma OtherSparing(c: Settings, skew: int, x: Desk, a: Action)
    requires Sparing(x) && CanVisit(c, skew, x, Other(a))
    ensures Sparing(x.(db := Apply(c, x.db, a)))
  {
    forall id | id in Created(x.answers) ensures id in Apply(c, x.db, a).table { KeyStep(c, x.db, a, id); }
  }

  /** An answer that creates nothing, with the submit no longer waiting or as before. */
  lemma AnswerSparing(x: Desk, y: Desk, a: Answer)
    requires Sparing(x) && !(a.reply.Returned? && a.reply.created)
    requires y == x.(waiting := y.waiting, answers := x.answers + [a]) && y.waiting.Keys <= x.waiting.Keys
    ensures Sparing(y)
  {
    CreatedAppend(x.answers, a);
  }

  lemma SendSparing(x: Desk, n: nat)
    requires Sparing(x) && n in x.owed
    ensures Sparing(x.(owed := x.owed - {n}, sent := x.sent + [x.owed[n]]))
  {
  }

  lemma VisitSparing(c: Settings, skew: int, x: Desk, v: Visit)
    requires Sparing(x) && CanVisit(c, skew, x, v)
    ensures Sparing(DoVisit(c, skew, x, v))
  {
    var y := DoVisit(c, skew, x, v);
    match v {
      case Other(a) => OtherSparing(c, skew, x, a);
      case LookUp(_, key) => if !KeyFree(x.db, key) { AnswerSparing(x, y, y.answers[|x.answers|]); }
      case Add(n, _, _, _, _) =>
        if KeyFree(x.db, x.waiting[n]) {
          AddSparing(c, skew, x, v);
        } else {
          AnswerSparing(x, y, y.answers[|x.answers|]);
        }
      case Send(n) => SendSparing(x, n);
      case Lose(_) =>
    }
  }

  lemma {:induction false} AlwaysSparing(c: Settings, skew: int, x: Desk, visits: seq<Visit>, y: Desk)
    requires Sparing(x) && Visits(c, skew, x, visits, y)
    ensures Sparing(y)
    decreases |visits|
  {
    if visits != [] {
      VisitSparing(c, skew, x, visits[0]);
      AlwaysSparing(c, skew, DoVisit(c, skew, x, visits[0]), visits[1..], y);
    }
  }

  function EmptyDesk(clock: Time): Desk {
    Desk(Initial(clock), map[], [], map[], [])
  }

  /**
   * The window: in every interleaving, all submits of one key answered before the end of the window of the job the
   * first of them returned answer with that job or raise, and none of the later ones created it.
   */
  lemma OneJobPerKey(c: Settings, skew: int, clock: Time, visits: seq<Visit>, y: Desk, i: nat, j: nat)
    requires Visits(c, skew, EmptyDesk(clock), visits, y) && i < j < |y.answers|
    requires y.answers[i].key == y.answers[j].key && y.answers[i].key.Some? && y.answers[i].reply.Returned?
    ensures y.answers[i].reply.id in y.db.table
    ensures y.answers[j].at <= y.db.table[y.answers[i].reply.id].job.createdAt + 24 * 60 * 60 * 1_000_000 - skew
            ==> y.answers[j].reply == Returned(y.answers[i].reply.id, false) || y.answers[j].reply == Raised
  {
    AlwaysSettled(c, skew, EmptyDesk(clock), visits, y);
    assert KeyHeld(skew, y.db, y.answers[i]) && Consistent(skew, y.db, y.answers[i], y.answers[j]);
  }

  /** A ZADD may be lost to a crash, but each is of a job that its submit created, and no job is added twice. */
  lemma SendsOnlyTheCreated(c: Settings, skew: int, clock: Time, visits: seq<Visit>, y: Desk)
    requires Visits(c, skew, EmptyDesk(clock), visits, y)
    ensures forall i, j :: 0 <= i < j < |y.sent| ==> y.sent[i] != y.sent[j]
    ensures forall id :: id in y.sent ==> id in Created(y.answers) && id in y.db.table
  {
    AlwaysSparing(c, skew, EmptyDesk(clock), visits, y);
  }

  // ---- the loser of a race ----

  /** Some answer after the first `from` created a job with this key. */
  predicate Raced(answers: seq<Answer>, from: nat, key: Option<string>) {
    exists i :: from <= i < |answers| && answers[i].key == key && answers[i].reply.Returned? && answers[i].reply.created
  }

  /** A free key is taken only by a submit that creates. */
  lemma {:induction false} FreeUnlessRaced(c: Settings, skew: int, x: Desk, visits: seq<Visit>, y: Desk,
                                           key: Option<string>)
    requires KeyFree(x.db, key) && Visits(c, skew, x, visits, y)
    ensures x.answers <= y.answers
    ensures KeyFree(y.db, key) || Raced(y.answers, |x.answers|, key)
    decreases |visits|
  {
    if visits != [] {
      var z := DoVisit(c, skew, x, visits[0]);
      FreeVisit(c, skew, x, visits[0], key);
      if KeyFree(z.db, key) {
        FreeUnlessRaced(c, skew, z, visits[1..], y, key);
      } else {
        AnswersGrow(c, skew, z, visits[1..], y);
        assert y.answers[|x.answers|] == z.answers[|x.answers|];
      }
    }
  }

  lemma FreeVisit(c: Settings, skew: int, x: Desk, v: Visit, key: Option<string>)
    requires KeyFree(x.db, key) && CanVisit(c, skew, x, v)
    ensures var z := DoVisit(c, skew, x, v);
            && x.answers <= z.answers
            && (!KeyFree(z.db, key) ==>
                  |z.answers| > |x.answers| && z.answers[|x.answers|].key == key
                  && z.answers[|x.answers|].reply.Returned? && z.answers[|x.answers|].reply.created)
  {
    if v.Other? {
      forall id | id in Apply(c, x.db, v.a).table && key.Some? ensures Apply(c, x.db, v.a).table[id].job.key != key {
        KeyStep(c, x.db, v.a, id);
      }
    }
  }

  lemma {:induction false} AnswersGrow(c: Settings, skew: int, x: Desk, visits: seq<Visit>, y: Desk)
    requires Visits(c, skew, x, visits, y)
    ensures x.answers <= y.answers
    decreases |visits|
  {
    if visits != [] { AnswersGrow(c, skew, DoVisit(c, skew, x, visits[0]), visits[1..], y); }
  }

  /** Every job created with this key after the first `from` answers is still within its window. */
  predicate RecentlyCreated(skew: int, x: Desk, from: nat, key: Option<string>) {
    forall i :: from <= i < |x.answers| && x.answers[i].key == key && x.answers[i].reply.Returned?
      && x.answers[i].reply.created && x.answers[i].reply.id in x.db.table
      ==> x.db.clock <= WindowEnd(x.db, x.answers[i].reply.id, skew)
  }

  /**
   * The racing duplicate: within the window, a submit whose lookup found nothing raises exactly when a job with its
   * key was created after that lookup; and whatever the time, it raises only then.
   */
  lemma RaisesExactlyWhenRaced(c: Settings, skew: int, x: Desk, visits: seq<Visit>, y: Desk, v: Visit)
    requires Settled(skew, x) && Visits(c, skew, x, visits, y)
    requires v.Add? && CanVisit(c, skew, y, v) && KeyFree(x.db, y.waiting[v.n])
    ensures var last := DoVisit(c, skew, y, v).answers[|y.answers|].reply;
            var raced := Raced(y.answers, |x.answers|, y.waiting[v.n]);
            && (last == Raised ==> raced)
            && (y.waiting[v.n].Some? && RecentlyCreated(skew, y, |x.answers|, y.waiting[v.n]) ==>
                  (last == Raised <==> raced))
            && (y.waiting[v.n].None? ==> last != Raised)
            && (last != Raised ==> last == Returned(v.id, true))
  {
    var key := y.waiting[v.n];
    AlwaysSettled(c, skew, x, visits, y);
    FreeUnlessRaced(c, skew, x, visits, y, key);
    if key.Some? && Raced(y.answers, |x.answers|, key) && RecentlyCreated(skew, y, |x.answers|, key) {
      var i :| |x.answers| <= i < |y.answers| && y.answers[i].key == key && y.answers[i].reply.Returned?
               && y.answers[i].reply.created;
      assert KeyHeld(skew, y.db, y.answers[i]);
    }
  }

  /** So of any two submits that both found nothing, the second to insert raises, within the window of the first job. */
  lemma LoserRaises(c: Settings, skew: int, x: Desk, v: Visit, visits: seq<Visit>, y: Desk, u: Visit)
    requires Settled(skew, x) && v.Add? && CanVisit(c, skew, x, v) && KeyFree(x.db, x.waiting[v.n])
    requires Visits(c, skew, DoVisit(c, skew, x, v), visits, y) && u.Add? && CanVisit(c, skew, y, u)
    requires y.waiting[u.n] == x.waiting[v.n] && x.waiting[v.n].Some?
    requires v.id in y.db.table && y.db.clock <= WindowEnd(y.db, v.id, skew)
    ensures DoVisit(c, skew, y, u).answers[|y.answers|].reply == Raised
  {
    var z := DoVisit(c, skew, x, v);
    VisitSettled(c, skew, x, v);
    AlwaysSettled(c, skew, z, visits, y);
    AnswersGrow(c, skew, z, visits, y);
    assert y.answers[|x.answers|] == z.answers[|x.answers|];
    assert KeyHeld(skew, y.db, y.answers[|x.answers|]);
  }
}
