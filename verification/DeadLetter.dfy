/**
 * The dead-letter list against the log of the commands that reached it: pushes of permanent failures, removals by
 * manual retries, and the loss of Redis.
 */
module DeadLetter {
  import opened Jobs
  import opened Redis

  /** `note` numbers the commit behind a command: a permanent failure or a manual retry. */
  datatype Landing = Pushed(id: Id, note: nat) | Removed(id: Id, note: nat) | Cleared

  predicate Erases(l: Landing, id: Id) {
    l.Cleared? || (l.Removed? && l.id == id)
  }

  predicate Concerns(l: Landing, id: Id) {
    l.Cleared? || l.id == id
  }

  /** An entry of the list: the job, the failure it stands for and the place of its push in the log. */
  datatype Mark = Mark(id: Id, note: nat, pos: nat)

  function Unmarked(marks: seq<Mark>, id: Id): seq<Mark> {
    if marks == [] then []
    else if marks[0].id == id then Unmarked(marks[1..], id)
    else [marks[0]] + Unmarked(marks[1..], id)
  }

  /** The list as it would be if it were never trimmed. */
  function Marks(log: seq<Landing>): seq<Mark> {
    if log == [] then []
    else
      var before := Marks(log[..|log| - 1]);
      match log[|log| - 1]
      case Pushed(id, note) => [Mark(id, note, |log| - 1)] + before
      case Removed(id, _) => Unmarked(before, id)
      case Cleared => []
  }

  function Names(marks: seq<Mark>): (names: seq<Id>)
    ensures |names| == |marks|
    ensures forall i :: 0 <= i < |marks| ==> names[i] == marks[i].id
  {
    if marks == [] then [] else [marks[0].id] + Names(marks[1..])
  }

  /** What one command makes of the list. */
  function Land(dead: seq<Id>, l: Landing): seq<Id> {
    match l
    case Pushed(id, _) => PushDead(dead, id)
    case Removed(id, _) => Without(dead, id)
    case Cleared => []
  }

  /** Pushes that landed after a place in the log. */
  function PushesAfter(log: seq<Landing>, pos: nat): nat {
    if |log| <= pos + 1 then 0
    else PushesAfter(log[..|log| - 1], pos) + (if log[|log| - 1].Pushed? then 1 else 0)
  }

  // ---- what stands in the list ----

  /** A push that nothing has erased since. */
  predicate Stands(log: seq<Landing>, m: Mark) {
    && m.pos < |log| && log[m.pos] == Pushed(m.id, m.note)
    && forall k :: m.pos < k < |log| ==> !Erases(log[k], m.id)
  }

  lemma {:induction false} UnmarkedHas(marks: seq<Mark>, id: Id)
    ensures forall m :: m in Unmarked(marks, id) <==> m in marks && m.id != id
  {
    if marks != [] { UnmarkedHas(marks[1..], id); }
  }

  lemma {:induction false} MarksStand(log: seq<Landing>)
    ensures forall m :: m in Marks(log) <==> Stands(log, m)
  {
    if log != [] {
      var before, l := log[..|log| - 1], log[|log| - 1];
      MarksStand(before);
      if l.Removed? { UnmarkedHas(Marks(before), l.id); }
      forall m ensures m in Marks(log) <==> Stands(log, m) {
        assert m in Marks(before) <==> Stands(before, m);
        assert m.pos < |before| ==> before[m.pos] == log[m.pos];
        var newest := m.pos == |before| && l == Pushed(m.id, m.note);
        assert Stands(log, m) <==> (Stands(before, m) && !Erases(l, m.id)) || newest;
      }
    }
  }

  /** Later pushes stand further left. */
  predicate Recent(marks: seq<Mark>) {
    forall i, j :: 0 <= i < j < |marks| ==> marks[i].pos > marks[j].pos
  }

  lemma {:induction false} UnmarkedRecent(marks: seq<Mark>, id: Id)
    requires Recent(marks)
    ensures Recent(Unmarked(marks, id))
  {
    if marks != [] {
      var rest := Unmarked(marks[1..], id);
      UnmarkedRecent(marks[1..], id);
      if marks[0].id != id {
        UnmarkedHas(marks[1..], id);
        forall j | 0 <= j < |rest| ensures marks[0].pos > rest[j].pos {
          assert rest[j] in marks[1..];
        }
      }
    }
  }

  lemma {:induction false} MarksRecent(log: seq<Landing>)
    ensures Recent(Marks(log))
  {
    if log != [] {
      var before, l := log[..|log| - 1], log[|log| - 1];
      MarksRecent(before);
      MarksStand(before);
      if l.Removed? { UnmarkedRecent(Marks(before), l.id); }
      forall j | 0 <= j < |Marks(before)| ensures Marks(before)[j].pos < |before| {
        assert Marks(before)[j] in Marks(before);
      }
    }
  }

  // ---- trimming ----

  lemma {:induction false} PushesBetween(log: seq<Landing>, p: nat, q: nat)
    requires p < q < |log| && log[q].Pushed?
    ensures PushesAfter(log, p) >= PushesAfter(log, q) + 1
  {
    if q < |log| - 1 { PushesBetween(log[..|log| - 1], p, q); }
  }

  lemma {:induction false} PushesBefore(log: seq<Landing>, i: nat)
    requires i < |Marks(log)|
    ensures PushesAfter(log, Marks(log)[i].pos) >= i
  {
    if i > 0 {
      PushesBefore(log, i - 1);
      MarksRecent(log);
      MarksStand(log);
      assert Marks(log)[i - 1] in Marks(log) && Marks(log)[i] in Marks(log);
      PushesBetween(log, Marks(log)[i].pos, Marks(log)[i - 1].pos);
    }
  }

  /** The list is the front of the untrimmed one, and what it lacks was pushed at least 1000 pushes ago. */
  ghost predicate Kept(dead: seq<Id>, log: seq<Landing>) {
    && |dead| <= 1000 && dead <= Names(Marks(log))
    && forall i :: |dead| <= i < |Marks(log)| ==> PushesAfter(log, Marks(log)[i].pos) >= 1000
  }

  lemma MarksNext(log: seq<Landing>, l: Landing)
    ensures Marks(log + [l])
         == if l.Pushed? then [Mark(l.id, l.note, |log|)] + Marks(log)
            else if l.Removed? then Unmarked(Marks(log), l.id)
            else []
    ensures forall pos: nat :: pos < |log| ==>
              PushesAfter(log + [l], pos) == PushesAfter(log, pos) + (if l.Pushed? then 1 else 0)
  {
    assert (log + [l])[..|log|] == log;
  }

  /** A push moves every mark back by one place. */
  lemma MarkMoves(log: seq<Landing>, l: Landing, i: nat)
    requires l.Pushed? && 0 < i < |Marks(log + [l])|
    ensures i - 1 < |Marks(log)|
    ensures PushesAfter(log + [l], Marks(log + [l])[i].pos) == PushesAfter(log, Marks(log)[i - 1].pos) + 1
  {
    MarksNext(log, l);
    MarksStand(log);
    assert Marks(log)[i - 1] in Marks(log);
  }

  /** What a push leaves behind the cut was pushed long enough ago. */
  lemma PushOld(dead: seq<Id>, log: seq<Landing>, l: Landing, i: nat)
    requires Kept(dead, log) && l.Pushed? && |PushDead(dead, l.id)| <= i < |Marks(log + [l])|
    ensures PushesAfter(log + [l], Marks(log + [l])[i].pos) >= 1000
  {
    assert |PushDead(dead, l.id)| == if |dead| < 1000 then |dead| + 1 else 1000;
    if |dead| + 1 <= i {
      MarkMoves(log, l, i);
    } else {
      PushesBefore(log + [l], i);
    }
  }

  lemma PushKept(dead: seq<Id>, log: seq<Landing>, l: Landing)
    requires Kept(dead, log) && l.Pushed?
    ensures Kept(PushDead(dead, l.id), log + [l])
  {
    MarksNext(log, l);
    assert Names(Marks(log + [l])) == [l.id] + Names(Marks(log));
    assert PushDead(dead, l.id) <= [l.id] + dead;
    forall i | |PushDead(dead, l.id)| <= i < |Marks(log + [l])|
      ensures PushesAfter(log + [l], Marks(log + [l])[i].pos) >= 1000
    {
      PushOld(dead, log, l, i);
    }
  }

  lemma {:induction false} NamesUnmarked(marks: seq<Mark>, id: Id)
    ensures Names(Unmarked(marks, id)) == Without(Names(marks), id)
  {
    if marks != [] {
      assert Names(marks)[1..] == Names(marks[1..]);
      NamesUnmarked(marks[1..], id);
      if marks[0].id != id {
        assert Unmarked(marks, id)[1..] == Unmarked(marks[1..], id);
      }
    }
  }

  lemma {:induction false} UnmarkedJoin(x: seq<Mark>, y: seq<Mark>, id: Id)
    ensures Unmarked(x + y, id) == Unmarked(x, id) + Unmarked(y, id)
  {
    if x == [] {
      assert x + y == y;
    } else {
      assert (x + y)[1..] == x[1..] + y;
      UnmarkedJoin(x[1..], y, id);
    }
  }

  /** What lies behind the cut, after a removal, was pushed as long ago as before. */
  lemma RemoveOld(dead: seq<Id>, log: seq<Landing>, l: Landing, m: Mark)
    requires Kept(dead, log) && l.Removed? && m in Unmarked(Marks(log)[|dead|..], l.id)
    ensures PushesAfter(log + [l], m.pos) >= 1000
  {
    var back := Marks(log)[|dead|..];
    MarksNext(log, l);
    MarksStand(log);
    UnmarkedHas(back, l.id);
    var j :| 0 <= j < |back| && back[j] == m;
    assert Marks(log)[|dead| + j] == m && m in Marks(log);
  }

  lemma NamesFront(x: seq<Mark>, y: seq<Mark>)
    ensures Names(x) <= Names(x + y)
  {
    assert Names(x + y)[..|x|] == Names(x);
  }

  /** A removal takes the marks of its job from both sides of the cut. */
  lemma RemovedMarks(dead: seq<Id>, log: seq<Landing>, l: Landing) returns (kept: seq<Mark>, lost: seq<Mark>)
    requires Kept(dead, log) && l.Removed?
    ensures Marks(log + [l]) == kept + lost && Names(kept) == Without(dead, l.id)
    ensures lost == Unmarked(Marks(log)[|dead|..], l.id)
  {
    var front, back := Marks(log)[..|dead|], Marks(log)[|dead|..];
    MarksNext(log, l);
    assert Marks(log) == front + back && Names(front) == dead;
    UnmarkedJoin(front, back, l.id);
    NamesUnmarked(front, l.id);
    kept, lost := Unmarked(front, l.id), Unmarked(back, l.id);
  }

  lemma RemoveKept(dead: seq<Id>, log: seq<Landing>, l: Landing)
    requires Kept(dead, log) && l.Removed?
    ensures Kept(Without(dead, l.id), log + [l])
  {
    var kept, lost := RemovedMarks(dead, log, l);
    NamesFront(kept, lost);
    forall i | |kept| <= i < |kept + lost| ensures PushesAfter(log + [l], (kept + lost)[i].pos) >= 1000 {
      RemoveOld(dead, log, l, lost[i - |kept|]);
    }
  }

  /** Every command keeps it so. */
  lemma LandKept(dead: seq<Id>, log: seq<Landing>, l: Landing)
    requires Kept(dead, log)
    ensures Kept(Land(dead, l), log + [l])
  {
    match l {
      case Pushed(_, _) => PushKept(dead, log, l);
      case Removed(_, _) => RemoveKept(dead, log, l);
      case Cleared => MarksNext(log, l);
    }
  }

  // ---- when the list is right about a job ----

  /** The commands that concern a job, in the order they landed. */
  function Relevant(log: seq<Landing>, id: Id): seq<Landing> {
    if log == [] then []
    else Relevant(log[..|log| - 1], id) + (if Concerns(log[|log| - 1], id) then [log[|log| - 1]] else [])
  }

  /** Pushes at the end of the commands that concern a job. */
  function Trailing(ls: seq<Landing>): nat {
    if ls == [] || !ls[|ls| - 1].Pushed? then 0 else 1 + Trailing(ls[..|ls| - 1])
  }

  function Occurrences(names: seq<Id>, id: Id): nat {
    if names == [] then 0 else (if names[0] == id then 1 else 0) + Occurrences(names[1..], id)
  }

  lemma {:induction false} WithoutCounts(names: seq<Id>, id: Id, x: Id)
    ensures Occurrences(Without(names, id), x) == if x == id then 0 else Occurrences(names, x)
  {
    if names != [] {
      WithoutCounts(names[1..], id, x);
    }
  }

  lemma RelevantNext(log: seq<Landing>, l: Landing, id: Id)
    ensures Relevant(log + [l], id) == if Concerns(l, id) then Relevant(log, id) + [l] else Relevant(log, id)
  {
    assert (log + [l])[..|log|] == log;
  }

  lemma TrailingNext(ls: seq<Landing>, l: Landing)
    ensures Trailing(ls + [l]) == if l.Pushed? then 1 + Trailing(ls) else 0
  {
    assert (ls + [l])[..|ls|] == ls;
  }

  lemma OccursNext(log: seq<Landing>, l: Landing, id: Id)
    ensures Occurrences(Names(Marks(log + [l])), id)
         == if !Concerns(l, id) then Occurrences(Names(Marks(log)), id)
            else if l.Pushed? then 1 + Occurrences(Names(Marks(log)), id)
            else 0
  {
    MarksNext(log, l);
    match l {
      case Pushed(x, _) => assert Names(Marks(log + [l])) == [x] + Names(Marks(log));
      case Removed(x, _) =>
        NamesUnmarked(Marks(log), x);
        WithoutCounts(Names(Marks(log)), x, id);
      case Cleared =>
    }
  }

  lemma OccursStep(log: seq<Landing>, l: Landing, id: Id)
    requires Occurrences(Names(Marks(log)), id) == Trailing(Relevant(log, id))
    ensures Occurrences(Names(Marks(log + [l])), id) == Trailing(Relevant(log + [l], id))
  {
    OccursNext(log, l, id);
    RelevantNext(log, l, id);
    TrailingNext(Relevant(log, id), l);
  }

  /** A job stands in the list as often as it was pushed since the last command that erased it. */
  lemma {:induction false} OccursAsPushed(log: seq<Landing>, id: Id)
    ensures Occurrences(Names(Marks(log)), id) == Trailing(Relevant(log, id))
    decreases |log|
  {
    if log == [] {
      assert Names(Marks(log)) == [];
    } else {
      var before := log[..|log| - 1];
      OccursAsPushed(before, id);
      OccursStep(before, log[|log| - 1], id);
      assert before + [log[|log| - 1]] == log;
    }
  }

  /**
   * The last command about a failed job was a push and the one before it, if any, was not; the last about any other
   * job, if any, was not a push.
   */
  predicate LandedRight(ls: seq<Landing>, failed: bool) {
    if failed then
      |ls| > 0 && ls[|ls| - 1].Pushed? && (|ls| > 1 ==> !ls[|ls| - 2].Pushed?)
    else
      |ls| > 0 ==> !ls[|ls| - 1].Pushed?
  }

  /** The list holds a failed job exactly once and any other job not at all, exactly when its commands landed right. */
  lemma RightExactly(log: seq<Landing>, id: Id, failed: bool)
    ensures Occurrences(Names(Marks(log)), id) == (if failed then 1 else 0) <==> LandedRight(Relevant(log, id), failed)
  {
    OccursAsPushed(log, id);
    var ls := Relevant(log, id);
    if |ls| > 1 {
      assert Trailing(ls) == if !ls[|ls| - 1].Pushed? then 0 else 1 + Trailing(ls[..|ls| - 1]);
      assert ls[..|ls| - 1][|ls| - 2] == ls[|ls| - 2];
    }
  }

  lemma {:induction false} NoneOccurs(names: seq<Id>, id: Id)
    ensures Occurrences(names, id) == 0 <==> id !in names
  {
    if names != [] { NoneOccurs(names[1..], id); }
  }

  /** It holds a job at all exactly when the last command about that job was a push. */
  lemma ListedExactly(log: seq<Landing>, id: Id)
    ensures id in Names(Marks(log)) <==> var ls := Relevant(log, id); ls != [] && ls[|ls| - 1].Pushed?
  {
    OccursAsPushed(log, id);
    NoneOccurs(Names(Marks(log)), id);
  }

  /**
   * It is not enough, and not needed, that the last command to land belongs to the job's last commit: after three
   * commits the last of which is a failure it can leave the job listed twice, and after four it can fail to hold
   * although the job is rightly gone.
   */
  lemma BelongingIsNotExact(id: Id)
    ensures var late := [Removed(id, 1), Pushed(id, 0), Pushed(id, 2)];
            late[2].note == 2 && Names(Marks(late)) == [id, id]
    ensures var early := [Pushed(id, 0), Pushed(id, 2), Removed(id, 3), Removed(id, 1)];
            early[3].note != 3 && Names(Marks(early)) == []
  {
    MarksNext([], Removed(id, 1));
    MarksNext([Removed(id, 1)], Pushed(id, 0));
    MarksNext([Removed(id, 1), Pushed(id, 0)], Pushed(id, 2));
    assert [] + [Removed(id, 1)] == [Removed(id, 1)];
    assert [Removed(id, 1)] + [Pushed(id, 0)] == [Removed(id, 1), Pushed(id, 0)];
    assert [Removed(id, 1), Pushed(id, 0)] + [Pushed(id, 2)] == [Removed(id, 1), Pushed(id, 0), Pushed(id, 2)];
    var early := [Pushed(id, 0), Pushed(id, 2), Removed(id, 3), Removed(id, 1)];
    RightExactly(early, id, false);
    OnlyAbout(early, id);
  }

  /** A log of one job lists no other. */
  lemma OnlyAbout(log: seq<Landing>, id: Id)
    requires log != [] && log[|log| - 1] == Removed(id, 1)
    requires forall k :: 0 <= k < |log| ==> !log[k].Cleared? && log[k].id == id
    ensures Names(Marks(log)) == []
  {
    MarksStand(log);
    if Marks(log) != [] {
      var m := Marks(log)[0];
      assert Stands(log, m) && Erases(log[|log| - 1], m.id) && m.pos < |log| - 1;
    }
  }

  // ---- the order of failure ----

  /** Jobs that failed later stand further left. */
  predicate NewestFirst(marks: seq<Mark>) {
    forall i, j :: 0 <= i < j < |marks| ==> marks[i].note > marks[j].note
  }

  /** A push keeps the list in reverse order of failure exactly when no listed job failed later than the one pushed. */
  lemma PushKeepsOrder(log: seq<Landing>, id: Id, note: nat)
    requires NewestFirst(Marks(log))
    ensures NewestFirst(Marks(log + [Pushed(id, note)])) <==> forall m :: m in Marks(log) ==> m.note < note
  {
    MarksNext(log, Pushed(id, note));
    var marks, marks' := Marks(log), Marks(log + [Pushed(id, note)]);
    if NewestFirst(marks') {
      forall m | m in marks ensures m.note < note {
        var j :| 0 <= j < |marks| && marks[j] == m;
        assert marks'[0].note > marks'[j + 1].note;
      }
    }
    if forall m :: m in marks ==> m.note < note {
      forall i, j | 0 <= i < j < |marks'| ensures marks'[i].note > marks'[j].note {
        assert marks'[j] == marks[j - 1] && marks[j - 1] in marks;
        if i > 0 { assert marks'[i] == marks[i - 1]; }
      }
    }
  }

  lemma LaterIsLeft(marks: seq<Mark>, i: nat, j: nat)
    requires Recent(marks) && i < |marks| && j < |marks| && marks[j].pos < marks[i].pos
    ensures i < j
  {
  }

  /** Over a whole run: exactly when no two pushes that still stand landed against the order of their failures. */
  lemma OrderOfFailure(log: seq<Landing>)
    ensures NewestFirst(Marks(log))
       <==> forall m, n :: Stands(log, m) && Stands(log, n) && m.pos < n.pos ==> m.note < n.note
  {
    MarksStand(log);
    MarksRecent(log);
    var marks := Marks(log);
    if NewestFirst(marks) {
      forall m, n | Stands(log, m) && Stands(log, n) && m.pos < n.pos ensures m.note < n.note {
        assert m in marks && n in marks;
        var j :| 0 <= j < |marks| && marks[j] == m;
        var i :| 0 <= i < |marks| && marks[i] == n;
        LaterIsLeft(marks, i, j);
        assert marks[i].note > marks[j].note;
      }
    } else {
      var i, j :| 0 <= i < j < |marks| && !(marks[i].note > marks[j].note);
      assert marks[i] in marks && marks[j] in marks;
    }
  }

  /** Removals may put pushes that landed against the order right again, so the order of all pushes decides nothing. */
  lemma RemovalRestoresOrder(a: Id, b: Id)
    requires a != b
    ensures !NewestFirst(Marks([Pushed(b, 1), Pushed(a, 0)]))
    ensures NewestFirst(Marks([Pushed(b, 1), Pushed(a, 0), Removed(a, 2)]))
  {
    var two := [Pushed(b, 1), Pushed(a, 0)];
    MarksNext([], Pushed(b, 1));
    MarksNext([Pushed(b, 1)], Pushed(a, 0));
    MarksNext(two, Removed(a, 2));
    assert [] + [Pushed(b, 1)] == [Pushed(b, 1)] && [Pushed(b, 1)] + [Pushed(a, 0)] == two;
    assert two + [Removed(a, 2)] == [Pushed(b, 1), Pushed(a, 0), Removed(a, 2)];
    assert Marks(two) == [Mark(a, 0, 1), Mark(b, 1, 0)];
    assert Marks(two)[0].note <= Marks(two)[1].note;
    assert Marks(two)[1..] == [Mark(b, 1, 0)] && Unmarked([Mark(b, 1, 0)], a) == [Mark(b, 1, 0)];
  }
}
