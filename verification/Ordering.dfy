/** ORDER BY ... LIMIT and the order of sorted-set members, by a pair of sort keys. */
module Ordering {
  import opened Jobs

  datatype Rank = Rank(major: int, minor: int)

  predicate Leq(x: Rank, y: Rank) {
    x.major < y.major || (x.major == y.major && x.minor <= y.minor)
  }

  predicate Least(rank: map<Id, Rank>, x: Id) {
    x in rank && forall y :: y in rank ==> Leq(rank[x], rank[y])
  }

  predicate Distinct(s: seq<Id>) {
    forall i, j :: 0 <= i < j < |s| ==> s[i] != s[j]
  }

  predicate Sorted(s: seq<Id>, rank: map<Id, Rank>)
    requires forall x :: x in s ==> x in rank
  {
    forall i, j :: 0 <= i < j < |s| ==> Leq(rank[s[i]], rank[s[j]])
  }

  /** The answer of a query: the first `limit` candidates in rank order, ties in any order. */
  predicate TopOf(s: seq<Id>, rank: map<Id, Rank>, limit: nat) {
    && Distinct(s)
    && (forall x :: x in s ==> x in rank)
    && |s| == (if |rank| < limit then |rank| else limit)
    && Sorted(s, rank)
    && (forall x, y :: x in s && y in rank && y !in s ==> Leq(rank[x], rank[y]))
  }

  lemma {:induction false} LeastExists(rank: map<Id, Rank>)
    requires rank != map[]
    ensures exists x :: Least(rank, x)
    decreases |rank|
  {
    var x :| x in rank;
    var rest := rank - {x};
    if rest == map[] {
      assert rank.Keys == rest.Keys + {x};
      assert Least(rank, x);
    } else {
      LeastExists(rest);
      var y :| Least(rest, y);
      if Leq(rank[x], rank[y]) {
        forall z | z in rank ensures Leq(rank[x], rank[z]) {
          if z != x { assert z in rest; }
        }
        assert Least(rank, x);
      } else {
        forall z | z in rank ensures Leq(rank[y], rank[z]) {
          if z != x { assert z in rest; }
        }
        assert Least(rank, y);
      }
    }
  }

  /** `s` was taken off the front of `rank`, leaving `rest`. */
  predicate Taken(s: seq<Id>, rest: map<Id, Rank>, rank: map<Id, Rank>) {
    && Distinct(s)
    && (forall x :: x in s ==> x in rank && x !in rest)
    && Sorted(s, rank)
    && (forall x :: x in rest ==> x in rank && rest[x] == rank[x])
    && (forall x :: x in rank && x !in s ==> x in rest)
    && (forall x, y :: x in s && y in rest ==> Leq(rank[x], rank[y]))
    && |rest| + |s| == |rank|
  }

  lemma TakeOne(s: seq<Id>, rest: map<Id, Rank>, rank: map<Id, Rank>, x: Id)
    requires Taken(s, rest, rank) && Least(rest, x)
    ensures Taken(s + [x], rest - {x}, rank)
  {
    var s', rest' := s + [x], rest - {x};
    assert |rest'| == |rest| - 1 by {
      assert rest'.Keys == rest.Keys - {x};
    }
    assert forall y :: y in s' <==> y in s || y == x;
    assert Distinct(s');
    assert Sorted(s', rank) by {
      forall i, j | 0 <= i < j < |s'| ensures Leq(rank[s'[i]], rank[s'[j]]) {
        assert s'[i] in s;
      }
    }
  }

  /** A query engine: repeatedly takes a least remaining candidate. */
  method Select(rank: map<Id, Rank>, limit: nat) returns (s: seq<Id>)
    ensures TopOf(s, rank, limit)
  {
    s := [];
    var rest := rank;
    while |s| < limit && rest != map[]
      invariant Taken(s, rest, rank) && |s| <= limit
      decreases |rest|
    {
      LeastExists(rest);
      var x :| x in rest && Least(rest, x);
      TakeOne(s, rest, rank, x);
      s, rest := s + [x], rest - {x};
    }
  }

  /** Every query has an answer. */
  lemma TopExists(rank: map<Id, Rank>, limit: nat) returns (s: seq<Id>)
    ensures TopOf(s, rank, limit)
  {
    s := [];
    var rest := rank;
    while |s| < limit && rest != map[]
      invariant Taken(s, rest, rank) && |s| <= limit
      decreases |rest|
    {
      LeastExists(rest);
      var x :| Least(rest, x);
      TakeOne(s, rest, rank, x);
      s, rest := s + [x], rest - {x};
    }
  }

  function Elems(s: seq<Id>): set<Id> {
    set x | x in s
  }

  /** The candidates that rank no later than `x`. */
  function UpTo(rank: map<Id, Rank>, x: Id): set<Id>
    requires x in rank
  {
    set y | y in rank && Leq(rank[y], rank[x])
  }

  /** A candidate with at most `limit` candidates up to and including its own rank is always in the answer. */
  lemma EarlyEnough(s: seq<Id>, rank: map<Id, Rank>, limit: nat, x: Id)
    requires TopOf(s, rank, limit) && x in rank && |UpTo(rank, x)| <= limit
    ensures x in s
  {
    assert |rank.Keys| == |rank|;
    if x !in s {
      Cardinality(s);
      assert |Elems(s) + {x}| == |s| + 1;
      Smaller(Elems(s) + {x}, rank.Keys);
      Smaller(Elems(s) + {x}, UpTo(rank, x));
    }
  }

  /** A candidate left out means that the answer is full. */
  lemma LeftOut(s: seq<Id>, rank: map<Id, Rank>, limit: nat, y: Id)
    requires TopOf(s, rank, limit) && y in rank && y !in s
    ensures |s| == limit
  {
    Cardinality(s);
    Smaller(Elems(s) + {y}, rank.Keys);
    assert |rank.Keys| == |rank|;
  }

  predicate Strictly(x: Rank, y: Rank) {
    Leq(x, y) && !Leq(y, x)
  }

  /** The candidates that rank strictly before one of them. */
  function Preceding(rank: map<Id, Rank>, x: Id): set<Id>
    requires x in rank
  {
    set y | y in rank && Strictly(rank[y], rank[x])
  }

  /** An answer holds a candidate only if fewer than `limit` rank strictly before it. */
  lemma TopWithin(s: seq<Id>, rank: map<Id, Rank>, limit: nat, x: Id)
    requires TopOf(s, rank, limit) && x in s
    ensures x in rank && |Preceding(rank, x)| < limit
  {
    Cardinality(s);
    assert x in Elems(s);
    Smaller(Preceding(rank, x), Elems(s) - {x});
  }

  /** The same order, with ties broken in favour of one candidate. */
  function Favouring(rank: map<Id, Rank>, x: Id): map<Id, Rank> {
    map y | y in rank :: Rank(rank[y].major, 2 * rank[y].minor + (if y == x then 0 else 1))
  }

  lemma FavouringIsFiner(rank: map<Id, Rank>, x: Id, s: seq<Id>, limit: nat)
    requires TopOf(s, Favouring(rank, x), limit)
    ensures TopOf(s, rank, limit)
  {
    assert Favouring(rank, x).Keys == rank.Keys;
  }

  lemma FirstIsUpTo(s: seq<Id>, rank: map<Id, Rank>, x: Id)
    requires (forall y :: y in s ==> y in rank) && Sorted(s, rank) && x in s
    ensures s[0] in UpTo(rank, x)
  {
    var i :| 0 <= i < |s| && s[i] == x;
    assert s[0] in s && Leq(rank[s[0]], rank[s[i]]);
  }

  lemma FirstOfAll(s: seq<Id>, rank: map<Id, Rank>, x: Id)
    requires (forall y :: y in s ==> y in rank) && Sorted(s, rank) && x in s && UpTo(rank, x) == {x}
    ensures s[0] == x
  {
    FirstIsUpTo(s, rank, x);
  }

  /** And ties can always be broken in favour of such a candidate. */
  lemma TopWith(rank: map<Id, Rank>, limit: nat, x: Id) returns (s: seq<Id>)
    requires x in rank && |Preceding(rank, x)| < limit
    ensures TopOf(s, rank, limit) && x in s && (Preceding(rank, x) == {} ==> s[0] == x)
  {
    var finer := Favouring(rank, x);
    s := TopExists(finer, limit);
    assert UpTo(finer, x) == Preceding(rank, x) + {x};
    EarlyEnough(s, finer, limit, x);
    FavouringIsFiner(rank, x, s, limit);
    if Preceding(rank, x) == {} { FirstOfAll(s, finer, x); }
  }

  lemma {:induction false} Cardinality(s: seq<Id>)
    requires Distinct(s)
    ensures |Elems(s)| == |s|
  {
    if s == [] {
      assert Elems(s) == {};
    } else {
      Cardinality(s[1..]);
      assert s[0] !in Elems(s[1..]);
      assert Elems(s) == Elems(s[1..]) + {s[0]};
    }
  }

  lemma Smaller(a: set<Id>, b: set<Id>)
    requires a <= b
    ensures |a| <= |b|
  {
    assert b == a + (b - a);
    assert |b| == |a| + |b - a|;
  }

  /** There is always another number. */
  lemma {:induction false} Unused(s: set<nat>) returns (n: nat)
    ensures forall x :: x in s ==> x < n
  {
    if s == {} {
      n := 0;
    } else {
      var x :| x in s;
      var m := Unused(s - {x});
      n := if x < m then m else x + 1;
      forall y | y in s ensures y < n { assert y == x || y in s - {x}; }
    }
  }
}
