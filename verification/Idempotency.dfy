/** Idempotency keys: normalisation, one holder per key, and reuse after cleanup. */
module Idempotency {
  import opened Wrappers
  import opened Jobs
  import opened Protocol

  // ---- normalisation ----

  const KEY_MAX_LEN := 255

  datatype Normalized = Absent | Key(key: string) | Invalid

  /** White space as Python strips it. */
  predicate IsSpace(ch: char) {
    var u := ch as int;
    || 9 <= u <= 13 || 28 <= u <= 32 || 0x2000 <= u <= 0x200A
    || u in {0x85, 0xA0, 0x1680, 0x2028, 0x2029, 0x202F, 0x205F, 0x3000}
  }

  function StripLeft(s: string): string {
    if s != [] && IsSpace(s[0]) then StripLeft(s[1..]) else s
  }

  function StripRight(s: string): string {
    if s != [] && IsSpace(s[|s| - 1]) then StripRight(s[..|s| - 1]) else s
  }

  function Normalize(key: Option<string>): Normalized {
    if key.None? then Absent
    else
      var cleaned := StripRight(StripLeft(key.value));
      if cleaned == [] || |cleaned| > KEY_MAX_LEN then Invalid else Key(cleaned)
  }

  predicate AllSpace(s: string) {
    forall i :: 0 <= i < |s| ==> IsSpace(s[i])
  }

  /** Bounded by characters that stripping keeps. */
  predicate Trimmed(s: string) {
    s != [] && !IsSpace(s[0]) && !IsSpace(s[|s| - 1])
  }

  /** What is left of a text between white space. */
  ghost predicate TrimmedFrom(raw: string, key: string) {
    Trimmed(key) && exists before, after :: AllSpace(before) && AllSpace(after) && raw == before + key + after
  }

  lemma {:induction false} StripLeftOf(before: string, s: string)
    requires AllSpace(before) && Trimmed(s)
    ensures StripLeft(before + s) == s
  {
    if before == [] {
      assert before + s == s;
    } else {
      assert (before + s)[1..] == before[1..] + s;
      StripLeftOf(before[1..], s);
    }
  }

  lemma {:induction false} StripRightOf(s: string, after: string)
    requires AllSpace(after) && Trimmed(s)
    ensures StripRight(s + after) == s
  {
    if after == [] {
      assert s + after == s;
    } else {
      assert (s + after)[..|s + after| - 1] == s + after[..|after| - 1];
      StripRightOf(s, after[..|after| - 1]);
    }
  }

  lemma {:induction false} StripAll(s: string)
    requires AllSpace(s)
    ensures StripLeft(s) == []
  {
    if s != [] { StripAll(s[1..]); }
  }

  lemma {:induction false} Split(s: string) returns (before: string, middle: string, after: string)
    ensures s == before + middle + after && AllSpace(before) && AllSpace(after)
    ensures AllSpace(s) || Trimmed(middle)
  {
    if s == [] {
      before, middle, after := [], [], [];
    } else if IsSpace(s[0]) {
      before, middle, after := Split(s[1..]);
      before := [s[0]] + before;
    } else if IsSpace(s[|s| - 1]) {
      before, middle, after := Split(s[..|s| - 1]);
      after := after + [s[|s| - 1]];
    } else {
      before, middle, after := [], s, [];
    }
  }

  lemma SpacesAre(ch: char)
    ensures IsSpace(ch)
       <==> ch as int in {0x09, 0x0A, 0x0B, 0x0C, 0x0D, 0x1C, 0x1D, 0x1E, 0x1F, 0x20, 0x85, 0xA0, 0x1680,
                          0x2000, 0x2001, 0x2002, 0x2003, 0x2004, 0x2005, 0x2006, 0x2007, 0x2008, 0x2009, 0x200A,
                          0x2028, 0x2029, 0x202F, 0x205F, 0x3000}
  {
  }

  /** A key is accepted exactly when it is some text of legal length, free of outer white space, between white space. */
  lemma NormalizeAccepts(raw: string, key: string)
    ensures Normalize(Some(raw)) == Key(key)
       <==> |key| <= 255 && TrimmedFrom(raw, key)
  {
    var before, middle, after := Split(raw);
    if AllSpace(raw) {
      StripAll(raw);
      forall x: string, y: string | AllSpace(x) && AllSpace(y) && raw == x + key + y ensures !Trimmed(key) {
        if key != [] { assert raw[|x|] == key[0]; }
      }
    } else {
      StripTo(before, middle, after);
      forall x: string, y: string | AllSpace(x) && AllSpace(y) && raw == x + key + y && Trimmed(key)
        ensures key == middle
      {
        StripTo(x, key, y);
      }
      assert raw == before + middle + after;
    }
  }

  /** Only a submit without a key has none; a given one is refused exactly when nothing or too much is left of it. */
  lemma NormalizeRejects(raw: Option<string>)
    ensures Normalize(raw).Absent? <==> raw.None?
    ensures Normalize(raw).Invalid?
       <==> raw.Some? && (AllSpace(raw.value) || exists key :: |key| > 255 && TrimmedFrom(raw.value, key))
  {
    if raw.Some? {
      var before, middle, after := Split(raw.value);
      if AllSpace(raw.value) {
        StripAll(raw.value);
      } else {
        StripTo(before, middle, after);
        assert TrimmedFrom(raw.value, middle);
        forall key | TrimmedFrom(raw.value, key) ensures key == middle {
          var x, y :| AllSpace(x) && AllSpace(y) && raw.value == x + key + y;
          StripTo(x, key, y);
        }
      }
    }
  }

  lemma StripTo(before: string, middle: string, after: string)
    requires AllSpace(before) && AllSpace(after) && Trimmed(middle)
    ensures StripRight(StripLeft(before + middle + after)) == middle
  {
    assert before + middle + after == before + (middle + after);
    StripLeftTail(before, middle, after);
    StripRightOf(middle, after);
  }

  lemma {:induction false} StripLeftTail(before: string, middle: string, after: string)
    requires AllSpace(before) && Trimmed(middle)
    ensures StripLeft(before + (middle + after)) == middle + after
  {
    if before == [] {
      assert before + (middle + after) == middle + after;
    } else {
      assert (before + (middle + after))[1..] == before[1..] + (middle + after);
      StripLeftTail(before[1..], middle, after);
    }
  }

  // ---- one holder ----

  predicate Carries(s: State, id: Id, key: string) {
    id in s.table && s.table[id].job.key == Some(key)
  }

  /** No two rows carry one key. */
  ghost predicate OneHolder(s: State) {
    forall i, j, key :: Carries(s, i, key) && Carries(s, j, key) ==> i == j
  }

  /** No commit of a worker touches a key or a creation date. */
  lemma WorkKey(c: Settings, s: State, w: WorkerId, a: WorkAction)
    requires CanWork(s, w, a)
    ensures ApplyWork(c, s, w, a).table.Keys == s.table.Keys && ApplyWork(c, s, w, a).clock == s.clock
    ensures forall id :: id in s.table ==>
              && ApplyWork(c, s, w, a).table[id].job.key == s.table[id].job.key
              && ApplyWork(c, s, w, a).table[id].job.createdAt == s.table[id].job.createdAt
  {
    if a.Complete? || a.Fail? { FinishKey(c, s, w, a); }
  }

  lemma FinishKey(c: Settings, s: State, w: WorkerId, a: WorkAction)
    requires CanWork(s, w, a) && (a.Complete? || a.Fail?)
    ensures ApplyWork(c, s, w, a).table.Keys == s.table.Keys && ApplyWork(c, s, w, a).clock == s.clock
    ensures forall id :: id in s.table ==>
              && ApplyWork(c, s, w, a).table[id].job.key == s.table[id].job.key
              && ApplyWork(c, s, w, a).table[id].job.createdAt == s.table[id].job.createdAt
  {
  }

  /** Only the insert gives a row its key and its date, and only the cleanup takes the key away. */
  lemma KeyStep(c: Settings, s: State, a: Action, id: Id)
    requires Enabled(c, s, a)
    ensures s.clock <= Apply(c, s, a).clock
    ensures id in s.table ==>
              && id in Apply(c, s, a).table
              && Apply(c, s, a).table[id].job.createdAt == s.table[id].job.createdAt
              && Apply(c, s, a).table[id].job.key
                 == if a.Upkeep? && a.chore.Cleanup?
                       && s.table[id].job.createdAt < a.chore.wall - 24 * 60 * 60 * 1_000_000 then None
                    else s.table[id].job.key
    ensures id !in s.table && id in Apply(c, s, a).table ==>
              a.Api? && a.call.Insert? && a.call.id == id && Apply(c, s, a).table[id].job.key == a.call.key
  {
    if a.Work? { WorkKey(c, s, a.w, a.work); }
  }

  lemma HolderStep(c: Settings, s: State, a: Action)
    requires OneHolder(s) && Enabled(c, s, a)
    ensures OneHolder(Apply(c, s, a))
  {
    var t := Apply(c, s, a);
    forall i, j, key | Carries(t, i, key) && Carries(t, j, key) ensures i == j {
      KeyStep(c, s, a, i);
      KeyStep(c, s, a, j);
      assert i in s.table ==> Carries(s, i, key);
      assert j in s.table ==> Carries(s, j, key);
    }
  }

  /** In every interleaving at most one row carries a given key. */
  lemma {:induction false} AlwaysOneHolder(c: Settings, s: State, acts: seq<Action>, t: State)
    requires OneHolder(s) && RunsTo(c, s, acts, t)
    ensures OneHolder(t)
    decreases |acts|
  {
    if acts != [] {
      HolderStep(c, s, acts[0]);
      AlwaysOneHolder(c, Apply(c, s, acts[0]), acts[1..], t);
    }
  }

  /** After the window the cleanup frees the key, so that the next insert of it succeeds. */
  lemma KeyReusable(c: Settings, s: State, holder: Id, key: string, wall: Time)
    requires OneHolder(s) && Carries(s, holder, key) && wall > s.table[holder].job.createdAt + 24 * 60 * 60 * 1_000_000
    ensures KeyFree(Apply(c, s, Upkeep(Cleanup(wall))), Some(key))
  {
    var t := Apply(c, s, Upkeep(Cleanup(wall)));
    forall id | id in t.table ensures t.table[id].job.key != Some(key) {
      assert s.table[id].job.key == Some(key) ==> Carries(s, id, key);
    }
  }
}
