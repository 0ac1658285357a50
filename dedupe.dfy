/**
 * `removeDuplicates` (build/index.ts): a stable filter over task ids that
 * keeps the first occurrence of each id, in input order. Task ids are
 * compared by their numeric `id`, which is what `TaskId` is here. The
 * specification is stated for any element type; the package list of
 * `AddCollectionsAngularJson` is described with it too.
 */
module Duplicates {
  import opened Common

  /** No id occurs twice. */
  predicate NoRepeats<T(==,!new)>(s: seq<T>)
  {
    forall i, j :: 0 <= i < j < |s| ==> s[i] != s[j]
  }

  /** The first occurrences in `s`, in the order they occur. */
  function Dedupe<T(==,!new)>(s: seq<T>): (r: seq<T>)
    ensures NoRepeats(r)
    ensures forall x :: x in r <==> x in s
    ensures |r| <= |s|
  {
    if s == [] then []
    else
      var n := |s| - 1;
      var before := Dedupe(s[..n]);
      assert forall x :: x in s <==> x in s[..n] || x == s[n] by {
        assert s == s[..n] + [s[n]];
      }
      if s[n] in s[..n] then before else before + [s[n]]
  }

  /** The position of the first occurrence of `x` in `s`. */
  function FirstIndex<T(==,!new)>(s: seq<T>, x: T): (k: nat)
    requires x in s
    ensures k < |s| && s[k] == x && x !in s[..k]
  {
    if s[0] == x then 0
    else
      assert x in s[1..] by { var j :| 0 <= j < |s| && s[j] == x; assert s[1..][j - 1] == x; }
      var k := 1 + FirstIndex(s[1..], x);
      assert s[..k] == [s[0]] + s[1..][..k - 1];
      k
  }

  /** Ids without repeats come back unchanged. */
  lemma {:induction false} DedupeOfNoRepeats<T(!new)>(s: seq<T>)
    requires NoRepeats(s)
    ensures Dedupe(s) == s
    decreases |s|
  {
    if s != [] {
      var n := |s| - 1;
      DedupeOfNoRepeats(s[..n]);
      assert s[n] !in s[..n];
      assert s[..n] + [s[n]] == s;
    }
  }

  /** Removing duplicates twice is removing them once. */
  lemma DedupeIdempotent<T(!new)>(s: seq<T>)
    ensures Dedupe(Dedupe(s)) == Dedupe(s)
  {
    DedupeOfNoRepeats(Dedupe(s));
  }

  /** The ids of `r`, all taken from `s`, are in the order of their first occurrences in `s`. */
  ghost predicate InFirstOrder<T(!new)>(s: seq<T>, r: seq<T>)
    requires forall x :: x in r ==> x in s
  {
    forall i, j :: 0 <= i < j < |r| ==> FirstIndex(s, r[i]) < FirstIndex(s, r[j])
  }

  /** The ids come out in the order of their first occurrences in the input. */
  lemma {:induction false} DedupeKeepsFirstOrder<T(!new)>(s: seq<T>)
    ensures InFirstOrder(s, Dedupe(s))
    decreases |s|
  {
    if s != [] {
      var n := |s| - 1;
      var r := Dedupe(s);
      var before := Dedupe(s[..n]);
      DedupeKeepsFirstOrder(s[..n]);
      assert s[..n] + [s[n]] == s;
      forall i | 0 <= i < |before|
        ensures r[i] == before[i] && FirstIndex(s, r[i]) == FirstIndex(s[..n], before[i]) < n
      {
        FirstIndexOfPrefix(s, n, before[i]);
      }
      if s[n] !in s[..n] {
        assert FirstIndex(s, s[n]) == n;
        assert r[|before|] == s[n];
      }
      forall i, j | 0 <= i < j < |r|
        ensures FirstIndex(s, r[i]) < FirstIndex(s, r[j])
      {
        if j < |before| {
          assert InFirstOrder(s[..n], before);
          assert FirstIndex(s[..n], before[i]) < FirstIndex(s[..n], before[j]);
        }
      }
    }
  }

  /** In a prefix that holds `x`, its first occurrence is where it is in the whole. */
  lemma FirstIndexOfPrefix<T(!new)>(s: seq<T>, n: nat, x: T)
    requires n <= |s| && x in s[..n]
    ensures FirstIndex(s, x) == FirstIndex(s[..n], x)
  {
    var k := FirstIndex(s[..n], x);
    assert s[..n][..k] == s[..k];
  }

  /**
   * `removeDuplicates`: walks the ids once, remembering the ids seen in a
   * set and pushing each id not seen before.
   */
  method RemoveDuplicates(tasks: seq<TaskId>) returns (unique: seq<TaskId>)
    ensures unique == Dedupe(tasks)
  {
    var seen: set<TaskId> := {};
    unique := [];
    var i := 0;
    while i < |tasks|
      invariant 0 <= i <= |tasks|
      invariant unique == Dedupe(tasks[..i])
      invariant forall x :: x in seen <==> x in tasks[..i]
    {
      assert tasks[..i + 1][..i] == tasks[..i];
      assert tasks[..i + 1] == tasks[..i] + [tasks[i]];
      if tasks[i] !in seen {
        seen := seen + {tasks[i]};
        unique := unique + [tasks[i]];
      }
      i := i + 1;
    }
    assert tasks[..i] == tasks;
  }

  /** `dedupe([t1, t2, t1, t3]) == [t1, t2, t3]` */
  lemma DedupeExample()
    ensures Dedupe<TaskId>([1, 2, 1, 3]) == [1, 2, 3]
  {
    assert [1, 2, 1, 3][..3] == [1, 2, 1];
    assert [1, 2, 1][..2] == [1, 2];
    assert [1, 2][..1] == [1];
    assert [1][..0] == [];
  }
}
