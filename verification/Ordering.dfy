/** Ascending iteration over a set of integers, the order in which `std::set<int>` and
    the keys of `std::map<int64_t, T>` are visited. */
module Ordering {

  ghost predicate IsLeast(m: nat, s: set<nat>) {
    m in s && forall x | x in s :: m <= x
  }

  /** The element that `begin()` denotes: the least one. */
  function Least(s: set<nat>): (m: nat)
    requires s != {}
    ensures IsLeast(m, s)
  {
    LeastExists(s);
    var m: nat :| m in s && forall x | x in s :: m <= x;
    m
  }

  lemma {:induction false} LeastExists(s: set<nat>)
    requires s != {}
    ensures exists m :: IsLeast(m, s)
  {
    var x :| x in s;
    if s == {x} {
      assert IsLeast(x, s);
    } else {
      var rest := s - {x};
      LeastExists(rest);
      var m :| IsLeast(m, rest);
      forall y | y in s ensures m <= y || x <= y {
        if y != x {
          assert y in rest;
        }
      }
      assert IsLeast(if m < x then m else x, s);
    }
  }

  lemma WithoutLeast(s: set<nat>, m: nat)
    requires IsLeast(m, s)
    ensures |s - {m}| == |s| - 1 && forall x | x in s - {m} :: m < x
  {
  }

  lemma LeastFirst(s: set<nat>, m: nat, rest: seq<nat>)
    requires m in s && (forall x :: x in rest <==> x in s - {m}) && forall x | x in s - {m} :: m < x
    requires forall i, k | 0 <= i < k < |rest| :: rest[i] < rest[k]
    ensures (forall x :: x in [m] + rest <==> x in s)
    ensures forall i, k | 0 <= i < k < |[m] + rest| :: ([m] + rest)[i] < ([m] + rest)[k]
  {
    forall k | 0 <= k < |rest| ensures m < rest[k] {
      assert rest[k] in rest;
    }
  }

  /** All elements in ascending order. */
  function Ascending(s: set<nat>): (q: seq<nat>)
    ensures forall x :: x in q <==> x in s
    ensures |q| == |s|
    ensures forall i, k | 0 <= i < k < |q| :: q[i] < q[k]
  {
    if s == {} then [] else
      var m := Least(s);
      var rest := Ascending(s - {m});
      WithoutLeast(s, m);
      LeastFirst(s, m, rest);
      [m] + rest
  }

  function SetOf<T>(q: seq<T>): set<T> {
    set x | x in q
  }

  ghost predicate NoDuplicates<T(!new)>(q: seq<T>) {
    forall i, k | 0 <= i < k < |q| :: q[i] != q[k]
  }

  lemma AscendingHasNoDuplicates(s: set<nat>)
    ensures NoDuplicates(Ascending(s))
  {
  }

  /** The interval `0 .. n - 1` of task numbers of a job planned for `n` executions. */
  function Below(n: nat): (s: set<nat>)
    ensures forall x :: x in s <==> 0 <= x < n
    ensures |s| == n
  {
    if n == 0 then {} else Below(n - 1) + {n - 1}
  }

  /** `JobComparatorPriority` (src/master/job.h:219-232) with its arguments exchanged: the lower priority
      number goes first, then the lower group number. */
  predicate Precedes(priority: int, group: int, otherPriority: int, otherGroup: int) {
    priority < otherPriority || (priority == otherPriority && group < otherGroup)
  }

  lemma UnionSize<T>(a: set<T>, b: set<T>)
    ensures |a + b| <= |a| + |b|
  {
    assert a + b == a + (b - a);
    SubsetSize(b - a, b);
  }

  lemma SubsetSize<T>(a: set<T>, b: set<T>)
    requires a <= b
    ensures |a| <= |b|
    ensures |a| == |b| ==> a == b
  {
    assert b == a + (b - a);
  }
}
