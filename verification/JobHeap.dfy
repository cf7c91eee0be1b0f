/** The heap that `JobQueue` keeps in a vector with `JobComparatorPriority` (src/master/job.h:219-232,
    src/master/job.cpp:151-152, 216-225, 337-343): its front is a job that no other job precedes. */
module JobHeap {
  import opened JobQueues

  predicate Link(p: nat, c: nat) {
    c == 2 * p + 1 || c == 2 * p + 2
  }

  ghost predicate HeapOrdered(h: seq<QJob>) {
    forall p: nat, c: nat | Link(p, c) && c < |h| :: !h[c].Before(h[p])
  }

  /** The front has the least priority number, and the least group number among those with it. */
  lemma {:induction false} FrontIsLeast(h: seq<QJob>, i: nat)
    requires HeapOrdered(h) && i < |h|
    ensures h[0].priority < h[i].priority || (h[0].priority == h[i].priority && h[0].groupId <= h[i].groupId)
    decreases i
  {
    if i > 0 {
      assert Link((i - 1) / 2, i);
      FrontIsLeast(h, (i - 1) / 2);
    }
  }

  function Swapped(h: seq<QJob>, i: nat, k: nat): seq<QJob>
    requires i < |h| && k < |h|
  {
    h[i := h[k]][k := h[i]]
  }

  lemma SwapKeeps(h: seq<QJob>, i: nat, k: nat)
    requires i < |h| && k < |h|
    ensures multiset(Swapped(h, i, k)) == multiset(h)
  {
  }

  /** The children of `i` do not precede its parent. */
  ghost predicate Spans(h: seq<QJob>, i: nat) {
    forall p: nat, c: nat | Link(p, i) && Link(i, c) && c < |h| :: !h[c].Before(h[p])
  }

  /** `h` is a heap except that the job at `i` may have to move up. */
  ghost predicate OrderedButUp(h: seq<QJob>, i: nat) {
    Spans(h, i) && forall p: nat, c: nat | Link(p, c) && c < |h| && c != i :: !h[c].Before(h[p])
  }

  /** `h` is a heap except that the job at `i` may have to move down. */
  ghost predicate OrderedButDown(h: seq<QJob>, i: nat) {
    Spans(h, i) && forall p: nat, c: nat | Link(p, c) && c < |h| && p != i :: !h[c].Before(h[p])
  }

  lemma MoveUp(h: seq<QJob>, i: nat, p: nat)
    requires OrderedButUp(h, i) && i < |h| && Link(p, i) && h[i].Before(h[p])
    ensures OrderedButUp(Swapped(h, i, p), p)
  {
  }

  method PushHeap(h: seq<QJob>, job: QJob) returns (r: seq<QJob>)
    requires HeapOrdered(h)
    ensures HeapOrdered(r) && multiset(r) == multiset(h) + multiset{job}
  {
    r := h + [job];
    var i := |h|;
    while i > 0 && r[i].Before(r[(i - 1) / 2])
      invariant 0 <= i < |r| && OrderedButUp(r, i)
      invariant multiset(r) == multiset(h) + multiset{job}
    {
      hide OrderedButUp;
      var parent := (i - 1) / 2;
      MoveUp(r, i, parent);
      SwapKeeps(r, i, parent);
      r, i := Swapped(r, i, parent), parent;
    }
    MovedUp(r, i);
  }

  lemma MovedUp(h: seq<QJob>, i: nat)
    requires OrderedButUp(h, i) && i < |h| && (i > 0 ==> !h[i].Before(h[(i - 1) / 2]))
    ensures HeapOrdered(h)
  {
    if i > 0 {
      forall p: nat | Link(p, i) ensures p == (i - 1) / 2 {
      }
    }
  }

  lemma MoveDown(h: seq<QJob>, i: nat, c: nat)
    requires OrderedButDown(h, i) && c < |h| && Link(i, c) && h[c].Before(h[i])
    requires forall k: nat | Link(i, k) && k < |h| :: !h[k].Before(h[c])
    ensures OrderedButDown(Swapped(h, i, c), c)
  {
  }

  lemma MovedDown(h: seq<QJob>, i: nat)
    requires OrderedButDown(h, i) && forall k: nat | Link(i, k) && k < |h| :: !h[k].Before(h[i])
    ensures HeapOrdered(h)
  {
  }

  /** The last element takes the place of the first. */
  function Refilled(h: seq<QJob>): seq<QJob>
    requires |h| > 1
  {
    h[..|h| - 1][0 := h[|h| - 1]]
  }

  lemma RefilledFacts(h: seq<QJob>)
    requires HeapOrdered(h) && |h| > 1
    ensures OrderedButDown(Refilled(h), 0) && multiset(h) == multiset(Refilled(h)) + multiset{h[0]}
  {
    var n := |h| - 1;
    assert h == [h[0]] + h[1..n] + [h[n]];
    assert Refilled(h) == [h[n]] + h[1..n];
  }

  /** Of the one or two children of `i`, `c` is one that the other does not precede. */
  lemma SmallerChild(h: seq<QJob>, i: nat, c: nat)
    requires Link(i, c) && c < |h|
    requires if c == 2 * i + 1 then c + 1 < |h| ==> !h[c + 1].Before(h[c]) else h[c].Before(h[c - 1])
    ensures forall k: nat | Link(i, k) && k < |h| :: !h[k].Before(h[c])
    ensures !h[c].Before(h[i]) ==> forall k: nat | Link(i, k) && k < |h| :: !h[k].Before(h[i])
  {
  }

  method SiftDown(h: seq<QJob>) returns (r: seq<QJob>)
    requires |h| > 0 && OrderedButDown(h, 0)
    ensures HeapOrdered(r) && multiset(r) == multiset(h)
  {
    hide OrderedButDown, HeapOrdered, QJob.Before;
    r := h;
    var i := 0;
    while 2 * i + 1 < |r|
      invariant 0 <= i < |r| && OrderedButDown(r, i) && multiset(r) == multiset(h)
      decreases |r| - i
    {
      var c := 2 * i + 1;
      if c + 1 < |r| && r[c + 1].Before(r[c]) {
        c := c + 1;
      }
      SmallerChild(r, i, c);
      if !r[c].Before(r[i]) {
        break;
      }
      MoveDown(r, i, c);
      SwapKeeps(r, i, c);
      r, i := Swapped(r, i, c), c;
    }
    MovedDown(r, i);
  }

  method PopHeap(h: seq<QJob>) returns (r: seq<QJob>)
    requires HeapOrdered(h) && |h| > 0
    ensures HeapOrdered(r) && multiset(h) == multiset(r) + multiset{h[0]}
  {
    if |h| == 1 {
      assert h == [h[0]];
      return [];
    }
    RefilledFacts(h);
    r := SiftDown(Refilled(h));
  }

  /** `make_heap`, by repeated insertion. */
  method MakeHeap(h: seq<QJob>) returns (r: seq<QJob>)
    ensures HeapOrdered(r) && multiset(r) == multiset(h)
  {
    r := [];
    var i := 0;
    while i < |h|
      invariant 0 <= i <= |h| && HeapOrdered(r) && multiset(r) == multiset(h[..i])
    {
      assert h[..i + 1] == h[..i] + [h[i]];
      r := PushHeap(r, h[i]);
      i := i + 1;
    }
    assert h[..i] == h;
  }
}
