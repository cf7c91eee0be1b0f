/** The pool of shared-memory descriptors (src/worker/comm_descriptor.h:103-139) behind the counting
    semaphore (src/common/helper.h:42-55), under every interleaving of the threads' atomic sections. */
module DescriptorPool {
  import opened Ordering

  type Thread = nat

  /** Where a thread is between two atomic sections. */
  datatype Phase = Outside | Admitted | Refused | Holding(block: nat) | Leaving

  datatype Pool = Pool(count: nat, used: seq<bool>, connect: map<Thread, int>, phase: map<Thread, Phase>)

  function Fresh(n: nat): Pool {
    Pool(n, seq(n, _ => false), map[], map[])
  }

  function PhaseOf(p: Pool, t: Thread): Phase {
    if t in p.phase then p.phase[t] else Outside
  }

  /** The first unused descriptor at or after `i`. */
  function FirstFree(used: seq<bool>, i: nat): (r: nat)
    requires i <= |used|
    ensures i <= r <= |used| && (forall k | i <= k < r :: used[k]) && (r < |used| ==> !used[r])
    decreases |used| - i
  {
    if i == |used| || !used[i] then i else FirstFree(used, i + 1)
  }

  // ---- atomic sections ----

  datatype Action = Wait | Mark | Unmark | Notify

  /** `Wait` blocks while the count is zero; the other sections are always ready to run. */
  predicate Enabled(p: Pool, t: Thread, a: Action) {
    match a
    case Wait => PhaseOf(p, t) == Outside && p.count > 0
    case Mark => PhaseOf(p, t) == Admitted
    case Unmark => PhaseOf(p, t).Holding?
    case Notify => PhaseOf(p, t) == Leaving
  }

  function Marked(p: Pool, t: Thread): Pool {
    var i := FirstFree(p.used, 0);
    if i < |p.used| then
      p.(used := p.used[i := true], connect := p.connect[t := i], phase := p.phase[t := Holding(i)])
    else p.(phase := p.phase[t := Refused])
  }

  function Unmarked(p: Pool, t: Thread): Pool {
    if t in p.connect && 0 <= p.connect[t] < |p.used| then
      p.(used := p.used[p.connect[t] := false], connect := p.connect[t := -1], phase := p.phase[t := Leaving])
    else p
  }

  function Step(p: Pool, t: Thread, a: Action): Pool {
    match a
    case Wait => if p.count > 0 then p.(count := p.count - 1, phase := p.phase[t := Admitted]) else p
    case Mark => Marked(p, t)
    case Unmark => Unmarked(p, t)
    case Notify => p.(count := p.count + 1, phase := p.phase[t := Outside])
  }

  // ---- the invariant ----

  ghost function Inside(p: Pool): set<Thread> {
    set t | t in p.phase && p.phase[t] != Outside
  }

  ghost function Holders(p: Pool): set<Thread> {
    set t | t in p.phase && p.phase[t].Holding?
  }

  ghost function UsedBlocks(used: seq<bool>): set<nat> {
    set i: nat | i < |used| && used[i]
  }

  /** Semaphore count and the threads on their way in, holding or on their way out add up to the
      pool's size, and there are as many used descriptors as holders. */
  ghost predicate CountsOk(p: Pool, n: nat) {
    && |p.used| == n && p.count + |Inside(p)| == n && |UsedBlocks(p.used)| == |Holders(p)|
  }

  /** Every holder has a used descriptor of its own, and nobody was refused. */
  ghost predicate HoldersOk(p: Pool) {
    && (forall t | t in p.phase && p.phase[t].Holding? ::
          && p.phase[t].block < |p.used| && p.used[p.phase[t].block]
          && t in p.connect && p.connect[t] == p.phase[t].block)
    && (forall t, u | t in p.phase && u in p.phase && p.phase[t].Holding? && p.phase[u].Holding? && t != u ::
          p.phase[t].block != p.phase[u].block)
    && (forall t | t in p.phase :: p.phase[t] != Refused)
    && (forall t | t in p.connect && !PhaseOf(p, t).Holding? :: p.connect[t] == -1)
  }

  ghost predicate PoolOk(p: Pool, n: nat) {
    CountsOk(p, n) && HoldersOk(p)
  }

  lemma AllUsed(used: seq<bool>)
    ensures FirstFree(used, 0) == |used| ==> |UsedBlocks(used)| == |used|
  {
    if FirstFree(used, 0) == |used| {
      assert UsedBlocks(used) == Below(|used|);
    }
  }

  /** The pigeonhole step: with a thread past the semaphore that holds nothing, some descriptor is
      free. */
  lemma FreeExists(p: Pool, n: nat, t: Thread)
    requires PoolOk(p, n) && PhaseOf(p, t) == Admitted
    ensures FirstFree(p.used, 0) < n
  {
    hide HoldersOk, UsedBlocks;
    assert t in Inside(p) && t !in Holders(p);
    SubsetSize(Holders(p), Inside(p) - {t});
    AllUsed(p.used);
  }

  lemma MarkCounts(p: Pool, n: nat, t: Thread)
    requires CountsOk(p, n) && PhaseOf(p, t) == Admitted && FirstFree(p.used, 0) < n
    ensures CountsOk(Marked(p, t), n)
  {
    hide UsedBlocks;
    var i := FirstFree(p.used, 0);
    var p1 := Marked(p, t);
    assert Inside(p1) == Inside(p);
    assert Holders(p1) == Holders(p) + {t} && t !in Holders(p);
    OneMoreUsed(p.used, i);
  }

  lemma OneMoreUsed(used: seq<bool>, i: nat)
    requires i < |used| && !used[i]
    ensures |UsedBlocks(used[i := true])| == |UsedBlocks(used)| + 1
  {
    assert UsedBlocks(used[i := true]) == UsedBlocks(used) + {i};
  }

  lemma MarkOk(p: Pool, n: nat, t: Thread)
    requires PoolOk(p, n) && PhaseOf(p, t) == Admitted
    ensures PoolOk(Marked(p, t), n)
  {
    FreeExists(p, n, t);
    MarkCounts(p, n, t);
    hide CountsOk;
  }

  lemma UnmarkCounts(p: Pool, n: nat, t: Thread)
    requires CountsOk(p, n) && PhaseOf(p, t).Holding?
    requires t in p.connect && 0 <= p.connect[t] < |p.used| && p.used[p.connect[t]]
    ensures CountsOk(Unmarked(p, t), n)
  {
    var p1 := Unmarked(p, t);
    assert Inside(p1) == Inside(p);
    assert Holders(p1) == Holders(p) - {t} && t in Holders(p);
    assert UsedBlocks(p1.used) == UsedBlocks(p.used) - {p.connect[t]} && p.connect[t] in UsedBlocks(p.used);
    hide Inside, Holders, UsedBlocks;
  }

  lemma UnmarkOk(p: Pool, n: nat, t: Thread)
    requires PoolOk(p, n) && PhaseOf(p, t).Holding?
    ensures PoolOk(Unmarked(p, t), n)
  {
    UnmarkCounts(p, n, t);
    hide CountsOk;
  }

  lemma WaitCounts(p: Pool, n: nat, t: Thread)
    requires CountsOk(p, n) && Enabled(p, t, Wait)
    ensures CountsOk(Step(p, t, Wait), n)
  {
    hide UsedBlocks;
    var p1 := Step(p, t, Wait);
    assert t !in Inside(p) && Inside(p1) == Inside(p) + {t};
    assert Holders(p1) == Holders(p);
  }

  lemma NotifyCounts(p: Pool, n: nat, t: Thread)
    requires CountsOk(p, n) && Enabled(p, t, Notify)
    ensures CountsOk(Step(p, t, Notify), n)
  {
    hide UsedBlocks;
    var p1 := Step(p, t, Notify);
    assert t in Inside(p) && Inside(p1) == Inside(p) - {t};
    assert Holders(p1) == Holders(p);
  }

  lemma PassOk(p: Pool, n: nat, t: Thread, a: Action)
    requires PoolOk(p, n) && Enabled(p, t, a) && (a == Wait || a == Notify)
    ensures PoolOk(Step(p, t, a), n)
  {
    hide CountsOk;
    if a == Wait {
      WaitCounts(p, n, t);
    } else {
      NotifyCounts(p, n, t);
    }
  }

  // ---- runs ----

  function After(n: nat, run: seq<(Thread, Action)>): Pool {
    if run == [] then Fresh(n) else
      var (t, a) := run[|run| - 1];
      Step(After(n, run[..|run| - 1]), t, a)
  }

  predicate Possible(n: nat, run: seq<(Thread, Action)>) {
    run == [] ||
    var (t, a) := run[|run| - 1];
    Possible(n, run[..|run| - 1]) && Enabled(After(n, run[..|run| - 1]), t, a)
  }

  lemma {:induction false} RunOk(n: nat, run: seq<(Thread, Action)>)
    requires Possible(n, run)
    ensures PoolOk(After(n, run), n)
    decreases |run|
  {
    hide PoolOk, Step;
    if run == [] {
      FreshOk(n);
    } else {
      var p := run[..|run| - 1];
      var (t, a) := run[|run| - 1];
      RunOk(n, p);
      StepOk(After(n, p), n, t, a);
    }
  }

  lemma StepOk(p: Pool, n: nat, t: Thread, a: Action)
    requires PoolOk(p, n) && Enabled(p, t, a)
    ensures PoolOk(Step(p, t, a), n)
  {
    hide PoolOk;
    match a
    case Mark => MarkOk(p, n, t);
    case Unmark => UnmarkOk(p, n, t);
    case _ => PassOk(p, n, t, a);
  }

  lemma FreshOk(n: nat)
    ensures PoolOk(Fresh(n), n)
  {
    assert Inside(Fresh(n)) == {} && Holders(Fresh(n)) == {} && UsedBlocks(Fresh(n).used) == {};
  }

  /** Over every interleaving: no two threads hold the same block, a thread past the semaphore finds a
      free descriptor, and nobody is refused. */
  lemma PoolSafety(n: nat, run: seq<(Thread, Action)>, t: Thread, u: Thread)
    requires Possible(n, run)
    ensures var p := After(n, run);
            && (PhaseOf(p, t).Holding? && PhaseOf(p, u).Holding? && t != u ==> PhaseOf(p, t).block != PhaseOf(p, u).block)
            && (PhaseOf(p, t).Holding? ==> t in p.connect && p.connect[t] == PhaseOf(p, t).block < n)
            && (PhaseOf(p, t) == Admitted ==> PhaseOf(Step(p, t, Mark), t).Holding?)
            && (t in p.connect && !PhaseOf(p, t).Holding? ==> p.connect[t] == -1)
            && PhaseOf(p, t) != Refused
            && p.count + |Inside(p)| == n && |UsedBlocks(p.used)| == |Holders(p)|
  {
    RunOk(n, run);
    var p := After(n, run);
    hide After;
    if PhaseOf(p, t) == Admitted {
      FreeExists(p, n, t);
    }
  }

  // ---- the object ----

  class CommDescrPool {
    var count: nat
    const used: array<bool>
    var connect: map<Thread, int>
    ghost var phase: map<Thread, Phase>

    ghost function View(): Pool
      reads this, used
    {
      Pool(count, used[..], connect, phase)
    }

    constructor (n: nat)
      ensures fresh(used) && View() == Fresh(n)
    {
      count, connect, phase := n, map[], map[];
      used := new bool[n](_ => false);
    }

    /** The critical section of `Semaphore::Wait` once the count is positive. */
    method Wait(t: Thread)
      requires Enabled(View(), t, Action.Wait)
      modifies this
      ensures View() == Step(old(View()), t, Action.Wait)
    {
      count := count - 1;
      phase := phase[t := Admitted];
    }

    /** The critical section of `AllocCommDescr`: a linear search for an unused descriptor. */
    method Alloc(t: Thread) returns (ok: bool)
      requires Enabled(View(), t, Mark)
      modifies this, used
      ensures View() == Step(old(View()), t, Mark)
      ensures ok <==> PhaseOf(View(), t).Holding?
    {
      var i := 0;
      while i < used.Length
        invariant 0 <= i <= used.Length && View() == old(View())
        invariant FirstFree(used[..], 0) == FirstFree(used[..], i)
      {
        if !used[i] {
          used[i] := true;
          connect := connect[t := i];
          phase := phase[t := Holding(i)];
          return true;
        }
        i := i + 1;
      }
      phase := phase[t := Refused];
      ok := false;
    }

    /** The critical section of `FreeCommDescr`. */
    method Free(t: Thread)
      requires PoolOk(View(), used.Length) && Enabled(View(), t, Unmark)
      modifies this, used
      ensures View() == Step(old(View()), t, Unmark)
    {
      used[connect[t]] := false;
      connect := connect[t := -1];
      phase := phase[t := Leaving];
    }

    method Notify(t: Thread)
      requires Enabled(View(), t, Action.Notify)
      modifies this
      ensures View() == Step(old(View()), t, Action.Notify)
    {
      count := count + 1;
      phase := phase[t := Outside];
    }
  }
}
