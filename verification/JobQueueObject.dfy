/** The job queue as the object it is (src/master/job.cpp:36-63, 142-362): a heap in a vector, the set
    of delayed jobs, the index by number, and the groups. */
module JobQueueObject {
  import opened Ordering
  import opened JobGraph
  import opened JobQueues
  import opened JobHeap

  /** No job is in the heap twice. */
  ghost predicate Distinct(h: seq<QJob>) {
    multiset(h) == multiset(SetOf(h))
  }

  lemma Added(h: seq<QJob>, job: QJob, r: seq<QJob>)
    requires Distinct(h) && job !in h && multiset(r) == multiset(h) + multiset{job}
    ensures Distinct(r) && SetOf(r) == SetOf(h) + {job}
  {
    assert forall x :: x in r <==> x in multiset(r);
    assert SetOf(r) == SetOf(h) + {job};
  }

  lemma Removed(h: seq<QJob>, job: QJob, r: seq<QJob>)
    requires Distinct(h) && multiset(h) == multiset(r) + multiset{job}
    ensures Distinct(r) && SetOf(r) == SetOf(h) - {job} && job in h
  {
    assert forall x :: x in r <==> x in multiset(r);
    assert forall x :: x in h <==> x in multiset(h);
    assert SetOf(r) == SetOf(h) - {job};
  }

  function AliveIn(alive: map<GroupId, set<nat>>, g: GroupId): set<nat> {
    if g in alive then alive[g] else {}
  }

  function DeleteEach(q: Queue, ids: seq<JobId>, alive: map<GroupId, set<nat>>): Queue {
    if ids == [] then q else
      var q1, x := DeleteEach(q, ids[..|ids| - 1], alive), ids[|ids| - 1];
      if x in q1.index then Delete(q1, x, AliveIn(alive, q1.index[x].groupId)).0 else q1
  }

  function IdsOf(jobs: set<QJob>, all: bool, g: GroupId): set<JobId> {
    set job | job in jobs && (all || job.groupId == g) :: job.id
  }

  function QueuedIds(q: Queue, all: bool, g: GroupId): set<JobId> {
    IdsOf(q.ready + q.delayed, all, g)
  }

  lemma OneMore(jobs: set<QJob>, job: QJob, all: bool, g: GroupId)
    ensures IdsOf(jobs + {job}, all, g) == IdsOf(jobs, all, g) + (if all || job.groupId == g then {job.id} else {})
  {
  }

  lemma ResolveStep(q: Queue, g: GroupId, edges: seq<Edge>, i: nat, v: nat, alive: set<nat>)
    requires g in q.groups && i <= |edges|
    ensures i == |edges| ==> Resolve(q, g, Out(edges[i..], v), alive) == q
    ensures i < |edges| ==>
              Resolve(q, g, Out(edges[i..], v), alive) ==
              Resolve(if edges[i].tail == v then ResolveOne(q, g, edges[i].head, alive) else q, g,
                      Out(edges[i + 1..], v), alive)
  {
    hide ResolveOne;
    if i < |edges| {
      assert edges[i..][1..] == edges[i + 1..];
      var rest := Out(edges[i + 1..], v);
      if edges[i].tail == v {
        assert Out(edges[i..], v) == [edges[i].head] + rest && ([edges[i].head] + rest)[1..] == rest;
      } else {
        assert Out(edges[i..], v) == rest;
      }
    }
  }

  class JobQueue {
    var heap: seq<QJob>
    var delayed: set<QJob>
    var index: map<JobId, QJob>
    var groups: map<GroupId, Group>

    ghost function View(): Queue
      reads this
    {
      Queue(SetOf(heap), delayed, index, groups)
    }

    ghost predicate Valid()
      reads this
    {
      HeapOrdered(heap) && Distinct(heap) && SetOf(heap) !! delayed
    }

    constructor ()
      ensures Valid() && View() == NoJobs
    {
      heap, delayed, index, groups := [], {}, map[], map[];
    }

    method AddToHeap(job: QJob)
      requires Valid() && job !in heap && job !in delayed
      modifies this`heap
      ensures Valid() && SetOf(heap) == SetOf(old(heap)) + {job}
    {
      hide HeapOrdered, Distinct;
      heap := PushHeap(heap, job);
      Added(old(heap), job, heap);
    }

    method PushJob(job: QJob)
      requires Valid() && job !in heap && job !in delayed
      modifies this
      ensures Valid() && View() == Push(old(View()), job)
    {
      index := index[job.id := job];
      AddToHeap(job);
    }

    /** `PopJob` takes a job that no ready job precedes. */
    method PopJob() returns (ok: bool, job: QJob)
      requires Valid()
      modifies this
      ensures ok <==> old(View()).ready != {}
      ensures !ok ==> View() == old(View())
      ensures ok ==> job in old(View()).ready
      ensures ok ==> forall other | other in old(View()).ready ::
                       job.priority < other.priority || (job.priority == other.priority && job.groupId <= other.groupId)
      ensures ok ==> Valid() && View() == Pop(old(View()), job)
    {
      if |heap| == 0 {
        ok, job := false, QJob(0, 0, 0, 0);
        return;
      }
      ok, job := true, heap[0];
      assert job in SetOf(heap);
      forall other | other in heap ensures NoLater(job, other) {
        var i :| 0 <= i < |heap| && heap[i] == other;
        FrontIsLeast(heap, i);
      }
      hide HeapOrdered, Distinct;
      heap := PopHeap(heap);
      Removed(old(heap), job, heap);
      index := index - {job.id};
    }

    method OnJobDependenciesResolved(job: QJob)
      requires Valid()
      modifies this`heap, this`delayed
      ensures Valid() && View() == Undelay(old(View()), job)
    {
      hide HeapOrdered, Distinct;
      if job in delayed {
        delayed := delayed - {job};
        AddToHeap(job);
      }
    }

    /** `JobGroup::OnJobCompletion` for the vertex of `job`. */
    method ReleaseJobGroup(job: QJob, alive: set<nat>) returns (last: bool)
      requires Valid()
      modifies this`heap, this`delayed, this`groups
      ensures Valid() && (View(), last) == Release(old(View()), job, alive)
    {
      hide HeapOrdered, Distinct, Resolve, ResolveOne, Out;
      if job.groupId !in groups {
        return false;
      }
      var g, edges := job.groupId, groups[job.groupId].edges;
      ghost var q := View();
      assert edges[0..] == edges;
      var i := 0;
      while i < |edges|
        invariant 0 <= i <= |edges| && Valid() && g in groups && index == old(index)
        invariant Resolve(q, g, Out(edges, job.vertex), alive) == Resolve(View(), g, Out(edges[i..], job.vertex), alive)
      {
        ResolveStep(View(), g, edges, i, job.vertex, alive);
        if edges[i].tail == job.vertex {
          ResolveTarget(g, edges[i].head, alive);
        }
        i := i + 1;
      }
      ResolveStep(View(), g, edges, i, job.vertex, alive);
      groups := groups[g := groups[g].(completed := groups[g].completed + 1)];
      last := groups[g].completed == |groups[g].members|;
    }

    method ResolveTarget(g: GroupId, w: nat, alive: set<nat>)
      requires Valid() && g in groups
      modifies this`heap, this`delayed, this`groups
      ensures Valid() && View() == ResolveOne(old(View()), g, w, alive)
    {
      hide HeapOrdered, Distinct;
      var group := groups[g];
      if w in alive && w < |group.members| && w < |group.depends| {
        var numDeps := group.depends[w];
        groups := groups[g := group.(depends := group.depends[w := numDeps - 1])];
        if numDeps < 2 {
          OnJobDependenciesResolved(group.members[w]);
        }
      }
    }

    method DeleteJob(id: JobId, alive: set<nat>) returns (deleted: bool)
      requires Valid()
      modifies this
      ensures Valid() && deleted == (id in old(index))
      ensures View() == if id in old(index) then Delete(old(View()), id, alive).0 else old(View())
    {
      hide HeapOrdered, Distinct, Release;
      if id !in index {
        return false;
      }
      var job := index[id];
      index := index - {id};
      var _ := ReleaseJobGroup(job, alive);
      EraseJob(job);
      deleted := true;
    }

    method EraseJob(job: QJob)
      requires Valid()
      modifies this`heap, this`delayed
      ensures Valid() && View() == Dropped(old(View()), job)
    {
      hide HeapOrdered, Distinct;
      var i := 0;
      while i < |heap|
        invariant 0 <= i <= |heap| && heap == old(heap) && delayed == old(delayed)
        invariant job !in heap[..i]
      {
        if heap[i] == job {
          assert heap == heap[..i] + [job] + heap[i + 1..];
          heap := MakeHeap(heap[..i] + heap[i + 1..]);
          Removed(old(heap), job, heap);
          return;
        }
        i := i + 1;
      }
      delayed := delayed - {job};
    }

    method DeleteAll(ids: seq<JobId>, alive: map<GroupId, set<nat>>) returns (deleted: bool)
      requires Valid()
      modifies this
      ensures Valid() && View() == DeleteEach(old(View()), ids, alive)
      ensures deleted <==> ids != [] && ids[|ids| - 1] in DeleteEach(old(View()), ids[..|ids| - 1], alive).index
    {
      hide HeapOrdered, Distinct, Delete;
      deleted := false;
      var i := 0;
      while i < |ids|
        invariant 0 <= i <= |ids| && Valid() && View() == DeleteEach(old(View()), ids[..i], alive)
        invariant deleted <==> i > 0 && ids[i - 1] in DeleteEach(old(View()), ids[..i - 1], alive).index
      {
        assert ids[..i + 1][..i] == ids[..i];
        var g := if ids[i] in index then index[ids[i]].groupId else 0;
        deleted := DeleteJob(ids[i], AliveIn(alive, g));
        i := i + 1;
      }
      assert ids[..i] == ids;
    }

    /** The numbers of the queued jobs, of all groups or of one: first those in the heap. */
    method CollectIds(all: bool, g: GroupId) returns (ids: seq<JobId>)
      ensures SetOf(ids) == QueuedIds(View(), all, g)
    {
      ids := [];
      var i := 0;
      assert IdsOf(SetOf(heap[..0]), all, g) == {};
      while i < |heap|
        invariant 0 <= i <= |heap| && SetOf(ids) == IdsOf(SetOf(heap[..i]), all, g)
      {
        assert heap[..i + 1] == heap[..i] + [heap[i]];
        OneMore(SetOf(heap[..i]), heap[i], all, g);
        assert SetOf(heap[..i + 1]) == SetOf(heap[..i]) + {heap[i]};
        if all || heap[i].groupId == g {
          ids := ids + [heap[i].id];
        }
        i := i + 1;
      }
      assert heap[..i] == heap;
      var rest := delayed;
      assert SetOf(heap) + (delayed - rest) == SetOf(heap);
      while rest != {}
        invariant rest <= delayed && SetOf(ids) == IdsOf(SetOf(heap) + (delayed - rest), all, g)
        decreases rest
      {
        var job :| job in rest;
        OneMore(SetOf(heap) + (delayed - rest), job, all, g);
        assert SetOf(heap) + (delayed - (rest - {job})) == SetOf(heap) + (delayed - rest) + {job};
        if all || job.groupId == g {
          ids := ids + [job.id];
        }
        rest := rest - {job};
      }
      assert SetOf(heap) + (delayed - rest) == SetOf(heap) + delayed;
    }

    method DeleteJobGroup(g: GroupId, alive: map<GroupId, set<nat>>) returns (deleted: bool, ghost ids: seq<JobId>)
      requires Valid()
      modifies this
      ensures SetOf(ids) == QueuedIds(old(View()), false, g)
      ensures deleted <==> ids != [] && ids[|ids| - 1] in DeleteEach(old(View()), ids[..|ids| - 1], alive).index
      ensures Valid() && View() == DeleteEach(old(View()), ids, alive)
    {
      var jobs := CollectIds(false, g);
      ids := jobs;
      deleted := DeleteAll(jobs, alive);
    }

    method Clear(alive: map<GroupId, set<nat>>) returns (ghost ids: seq<JobId>)
      requires Valid()
      modifies this
      ensures SetOf(ids) == QueuedIds(old(View()), true, 0)
      ensures Valid() && View() == DeleteEach(old(View()), ids, alive)
    {
      var jobs := CollectIds(true, 0);
      ids := jobs;
      var _ := DeleteAll(jobs, alive);
    }

    method PushJobs(g: GroupId, group: Group)
      requires Valid() && |group.members| == |group.depends|
      requires forall i | 0 <= i < |group.members| :: group.members[i] !in heap && group.members[i] !in delayed
      requires NoDuplicates(group.members)
      modifies this
      ensures Valid() && View() == PushGroup(old(View()), g, group)
    {
      hide HeapOrdered, Distinct;
      groups := groups[g := group];
      ghost var q := View();
      var i := 0;
      while i < |group.members|
        invariant 0 <= i <= |group.members| && Valid() && View() == PushMembers(q, group, i)
        invariant forall k | i <= k < |group.members| :: group.members[k] !in SetOf(heap) && group.members[k] !in delayed
      {
        var job := group.members[i];
        index := index[job.id := job];
        if group.depends[i] != 0 {
          delayed := delayed + {job};
        } else {
          AddToHeap(job);
        }
        i := i + 1;
      }
    }
  }
}
