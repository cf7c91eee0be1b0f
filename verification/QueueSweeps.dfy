/** `DeleteJobGroup` and `Clear` remove exactly the jobs they collect, and keep the queue's invariant
    (src/master/job.cpp:275-332). */
module QueueSweeps {
  import opened Ordering
  import opened JobQueues
  import opened JobLives
  import opened JobQueueObject

  /** The snapshot that the sweep iterates over keeps the unreleased members alive. */
  ghost predicate AllAlive(l: Life, alive: map<GroupId, set<nat>>) {
    forall g | g in l.q.groups :: Open(l.q.groups[g].members, l.released) <= AliveIn(alive, g)
  }

  function Swept(l: Life, ids: seq<JobId>, alive: map<GroupId, set<nat>>): Life {
    if ids == [] then l else
      var l1, x := Swept(l, ids[..|ids| - 1], alive), ids[|ids| - 1];
      if x in l1.q.index then Next(l1, Deleted(x, AliveIn(alive, l1.q.index[x].groupId))) else l1
  }

  lemma DeletedFacts(l: Life, x: JobId, alive: set<nat>)
    requires Inv(l) && x in l.q.index && Alive(l, x, alive)
    ensures var q1 := Delete(l.q, x, alive).0;
            && q1.index == l.q.index - {x} && q1.groups.Keys == l.q.groups.Keys
            && forall g | g in l.q.groups :: q1.groups[g].members == l.q.groups[g].members
  {
    hide Inv, Release, Alive, Moves, Open, CountsOk;
    QueuedPlace(l, x);
    var job := l.jobs[x];
    var q := l.q.(index := l.q.index - {x});
    if job.groupId in l.q.groups {
      ReleaseLoop(l, job, q, alive);
      MovesFacts(q, job.groupId, Release(q, job, alive).0);
    } else {
      UngroupedRelease(q, job, alive);
    }
  }

  lemma MovesFacts(q: Queue, g: GroupId, q1: Queue)
    requires Moves(q, g, q1)
    ensures q1.index == q.index && q1.groups.Keys == q.groups.Keys
    ensures forall h | h in q.groups && h != g :: q1.groups[h] == q.groups[h]
  {
  }

  lemma AliveAt(l: Life, alive: map<GroupId, set<nat>>, x: JobId)
    requires Inv(l) && AllAlive(l, alive) && x in l.q.index
    ensures Alive(l, x, AliveIn(alive, l.q.index[x].groupId))
  {
    hide Inv, AliveIn;
    QueuedPlace(l, x);
    var job := l.jobs[x];
    if job.groupId in l.q.groups {
      var members := l.q.groups[job.groupId].members;
      assert Open(members, l.released + {x}) <= Open(members, l.released);
    }
  }

  lemma StillAlive(l: Life, l1: Life, alive: map<GroupId, set<nat>>)
    requires AllAlive(l, alive) && l.released <= l1.released && l1.q.groups.Keys == l.q.groups.Keys
    requires forall g | g in l.q.groups :: l1.q.groups[g].members == l.q.groups[g].members
    ensures AllAlive(l1, alive)
  {
    hide AliveIn;
    forall g | g in l1.q.groups ensures Open(l1.q.groups[g].members, l1.released) <= AliveIn(alive, g) {
      assert Open(l1.q.groups[g].members, l1.released) <= Open(l.q.groups[g].members, l.released);
    }
  }

  lemma {:induction false} SweptFacts(l: Life, ids: seq<JobId>, alive: map<GroupId, set<nat>>)
    requires Inv(l) && AllAlive(l, alive)
    ensures var l1 := Swept(l, ids, alive);
            && Inv(l1) && AllAlive(l1, alive) && l1.q == DeleteEach(l.q, ids, alive)
            && l1.q.index == l.q.index - SetOf(ids) && l1.jobs == l.jobs && l1.popped == l.popped
    decreases |ids|
  {
    hide Inv, AllAlive, Delete, AliveIn;
    if ids == [] {
      assert SetOf(ids) == {};
    } else {
      var p, x := ids[..|ids| - 1], ids[|ids| - 1];
      SweptFacts(l, p, alive);
      var l0 := Swept(l, p, alive);
      assert ids == p + [x];
      assert SetOf(ids) == SetOf(p) + {x};
      if x in l0.q.index {
        AliveAt(l0, alive, x);
        QueuedUnpopped(l0, x);
        DeletedOk(l0, x, AliveIn(alive, l0.q.index[x].groupId));
        DeletedFacts(l0, x, AliveIn(alive, l0.q.index[x].groupId));
        StillAlive(l0, Swept(l, ids, alive), alive);
      }
    }
  }

  lemma QueuedUnpopped(l: Life, x: JobId)
    requires Inv(l) && x in l.q.index
    ensures l.popped - {x} == l.popped
  {
    hide GroupOk, MembersOk, IndexOk;
  }

  lemma IndexReadout(q: Queue)
    requires IndexOk(q)
    ensures forall job :: job in q.ready + q.delayed <==> job.id in q.index && q.index[job.id] == job
  {
  }

  /** After `Clear` the heap, the delayed set and the index are all empty. */
  lemma ClearEmpties(l: Life, ids: seq<JobId>, alive: map<GroupId, set<nat>>)
    requires Inv(l) && AllAlive(l, alive) && SetOf(ids) == QueuedIds(l.q, true, 0)
    ensures var q1 := DeleteEach(l.q, ids, alive);
            q1.index == map[] && q1.ready == {} && q1.delayed == {}
  {
    hide GroupOk, MembersOk, PlacesOk, AllAlive, DeleteEach, Swept;
    SweptFacts(l, ids, alive);
    IndexReadout(l.q);
    IndexReadout(DeleteEach(l.q, ids, alive));
    forall x | x in l.q.index ensures x in SetOf(ids) {
      assert l.q.index[x] in l.q.ready + l.q.delayed;
    }
    var q1 := DeleteEach(l.q, ids, alive);
    assert q1.index.Keys == {};
    assert q1.ready + q1.delayed == {};
    assert q1.ready <= q1.ready + q1.delayed && q1.delayed <= q1.ready + q1.delayed;
  }

  /** After `DeleteJobGroup` no job of the group is queued and every other queued job still is. */
  lemma DeleteJobGroupRemoves(l: Life, g: GroupId, ids: seq<JobId>, alive: map<GroupId, set<nat>>)
    requires Inv(l) && AllAlive(l, alive) && SetOf(ids) == QueuedIds(l.q, false, g)
    ensures var q1 := DeleteEach(l.q, ids, alive);
            forall job :: job in q1.ready + q1.delayed <==> job in l.q.ready + l.q.delayed && job.groupId != g
  {
    hide GroupOk, MembersOk, PlacesOk, AllAlive, DeleteEach, Swept;
    SweptFacts(l, ids, alive);
    IndexReadout(l.q);
    var q1 := DeleteEach(l.q, ids, alive);
    IndexReadout(q1);
    forall x | x in l.q.index ensures x in SetOf(ids) <==> l.q.index[x].groupId == g {
      assert l.q.index[x] in l.q.ready + l.q.delayed && l.q.index[x].id == x;
    }
  }
}
