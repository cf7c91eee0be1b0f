/** The queue of jobs that wait to be planned, with the groups whose jobs depend on each other
    (src/master/job.cpp:36-63, 142-362), as a state machine on values. */
module JobQueues {
  import opened Ordering
  import opened JobGraph

  type JobId = nat
  type GroupId = nat

  datatype QJob = QJob(id: JobId, priority: int, groupId: GroupId, vertex: nat) {
    /** This job leaves the heap earlier. */
    predicate Before(other: QJob) {
      Precedes(priority, groupId, other.priority, other.groupId)
    }
  }

  /** `depends` holds the counters of the member jobs. */
  datatype Group = Group(members: seq<QJob>, edges: seq<Edge>, depends: seq<int>, completed: nat)

  /** `ready` holds the contents of the heap. */
  datatype Queue = Queue(ready: set<QJob>, delayed: set<QJob>, index: map<JobId, QJob>, groups: map<GroupId, Group>)

  const NoJobs: Queue := Queue({}, {}, map[], map[])

  // ---- steps ----

  /** The targets of the edges that leave `v`, in order. */
  function Out(edges: seq<Edge>, v: nat): (r: seq<nat>)
    ensures forall w :: w in r <==> Edge(v, w) in edges
  {
    if edges == [] then [] else
      assert edges == [edges[0]] + edges[1..];
      (if edges[0].tail == v then [edges[0].head] else []) + Out(edges[1..], v)
  }

  /** `OnJobDependenciesResolved`. */
  function Undelay(q: Queue, job: QJob): Queue {
    if job in q.delayed then q.(ready := q.ready + {job}, delayed := q.delayed - {job}) else q
  }

  /** One round of the loop in `OnJobCompletion`; `alive` holds the vertices whose job still exists. */
  function ResolveOne(q: Queue, g: GroupId, w: nat, alive: set<nat>): (r: Queue)
    requires g in q.groups
    ensures g in r.groups
  {
    var group := q.groups[g];
    if w !in alive || w >= |group.members| || w >= |group.depends| then q else
      var d := group.depends[w];
      var q1 := q.(groups := q.groups[g := group.(depends := group.depends[w := d - 1])]);
      if d < 2 then Undelay(q1, group.members[w]) else q1
  }

  function Resolve(q: Queue, g: GroupId, targets: seq<nat>, alive: set<nat>): (r: Queue)
    requires g in q.groups
    ensures g in r.groups
    decreases |targets|
  {
    if targets == [] then q
    else Resolve(ResolveOne(q, g, targets[0], alive), g, targets[1..], alive)
  }

  /** `Job::ReleaseJobGroup`: the second component tells whether this was the last job of its group. */
  function Release(q: Queue, job: QJob, alive: set<nat>): (Queue, bool) {
    if job.groupId !in q.groups then (q, false) else
      var g := job.groupId;
      var q1 := Resolve(q, g, Out(q.groups[g].edges, job.vertex), alive);
      var done := q1.groups[g].completed + 1;
      (q1.(groups := q1.groups[g := q1.groups[g].(completed := done)]), done == |q1.groups[g].members|)
  }

  function Dropped(q: Queue, job: QJob): Queue {
    if job in q.ready then q.(ready := q.ready - {job}) else q.(delayed := q.delayed - {job})
  }

  /** `DeleteJob`. */
  function Delete(q: Queue, id: JobId, alive: set<nat>): (Queue, bool) {
    if id !in q.index then (q, false) else
      var (q1, last) := Release(q.(index := q.index - {id}), q.index[id], alive);
      (Dropped(q1, q.index[id]), last)
  }

  function Pop(q: Queue, job: QJob): Queue {
    q.(ready := q.ready - {job}, index := q.index - {job.id})
  }

  function Push(q: Queue, job: QJob): Queue {
    q.(ready := q.ready + {job}, index := q.index[job.id := job])
  }

  /** One round of the loop in `PushJobs`. */
  function PushMember(q: Queue, job: QJob, depends: int): Queue {
    if depends != 0 then q.(delayed := q.delayed + {job}, index := q.index[job.id := job]) else Push(q, job)
  }

  function PushMembers(q: Queue, group: Group, k: nat): Queue
    requires k <= |group.members| == |group.depends|
  {
    if k == 0 then q else PushMember(PushMembers(q, group, k - 1), group.members[k - 1], group.depends[k - 1])
  }

  function PushGroup(q: Queue, g: GroupId, group: Group): Queue
    requires |group.members| == |group.depends|
  {
    PushMembers(q.(groups := q.groups[g := group]), group, |group.members|)
  }

  /** `job` has a lower priority number than `other`, or the same and no higher group number. */
  predicate NoLater(job: QJob, other: QJob) {
    job.priority < other.priority || (job.priority == other.priority && job.groupId <= other.groupId)
  }

  /** Of the jobs `ready`, `job` has the least priority number and among those the least group number. */
  predicate Foremost(ready: set<QJob>, job: QJob) {
    job in ready && forall other | other in ready :: NoLater(job, other)
  }

  // ---- the invariant ----

  /** A queue together with what has happened to the jobs that were pushed: taken out to be planned,
      or released from their group. */
  datatype Life = Life(q: Queue, jobs: map<JobId, QJob>, popped: set<JobId>, released: set<JobId>)

  /** The heap and the delayed set partition what the index knows. */
  ghost predicate IndexOk(q: Queue) {
    && q.ready !! q.delayed
    && (forall x | x in q.index :: q.index[x].id == x && q.index[x] in q.ready + q.delayed)
    && (forall job | job in q.ready + q.delayed :: job.id in q.index && q.index[job.id] == job)
  }

  ghost predicate PlacesOk(l: Life) {
    && l.q.index.Keys + l.popped + l.released == l.jobs.Keys
    && l.q.index.Keys !! l.popped && l.q.index.Keys !! l.released && l.popped !! l.released
    && (forall x | x in l.jobs :: l.jobs[x].id == x)
    && (forall x | x in l.q.index :: l.jobs[x] == l.q.index[x])
  }

  /** The vertices whose job is not released. */
  function Open(members: seq<QJob>, released: set<JobId>): set<nat> {
    set v: nat | v < |members| && members[v].id !in released
  }

  ghost predicate ShapeOk(g: GroupId, group: Group, jobs: map<JobId, QJob>) {
    && |group.depends| == |group.members| && Within(group.edges, |group.members|) && !Cyclic(group.edges)
    && forall v: nat | v < |group.members| ::
         var m := group.members[v];
         m.groupId == g && m.vertex == v && m.id in jobs && jobs[m.id] == m
  }

  /** The counters of the open vertices, while the edges to `rest` are still to be taken off. */
  ghost predicate CountsOk(group: Group, delayed: set<QJob>, open: set<nat>, rest: seq<nat>) {
    && |group.depends| == |group.members|
    && forall v: nat | v in open ::
      && v < |group.members|
      && group.depends[v] == InCount(group.edges, v, open) + Times(rest, v)
      && (group.members[v] in delayed <==> group.depends[v] > 0)
  }

  function Times(q: seq<nat>, v: nat): nat {
    if q == [] then 0 else (if q[0] == v then 1 else 0) + Times(q[1..], v)
  }

  ghost predicate GroupOk(l: Life, g: GroupId)
    requires g in l.q.groups
  {
    var group := l.q.groups[g];
    && ShapeOk(g, group, l.jobs)
    && CountsOk(group, l.q.delayed, Open(group.members, l.released), [])
    && group.completed + |Open(group.members, l.released)| == |group.members|
  }

  /** Every job of a group is a member of it, and only members are delayed. */
  ghost predicate MembersOk(l: Life) {
    && (forall x | x in l.jobs && l.jobs[x].groupId in l.q.groups ::
          IsMember(l.q.groups[l.jobs[x].groupId], l.jobs[x]))
    && (forall job | job in l.q.delayed :: job.groupId in l.q.groups)
  }

  predicate IsMember(group: Group, job: QJob) {
    job.vertex < |group.members| && group.members[job.vertex] == job
  }

  ghost predicate Inv(l: Life) {
    IndexOk(l.q) && PlacesOk(l) && MembersOk(l) && forall g | g in l.q.groups :: GroupOk(l, g)
  }

  lemma GroupAt(l: Life, g: GroupId)
    requires Inv(l) && g in l.q.groups
    ensures GroupOk(l, g)
  {
  }

  // ---- what the invariant means ----

  /** The unreleased jobs that must be released before `v`. */
  ghost predicate Waiting(group: Group, released: set<JobId>, v: nat) {
    exists e :: e in group.edges && e.head == v && e.tail in Open(group.members, released)
  }

  /** Dependency order: a queued job is delayed exactly while a job it depends on is unreleased; in
      particular a job that can be popped or was popped depends on released jobs only. */
  lemma DependencyOrder(l: Life, x: JobId)
    requires Inv(l) && x in l.jobs && x !in l.released && l.jobs[x].groupId in l.q.groups
    ensures var job := l.jobs[x];
            job in l.q.delayed <==> Waiting(l.q.groups[job.groupId], l.released, job.vertex)
  {
    var job := l.jobs[x];
    var group := l.q.groups[job.groupId];
    GroupAt(l, job.groupId);
    assert IsMember(group, job);
    hide InCount, Within, Cyclic;
    InCountZero(group.edges, job.vertex, Open(group.members, l.released));
    assert job.vertex in Open(group.members, l.released);
  }

  /** A meta-job never deadlocks: while a job of the group is unreleased, some unreleased job of the
      group is in the heap or already popped. */
  lemma NoDeadlock(l: Life, g: GroupId)
    requires Inv(l) && g in l.q.groups
    requires exists v: nat :: v in Open(l.q.groups[g].members, l.released)
    ensures exists job :: job in l.q.groups[g].members && job.id !in l.released && (job in l.q.ready || job.id in l.popped)
  {
    GroupAt(l, g);
    var group := l.q.groups[g];
    var open := Open(group.members, l.released);
    FirstExists(group.edges, open);
    var v: nat :| IsFirst(group.edges, open, v);
    hide InCount, Within, Cyclic;
    InCountZero(group.edges, v, open);
    var job := group.members[v];
    assert job in group.members && job.id in l.jobs && l.jobs[job.id] == job;
    assert job !in l.q.delayed;
    assert job.id in l.q.index ==> job in l.q.ready;
  }

  // ---- releasing a job ----

  /** `q1` differs from `q` in the counters of group `g` and in members of `g` that are no longer
      delayed. */
  ghost predicate OnlyGroup(q: Queue, g: GroupId, q1: Queue)
    requires g in q.groups
  {
    && q1.index == q.index && g in q1.groups
    && q1.groups == q.groups[g := q.groups[g].(depends := q1.groups[g].depends)]
    && q1.delayed <= q.delayed && q1.ready == q.ready + (q.delayed - q1.delayed)
    && forall job | job in q.delayed - q1.delayed :: job.groupId == g
  }

  lemma OnlyGroupTransitive(q: Queue, g: GroupId, q1: Queue, q2: Queue)
    requires g in q.groups && OnlyGroup(q, g, q1) && OnlyGroup(q1, g, q2)
    ensures OnlyGroup(q, g, q2)
  {
  }

  lemma {:induction false} CountWithout(edges: seq<Edge>, w: nat, u: set<nat>, v: nat)
    requires v in u
    ensures InCount(edges, w, u) == InCount(edges, w, u - {v}) + Times(Out(edges, v), w)
    decreases |edges|
  {
    if edges != [] {
      var p, e := edges[..|edges| - 1], edges[|edges| - 1];
      CountWithout(p, w, u, v);
      assert edges == p + [e];
      OutAppended(p, e, v);
      TimesAppended(Out(p, v), if e.tail == v then [e.head] else [], w);
    }
  }

  lemma {:induction false} OutAppended(edges: seq<Edge>, e: Edge, v: nat)
    ensures Out(edges + [e], v) == Out(edges, v) + (if e.tail == v then [e.head] else [])
    decreases |edges|
  {
    if edges == [] {
      assert [] + [e] == [e];
    } else {
      assert (edges + [e])[1..] == edges[1..] + [e];
      OutAppended(edges[1..], e, v);
    }
  }

  lemma {:induction false} TimesAppended(a: seq<nat>, b: seq<nat>, v: nat)
    ensures Times(a + b, v) == Times(a, v) + Times(b, v)
    decreases |a|
  {
    if a == [] {
      assert a + b == b;
    } else {
      assert (a + b)[1..] == a[1..] + b;
      TimesAppended(a[1..], b, v);
    }
  }

  /** What the loop over the out-edges may rely on: the open vertices are alive and distinct jobs,
      and a vertex that is not open has no delayed job, except `v` itself. */
  ghost predicate LoopOk(q: Queue, g: GroupId, open: set<nat>, alive: set<nat>, v: nat)
    requires g in q.groups
  {
    var group := q.groups[g];
    && open <= alive && v !in open
    && (forall w: nat | w in open :: w < |group.members|)
    && (forall w: nat | w < |group.members| :: group.members[w].groupId == g && group.members[w].vertex == w)
    && (forall w: nat | w < |group.members| && w !in open && w != v :: group.members[w] !in q.delayed)
  }

  lemma ResolveOneOk(q: Queue, g: GroupId, w: nat, rest: seq<nat>, alive: set<nat>, open: set<nat>, v: nat)
    requires g in q.groups && LoopOk(q, g, open, alive, v) && w != v
    requires CountsOk(q.groups[g], q.delayed, open, [w] + rest)
    ensures var q1 := ResolveOne(q, g, w, alive);
            && OnlyGroup(q, g, q1) && LoopOk(q1, g, open, alive, v)
            && CountsOk(q1.groups[g], q1.delayed, open, rest)
  {
    hide InCount;
    var q1 := ResolveOne(q, g, w, alive);
    var group := q.groups[g];
    assert ([w] + rest)[1..] == rest;
    forall x: nat | x in open ensures Times([w] + rest, x) == (if x == w then 1 else 0) + Times(rest, x) {
    }
    assert q.groups == q.groups[g := group];
    if w < |group.members| && w in alive {
      forall x: nat | x in open && x != w ensures group.members[x] != group.members[w] {
        assert group.members[x].vertex == x;
      }
    }
  }

  lemma {:induction false} ResolveOk(q: Queue, g: GroupId, rest: seq<nat>, alive: set<nat>, open: set<nat>, v: nat)
    requires g in q.groups && LoopOk(q, g, open, alive, v) && v !in rest
    requires CountsOk(q.groups[g], q.delayed, open, rest)
    ensures var q1 := Resolve(q, g, rest, alive);
            && OnlyGroup(q, g, q1) && LoopOk(q1, g, open, alive, v)
            && CountsOk(q1.groups[g], q1.delayed, open, [])
    decreases |rest|
  {
    hide ResolveOne, LoopOk, CountsOk;
    if rest == [] {
      assert q.groups == q.groups[g := q.groups[g]];
    } else {
      assert rest == [rest[0]] + rest[1..];
      var q1 := ResolveOne(q, g, rest[0], alive);
      ResolveOneOk(q, g, rest[0], rest[1..], alive, open, v);
      ResolveOk(q1, g, rest[1..], alive, open, v);
      OnlyGroupTransitive(q, g, q1, Resolve(q1, g, rest[1..], alive));
    }
  }

  /** The life of the queue after job `x` has been released and the queue has become `q1`. */
  function Finished(l: Life, x: JobId, q1: Queue): Life {
    l.(q := q1, popped := l.popped - {x}, released := l.released + {x})
  }

  /** `q1` no longer knows `job`; otherwise only members of its group left the delayed set. */
  ghost predicate Forgets(q: Queue, job: QJob, q1: Queue) {
    && q1.index == q.index - {job.id}
    && q1.ready + q1.delayed == q.ready + q.delayed - {job} && q1.ready !! q1.delayed
    && q1.delayed <= q.delayed && q1.groups.Keys == q.groups.Keys
    && (forall j | j in q.delayed - q1.delayed :: j == job || j.groupId == job.groupId)
    && (forall g | g in q.groups && g != job.groupId :: q1.groups[g] == q.groups[g])
  }

  lemma ForgottenPlaces(l: Life, job: QJob, q1: Queue)
    requires Inv(l) && job.id in l.jobs && l.jobs[job.id] == job && job.id !in l.released && Forgets(l.q, job, q1)
    ensures IndexOk(q1) && PlacesOk(Finished(l, job.id, q1))
  {
    hide GroupOk, MembersOk;
    forall y | y in q1.ready + q1.delayed ensures y.id in q1.index && q1.index[y.id] == y {
      assert y in l.q.ready + l.q.delayed;
    }
  }

  lemma OtherGroup(l: Life, job: QJob, q1: Queue, g: GroupId)
    requires Inv(l) && job.id in l.jobs && l.jobs[job.id] == job && Forgets(l.q, job, q1)
    requires g in l.q.groups && g != job.groupId
    ensures g in q1.groups && GroupOk(Finished(l, job.id, q1), g)
  {
    hide Inv, InCount, Within, Cyclic, CountsOk;
    GroupAt(l, g);
    var group := l.q.groups[g];
    forall v: nat | v < |group.members|
      ensures group.members[v].id != job.id
      ensures group.members[v] in q1.delayed <==> group.members[v] in l.q.delayed
    {
      assert group.members[v].groupId == g;
    }
    var open := Open(group.members, l.released);
    assert Open(group.members, l.released + {job.id}) == open;
    SameDelayed(group, l.q.delayed, q1.delayed, open);
  }

  lemma SameDelayed(group: Group, delayed: set<QJob>, delayed1: set<QJob>, open: set<nat>)
    requires CountsOk(group, delayed, open, [])
    requires forall v: nat | v < |group.members| :: group.members[v] in delayed1 <==> group.members[v] in delayed
    ensures CountsOk(group, delayed1, open, [])
  {
  }

  lemma OpenWithout(members: seq<QJob>, released: set<JobId>, v: nat)
    requires v in Open(members, released)
    requires forall w: nat | w < |members| && w != v :: members[w].id != members[v].id
    ensures Open(members, released + {members[v].id}) == Open(members, released) - {v}
  {
  }

  /** The counters of the job's own group after its release. */
  ghost predicate Counted(group: Group, group1: Group, delayed1: set<QJob>, open: set<nat>, v: nat) {
    && group1 == group.(depends := group1.depends, completed := group.completed + 1)
    && CountsOk(group1, delayed1, open - {v}, [])
  }

  lemma OwnGroup(l: Life, job: QJob, q1: Queue)
    requires Inv(l) && job.id in l.jobs && l.jobs[job.id] == job && job.id !in l.released && Forgets(l.q, job, q1)
    requires var g := job.groupId;
             g in l.q.groups && Counted(l.q.groups[g], q1.groups[g], q1.delayed,
                                        Open(l.q.groups[g].members, l.released), job.vertex)
    ensures GroupOk(Finished(l, job.id, q1), job.groupId)
  {
    GroupAt(l, job.groupId);
    var group := l.q.groups[job.groupId];
    assert IsMember(group, job);
    hide Inv, InCount, Within, Cyclic;
    var open := Open(group.members, l.released);
    forall w: nat | w < |group.members| && w != job.vertex ensures group.members[w].id != job.id {
      assert group.members[w].vertex == w;
    }
    OpenWithout(group.members, l.released, job.vertex);
    assert |open - {job.vertex}| == |open| - 1;
  }

  lemma FinishedOk(l: Life, job: QJob, q1: Queue)
    requires Inv(l) && job.id in l.jobs && l.jobs[job.id] == job && job.id !in l.released && Forgets(l.q, job, q1)
    requires var g := job.groupId;
             g in l.q.groups ==> Counted(l.q.groups[g], q1.groups[g], q1.delayed,
                                         Open(l.q.groups[g].members, l.released), job.vertex)
    ensures Inv(Finished(l, job.id, q1))
  {
    hide GroupOk, IndexOk, PlacesOk, MembersOk, Counted, Open;
    ForgottenPlaces(l, job, q1);
    ForgottenMembers(l, job, q1);
    var l1 := Finished(l, job.id, q1);
    forall g | g in q1.groups ensures GroupOk(l1, g) {
      if g == job.groupId {
        OwnGroup(l, job, q1);
      } else {
        OtherGroup(l, job, q1, g);
      }
    }
  }

  lemma ForgottenMembers(l: Life, job: QJob, q1: Queue)
    requires MembersOk(l) && Forgets(l.q, job, q1)
    requires var g := job.groupId;
             g in l.q.groups ==> Counted(l.q.groups[g], q1.groups[g], q1.delayed,
                                         Open(l.q.groups[g].members, l.released), job.vertex)
    ensures MembersOk(Finished(l, job.id, q1))
  {
    hide CountsOk, Open;
    forall g | g in l.q.groups ensures q1.groups[g].members == l.q.groups[g].members {
    }
  }

  /** The jobs that are not released are held by the queue or by the scheduler, so they exist. */
  ghost predicate Alive(l: Life, x: JobId, alive: set<nat>) {
    x in l.jobs && l.jobs[x].groupId in l.q.groups ==>
      Open(l.q.groups[l.jobs[x].groupId].members, l.released + {x}) <= alive
  }

  /** Apart from group `g` itself, only members of `g` change their place, from delayed to ready. */
  ghost predicate Moves(q: Queue, g: GroupId, q1: Queue) {
    && q1.index == q.index && q1.groups.Keys == q.groups.Keys
    && q1.delayed <= q.delayed && q1.ready == q.ready + (q.delayed - q1.delayed)
    && (forall j | j in q.delayed - q1.delayed :: j.groupId == g)
    && (forall h | h in q.groups && h != g :: q1.groups[h] == q.groups[h])
  }

  lemma ReleaseLoop(l: Life, job: QJob, q: Queue, alive: set<nat>)
    requires Inv(l) && job.id in l.jobs && l.jobs[job.id] == job && job.id !in l.released && Alive(l, job.id, alive)
    requires q == l.q.(index := q.index) && job.groupId in q.groups
    ensures var g := job.groupId;
            var (q1, last) := Release(q, job, alive);
            && Moves(q, g, q1)
            && Counted(q.groups[g], q1.groups[g], q1.delayed, Open(q.groups[g].members, l.released), job.vertex)
            && last == (q.groups[g].completed + 1 == |q.groups[g].members|)
  {
    hide Inv, InCount, Within, Cyclic, LoopOk, CountsOk, Resolve, Out, Open, Alive;
    var g, v := job.groupId, job.vertex;
    var group := q.groups[g];
    var open := Open(group.members, l.released);
    ReleaseStart(l, job, q, alive);
    ResolveOk(q, g, Out(group.edges, v), alive, open - {v}, v);
    var q1 := Resolve(q, g, Out(group.edges, v), alive);
    var group1 := q1.groups[g].(completed := q1.groups[g].completed + 1);
    SameCounts(q1.groups[g], group1, q1.delayed, open - {v});
  }

  lemma NoSelfLoop(edges: seq<Edge>, v: nat)
    requires !Cyclic(edges)
    ensures v !in Out(edges, v)
  {
    assert Edge(v, v) in edges ==> IsCycle(edges, [v, v]);
  }

  lemma SameCounts(group: Group, group1: Group, delayed: set<QJob>, open: set<nat>)
    requires CountsOk(group, delayed, open, []) && group1 == group.(completed := group1.completed)
    ensures CountsOk(group1, delayed, open, [])
  {
  }

  lemma ReleaseStart(l: Life, job: QJob, q: Queue, alive: set<nat>)
    requires Inv(l) && job.id in l.jobs && l.jobs[job.id] == job && job.id !in l.released && Alive(l, job.id, alive)
    requires q == l.q.(index := q.index) && job.groupId in q.groups
    ensures var g, v := job.groupId, job.vertex;
            var group := q.groups[g];
            var open := Open(group.members, l.released);
            && v in open && LoopOk(q, g, open - {v}, alive, v) && v !in Out(group.edges, v)
            && CountsOk(group, q.delayed, open - {v}, Out(group.edges, v))
  {
    var g, v := job.groupId, job.vertex;
    var group := q.groups[g];
    GroupAt(l, g);
    assert IsMember(group, job);
    var open := Open(group.members, l.released);
    forall w: nat | w < |group.members| && w !in open ensures group.members[w] !in q.delayed {
      assert group.members[w].id in l.released;
    }
    hide Inv, InCount, Within, Out;
    forall w: nat | w < |group.members| && w != v ensures group.members[w].id != job.id {
      assert group.members[w].vertex == w;
    }
    OpenWithout(group.members, l.released, v);
    NoSelfLoop(group.edges, v);
    forall w: nat | w in open - {v}
      ensures group.depends[w] == InCount(group.edges, w, open - {v}) + Times(Out(group.edges, v), w)
    {
      CountWithout(group.edges, w, open, v);
    }
  }
}
