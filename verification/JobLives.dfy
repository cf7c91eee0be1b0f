/** Every run of the queue: pushes, pops, deletions and completions in any order keep the invariant
    of `JobQueues`, so dependency order, freedom from deadlock and the single report of a group's
    last job hold throughout (src/master/job.cpp:36-63, 142-362, src/master/job_manager.cpp:207-250). */
module JobLives {
  import opened Ordering
  import opened JobGraph
  import opened JobQueues

  datatype Event =
    | Pushed(job: QJob)
    | GroupPushed(g: GroupId, group: Group)
    | Popped(job: QJob)
      /** The scheduler has removed a job that was popped before. */
    | Completed(id: JobId, alive: set<nat>)
    | Deleted(id: JobId, alive: set<nat>)

  function Table(members: seq<QJob>): (r: map<JobId, QJob>)
    ensures forall x | x in r :: r[x] in members && r[x].id == x
    ensures forall m | m in members :: m.id in r
  {
    if members == [] then map[] else
      var p, m := members[..|members| - 1], members[|members| - 1];
      assert members == p + [m];
      Table(p)[m.id := m]
  }

  /** A group as `PushJobs` receives it from `PrepareJobGraph`: new, acyclic, counters at the
      in-degrees. */
  ghost predicate NewGroup(l: Life, g: GroupId, group: Group) {
    && |group.members| >= 1 && |group.depends| == |group.members| && group.completed == 0
    && Within(group.edges, |group.members|) && !Cyclic(group.edges)
    && (forall v: nat | v < |group.members| ::
          && group.members[v].groupId == g && group.members[v].vertex == v
          && group.members[v].id !in l.jobs
          && group.depends[v] == InCount(group.edges, v, Below(|group.members|)))
    && (forall v: nat, w: nat | v < w < |group.members| :: group.members[v].id != group.members[w].id)
  }

  ghost predicate FreshGroup(l: Life, g: GroupId) {
    g !in l.q.groups && forall x | x in l.jobs :: l.jobs[x].groupId != g
  }

  ghost predicate Enabled(l: Life, e: Event) {
    match e
    case Pushed(job) => job.id !in l.jobs && FreshGroup(l, job.groupId)
    case GroupPushed(g, group) => FreshGroup(l, g) && NewGroup(l, g, group)
    case Popped(job) => Foremost(l.q.ready, job)
    case Completed(x, alive) => x in l.popped && Alive(l, x, alive)
    case Deleted(x, alive) => Alive(l, x, alive)
  }

  function Next(l: Life, e: Event): Life {
    match e
    case Pushed(job) => l.(q := Push(l.q, job), jobs := l.jobs[job.id := job])
    case GroupPushed(g, group) =>
      if |group.members| != |group.depends| then l else
        l.(q := PushGroup(l.q, g, group),
           jobs := l.jobs + Table(group.members))
    case Popped(job) => l.(q := Pop(l.q, job), popped := l.popped + {job.id})
    case Completed(x, alive) => if x in l.jobs then Finished(l, x, Release(l.q, l.jobs[x], alive).0) else l
    case Deleted(x, alive) => if x in l.q.index then Finished(l, x, Delete(l.q, x, alive).0) else l
  }

  /** The step reports "last job in group" for group `g`. */
  predicate ReportsLast(l: Life, e: Event, g: GroupId) {
    match e
    case Completed(x, alive) => x in l.jobs && l.jobs[x].groupId == g && Release(l.q, l.jobs[x], alive).1
    case Deleted(x, alive) => x in l.q.index && l.q.index[x].groupId == g && Delete(l.q, x, alive).1
    case _ => false
  }

  // ---- completions and deletions ----

  lemma CompletedForgets(l: Life, job: QJob, q1: Queue)
    requires job !in l.q.ready + l.q.delayed && l.q.ready !! l.q.delayed && l.q.index - {job.id} == l.q.index
    requires Moves(l.q, job.groupId, q1)
    ensures Forgets(l.q, job, q1)
  {
  }

  lemma CompletedOk(l: Life, x: JobId, alive: set<nat>)
    requires Inv(l) && x in l.popped && Alive(l, x, alive)
    ensures x in l.jobs && Inv(Finished(l, x, Release(l.q, l.jobs[x], alive).0))
  {
    hide Inv, Release, Alive, Counted, Moves, Forgets, Open;
    PoppedPlace(l, x);
    var job := l.jobs[x];
    var q1 := Release(l.q, job, alive).0;
    if job.groupId in l.q.groups {
      ReleaseLoop(l, job, l.q, alive);
    } else {
      UngroupedRelease(l.q, job, alive);
    }
    CompletedForgets(l, job, q1);
    FinishedOk(l, job, q1);
  }

  lemma PoppedPlace(l: Life, x: JobId)
    requires Inv(l) && x in l.popped
    ensures x in l.jobs && x !in l.released && x !in l.q.index && l.jobs[x].id == x
    ensures l.jobs[x] !in l.q.ready + l.q.delayed && l.q.ready !! l.q.delayed
    ensures l.q.index - {x} == l.q.index
  {
    hide GroupOk, MembersOk;
  }

  lemma UngroupedRelease(q: Queue, job: QJob, alive: set<nat>)
    requires job.groupId !in q.groups
    ensures Release(q, job, alive) == (q, false) && Moves(q, job.groupId, q)
  {
  }

  lemma QueuedPlace(l: Life, x: JobId)
    requires Inv(l) && x in l.q.index
    ensures x in l.jobs && x !in l.released && l.jobs[x] == l.q.index[x] && l.jobs[x].id == x
    ensures l.jobs[x] in l.q.ready + l.q.delayed && l.q.ready !! l.q.delayed
  {
    hide GroupOk, MembersOk;
  }

  lemma DeletedForgets(l: Life, job: QJob, q1: Queue)
    requires job in l.q.ready + l.q.delayed && l.q.ready !! l.q.delayed
    requires Moves(l.q.(index := l.q.index - {job.id}), job.groupId, q1)
    ensures Forgets(l.q, job, Dropped(q1, job))
  {
  }

  lemma DeletedOk(l: Life, x: JobId, alive: set<nat>)
    requires Inv(l) && x in l.q.index && Alive(l, x, alive)
    ensures Inv(Finished(l, x, Delete(l.q, x, alive).0))
  {
    hide Inv, Release, Alive, Counted, Moves, Forgets, Open;
    QueuedPlace(l, x);
    var job := l.jobs[x];
    var q := l.q.(index := l.q.index - {x});
    var q1 := Release(q, job, alive).0;
    if job.groupId in l.q.groups {
      ReleaseLoop(l, job, q, alive);
      MovesKeys(q, job.groupId, q1);
      DroppedCounts(l, job, q1);
    } else {
      UngroupedRelease(q, job, alive);
    }
    DeletedForgets(l, job, q1);
    FinishedOk(l, job, Delete(l.q, x, alive).0);
  }

  lemma MovesKeys(q: Queue, g: GroupId, q1: Queue)
    requires Moves(q, g, q1)
    ensures q1.groups.Keys == q.groups.Keys
  {
  }

  lemma DroppedCounts(l: Life, job: QJob, q1: Queue)
    requires Inv(l) && job.id in l.jobs && l.jobs[job.id] == job && job.groupId in l.q.groups && job.groupId in q1.groups
    requires Counted(l.q.groups[job.groupId], q1.groups[job.groupId], q1.delayed,
                     Open(l.q.groups[job.groupId].members, l.released), job.vertex)
    ensures Counted(l.q.groups[job.groupId], q1.groups[job.groupId], Dropped(q1, job).delayed,
                    Open(l.q.groups[job.groupId].members, l.released), job.vertex)
  {
    GroupAt(l, job.groupId);
    assert IsMember(l.q.groups[job.groupId], job);
    hide Inv, InCount, Within, Cyclic;
    var group := l.q.groups[job.groupId];
    forall v: nat | v < |group.members| && v != job.vertex ensures group.members[v] != job {
      assert group.members[v].vertex == v;
    }
  }

  // ---- pushes and pops ----

  lemma KeptGroup(l: Life, l1: Life, g: GroupId)
    requires g in l.q.groups && GroupOk(l, g) && l1.released == l.released && g in l1.q.groups
    requires l1.q.groups[g] == l.q.groups[g]
    requires forall x | x in l.jobs :: x in l1.jobs && l1.jobs[x] == l.jobs[x]
    requires forall job: QJob | job.groupId == g :: job in l1.q.delayed <==> job in l.q.delayed
    ensures GroupOk(l1, g)
  {
    hide InCount, Within, Cyclic;
    var group := l.q.groups[g];
    forall v: nat | v < |group.members| ensures group.members[v] in l1.q.delayed <==> group.members[v] in l.q.delayed {
      assert group.members[v].groupId == g;
    }
    SameDelayed(group, l.q.delayed, l1.q.delayed, Open(group.members, l.released));
  }

  lemma KeptGroups(l: Life, l1: Life)
    requires Inv(l) && l1.released == l.released
    requires forall g | g in l.q.groups :: g in l1.q.groups && l1.q.groups[g] == l.q.groups[g]
    requires forall x | x in l.jobs :: x in l1.jobs && l1.jobs[x] == l.jobs[x]
    requires forall job: QJob | job.groupId in l.q.groups :: job in l1.q.delayed <==> job in l.q.delayed
    ensures forall g | g in l.q.groups :: GroupOk(l1, g)
  {
    hide GroupOk, IndexOk, PlacesOk, MembersOk;
    forall g | g in l.q.groups ensures GroupOk(l1, g) {
      KeptGroup(l, l1, g);
    }
  }

  lemma PushedPlace(l: Life, job: QJob)
    requires IndexOk(l.q) && PlacesOk(l) && job.id !in l.jobs
    ensures IndexOk(Push(l.q, job)) && PlacesOk(Next(l, Pushed(job)))
  {
  }

  lemma PushedOk(l: Life, job: QJob)
    requires Inv(l) && Enabled(l, Pushed(job))
    ensures Inv(Next(l, Pushed(job)))
  {
    hide GroupOk, IndexOk, PlacesOk;
    PushedPlace(l, job);
    KeptGroups(l, Next(l, Pushed(job)));
  }

  lemma PoppedOk(l: Life, job: QJob)
    requires Inv(l) && Enabled(l, Popped(job))
    ensures Inv(Next(l, Popped(job)))
  {
    hide GroupOk;
    KeptGroups(l, Next(l, Popped(job)));
  }

  /** `q1` is `q` with the members `ms` of a group, each in the place its counter asks for. */
  ghost predicate WithMembers(q: Queue, depends: seq<int>, ms: seq<QJob>, q1: Queue) {
    && q1.groups == q.groups && q1.index == q.index + Table(ms)
    && (forall job :: job in q1.ready <==> job in q.ready || (job in ms && Counter(depends, job) == 0))
    && (forall job :: job in q1.delayed <==> job in q.delayed || (job in ms && Counter(depends, job) != 0))
  }

  function Counter(depends: seq<int>, job: QJob): int {
    if job.vertex < |depends| then depends[job.vertex] else 0
  }

  lemma {:induction false} PushedMembers(q: Queue, group: Group, k: nat)
    requires k <= |group.members| == |group.depends|
    requires forall v: nat | v < |group.members| :: group.members[v].vertex == v
    ensures WithMembers(q, group.depends, group.members[..k], PushMembers(q, group, k))
  {
    hide WithMembers, PushMember;
    if k == 0 {
      NoMembers(q, group.depends);
      assert group.members[..0] == [];
    } else {
      PushedMembers(q, group, k - 1);
      var q0, job, ms := PushMembers(q, group, k - 1), group.members[k - 1], group.members[..k - 1];
      assert group.members[..k] == ms + [job];
      PushedMember(q, group.depends, ms, q0, job);
    }
  }

  lemma NoMembers(q: Queue, depends: seq<int>)
    ensures WithMembers(q, depends, [], q)
  {
    assert q.index + Table([]) == q.index;
  }

  lemma PushedMember(q: Queue, depends: seq<int>, ms: seq<QJob>, q0: Queue, job: QJob)
    requires WithMembers(q, depends, ms, q0) && job.vertex < |depends|
    ensures WithMembers(q, depends, ms + [job], PushMember(q0, job, depends[job.vertex]))
  {
    hide Table;
    TableAppended(ms, job);
    AddedLast(q.index, Table(ms), job);
    var q1 := PushMember(q0, job, depends[job.vertex]);
    forall x ensures x in ms + [job] <==> x in ms || x == job {
    }
    forall x ensures x in q1.ready <==> x in q0.ready || (x == job && Counter(depends, x) == 0) {
    }
    forall x ensures x in q1.delayed <==> x in q0.delayed || (x == job && Counter(depends, x) != 0) {
    }
  }

  lemma AddedLast(a: map<JobId, QJob>, b: map<JobId, QJob>, job: QJob)
    ensures (a + b)[job.id := job] == a + b[job.id := job]
  {
  }

  lemma TableAppended(ms: seq<QJob>, job: QJob)
    ensures Table(ms + [job]) == Table(ms)[job.id := job]
  {
    assert (ms + [job])[..|ms|] == ms;
  }

  lemma TableAt(group: Group, v: nat)
    requires forall v: nat, w: nat | v < w < |group.members| :: group.members[v].id != group.members[w].id
    requires v < |group.members|
    ensures group.members[v].id in Table(group.members) && Table(group.members)[group.members[v].id] == group.members[v]
  {
    hide Table;
    var m := group.members[v];
    assert m in group.members;
    var x := Table(group.members)[m.id];
    var k: nat :| k < |group.members| && group.members[k] == x;
    assert k == v;
  }

  lemma PushGroupFacts(l: Life, g: GroupId, group: Group)
    requires NewGroup(l, g, group)
    ensures WithMembers(l.q.(groups := l.q.groups[g := group]), group.depends, group.members, PushGroup(l.q, g, group))
  {
    hide Within, Cyclic, InCount, WithMembers;
    PushedMembers(l.q.(groups := l.q.groups[g := group]), group, |group.members|);
    assert group.members[..|group.members|] == group.members;
  }

  /** The members of a new group are unknown to every table. */
  lemma NewMembers(l: Life, g: GroupId, group: Group, job: QJob)
    requires Inv(l) && NewGroup(l, g, group) && job in group.members
    ensures job.id !in l.jobs && job.id !in l.q.index && job.id !in l.released && job !in l.q.ready + l.q.delayed
    ensures job.id in Table(group.members) && Table(group.members)[job.id] == job
    ensures job.groupId == g && IsMember(group, job)
  {
    hide GroupOk, MembersOk, Within, Cyclic, InCount, Table;
    var v :| 0 <= v < |group.members| && group.members[v] == job;
    TableAt(group, v);
  }

  /** Distinct jobs that nothing knows yet. */
  ghost predicate Unknown(l: Life, g: GroupId, ms: seq<QJob>) {
    && (forall job | job in ms :: job.id !in l.jobs && job.id !in l.q.index && job.id !in l.released)
    && (forall job | job in ms :: job !in l.q.ready + l.q.delayed && job.groupId == g)
    && (forall job | job in ms :: job.id in Table(ms) && Table(ms)[job.id] == job)
  }

  lemma AllUnknown(l: Life, g: GroupId, group: Group)
    requires Inv(l) && NewGroup(l, g, group)
    ensures Unknown(l, g, group.members)
  {
    hide Inv, NewGroup, Table;
    forall job | job in group.members
      ensures job.id !in l.jobs && job.id !in l.q.index && job.id !in l.released
      ensures job !in l.q.ready + l.q.delayed && job.groupId == g
      ensures job.id in Table(group.members) && Table(group.members)[job.id] == job
    {
      NewMembers(l, g, group, job);
    }
  }

  lemma PushedIndex(l: Life, g: GroupId, ms: seq<QJob>, depends: seq<int>, q: Queue, q1: Queue)
    requires IndexOk(l.q) && Unknown(l, g, ms) && q == l.q.(groups := q.groups) && WithMembers(q, depends, ms, q1)
    ensures IndexOk(q1)
  {
    hide Table, Counter;
    forall x | x in Table(ms) ensures x !in l.q.index {
      assert Table(ms)[x] in ms;
    }
    forall x | x in q1.index ensures q1.index[x].id == x && q1.index[x] in q1.ready + q1.delayed {
      if x in Table(ms) {
        assert Table(ms)[x] in ms;
      }
    }
    forall job | job in q1.ready + q1.delayed ensures job.id in q1.index && q1.index[job.id] == job {
      if job !in ms {
        assert job.id in l.q.index && l.q.index[job.id] == job;
      }
    }
  }

  lemma PushedPlaces(l: Life, g: GroupId, ms: seq<QJob>, depends: seq<int>, q: Queue, q1: Queue)
    requires PlacesOk(l) && Unknown(l, g, ms) && q == l.q.(groups := q.groups) && WithMembers(q, depends, ms, q1)
    ensures PlacesOk(l.(q := q1, jobs := l.jobs + Table(ms)))
  {
    hide Table, Counter;
    forall x | x in Table(ms) ensures Table(ms)[x] in ms && Table(ms)[x].id == x && x !in l.jobs {
    }
  }

  lemma AllOpen(l: Life, g: GroupId, ms: seq<QJob>)
    requires Unknown(l, g, ms)
    ensures Open(ms, l.released) == Below(|ms|)
  {
    hide Table;
    forall v: nat | v < |ms| ensures ms[v].id !in l.released {
      assert ms[v] in ms;
    }
  }

  lemma MemberDelayed(l: Life, g: GroupId, group: Group, q: Queue, q1: Queue, v: nat)
    requires NewGroup(l, g, group) && Unknown(l, g, group.members) && v < |group.members|
    requires q == l.q.(groups := q.groups) && WithMembers(q, group.depends, group.members, q1)
    ensures group.members[v] in q1.delayed <==> group.depends[v] > 0
  {
    hide Within, Cyclic, InCount, Table;
    assert group.members[v] in group.members;
  }

  lemma PushedCounts(l: Life, g: GroupId, group: Group, q: Queue, q1: Queue)
    requires NewGroup(l, g, group) && Unknown(l, g, group.members)
    requires q == l.q.(groups := q.groups) && WithMembers(q, group.depends, group.members, q1)
    ensures Open(group.members, l.released) == Below(|group.members|)
    ensures CountsOk(group, q1.delayed, Open(group.members, l.released), [])
  {
    hide Within, Cyclic, InCount, Table, WithMembers, Unknown, Open, Below;
    AllOpen(l, g, group.members);
    forall v: nat | v < |group.members| ensures group.members[v] in q1.delayed <==> group.depends[v] > 0 {
      MemberDelayed(l, g, group, q, q1, v);
    }
  }

  lemma PushedOwn(l: Life, g: GroupId, group: Group, q1: Queue)
    requires NewGroup(l, g, group) && Unknown(l, g, group.members)
    requires WithMembers(l.q.(groups := l.q.groups[g := group]), group.depends, group.members, q1)
    ensures g in q1.groups && GroupOk(l.(q := q1, jobs := l.jobs + Table(group.members)), g)
  {
    PushedCounts(l, g, group, l.q.(groups := l.q.groups[g := group]), q1);
    hide Within, Cyclic, InCount, Table, CountsOk, Open;
    forall v: nat | v < |group.members| ensures group.members[v] in group.members {
    }
  }

  lemma GroupPushedOk(l: Life, g: GroupId, group: Group)
    requires Inv(l) && Enabled(l, GroupPushed(g, group))
    ensures Inv(Next(l, GroupPushed(g, group)))
  {
    hide GroupOk, Table, WithMembers, PushGroup, NewGroup, IndexOk, PlacesOk, Unknown;
    var l1 := Next(l, GroupPushed(g, group));
    NewGroupSize(l, g, group);
    PushGroupFacts(l, g, group);
    AllUnknown(l, g, group);
    var q := l.q.(groups := l.q.groups[g := group]);
    PushedIndex(l, g, group.members, group.depends, q, l1.q);
    PushedPlaces(l, g, group.members, group.depends, q, l1.q);
    PushedOwn(l, g, group, l1.q);
    PushedOthers(l, g, group, l1);
    KeptGroups(l, l1);
  }

  lemma NewGroupSize(l: Life, g: GroupId, group: Group)
    requires NewGroup(l, g, group)
    ensures |group.members| == |group.depends|
  {
  }

  lemma PushedOthers(l: Life, g: GroupId, group: Group, l1: Life)
    requires Inv(l) && FreshGroup(l, g) && NewGroup(l, g, group) && l1 == l.(q := l1.q, jobs := l.jobs + Table(group.members))
    requires WithMembers(l.q.(groups := l.q.groups[g := group]), group.depends, group.members, l1.q)
    ensures l1.q.groups == l.q.groups[g := group] && MembersOk(l1)
    ensures forall x | x in l.jobs :: x in l1.jobs && l1.jobs[x] == l.jobs[x]
    ensures forall job: QJob | job.groupId in l.q.groups :: job in l1.q.delayed <==> job in l.q.delayed
  {
    hide GroupOk, IndexOk, PlacesOk, NewGroup, Table, Counter;
    forall job | job in group.members ensures job.id !in l.jobs && job.groupId == g && IsMember(group, job) {
      NewMembers(l, g, group, job);
    }
    forall x | x in Table(group.members) ensures x !in l.jobs {
      assert Table(group.members)[x] in group.members;
    }
  }

  // ---- runs ----

  lemma NextKeeps(l: Life, e: Event)
    requires Inv(l) && Enabled(l, e)
    ensures Inv(Next(l, e))
  {
    hide Inv, Release, Delete, Finished;
    match e
    case Pushed(job) => PushedOk(l, job);
    case GroupPushed(g, group) => GroupPushedOk(l, g, group);
    case Popped(job) => PoppedOk(l, job);
    case Completed(x, alive) => CompletedOk(l, x, alive);
    case Deleted(x, alive) =>
      if x in l.q.index {
        DeletedOk(l, x, alive);
      }
  }

  const Born: Life := Life(NoJobs, map[], {}, {})

  function Lived(es: seq<Event>): Life {
    if es == [] then Born else Next(Lived(es[..|es| - 1]), es[|es| - 1])
  }

  ghost predicate PossibleLife(es: seq<Event>) {
    es == [] || (PossibleLife(es[..|es| - 1]) && Enabled(Lived(es[..|es| - 1]), es[|es| - 1]))
  }

  /** Every run keeps the invariant. */
  lemma {:induction false} LifeKeeps(es: seq<Event>)
    requires PossibleLife(es)
    ensures Inv(Lived(es))
    decreases |es|
  {
    hide Next, Enabled;
    if es != [] {
      LifeKeeps(es[..|es| - 1]);
      NextKeeps(Lived(es[..|es| - 1]), es[|es| - 1]);
    }
  }

  /** No job is popped before every job it depends on has been completed or deleted. */
  lemma PoppedInOrder(es: seq<Event>, job: QJob)
    requires PossibleLife(es) && Enabled(Lived(es), Popped(job)) && job.groupId in Lived(es).q.groups
    ensures !Waiting(Lived(es).q.groups[job.groupId], Lived(es).released, job.vertex)
  {
    var l := Lived(es);
    LifeKeeps(es);
    hide GroupOk, MembersOk, Lived;
    QueuedPlace(l, job.id);
    DependencyOrder(l, job.id);
  }

  /** In every reachable state a group with an unreleased job has one in the heap or popped. */
  lemma NeverDeadlocked(es: seq<Event>, g: GroupId)
    requires PossibleLife(es) && g in Lived(es).q.groups
    requires exists v: nat :: v in Open(Lived(es).q.groups[g].members, Lived(es).released)
    ensures var l := Lived(es);
            exists job :: job in l.q.groups[g].members && job.id !in l.released && (job in l.q.ready || job.id in l.popped)
  {
    LifeKeeps(es);
    NoDeadlock(Lived(es), g);
  }

  // ---- the last job of a group ----

  predicate Complete(l: Life, g: GroupId) {
    g in l.q.groups && l.q.groups[g].completed == |l.q.groups[g].members|
  }

  lemma CompleteMeans(l: Life, g: GroupId)
    requires Inv(l)
    ensures Complete(l, g) <==> g in l.q.groups && forall job | job in l.q.groups[g].members :: job.id in l.released
  {
    if g in l.q.groups {
      GroupAt(l, g);
      var group := l.q.groups[g];
      hide Inv, InCount, Within, Cyclic, CountsOk;
      var open := Open(group.members, l.released);
      if open == {} {
        forall job | job in group.members ensures job.id in l.released {
          var v :| 0 <= v < |group.members| && group.members[v] == job;
          assert v !in open;
        }
      } else {
        var v :| v in open;
        assert group.members[v] in group.members;
      }
    }
  }

  /** An unreleased job of the group is still to be counted. */
  lemma NotComplete(l: Life, x: JobId)
    requires Inv(l) && x in l.jobs && x !in l.released
    ensures !Complete(l, l.jobs[x].groupId)
  {
    var job := l.jobs[x];
    if job.groupId in l.q.groups {
      assert IsMember(l.q.groups[job.groupId], job);
      CompleteMeans(l, job.groupId);
      assert job in l.q.groups[job.groupId].members;
    }
  }

  lemma CompletionReports(l: Life, x: JobId, alive: set<nat>, g: GroupId)
    requires Inv(l) && x in l.popped && Alive(l, x, alive)
    ensures var e := Completed(x, alive);
            && (Complete(l, g) ==> !ReportsLast(l, e, g) && Complete(Next(l, e), g))
            && (!Complete(l, g) ==> (ReportsLast(l, e, g) <==> Complete(Next(l, e), g)))
  {
    hide Inv, Release, Alive, Moves, Open, CountsOk;
    PoppedPlace(l, x);
    NotComplete(l, x);
    var job := l.jobs[x];
    if job.groupId in l.q.groups {
      ReleaseLoop(l, job, l.q, alive);
      MovesOther(l.q, job.groupId, Release(l.q, job, alive).0, g);
    } else {
      UngroupedRelease(l.q, job, alive);
    }
  }

  lemma MovesOther(q: Queue, g: GroupId, q1: Queue, h: GroupId)
    requires Moves(q, g, q1)
    ensures q1.groups.Keys == q.groups.Keys
    ensures h in q.groups && h != g ==> q1.groups[h] == q.groups[h]
  {
  }

  lemma DeletionReports(l: Life, x: JobId, alive: set<nat>, g: GroupId)
    requires Inv(l) && x in l.q.index && Alive(l, x, alive)
    ensures var e := Deleted(x, alive);
            && (Complete(l, g) ==> !ReportsLast(l, e, g) && Complete(Next(l, e), g))
            && (!Complete(l, g) ==> (ReportsLast(l, e, g) <==> Complete(Next(l, e), g)))
  {
    hide Inv, Release, Alive, Moves, Open, CountsOk;
    QueuedPlace(l, x);
    NotComplete(l, x);
    var job := l.jobs[x];
    var q := l.q.(index := l.q.index - {x});
    if job.groupId in l.q.groups {
      ReleaseLoop(l, job, q, alive);
      MovesOther(q, job.groupId, Release(q, job, alive).0, g);
    } else {
      UngroupedRelease(q, job, alive);
    }
  }

  lemma PushReports(l: Life, g: GroupId, group: Group, h: GroupId)
    requires Inv(l) && Enabled(l, GroupPushed(g, group))
    ensures Complete(Next(l, GroupPushed(g, group)), h) <==> Complete(l, h)
  {
    hide PushGroup, WithMembers, Within, Cyclic, InCount, Table, Inv;
    PushGroupFacts(l, g, group);
    WithMembersGroups(l.q.(groups := l.q.groups[g := group]), group.depends, group.members, PushGroup(l.q, g, group));
  }

  lemma WithMembersGroups(q: Queue, depends: seq<int>, ms: seq<QJob>, q1: Queue)
    requires WithMembers(q, depends, ms, q1)
    ensures q1.groups == q.groups
  {
  }

  lemma StepReports(l: Life, e: Event, g: GroupId)
    requires Inv(l) && Enabled(l, e)
    ensures Complete(l, g) ==> !ReportsLast(l, e, g) && Complete(Next(l, e), g)
    ensures !Complete(l, g) ==> (ReportsLast(l, e, g) <==> Complete(Next(l, e), g))
  {
    hide Inv, Release, Delete, Alive, NewGroup, Table, PushGroup;
    match e
    case Pushed(job) =>
    case GroupPushed(h, group) => PushReports(l, h, group, g);
    case Popped(job) =>
    case Completed(x, alive) => CompletionReports(l, x, alive, g);
    case Deleted(x, alive) =>
      if x in l.q.index {
        DeletionReports(l, x, alive, g);
      }
  }

  function Reports(es: seq<Event>, g: GroupId): nat {
    if es == [] then 0 else
      var p := es[..|es| - 1];
      Reports(p, g) + if ReportsLast(Lived(p), es[|es| - 1], g) then 1 else 0
  }

  /** "Last job in group" is reported exactly once, with the release of the last job. */
  lemma {:induction false} ReportedOnce(es: seq<Event>, g: GroupId)
    requires PossibleLife(es)
    ensures Reports(es, g) == if Complete(Lived(es), g) then 1 else 0
    ensures Complete(Lived(es), g) <==>
              g in Lived(es).q.groups && forall job | job in Lived(es).q.groups[g].members :: job.id in Lived(es).released
    decreases |es|
  {
    hide Next, Enabled, Complete, ReportsLast, Inv;
    if es == [] {
      BornIncomplete(g);
    } else {
      var p, e := es[..|es| - 1], es[|es| - 1];
      ReportedOnce(p, g);
      LifeKeeps(p);
      StepReports(Lived(p), e, g);
    }
    LifeKeeps(es);
    CompleteMeans(Lived(es), g);
  }

  lemma BornIncomplete(g: GroupId)
    ensures !Complete(Born, g)
  {
  }
}
