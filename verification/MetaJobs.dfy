/** The job queue and the scheduler together: a job popped from the queue is planned, and a job that
    leaves the scheduler releases its group.  No task of a meta-job member is handed to a worker before
    every job it depends on has left the queue and the scheduler
    (src/master/scheduler.cpp:152-179, src/master/scheduled_jobs.h:164-184, 217-257, src/master/job.cpp:36-63,
    197-229, 334-346). */
module MetaJobs {
  import opened Ordering
  import WorkerJobs
  import opened SchedulerState
  import BatchSelection
  import SchedulerSteps
  import Safety
  import SchedulerRuns
  import JobRuns
  import opened JobGraph
  import opened JobQueues
  import JobLives

  // ---- accepted graphs become groups ----

  /** What `PrepareJobGraph` accepts may be pushed: with fresh numbers, its edges and counters make a new
      group, in which a job waits for another exactly if it stands right behind it in a chain. */
  lemma AcceptedIsNewGroup(l: Life, g: GroupId, chains: seq<seq<nat>>, members: seq<QJob>, depends: seq<nat>)
    requires (forall c, v | c in chains && v in c :: v < |members|) && Accepted(chains)
    requires |depends| == |members| >= 1
    requires forall v | 0 <= v < |members| :: depends[v] == |Entries(chains, v)|
    requires forall v: nat | v < |members| ::
               members[v].groupId == g && members[v].vertex == v && members[v].id !in l.jobs
    requires forall v: nat, w: nat | v < w < |members| :: members[v].id != members[w].id
    ensures var group := Group(members, AllEdges(chains), depends, 0);
            && JobLives.NewGroup(l, g, group)
            && forall v: nat, w: nat :: Edge(v, w) in group.edges <==> Follows(chains, v, w)
  {
    hide AllEdges, InCount, Follows, Entries, Loops, Cyclic;
    ChainsWithin(chains, |members|);
    LoopsAreCycles(chains);
    forall v: nat, w: nat ensures Edge(v, w) in AllEdges(chains) <==> Follows(chains, v, w) {
      EdgeFollows(chains, Edge(v, w));
    }
    forall v | 0 <= v < |members| ensures depends[v] == InCount(AllEdges(chains), v, Below(|members|)) {
      EntriesCounted(chains, v, Below(|members|));
    }
  }

  // ---- the two components together ----

  datatype Master = Master(l: Life, r: SchedulerRuns.Trace)

  const Boot: Master := Master(JobLives.Born, SchedulerRuns.Boot)

  datatype Move =
    | Push(job: QJob)
    | PushGroup(g: GroupId, group: Group)
      /** `PlanJobExecution`: the popped job is scheduled. */
    | Plan(job: QJob, task: Job, totalCPU: int, totalWorkers: int)
      /** Any other step of the scheduler; `done` lists the jobs that it removes, in the order in which
          they release their groups. */
    | Act(e: SchedulerSteps.Event, done: seq<JobId>, alive: map<JobId, set<nat>>)
    | Delete(x: JobId, vertices: set<nat>)

  function AliveFor(alive: map<JobId, set<nat>>, x: JobId): set<nat> {
    if x in alive then alive[x] else {}
  }

  function Released(l: Life, done: seq<JobId>, alive: map<JobId, set<nat>>): Life {
    if done == [] then l else
      var x := done[|done| - 1];
      JobLives.Next(Released(l, done[..|done| - 1], alive), JobLives.Completed(x, AliveFor(alive, x)))
  }

  /** While the jobs are released one after the other, unreleased jobs exist. */
  ghost predicate KeptAlive(l: Life, done: seq<JobId>, alive: map<JobId, set<nat>>) {
    done == [] ||
    var p, x := done[..|done| - 1], done[|done| - 1];
    KeptAlive(l, p, alive) && Alive(Released(l, p, alive), x, AliveFor(alive, x))
  }

  function Removed(r: SchedulerRuns.Trace, e: SchedulerSteps.Event): set<JobId> {
    r.s.jobs.Keys - SchedulerRuns.Advance(r, e).s.jobs.Keys
  }

  ghost predicate Enabled(m: Master, v: Move) {
    match v
    case Push(job) => JobLives.Enabled(m.l, JobLives.Pushed(job))
    case PushGroup(g, group) => JobLives.Enabled(m.l, JobLives.GroupPushed(g, group))
    case Plan(job, task, _, _) => JobLives.Enabled(m.l, JobLives.Popped(job)) && task.id == job.id
    case Act(e, done, alive) =>
      && !e.JobPlanned? && SchedulerRuns.Possible(m.r, e)
      && NoDuplicates(done) && SetOf(done) == Removed(m.r, e) && KeptAlive(m.l, done, alive)
    case Delete(x, alive) => JobLives.Enabled(m.l, JobLives.Deleted(x, alive))
  }

  function Next(m: Master, v: Move): Master {
    match v
    case Push(job) => m.(l := JobLives.Next(m.l, JobLives.Pushed(job)))
    case PushGroup(g, group) => m.(l := JobLives.Next(m.l, JobLives.GroupPushed(g, group)))
    case Plan(job, task, cpus, workers) =>
      Master(JobLives.Next(m.l, JobLives.Popped(job)),
             SchedulerRuns.Advance(m.r, SchedulerSteps.JobPlanned(task, cpus, workers)))
    case Act(e, done, alive) => Master(Released(m.l, done, alive), SchedulerRuns.Advance(m.r, e))
    case Delete(x, alive) => m.(l := JobLives.Next(m.l, JobLives.Deleted(x, alive)))
  }

  /** The popped and unreleased jobs are exactly the scheduled ones. */
  ghost predicate Linked(m: Master) {
    && Inv(m.l) && Safety.Base(m.r.s, m.r.known, {})
    && m.l.popped == m.r.s.jobs.Keys && m.r.known.Keys <= m.l.popped + m.l.released
  }

  // ---- every move keeps the link ----

  lemma PushLinked(m: Master, e: JobLives.Event)
    requires Linked(m) && JobLives.Enabled(m.l, e) && (e.Pushed? || e.GroupPushed?)
    ensures Linked(m.(l := JobLives.Next(m.l, e)))
  {
    hide Inv, Safety.Base, PushMembers, JobLives.Table;
    JobLives.NextKeeps(m.l, e);
  }

  lemma PlanLinked(m: Master, job: QJob, task: Job, cpus: int, workers: int)
    requires Linked(m) && Enabled(m, Plan(job, task, cpus, workers))
    ensures Linked(Next(m, Plan(job, task, cpus, workers)))
    ensures task.id !in m.r.known
  {
    hide Inv, Safety.Base;
    ReadyUnpopped(m.l, job);
    var e := SchedulerSteps.JobPlanned(task, cpus, workers);
    assert SchedulerRuns.Possible(m.r, e);
    JobLives.NextKeeps(m.l, JobLives.Popped(job));
    SchedulerRuns.AdvanceKeeps(m.r, e);
    PlanJobs(m.r, task, cpus, workers);
  }

  lemma ReadyUnpopped(l: Life, job: QJob)
    requires Inv(l) && job in l.q.ready
    ensures job.id !in l.popped && job.id !in l.released
  {
    hide GroupOk, MembersOk;
  }

  lemma PlanJobs(r: SchedulerRuns.Trace, task: Job, cpus: int, workers: int)
    ensures var r1 := SchedulerRuns.Advance(r, SchedulerSteps.JobPlanned(task, cpus, workers));
            r1.s.jobs.Keys == r.s.jobs.Keys + {task.id} && r1.known.Keys == r.known.Keys + {task.id}
  {
    hide Inserted, Below;
  }

  lemma DeleteLinked(m: Master, x: JobId, alive: set<nat>)
    requires Linked(m) && JobLives.Enabled(m.l, JobLives.Deleted(x, alive))
    ensures Linked(m.(l := JobLives.Next(m.l, JobLives.Deleted(x, alive))))
  {
    hide Inv, Safety.Base, JobQueues.Delete, Alive;
    JobLives.NextKeeps(m.l, JobLives.Deleted(x, alive));
    if x in m.l.q.index {
      QueuedUnpopped(m.l, x);
    }
  }

  lemma QueuedUnpopped(l: Life, x: JobId)
    requires Inv(l) && x in l.q.index
    ensures x !in l.popped
  {
    hide GroupOk, MembersOk, IndexOk;
  }

  lemma LastOff(done: seq<JobId>)
    requires done != [] && NoDuplicates(done)
    ensures var p, x := done[..|done| - 1], done[|done| - 1];
            NoDuplicates(p) && SetOf(done) == SetOf(p) + {x} && x !in SetOf(p)
  {
    assert done == done[..|done| - 1] + [done[|done| - 1]];
  }

  lemma NothingIn()
    ensures SetOf<JobId>([]) == {}
  {
  }

  lemma {:induction false} ReleasedFacts(l: Life, done: seq<JobId>, alive: map<JobId, set<nat>>)
    requires Inv(l) && NoDuplicates(done) && SetOf(done) <= l.popped && KeptAlive(l, done, alive)
    ensures var l1 := Released(l, done, alive);
            Inv(l1) && l1.popped == l.popped - SetOf(done) && l1.released == l.released + SetOf(done)
    decreases |done|
  {
    hide Inv, Alive, Release, JobLives.Next, SetOf, NoDuplicates;
    if done == [] {
      assert SetOf(done) == {} by {
        NothingIn();
      }
    } else {
      var p, x := done[..|done| - 1], done[|done| - 1];
      LastOff(done);
      ReleasedFacts(l, p, alive);
      var l0 := Released(l, p, alive);
      CompletionFacts(l0, x, AliveFor(alive, x));
    }
  }

  lemma CompletionFacts(l: Life, x: JobId, alive: set<nat>)
    requires Inv(l) && x in l.popped && Alive(l, x, alive)
    ensures var l1 := JobLives.Next(l, JobLives.Completed(x, alive));
            Inv(l1) && l1.popped == l.popped - {x} && l1.released == l.released + {x}
  {
    hide Inv, Alive, Release;
    JobLives.CompletedOk(l, x, alive);
  }

  /** Steps of the scheduler other than planning add no job. */
  lemma OnlyRemoves(r: SchedulerRuns.Trace, e: SchedulerSteps.Event)
    requires Safety.Base(r.s, r.known, {}) && SchedulerRuns.Possible(r, e) && !e.JobPlanned?
    ensures SchedulerRuns.Advance(r, e).s.jobs.Keys <= r.s.jobs.Keys
    ensures SchedulerRuns.Advance(r, e).known == r.known
  {
    hide Safety.Base, SchedulerSteps.Next, BatchSelection.Request;
    forall j | j in SchedulerRuns.Advance(r, e).s.jobs ensures j in r.s.jobs {
      if j in r.known {
        if j !in r.s.jobs {
          JobRuns.GoneStaysGone(r, e, j);
        }
      } else {
        JobRuns.OnlyPlanningAdds(r, e, j);
      }
    }
  }

  lemma ActLinked(m: Master, e: SchedulerSteps.Event, done: seq<JobId>, alive: map<JobId, set<nat>>)
    requires Linked(m) && Enabled(m, Act(e, done, alive))
    ensures Linked(Next(m, Act(e, done, alive)))
  {
    hide Inv, Safety.Base, SchedulerRuns.Advance, SchedulerRuns.Possible, KeptAlive, Released;
    OnlyRemoves(m.r, e);
    SchedulerRuns.AdvanceKeeps(m.r, e);
    ReleasedFacts(m.l, done, alive);
  }

  lemma MoveLinked(m: Master, v: Move)
    requires Linked(m) && Enabled(m, v)
    ensures Linked(Next(m, v))
  {
    hide Linked, JobLives.Next, SchedulerRuns.Advance, JobLives.Enabled, Released;
    match v
    case Push(job) => PushLinked(m, JobLives.Pushed(job));
    case PushGroup(g, group) => PushLinked(m, JobLives.GroupPushed(g, group));
    case Plan(job, task, cpus, workers) => PlanLinked(m, job, task, cpus, workers);
    case Act(e, done, alive) => ActLinked(m, e, done, alive);
    case Delete(x, alive) => DeleteLinked(m, x, alive);
  }

  // ---- runs ----

  function After(vs: seq<Move>): Master {
    if vs == [] then Boot else Next(After(vs[..|vs| - 1]), vs[|vs| - 1])
  }

  ghost predicate PossibleRun(vs: seq<Move>) {
    vs == [] || (PossibleRun(vs[..|vs| - 1]) && Enabled(After(vs[..|vs| - 1]), vs[|vs| - 1]))
  }

  lemma {:induction false} RunLinked(vs: seq<Move>)
    requires PossibleRun(vs)
    ensures Linked(After(vs))
    decreases |vs|
  {
    hide Enabled, Next;
    if vs == [] {
      BootLinked();
    } else {
      hide Linked;
      RunLinked(vs[..|vs| - 1]);
      MoveLinked(After(vs[..|vs| - 1]), vs[|vs| - 1]);
    }
  }

  lemma BootLinked()
    ensures Linked(Boot)
  {
    SchedulerRuns.BootIsSafe();
    hide Safety.Base;
  }

  /** Every job that `job` depends on directly has left the queue and the scheduler. */
  ghost predicate PredecessorsLeft(m: Master, job: QJob)
    requires job.groupId in m.l.q.groups
  {
    var group := m.l.q.groups[job.groupId];
    forall e | e in group.edges && e.head == job.vertex && e.tail < |group.members| ::
      var x := group.members[e.tail].id;
      x in m.l.released && x !in m.l.q.index && x !in m.r.s.jobs
  }

  lemma ScheduledInOrder(m: Master, x: JobId)
    requires Linked(m) && x in m.r.s.jobs && x in m.l.jobs && m.l.jobs[x].groupId in m.l.q.groups
    ensures PredecessorsLeft(m, m.l.jobs[x])
  {
    hide Safety.Base;
    var job := m.l.jobs[x];
    JobLives.PoppedPlace(m.l, x);
    DependencyOrder(m.l, x);
    var group := m.l.q.groups[job.groupId];
    forall e | e in group.edges && e.head == job.vertex && e.tail < |group.members|
      ensures group.members[e.tail].id in m.l.released
    {
      assert e.tail !in Open(group.members, m.l.released);
    }
    ReleasedElsewhere(m.l);
    hide Inv;
  }

  lemma ReleasedElsewhere(l: Life)
    requires Inv(l)
    ensures l.released !! l.popped && l.released !! l.q.index.Keys
  {
    hide GroupOk, MembersOk, IndexOk;
  }

  lemma PoppedIsKnown(l: Life)
    requires Inv(l)
    ensures l.popped <= l.jobs.Keys
  {
    hide GroupOk, MembersOk, IndexOk;
  }

  /** In every run, a batch is only ever of a job all of whose predecessors in its meta-job have left the
      queue and the scheduler, completed or deleted. */
  lemma BatchesInOrder(vs: seq<Move>, order: seq<WorkerJobs.IP>)
    requires PossibleRun(vs)
    ensures var m := After(vs);
            var g := BatchSelection.Request(m.r.s, order).0;
            g.Batch? ==>
              forall x | x in g.tasks.jobs ::
                x in m.l.jobs && (m.l.jobs[x].groupId in m.l.q.groups ==> PredecessorsLeft(m, m.l.jobs[x]))
  {
    hide After, Inv, Safety.Base, BatchSelection.Request, PredecessorsLeft;
    RunLinked(vs);
    var m := After(vs);
    JobRuns.RequestFacts(m.r.s, order);
    PoppedIsKnown(m.l);
    var g := BatchSelection.Request(m.r.s, order).0;
    if g.Batch? {
      forall x | x in g.tasks.jobs
        ensures x in m.l.jobs && (m.l.jobs[x].groupId in m.l.q.groups ==> PredecessorsLeft(m, m.l.jobs[x]))
      {
        if m.l.jobs[x].groupId in m.l.q.groups {
          ScheduledInOrder(m, x);
        }
      }
    }
  }
}
