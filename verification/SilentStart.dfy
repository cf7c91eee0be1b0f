/** A run of scheduler and sender after which the sender sleeps although a worker could start a task: the
    job is never rescheduled and at its cluster limit, and the host that runs its task is lost
    (src/master/scheduler.cpp:89-130, 756-766, src/master/job_sender.cpp:34-76). */
module SilentStart {
  import opened Ordering
  import opened WorkerJobs
  import opened SchedulerState
  import opened BatchSelection
  import opened BatchFacts
  import opened BatchTasks
  import opened SchedulerSteps
  import opened Safety
  import opened Conservation
  import opened FailedSends
  import opened CpuAccounting
  import opened SchedulerRuns
  import opened BatchChoice
  import opened RunProperties
  import opened JobRuns
  import opened Credits
  import opened Whereabouts
  import opened Incidents
  import opened LateSend
  import opened Losses
  import Dispatch
  import WakeUp

  /** Two executions, one at a time, never rescheduled. */
  const Solo: Job := PlainJob(0, 2, -1, 1).(maxWorkerInstances := 1, noReschedule := true)

  ghost predicate HostA(n: Node, state: WorkerState, held: set<TaskId>) {
    && n.worker.state == state && n.worker.numCPU == 4 && n.busy == |held|
    && n.worker.job.jobs.Keys <= {0} && !n.worker.job.exclusive && n.worker.job.Tasks(0) == held
  }

  /** Host "a" holds the tasks `held` of the job, host "b" is free, and `pending` are to be sent. */
  ghost predicate Scene(s: State, state: WorkerState, held: set<TaskId>, pending: set<TaskId>) {
    && s.nodes.Keys == {"a", "b"} && HostA(s.nodes["a"], state, held) && s.nodes["b"] == Node(Free, 0)
    && s.jobs == map[0 := Solo.(planned := 2)] && s.failed == map[]
    && PendingIn(s.toSend, 0) == pending && ReschedOf(s.resched, 0) == {}
    && RunningIn(s.running, 0) == |held| && (held != {} ==> 0 in s.running)
  }

  const TwoHosts: State := Initial.(nodes := map["a" := Node(Free, 0), "b" := Node(Free, 0)])

  lemma PlannedSolo()
    ensures Scene(PlanJob(TwoHosts, Solo, 8, 2), Ready, {}, {0, 1})
  {
    hide Inserted;
    assert Below(2) == {0, 1};
    assert Pending(TwoHosts, 0) + Below(2) == {0, 1};
  }

  lemma SceneEligible(s: State, pending: set<TaskId>)
    requires Scene(s, Ready, {}, pending) && pending != {}
    ensures "a" in s.nodes && Eligible(s, "a", 0) && Waits(s, 0) && Idle(s, "a")
  {
    hide ReschedOf;
  }

  lemma SoloBatch(s: State, b: WorkerJob, j: JobId, pending: set<TaskId>)
    requires Scene(s, Ready, {}, pending) && BatchOk(s, "a", s.nodes["a"].FreeCPU(), b, j)
    ensures j == 0 && |b.Tasks(0)| == 1 && b.jobs.Keys == {0} && !b.exclusive && b.Total() == 1
  {
    hide ReschedOf, Admits, MayJoin, WorkerJob.Total;
    SingleJobTotal(b, j);
    assert |b.Tasks(0)| >= 1;
  }

  lemma SoloAssigned(s: State, order: seq<IP>)
    requires Request(s, order).0.Batch?
    ensures var (g, s1) := Request(s, order);
            && g.ip in order && g.ip in s.nodes && g.ip in s1.nodes && s1.nodes == s.nodes[g.ip := s1.nodes[g.ip]]
            && s1.nodes[g.ip].busy == s.nodes[g.ip].busy + g.tasks.Total()
            && s1.nodes[g.ip].worker == s.nodes[g.ip].worker.(job := s1.nodes[g.ip].worker.job)
  {
    hide Plan, Request, Idle;
    RequestCases(s, order);
    var ip := Request(s, order).0.ip;
    PlanOk(s, ip, s.nodes[ip].FreeCPU());
  }

  lemma RequestSolo(r: Trace)
    requires Base(r.s, r.known, {}) && Accounted(r.s) && Scene(r.s, Ready, {}, {0, 1})
    ensures var (g, s1) := Request(r.s, ["a", "b"]);
            && g.Batch? && |g.tasks.Tasks(0)| == 1 && g.tasks.Tasks(0) <= {0, 1}
            && Scene(s1, Ready, g.tasks.Tasks(0), {0, 1} - g.tasks.Tasks(0))
  {
    hide Base, Conserved, Request, Takes, Eligible, Waits, Idle, Plan, WorkerJob.Merge, ReschedOf, PendingIn, CpuOk,
         WorkerJob.Total, Assign;
    SceneEligible(r.s, {0, 1});
    RequestWorkConserving(r.s, r.known, ["a"]);
    SoloAssigned(r.s, ["a"]);
    RequestFacts(r.s, ["a"]);
    RequestTakes(r.s, ["a"]);
    var (g, s1) := Request(r.s, ["a"]);
    var b := g.tasks;
    var j :| BatchOk(r.s, "a", r.s.nodes["a"].FreeCPU(), b, j)
             && s1.running == r.s.running[j := Running(r.s, j) + |b.Tasks(j)|]
             && s1.nodes["a"].worker.job == r.s.nodes["a"].worker.job.Merge(b);
    SoloBatch(r.s, b, j, {0, 1});
    MergedOne(r.s.nodes["a"].worker.job, b);
    TakesAt(r.s, b, s1, 0);
    ServedFirst(r.s, "a", "b");
  }

  lemma ServedFirst(s: State, a: IP, b: IP)
    requires Request(s, [a]).0.Batch?
    ensures Request(s, [a, b]) == Request(s, [a])
  {
    hide Plan, Assign, Idle;
    assert [a][1..] == [] && Request(s, []).0 == NoTask;
  }

  /** While the task runs on "a", "b" may not start the other one: the cluster limit is reached. */
  lemma NothingToStart(s: State, state: WorkerState, t: TaskId, pending: set<TaskId>)
    requires Scene(s, state, {t}, pending)
    ensures !Startable(s)
  {
    hide ReschedOf, PendingIn;
    assert |{t}| == 1 && Empty.Tasks(0) == {};
    forall ip, j ensures !CanStart(s, ip, j) {
      if ip in s.nodes && j in s.jobs {
        assert j == 0;
        assert !CanAdd(s, ip, Empty, s.history, 0);
      }
    }
  }

  lemma LostSolo(s: State, t: TaskId, pending: set<TaskId>)
    requires Scene(s, NotAvailable, {t}, pending) && 0 in s.execs && s.execs[0] == 2
    ensures var s1 := ChangeWorkerState(s, "a");
            && s1.nodes == s.nodes["a" := Node(s.nodes["a"].worker.(job := Empty), 0)]
            && s1.jobs == s.jobs && s1.toSend == s.toSend
            && FailedOf(s1, 0) == {"a"} && RunningIn(s1.running, 0) == 0
    ensures !Dispatch.Notifies(s, WorkerStateChanged("a"))
  {
    hide ReschedOf, PendingIn, DecrementExecution, RemoveJob, StopWorkers;
    var w := s.nodes["a"].worker.job;
    assert |{t}| == 1;
    assert 0 in w.jobs && w.jobs.Keys == {0};
    var s0 := Reset(s, "a");
    assert FailedOf(s0, 0) == {"a"};
    SingleReschedule(s0, w, 0);
    assert Ascending(w.jobs.Keys) == [0] && [0][1..] == [];
    DecrementCases(s0.(running := s0.running[0 := Running(s0, 0) - 1]), 0, 1);
  }

  lemma StartsOnB(s: State, s1: State, t: TaskId, pending: set<TaskId>)
    requires Scene(s, NotAvailable, {t}, pending) && pending != {}
    requires s1.nodes == s.nodes["a" := Node(s.nodes["a"].worker.(job := Empty), 0)]
    requires s1.jobs == s.jobs && s1.toSend == s.toSend && FailedOf(s1, 0) == {"a"} && RunningIn(s1.running, 0) == 0
    ensures CanStart(s1, "b", 0)
  {
    hide ReschedOf;
    assert Free.job.Tasks(0) == {};
    assert Eligible(s1, "b", 0);
  }

  lemma SoloExecs(s: State, t: TaskId, u: TaskId)
    requires Scene(s, NotAvailable, {t}, {u}) && Conserved(s, map[])
    ensures 0 in s.execs && s.execs[0] == 2
  {
    hide Conserved, Partitioned, ReschedOf;
    ConservedMeans(s, 0);
    ExecsAt(s, map[], 0);
    SoloAlive(s, t, u);
  }

  lemma SoloAlive(s: State, t: TaskId, u: TaskId)
    requires Scene(s, NotAvailable, {t}, {u}) && 0 in s.jobs && Partitioned(s, 0) && 0 in s.execs
    ensures s.execs[0] == 2
  {
    hide ReschedOf, HeldTasks, NoDuplicates, Below;
    forall x ensures x in HeldTasks(s.nodes, 0) <==> x == t {
      HeldTasksAt(s.nodes, 0, x);
      assert HeldAt(s.nodes, "a", 0) == {t} && HeldAt(s.nodes, "b", 0) == {};
    }
    assert HeldTasks(s.nodes, 0) == {t};
    assert t != u;
    assert Alive(s, 0) == {t, u};
  }

  lemma SceneUpdated(s: State, t: TaskId, pending: set<TaskId>)
    requires Scene(s, Ready, {t}, pending)
    ensures Scene(UpdateWorker(s, "a", NotAvailable, 4), NotAvailable, {t}, pending)
    ensures Sound(s, WorkerUpdated("a", NotAvailable, 4))
  {
    hide ReschedOf;
    OneTotal(s.nodes["a"].worker.job, t);
  }

  lemma OneTotal(w: WorkerJob, t: TaskId)
    requires w.jobs.Keys <= {0} && w.Tasks(0) == {t}
    ensures w.Total() == 1
  {
    assert 0 in w.jobs && w.jobs.Keys == {0};
    SingleJobTotal(w, 0);
    assert |{t}| == 1;
  }

  lemma SceneEnds(s: State, t: TaskId)
    requires Scene(s, NotAvailable, {t}, {0, 1} - {t}) && t in {0, 1} && Accounted(s)
    ensures !Startable(s) && !Dispatch.Notifies(s, WorkerStateChanged("a"))
    ensures Startable(ChangeWorkerState(s, "a"))
  {
    hide Scene, ChangeWorkerState, Conserved, CanStart, Dispatch.Notifies;
    var u := if t == 0 then 1 else 0;
    assert {0, 1} - {t} == {u};
    NothingToStart(s, NotAvailable, t, {u});
    SoloExecs(s, t, u);
    LostSolo(s, t, {u});
    StartsOnB(s, ChangeWorkerState(s, "a"), t, {u});
  }

  // ---- the run ----

  /** The possible run `ms` leads to `d`, and its scheduler part is sound. */
  ghost predicate Reaches(ms: seq<Dispatch.Move>, d: Dispatch.Desk) {
    Dispatch.PossibleRun(ms) && Dispatch.After(ms) == d && Leads(Dispatch.Events(ms), d.r)
  }

  lemma StepReaches(ms: seq<Dispatch.Move>, d: Dispatch.Desk, e: Event)
    requires Reaches(ms, d) && !e.TaskRequested? && Possible(d.r, e) && OneJobBatch(e) && Sound(d.r.s, e)
    ensures var d1 := Dispatch.Moved(d, Dispatch.Step(e));
            Reaches(ms + [Dispatch.Step(e)], d1) && d1.r == Advance(d.r, e)
  {
    hide Advance, Possible, Dispatch.Notifies, OneJobBatch, Sound, Leads, Breaks, Accounted, AddsUp, CpuSafe;
    var ms1 := ms + [Dispatch.Step(e)];
    assert ms1[..|ms1| - 1] == ms;
    Incidents.Step(Dispatch.Events(ms), d.r, e);
  }

  lemma ScanReaches(ms: seq<Dispatch.Move>, d: Dispatch.Desk, order: seq<IP>)
    requires Reaches(ms, d) && Dispatch.Enabled(d, Dispatch.Scan(order))
    ensures var d1 := Dispatch.Moved(d, Dispatch.Scan(order));
            Reaches(ms + [Dispatch.Scan(order)], d1) && d1.r == Advance(d.r, TaskRequested(order))
  {
    hide Advance, Dispatch.Notifies, Leads, Breaks, Accounted, AddsUp, Request;
    var ms1 := ms + [Dispatch.Scan(order)];
    assert ms1[..|ms1| - 1] == ms;
    Incidents.Step(Dispatch.Events(ms), d.r, TaskRequested(order));
  }

  lemma ActReaches(ms: seq<Dispatch.Move>, d: Dispatch.Desk, a: WakeUp.Action)
    requires Reaches(ms, d) && Dispatch.Enabled(d, Dispatch.Act(a))
    ensures Reaches(ms + [Dispatch.Act(a)], Dispatch.Moved(d, Dispatch.Act(a)))
  {
    hide Advance, Possible, Dispatch.Notifies, Leads, Request, WakeUp.Enabled, WakeUp.Next;
    var ms1 := ms + [Dispatch.Act(a)];
    assert ms1[..|ms1| - 1] == ms;
    assert Dispatch.Events(ms1) == Dispatch.Events(ms);
  }

  lemma OpeningReaches()
    ensures Reaches([], Dispatch.Opening)
  {
  }

  /** Both hosts appear and the job is planned; three notifications are on their way. */
  lemma Prologue() returns (ms: seq<Dispatch.Move>, d: Dispatch.Desk)
    ensures Reaches(ms, d) && Scene(d.r.s, Ready, {}, {0, 1})
    ensures d.owed == 3 && d.returning == {} && d.sender == WakeUp.Start && d.found == None
  {
    hide Reaches, Scene, PlanJob, OneJobBatch, Base, Accounted, WorkerJob.Total;
    OpeningReaches();
    EmptyHoldsNothing();
    ms, d := [], Dispatch.Opening;
    var a, b, c := HostAppeared("a", Free), HostAppeared("b", Free), JobPlanned(Solo, 8, 2);
    PlainEvents(a, b, c);
    StepReaches(ms, d, a);
    ms, d := ms + [Dispatch.Step(a)], Dispatch.Moved(d, Dispatch.Step(a));
    StepReaches(ms, d, b);
    ms, d := ms + [Dispatch.Step(b)], Dispatch.Moved(d, Dispatch.Step(b));
    assert d.r.s == TwoHosts;
    StepReaches(ms, d, c);
    ms, d := ms + [Dispatch.Step(c)], Dispatch.Moved(d, Dispatch.Step(c));
    PlannedSolo();
  }

  lemma PlainEvents(a: Event, b: Event, c: Event)
    requires !a.SendFailed? && !b.SendFailed? && !c.SendFailed?
    ensures OneJobBatch(a) && OneJobBatch(b) && OneJobBatch(c)
  {
  }

  /** The three notifications arrive before the sender looks, and it begins a scan. */
  lemma Awoken(ms: seq<Dispatch.Move>, d: Dispatch.Desk) returns (ms1: seq<Dispatch.Move>, d1: Dispatch.Desk)
    requires Reaches(ms, d) && d.owed == 3 && d.sender == WakeUp.Start
    ensures Reaches(ms1, d1) && d1.r == d.r && d1.owed == 0 && d1.returning == d.returning
    ensures d1.sender.at == WakeUp.Scanning && !d1.sender.flag && d1.found == None
  {
    hide Reaches;
    ms1, d1 := Acted(ms, d, WakeUp.Notify);
    ms1, d1 := Acted(ms1, d1, WakeUp.Notify);
    ms1, d1 := Acted(ms1, d1, WakeUp.Notify);
    ms1, d1 := Acted(ms1, d1, WakeUp.Check);
    ms1, d1 := Acted(ms1, d1, WakeUp.Begin);
  }

  lemma Acted(ms: seq<Dispatch.Move>, d: Dispatch.Desk, a: WakeUp.Action)
    returns (ms1: seq<Dispatch.Move>, d1: Dispatch.Desk)
    requires Reaches(ms, d) && Dispatch.Enabled(d, Dispatch.Act(a))
    ensures Reaches(ms1, d1) && d1 == Dispatch.Moved(d, Dispatch.Act(a))
  {
    hide Reaches;
    ActReaches(ms, d, a);
    ms1, d1 := ms + [Dispatch.Act(a)], Dispatch.Moved(d, Dispatch.Act(a));
  }

  /** The first scan hands out a task, the second one nothing, and the sender falls asleep. */
  lemma ScannedTwice(ms: seq<Dispatch.Move>, d: Dispatch.Desk)
    returns (ms1: seq<Dispatch.Move>, d1: Dispatch.Desk, t: TaskId)
    requires Reaches(ms, d) && Scene(d.r.s, Ready, {}, {0, 1}) && d.owed == 0 && d.returning == {}
    requires d.sender.at == WakeUp.Scanning && !d.sender.flag && d.found == None
    ensures Reaches(ms1, d1) && t in {0, 1} && Scene(d1.r.s, Ready, {t}, {0, 1} - {t}) && Dispatch.SoundAsleep(d1)
  {
    hide Reaches, Scene, Base, Accounted, Request, Advance;
    var both := Dispatch.Scan(["a", "b"]);
    var e := TaskRequested(["a", "b"]);
    ReachesSafe(ms, d);
    SceneNodes(d.r.s, {}, {0, 1});
    RequestSolo(d.r);
    var ts := Request(d.r.s, ["a", "b"]).0.tasks.Tasks(0);
    OneOf(ts);
    t :| ts == {t};
    ScanReaches(ms, d, ["a", "b"]);
    Dispatch.AdvanceState(d.r, e);
    ms1, d1 := Acted(ms + [both], Dispatch.Moved(d, both), WakeUp.End(true));
    ms1, d1 := Acted(ms1, d1, WakeUp.Begin);
    ReachesSafe(ms1, d1);
    SceneNodes(d1.r.s, {t}, {0, 1} - {t});
    NothingToStart(d1.r.s, Ready, t, {0, 1} - {t});
    NothingGranted(d1.r.s, d1.r.known, ["a", "b"]);
    ScanReaches(ms1, d1, ["a", "b"]);
    Dispatch.AdvanceState(d1.r, e);
    ms1, d1 := Acted(ms1 + [both], Dispatch.Moved(d1, both), WakeUp.End(false));
    ms1, d1 := Acted(ms1, d1, WakeUp.Check);
  }

  lemma SceneNodes(s: State, held: set<TaskId>, pending: set<TaskId>)
    requires Scene(s, Ready, held, pending)
    ensures forall ip | ip in s.nodes :: ip in ["a", "b"]
  {
  }

  lemma NothingGranted(s: State, known: Registry, order: seq<IP>)
    requires Base(s, known, {}) && !Startable(s)
    ensures Request(s, order) == (NoTask, s)
  {
    hide Base, Request, Idle, Eligible, Waits, Plan;
    forall ip, j | ip in order && ip in s.nodes && Idle(s, ip) && Eligible(s, ip, j) ensures !Waits(s, j) {
      assert !CanStart(s, ip, j);
    }
    RequestWorkConserving(s, known, order);
    RequestCases(s, order);
  }

  lemma ReachesSafe(ms: seq<Dispatch.Move>, d: Dispatch.Desk)
    requires Reaches(ms, d)
    ensures Base(d.r.s, d.r.known, {}) && Accounted(d.r.s)
  {
    hide Base, Accounted, Leads;
    AfterIs(Dispatch.Events(ms), d.r);
    FollowedBoth(Dispatch.Events(ms));
  }

  /** There is a sound run of scheduler and sender after which the sender sleeps, no notification is on its
      way, and a worker may start a waiting task. */
  lemma SleepsWithWorkToDo()
    ensures exists ms ::
              && Dispatch.PossibleRun(ms) && SoundRun(Boot, Dispatch.Events(ms))
              && Dispatch.SoundAsleep(Dispatch.After(ms)) && Startable(Dispatch.After(ms).r.s)
  {
    hide Reaches, Scene, Base, Accounted, Startable, Dispatch.Notifies, ChangeWorkerState, OneJobBatch, UpdateWorker;
    var ms, d := Prologue();
    ms, d := Awoken(ms, d);
    var t;
    ms, d, t := ScannedTwice(ms, d);
    var down, lost := WorkerUpdated("a", NotAvailable, 4), WorkerStateChanged("a");
    PlainEvents(down, lost, lost);
    SceneUpdated(d.r.s, t, {0, 1} - {t});
    StepReaches(ms, d, down);
    QuietUpdate(d.r.s, down);
    ms, d := ms + [Dispatch.Step(down)], Dispatch.Moved(d, Dispatch.Step(down));
    ReachesSafe(ms, d);
    SceneEnds(d.r.s, t);
    StepReaches(ms, d, lost);
    ms, d := ms + [Dispatch.Step(lost)], Dispatch.Moved(d, Dispatch.Step(lost));
    ReachesMeans(ms, d);
  }

  lemma QuietUpdate(s: State, e: Event)
    requires e.WorkerUpdated?
    ensures !Dispatch.Notifies(s, e)
  {
  }

  lemma ReachesMeans(ms: seq<Dispatch.Move>, d: Dispatch.Desk)
    requires Reaches(ms, d)
    ensures Dispatch.PossibleRun(ms) && Dispatch.After(ms) == d && SoundRun(Boot, Dispatch.Events(ms))
  {
    hide Dispatch.PossibleRun, Dispatch.After, SoundRun;
  }
}
