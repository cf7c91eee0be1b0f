/** Short runs from the start that show where the code misses a law it is expected to keep.  Each
    run fails a condition of `SchedulerRuns.Sound` at its last step and at no earlier one. */
module Incidents {
  import opened Ordering
  import opened WorkerJobs
  import opened SchedulerState
  import opened BatchSelection
  import BatchFacts
  import opened SchedulerSteps
  import opened Safety
  import opened Rows
  import opened Conservation
  import opened FailureReports
  import opened FailedSends
  import opened CpuAccounting
  import opened SchedulerRuns
  import opened BatchTasks
  import opened BatchChoice
  import opened RunProperties
  import opened JobRuns
  import opened Credits

  function PlainJob(id: JobId, numExec: int, maxFailed: int, maxCluster: int): Job {
    Job(id, 0, 0, numExec, 0, CpuUnit, maxFailed, maxCluster, 0, 0, false, false, {}, {}, {}, {})
  }

  const Free: Worker := Worker("h", "g", Ready, 4, Empty)

  /** A host with four CPUs has appeared. */
  const One: State := Initial.(nodes := map["a" := Node(Free, 0)])

  function Planned(maxFailed: int, maxCluster: int, n: nat): State
    requires n >= 1
  {
    var job := PlainJob(0, n, maxFailed, maxCluster).(planned := n);
    One.(toSend := map[0 := Below(n)], jobs := map[0 := job], queue := [0], execs := map[0 := n])
  }

  lemma PlannedAfter(maxFailed: int, maxCluster: int, n: nat)
    requires n >= 1
    ensures AppearHost(Initial, "a", Free) == One
    ensures PlanJob(One, PlainJob(0, n, maxFailed, maxCluster), 4, 1) == Planned(maxFailed, maxCluster, n)
  {
    var job := PlainJob(0, n, maxFailed, maxCluster);
    assert Pending(One, 0) + Below(n) == Below(n);
    assert map[][0 := Below(n)] == map[0 := Below(n)];
  }

  // ---- following a run ----

  /** `es` is a sound run of possible steps from the start and leads to `r`. */
  ghost predicate Leads(es: seq<Event>, r: Trace) {
    PossibleRun(Boot, es) && BatchRun(es) && SoundRun(Boot, es) && After(Boot, es) == r
  }

  /** The run `es` is sound, the step `e` after it is not, and with it the accounts are wrong. */
  ghost predicate Breaks(es: seq<Event>, e: Event) {
    && PossibleRun(Boot, es + [e]) && BatchRun(es + [e])
    && SoundRun(Boot, es) && !Sound(After(Boot, es).s, e)
    && Accounted(After(Boot, es).s) && !Accounted(After(Boot, es + [e]).s)
  }

  lemma Step(es: seq<Event>, r: Trace, e: Event)
    requires Leads(es, r) && Possible(r, e) && OneJobBatch(e)
    ensures Sound(r.s, e) ==> Leads(es + [e], Advance(r, e))
    ensures !(AddsUp(r.s, e) && CpuSafe(r.s, e)) ==> Breaks(es, e)
    ensures After(Boot, es + [e]) == Advance(r, e)
  {
    hide Base, Accounted, Advance, Possible, Lawful, AddsUp, CpuSafe, OneJobBatch;
    var es1 := es + [e];
    assert es1[..|es1| - 1] == es;
    SoundRunAccounts(es);
    if Lawful(r.s, e) {
      LawfulAddsUp(r.s, e);
    }
    BootIsSafe();
    RunKeeps(Boot, es);
    AdvanceAccountedIff(r, e);
  }

  function PlanningRun(job: Job): seq<Event> {
    [HostAppeared("a", Free), JobPlanned(job, 4, 1)]
  }

  lemma AfterAppearing()
    ensures Leads([HostAppeared("a", Free)], Boot.(s := One))
  {
    hide Accounted, Base, AppearHost;
    PlannedAfter(0, 0, 1);
    EmptyHoldsNothing();
    Step([], Boot, HostAppeared("a", Free));
    assert [] + [HostAppeared("a", Free)] == [HostAppeared("a", Free)];
  }

  lemma AfterPlanning(maxFailed: int, maxCluster: int, n: nat)
    requires n >= 1
    ensures var job := PlainJob(0, n, maxFailed, maxCluster);
            Leads(PlanningRun(job), Trace(Planned(maxFailed, maxCluster, n), map[0 := job.(planned := n)], map[]))
  {
    hide Accounted, Base, Planned, AppearHost, PlanJob, Leads, Breaks;
    var job := PlainJob(0, n, maxFailed, maxCluster);
    AfterAppearing();
    PlannedAfter(maxFailed, maxCluster, n);
    PlannedFacts(maxFailed, maxCluster, n);
    Step([HostAppeared("a", Free)], Boot.(s := One), JobPlanned(job, 4, 1));
    assert [HostAppeared("a", Free)] + [JobPlanned(job, 4, 1)] == PlanningRun(job);
    assert map[][0 := job.(planned := n)] == map[0 := job.(planned := n)];
  }

  lemma PlannedFacts(maxFailed: int, maxCluster: int, n: nat)
    requires n >= 1
    ensures var s := Planned(maxFailed, maxCluster, n);
            && s.jobs == map[0 := PlainJob(0, n, maxFailed, maxCluster).(planned := n)]
            && s.nodes == map["a" := Node(Free, 0)] && s.failed == map[]
  {
  }

  /** A failure reported for a task that the host does not hold: the task, still to be sent, is
      listed a second time and the running count becomes negative. */
  lemma UnheldFailure()
    ensures Breaks(PlanningRun(PlainJob(0, 1, -1, 0)), TaskFailed("a", 0, 0))
  {
    hide Accounted, Base, Planned, FailTask, Leads, Breaks, PlanningRun;
    var job := PlainJob(0, 1, -1, 0);
    AfterPlanning(-1, 0, 1);
    PlannedFacts(-1, 0, 1);
    Step(PlanningRun(job), Trace(Planned(-1, 0, 1), map[0 := job.(planned := 1)], map[]), TaskFailed("a", 0, 0));
  }

  // ---- one task on its way ----

  const Single: WorkerJob := WorkerJob(map[0 := {0}], false)

  /** The only task of job 0 is on the host. */
  function Sending(maxFailed: int): State {
    Planned(maxFailed, 0, 1).(
      nodes := map["a" := Node(Free.(job := Single), 1)], toSend := map[], sent := {0},
      running := map[0 := 1], history := map[-1 := map["a" := 1]])
  }

  lemma SingleSize()
    ensures Empty.Total() == 0 && Single.Total() == 1
  {
    EmptyHoldsNothing();
    assert Single.jobs.Keys == {0} && Single.Tasks(0) == {0};
    SingleJobTotal(Single, 0);
  }

  lemma FillSingle(maxFailed: int)
    ensures var s := Planned(maxFailed, 0, 1);
            Fill(s, "a", 4, 0, -1, {0}, Draft(Empty, [], map[], None)) ==
            (Draft(Single, [], map[-1 := map["a" := 1]], None), {})
  {
    SingleSize();
    var s := Planned(maxFailed, 0, 1);
    hide WorkerJob.Total;
    var d1 := Draft(Single, [], map[-1 := map["a" := 1]], None);
    assert Least({0}) == 0;
    assert Empty.AddTask(0, 0).SetExclusive(false) == Single by {
      assert Empty.Tasks(0) + {0} == {0};
    }
    assert CountExec(map[], -1, "a") == map[-1 := map["a" := 1]];
    assert {0} - {0} == {};
    assert Fill(s, "a", 4, 0, -1, {}, d1) == (d1, {});
  }

  lemma PlanSingle(maxFailed: int)
    ensures var s := Planned(maxFailed, 0, 1);
            Plan(s, "a", 4) == (Single, s.(toSend := map[], sent := {0}, history := map[-1 := map["a" := 1]]))
  {
    hide Fill, WorkerJob.Total;
    var s := Planned(maxFailed, 0, 1);
    FillSingle(maxFailed);
    assert Below(1) == {0};
    assert Pending(s, 0) == {0};
    var d := Draft(Empty, [], map[], None);
    assert ScanResched(s, "a", 4, s.resched, d) == d;
    assert Suits(s, "a", d, 0);
    assert FirstSuiting(s, "a", d, s.queue) == Some(0);
    assert {} + {0} == {0} && map[0 := {0}] - {0} == map[];
  }

  lemma RequestSingle(maxFailed: int)
    ensures Request(Planned(maxFailed, 0, 1), ["a"]) == (Batch("a", Single), Sending(maxFailed))
  {
    hide Plan, WorkerJob.Total, Planned;
    SingleSize();
    PlanSingle(maxFailed);
    PlannedMore(maxFailed);
    var s := Planned(maxFailed, 0, 1);
    assert Empty.Merge(Single) == Single by {
      assert Empty.Tasks(0) + Single.Tasks(0) == {0};
    }
    assert Least(Single.jobs.Keys) == 0;
    assert map["a" := Node(Free, 0)]["a" := Node(Free.(job := Single), 1)] == map["a" := Node(Free.(job := Single), 1)];
    assert map[][0 := 1] == map[0 := 1];
  }

  lemma PlannedMore(maxFailed: int)
    ensures var s := Planned(maxFailed, 0, 1);
            s.running == map[] && s.nodes == map["a" := Node(Free, 0)] && Idle(s, "a") && s.nodes["a"].FreeCPU() == 4
  {
  }

  function SendingRun(job: Job): seq<Event> {
    PlanningRun(job) + [TaskRequested(["a"])]
  }

  lemma AfterSending(maxFailed: int)
    ensures var job := PlainJob(0, 1, maxFailed, 0);
            Leads(SendingRun(job), Trace(Sending(maxFailed), map[0 := job.(planned := 1)], map[0 := 1]))
  {
    hide Accounted, Base, Planned, Request, Sending, WorkerJob.Total, Leads, Breaks, PlanningRun;
    var job := PlainJob(0, 1, maxFailed, 0);
    AfterPlanning(maxFailed, 0, 1);
    RequestSingle(maxFailed);
    PlannedMore(maxFailed);
    SingleSize();
    Step(PlanningRun(job), Trace(Planned(maxFailed, 0, 1), map[0 := job.(planned := 1)], map[]), TaskRequested(["a"]));
    assert Least(Single.jobs.Keys) == 0;
    assert map[][0 := 1] == map[0 := 1];
  }

  lemma ChargedState()
    ensures var c := Charge(Sending(1), "a", 0, 1);
            c.nodes == map["a" := Node(Free.(job := Single), 0)] && 0 in c.jobs && LimitReached(c, 0)
  {
    hide Planned;
    PlannedFacts(1, 0, 1);
    var c := Charge(Sending(1), "a", 0, 1);
    assert FailedOf(c, 0) == {"a"};
  }

  lemma LimitDrops()
    ensures var n := Node(Free.(job := Single), 0);
            (map ip | ip in map["a" := n] :: DropFromNode(map["a" := n][ip], 0)) == map["a" := Node(Free, -1)]
  {
    assert Single.DeleteJob(0) == Empty;
  }

  lemma LimitNodes()
    ensures FailTask(Sending(1), "a", 0, 0).nodes == map["a" := Node(Free, -1)]
  {
    hide RescheduleOne, Sending, LimitReached, HitsLimit, Planned, DropFromNode, Charge;
    SendingFacts();
    ChargedState();
    LimitDrops();
    var c := Charge(Sending(1), "a", 0, 1);
    RescheduleOneNodes(c, 0, {0});
    assert Empty.DeleteTask(0, 0) == Empty;
    assert map["a" := Node(Free, -1)]["a" := Node(Free, -1)] == map["a" := Node(Free, -1)];
  }

  lemma SendingFacts()
    ensures var s := Sending(1);
            s.nodes == map["a" := Node(Free.(job := Single), 1)] && s.jobs.Keys == {0} && s.failed == map[]
            && Counts(s, "a", 0) && HitsLimit(s, 0)
  {
    hide Planned;
    PlannedFacts(1, 0, 1);
  }

  /** The failure that reaches a job's failed-node limit frees the CPU twice: once for the reported
      task and once more when the job is dropped from every worker, which still lists the task.
      The node then claims five free CPUs of four. */
  lemma LimitFreesTwice()
    ensures var es, e := SendingRun(PlainJob(0, 1, 1, 0)), TaskFailed("a", 0, 0);
            && Breaks(es, e)
            && var s := After(Boot, es + [e]).s;
               "a" in s.nodes && s.nodes["a"].FreeCPU() == s.nodes["a"].worker.numCPU + 1
  {
    hide Accounted, Base, Sending, FailTask, Leads, Breaks, HitsLimit, SendingRun;
    var job := PlainJob(0, 1, 1, 0);
    AfterSending(1);
    SendingFacts();
    LimitNodes();
    Step(SendingRun(job), Trace(Sending(1), map[0 := job.(planned := 1)], map[0 := 1]), TaskFailed("a", 0, 0));
  }

  // ---- the first batch ignores the cluster limit ----

  const Pair: WorkerJob := WorkerJob(map[0 := {0, 1}], false)

  lemma PairSize()
    ensures Empty.Total() == 0 && Single.Total() == 1 && Pair.Total() == 2
  {
    SingleSize();
    assert Pair.jobs.Keys == {0} && Pair.Tasks(0) == {0, 1} && |{0, 1}| == 2;
    SingleJobTotal(Pair, 0);
  }

  lemma FillPair()
    ensures var s := Planned(-1, 1, 2);
            Fill(s, "a", 4, 0, -1, {0, 1}, Draft(Empty, [], map[], None)).0.planned == Pair
  {
    hide WorkerJob.Total, CountExec;
    PairSize();
    var s := Planned(-1, 1, 2);
    var h1 := CountExec(map[], -1, "a");
    var d1, d2 := Draft(Single, [], h1, None), Draft(Pair, [], CountExec(h1, -1, "a"), None);
    assert Least({0, 1}) == 0 && Least({1}) == 1;
    assert Empty.Tasks(0) + {0} == {0};
    assert {0, 1} - {0} == {1} && {1} - {1} == {};
    assert Single.Tasks(0) + {1} == {0, 1};
    assert map[0 := {0}][0 := {0, 1}] == map[0 := {0, 1}];
    assert Single.AddTask(0, 1).SetExclusive(false) == Pair;
    assert Fill(s, "a", 4, 0, -1, {}, d2) == (d2, {});
    assert Fill(s, "a", 4, 0, -1, {1}, d1) == (d2, {});
  }

  lemma PlanPair()
    ensures Plan(Planned(-1, 1, 2), "a", 4).0 == Pair
  {
    hide Fill, WorkerJob.Total;
    var s := Planned(-1, 1, 2);
    FillPair();
    assert Below(2) == {0, 1};
    assert Pending(s, 0) == {0, 1};
    var d := Draft(Empty, [], map[], None);
    assert ScanResched(s, "a", 4, s.resched, d) == d;
    assert Suits(s, "a", d, 0);
    assert FirstSuiting(s, "a", d, s.queue) == Some(0);
  }

  /** A job limited to one running task starts with two: the limit is not looked at before the job
      has a running count. */
  lemma FirstBatchExceedsClusterLimit()
    ensures var s := After(Boot, PlanningRun(PlainJob(0, 2, -1, 1)) + [TaskRequested(["a"])]).s;
            0 in s.jobs && s.jobs[0].maxClusterInstances == 1 && Running(s, 0) == 2
  {
    hide Accounted, Base, Request, Plan, Leads, Breaks, PlanningRun, WorkerJob.Total;
    var job := PlainJob(0, 2, -1, 1);
    var s := Planned(-1, 1, 2);
    AfterPlanning(-1, 1, 2);
    PlanPair();
    PairSize();
    Step(PlanningRun(job), Trace(s, map[0 := job.(planned := 2)], map[]), TaskRequested(["a"]));
    BatchFacts.PlanOk(s, "a", 4);
    RequestFirst(s, "a");
    assert Least(Pair.jobs.Keys) == 0;
  }

  lemma RequestFirst(s: State, ip: IP)
    requires ip in s.nodes && Idle(s, ip)
    ensures var (b, s1) := Plan(s, ip, s.nodes[ip].FreeCPU());
            b.jobs.Keys != {} && ip in s1.nodes ==> Request(s, [ip]) == (Batch(ip, b), Assign(s1, ip, b))
  {
    hide Plan, Assign;
  }

  // ---- a failed send takes another job's tasks off the worker ----

  const Other: Job := PlainJob(1, 1, -1, 0)

  /** Job 0 runs on the host and job 1 has been planned. */
  const Second: State := PlanJob(Sending(-1), Other, 4, 1)

  lemma SecondFacts()
    ensures var s := Second;
            && s.nodes == map["a" := Node(Free.(job := Single), 1)] && s.jobs.Keys == {0, 1}
            && s.jobs[1] == Other.(planned := 1) && s.failed == map[] && s.resched == []
            && s.toSend == map[1 := {0}] && s.running == map[0 := 1] && s.history == map[-1 := map["a" := 1]]
            && s.jobs[0].maxFailedNodes == -1
  {
    hide Inserted, Planned;
    PlannedFacts(-1, 0, 1);
    assert Planned(-1, 0, 1).resched == [] by {
      PlannedList();
    }
    assert Below(1) == {0};
  }

  lemma PlannedList()
    ensures Planned(-1, 0, 1).resched == []
  {
  }

  function SecondRun(): seq<Event> {
    SendingRun(PlainJob(0, 1, -1, 0)) + [JobPlanned(Other, 4, 1)]
  }

  function SecondKnown(): Registry {
    map[0 := PlainJob(0, 1, -1, 0).(planned := 1), 1 := Other.(planned := 1)]
  }

  lemma AfterSecond()
    ensures Leads(SecondRun(), Trace(Second, SecondKnown(), map[0 := 1]))
    ensures Base(Second, SecondKnown(), {}) && Conserved(Second, map[])
  {
    hide Accounted, Base, Sending, Leads, Breaks, SendingRun, PlanJob;
    var job := PlainJob(0, 1, -1, 0);
    AfterSending(-1);
    SecondFacts();
    Step(SendingRun(job), Trace(Sending(-1), map[0 := job.(planned := 1)], map[0 := 1]), JobPlanned(Other, 4, 1));
    assert map[0 := job.(planned := 1)][1 := Other.(planned := 1)] == SecondKnown();
    Followed(SecondRun(), Trace(Second, SecondKnown(), map[0 := 1]));
  }

  lemma Followed(es: seq<Event>, r: Trace)
    requires Leads(es, r)
    ensures Base(r.s, r.known, {}) && Conserved(r.s, map[])
  {
    hide Base, Conserved;
    BootIsSafe();
    RunKeeps(Boot, es);
    SoundRunAccounts(es);
  }

  lemma SecondEligible()
    ensures "a" in Second.nodes && Eligible(Second, "a", 1) && Waits(Second, 1) && Idle(Second, "a")
  {
    hide PlanJob;
    SecondFacts();
  }

  lemma SecondGranted()
    ensures Request(Second, ["a"]).0.Batch? && Request(Second, ["a"]).0.ip == "a"
  {
    hide Base, Conserved, PlanJob, Eligible, Waits, SecondKnown, SecondRun, Leads, Request, Plan;
    AfterSecond();
    SecondEligible();
    RequestWorkConserving(Second, SecondKnown(), ["a"]);
    BatchFacts.RequestCases(Second, ["a"]);
  }

  lemma OnlyJobOne(b: WorkerJob, s1: State, j: JobId)
    requires Takes(Second, b, s1) && b.jobs.Keys == {j} && b.jobs[j] != {}
    ensures j == 1 && b.Tasks(1) == {0} && PendingIn(s1.toSend, 0) == {} && ReschedOf(s1.resched, 0) == {}
  {
    hide PlanJob, Takes;
    SecondFacts();
    TakesAt(Second, b, s1, j);
    TakesAt(Second, b, s1, 0);
  }

  /** Both jobs have their task on the host; `b` is the batch of job 1. */
  ghost predicate BothHeld(s: State, b: WorkerJob) {
    && b.jobs.Keys == {1} && b.Tasks(1) == {0}
    && 0 in s.jobs && 1 in s.jobs && s.jobs[1].maxFailedNodes == -1 && !s.jobs[1].noReschedule
    && RunningIn(s.execs, 0) == 1 && s.failed == map[]
    && s.nodes.Keys == {"a"} && s.nodes["a"].worker.job.jobs == map[0 := {0}, 1 := {0}]
    && PendingIn(s.toSend, 0) == {} && ReschedOf(s.resched, 0) == {}
  }

  lemma MergedTable(b: WorkerJob)
    requires b.jobs.Keys == {1} && b.Tasks(1) == {0}
    ensures Single.Merge(b).jobs == map[0 := {0}, 1 := {0}]
  {
    assert Single.Tasks(0) + b.Tasks(0) == {0} && Single.Tasks(1) + b.Tasks(1) == {0};
  }

  lemma SecondBatch()
    ensures var (g, s1) := Request(Second, ["a"]);
            g.Batch? && g.ip == "a" && BothHeld(s1, g.tasks)
  {
    hide Base, Conserved, PlanJob, SecondKnown, SecondRun, Leads, Request, Takes, WorkerJob.Merge, ReschedOf, PendingIn,
         Admits, BatchFacts.MayJoin, BatchFacts.Fits;
    AfterSecond();
    SecondFacts();
    SecondExecs();
    SecondGranted();
    RequestFacts(Second, ["a"]);
    RequestTakes(Second, ["a"]);
    var (g, s1) := Request(Second, ["a"]);
    var j :| BatchFacts.BatchOk(Second, "a", Second.nodes["a"].FreeCPU(), g.tasks, j);
    OnlyJobOne(g.tasks, s1, j);
    MergedTable(g.tasks);
  }

  lemma SecondExecs()
    ensures Second.execs == map[0 := 1, 1 := 1]
  {
    hide Inserted, Below;
  }

  lemma BothFacts(s: State, b: WorkerJob)
    requires BothHeld(s, b)
    ensures var w := s.nodes["a"].worker.job;
            w.FirstJob() == 0 && w.DeleteJob(0).Tasks(0) == {}
    ensures b.FirstJob() == 1 && Counts(s, "a", 1)
  {
    hide ReschedOf;
    assert s.nodes["a"].worker.job.jobs.Keys == {0, 1};
  }

  lemma SendBreaks(s: State, b: WorkerJob)
    requires BothHeld(s, b)
    ensures !AddsUp(s, SendFailed("a", b)) && OneJobBatch(SendFailed("a", b))
  {
    hide HitsLimit, Unfinished, RowOf, ReschedOf, PendingIn, WorkerJob.FirstJob, WorkerJob.DeleteJob;
    BothFacts(s, b);
    assert Least(b.jobs.Keys) == 1;
    assert 0 in s.nodes["a"].worker.job.jobs.Keys;
  }

  lemma Relisted(c: State, b: WorkerJob)
    requires b.jobs.Keys == {1} && 1 in c.jobs && c.jobs[1].maxFailedNodes == -1 && !c.jobs[1].noReschedule
    ensures var s1 := Reschedule(c, b);
            && s1.nodes == c.nodes && s1.jobs == c.jobs && s1.execs == c.execs
            && WaitsLess(c, s1, 0, {})
  {
    hide RescheduleFrom, TaskList, Ascending, StopWorkers, RemoveJob, DecrementExecution;
    SingleReschedule(c, b, 1);
    RescheduleOneWaits(c, 1, b.Tasks(1), 0);
  }

  lemma SendLoses(s: State, b: WorkerJob)
    requires BothHeld(s, b)
    ensures var s1 := FailSend(s, "a", b);
            0 in s1.jobs && RunningIn(s1.execs, 0) == 1 && Alive(s1, 0) == {}
  {
    hide RescheduleFrom, WorkerJob.Total, WorkerJob.DeleteJob, WorkerJob.FirstJob, ReschedOf, HeldTasks;
    BothFacts(s, b);
    var c := Charge(s, "a", 1, b.Total());
    Relisted(c, b);
    var s1 := FailSend(s, "a", b);
    assert s1.nodes.Keys == {"a"};
    NothingHeld(s1.nodes, 0);
  }

  lemma NothingHeld(nodes: map<IP, Node>, j: JobId)
    requires forall ip :: HeldAt(nodes, ip, j) == {}
    ensures HeldTasks(nodes, j) == {}
  {
    hide HeldAt, HeldTasks;
    forall t ensures t !in HeldTasks(nodes, j) {
      HeldTasksAt(nodes, j, t);
    }
  }

  /** The deletion after a failed send of job 1 takes job 0 off the worker: its only task is then
      known to no table although the job is still owed one execution. */
  lemma FailedSendLosesJob()
    ensures var es := SecondRun() + [TaskRequested(["a"])];
            exists b ::
              && Breaks(es, SendFailed("a", b))
              && var s := After(Boot, es + [SendFailed("a", b)]).s;
                 0 in s.jobs && RunningIn(s.execs, 0) == 1 && Alive(s, 0) == {}
  {
    hide Base, Conserved, PlanJob, SecondKnown, SecondRun, Leads, Breaks, Request, FailSend, Alive;
    AfterSecond();
    SecondBatch();
    var (g, s1) := Request(Second, ["a"]);
    Step(SecondRun(), Trace(Second, SecondKnown(), map[0 := 1]), TaskRequested(["a"]));
    var es := SecondRun() + [TaskRequested(["a"])];
    var r := Advance(Trace(Second, SecondKnown(), map[0 := 1]), TaskRequested(["a"]));
    SendBreaks(s1, g.tasks);
    SendLoses(s1, g.tasks);
    Step(es, r, SendFailed("a", g.tasks));
  }
}
