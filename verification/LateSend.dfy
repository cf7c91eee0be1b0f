/** A failed send that arrives late: its task has been credited meanwhile and the host runs the next
    one.  All counters agree afterwards, yet the running task is lost and the credited one comes back
    (src/master/scheduler.cpp:388-434). */
module LateSend {
  import opened Ordering
  import opened WorkerJobs
  import opened SchedulerState
  import opened BatchSelection
  import opened BatchFacts
  import opened BatchTasks
  import opened SchedulerSteps
  import opened Safety
  import opened Rows
  import opened Conservation
  import opened FailureReports
  import opened FailedSends
  import opened CpuAccounting
  import opened SchedulerRuns
  import opened BatchChoice
  import opened RunProperties
  import opened JobRuns
  import opened Credits
  import opened Whereabouts
  import ClusterLimits
  import opened ExecutionRecords
  import opened ExecutionLimits
  import opened Incidents

  /** Two executions, at most one per host. */
  const OneByOne: Job := PlainJob(0, 2, -1, 0).(maxExecAtWorker := 1)

  ghost predicate NodeAt(n: Node, held: set<TaskId>) {
    && n.worker.state == Ready && n.worker.numCPU == 4 && n.busy <= 1
    && n.worker.job.jobs.Keys <= {0} && !n.worker.job.exclusive && n.worker.job.Tasks(0) == held
  }

  /** The host "a" holds the tasks `held` of job 0, `pending` are still to be sent, and no execution is
      recorded. */
  ghost predicate At(s: State, held: set<TaskId>, pending: set<TaskId>) {
    && s.nodes.Keys == {"a"} && NodeAt(s.nodes["a"], held)
    && s.jobs == map[0 := OneByOne.(planned := 2)] && s.failed == map[]
    && PendingIn(s.toSend, 0) == pending && ReschedOf(s.resched, 0) == {}
    && NumExecAt(s.history, 0, "a") == 0
  }

  ghost predicate Known(r: Trace) {
    r.known == map[0 := OneByOne.(planned := 2)]
  }

  // ---- the steps ----

  lemma AfterPlanningTwo()
    ensures var es := PlanningRun(OneByOne);
            && Leads(es, After(Boot, es)) && Known(After(Boot, es)) && At(After(Boot, es).s, {}, {0, 1})
            && Handed(es, 0, "a") == 0
  {
    hide Accounted, Base, AppearHost, PlanJob, Leads, Breaks, After, Handed;
    AfterAppearing();
    Step([HostAppeared("a", Free)], Boot.(s := One), JobPlanned(OneByOne, 4, 1));
    assert [HostAppeared("a", Free)] + [JobPlanned(OneByOne, 4, 1)] == PlanningRun(OneByOne);
    PlannedTwo();
    AfterIs(PlanningRun(OneByOne), Advance(Boot.(s := One), JobPlanned(OneByOne, 4, 1)));
    assert NumPlannedExec(OneByOne, 4, 1) == 2;
    assert map[][0 := OneByOne.(planned := 2)] == map[0 := OneByOne.(planned := 2)];
    NothingHanded();
  }

  lemma NothingHanded()
    ensures Handed([HostAppeared("a", Free)] + [JobPlanned(OneByOne, 4, 1)], 0, "a") == 0
  {
    hide After;
    HandedStep([HostAppeared("a", Free)], JobPlanned(OneByOne, 4, 1));
    HandedStep([], HostAppeared("a", Free));
    assert [] + [HostAppeared("a", Free)] == [HostAppeared("a", Free)];
  }

  lemma AfterIs(es: seq<Event>, r: Trace)
    requires Leads(es, r)
    ensures After(Boot, es) == r
  {
  }

  lemma PlannedTwo()
    ensures At(PlanJob(One, OneByOne, 4, 1), {}, {0, 1})
    ensures PlanJob(One, OneByOne, 4, 1).jobs == map[0 := OneByOne.(planned := 2)]
  {
    hide Inserted;
    assert Below(2) == {0, 1};
    assert Pending(One, 0) + Below(2) == {0, 1};
  }

  lemma AtEligible(s: State, pending: set<TaskId>)
    requires At(s, {}, pending) && pending != {}
    ensures "a" in s.nodes && Eligible(s, "a", 0) && Waits(s, 0) && Idle(s, "a")
  {
    hide ReschedOf;
    var w := s.nodes["a"].worker.job;
    assert !OneByOne.exclusive;
  }

  lemma BatchOfOne(s: State, b: WorkerJob, j: JobId)
    requires At(s, {}, PendingIn(s.toSend, 0)) && BatchOk(s, "a", s.nodes["a"].FreeCPU(), b, j)
    ensures j == 0 && |b.Tasks(0)| == 1 && b.jobs.Keys == {0} && !b.exclusive
  {
    hide ReschedOf, Admits, MayJoin;
    assert |b.Tasks(0)| >= 1;
  }

  lemma MergedOne(w: WorkerJob, b: WorkerJob)
    requires w.jobs.Keys <= {0} && w.Tasks(0) == {} && !w.exclusive && b.jobs.Keys == {0} && !b.exclusive
    ensures var m := w.Merge(b);
            m.jobs.Keys == {0} && m.Tasks(0) == b.Tasks(0) && !m.exclusive
  {
    assert w.Tasks(0) + b.Tasks(0) == b.Tasks(0);
  }

  /** A request gives the host one of the tasks to send. */
  lemma RequestOne(r: Trace, pending: set<TaskId>)
    requires Base(r.s, r.known, {}) && Accounted(r.s) && At(r.s, {}, pending) && pending != {}
    ensures var (g, s1) := Request(r.s, ["a"]);
            && g.Batch? && g.tasks.jobs.Keys == {0} && |g.tasks.Tasks(0)| == 1 && g.tasks.Tasks(0) <= pending
            && At(s1, g.tasks.Tasks(0), pending - g.tasks.Tasks(0))
  {
    hide Base, Conserved, Request, Takes, Eligible, Waits, Idle, Plan, WorkerJob.Merge, ReschedOf, PendingIn, CpuOk,
         WorkerJob.Total, Assign;
    AtEligible(r.s, pending);
    RequestWorkConserving(r.s, r.known, ["a"]);
    RequestCases(r.s, ["a"]);
    RequestFacts(r.s, ["a"]);
    RequestTakes(r.s, ["a"]);
    var (g, s1) := Request(r.s, ["a"]);
    var b := g.tasks;
    var j :| BatchOk(r.s, "a", r.s.nodes["a"].FreeCPU(), b, j)
             && s1.nodes == r.s.nodes["a" := s1.nodes["a"]]
             && s1.nodes["a"].worker.job == r.s.nodes["a"].worker.job.Merge(b);
    BatchOfOne(r.s, b, j);
    MergedOne(r.s.nodes["a"].worker.job, b);
    TakesAt(r.s, b, s1, 0);
    BusyOne(r.s, s1, b);
    RecordedNowhere(r.s, pending);
  }

  /** The task is counted under -1 and not under its job. */
  lemma RecordedNowhere(s: State, pending: set<TaskId>)
    requires At(s, {}, pending) && pending != {} && Request(s, ["a"]).0.Batch?
    ensures NumExecAt(Request(s, ["a"]).1.history, 0, "a") == 0
  {
    hide Request, Plan, NumExecAt, ReschedOf, PendingIn, Eligible, FirstRescheduled, ScanResched, DraftOk, Idle, CanAdd;
    RequestRecords(s, ["a"], 0, "a");
    RequestCases(s, ["a"]);
    var free := s.nodes["a"].FreeCPU();
    ClusterLimits.IdleFree(s, "a");
    NoneRescheduled(s, pending);
    ScanOkStart(s, "a", free);
    ScanChooses(s, "a", free, s.resched, Start(s));
    DraftJob(s, "a", free, ScanResched(s, "a", free, s.resched, Start(s)));
  }

  lemma NoneRescheduled(s: State, pending: set<TaskId>)
    requires At(s, {}, pending)
    ensures FirstRescheduled(s, "a", s.resched) == None
  {
    hide FirstRescheduled, CanAdd, Admits;
    forall k | k in s.resched ensures k.job != 0 {
      assert k.task in ReschedOf(s.resched, k.job);
    }
  }

  lemma BusyOne(s: State, s1: State, b: WorkerJob)
    requires At(s, {}, PendingIn(s.toSend, 0)) && Accounted(s) && b.jobs.Keys == {0} && |b.Tasks(0)| == 1
    requires Request(s, ["a"]) == (Batch("a", b), s1)
    ensures "a" in s1.nodes && s1.nodes["a"].busy <= 1
    ensures s1.nodes["a"].worker == s.nodes["a"].worker.(job := s1.nodes["a"].worker.job)
  {
    hide Conserved, Request, Plan, ReschedOf;
    RequestCases(s, ["a"]);
    PlanOk(s, "a", s.nodes["a"].FreeCPU());
    CpuAt(s.nodes, "a");
    NothingHeldTotal(s.nodes["a"].worker.job);
    SingleJobTotal(b, 0);
  }

  lemma NothingHeldTotal(w: WorkerJob)
    requires w.jobs.Keys <= {0} && w.Tasks(0) == {}
    ensures w.Total() == 0
  {
    assert w.Pairs() == {};
  }

  lemma ExecsLeft(s: State, held: set<TaskId>, pending: set<TaskId>)
    requires At(s, held, pending) && Conserved(s, map[])
    ensures 0 in s.execs && s.execs[0] == |held| + |pending| && held !! pending
  {
    hide Conserved, Partitioned, Alive;
    ConservedMeans(s, 0);
    AliveIs(s, held, pending);
    ExecsAt(s, map[], 0);
    ExecsAre(s, 0);
    PartsApart(s, held, pending);
    assert |held + pending| == |held| + |pending|;
  }

  lemma PartsApart(s: State, held: set<TaskId>, pending: set<TaskId>)
    requires At(s, held, pending) && 0 in s.jobs && Partitioned(s, 0)
    ensures held !! pending
  {
    hide ReschedOf, HeldTasks, Alive, NoDuplicates;
    HeldOnly(s, held);
  }

  lemma HeldOnly(s: State, held: set<TaskId>)
    requires s.nodes.Keys == {"a"} && s.nodes["a"].worker.job.Tasks(0) == held
    ensures HeldTasks(s.nodes, 0) == held
  {
    hide HeldTasks;
    assert HeldAt(s.nodes, "a", 0) == held;
    forall t ensures t in HeldTasks(s.nodes, 0) <==> t in held {
      HeldTasksAt(s.nodes, 0, t);
    }
  }

  lemma AliveIs(s: State, held: set<TaskId>, pending: set<TaskId>)
    requires At(s, held, pending)
    ensures Alive(s, 0) == held + pending
  {
    hide ReschedOf, HeldTasks;
    HeldOnly(s, held);
  }

  /** A success for the task on the host leaves the host idle. */
  lemma SucceedOne(s: State, t: TaskId, pending: set<TaskId>)
    requires At(s, {t}, pending) && pending != {} && Conserved(s, map[])
    ensures At(SucceedTask(s, "a", 0, t), {}, pending)
  {
    hide Conserved, RemoveJob, DecrementExecution, ReschedOf, WorkerJob.DeleteTask;
    ExecsLeft(s, {t}, pending);
    var n := s.nodes["a"];
    var n1 := Node(n.worker.(job := n.worker.job.DeleteTask(0, t)), n.busy - 1);
    DeletedOne(n.worker.job, t);
    DecrementCases(SetNode(s, "a", n1).(running := s.running[0 := Running(s, 0) - 1]), 0, 1);
    assert |{t}| == 1 && |pending| >= 1;
  }

  lemma DeletedOne(w: WorkerJob, t: TaskId)
    requires w.jobs.Keys <= {0} && !w.exclusive && w.Tasks(0) == {t}
    ensures var w1 := w.DeleteTask(0, t);
            w1.jobs.Keys <= {0} && !w1.exclusive && w1.Tasks(0) == {}
  {
  }

  // ---- the run ----

  /** A sound run after which task `u` is on the host and `t` has been credited; `b` was the batch with
      `t`. */
  ghost predicate Prepared(es: seq<Event>, b: WorkerJob, t: TaskId, u: TaskId) {
    && Leads(es, After(Boot, es)) && At(After(Boot, es).s, {u}, {})
    && t != u && t < 2 && u < 2 && b.jobs.Keys == {0} && b.Tasks(0) == {t}
  }

  lemma OneOf(a: set<TaskId>)
    requires |a| == 1
    ensures exists t :: a == {t}
  {
    var t :| t in a;
    assert a - {t} == {} by {
      assert |a - {t}| == 0;
    }
    assert a == {t};
  }

  lemma Extend(es: seq<Event>, e: Event)
    requires Leads(es, After(Boot, es)) && Possible(After(Boot, es), e) && OneJobBatch(e) && Sound(After(Boot, es).s, e)
    ensures Leads(es + [e], After(Boot, es + [e])) && After(Boot, es + [e]) == Advance(After(Boot, es), e)
    ensures Base(After(Boot, es).s, After(Boot, es).known, {}) && Accounted(After(Boot, es).s)
  {
    hide Accounted, Base, Advance, Possible, Sound, OneJobBatch, AddsUp, CpuSafe, Leads, Breaks;
    Step(es, After(Boot, es), e);
    FollowedBoth(es);
  }

  lemma FollowedBoth(es: seq<Event>)
    requires Leads(es, After(Boot, es))
    ensures Base(After(Boot, es).s, After(Boot, es).known, {}) && Accounted(After(Boot, es).s)
  {
    hide Base, Accounted;
    BootIsSafe();
    RunKeeps(Boot, es);
    SoundRunAccounts(es);
  }

  lemma Requested(es: seq<Event>, pending: set<TaskId>) returns (b: WorkerJob, t: TaskId)
    requires Leads(es, After(Boot, es)) && At(After(Boot, es).s, {}, pending) && pending != {}
    ensures var es1 := es + [TaskRequested(["a"])];
            && Leads(es1, After(Boot, es1)) && At(After(Boot, es1).s, {t}, pending - {t})
            && t in pending && b.jobs.Keys == {0} && b.Tasks(0) == {t}
            && Handed(es1, 0, "a") == Handed(es, 0, "a") + 1
  {
    hide Accounted, Base, Leads, At, Request, WorkerJob.Total;
    Extend(es, TaskRequested(["a"]));
    RequestOne(After(Boot, es), pending);
    b := Request(After(Boot, es).s, ["a"]).0.tasks;
    OneOf(b.Tasks(0));
    t :| b.Tasks(0) == {t};
    HandedStep(es, TaskRequested(["a"]));
    HandedToA(After(Boot, es).s, b);
  }

  lemma HandedToA(s: State, b: WorkerJob)
    requires Request(s, ["a"]).0.Batch? && Request(s, ["a"]).0.tasks == b
    ensures HandedBy(s, TaskRequested(["a"]), 0, "a") == |b.Tasks(0)|
  {
    hide Request, Plan, Assign, Idle;
    RequestCases(s, ["a"]);
  }

  lemma HandedStep(es: seq<Event>, e: Event)
    ensures Handed(es + [e], 0, "a") == Handed(es, 0, "a") + HandedBy(After(Boot, es).s, e, 0, "a")
  {
    hide HandedBy, After;
    assert (es + [e])[..|es + [e]| - 1] == es;
  }

  lemma Credited(es: seq<Event>, t: TaskId, pending: set<TaskId>)
    requires Leads(es, After(Boot, es)) && At(After(Boot, es).s, {t}, pending) && pending != {}
    ensures var es1 := es + [TaskSucceeded("a", 0, t)];
            && Leads(es1, After(Boot, es1)) && At(After(Boot, es1).s, {}, pending)
            && Handed(es1, 0, "a") == Handed(es, 0, "a")
  {
    hide Base, Leads, At, SucceedTask, Conserved, CpuOk;
    HandedStep(es, TaskSucceeded("a", 0, t));
    Extend(es, TaskSucceeded("a", 0, t));
    SucceedOne(After(Boot, es).s, t, pending);
  }

  lemma Prepare() returns (es: seq<Event>, b: WorkerJob, t: TaskId, u: TaskId)
    ensures Prepared(es, b, t, u) && Handed(es, 0, "a") == 2
  {
    hide Leads, At, PlanningRun, After, Handed;
    AfterPlanningTwo();
    es := PlanningRun(OneByOne);
    b, t := Requested(es, {0, 1});
    es := es + [TaskRequested(["a"])];
    assert (if t == 0 then 1 else 0) in {0, 1} - {t};
    Credited(es, t, {0, 1} - {t});
    es := es + [TaskSucceeded("a", 0, t)];
    var c;
    c, u := Requested(es, {0, 1} - {t});
    es := es + [TaskRequested(["a"])];
    assert {0, 1} - {t} - {u} == {};
  }

  lemma LateExchange(s: State, b: WorkerJob, t: TaskId, u: TaskId)
    requires At(s, {u}, {}) && t != u && t < 2 && b.Tasks(0) == {t}
    ensures 0 in s.jobs && "a" in s.nodes && Exchanges(s, "a", b, 0) && !Returns(s, "a", b, 0)
  {
    hide RowOf, Unfinished, ReschedOf, Alive, WorkerJob.FirstJob;
    FirstIsZero(s, u);
    UnfinishedIsAlive(s, 0);
    AliveIs(s, {u}, {});
    PlannedOf(s, 0);
    assert |{t}| == |{u}| == 1;
  }

  lemma LateState(s: State, b: WorkerJob, t: TaskId, u: TaskId)
    requires At(s, {u}, {}) && t != u && t < 2 && b.jobs.Keys == {0} && b.Tasks(0) == {t}
    ensures var e := SendFailed("a", b);
            && OneJobBatch(e) && Counts(s, "a", 0) && !HitsLimit(s, 0) && b.FirstJob() == 0
            && Exchanges(s, "a", b, 0) && !Returns(s, "a", b, 0)
            && AddsUp(s, e) && CpuSafe(s, e) && !Lawful(s, e)
  {
    hide Exchanges, Returns, ReschedOf, PendingIn;
    LateExchange(s, b, t, u);
    FirstIsZero(s, u);
    assert Least(b.jobs.Keys) == 0;
    assert |{t}| == |{u}| == 1;
  }

  /** There is a sound run and a late failed send after it such that all tables and counters still add
      up, yet a task that was credited waits again and a task that was never settled is in no table. */
  lemma LateSendLosesTask()
    ensures exists es, b, t, u ::
              && Prepared(es, b, t, u)
              && var es1 := es + [SendFailed("a", b)];
                 && PossibleRun(Boot, es1) && BatchRun(es1) && !Lawful(After(Boot, es).s, SendFailed("a", b))
                 && Accounted(After(Boot, es1).s)
                 && t in Alive(After(Boot, es1).s, 0) && CreditCount(Boot, es1, 0, t) == 1
                 && u !in Alive(After(Boot, es1).s, 0)
                 && CreditCount(Boot, es1, 0, u) == 0 && DropCount(Boot, es1, 0, u) == 0
  {
    hide Base, Accounted, At, Leads, Lawful, AddsUp, CpuSafe, Alive, Advance, Exchanges, Returns;
    var es, b, t, u := Prepare();
    LateResult(es, b, t, u);
  }

  lemma LateResult(es: seq<Event>, b: WorkerJob, t: TaskId, u: TaskId)
    requires Prepared(es, b, t, u)
    ensures var es1 := es + [SendFailed("a", b)];
            && PossibleRun(Boot, es1) && BatchRun(es1) && !Lawful(After(Boot, es).s, SendFailed("a", b))
            && Accounted(After(Boot, es1).s)
            && t in Alive(After(Boot, es1).s, 0) && CreditCount(Boot, es1, 0, t) == 1
            && u !in Alive(After(Boot, es1).s, 0)
            && CreditCount(Boot, es1, 0, u) == 0 && DropCount(Boot, es1, 0, u) == 0
  {
    hide Base, At, Lawful, AddsUp, CpuSafe, Alive, Exchanges, Returns, HitsLimit, Conserved, CpuOk, FailSend,
         WorkerJob.FirstJob, CreditCount, DropCount;
    var e := SendFailed("a", b);
    var r, es1 := After(Boot, es), es + [e];
    assert es1[..|es1| - 1] == es;
    FollowedBoth(es);
    LateState(r.s, b, t, u);
    FirstIsZero(r.s, u);
    AdvanceAccountedIff(r, e);
    SettledSoFar(es, t, u);
    LateAlive(r.s, b, t, u);
    SendSettlesNothing(es, b, t);
    SendSettlesNothing(es, b, u);
  }

  lemma SendSettlesNothing(es: seq<Event>, b: WorkerJob, x: TaskId)
    requires 0 in After(Boot, es).s.jobs && !After(Boot, es).s.jobs[0].noReschedule
    ensures var es1 := es + [SendFailed("a", b)];
            CreditCount(Boot, es1, 0, x) == CreditCount(Boot, es, 0, x)
            && DropCount(Boot, es1, 0, x) == DropCount(Boot, es, 0, x)
  {
    hide TakenOff, After;
    var es1 := es + [SendFailed("a", b)];
    assert es1[..|es1| - 1] == es;
  }

  lemma SettledSoFar(es: seq<Event>, t: TaskId, u: TaskId)
    requires Leads(es, After(Boot, es)) && At(After(Boot, es).s, {u}, {}) && t != u && t < 2 && u < 2
    ensures CreditCount(Boot, es, 0, t) == 1 && CreditCount(Boot, es, 0, u) == 0 && DropCount(Boot, es, 0, u) == 0
  {
    hide Partitioned, Alive, CreditCount, DropCount, After, Lawful, ReschedOf;
    SoundRunAccounts(es);
    EveryTaskAccountedFor(es, 0);
    AliveIs(After(Boot, es).s, {u}, {});
  }

  lemma LateAlive(s: State, b: WorkerJob, t: TaskId, u: TaskId)
    requires At(s, {u}, {}) && t != u && t < 2 && b.jobs.Keys == {0} && b.Tasks(0) == {t} && Conserved(s, map[])
    requires Conserved(FailSend(s, "a", b), map[])
    ensures Alive(FailSend(s, "a", b), 0) == {t}
  {
    hide Conserved, Alive, FailSend, HitsLimit, Exchanges, Returns, AddsUp, CpuSafe, Lawful, WorkerJob.FirstJob,
         Partitioned, RescheduleOne, ReschedOf;
    LateState(s, b, t, u);
    LateSendRevives(s, "a", b, 0);
    var s1 := FailSend(s, "a", b);
    ConservedMeans(s1, 0);
    ExecsAt(s, map[], 0);
    ExecsAt(s1, map[], 0);
    ExecsAre(s1, 0);
    ExecsLeft(s, {u}, {});
    FirstIsZero(s, u);
    FailSendBelowLimit(s, "a", b, 0);
    JobOffJobs(s, "a", 0, 1);
    RescheduleOneOwes(JobOff(s, "a", 0, 1), 0, {t}, 0);
    assert |{u}| == 1 && |{t}| == 1;
    SubsetSize({t}, Alive(s1, 0));
  }

  lemma FirstIsZero(s: State, u: TaskId)
    requires At(s, {u}, {})
    ensures "a" in s.nodes && s.nodes["a"].worker.job.FirstJob() == 0
    ensures 0 in s.jobs && !s.jobs[0].noReschedule && s.jobs[0].maxFailedNodes == -1 && s.jobs[0].planned == 2
  {
    hide ReschedOf;
    var w := s.nodes["a"].worker.job;
    assert 0 in w.jobs;
    assert w.jobs.Keys == {0};
  }
}
