/** The failed-node limit: a step that takes a job to its limit removes it with every task in every
    table, and no later step brings any of it back, whatever is reported
    (src/master/scheduler.cpp:57-130, 181-228, 388-434, 477-525, 649-692). */
module Purges {
  import opened Ordering
  import opened WorkerJobs
  import opened SchedulerState
  import opened BatchSelection
  import opened BatchFacts
  import opened BatchTasks
  import opened SchedulerSteps
  import opened Safety
  import opened Conservation
  import opened CpuAccounting
  import opened SchedulerRuns
  import opened RunProperties
  import opened JobRuns
  import opened Credits

  /** Job `j` is not scheduled and no table knows a task of it. */
  ghost predicate Absent(s: State, j: JobId) {
    j !in s.jobs && Alive(s, j) == {}
  }

  /** No worker gets a task of job `j` from `s` to `s1`. */
  ghost predicate HeldShrinks(s: State, s1: State, j: JobId) {
    forall ip :: HeldAt(s1.nodes, ip, j) <= HeldAt(s.nodes, ip, j)
  }

  lemma StaysAbsent(s: State, s1: State, j: JobId)
    requires Absent(s, j) && j !in s1.jobs && WaitsLess(s, s1, j, {}) && HeldShrinks(s, s1, j)
    ensures Absent(s1, j)
  {
    hide HeldTasks, HeldAt, ReschedOf;
    HeldLess(s.nodes, s1.nodes, j);
  }

  // ---- rescheduling ----

  lemma RoundShrinks(s: State, x: JobId, ts: set<TaskId>, j: JobId)
    ensures HeldShrinks(s, RescheduleOne(s, x, ts), j)
  {
    hide RescheduleOne, HeldAt;
    forall ip ensures HeldAt(RescheduleOne(s, x, ts).nodes, ip, j) <= HeldAt(s.nodes, ip, j) {
      RescheduleOneTables(s, x, ts, ip, j);
    }
  }

  lemma RoundAbsent(s: State, x: JobId, ts: set<TaskId>, j: JobId)
    requires Absent(s, j)
    ensures Absent(RescheduleOne(s, x, ts), j)
  {
    hide RescheduleOne, HeldShrinks, WaitsLess, Alive;
    RoundShrinks(s, x, ts, j);
    RescheduleOneWaits(s, x, ts, j);
    if j in RescheduleOne(s, x, ts).jobs {
      RescheduleOneJobs(s, x, ts, j);
    }
    StaysAbsent(s, RescheduleOne(s, x, ts), j);
  }

  lemma {:induction false} RoundsAbsent(s: State, w: WorkerJob, ids: seq<JobId>, j: JobId)
    requires Absent(s, j)
    ensures Absent(RescheduleFrom(s, w, ids), j)
    decreases |ids|
  {
    hide RescheduleOne, Absent;
    if ids != [] {
      RoundAbsent(s, ids[0], w.Tasks(ids[0]), j);
      RoundsAbsent(RescheduleOne(s, ids[0], w.Tasks(ids[0])), w, ids[1..], j);
    }
  }

  lemma NobodyHolding(nodes: map<IP, Node>, j: JobId)
    requires forall ip :: HeldAt(nodes, ip, j) == {}
    ensures HeldTasks(nodes, j) == {}
  {
    hide HeldAt, HeldTasks;
    forall t ensures t !in HeldTasks(nodes, j) {
      HeldTasksAt(nodes, j, t);
    }
  }

  lemma DroppedHolds(nodes: map<IP, Node>, ip: IP, j: JobId)
    ensures HeldAt(map x | x in nodes :: DropFromNode(nodes[x], j), ip, j) == {}
  {
  }

  /** The round of a job at its limit purges it. */
  lemma LimitRound(s: State, j: JobId, ts: set<TaskId>)
    requires j in s.jobs && LimitReached(s, j)
    ensures Absent(RescheduleOne(s, j, ts), j)
  {
    hide HeldTasks, LimitReached, Without, AsInt32, DropFromNode, HeldAt;
    RescheduleOneNodes(s, j, ts);
    var s1 := RescheduleOne(s, j, ts);
    forall ip ensures HeldAt(s1.nodes, ip, j) == {} {
      DroppedHolds(s.nodes, ip, j);
    }
    NobodyHolding(s1.nodes, j);
    assert ReschedOf(s1.resched, j) == {};
  }

  /** The round of another job leaves job `j` and its failed hosts alone. */
  lemma OtherRound(s: State, x: JobId, ts: set<TaskId>, j: JobId)
    requires x != j && j in s.jobs
    ensures var s1 := RescheduleOne(s, x, ts);
            j in s1.jobs && LimitReached(s1, j) == LimitReached(s, j)
  {
    hide TaskList, Ascending, StopWorkers, RemoveJob, DecrementExecution;
    if x in s.jobs {
      var s1 := s.(running := s.running[x := Running(s, x) - |ts|]);
      DecrementCases(s1, x, |ts|);
      RemoveOther(s1, x, j);
      RemoveOther(StopWorkers(s1, x), x, j);
      StopOther(s1, x);
    }
  }

  lemma RemoveOther(s: State, x: JobId, j: JobId)
    requires x != j
    ensures var s1 := RemoveJob(s, x);
            s1.jobs == s.jobs - {x} && FailedIn(s1.failed, j) == FailedIn(s.failed, j)
  {
    hide Without, AsInt32;
  }

  lemma StopOther(s: State, x: JobId)
    ensures StopWorkers(s, x).jobs == s.jobs && StopWorkers(s, x).failed == s.failed
  {
    hide WithoutJob, DropFromNode;
  }

  lemma {:induction false} LimitRounds(s: State, w: WorkerJob, ids: seq<JobId>, j: JobId)
    requires j in s.jobs && LimitReached(s, j) && j in ids
    ensures Absent(RescheduleFrom(s, w, ids), j)
    decreases |ids|
  {
    hide RescheduleOne, LimitReached, Absent;
    var s1 := RescheduleOne(s, ids[0], w.Tasks(ids[0]));
    if ids[0] == j {
      LimitRound(s, j, w.Tasks(j));
      RoundsAbsent(s1, w, ids[1..], j);
    } else {
      OtherRound(s, ids[0], w.Tasks(ids[0]), j);
      LimitRounds(s1, w, ids[1..], j);
    }
  }

  lemma LimitReschedule(s: State, w: WorkerJob, j: JobId)
    requires j in s.jobs && LimitReached(s, j) && j in w.jobs
    ensures Absent(Reschedule(s, w), j)
  {
    hide RescheduleFrom, LimitReached, Absent;
    LimitRounds(s, w, Ascending(w.jobs.Keys), j);
  }

  // ---- the step that reaches the limit ----

  /** With `ip` among its failed hosts, job `j` is at its failed-node limit. */
  predicate HitsAt(s: State, ip: IP, j: JobId) {
    j in s.jobs && s.jobs[j].maxFailedNodes >= 0 && |FailedOf(s, j) + {ip}| >= s.jobs[j].maxFailedNodes
  }

  /** The step takes the scheduled job `j` to its failed-node limit: a node that holds it is lost or
      deleted, or a report about it is the first failure of its host. */
  predicate TakesToLimit(s: State, e: Event, j: JobId) {
    match e
    case WorkerStateChanged(ip) =>
      && ip in s.nodes && s.nodes[ip].worker.state == NotAvailable && s.nodes[ip].busy >= 1
      && j in s.nodes[ip].worker.job.jobs && HitsAt(s, ip, j)
    case NodeDeleted(ip) => ip in s.nodes && j in s.nodes[ip].worker.job.jobs && HitsAt(s, ip, j)
    case SendFailed(ip, b) => b.FirstJob() == j && Counts(s, ip, j) && HitsAt(s, ip, j)
    case TaskFailed(ip, x, t) => x == j && Counts(s, ip, j) && HitsAt(s, ip, j)
    case TaskTimedOut(ip, x, t) =>
      x == j && Counts(s, ip, j) && s.nodes[ip].worker.job.HasTask(j, t) && HitsAt(s, ip, j)
    case _ => false
  }

  lemma AllFailedLimit(s: State, w: WorkerJob, ip: IP, j: JobId)
    requires HitsAt(s, ip, j) && j in w.jobs
    ensures var s1 := AddFailedAll(s, w, ip);
            j in s1.jobs && LimitReached(s1, j)
  {
  }

  lemma SameLimitNodes(s: State, nodes: map<IP, Node>, j: JobId)
    requires j in s.jobs && LimitReached(s, j)
    ensures var s1 := s.(nodes := nodes);
            j in s1.jobs && LimitReached(s1, j)
  {
  }

  lemma VacatePurges(s: State, ip: IP, j: JobId)
    requires ip in s.nodes && j in s.nodes[ip].worker.job.jobs && HitsAt(s, ip, j)
    ensures s.nodes[ip].worker.state == NotAvailable && s.nodes[ip].busy >= 1 ==> Absent(ChangeWorkerState(s, ip), j)
    ensures Absent(DeleteNode(s, ip), j)
  {
    hide Reschedule, LimitReached, Absent, HitsAt, AddFailedAll;
    var n := s.nodes[ip];
    var w := n.worker.job;
    var s1 := AddFailedAll(s, w, ip);
    var n1 := Node(n.worker.(job := Empty), 0);
    AllFailedLimit(s, w, ip, j);
    SameLimitNodes(s1, s1.nodes[ip := n1], j);
    SameLimitNodes(s1, s.nodes - {ip}, j);
    LimitReschedule(SetNode(s1, ip, n1), w, j);
    LimitReschedule(s1.(nodes := s.nodes - {ip}), w, j);
  }

  lemma ChargedLimit(s: State, ip: IP, j: JobId, n: int)
    requires ip in s.nodes && HitsAt(s, ip, j)
    ensures var c := Charge(s, ip, j, n);
            j in c.jobs && LimitReached(c, j)
  {
  }

  lemma SetNodeAbsent(s: State, ip: IP, n: Node, j: JobId)
    requires Absent(s, j) && ip in s.nodes && n.worker.job.Tasks(j) <= s.nodes[ip].worker.job.Tasks(j)
    ensures Absent(SetNode(s, ip, n), j)
  {
    hide HeldTasks, ReschedOf, Alive;
    SameWaits(s, SetNode(s, ip, n), j);
    StaysAbsent(s, SetNode(s, ip, n), j);
  }

  lemma DropTaskAbsent(s: State, ip: IP, x: JobId, t: TaskId, j: JobId)
    requires Absent(s, j)
    ensures Absent(DropTaskAt(s, ip, x, t), j)
  {
    hide Absent;
    if ip in s.nodes {
      DeleteTaskLess(s.nodes[ip].worker.job, x, t, j);
      SetNodeAbsent(s, ip, DropTaskAt(s, ip, x, t).nodes[ip], j);
    }
  }

  lemma DropFirstAbsent(s: State, ip: IP, j: JobId)
    requires Absent(s, j)
    ensures Absent(DropFirstAt(s, ip), j)
  {
    hide Absent;
    if ip in s.nodes {
      var w := s.nodes[ip].worker.job;
      if w.FirstJob() >= 0 {
        DeleteTaskLess(w, w.FirstJob(), 0, j);
      }
      SetNodeAbsent(s, ip, DropFirstJob(s.nodes[ip]), j);
    }
  }

  lemma FailTaskPurges(s: State, ip: IP, j: JobId, t: TaskId)
    requires Counts(s, ip, j) && HitsAt(s, ip, j)
    ensures Absent(FailTask(s, ip, j, t), j)
  {
    hide Absent, LimitReached, HitsAt, RescheduleOne, Charge, DropTaskAt;
    ChargedLimit(s, ip, j, 1);
    LimitRound(Charge(s, ip, j, 1), j, {t});
    DropTaskAbsent(RescheduleOne(Charge(s, ip, j, 1), j, {t}), ip, j, t, j);
  }

  lemma FailSendPurges(s: State, ip: IP, b: WorkerJob, j: JobId)
    requires b.FirstJob() == j && Counts(s, ip, j) && HitsAt(s, ip, j)
    ensures Absent(FailSend(s, ip, b), j)
  {
    hide Absent, LimitReached, HitsAt, Reschedule, Charge, DropFirstAt, WorkerJob.Total;
    FirstJobIsKey(b);
    ChargedLimit(s, ip, j, b.Total());
    LimitReschedule(Charge(s, ip, j, b.Total()), b, j);
    DropFirstAbsent(Reschedule(Charge(s, ip, j, b.Total()), b), ip, j);
  }

  /** The whole step that takes a job to its limit removes it and every task of it from every table,
      including the rounds for other jobs and the final deletion. */
  lemma LimitPurges(s: State, e: Event, j: JobId)
    requires TakesToLimit(s, e, j)
    ensures Absent(Next(s, e), j)
  {
    hide Absent, HitsAt, ChangeWorkerState, DeleteNode, FailSend, FailTask, WorkerJob.FirstJob;
    match e
    case WorkerStateChanged(ip) => VacatePurges(s, ip, j);
    case NodeDeleted(ip) => VacatePurges(s, ip, j);
    case SendFailed(ip, b) => FailSendPurges(s, ip, b, j);
    case TaskFailed(ip, x, t) => FailTaskPurges(s, ip, j, t);
    case TaskTimedOut(ip, x, t) => FailTaskPurges(s, ip, j, t);
    case _ => assert false;
  }

  // ---- nothing brings it back ----

  lemma {:induction false} KeptWasListed(s: State, ip: IP, free: int, rest: seq<WorkerTask>, d: Draft)
    requires ip in s.nodes
    ensures forall k | k in ScanResched(s, ip, free, rest, d).kept :: k in d.kept || k in rest
    decreases |rest|
  {
    hide CanAdd, Admits, CountExec, WorkerJob.Total;
    if rest != [] && d.planned.Total() < free {
      var d1 := Consider(s, ip, d, rest[0]);
      KeptWasListed(s, ip, free, rest[1..], d1);
      assert forall k | k in d1.kept :: k in d.kept || k == rest[0];
    }
  }

  /** Choosing a batch only takes from the tables of waiting tasks. */
  lemma PlanWaitsLess(s: State, ip: IP, free: int, j: JobId)
    requires ip in s.nodes
    ensures WaitsLess(s, Plan(s, ip, free).1, j, {})
  {
    hide ScanResched, Fill, FirstSuiting, Suits, Moved, WorkerJob.FirstJob;
    var d := ScanResched(s, ip, free, s.resched, Start(s));
    KeptWasListed(s, ip, free, s.resched, Start(s));
    FirstSuitingSuits(s, ip, d, s.queue);
    match FirstSuiting(s, ip, d, s.queue)
    case None =>
    case Some(x) =>
      FillMoves(s, ip, free, x, d.planned.FirstJob(), Pending(s, x), d);
  }

  lemma RequestWaitsLess(s: State, order: seq<IP>, j: JobId)
    ensures WaitsLess(s, Request(s, order).1, j, {})
  {
    hide Plan, Request, ReschedOf, Idle;
    RequestCases(s, order);
    match Request(s, order).0
    case NoTask => SameWaits(s, s, j);
    case Batch(ip, b) => PlanWaitsLess(s, ip, s.nodes[ip].FreeCPU(), j);
  }

  lemma RequestAbsent(s: State, order: seq<IP>, j: JobId)
    requires Absent(s, j)
    ensures Absent(Request(s, order).1, j)
  {
    hide Request, Alive, WaitsLess;
    RequestFacts(s, order);
    RequestWaitsLess(s, order, j);
    var s1 := Request(s, order).1;
    match Request(s, order).0
    case NoTask =>
    case Batch(ip, b) =>
      var x :| BatchOk(s, ip, s.nodes[ip].FreeCPU(), b, x)
               && s1.nodes == s.nodes[ip := s1.nodes[ip]]
               && s1.nodes[ip].worker.job == s.nodes[ip].worker.job.Merge(b);
      MergedElsewhere(s.nodes[ip].worker.job, b, x, j);
      StaysAbsent(s, s1, j);
  }

  lemma MergedElsewhere(w: WorkerJob, b: WorkerJob, x: JobId, j: JobId)
    requires b.jobs.Keys == {x} && x != j
    ensures w.Merge(b).Tasks(j) == w.Tasks(j)
  {
    assert b.Tasks(j) == {};
  }

  lemma {:induction false} RoundsShrink(s: State, w: WorkerJob, ids: seq<JobId>, j: JobId)
    ensures HeldShrinks(s, RescheduleFrom(s, w, ids), j)
  {
    hide RescheduleFrom, HeldAt;
    forall ip ensures HeldAt(RescheduleFrom(s, w, ids).nodes, ip, j) <= HeldAt(s.nodes, ip, j) {
      RescheduleFromTables(s, w, ids, ip, j);
    }
  }

  lemma VacateShrinks(s: State, ip: IP, j: JobId)
    ensures HeldShrinks(s, ChangeWorkerState(s, ip), j) && HeldShrinks(s, DeleteNode(s, ip), j)
  {
    hide RescheduleFrom, AddFailedAll;
    if ip in s.nodes {
      var n := s.nodes[ip];
      var w := n.worker.job;
      AddFailedAllTasks(s, w, ip);
      RoundsShrink(SetNode(AddFailedAll(s, w, ip), ip, Node(n.worker.(job := Empty), 0)), w, Ascending(w.jobs.Keys), j);
      RoundsShrink(AddFailedAll(s, w, ip).(nodes := s.nodes - {ip}), w, Ascending(w.jobs.Keys), j);
    }
  }

  lemma ShrinksOn(s: State, s1: State, s2: State, j: JobId)
    requires HeldShrinks(s, s1, j) && HeldShrinks(s1, s2, j)
    ensures HeldShrinks(s, s2, j)
  {
    hide HeldAt;
  }

  lemma ShrinksSame(s: State, ip: IP, x: JobId, n: int, j: JobId)
    ensures HeldShrinks(s, s, j)
    ensures ip in s.nodes ==> HeldShrinks(s, Charge(s, ip, x, n), j)
  {
  }

  lemma FailTaskShrinks(s: State, ip: IP, x: JobId, t: TaskId, j: JobId)
    ensures HeldShrinks(s, FailTask(s, ip, x, t), j)
  {
    hide RescheduleOne, Charge, DropTaskAt, HeldShrinks;
    ShrinksSame(s, ip, x, 1, j);
    if Counts(s, ip, x) {
      var c := Charge(s, ip, x, 1);
      var s1 := RescheduleOne(c, x, {t});
      RoundShrinks(c, x, {t}, j);
      TaskOffShrinks(s1, ip, x, t, j);
      ShrinksOn(s, c, s1, j);
      ShrinksOn(s, s1, DropTaskAt(s1, ip, x, t), j);
    }
  }

  lemma FailSendShrinks(s: State, ip: IP, b: WorkerJob, j: JobId)
    ensures HeldShrinks(s, FailSend(s, ip, b), j)
  {
    hide RescheduleFrom, Charge, DropFirstAt, HeldShrinks, WorkerJob.Total;
    var x := b.FirstJob();
    if Counts(s, ip, x) {
      var c := Charge(s, ip, x, b.Total());
      ShrinksSame(s, ip, x, b.Total(), j);
      RoundsShrink(c, b, Ascending(b.jobs.Keys), j);
      FirstOffShrinks(Reschedule(c, b), ip, j);
      ShrinksOn(s, c, Reschedule(c, b), j);
      ShrinksOn(s, Reschedule(c, b), FailSend(s, ip, b), j);
    } else {
      ShrinksSame(s, ip, 0, 0, j);
    }
  }

  lemma TaskOffShrinks(s: State, ip: IP, x: JobId, t: TaskId, j: JobId)
    ensures HeldShrinks(s, DropTaskAt(s, ip, x, t), j)
  {
    if ip in s.nodes {
      DeleteTaskLess(s.nodes[ip].worker.job, x, t, j);
    }
  }

  lemma FirstOffShrinks(s: State, ip: IP, j: JobId)
    ensures HeldShrinks(s, DropFirstAt(s, ip), j)
  {
    hide WorkerJob.FirstJob, WorkerJob.DeleteJob;
    if ip in s.nodes && s.nodes[ip].worker.job.FirstJob() >= 0 {
      DeleteTaskLess(s.nodes[ip].worker.job, s.nodes[ip].worker.job.FirstJob(), 0, j);
    }
  }

  lemma SucceedShrinks(s: State, ip: IP, x: JobId, t: TaskId, j: JobId)
    ensures HeldShrinks(s, SucceedTask(s, ip, x, t), j)
  {
    hide DecrementExecution, WorkerJob.DeleteTask;
    if !(x !in s.jobs || ip !in s.nodes || !s.nodes[ip].worker.job.HasTask(x, t)) {
      var n := s.nodes[ip];
      var n1 := Node(n.worker.(job := n.worker.job.DeleteTask(x, t)), n.busy - 1);
      DecrementNodes(SetNode(s, ip, n1).(running := s.running[x := Running(s, x) - 1]), x, 1);
      DeleteTaskLess(n.worker.job, x, t, j);
    }
  }

  lemma StopShrinks(s: State, x: JobId, j: JobId)
    ensures HeldShrinks(s, StopJob(s, x), j)
  {
    hide WithoutJob, Without, AsInt32;
  }

  lemma OtherShrinks(s: State, e: Event, j: JobId)
    requires (e.HostAppeared? && Genuine(s, e.ip, e.worker)) || e.WorkerUpdated? || e.JobPlanned?
    ensures HeldShrinks(s, Next(s, e), j)
  {
    hide Inserted, Below;
  }

  /** No step but a request gives a worker a task, whatever is reported. */
  lemma StepShrinks(r: Trace, e: Event, j: JobId)
    requires Possible(r, e) && !e.TaskRequested?
    ensures HeldShrinks(r.s, Next(r.s, e), j)
  {
    hide HeldShrinks, HeldAt, ChangeWorkerState, DeleteNode, FailSend, FailTask, SucceedTask, StopJob, AppearHost, UpdateWorker,
         PlanJob;
    match e
    case WorkerStateChanged(ip) => VacateShrinks(r.s, ip, j);
    case NodeDeleted(ip) => VacateShrinks(r.s, ip, j);
    case SendFailed(ip, b) => FailSendShrinks(r.s, ip, b, j);
    case TaskFailed(ip, x, t) => FailTaskShrinks(r.s, ip, x, t, j);
    case TaskTimedOut(ip, x, t) =>
      FailTaskShrinks(r.s, ip, x, t, j);
      ShrinksSame(r.s, ip, x, 0, j);
    case TaskSucceeded(ip, x, t) => SucceedShrinks(r.s, ip, x, t, j);
    case JobStopped(x) => StopShrinks(r.s, x, j);
    case _ => OtherShrinks(r.s, e, j);
  }

  lemma AbsentStep(r: Trace, e: Event, j: JobId)
    requires Base(r.s, r.known, {}) && Possible(r, e) && j in r.known && Absent(r.s, j)
    ensures Absent(Advance(r, e).s, j)
  {
    hide Base, Alive, WaitsLess, HeldShrinks, Next;
    if e.TaskRequested? {
      RequestIsNext(r.s, e.order);
      RequestAbsent(r.s, e.order, j);
    } else {
      GoneStaysGone(r, e, j);
      StepWaits(r, e, j);
      StepShrinks(r, e, j);
      StaysAbsent(r.s, Next(r.s, e), j);
    }
  }

  lemma {:induction false} AbsentForever(r: Trace, es: seq<Event>, j: JobId)
    requires Base(r.s, r.known, {}) && PossibleRun(r, es) && j in r.known && Absent(r.s, j)
    ensures j in After(r, es).known && Absent(After(r, es).s, j)
    decreases |es|
  {
    hide Base, Advance, Possible, Absent;
    if es != [] {
      var p := es[..|es| - 1];
      AbsentForever(r, p, j);
      RunKeeps(r, p);
      StaysKnown(After(r, p), es[|es| - 1]);
      AbsentStep(After(r, p), es[|es| - 1], j);
    }
  }

  /** In every run, a job taken to its failed-node limit is gone with all its tasks after that step and
      ever after. */
  lemma PurgedForGood(es: seq<Event>, e: Event, more: seq<Event>, j: JobId)
    requires PossibleRun(Boot, es) && Possible(After(Boot, es), e)
    requires TakesToLimit(After(Boot, es).s, e, j) && PossibleRun(Advance(After(Boot, es), e), more)
    ensures Absent(After(Advance(After(Boot, es), e), more).s, j)
  {
    hide Base, Possible, Absent, TakesToLimit, Next, After;
    var r := After(Boot, es);
    BootIsSafe();
    RunKeeps(Boot, es);
    AdvanceKeeps(r, e);
    LimitScheduled(r.s, e, j);
    JobKnown(r.s, r.known, j);
    StaysKnown(r, e);
    LimitPurges(r.s, e, j);
    AbsentForever(Advance(r, e), more, j);
  }

  lemma LimitScheduled(s: State, e: Event, j: JobId)
    requires TakesToLimit(s, e, j)
    ensures j in s.jobs
  {
  }
}
