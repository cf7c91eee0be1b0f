/** A settled task is settled for good: along a lawful run each task of a job is credited or dropped at
    most once (src/master/scheduler.cpp:181-228, 436-528). */
module Credits {
  import opened Ordering
  import opened WorkerJobs
  import opened SchedulerState
  import opened BatchSelection
  import opened BatchFacts
  import opened BatchTasks
  import opened SchedulerSteps
  import opened Safety
  import opened Rows
  import opened Conservation
  import opened FailureReports
  import opened FailedSends
  import opened CpuAccounting
  import opened SchedulerRuns
  import opened RunProperties
  import opened JobRuns

  ghost function HeldTasks(nodes: map<IP, Node>, j: JobId): set<TaskId> {
    AllHeld(HeldOf(nodes, j))
  }

  /** The tasks of job `j` that some table still knows. */
  ghost function Alive(s: State, j: JobId): set<TaskId> {
    PendingIn(s.toSend, j) + ReschedOf(s.resched, j) + HeldTasks(s.nodes, j)
  }

  lemma HeldTasksAt(nodes: map<IP, Node>, j: JobId, t: TaskId)
    ensures t in HeldTasks(nodes, j) <==> exists ip :: t in HeldAt(nodes, ip, j)
  {
    if t in HeldTasks(nodes, j) {
      var ip :| ip in HeldOf(nodes, j) && t in HeldOf(nodes, j)[ip];
      assert t in HeldAt(nodes, ip, j);
    }
    if ip :| t in HeldAt(nodes, ip, j) {
      assert ip in HeldOf(nodes, j) && t in HeldOf(nodes, j)[ip];
    }
  }

  lemma HeldLess(nodes: map<IP, Node>, nodes1: map<IP, Node>, j: JobId)
    requires forall ip :: HeldAt(nodes1, ip, j) <= HeldAt(nodes, ip, j)
    ensures HeldTasks(nodes1, j) <= HeldTasks(nodes, j)
  {
    hide HeldAt, HeldTasks;
    forall t | t in HeldTasks(nodes1, j) ensures t in HeldTasks(nodes, j) {
      HeldTasksAt(nodes1, j, t);
      HeldTasksAt(nodes, j, t);
    }
  }

  /** From `s` to `s1` no task of job `j` starts to wait, except those in `more`. */
  ghost predicate WaitsLess(s: State, s1: State, j: JobId, more: set<TaskId>) {
    && PendingIn(s1.toSend, j) <= PendingIn(s.toSend, j)
    && ReschedOf(s1.resched, j) <= ReschedOf(s.resched, j) + more
  }

  lemma StoppedWaits(s: State, x: JobId, j: JobId)
    ensures WaitsLess(s, RemoveJob(StopWorkers(s, x), x), j, {})
  {
    hide Without, AsInt32, DropFromNode;
  }

  /** The tasks `ts` of job `j`, if they are put on the reschedule list and not dropped. */
  ghost function Relist(s: State, j: JobId, ts: set<TaskId>): set<TaskId> {
    if j in s.jobs && !s.jobs[j].noReschedule then ts else {}
  }

  lemma RescheduleOneWaits(s: State, x: JobId, ts: set<TaskId>, j: JobId)
    ensures WaitsLess(s, RescheduleOne(s, x, ts), j, if x == j then Relist(s, j, ts) else {})
  {
    hide Ascending, LimitReached, StopWorkers, RemoveJob, TaskList, DecrementExecution, ReschedOf;
    if x in s.jobs {
      if LimitReached(s, x) {
        StoppedWaits(s.(running := s.running[x := Running(s, x) - |ts|]), x, j);
      } else if s.jobs[x].noReschedule {
        DecrementWaits(s, x, ts);
      } else {
        ReschedOfAppended(s.resched, x, ts, j);
      }
    }
  }

  lemma RescheduleOneJobs(s: State, x: JobId, ts: set<TaskId>, j: JobId)
    requires j in RescheduleOne(s, x, ts).jobs
    ensures j in s.jobs && RescheduleOne(s, x, ts).jobs[j] == s.jobs[j]
  {
    hide Ascending, LimitReached, TaskList, RemoveJob, StopWorkers, DecrementExecution;
    if x in s.jobs {
      var s1 := s.(running := s.running[x := Running(s, x) - |ts|]);
      DecrementCases(s1, x, |ts|);
      RemovedJobs(s1, x);
      RemovedJobs(StopWorkers(s1, x), x);
      StoppedJobs(s1, x);
    }
  }

  lemma RemovedJobs(s: State, x: JobId)
    ensures RemoveJob(s, x).jobs == s.jobs - {x}
  {
    hide Without, AsInt32;
  }

  lemma StoppedJobs(s: State, x: JobId)
    ensures StopWorkers(s, x).jobs == s.jobs
  {
    hide WithoutJob, DropFromNode;
  }

  lemma {:induction false} RescheduleFromWaits(s: State, w: WorkerJob, ids: seq<JobId>, j: JobId)
    ensures WaitsLess(s, RescheduleFrom(s, w, ids), j, Relist(s, j, w.Tasks(j)))
    decreases |ids|
  {
    hide RescheduleOne, ReschedOf;
    if ids != [] {
      var s1 := RescheduleOne(s, ids[0], w.Tasks(ids[0]));
      RescheduleOneWaits(s, ids[0], w.Tasks(ids[0]), j);
      if j in s1.jobs {
        RescheduleOneJobs(s, ids[0], w.Tasks(ids[0]), j);
      }
      RescheduleFromWaits(s1, w, ids[1..], j);
    }
  }

  lemma HeldIsAlive(s: State, ip: IP, j: JobId)
    ensures HeldAt(s.nodes, ip, j) <= Alive(s, j)
  {
    hide HeldTasks, HeldAt;
    forall t | t in HeldAt(s.nodes, ip, j) ensures t in HeldTasks(s.nodes, j) {
      HeldTasksAt(s.nodes, j, t);
    }
  }

  lemma SameWaits(s: State, s1: State, j: JobId)
    requires s1.toSend == s.toSend && s1.resched == s.resched
    ensures WaitsLess(s, s1, j, {})
  {
  }

  lemma LimitWaits(s: State, x: JobId, ts: set<TaskId>, j: JobId)
    requires x in s.jobs && LimitReached(s, x)
    ensures WaitsLess(s, RescheduleOne(s, x, ts), j, {}) && x !in RescheduleOne(s, x, ts).jobs
  {
    hide LimitReached, StopWorkers, TaskList, Ascending, DecrementExecution, ReschedOf, Without, AsInt32;
    StoppedWaits(s.(running := s.running[x := Running(s, x) - |ts|]), x, j);
  }

  lemma FirstRound(s: State, w: WorkerJob)
    requires w.jobs.Keys != {}
    ensures var x := w.FirstJob();
            && x >= 0 && |Ascending(w.jobs.Keys)| > 0 && Ascending(w.jobs.Keys)[0] == x
            && Reschedule(s, w) ==
               RescheduleFrom(RescheduleOne(s, x, w.Tasks(x)), w, Ascending(w.jobs.Keys)[1..])
  {
    hide RescheduleOne;
    assert Ascending(w.jobs.Keys) == [Least(w.jobs.Keys)] + Ascending(w.jobs.Keys - {Least(w.jobs.Keys)});
  }

  lemma FirstAtLimitWaits(s: State, w: WorkerJob, j: JobId)
    requires w.jobs.Keys != {} && w.FirstJob() in s.jobs && LimitReached(s, w.FirstJob())
    ensures WaitsLess(s, Reschedule(s, w), j, if w.FirstJob() == j then {} else Relist(s, j, w.Tasks(j)))
  {
    hide ReschedOf, Reschedule, RescheduleFrom, RescheduleOne, LimitReached, Ascending, WorkerJob.FirstJob;
    var x := w.FirstJob();
    FirstRound(s, w);
    var s1 := RescheduleOne(s, x, w.Tasks(x));
    LimitWaits(s, x, w.Tasks(x), j);
    if j in s1.jobs {
      RescheduleOneJobs(s, x, w.Tasks(x), j);
    }
    RescheduleFromWaits(s1, w, Ascending(w.jobs.Keys)[1..], j);
  }

  lemma FailSendWaits(s: State, ip: IP, b: WorkerJob, j: JobId)
    ensures WaitsLess(s, FailSend(s, ip, b), j, Relist(s, j, Returned(s, SendFailed(ip, b), j)))
  {
    hide ReschedOf, WorkerJob.Total, Reschedule, DropFirstJob, HitsLimit, LimitReached, HeldAt;
    var x := b.FirstJob();
    if Counts(s, ip, x) {
      var c := Charge(s, ip, x, b.Total());
      AtLimit(s, ip, x, b.Total());
      if HitsLimit(s, x) {
        FirstAtLimitWaits(c, b, j);
      } else {
        RescheduleAllWaits(c, b, j);
      }
    }
  }

  lemma RescheduleAllWaits(s: State, w: WorkerJob, j: JobId)
    ensures WaitsLess(s, Reschedule(s, w), j, Relist(s, j, w.Tasks(j)))
  {
    hide RescheduleFrom, ReschedOf;
    RescheduleFromWaits(s, w, Ascending(w.jobs.Keys), j);
  }

  lemma AtLimit(s: State, ip: IP, x: JobId, n: int)
    requires Counts(s, ip, x)
    ensures x in Charge(s, ip, x, n).jobs && LimitReached(Charge(s, ip, x, n), x) == HitsLimit(s, x)
  {
  }

  lemma DecrementWaits(s: State, x: JobId, ts: set<TaskId>)
    requires x in s.jobs && !LimitReached(s, x) && s.jobs[x].noReschedule
    ensures RescheduleOne(s, x, ts).toSend == s.toSend && RescheduleOne(s, x, ts).resched == s.resched
  {
    hide LimitReached, Without, AsInt32;
  }

  lemma FailTaskWaits(s: State, ip: IP, x: JobId, t: TaskId, j: JobId)
    ensures WaitsLess(s, FailTask(s, ip, x, t), j, Relist(s, j, Returned(s, TaskFailed(ip, x, t), j)))
  {
    hide ReschedOf, RescheduleOne, HitsLimit, LimitReached;
    if Counts(s, ip, x) {
      var c := Charge(s, ip, x, 1);
      AtLimit(s, ip, x, 1);
      if HitsLimit(s, x) {
        LimitWaits(c, x, {t}, j);
      } else {
        RescheduleOneWaits(c, x, {t}, j);
      }
    }
  }

  lemma StopJobWaits(s: State, x: JobId, j: JobId)
    ensures WaitsLess(s, StopJob(s, x), j, {})
  {
    StoppedWaits(s, x, j);
    hide StopWorkers, RemoveJob, ReschedOf;
  }

  lemma VacateWaits(s: State, ip: IP, j: JobId)
    ensures WaitsLess(s, ChangeWorkerState(s, ip), j, Relist(s, j, HeldAt(s.nodes, ip, j)))
    ensures WaitsLess(s, DeleteNode(s, ip), j, Relist(s, j, HeldAt(s.nodes, ip, j)))
  {
    hide RescheduleFrom, ReschedOf;
    if ip in s.nodes {
      var n := s.nodes[ip];
      var w := n.worker.job;
      var s1 := AddFailedAll(s, w, ip);
      RescheduleFromWaits(SetNode(s1, ip, Node(n.worker.(job := Empty), 0)), w, Ascending(w.jobs.Keys), j);
      RescheduleFromWaits(s1.(nodes := s.nodes - {ip}), w, Ascending(w.jobs.Keys), j);
    }
  }

  function Host(e: Event): IP {
    if e.JobPlanned? || e.TaskRequested? || e.JobStopped? then "" else e.ip
  }

  /** The tasks of job `j` that the step gives back to the scheduler: what a lost or deleted node
      held, or what a report names, unless the report takes the job to its failed-node limit. */
  function Returned(s: State, e: Event, j: JobId): set<TaskId> {
    match e
    case WorkerStateChanged(ip) => HeldAt(s.nodes, ip, j)
    case NodeDeleted(ip) => HeldAt(s.nodes, ip, j)
    case SendFailed(ip, b) =>
      if Counts(s, ip, b.FirstJob()) && !(b.FirstJob() == j && HitsLimit(s, j)) then b.Tasks(j) else {}
    case TaskFailed(ip, x, t) => if x == j && Counts(s, ip, j) && !HitsLimit(s, j) then {t} else {}
    case TaskTimedOut(ip, x, t) =>
      if x == j && Counts(s, ip, j) && !HitsLimit(s, j) && s.nodes[ip].worker.job.HasTask(j, t) then {t} else {}
    case _ => {}
  }

  /** In every step but a request, whatever is reported, only the returned tasks of a job that is
      rescheduled start to wait. */
  lemma StepWaits(r: Trace, e: Event, j: JobId)
    requires Possible(r, e) && !e.TaskRequested? && (j in r.known || !(e.JobPlanned? && e.job.id == j))
    ensures WaitsLess(r.s, Next(r.s, e), j, Relist(r.s, j, Returned(r.s, e, j)))
  {
    hide ReschedOf, ChangeWorkerState, DeleteNode, FailSend, FailTask, StopJob, HeldAt, WorkerJob.Total,
         WorkerJob.FirstJob, HitsLimit, SucceedTask, PlanJob, AppearHost, UpdateWorker;
    var s := r.s;
    match e
    case WorkerStateChanged(ip) => VacateWaits(s, ip, j);
    case NodeDeleted(ip) => VacateWaits(s, ip, j);
    case SendFailed(ip, b) => FailSendWaits(s, ip, b, j);
    case TaskFailed(ip, x, t) => FailTaskWaits(s, ip, x, t, j);
    case TaskTimedOut(ip, x, t) =>
      if ip in s.nodes && s.nodes[ip].worker.job.HasTask(x, t) {
        FailTaskWaits(s, ip, x, t, j);
      }
    case JobStopped(x) => StopJobWaits(s, x, j);
    case TaskSucceeded(ip, x, t) => SucceedWaits(s, ip, x, t, j);
    case _ => PlanWaits(r, e, j);
  }

  /** A lawful step gives back only what the worker holds, as far as it is put on the list. */
  lemma LawfulReturns(s: State, e: Event, j: JobId)
    requires Lawful(s, e) && OneJobBatch(e)
    ensures Relist(s, j, Returned(s, e, j)) <= HeldAt(s.nodes, Host(e), j)
  {
    hide HitsLimit;
  }

  lemma PlanWaits(r: Trace, e: Event, j: JobId)
    requires Possible(r, e) && (e.HostAppeared? || e.WorkerUpdated? || e.JobPlanned?)
    requires j in r.known || !(e.JobPlanned? && e.job.id == j)
    ensures WaitsLess(r.s, Next(r.s, e), j, {})
  {
    hide ReschedOf, Inserted, Below;
  }

  lemma SucceedWaits(s: State, ip: IP, x: JobId, t: TaskId, j: JobId)
    ensures WaitsLess(s, SucceedTask(s, ip, x, t), j, {})
  {
    hide Without, AsInt32, WorkerJob.DeleteTask;
    SameWaits(s, SucceedTask(s, ip, x, t), j);
  }

  // ---- requests ----

  lemma RequestTakes(s: State, order: seq<IP>)
    requires Conserved(s, map[])
    ensures Request(s, order).0.Batch? ==> Takes(s, Request(s, order).0.tasks, Request(s, order).1)
  {
    RequestCases(s, order);
    hide Plan, Request, Conserved, WaitingOnce;
    match Request(s, order).0
    case NoTask =>
    case Batch(ip, b) =>
      WaitingOnceHolds(s);
      PlanTakes(s, ip, s.nodes[ip].FreeCPU());
  }

  lemma RequestHolds(s: State, order: seq<IP>, j: JobId)
    ensures match Request(s, order).0
            case NoTask => Request(s, order).1 == s
            case Batch(ip, b) =>
              forall x :: HeldAt(Request(s, order).1.nodes, x, j) <= HeldAt(s.nodes, x, j) + b.Tasks(j)
  {
    hide Request;
    RequestFacts(s, order);
  }

  lemma RequestAlive(s: State, order: seq<IP>, j: JobId)
    requires Conserved(s, map[])
    ensures Alive(Request(s, order).1, j) <= Alive(s, j)
  {
    hide Request, Conserved, ReschedOf, HeldTasks, HeldAt, Takes;
    RequestTakes(s, order);
    RequestHolds(s, order, j);
    match Request(s, order).0
    case NoTask =>
    case Batch(ip, b) =>
      var s1 := Request(s, order).1;
      TakesAt(s, b, s1, j);
      forall t | t in HeldTasks(s1.nodes, j) ensures t in Alive(s, j) {
        HeldTasksAt(s1.nodes, j, t);
        var x :| t in HeldAt(s1.nodes, x, j);
        HeldTasksAt(s.nodes, j, t);
      }
  }

  /** In a lawful step no task of a planned job comes back to life. */
  lemma AliveStep(r: Trace, e: Event, j: JobId)
    requires Base(r.s, r.known, {}) && Conserved(r.s, map[]) && Possible(r, e) && Lawful(r.s, e) && OneJobBatch(e)
    requires j in r.known && j in Advance(r, e).s.jobs
    ensures Alive(Advance(r, e).s, j) <= Alive(r.s, j)
  {
    hide Base, Conserved, Next, Lawful, OneJobBatch, Request, HeldAt, HeldTasks, ReschedOf;
    var s1 := Next(r.s, e);
    if e.TaskRequested? {
      RequestIsNext(r.s, e.order);
      RequestAlive(r.s, e.order, j);
    } else {
      HeldStep(r, e, j);
      HeldLess(r.s.nodes, s1.nodes, j);
      StepWaits(r, e, j);
      LawfulReturns(r.s, e, j);
      HeldIsAlive(r.s, Host(e), j);
    }
  }

  lemma RequestIsNext(s: State, order: seq<IP>)
    ensures Next(s, TaskRequested(order)) == Request(s, order).1
  {
  }

  lemma HeldStep(r: Trace, e: Event, j: JobId)
    requires Base(r.s, r.known, {}) && Possible(r, e) && !e.TaskRequested?
    requires j in r.known && j in Next(r.s, e).jobs
    ensures forall x :: HeldAt(Next(r.s, e).nodes, x, j) <= HeldAt(r.s.nodes, x, j)
  {
    hide Base, Request;
    if e.HostAppeared? {
      AppearWanes(r.s, e.ip, e.worker, j);
    } else {
      hide Next;
      StepWanes(r, e, j);
    }
  }

  // ---- credits ----

  predicate GivesCredit(s: State, e: Event, j: JobId, t: TaskId) {
    && e.TaskSucceeded? && e.jobId == j && e.task == t
    && j in s.jobs && e.ip in s.nodes && s.nodes[e.ip].worker.job.HasTask(j, t)
  }

  lemma CreditEnds(s: State, ip: IP, j: JobId, t: TaskId)
    requires Conserved(s, map[]) && GivesCredit(s, TaskSucceeded(ip, j, t), j, t)
    ensures t in Alive(s, j)
    ensures t !in Alive(SucceedTask(s, ip, j, t), j)
  {
    hide Conserved, HeldTasks, ReschedOf;
    RowAt(s, map[], j);
    HeldIsAlive(s, ip, j);
    var s1 := SucceedTask(s, ip, j, t);
    SucceedWaits(s, ip, j, t, j);
    HeldOnceAt(s, j, ip, t);
    forall x ensures t !in HeldAt(s1.nodes, x, j) {
      SucceedHolds(s, ip, j, t, x);
    }
    HeldTasksAt(s1.nodes, j, t);
  }

  lemma SucceedHolds(s: State, ip: IP, j: JobId, t: TaskId, x: IP)
    requires GivesCredit(s, TaskSucceeded(ip, j, t), j, t)
    ensures HeldAt(SucceedTask(s, ip, j, t).nodes, x, j) == HeldAt(s.nodes, x, j) - (if x == ip then {t} else {})
  {
    hide Without, AsInt32;
  }

  lemma HeldOnceAt(s: State, j: JobId, ip: IP, t: TaskId)
    requires j in s.jobs && RowOk(RowOf(s, {}, j)) && t in HeldAt(s.nodes, ip, j)
    ensures t !in PendingIn(s.toSend, j) && t !in ReschedOf(s.resched, j)
    ensures forall x | x != ip :: t !in HeldAt(s.nodes, x, j)
  {
    hide ReschedOf, PendingIn, Unfinished, Size;
    var h := HeldOf(s.nodes, j);
    assert t in h[ip] && h[ip] <= AllHeld(h);
    forall x | x != ip ensures t !in HeldAt(s.nodes, x, j) {
      assert x in h ==> h[x] !! h[ip];
    }
  }

  // ---- dropped tasks ----

  /** The tasks of job `j` that the step takes off a worker, or that it names, without a success. */
  function TakenOff(s: State, e: Event, j: JobId): set<TaskId> {
    match e
    case WorkerStateChanged(ip) =>
      if ip in s.nodes && s.nodes[ip].worker.state == NotAvailable && s.nodes[ip].busy >= 1
      then HeldAt(s.nodes, ip, j) else {}
    case NodeDeleted(ip) => HeldAt(s.nodes, ip, j)
    case SendFailed(ip, b) =>
      if b.FirstJob() == j && Counts(s, ip, j) && !HitsLimit(s, j) && s.nodes[ip].worker.job.FirstJob() == j
      then HeldAt(s.nodes, ip, j) else {}
    case _ => Returned(s, e, j)
  }

  /** The tasks that the step drops: job `j` is never rescheduled, so their executions are written
      off.  A report that takes the job to its failed-node limit drops nothing; the job is purged. */
  function Drops(s: State, e: Event, j: JobId): set<TaskId> {
    if j in s.jobs && s.jobs[j].noReschedule then TakenOff(s, e, j) else {}
  }

  lemma LawfulDropsHeld(s: State, e: Event, j: JobId)
    requires Lawful(s, e)
    ensures Drops(s, e, j) <= HeldAt(s.nodes, Host(e), j)
  {
    hide HitsLimit, WorkerJob.FirstJob;
  }

  lemma VacatedHolds(s: State, known: Registry, ip: IP, j: JobId)
    requires Base(s, known, {}) && j in s.jobs
    ensures j in ChangeWorkerState(s, ip).jobs && ip in s.nodes
            && s.nodes[ip].worker.state == NotAvailable && s.nodes[ip].busy >= 1 ==>
              HeldAt(ChangeWorkerState(s, ip).nodes, ip, j) == {}
    ensures j in DeleteNode(s, ip).jobs ==> HeldAt(DeleteNode(s, ip).nodes, ip, j) == {}
  {
    hide Base, RescheduleFrom;
    if ip in s.nodes {
      var n := s.nodes[ip];
      RescheduleFromTables(SetNode(AddFailedAll(s, n.worker.job, ip), ip, Node(n.worker.(job := Empty), 0)),
                           n.worker.job, Ascending(n.worker.job.jobs.Keys), ip, j);
      RescheduleFromTables(AddFailedAll(s, n.worker.job, ip).(nodes := s.nodes - {ip}),
                           n.worker.job, Ascending(n.worker.job.jobs.Keys), ip, j);
    }
  }

  /** Rescheduling gives no worker a task. */
  lemma {:induction false} RescheduleFromTables(s: State, w: WorkerJob, ids: seq<JobId>, ip: IP, j: JobId)
    ensures HeldAt(RescheduleFrom(s, w, ids).nodes, ip, j) <= HeldAt(s.nodes, ip, j)
    decreases |ids|
  {
    hide RescheduleOne, HeldAt;
    if ids != [] {
      RescheduleOneTables(s, ids[0], w.Tasks(ids[0]), ip, j);
      RescheduleFromTables(RescheduleOne(s, ids[0], w.Tasks(ids[0])), w, ids[1..], ip, j);
    }
  }

  lemma RescheduleOneTables(s: State, x: JobId, ts: set<TaskId>, ip: IP, j: JobId)
    ensures HeldAt(RescheduleOne(s, x, ts).nodes, ip, j) <= HeldAt(s.nodes, ip, j)
  {
    hide RescheduleOne, LimitReached;
    RescheduleOneNodes(s, x, ts);
  }

  lemma FailedHolds(s: State, ip: IP, j: JobId, t: TaskId)
    requires Counts(s, ip, j) && !HitsLimit(s, j)
    ensures t !in HeldAt(FailTask(s, ip, j, t).nodes, ip, j)
  {
    hide RescheduleOne, HitsLimit, FailTask;
    FailTaskBelowLimit(s, ip, j, t);
    RescheduleOneTables(TaskOff(s, ip, j, t), j, {t}, ip, j);
  }

  lemma UnsentHolds(s: State, ip: IP, b: WorkerJob, j: JobId)
    requires Counts(s, ip, j) && !HitsLimit(s, j) && b.jobs.Keys == {j} && s.nodes[ip].worker.job.FirstJob() == j
    ensures HeldAt(FailSend(s, ip, b).nodes, ip, j) == {}
  {
    hide RescheduleOne, HitsLimit, FailSend, WorkerJob.FirstJob;
    FailSendBelowLimit(s, ip, b, j);
    RescheduleOneTables(JobOff(s, ip, j, |b.Tasks(j)|), j, b.Tasks(j), ip, j);
  }

  lemma DropsOff(r: Trace, e: Event, j: JobId, t: TaskId)
    requires Base(r.s, r.known, {}) && OneJobBatch(e) && t in Drops(r.s, e, j) && j in Next(r.s, e).jobs
    ensures t !in HeldAt(Next(r.s, e).nodes, Host(e), j)
  {
    hide Base, ChangeWorkerState, DeleteNode, FailSend, FailTask, HitsLimit, WorkerJob.FirstJob;
    match e
    case WorkerStateChanged(ip) => VacatedHolds(r.s, r.known, ip, j);
    case NodeDeleted(ip) => VacatedHolds(r.s, r.known, ip, j);
    case SendFailed(ip, b) =>
      SingleKey(b, Least(b.jobs.Keys));
      UnsentHolds(r.s, ip, b, j);
    case TaskFailed(ip, x, u) => FailedHolds(r.s, ip, j, t);
    case TaskTimedOut(ip, x, u) => FailedHolds(r.s, ip, j, t);
    case _ => assert false;
  }

  // ---- settled tasks ----

  /** The tasks of job `j` that the step settles: credited or dropped. */
  ghost function Settles(s: State, e: Event, j: JobId): set<TaskId> {
    Drops(s, e, j) + (if e.TaskSucceeded? && GivesCredit(s, e, j, e.task) then {e.task} else {})
  }

  lemma SettlesHeld(s: State, e: Event, j: JobId)
    requires Lawful(s, e)
    ensures Settles(s, e, j) <= HeldAt(s.nodes, Host(e), j)
  {
    hide Lawful, Drops;
    LawfulDropsHeld(s, e, j);
  }

  /** A task that a lawful step settles is in no table afterwards, as long as the job is scheduled. */
  lemma SettlesEnds(r: Trace, e: Event, j: JobId, t: TaskId)
    requires Base(r.s, r.known, {}) && Conserved(r.s, map[]) && Possible(r, e) && Lawful(r.s, e) && OneJobBatch(e)
    requires t in Settles(r.s, e, j) && j in Advance(r, e).s.jobs
    ensures t !in Alive(Advance(r, e).s, j)
  {
    hide Base, Conserved, Lawful, OneJobBatch, Drops, SucceedTask, HeldTasks, ReschedOf, HeldAt, Returned;
    if t in Drops(r.s, e, j) {
      hide Next;
      DropsScheduled(r.s, e, j, t);
      JobKnown(r.s, r.known, j);
      LawfulDropsHeld(r.s, e, j);
      RowAt(r.s, map[], j);
      HeldOnceAt(r.s, j, Host(e), t);
      DropsOff(r, e, j, t);
      HeldStep(r, e, j);
      StepWaits(r, e, j);
      HeldTasksAt(Next(r.s, e).nodes, j, t);
    } else {
      CreditEnds(r.s, e.ip, j, t);
    }
  }

  lemma DropsScheduled(s: State, e: Event, j: JobId, t: TaskId)
    requires t in Drops(s, e, j)
    ensures j in s.jobs && s.jobs[j].noReschedule && !e.TaskRequested?
  {
  }

  function CreditCount(r: Trace, es: seq<Event>, j: JobId, t: TaskId): nat {
    if es == [] then 0 else
      var p := es[..|es| - 1];
      CreditCount(r, p, j, t) + if GivesCredit(After(r, p).s, es[|es| - 1], j, t) then 1 else 0
  }

  function DropCount(r: Trace, es: seq<Event>, j: JobId, t: TaskId): nat {
    if es == [] then 0 else
      var p := es[..|es| - 1];
      DropCount(r, p, j, t) + if t in Drops(After(r, p).s, es[|es| - 1], j) then 1 else 0
  }

  /** How often task `t` of job `j` was credited or dropped. */
  function SettleCount(r: Trace, es: seq<Event>, j: JobId, t: TaskId): nat {
    CreditCount(r, es, j, t) + DropCount(r, es, j, t)
  }

  lemma SettleCountStep(r: Trace, es: seq<Event>, j: JobId, t: TaskId)
    requires es != []
    ensures var p := es[..|es| - 1];
            SettleCount(r, es, j, t) ==
            SettleCount(r, p, j, t) + if t in Settles(After(r, p).s, es[|es| - 1], j) then 1 else 0
  {
    hide After, HeldAt, HitsLimit, Counts;
  }

  /** A settled task is known to no table any more. */
  ghost predicate Settled(r: Trace, es: seq<Event>, j: JobId, t: TaskId) {
    && SettleCount(r, es, j, t) <= 1
    && (SettleCount(r, es, j, t) == 1 ==>
          j in After(r, es).known && (j in After(r, es).s.jobs ==> t !in Alive(After(r, es).s, j)))
  }

  lemma SettleStep(r: Trace, e: Event, j: JobId, t: TaskId)
    requires Base(r.s, r.known, {}) && Conserved(r.s, map[]) && Possible(r, e) && Lawful(r.s, e) && OneJobBatch(e)
    ensures j in r.known && (j in r.s.jobs ==> t !in Alive(r.s, j)) ==>
              t !in Settles(r.s, e, j) && (j in Advance(r, e).s.jobs ==> t !in Alive(Advance(r, e).s, j))
    ensures t in Settles(r.s, e, j) ==>
              j in r.known && (j in Advance(r, e).s.jobs ==> t !in Alive(Advance(r, e).s, j))
  {
    hide Base, Conserved, Lawful, OneJobBatch, Alive, Next, Settles;
    if t in Settles(r.s, e, j) {
      SettlesScheduled(r.s, e, j, t);
      JobKnown(r.s, r.known, j);
      SettlesHeld(r.s, e, j);
      HeldIsAlive(r.s, Host(e), j);
      if j in Advance(r, e).s.jobs {
        SettlesEnds(r, e, j, t);
      }
    } else if j in r.known && j in Advance(r, e).s.jobs {
      if j in r.s.jobs {
        AliveStep(r, e, j);
      } else {
        GoneStaysGone(r, e, j);
      }
    }
  }

  lemma SettlesScheduled(s: State, e: Event, j: JobId, t: TaskId)
    requires t in Settles(s, e, j)
    ensures j in s.jobs
  {
    hide TakenOff;
  }

  /** Over every lawful run from the start, each task of each job is credited or dropped at most once. */
  lemma {:induction false} SettledOnce(es: seq<Event>, j: JobId, t: TaskId)
    requires PossibleRun(Boot, es) && BatchRun(es) && LawfulRun(Boot, es)
    ensures CreditCount(Boot, es, j, t) + DropCount(Boot, es, j, t) <= 1
    ensures Settled(Boot, es, j, t)
    decreases |es|
  {
    hide Base, Advance, Possible, Lawful, OneJobBatch, Alive, Settles, Conserved, CreditCount, DropCount;
    if es == [] {
      NothingSettled(Boot, j, t);
    } else {
      var p, e := es[..|es| - 1], es[|es| - 1];
      SettledOnce(p, j, t);
      BootIsSafe();
      RunKeeps(Boot, p);
      LawfulRunConserves(p);
      StaysKnown(After(Boot, p), e);
      SettleStep(After(Boot, p), e, j, t);
      SettleCountStep(Boot, es, j, t);
    }
  }

  lemma NothingSettled(r: Trace, j: JobId, t: TaskId)
    ensures CreditCount(r, [], j, t) == 0 && DropCount(r, [], j, t) == 0
  {
  }
}
