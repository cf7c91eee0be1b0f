/** The cluster limit.  It is not looked at for the first batch of a job; this module says how large that
    batch is and proves exactly when a request, and when a run, stays within the limits
    (src/master/scheduler.cpp:281-386, 756-766). */
module ClusterLimits {
  import opened Ordering
  import opened WorkerJobs
  import opened SchedulerState
  import opened BatchSelection
  import opened BatchFacts
  import opened BatchTasks
  import opened SchedulerSteps
  import opened Safety
  import opened FailedSends
  import opened SchedulerRuns
  import opened BatchChoice
  import opened RunProperties
  import opened JobRuns
  import opened Credits
  import opened Purges

  // ---- a job without a running count has not been started ----

  /** No task of job `j` is on a worker or on the reschedule list. */
  ghost predicate Untouched(s: State, j: JobId) {
    ReschedOf(s.resched, j) == {} && forall ip :: HeldAt(s.nodes, ip, j) == {}
  }

  ghost predicate Unstarted(s: State, known: Registry) {
    && (forall j | j !in known :: ReschedOf(s.resched, j) == {})
    && (forall j | j in s.jobs && j !in s.running :: Untouched(s, j))
  }

  /** Job `j` keeps its running count, and a task of it starts to wait again only with one. */
  ghost predicate Starts(s: State, s1: State, j: JobId) {
    j in s1.jobs ==>
      && j in s.jobs && (j in s.running ==> j in s1.running)
      && (j in s1.running || WaitsLess(s, s1, j, {}))
  }

  lemma StartsOn(s: State, s1: State, s2: State, j: JobId)
    requires Starts(s, s1, j) && Starts(s1, s2, j)
    ensures Starts(s, s2, j)
  {
    hide ReschedOf;
  }

  lemma RunningRound(s: State, x: JobId, ts: set<TaskId>, j: JobId)
    requires j in RescheduleOne(s, x, ts).jobs
    ensures j in s.jobs
    ensures j in RescheduleOne(s, x, ts).running <==> j in s.running || x == j
  {
    hide LimitReached, TaskList, Ascending, StopWorkers, RemoveJob, DecrementExecution;
    if x in s.jobs {
      var s1 := s.(running := s.running[x := Running(s, x) - |ts|]);
      DecrementCases(s1, x, |ts|);
      RemoveRunning(s1, x);
      RemoveRunning(StopWorkers(s1, x), x);
      StopRunning(s1, x);
    }
  }

  lemma RemoveRunning(s: State, x: JobId)
    ensures RemoveJob(s, x).jobs == s.jobs - {x} && RemoveJob(s, x).running == s.running - {x}
  {
    hide Without, AsInt32;
  }

  lemma StopRunning(s: State, x: JobId)
    ensures StopWorkers(s, x).jobs == s.jobs && StopWorkers(s, x).running == s.running
  {
    hide WithoutJob, DropFromNode;
  }

  lemma RoundStarts(s: State, x: JobId, ts: set<TaskId>, j: JobId)
    ensures Starts(s, RescheduleOne(s, x, ts), j)
  {
    hide RescheduleOne, ReschedOf;
    if j in RescheduleOne(s, x, ts).jobs {
      RunningRound(s, x, ts, j);
      RescheduleOneWaits(s, x, ts, j);
    }
  }

  lemma SelfStarts(s: State, s1: State, j: JobId)
    requires s1.jobs == s.jobs && s1.running == s.running && s1.resched == s.resched && s1.toSend == s.toSend
    ensures Starts(s, s1, j)
  {
  }

  lemma {:induction false} RoundsStart(s: State, w: WorkerJob, ids: seq<JobId>, j: JobId)
    ensures Starts(s, RescheduleFrom(s, w, ids), j)
    decreases |ids|
  {
    hide RescheduleOne, Starts;
    if ids == [] {
      SelfStarts(s, s, j);
    } else {
      var s1 := RescheduleOne(s, ids[0], w.Tasks(ids[0]));
      RoundStarts(s, ids[0], w.Tasks(ids[0]), j);
      RoundsStart(s1, w, ids[1..], j);
      StartsOn(s, s1, RescheduleFrom(s1, w, ids[1..]), j);
    }
  }

  lemma VacateStarts(s: State, ip: IP, j: JobId)
    ensures Starts(s, ChangeWorkerState(s, ip), j) && Starts(s, DeleteNode(s, ip), j)
  {
    hide RescheduleFrom, Starts;
    SelfStarts(s, s, j);
    if ip in s.nodes {
      var n := s.nodes[ip];
      var w := n.worker.job;
      var a := SetNode(AddFailedAll(s, w, ip), ip, Node(n.worker.(job := Empty), 0));
      var b := AddFailedAll(s, w, ip).(nodes := s.nodes - {ip});
      SelfStarts(s, a, j);
      SelfStarts(s, b, j);
      RoundsStart(a, w, Ascending(w.jobs.Keys), j);
      RoundsStart(b, w, Ascending(w.jobs.Keys), j);
      StartsOn(s, a, Reschedule(a, w), j);
      StartsOn(s, b, Reschedule(b, w), j);
    }
  }

  lemma FailTaskStarts(s: State, ip: IP, x: JobId, t: TaskId, j: JobId)
    ensures Starts(s, FailTask(s, ip, x, t), j)
  {
    hide RescheduleOne, Starts;
    SelfStarts(s, s, j);
    if Counts(s, ip, x) {
      var c := Charge(s, ip, x, 1);
      var s1 := RescheduleOne(c, x, {t});
      SelfStarts(s, c, j);
      RoundStarts(c, x, {t}, j);
      SelfStarts(s1, DropTaskAt(s1, ip, x, t), j);
      StartsOn(s, c, s1, j);
      StartsOn(s, s1, FailTask(s, ip, x, t), j);
    }
  }

  lemma FailSendStarts(s: State, ip: IP, b: WorkerJob, j: JobId)
    ensures Starts(s, FailSend(s, ip, b), j)
  {
    hide RescheduleFrom, Starts, WorkerJob.Total, WorkerJob.FirstJob;
    SelfStarts(s, s, j);
    var x := b.FirstJob();
    if Counts(s, ip, x) {
      var c := Charge(s, ip, x, b.Total());
      var s1 := Reschedule(c, b);
      SelfStarts(s, c, j);
      RoundsStart(c, b, Ascending(b.jobs.Keys), j);
      SelfStarts(s1, DropFirstAt(s1, ip), j);
      StartsOn(s, c, s1, j);
      StartsOn(s, s1, FailSend(s, ip, b), j);
    }
  }

  lemma SucceedStarts(s: State, ip: IP, x: JobId, t: TaskId, j: JobId)
    ensures Starts(s, SucceedTask(s, ip, x, t), j)
  {
    SucceedWaits(s, ip, x, t, j);
    hide RemoveJob, DecrementExecution, WorkerJob.DeleteTask, ReschedOf;
    if !(x !in s.jobs || ip !in s.nodes || !s.nodes[ip].worker.job.HasTask(x, t)) {
      var n := s.nodes[ip];
      var n1 := Node(n.worker.(job := n.worker.job.DeleteTask(x, t)), n.busy - 1);
      var s2 := SetNode(s, ip, n1).(running := s.running[x := Running(s, x) - 1]);
      DecrementCases(s2, x, 1);
      RemoveRunning(s2, x);
    }
  }

  lemma StopStarts(s: State, x: JobId, j: JobId)
    ensures Starts(s, StopJob(s, x), j)
  {
    hide StopWorkers, RemoveJob, ReschedOf;
    StopJobWaits(s, x, j);
    RemoveRunning(StopWorkers(s, x), x);
    StopRunning(s, x);
  }

  lemma OtherStarts(s: State, e: Event, j: JobId)
    requires e.HostAppeared? || e.WorkerUpdated? || (e.JobPlanned? && e.job.id != j)
    ensures Starts(s, Next(s, e), j)
  {
    hide Inserted, Below, ReschedOf;
  }

  lemma StepStarts(r: Trace, e: Event, j: JobId)
    requires Possible(r, e) && !e.TaskRequested? && j in r.known
    ensures Starts(r.s, Next(r.s, e), j)
  {
    hide Starts, ChangeWorkerState, DeleteNode, FailSend, FailTask, SucceedTask, StopJob, AppearHost, UpdateWorker,
         PlanJob;
    match e
    case WorkerStateChanged(ip) => VacateStarts(r.s, ip, j);
    case NodeDeleted(ip) => VacateStarts(r.s, ip, j);
    case SendFailed(ip, b) => FailSendStarts(r.s, ip, b, j);
    case TaskFailed(ip, x, t) => FailTaskStarts(r.s, ip, x, t, j);
    case TaskTimedOut(ip, x, t) =>
      FailTaskStarts(r.s, ip, x, t, j);
      SelfStarts(r.s, r.s, j);
    case TaskSucceeded(ip, x, t) => SucceedStarts(r.s, ip, x, t, j);
    case JobStopped(x) => StopStarts(r.s, x, j);
    case _ => OtherStarts(r.s, e, j);
  }

  lemma RequestStarts(s: State, order: seq<IP>, j: JobId)
    requires j in s.jobs
    ensures var s1 := Request(s, order).1;
            && (j in s.running ==> j in s1.running)
            && (j in s1.running || (j !in s.running && WaitsLess(s, s1, j, {}) && HeldShrinks(s, s1, j)))
  {
    hide Request, WaitsLess;
    RequestFacts(s, order);
    RequestWaitsLess(s, order, j);
    var s1 := Request(s, order).1;
    match Request(s, order).0
    case NoTask =>
    case Batch(ip, b) =>
      var x :| BatchOk(s, ip, s.nodes[ip].FreeCPU(), b, x)
               && s1.running == s.running[x := Running(s, x) + |b.Tasks(x)|]
               && s1.nodes == s.nodes[ip := s1.nodes[ip]]
               && s1.nodes[ip].worker.job == s.nodes[ip].worker.job.Merge(b);
      if x != j {
        MergedElsewhere(s.nodes[ip].worker.job, b, x, j);
      }
  }

  lemma UntouchedStays(s: State, s1: State, j: JobId)
    requires Untouched(s, j) && WaitsLess(s, s1, j, {}) && HeldShrinks(s, s1, j)
    ensures Untouched(s1, j)
  {
    hide HeldAt, ReschedOf;
  }

  lemma KnownStep(r: Trace, e: Event, j: JobId)
    requires Base(r.s, r.known, {}) && Possible(r, e) && Unstarted(r.s, r.known)
    requires j in r.known && j in Advance(r, e).s.jobs && j !in Advance(r, e).s.running
    ensures Untouched(Advance(r, e).s, j)
  {
    hide Base, Next, Untouched, WaitsLess, HeldShrinks, ReschedOf;
    if j !in r.s.jobs {
      GoneStaysGone(r, e, j);
    }
    if e.TaskRequested? {
      RequestIsNext(r.s, e.order);
      RequestStarts(r.s, e.order, j);
    } else {
      StepStarts(r, e, j);
      StepShrinks(r, e, j);
    }
    UntouchedStays(r.s, Next(r.s, e), j);
  }

  lemma NewStep(r: Trace, e: Event, j: JobId)
    requires Base(r.s, r.known, {}) && Possible(r, e) && Unstarted(r.s, r.known)
    requires j !in r.known && j in Advance(r, e).s.jobs
    ensures Untouched(Advance(r, e).s, j)
  {
    hide Base, Next, ReschedOf;
    if e.JobPlanned? {
      PlannedTables(r.s, e.job, e.totalCPU, e.totalWorkers);
      forall ip ensures HeldAt(r.s.nodes, ip, j) == {} {
        UnknownHeld(r.s, r.known, ip, j);
      }
    } else {
      OnlyPlanningAdds(r, e, j);
      assert false;
    }
  }

  lemma PlannedTables(s: State, job: Job, cpus: int, workers: int)
    ensures var s1 := Next(s, JobPlanned(job, cpus, workers));
            s1.nodes == s.nodes && s1.resched == s.resched
  {
    hide Inserted, Below;
  }

  lemma UnknownHeld(s: State, known: Registry, ip: IP, j: JobId)
    requires Base(s, known, {}) && j !in known
    ensures HeldAt(s.nodes, ip, j) == {}
  {
    hide Base;
    if ip in s.nodes {
      WorkerAt(s, known, ip);
    }
  }

  lemma UnlistedStep(r: Trace, e: Event, j: JobId)
    requires Base(r.s, r.known, {}) && Possible(r, e) && Unstarted(r.s, r.known) && j !in Advance(r, e).known
    ensures ReschedOf(Advance(r, e).s.resched, j) == {}
  {
    hide Base, ReschedOf, Untouched;
    if e.TaskRequested? {
      RequestWaitsLess(r.s, e.order, j);
    } else {
      NotScheduled(r.s, r.known, j);
      hide Next;
      PlannedIsKnown(r, e);
      StepWaits(r, e, j);
    }
  }

  lemma PlannedIsKnown(r: Trace, e: Event)
    ensures e.JobPlanned? ==> e.job.id in Advance(r, e).known
    ensures r.known.Keys <= Advance(r, e).known.Keys
  {
    hide Inserted, Below, Request;
  }

  lemma UnstartedStep(r: Trace, e: Event)
    requires Base(r.s, r.known, {}) && Possible(r, e) && Unstarted(r.s, r.known)
    ensures Unstarted(Advance(r, e).s, Advance(r, e).known)
  {
    hide Base, Untouched, Advance, ReschedOf;
    var r1 := Advance(r, e);
    forall j | j !in r1.known ensures ReschedOf(r1.s.resched, j) == {} {
      UnlistedStep(r, e, j);
    }
    forall j | j in r1.s.jobs && j !in r1.s.running ensures Untouched(r1.s, j) {
      if j in r.known {
        KnownStep(r, e, j);
      } else {
        NewStep(r, e, j);
      }
    }
  }

  /** Over every run, a scheduled job without a running count is on no worker and not on the reschedule
      list. */
  lemma {:induction false} UnstartedOverRuns(es: seq<Event>)
    requires PossibleRun(Boot, es)
    ensures Unstarted(After(Boot, es).s, After(Boot, es).known)
    decreases |es|
  {
    hide Base, Advance, Possible;
    if es != [] {
      var p := es[..|es| - 1];
      UnstartedOverRuns(p);
      BootIsSafe();
      RunKeeps(Boot, p);
      UnstartedStep(After(Boot, p), es[|es| - 1]);
    }
  }

  // ---- which batch a request hands out ----

  function FirstQueued(s: State, ip: IP, q: seq<JobId>): (r: Option<JobId>)
    requires ip in s.nodes
    ensures r.Some? ==> exists i :: 0 <= i < |q| && q[i] == r.value && Eligible(s, ip, q[i]) && Pending(s, q[i]) != {}
                                    && forall k | 0 <= k < i :: !(Eligible(s, ip, q[k]) && Pending(s, q[k]) != {})
    ensures r.None? ==> forall j | j in q :: !(Eligible(s, ip, j) && Pending(s, j) != {})
  {
    if q == [] then None
    else if Eligible(s, ip, q[0]) && Pending(s, q[0]) != {} then Some(q[0])
    else FirstQueued(s, ip, q[1..])
  }

  /** The job that a worker with a free CPU gets tasks of: that of the first eligible task on the
      reschedule list, otherwise the first eligible job of the queue with a task to send. */
  function Chosen(s: State, ip: IP): Option<JobId>
    requires ip in s.nodes
  {
    match FirstRescheduled(s, ip, s.resched)
    case Some(j) => Some(j)
    case None => FirstQueued(s, ip, s.queue)
  }

  /** The node that a request serves: the first available one with a free CPU and something to start. */
  function Receiver(s: State, order: seq<IP>): (r: Option<IP>)
    ensures r.Some? ==> r.value in s.nodes && Idle(s, r.value) && Chosen(s, r.value).Some?
    ensures r.Some? ==> exists i :: 0 <= i < |order| && order[i] == r.value && forall k | 0 <= k < i ::
              !(order[k] in s.nodes && Idle(s, order[k]) && Chosen(s, order[k]).Some?)
    ensures r.None? ==> forall ip | ip in order && ip in s.nodes && Idle(s, ip) :: Chosen(s, ip).None?
  {
    if order == [] then None
    else if order[0] in s.nodes && Idle(s, order[0]) && Chosen(s, order[0]).Some? then Some(order[0])
    else Receiver(s, order[1..])
  }

  lemma {:induction false} QueuedSuits(s: State, known: Registry, ip: IP, d: Draft, q: seq<JobId>)
    requires Base(s, known, {}) && ip in s.nodes
    requires d.chosen.None? && d.planned == Empty && d.history == s.history
    ensures FirstSuiting(s, ip, d, q) == FirstQueued(s, ip, q)
    decreases |q|
  {
    hide Base, Suits, CanAdd, Admits, Pending;
    if q != [] {
      if q[0] in s.jobs {
        UnchosenSuits(s, known, ip, d, q[0]);
      }
      QueuedSuits(s, known, ip, d, q[1..]);
    }
  }

  lemma PlanIs(s: State, known: Registry, ip: IP, free: int)
    requires Base(s, known, {}) && ip in s.nodes && free > 0
    ensures match Chosen(s, ip)
            case None => Plan(s, ip, free).0.jobs.Keys == {}
            case Some(j) => Plan(s, ip, free).0.jobs.Keys == {j}
  {
    hide Base, Suits, Eligible, FirstSuiting, ScanResched, Fill, Preferred, BatchOk, FirstRescheduled, FirstQueued;
    var d := ScanResched(s, ip, free, s.resched, Start(s));
    ScanOk(s, ip, free, s.resched, Start(s));
    ScanUnchosen(s, ip, free, s.resched, Start(s));
    ScanChooses(s, ip, free, s.resched, Start(s));
    FirstSuitingSuits(s, ip, d, s.queue);
    match d.chosen
    case Some(x) => ChosenStays(s, ip, free, d, x);
    case None =>
      QueuedSuits(s, known, ip, d, s.queue);
      match FirstSuiting(s, ip, d, s.queue)
      case None => EmptyHasNoKeys();
      case Some(j) =>
        SuitsFits(s, ip, d, j);
        FillTakes(s, ip, free, j, d.planned.FirstJob(), Pending(s, j), d);
        FillOneJob(s, ip, free, j, d.planned.FirstJob(), Pending(s, j), d);
  }

  /** A request serves the receiver with tasks of the job chosen for it, and nobody if there is none. */
  lemma {:induction false} RequestIs(s: State, known: Registry, order: seq<IP>)
    requires Base(s, known, {})
    ensures match Receiver(s, order)
            case None => Request(s, order).0 == NoTask
            case Some(ip) =>
              && Request(s, order).0.Batch? && Request(s, order).0.ip == ip
              && Request(s, order).0.tasks == Plan(s, ip, s.nodes[ip].FreeCPU()).0
              && Request(s, order).0.tasks.jobs.Keys == {Chosen(s, ip).value}
    decreases |order|
  {
    hide Base, Plan, Chosen, Assign;
    if order != [] {
      var ip := order[0];
      if ip in s.nodes && Idle(s, ip) {
        PlanIs(s, known, ip, s.nodes[ip].FreeCPU());
        PlanOk(s, ip, s.nodes[ip].FreeCPU());
      }
      RequestIs(s, known, order[1..]);
    }
  }

  // ---- the size of the first batch ----

  /** `n`, but no more than a positive limit. */
  function AtMost(limit: int, n: int): int {
    if 0 < limit < n then limit else n
  }

  /** As many tasks as the worker has free CPUs and the job has tasks to send, within the positive
      per-worker limits. */
  function FirstSize(s: State, ip: IP, j: JobId): int
    requires ip in s.nodes && j in s.jobs
  {
    AtMost(s.jobs[j].maxExecAtWorker,
           AtMost(s.jobs[j].maxWorkerInstances, Min(s.nodes[ip].FreeCPU(), |Pending(s, j)|)))
  }

  lemma {:induction false} FillCountsElsewhere(s: State, ip: IP, free: int, j: JobId, hid: int, tasks: set<TaskId>, d: Draft)
    requires ip in s.nodes && j in s.jobs && hid != j
    ensures NumExecAt(Fill(s, ip, free, j, hid, tasks, d).0.history, j, ip) == NumExecAt(d.history, j, ip)
    decreases tasks
  {
    hide CanAdd, WorkerJob.Total, WorkerJob.AddTask;
    if !(tasks == {} || d.planned.Total() >= free || !CanAdd(s, ip, d.planned, d.history, j)) {
      var t := Least(tasks);
      FillCountsElsewhere(s, ip, free, j, hid, tasks - {t},
                          d.(planned := d.planned.AddTask(j, t).SetExclusive(s.jobs[j].exclusive),
                             history := CountExec(d.history, hid, ip)));
    }
  }

  /** When the batch of an untouched job is full, a per-worker limit or the CPUs are used up. */
  lemma FullMeans(s: State, ip: IP, free: int, p: WorkerJob, h: History, j: JobId)
    requires ip in s.nodes && j in s.jobs && j !in s.running && HeldAt(s.nodes, ip, j) == {}
    requires CanAdd(s, ip, Empty, s.history, j) && NumExecAt(h, j, ip) == NumExecAt(s.history, j, ip)
    requires Full(s, ip, free, p, h, j)
    ensures var n, job := |p.Tasks(j)|, s.jobs[j];
            || p.Total() >= free
            || (job.maxWorkerInstances > 0 && n >= job.maxWorkerInstances)
            || (job.maxExecAtWorker > 0 && n >= job.maxExecAtWorker)
  {
    hide WorkerJob.Total;
  }

  lemma FilledTasks(planned: WorkerJob, j: JobId, moved: set<TaskId>)
    requires Moved(Empty, planned, j, moved)
    ensures planned.Tasks(j) == moved
  {
    forall t ensures t in planned.Tasks(j) <==> t in moved {
      assert planned.HasTask(j, t) <==> Empty.HasTask(j, t) || t in moved;
    }
  }

  /** A number within all four bounds that meets one of them is the first size. */
  lemma FirstSizeIs(s: State, ip: IP, j: JobId, n: int)
    requires ip in s.nodes && j in s.jobs && n <= s.nodes[ip].FreeCPU() && n <= |Pending(s, j)|
    requires s.jobs[j].maxWorkerInstances > 0 ==> n <= s.jobs[j].maxWorkerInstances
    requires s.jobs[j].maxExecAtWorker > 0 ==> n <= s.jobs[j].maxExecAtWorker
    requires || n >= s.nodes[ip].FreeCPU() || n == |Pending(s, j)|
             || (s.jobs[j].maxWorkerInstances > 0 && n >= s.jobs[j].maxWorkerInstances)
             || (s.jobs[j].maxExecAtWorker > 0 && n >= s.jobs[j].maxExecAtWorker)
    ensures n == FirstSize(s, ip, j)
  {
  }

  lemma BatchBounds(s: State, ip: IP, free: int, b: WorkerJob, j: JobId)
    requires ip in s.nodes && BatchOk(s, ip, free, b, j) && HeldAt(s.nodes, ip, j) == {}
    ensures |b.Tasks(j)| <= free
    ensures s.jobs[j].maxWorkerInstances > 0 ==> |b.Tasks(j)| <= s.jobs[j].maxWorkerInstances
    ensures s.jobs[j].maxExecAtWorker > 0 ==> |b.Tasks(j)| <= s.jobs[j].maxExecAtWorker
  {
    hide Admits, MayJoin;
  }

  lemma FilledSize(s: State, ip: IP, j: JobId, d: Draft)
    requires ip in s.nodes && j in s.jobs && j !in s.running && HeldAt(s.nodes, ip, j) == {}
    requires Admits(s, ip, j) && CanAdd(s, ip, Empty, s.history, j) && d.planned == Empty && d.history == s.history
    ensures var (f, left) := Fill(s, ip, s.nodes[ip].FreeCPU(), j, -1, Pending(s, j), d);
            f.planned.jobs.Keys == {j} ==> |f.planned.Tasks(j)| == FirstSize(s, ip, j)
  {
    hide Fill, CanAdd, Admits, Moved, Full, WorkerJob.Total, BatchOk, FirstSize, HeldAt, PendingIn, WorkerJob.Tasks;
    var free := s.nodes[ip].FreeCPU();
    var tasks := Pending(s, j);
    var (f, left) := Fill(s, ip, free, j, -1, tasks, d);
    if f.planned.jobs.Keys == {j} {
      FillOk(s, ip, free, j, -1, tasks, d);
      EmptyHasNoKeys();
      BatchBounds(s, ip, free, f.planned, j);
      FillMoves(s, ip, free, j, -1, tasks, d);
      FilledTasks(f.planned, j, tasks - left);
      SubsetSize(tasks - left, tasks);
      FillExhausts(s, ip, free, j, -1, tasks, d);
      FillCountsElsewhere(s, ip, free, j, -1, tasks, d);
      SingleJobTotal(f.planned, j);
      if Full(s, ip, free, f.planned, f.history, j) {
        FullMeans(s, ip, free, f.planned, f.history, j);
      } else {
        assert tasks - left == tasks;
      }
      FirstSizeIs(s, ip, j, |f.planned.Tasks(j)|);
    }
  }

  /** The first batch of a job: exactly as many tasks as free CPUs, tasks to send and the per-worker
      limits allow. */
  lemma FirstBatchIs(s: State, known: Registry, ip: IP, j: JobId)
    requires Base(s, known, {}) && ip in s.nodes && s.nodes[ip].FreeCPU() > 0
    requires j in s.jobs && j !in s.running && Untouched(s, j) && Chosen(s, ip) == Some(j)
    ensures var b := Plan(s, ip, s.nodes[ip].FreeCPU()).0;
            b.jobs.Keys == {j} && |b.Tasks(j)| == FirstSize(s, ip, j)
  {
    hide Base, Suits, Eligible, FirstSuiting, ScanResched, Fill, FirstRescheduled, FirstQueued, FirstSize, ReschedOf;
    var free := s.nodes[ip].FreeCPU();
    var d := ScanResched(s, ip, free, s.resched, Start(s));
    PlanIs(s, known, ip, free);
    NotRescheduled(s, ip, j);
    ScanUnchosen(s, ip, free, s.resched, Start(s));
    ScanChooses(s, ip, free, s.resched, Start(s));
    QueuedSuits(s, known, ip, d, s.queue);
    FirstSuitingSuits(s, ip, d, s.queue);
    SuitsFits(s, ip, d, j);
    EmptyHasNoKeys();
    FilledSize(s, ip, j, d);
  }

  /** An untouched job is not chosen from the reschedule list. */
  lemma NotRescheduled(s: State, ip: IP, j: JobId)
    requires ip in s.nodes && Untouched(s, j)
    ensures FirstRescheduled(s, ip, s.resched) != Some(j)
  {
    hide Eligible;
    forall k | k in s.resched ensures k.job != j {
      assert k.job == j ==> k.task in ReschedOf(s.resched, j);
    }
  }

  // ---- the limit ----

  /** Every scheduled job with a cluster limit runs at most that many tasks. */
  ghost predicate WithinLimits(s: State) {
    forall j | j in s.jobs && s.jobs[j].maxClusterInstances > 0 :: Running(s, j) <= s.jobs[j].maxClusterInstances
  }

  /** The request hands out the first batch of a job, and that batch is larger than the job's limit. */
  predicate Overshoots(s: State, order: seq<IP>) {
    match Receiver(s, order)
    case None => false
    case Some(ip) =>
      var j := Chosen(s, ip).value;
      && j in s.jobs && j !in s.running
      && 0 < s.jobs[j].maxClusterInstances < FirstSize(s, ip, j)
  }

  lemma ChosenScheduled(s: State, ip: IP)
    requires ip in s.nodes && Chosen(s, ip).Some?
    ensures Chosen(s, ip).value in s.jobs
  {
    hide CanAdd, Admits;
    if FirstRescheduled(s, ip, s.resched).None? {
      QueuedScheduled(s, ip, s.queue);
    }
  }

  lemma {:induction false} QueuedScheduled(s: State, ip: IP, q: seq<JobId>)
    requires ip in s.nodes && FirstQueued(s, ip, q).Some?
    ensures FirstQueued(s, ip, q).value in s.jobs
  {
    hide CanAdd, Admits;
    if !(Eligible(s, ip, q[0]) && Pending(s, q[0]) != {}) {
      QueuedScheduled(s, ip, q[1..]);
    }
  }

  lemma GrantedSize(s: State, known: Registry, order: seq<IP>)
    requires Base(s, known, {}) && Unstarted(s, known) && Receiver(s, order).Some?
    ensures var ip := Receiver(s, order).value;
            var j := Chosen(s, ip).value;
            var s1 := Request(s, order).1;
            && j in s.jobs && s1.jobs == s.jobs
            && (forall x | x in s.jobs && x != j :: Running(s1, x) == Running(s, x))
            && (j !in s.running ==> Running(s1, j) == FirstSize(s, ip, j))
            && (j in s.running && s.jobs[j].maxClusterInstances > 0 ==>
                  Running(s1, j) <= s.jobs[j].maxClusterInstances)
  {
    hide Base, Plan, Request, Chosen, FirstSize, Untouched, Idle, Admits, MayJoin, ReschedOf;
    var ip := Receiver(s, order).value;
    var j := Chosen(s, ip).value;
    RequestIs(s, known, order);
    RequestFacts(s, order);
    ChosenScheduled(s, ip);
    var (g, s1) := Request(s, order);
    var x :| BatchOk(s, ip, s.nodes[ip].FreeCPU(), g.tasks, x)
             && s1.running == s.running[x := Running(s, x) + |g.tasks.Tasks(x)|];
    assert x == j;
    if j !in s.running {
      IdleFree(s, ip);
      FirstBatchIs(s, known, ip, j);
    }
  }

  lemma IdleFree(s: State, ip: IP)
    requires ip in s.nodes && Idle(s, ip)
    ensures s.nodes[ip].FreeCPU() > 0
  {
  }

  /** A request keeps all jobs within their cluster limits if and only if it does not hand out a first
      batch that is larger than the limit. */
  lemma RequestWithinIff(s: State, known: Registry, order: seq<IP>)
    requires Base(s, known, {}) && Unstarted(s, known) && WithinLimits(s)
    ensures WithinLimits(Request(s, order).1) <==> !Overshoots(s, order)
  {
    hide Base, Request, Unstarted, Chosen, FirstSize, Idle;
    RequestIs(s, known, order);
    RequestFacts(s, order);
    if Receiver(s, order).Some? {
      GrantedSize(s, known, order);
    }
  }

  lemma OtherWithin(r: Trace, e: Event)
    requires Base(r.s, r.known, {}) && Possible(r, e) && WithinLimits(r.s) && !e.TaskRequested?
    ensures WithinLimits(Advance(r, e).s)
  {
    hide Base, Request;
    if !e.HostAppeared? {
      hide Next;
      var s1 := Next(r.s, e);
      forall j | j in s1.jobs && s1.jobs[j].maxClusterInstances > 0
        ensures RunningIn(s1.running, j) <= s1.jobs[j].maxClusterInstances
      {
        if j in r.known {
          StepWanes(r, e, j);
        } else {
          NewJobRunsNothing(r, e, j);
        }
      }
    }
  }

  /** No request of the run overshoots in the state in which it is taken. */
  predicate NoOvershoot(es: seq<Event>) {
    es == [] ||
    (NoOvershoot(es[..|es| - 1]) &&
     (es[|es| - 1].TaskRequested? ==> !Overshoots(After(Boot, es[..|es| - 1]).s, es[|es| - 1].order)))
  }

  ghost predicate AlwaysWithin(es: seq<Event>) {
    WithinLimits(After(Boot, es).s) && (es == [] || AlwaysWithin(es[..|es| - 1]))
  }

  /** A run stays within all cluster limits if and only if none of its requests overshoots. */
  lemma {:induction false} ClusterLimitIff(es: seq<Event>)
    requires PossibleRun(Boot, es)
    ensures AlwaysWithin(es) <==> NoOvershoot(es)
    decreases |es|
  {
    hide Base, Possible, Unstarted, Overshoots, WithinLimits;
    if es == [] {
      NothingRuns();
    } else {
      var p, e := es[..|es| - 1], es[|es| - 1];
      ClusterLimitIff(p);
      BootIsSafe();
      RunKeeps(Boot, p);
      UnstartedOverRuns(p);
      if AlwaysWithin(p) {
        if e.TaskRequested? {
          RequestWithinIff(After(Boot, p).s, After(Boot, p).known, e.order);
          RequestIsNext(After(Boot, p).s, e.order);
        } else {
          OtherWithin(After(Boot, p), e);
        }
      }
    }
  }

  lemma NothingRuns()
    ensures WithinLimits(Boot.s)
  {
  }
}
