/** What the scheduler knows about its workers (src/master/scheduler.cpp:42-130): over every run, host,
    group, state and CPU number of each node are those of the latest message about it, and nodes come and
    go only with the messages that say so. */
module Directory {
  import opened Ordering
  import opened WorkerJobs
  import opened SchedulerState
  import opened BatchSelection
  import opened BatchFacts
  import opened SchedulerSteps
  import opened Conservation
  import opened CpuAccounting
  import opened SchedulerRuns
  import opened Losses
  import opened Removals

  /** What is known of the worker under address `ip` after a message, given what was known before. */
  function Told(before: Option<Worker>, e: Event, ip: IP): Option<Worker> {
    match e
    case HostAppeared(x, w) => if x == ip then Some(w.(job := Empty)) else before
    case NodeDeleted(x) => if x == ip then None else before
    case WorkerUpdated(x, state, numCPU) =>
      if x == ip && before.Some? then Some(before.value.(state := state, numCPU := numCPU)) else before
    case _ => before
  }

  /** The worker under address `ip` after a run, without its table, according to the messages alone. */
  function Latest(es: seq<Event>, ip: IP): Option<Worker> {
    if es == [] then None else Told(Latest(es[..|es| - 1], ip), es[|es| - 1], ip)
  }

  function Listed(nodes: map<IP, Node>, ip: IP): Option<Worker> {
    if ip in nodes then Some(nodes[ip].worker.(job := Empty)) else None
  }

  lemma {:induction false} RoundsList(s: State, w: WorkerJob, ids: seq<JobId>, ip: IP)
    ensures Listed(RescheduleFrom(s, w, ids).nodes, ip) == Listed(s.nodes, ip)
    decreases |ids|
  {
    hide RescheduleOne;
    if ids != [] {
      RoundLists(s, ids[0], w.Tasks(ids[0]), ip);
      RoundsList(RescheduleOne(s, ids[0], w.Tasks(ids[0])), w, ids[1..], ip);
    }
  }

  lemma RoundLists(s: State, j: JobId, ts: set<TaskId>, ip: IP)
    ensures Listed(RescheduleOne(s, j, ts).nodes, ip) == Listed(s.nodes, ip)
  {
    hide RescheduleOne, LimitReached;
    RescheduleOneNodes(s, j, ts);
  }

  lemma RequestLists(s: State, order: seq<IP>, ip: IP)
    ensures Listed(Request(s, order).1.nodes, ip) == Listed(s.nodes, ip)
  {
    hide Request, Plan, Idle, WorkerJob.Merge, WorkerJob.Total;
    RequestCases(s, order);
    match Request(s, order).0
    case NoTask =>
    case Batch(x, b) => PlanOk(s, x, s.nodes[x].FreeCPU());
  }

  lemma VacateLists(s: State, x: IP, ip: IP)
    ensures Listed(ChangeWorkerState(s, x).nodes, ip) == Listed(s.nodes, ip)
    ensures Listed(DeleteNode(s, x).nodes, ip) == Listed(s.nodes - {x}, ip)
  {
    hide RescheduleFrom, AddFailedAll;
    if x in s.nodes {
      var w := s.nodes[x].worker.job;
      AddFailedAllTasks(s, w, x);
      RoundsList(Reset(s, x), w, Ascending(w.jobs.Keys), ip);
      RoundsList(AddFailedAll(s, w, x).(nodes := s.nodes - {x}), w, Ascending(w.jobs.Keys), ip);
    }
  }

  lemma FailSendLists(s: State, x: IP, b: WorkerJob, ip: IP)
    ensures Listed(FailSend(s, x, b).nodes, ip) == Listed(s.nodes, ip)
  {
    hide RescheduleFrom, WorkerJob.FirstJob, WorkerJob.Total;
    if Counts(s, x, b.FirstJob()) {
      RoundsList(Charge(s, x, b.FirstJob(), b.Total()), b, Ascending(b.jobs.Keys), ip);
    }
  }

  lemma FailTaskLists(s: State, x: IP, j: JobId, t: TaskId, ip: IP)
    ensures Listed(FailTask(s, x, j, t).nodes, ip) == Listed(s.nodes, ip)
  {
    hide RescheduleOne;
    if Counts(s, x, j) {
      RoundLists(Charge(s, x, j, 1), j, {t}, ip);
    }
  }

  lemma SucceedLists(s: State, x: IP, j: JobId, t: TaskId, ip: IP)
    ensures Listed(SucceedTask(s, x, j, t).nodes, ip) == Listed(s.nodes, ip)
  {
    hide DecrementExecution, WorkerJob.DeleteTask;
    if j in s.jobs && x in s.nodes && s.nodes[x].worker.job.HasTask(j, t) {
      var n := s.nodes[x];
      DecrementNodes(SetNode(s, x, Node(n.worker.(job := n.worker.job.DeleteTask(j, t)), n.busy - 1))
                     .(running := s.running[j := Running(s, j) - 1]), j, 1);
    }
  }

  lemma StopLists(s: State, j: JobId, ip: IP)
    ensures Listed(StopJob(s, j).nodes, ip) == Listed(s.nodes, ip)
  {
    hide Without, WithoutJob, AsInt32, WorkerJob.DeleteJob;
  }

  lemma AppearLists(s: State, x: IP, w: Worker, ip: IP)
    ensures Listed(AppearHost(s, x, w).nodes, ip) == if x == ip then Some(w.(job := Empty)) else Listed(s.nodes, ip)
  {
  }

  lemma UpdateLists(s: State, x: IP, state: WorkerState, n: int, ip: IP)
    ensures Listed(UpdateWorker(s, x, state, n).nodes, ip) == Told(Listed(s.nodes, ip), WorkerUpdated(x, state, n), ip)
  {
  }

  lemma PlanLists(s: State, job: Job, cpus: int, workers: int)
    ensures PlanJob(s, job, cpus, workers).nodes == s.nodes
  {
    hide Inserted, Below, NumPlannedExec;
  }

  /** One step changes the workers as its message says, and in no other way. */
  lemma StepLists(s: State, e: Event, ip: IP)
    ensures Listed(Next(s, e).nodes, ip) == Told(Listed(s.nodes, ip), e, ip)
  {
    hide ChangeWorkerState, DeleteNode, FailSend, FailTask, SucceedTask, StopJob, Request, PlanJob, AppearHost,
         UpdateWorker;
    match e
    case WorkerStateChanged(x) => VacateLists(s, x, ip);
    case NodeDeleted(x) => VacateLists(s, x, ip);
    case SendFailed(x, b) => FailSendLists(s, x, b, ip);
    case TaskFailed(x, j, t) => FailTaskLists(s, x, j, t, ip);
    case TaskTimedOut(x, j, t) => FailTaskLists(s, x, j, t, ip);
    case TaskRequested(order) => RequestLists(s, order, ip);
    case TaskSucceeded(x, j, t) => SucceedLists(s, x, j, t, ip);
    case JobStopped(j) => StopLists(s, j, ip);
    case HostAppeared(x, w) => AppearLists(s, x, w, ip);
    case WorkerUpdated(x, state, n) => UpdateLists(s, x, state, n, ip);
    case JobPlanned(job, cpus, workers) => PlanLists(s, job, cpus, workers);
  }

  /** Over every run the nodes and their workers are exactly those of the latest messages. */
  lemma {:induction false} DirectoryIsCurrent(es: seq<Event>, ip: IP)
    ensures Listed(After(Boot, es).s.nodes, ip) == Latest(es, ip)
    decreases |es|
  {
    hide Next, Request, Told;
    if es != [] {
      var p, e := es[..|es| - 1], es[|es| - 1];
      DirectoryIsCurrent(p, ip);
      StepLists(After(Boot, p).s, e, ip);
      AdvanceIsNext(After(Boot, p), e);
    }
  }
}
