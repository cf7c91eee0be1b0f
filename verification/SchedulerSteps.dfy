/** Every public method of `Scheduler` as one atomic step on the state
    (src/master/scheduler.cpp).  An event carries what the step receives from outside:
    messages from workers in any order and any number, the worker manager's answers and the
    order in which the nodes are visited. */
module SchedulerSteps {
  import opened Ordering
  import opened WorkerJobs
  import opened SchedulerState
  import opened BatchSelection

  datatype Event =
    | HostAppeared(ip: IP, worker: Worker)
      /** The worker manager changes the state or the CPU number of a worker it shares. */
    | WorkerUpdated(ip: IP, state: WorkerState, numCPU: int)
    | WorkerStateChanged(ip: IP)
    | NodeDeleted(ip: IP)
    | JobPlanned(job: Job, totalCPU: int, totalWorkers: int)
    | TaskRequested(order: seq<IP>)
    | SendFailed(ip: IP, batch: WorkerJob)
    | TaskSucceeded(ip: IP, jobId: JobId, task: TaskId)
    | TaskFailed(ip: IP, jobId: JobId, task: TaskId)
    | TaskTimedOut(ip: IP, jobId: JobId, task: TaskId)
    | JobStopped(jobId: JobId)

  /** `OnHostAppearance`: the busy counter of a known node is kept. */
  function AppearHost(s: State, ip: IP, w: Worker): State {
    SetNode(s, ip, Node(w, if ip in s.nodes then s.nodes[ip].busy else 0))
  }

  function UpdateWorker(s: State, ip: IP, state: WorkerState, numCPU: int): State {
    if ip !in s.nodes then s else
      var n := s.nodes[ip];
      SetNode(s, ip, n.(worker := n.worker.(state := state, numCPU := numCPU)))
  }

  /** The body of the loop in `OnChangedWorkerState` for one worker. */
  function ChangeWorkerState(s: State, ip: IP): State {
    if ip !in s.nodes || s.nodes[ip].worker.state != NotAvailable || s.nodes[ip].busy < 1 then s else
      var n := s.nodes[ip];
      var s1 := AddFailedAll(s, n.worker.job, ip);
      Reschedule(SetNode(s1, ip, Node(n.worker.(job := Empty), 0)), n.worker.job)
  }

  /** The body of the loop in `DeleteWorker` for one node of the host. */
  function DeleteNode(s: State, ip: IP): State {
    if ip !in s.nodes then s else
      var w := s.nodes[ip].worker.job;
      Reschedule(AddFailedAll(s, w, ip).(nodes := s.nodes - {ip}), w)
  }

  /** `PlanJobExecution` for the job popped from the queue. */
  function PlanJob(s: State, job: Job, totalCPU: int, totalWorkers: int): State {
    var n := NumPlannedExec(job, totalCPU, totalWorkers);
    var jobs := s.jobs[job.id := job.(planned := n)];
    s.(toSend := s.toSend[job.id := Pending(s, job.id) + Below(n)],
       jobs := jobs,
       queue := Inserted(jobs, s.queue, job.id),
       execs := s.execs[job.id := n])
  }

  /** A report about job `j` from host `ip` gets past the lookups and is the host's first
      failure for this job. */
  predicate Counts(s: State, ip: IP, j: int) {
    j >= 0 && j in s.jobs && ip in s.nodes && ip !in FailedOf(s, j)
  }

  /** The host is recorded as failed for job `j` and `n` of its CPUs are released. */
  function Charge(s: State, ip: IP, j: JobId, n: int): State
    requires ip in s.nodes
  {
    SetNode(AddFailed(s, j, ip), ip, s.nodes[ip].(busy := s.nodes[ip].busy - n))
  }

  function DropFirstJob(n: Node): Node {
    var w := n.worker.job;
    if w.FirstJob() < 0 then n else n.(worker := n.worker.(job := w.DeleteJob(w.FirstJob())))
  }

  function DropFirstAt(s: State, ip: IP): State {
    if ip in s.nodes then SetNode(s, ip, DropFirstJob(s.nodes[ip])) else s
  }

  function DropTaskAt(s: State, ip: IP, j: JobId, t: TaskId): State {
    if ip !in s.nodes then s else
      var n := s.nodes[ip];
      SetNode(s, ip, n.(worker := n.worker.(job := n.worker.job.DeleteTask(j, t))))
  }

  /** `OnTaskSendCompletion` without success.  The job that is deleted from the worker is the
      first one in the worker's own table: the local variable hides the parameter. */
  function FailSend(s: State, ip: IP, batch: WorkerJob): State {
    var j := batch.FirstJob();
    if !Counts(s, ip, j) then s
    else DropFirstAt(Reschedule(Charge(s, ip, j, batch.Total()), batch), ip)
  }

  /** `OnTaskCompletion` with a zero error code. */
  function SucceedTask(s: State, ip: IP, j: JobId, t: TaskId): State {
    if j !in s.jobs || ip !in s.nodes || !s.nodes[ip].worker.job.HasTask(j, t) then s else
      var n := s.nodes[ip];
      var s1 := SetNode(s, ip, Node(n.worker.(job := n.worker.job.DeleteTask(j, t)), n.busy - 1));
      DecrementExecution(s1.(running := s.running[j := Running(s, j) - 1]), j, 1)
  }

  /** `OnTaskCompletion` with an error code other than "not found". */
  function FailTask(s: State, ip: IP, j: JobId, t: TaskId): State {
    if !Counts(s, ip, j) then s
    else DropTaskAt(RescheduleOne(Charge(s, ip, j, 1), j, {t}), ip, j, t)
  }

  function TimeOutTask(s: State, ip: IP, j: JobId, t: TaskId): State {
    if ip in s.nodes && s.nodes[ip].worker.job.HasTask(j, t) then FailTask(s, ip, j, t) else s
  }

  /** `OnJobTimeout` and `StopJob`. */
  function StopJob(s: State, j: JobId): State {
    if j in s.jobs then RemoveJob(StopWorkers(s, j), j) else s
  }

  function Next(s: State, e: Event): State {
    match e
    case HostAppeared(ip, w) => AppearHost(s, ip, w)
    case WorkerUpdated(ip, st, n) => UpdateWorker(s, ip, st, n)
    case WorkerStateChanged(ip) => ChangeWorkerState(s, ip)
    case NodeDeleted(ip) => DeleteNode(s, ip)
    case JobPlanned(job, cpus, workers) => PlanJob(s, job, cpus, workers)
    case TaskRequested(order) => Request(s, order).1
    case SendFailed(ip, batch) => FailSend(s, ip, batch)
    case TaskSucceeded(ip, j, t) => SucceedTask(s, ip, j, t)
    case TaskFailed(ip, j, t) => FailTask(s, ip, j, t)
    case TaskTimedOut(ip, j, t) => TimeOutTask(s, ip, j, t)
    case JobStopped(j) => StopJob(s, j)
  }

  function Run(s: State, es: seq<Event>): State {
    if es == [] then s else Next(Run(s, es[..|es| - 1]), es[|es| - 1])
  }
}
