/** Choosing the next batch: `GetReschedJobForWorker`, `GetJobForWorker` and the scan of
    `GetTaskToSend` (src/master/scheduler.cpp:230-385), written as functions of the state. */
module BatchSelection {
  import opened Ordering
  import opened WorkerJobs
  import opened SchedulerState

  datatype Option<T> = None | Some(value: T)

  /** A batch under construction: the tasks planned so far, the reschedule list that remains
      (already visited part), and the execution history. */
  datatype Draft = Draft(planned: WorkerJob, kept: seq<WorkerTask>, history: History, chosen: Option<JobId>)

  /** The tests that a job must pass on a worker besides `CanAdd`. */
  predicate Admits(s: State, ip: IP, j: JobId)
    requires ip in s.nodes && j in s.jobs
  {
    ip !in FailedOf(s, j) && s.jobs[j].Permits(s.nodes[ip].worker)
  }

  /** What happens to the task `k` at the iterator of `GetReschedJobForWorker`. */
  function Consider(s: State, ip: IP, d: Draft, k: WorkerTask): Draft
    requires ip in s.nodes
  {
    var skip := d.(kept := d.kept + [k]);
    if k.job !in s.jobs || !CanAdd(s, ip, d.planned, d.history, k.job) then skip
    else match d.chosen
      case Some(j) =>
        if k.job == j then d.(planned := d.planned.AddTask(j, k.task)) else skip
      case None =>
        if Admits(s, ip, k.job) then
          Draft(d.planned.AddTask(k.job, k.task).SetExclusive(s.jobs[k.job].exclusive),
                d.kept, CountExec(d.history, k.job, ip), Some(k.job))
        else skip
  }

  function ScanResched(s: State, ip: IP, free: int, rest: seq<WorkerTask>, d: Draft): Draft
    requires ip in s.nodes
    decreases |rest|
  {
    if rest == [] then d
    else if d.planned.Total() >= free then d.(kept := d.kept + rest)
    else ScanResched(s, ip, free, rest[1..], Consider(s, ip, d, rest[0]))
  }

  /** The conditions under which the loop over the job queue settles on job `j`. */
  predicate Suits(s: State, ip: IP, d: Draft, j: JobId)
    requires ip in s.nodes && j in s.jobs
  {
    && j !in s.sent
    && (d.chosen.Some? ==> d.chosen.value == j)
    && Admits(s, ip, j)
    && CanAdd(s, ip, d.planned, d.history, j)
    && Pending(s, j) != {}
  }

  function FirstSuiting(s: State, ip: IP, d: Draft, q: seq<JobId>): Option<JobId>
    requires ip in s.nodes
    decreases |q|
  {
    if q == [] then None
    else if q[0] in s.jobs && Suits(s, ip, d, q[0]) then Some(q[0])
    else FirstSuiting(s, ip, d, q[1..])
  }

  /** The inner loop over the tasks of job `j`; `hid` is the job number under which executions
      are counted. */
  function Fill(s: State, ip: IP, free: int, j: JobId, hid: int, tasks: set<TaskId>, d: Draft): (r: (Draft, set<TaskId>))
    requires ip in s.nodes && j in s.jobs
    decreases tasks
  {
    if tasks == {} || d.planned.Total() >= free || !CanAdd(s, ip, d.planned, d.history, j) then (d, tasks)
    else
      var t := Least(tasks);
      Fill(s, ip, free, j, hid, tasks - {t},
           d.(planned := d.planned.AddTask(j, t).SetExclusive(s.jobs[j].exclusive),
              history := CountExec(d.history, hid, ip)))
  }

  /** The job tables after the tasks `left` of job `j` have not been taken. */
  function SetPending(s: State, j: JobId, left: set<TaskId>): State {
    if left == {} then s.(sent := s.sent + {j}, toSend := s.toSend - {j})
    else s.(toSend := s.toSend[j := left])
  }

  /** `GetJobForWorker`: the batch for one worker and the state without the tasks it takes. */
  function Plan(s: State, ip: IP, free: int): (r: (WorkerJob, State))
    requires ip in s.nodes
  {
    var d := ScanResched(s, ip, free, s.resched, Draft(Empty, [], s.history, None));
    match FirstSuiting(s, ip, d, s.queue)
    case None => (d.planned, s.(resched := d.kept, history := d.history))
    case Some(j) =>
      if j in s.jobs then
        var (f, left) := Fill(s, ip, free, j, d.planned.FirstJob(), Pending(s, j), d);
        (f.planned, SetPending(s, j, left).(resched := d.kept, history := f.history))
      else (d.planned, s)
  }

  predicate Idle(s: State, ip: IP)
    requires ip in s.nodes
  {
    s.nodes[ip].FreeCPU() > 0 && s.nodes[ip].worker.IsAvailable()
  }

  /** The worker's table, its CPU counter and the cluster count after a batch is assigned. */
  function Assign(s: State, ip: IP, batch: WorkerJob): State
    requires ip in s.nodes && batch.jobs.Keys != {}
  {
    var n, j := s.nodes[ip], Least(batch.jobs.Keys);
    s.(nodes := s.nodes[ip := Node(n.worker.(job := n.worker.job.Merge(batch)), n.busy + batch.Total())],
       running := s.running[j := Running(s, j) + batch.Total()])
  }

  datatype Grant = NoTask | Batch(ip: IP, tasks: WorkerJob)

  /** `GetTaskToSend` up to the point where it pulls a new job: `order` is the order in which
      the nodes are visited. */
  function Request(s: State, order: seq<IP>): (r: (Grant, State))
    decreases |order|
  {
    if order == [] then (NoTask, s)
    else if order[0] in s.nodes && Idle(s, order[0]) then
      var (batch, s1) := Plan(s, order[0], s.nodes[order[0]].FreeCPU());
      if batch.jobs.Keys != {} && order[0] in s1.nodes then (Batch(order[0], batch), Assign(s1, order[0], batch))
      else Request(s, order[1..])
    else Request(s, order[1..])
  }
}
