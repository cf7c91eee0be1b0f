/** The scheduler's bookkeeping as one value, and the elementary changes that its methods
    compose (src/master/scheduler.h, scheduled_jobs.h, failed_workers.h, node_state.h, job.h). */
module SchedulerState {
  import opened Ordering
  import opened WorkerJobs

  datatype ExecUnit = CpuUnit | HostUnit

  datatype Job = Job(
    id: JobId, priority: int, groupId: int,
    numExec: int, planned: nat, unit: ExecUnit,
    maxFailedNodes: int, maxClusterInstances: int, maxWorkerInstances: int, maxExecAtWorker: int,
    exclusive: bool, noReschedule: bool,
    hosts: set<string>, blacklistHosts: set<string>,
    groups: set<string>, blacklistGroups: set<string>)
  {
    predicate IsHostPermitted(host: string) {
      host !in blacklistHosts && (hosts == {} || host in hosts)
    }

    predicate IsGroupPermitted(group: string) {
      group !in blacklistGroups && (groups == {} || group in groups)
    }

    predicate Permits(w: Worker) {
      IsHostPermitted(w.host) && IsGroupPermitted(w.group)
    }

    /** The order of the scheduled jobs: priority first, then the group number. */
    predicate Before(other: Job) {
      Precedes(priority, groupId, other.priority, other.groupId)
    }
  }

  datatype WorkerState = NotAvailable | Ready | Executing | Disabled

  datatype Worker = Worker(host: string, group: string, state: WorkerState, numCPU: int, job: WorkerJob) {
    predicate IsAvailable() {
      state != NotAvailable && state != Disabled
    }
  }

  datatype Node = Node(worker: Worker, busy: int) {
    function FreeCPU(): int {
      worker.numCPU - busy
    }
  }

  /** Number of executions recorded per job and host.  The key is an `int`, not a job id: the
      scheduler also counts under -1. */
  type History = map<int, map<IP, int>>

  /** `nodes` is `nodeState_`; `jobs`, `queue`, `sent` and `execs` make up `ScheduledJobs`;
      `running` is `simultExecCnt_`. */
  datatype State = State(
    nodes: map<IP, Node>,
    failed: map<JobId, set<IP>>,
    jobs: map<JobId, Job>,
    queue: seq<JobId>,
    sent: set<JobId>,
    execs: map<JobId, int>,
    toSend: map<JobId, set<TaskId>>,
    resched: seq<WorkerTask>,
    running: map<JobId, int>,
    history: History)

  const Initial: State := State(map[], map[], map[], [], {}, map[], map[], [], map[], map[])

  function FailedIn(failed: map<JobId, set<IP>>, j: JobId): set<IP> {
    if j in failed then failed[j] else {}
  }

  function FailedOf(s: State, j: JobId): set<IP> {
    FailedIn(s.failed, j)
  }

  function RunningIn(running: map<JobId, int>, j: JobId): int {
    if j in running then running[j] else 0
  }

  function Running(s: State, j: JobId): int {
    RunningIn(s.running, j)
  }

  function PendingIn(toSend: map<JobId, set<TaskId>>, j: JobId): set<TaskId> {
    if j in toSend then toSend[j] else {}
  }

  function Pending(s: State, j: JobId): set<TaskId> {
    PendingIn(s.toSend, j)
  }

  function NumExecAt(h: History, j: int, ip: IP): int {
    if j in h && ip in h[j] then h[j][ip] else 0
  }

  function CountExec(h: History, j: int, ip: IP): History {
    var row := if j in h then h[j] else map[];
    h[j := row[ip := NumExecAt(h, j, ip) + 1]]
  }

  /** Conversion of a 64-bit job number to the 32-bit parameter of `JobExecHistory::RemoveJob`. */
  function AsInt32(x: int): (r: int)
    ensures -0x8000_0000 <= r < 0x8000_0000 && (x - r) % 0x1_0000_0000 == 0
  {
    var m := x % 0x1_0000_0000;
    if m < 0x8000_0000 then m else m - 0x1_0000_0000
  }

  // ---- the priority queue of scheduled jobs ----

  /** Insertion behind all jobs that are not after the new one. */
  function Inserted(jobs: map<JobId, Job>, q: seq<JobId>, j: JobId): (r: seq<JobId>)
    requires j in jobs
    ensures multiset(r) == multiset(q) + multiset{j}
  {
    if q == [] then [j]
    else if q[0] in jobs && jobs[j].Before(jobs[q[0]]) then
      assert q == [q[0]] + q[1..];
      [j] + q
    else
      assert q == [q[0]] + q[1..];
      [q[0]] + Inserted(jobs, q[1..], j)
  }

  function Without<T(==, !new)>(q: seq<T>, x: T): (r: seq<T>)
    ensures forall y :: y in r <==> y in q && y != x
  {
    if q == [] then [] else
      (if q[0] == x then [] else [q[0]]) + Without(q[1..], x)
  }

  /** The reschedule list after the erasing loop of `StopWorkers`. */
  function WithoutJob(q: seq<WorkerTask>, j: JobId): (r: seq<WorkerTask>)
    ensures forall k :: k in r <==> k in q && k.job != j
  {
    if q == [] then [] else
      (if q[0].job == j then [] else [q[0]]) + WithoutJob(q[1..], j)
  }

  // ---- ScheduledJobs ----

  /** `ScheduledJobs::RemoveJob` with the scheduler's `OnRemoveJob` callback. */
  function RemoveJob(s: State, j: JobId): State {
    s.(jobs := s.jobs - {j}, queue := Without(s.queue, j), sent := s.sent - {j},
       execs := s.execs - {j}, running := s.running - {j}, failed := s.failed - {j},
       history := s.history - {AsInt32(j)})
  }

  function DecrementExecution(s: State, j: JobId, n: nat): State {
    if j !in s.execs then s else
      var s1 := s.(execs := s.execs[j := s.execs[j] - n]);
      if s.execs[j] - n < 1 then RemoveJob(s1, j) else s1
  }

  // ---- elementary changes made by the scheduler ----

  function DropFromNode(n: Node, j: JobId): Node {
    if j in n.worker.job.jobs then
      Node(n.worker.(job := n.worker.job.DeleteJob(j)), n.busy - |n.worker.job.Tasks(j)|)
    else n
  }

  function StopWorkers(s: State, j: JobId): State {
    s.(nodes := map ip | ip in s.nodes :: DropFromNode(s.nodes[ip], j),
       toSend := s.toSend - {j},
       resched := WithoutJob(s.resched, j))
  }

  predicate LimitReached(s: State, j: JobId)
    requires j in s.jobs
  {
    s.jobs[j].maxFailedNodes >= 0 && |FailedOf(s, j)| >= s.jobs[j].maxFailedNodes
  }

  function TaskList(j: JobId, q: seq<TaskId>): (r: seq<WorkerTask>)
    ensures |r| == |q| && forall i | 0 <= i < |q| :: r[i] == WorkerTask(j, q[i])
  {
    if q == [] then [] else [WorkerTask(j, q[0])] + TaskList(j, q[1..])
  }

  /** One round of the loop in `RescheduleJob`. */
  function RescheduleOne(s: State, j: JobId, tasks: set<TaskId>): State {
    if j !in s.jobs then s else
      var s1 := s.(running := s.running[j := Running(s, j) - |tasks|]);
      if LimitReached(s, j) then RemoveJob(StopWorkers(s1, j), j)
      else if s.jobs[j].noReschedule then DecrementExecution(s1, j, |tasks|)
      else s1.(resched := s.resched + TaskList(j, Ascending(tasks)))
  }

  function RescheduleFrom(s: State, w: WorkerJob, ids: seq<JobId>): State
    decreases |ids|
  {
    if ids == [] then s
    else RescheduleFrom(RescheduleOne(s, ids[0], w.Tasks(ids[0])), w, ids[1..])
  }

  /** `RescheduleJob`. */
  function Reschedule(s: State, w: WorkerJob): State {
    RescheduleFrom(s, w, Ascending(w.jobs.Keys))
  }

  function AddFailed(s: State, j: JobId, ip: IP): State {
    s.(failed := s.failed[j := FailedOf(s, j) + {ip}])
  }

  /** `FailedWorkers::Add` for every job of a worker. */
  function AddFailedAll(s: State, w: WorkerJob, ip: IP): State {
    s.(failed := map j | j in s.failed.Keys + w.jobs.Keys ::
                   FailedOf(s, j) + (if j in w.jobs then {ip} else {}))
  }

  function SetNode(s: State, ip: IP, n: Node): State {
    s.(nodes := s.nodes[ip := n])
  }

  /** `CanAddTaskToWorker`: may one more task of job `j` join the batch `planned` for `w`? */
  predicate CanAdd(s: State, ip: IP, planned: WorkerJob, history: History, j: JobId)
    requires ip in s.nodes && j in s.jobs
  {
    var job, held := s.jobs[j], s.nodes[ip].worker.job;
    var n := |held.Tasks(j)| + |planned.Tasks(j)|;
    && (job.exclusive || held.exclusive ==>
          |held.jobs| <= 1 && (held.FirstJob() == -1 || held.FirstJob() == j))
    && (job.maxWorkerInstances > 0 ==> n < job.maxWorkerInstances)
    && (job.maxClusterInstances > 0 && j in s.running ==>
          s.running[j] + |planned.Tasks(j)| < job.maxClusterInstances)
    && (job.maxExecAtWorker > 0 ==>
          NumExecAt(history, j, ip) < job.maxExecAtWorker && n < job.maxExecAtWorker)
  }

  /** `GetNumPlannedExec`; the totals come from the worker manager. */
  function NumPlannedExec(job: Job, totalCPU: int, totalWorkers: int): (n: nat)
    ensures n >= 1
    ensures job.numExec > 0 ==> n == job.numExec
    ensures job.numExec <= 0 && job.unit.CpuUnit? ==> (n == totalCPU || (n == 1 && totalCPU < 1))
    ensures job.numExec <= 0 && job.unit.HostUnit? && job.hosts != {} ==> n == |job.hosts|
    ensures job.numExec <= 0 && job.unit.HostUnit? && job.hosts == {} ==>
              (n == totalWorkers || (n == 1 && totalWorkers < 1))
  {
    if job.numExec > 0 then job.numExec else
      var m := if job.unit.CpuUnit? then totalCPU
               else if job.hosts == {} then totalWorkers else |job.hosts|;
      if m < 1 then 1 else m
  }
}
