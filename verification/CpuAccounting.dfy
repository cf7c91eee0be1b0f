/** CPU accounting: each node's busy counter is the number of tasks its worker holds and stays
    within the worker's CPUs (src/master/scheduler.cpp:89-130, 343-377, 649-678,
    src/master/node_state.h:37-46). */
module CpuAccounting {
  import opened Ordering
  import opened WorkerJobs
  import opened SchedulerState
  import opened BatchSelection
  import opened BatchFacts
  import opened BatchTasks
  import opened SchedulerSteps
  import opened Safety
  import opened Rows
  import opened Conservation
  import opened ConservationSteps
  import opened FailureReports
  import opened FailedSends

  ghost predicate NodeCpu(n: Node) {
    n.busy == n.worker.job.Total() <= n.worker.numCPU
  }

  ghost predicate CpuOk(nodes: map<IP, Node>) {
    forall ip | ip in nodes :: NodeCpu(nodes[ip])
  }

  lemma CpuSet(nodes: map<IP, Node>, ip: IP, n: Node)
    requires CpuOk(nodes)
    ensures CpuOk(nodes[ip := n]) <==> NodeCpu(n)
  {
    hide NodeCpu;
    assert ip in nodes[ip := n] && nodes[ip := n][ip] == n;
  }

  lemma DropFromNodeCpu(n: Node, j: JobId)
    requires NodeCpu(n)
    ensures NodeCpu(DropFromNode(n, j))
  {
    DeleteJobTotal(n.worker.job, j);
    hide WorkerJob.Total;
  }

  lemma StopWorkersCpu(nodes: map<IP, Node>, j: JobId)
    requires CpuOk(nodes)
    ensures CpuOk(map ip | ip in nodes :: DropFromNode(nodes[ip], j))
  {
    hide DropFromNode, NodeCpu;
    forall ip | ip in nodes ensures NodeCpu(DropFromNode(nodes[ip], j)) {
      DropFromNodeCpu(nodes[ip], j);
    }
  }

  lemma DecrementNodes(s: State, j: JobId, n: nat)
    ensures DecrementExecution(s, j, n).nodes == s.nodes
  {
    hide Without, AsInt32;
  }

  /** What `RescheduleJob` does to the nodes. */
  lemma RescheduleOneNodes(s: State, j: JobId, ts: set<TaskId>)
    ensures RescheduleOne(s, j, ts).nodes ==
            if j in s.jobs && LimitReached(s, j) then map ip | ip in s.nodes :: DropFromNode(s.nodes[ip], j)
            else s.nodes
  {
    hide DecrementExecution, LimitReached, DropFromNode, TaskList, Ascending, Without, WithoutJob, AsInt32;
    DecrementNodes(s.(running := s.running[j := Running(s, j) - |ts|]), j, |ts|);
  }

  lemma RescheduleOneCpu(s: State, j: JobId, ts: set<TaskId>)
    requires CpuOk(s.nodes)
    ensures CpuOk(RescheduleOne(s, j, ts).nodes)
  {
    hide RescheduleOne, CpuOk, DropFromNode, LimitReached;
    RescheduleOneNodes(s, j, ts);
    StopWorkersCpu(s.nodes, j);
  }

  lemma {:induction false} RescheduleFromCpu(s: State, w: WorkerJob, ids: seq<JobId>)
    requires CpuOk(s.nodes)
    ensures CpuOk(RescheduleFrom(s, w, ids).nodes)
    decreases |ids|
  {
    hide RescheduleOne, CpuOk;
    if ids != [] {
      RescheduleOneCpu(s, ids[0], w.Tasks(ids[0]));
      RescheduleFromCpu(RescheduleOne(s, ids[0], w.Tasks(ids[0])), w, ids[1..]);
    }
  }

  lemma EmptyHoldsNothing()
    ensures Empty.Total() == 0
  {
    assert Empty.Pairs() == {};
  }

  lemma ChangeWorkerStateCpu(s: State, ip: IP)
    requires CpuOk(s.nodes)
    ensures CpuOk(ChangeWorkerState(s, ip).nodes)
  {
    hide AddFailedAll, RescheduleFrom, WorkerJob.Total;
    if !(ip !in s.nodes || s.nodes[ip].worker.state != NotAvailable || s.nodes[ip].busy < 1) {
      var n := s.nodes[ip];
      var n1 := Node(n.worker.(job := Empty), 0);
      EmptyHoldsNothing();
      AddFailedAllTasks(s, n.worker.job, ip);
      CpuSet(s.nodes, ip, n1);
      RescheduleFromCpu(SetNode(AddFailedAll(s, n.worker.job, ip), ip, n1), n.worker.job,
                        Ascending(n.worker.job.jobs.Keys));
    }
  }

  lemma DeleteNodeCpu(s: State, ip: IP)
    requires CpuOk(s.nodes)
    ensures CpuOk(DeleteNode(s, ip).nodes)
  {
    hide AddFailedAll, RescheduleFrom, NodeCpu;
    if ip in s.nodes {
      var w := s.nodes[ip].worker.job;
      RescheduleFromCpu(AddFailedAll(s, w, ip).(nodes := s.nodes - {ip}), w, Ascending(w.jobs.Keys));
    }
  }

  // ---- a node that is lost ends up empty ----

  ghost predicate Vacant(s: State, ip: IP) {
    ip in s.nodes && s.nodes[ip].busy == 0 && s.nodes[ip].worker.job.jobs.Keys == {}
  }

  lemma {:induction false} RescheduleFromVacant(s: State, w: WorkerJob, ids: seq<JobId>, ip: IP)
    requires Vacant(s, ip)
    ensures Vacant(RescheduleFrom(s, w, ids), ip)
    decreases |ids|
  {
    hide RescheduleOne, LimitReached;
    if ids != [] {
      RescheduleOneNodes(s, ids[0], w.Tasks(ids[0]));
      RescheduleFromVacant(RescheduleOne(s, ids[0], w.Tasks(ids[0])), w, ids[1..], ip);
    }
  }

  /** A node declared unavailable ends with no task and no busy CPU. */
  lemma LostNodeIsVacant(s: State, known: Registry, ip: IP)
    requires Base(s, known, {}) && CpuOk(s.nodes)
    requires ip in s.nodes && s.nodes[ip].worker.state == NotAvailable
    ensures Vacant(ChangeWorkerState(s, ip), ip)
  {
    hide Base, Solid, CpuOk, AddFailedAll, RescheduleFrom, WorkerJob.Total, WorkerJob.Valid;
    BaseIsSolid(s, known, {});
    SolidAt(s, ip);
    CpuAt(s.nodes, ip);
    var n := s.nodes[ip];
    if n.busy < 1 {
      EmptyTotal(n.worker.job);
    } else {
      var n1 := Node(n.worker.(job := Empty), 0);
      AddFailedAllTasks(s, n.worker.job, ip);
      RescheduleFromVacant(SetNode(AddFailedAll(s, n.worker.job, ip), ip, n1), n.worker.job,
                           Ascending(n.worker.job.jobs.Keys), ip);
    }
  }

  // ---- batches and successes ----

  /** What a batch adds is new to the worker: conservation makes `+=` count right. */
  lemma BatchIsNew(s: State, ip: IP, b: WorkerJob, s1: State, x: JobId)
    requires Conserved(s, map[]) && ip in s.nodes && Takes(s, b, s1)
    ensures s.nodes[ip].worker.job.Tasks(x) !! b.Tasks(x)
  {
    hide Conserved, Takes, HeldOf, ReschedOf;
    TakesAt(s, b, s1, x);
    HolderAt(s.nodes, ip, x);
    HolderScheduled(s, map[], ip);
    if x in s.nodes[ip].worker.job.jobs {
      RowAt(s, map[], x);
      HeldApartFromWaiting(RowOf(s, {}, x), ip);
    }
  }

  lemma HeldApartFromWaiting(r: Row, ip: IP)
    requires RowOk(r) && ip in r.held
    ensures r.held[ip] !! r.pending + r.resched
  {
    assert forall t | t in r.held[ip] :: t in AllHeld(r.held);
  }

  lemma RequestCpu(s: State, order: seq<IP>)
    requires Conserved(s, map[]) && CpuOk(s.nodes)
    ensures CpuOk(Request(s, order).1.nodes)
  {
    hide Plan, Request, Conserved, Takes, WaitingOnce, CpuOk, NodeCpu, Assign, Admits, Fits, MayJoin, WorkerJob.Tasks,
         Idle;
    RequestCases(s, order);
    match Request(s, order).0
    case NoTask =>
    case Batch(ip, b) =>
      var free := s.nodes[ip].FreeCPU();
      WaitingOnceHolds(s);
      PlanTakes(s, ip, free);
      PlanOk(s, ip, free);
      var j :| BatchOk(s, ip, free, b, j);
      AssignedCpu(s, Plan(s, ip, free).1, ip, b, j);
  }

  lemma AssignedCpu(s: State, s1: State, ip: IP, b: WorkerJob, j: JobId)
    requires Conserved(s, map[]) && CpuOk(s.nodes) && ip in s.nodes && s1.nodes == s.nodes && Takes(s, b, s1)
    requires b.jobs.Keys == {j} && |b.Tasks(j)| <= s.nodes[ip].FreeCPU()
    ensures CpuOk(Assign(s1, ip, b).nodes)
  {
    hide Conserved, Takes, CpuOk, NodeCpu, WorkerJob.Tasks, WorkerJob.Total, WorkerJob.Merge;
    forall x ensures s.nodes[ip].worker.job.Tasks(x) !! b.Tasks(x) {
      BatchIsNew(s, ip, b, s1, x);
    }
    CpuAt(s.nodes, ip);
    AssignCpu(s, ip, b, j);
    CpuSet(s.nodes, ip, Assign(s1, ip, b).nodes[ip]);
  }

  lemma CpuAt(nodes: map<IP, Node>, ip: IP)
    requires CpuOk(nodes) && ip in nodes
    ensures NodeCpu(nodes[ip])
  {
  }

  lemma AssignCpu(s: State, ip: IP, b: WorkerJob, j: JobId)
    requires ip in s.nodes && NodeCpu(s.nodes[ip]) && b.jobs.Keys == {j}
    requires |b.Tasks(j)| <= s.nodes[ip].FreeCPU()
    requires forall x :: s.nodes[ip].worker.job.Tasks(x) !! b.Tasks(x)
    ensures var n := s.nodes[ip];
            NodeCpu(Node(n.worker.(job := n.worker.job.Merge(b)), n.busy + b.Total()))
  {
    MergeTotal(s.nodes[ip].worker.job, b);
    SingleJobTotal(b, j);
    hide WorkerJob.Total, WorkerJob.Merge;
  }

  lemma SucceedTaskCpu(s: State, ip: IP, j: JobId, t: TaskId)
    requires CpuOk(s.nodes)
    ensures CpuOk(SucceedTask(s, ip, j, t).nodes)
  {
    hide DecrementExecution, CpuOk, WorkerJob.DeleteTask, WorkerJob.Total;
    if !(j !in s.jobs || ip !in s.nodes || !s.nodes[ip].worker.job.HasTask(j, t)) {
      var n := s.nodes[ip];
      var n1 := Node(n.worker.(job := n.worker.job.DeleteTask(j, t)), n.busy - 1);
      CpuAt(s.nodes, ip);
      DeleteTaskTotal(n.worker.job, j, t);
      CpuSet(s.nodes, ip, n1);
      DecrementNodes(SetNode(s, ip, n1).(running := s.running[j := Running(s, j) - 1]), j, 1);
    }
  }

  lemma StopJobCpu(s: State, j: JobId)
    requires CpuOk(s.nodes)
    ensures CpuOk(StopJob(s, j).nodes)
  {
    hide CpuOk, Without, AsInt32, WithoutJob, DropFromNode;
    StopWorkersCpu(s.nodes, j);
  }

  // ---- tasks and CPUs together ----

  /** Conservation and CPU accounting. */
  ghost predicate Accounted(s: State) {
    Conserved(s, map[]) && CpuOk(s.nodes)
  }

  lemma UpdateWorkerAccountedIff(s: State, ip: IP, state: WorkerState, numCPU: int)
    requires Accounted(s)
    ensures Accounted(UpdateWorker(s, ip, state, numCPU)) <==>
            (ip in s.nodes ==> s.nodes[ip].worker.job.Total() <= numCPU)
  {
    UpdateWorkerConserves(s, ip, state, numCPU);
    hide Conserved, CpuOk;
    if ip in s.nodes {
      CpuAt(s.nodes, ip);
      CpuSet(s.nodes, ip, UpdateWorker(s, ip, state, numCPU).nodes[ip]);
    }
  }

  /** A worker handed to `OnHostAppearance` is the one already known under its address, or one
      that holds nothing. */
  predicate Genuine(s: State, ip: IP, w: Worker) {
    w.job == Empty ||
    (ip in s.nodes && w.job == s.nodes[ip].worker.job && w.host == s.nodes[ip].worker.host
     && w.group == s.nodes[ip].worker.group)
  }

  lemma NewHostConserves(s: State, ip: IP, w: Worker)
    requires Conserved(s, map[]) && w.job == Empty && ip !in s.nodes
    ensures Conserved(AppearHost(s, ip, w), map[])
  {
    hide RowOk, RowOf, NoResidue;
    var s1 := AppearHost(s, ip, w);
    NewHostResidue(s, ip, w);
    forall j | j in s1.jobs ensures RowOk(RowOf(s1, PendingIn(map[], j), j)) {
      RowAt(s, map[], j);
      NewHostRow(s, ip, w, j);
    }
  }

  lemma NewHostResidue(s: State, ip: IP, w: Worker)
    requires NoResidue(s) && w.job == Empty
    ensures NoResidue(AppearHost(s, ip, w))
  {
    hide ListOk;
  }

  lemma NewHostRow(s: State, ip: IP, w: Worker, j: JobId)
    requires w.job == Empty && ip !in s.nodes && j in s.jobs
    ensures RowOf(AppearHost(s, ip, w), {}, j) == RowOf(s, {}, j)
  {
    hide ReschedOf;
    HeldChanged(s.nodes, ip, AppearHost(s, ip, w).nodes[ip], j);
    assert HeldOf(s.nodes, j) - {ip} == HeldOf(s.nodes, j);
  }

  /** Replacing a worker that holds tasks by an empty one loses them. */
  lemma ReplacedWorkerBreaks(s: State, known: Registry, ip: IP, w: Worker)
    requires Base(s, known, {}) && Conserved(s, map[]) && ip in s.nodes && w.job == Empty
    requires s.nodes[ip].worker.job.jobs.Keys != {}
    ensures !Conserved(AppearHost(s, ip, w), map[])
  {
    hide Base, Conserved, Solid, RowOk, ReschedOf, HeldOf;
    BaseIsSolid(s, known, {});
    SolidAt(s, ip);
    var j :| j in s.nodes[ip].worker.job.jobs;
    HolderScheduled(s, map[], ip);
    RowAt(s, map[], j);
    HolderAt(s.nodes, ip, j);
    HeldChanged(s.nodes, ip, AppearHost(s, ip, w).nodes[ip], j);
    ShrunkRow(RowOf(s, {}, j), ip);
    if Conserved(AppearHost(s, ip, w), map[]) {
      RowAt(AppearHost(s, ip, w), map[], j);
    }
  }

  /** The appearance of a host conserves tasks if and only if the worker known under the address
      comes back, or held nothing. */
  lemma AppearHostConservesIff(s: State, known: Registry, ip: IP, w: Worker)
    requires Base(s, known, {}) && Conserved(s, map[]) && Genuine(s, ip, w)
    ensures Conserved(AppearHost(s, ip, w), map[]) <==> (ip in s.nodes ==> w.job.jobs == s.nodes[ip].worker.job.jobs)
  {
    hide Base, Conserved;
    var n := AppearHost(s, ip, w).nodes[ip];
    if ip !in s.nodes {
      NewHostConserves(s, ip, w);
    } else if w.job.jobs == s.nodes[ip].worker.job.jobs {
      SetNodeTables(s.nodes, ip, n);
      SameHoldings(s, AppearHost(s, ip, w), map[]);
    } else {
      ReplacedWorkerBreaks(s, known, ip, w);
    }
  }

  /** The appearance of a host keeps the accounts if and only if the worker known under the
      address comes back, or held nothing, and has enough CPUs for what it holds. */
  lemma AppearHostAccountedIff(s: State, known: Registry, ip: IP, w: Worker)
    requires Base(s, known, {}) && Accounted(s) && Genuine(s, ip, w)
    ensures Accounted(AppearHost(s, ip, w)) <==>
            (ip in s.nodes ==> w.job.jobs == s.nodes[ip].worker.job.jobs) && w.job.Total() <= w.numCPU
  {
    hide Base, Conserved, CpuOk, WorkerJob.Total;
    var n := AppearHost(s, ip, w).nodes[ip];
    CpuSet(s.nodes, ip, n);
    EmptyHoldsNothing();
    AppearHostConservesIff(s, known, ip, w);
    if ip in s.nodes && w.job.jobs == s.nodes[ip].worker.job.jobs {
      CpuAt(s.nodes, ip);
      SameTotal(w.job, s.nodes[ip].worker.job);
    }
  }

  lemma SameTotal(a: WorkerJob, b: WorkerJob)
    requires a.jobs == b.jobs
    ensures a.Total() == b.Total()
  {
    assert a.Pairs() == b.Pairs();
  }

  /** At the limit, the CPU released by the report is released again by `StopWorkers`. */
  lemma ChargedTwice(s: State, ip: IP, j: JobId, n: int, ts: set<TaskId>)
    requires CpuOk(s.nodes) && Counts(s, ip, j) && HitsLimit(s, j)
    ensures var s1 := RescheduleOne(Charge(s, ip, j, n), j, ts);
            ip in s1.nodes && s1.nodes[ip].busy == s1.nodes[ip].worker.job.Total() - n
  {
    hide CpuOk, RescheduleOne, HitsLimit, LimitReached, WorkerJob.Total, SameTables;
    ChargeFacts(s, ip, j, n);
    RescheduleOneNodes(Charge(s, ip, j, n), j, ts);
    CpuAt(s.nodes, ip);
    DeleteJobTotal(s.nodes[ip].worker.job, j);
  }

  /** A failure report keeps the accounts if and only if it is ignored, or the worker holds the
      task and the job stays below its failed-node limit. */
  lemma FailTaskAccountedIff(s: State, known: Registry, ip: IP, j: JobId, t: TaskId)
    requires Base(s, known, {}) && Accounted(s)
    ensures Accounted(FailTask(s, ip, j, t)) <==>
            (Counts(s, ip, j) ==> !HitsLimit(s, j) && s.nodes[ip].worker.job.HasTask(j, t))
  {
    hide Base, Conserved, CpuOk, NodeCpu, HitsLimit, RescheduleOne, FailTask, Charge, DropTaskAt;
    FailTaskConservesIff(s, known, ip, j, t);
    if !Counts(s, ip, j) {
      IgnoredFailure(s, ip, j, t);
    } else if HitsLimit(s, j) {
      FailTaskAtLimitCpu(s, ip, j, t);
    } else if s.nodes[ip].worker.job.HasTask(j, t) {
      FailTaskBelowLimitCpu(s, ip, j, t);
    }
  }

  lemma FailTaskAtLimitCpu(s: State, ip: IP, j: JobId, t: TaskId)
    requires CpuOk(s.nodes) && Counts(s, ip, j) && HitsLimit(s, j)
    ensures !CpuOk(FailTask(s, ip, j, t).nodes)
  {
    hide CpuOk, HitsLimit, LimitReached, RescheduleOne, Charge, Purged, SameTables, WorkerJob.Total;
    ChargedTwice(s, ip, j, 1, {t});
    ChargeFacts(s, ip, j, 1);
    var s1 := RescheduleOne(Charge(s, ip, j, 1), j, {t});
    RescheduleAtLimit(s, Charge(s, ip, j, 1), j, {t});
    PurgedTable(s, j, s1, ip);
    DropAbsentTask(s1, ip, j, t);
    if CpuOk(s1.nodes) {
      CpuAt(s1.nodes, ip);
    }
  }

  lemma FailTaskBelowLimitCpu(s: State, ip: IP, j: JobId, t: TaskId)
    requires CpuOk(s.nodes) && Counts(s, ip, j) && !HitsLimit(s, j) && s.nodes[ip].worker.job.HasTask(j, t)
    ensures CpuOk(FailTask(s, ip, j, t).nodes)
  {
    hide CpuOk, HitsLimit, LimitReached, RescheduleOne, FailTask, WorkerJob.Total, WorkerJob.DeleteTask;
    FailTaskBelowLimit(s, ip, j, t);
    CpuAt(s.nodes, ip);
    DeleteTaskTotal(s.nodes[ip].worker.job, j, t);
    CpuSet(s.nodes, ip, TaskOff(s, ip, j, t).nodes[ip]);
    RescheduleOneCpu(TaskOff(s, ip, j, t), j, {t});
  }

  /** A failed send keeps the accounts if and only if it is ignored, or the job stays below its
      failed-node limit, the tables add up, and the batch has as many tasks as the worker loses. */
  lemma FailSendAccountedIff(s: State, known: Registry, ip: IP, batch: WorkerJob, j: JobId)
    requires Base(s, known, {}) && Accounted(s) && IsBatch(batch, j)
    ensures Accounted(FailSend(s, ip, batch)) <==>
            (Counts(s, ip, j) ==>
              && !HitsLimit(s, j) && Exchanges(s, ip, batch, j)
              && |batch.Tasks(j)| == |s.nodes[ip].worker.job.Tasks(j)|)
  {
    hide Base, Conserved, CpuOk, HitsLimit, FailSend, RowOf, Done;
    FailSendConservesIff(s, known, ip, batch, j);
    if !Counts(s, ip, j) {
      IgnoredSend(s, ip, batch, j);
    } else if HitsLimit(s, j) {
      if s.nodes[ip].worker.job.jobs.Keys <= {j} {
        FailSendAtLimitCpu(s, ip, batch, j);
      }
    } else if Exchanges(s, ip, batch, j) {
      FailSendBelowLimitCpu(s, ip, batch, j);
    }
  }

  lemma FailSendAtLimitCpu(s: State, ip: IP, batch: WorkerJob, j: JobId)
    requires CpuOk(s.nodes) && Counts(s, ip, j) && HitsLimit(s, j)
    requires batch.jobs.Keys == {j} && batch.Tasks(j) != {} && s.nodes[ip].worker.job.jobs.Keys <= {j}
    ensures !CpuOk(FailSend(s, ip, batch).nodes)
  {
    hide CpuOk, HitsLimit, LimitReached, RescheduleOne, Charge, Purged, SameTables, WorkerJob.Total, FailSend,
         DropFirstAt;
    var ts, n := batch.Tasks(j), |batch.Tasks(j)|;
    FailSendSteps(s, ip, batch, j);
    ChargedTwice(s, ip, j, n, ts);
    ChargeFacts(s, ip, j, n);
    var s1 := RescheduleOne(Charge(s, ip, j, n), j, ts);
    RescheduleAtLimit(s, Charge(s, ip, j, n), j, ts);
    PurgedTable(s, j, s1, ip);
    DropNothing(s1, ip);
    SizePositive(ts);
    if CpuOk(s1.nodes) {
      CpuAt(s1.nodes, ip);
    }
  }

  lemma FailSendBelowLimitCpu(s: State, ip: IP, batch: WorkerJob, j: JobId)
    requires CpuOk(s.nodes) && Counts(s, ip, j) && !HitsLimit(s, j)
    requires batch.jobs.Keys == {j} && s.nodes[ip].worker.job.FirstJob() == j
    ensures CpuOk(FailSend(s, ip, batch).nodes) <==> |batch.Tasks(j)| == |s.nodes[ip].worker.job.Tasks(j)|
  {
    hide CpuOk, HitsLimit, LimitReached, RescheduleOne, FailSend, WorkerJob.Total, WorkerJob.DeleteJob;
    var n := |batch.Tasks(j)|;
    FailSendBelowLimit(s, ip, batch, j);
    CpuAt(s.nodes, ip);
    DeleteJobTotal(s.nodes[ip].worker.job, j);
    CpuSet(s.nodes, ip, JobOff(s, ip, j, n).nodes[ip]);
    JobOffLimit(s, ip, j, n);
    BelowLimitFacts(JobOff(s, ip, j, n), j, batch.Tasks(j));
  }
}
