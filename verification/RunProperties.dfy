/** What each step takes from a job that is already planned: every step but a request for tasks and the
    appearance of a host leaves it with no more executions, running tasks, held tasks and eligible
    hosts than before (src/master/scheduler.cpp:57-692). */
module RunProperties {
  import opened Ordering
  import opened WorkerJobs
  import opened SchedulerState
  import opened SchedulerSteps
  import opened Safety
  import opened Conservation
  import opened SchedulerRuns

  function HeldAt(nodes: map<IP, Node>, ip: IP, j: JobId): set<TaskId> {
    if ip in nodes then nodes[ip].worker.job.Tasks(j) else {}
  }

  ghost predicate HoldsLess(nodes: map<IP, Node>, nodes1: map<IP, Node>, j: JobId) {
    && nodes1.Keys <= nodes.Keys
    && forall ip | ip in nodes1 :: nodes1[ip].worker.job.Tasks(j) <= nodes[ip].worker.job.Tasks(j)
  }

  /** From `s` to `s1` job `j` only loses: executions, running tasks, tasks on workers, and hosts
      that may still run it; or it is removed. */
  ghost predicate Wanes(s: State, s1: State, j: JobId) {
    j in s1.jobs ==>
      && j in s.jobs && s1.jobs[j] == s.jobs[j]
      && FailedIn(s.failed, j) <= FailedIn(s1.failed, j)
      && RunningIn(s1.execs, j) <= RunningIn(s.execs, j)
      && RunningIn(s1.running, j) <= RunningIn(s.running, j)
      && HoldsLess(s.nodes, s1.nodes, j)
  }

  lemma WanesTransitive(s: State, s1: State, s2: State, j: JobId)
    requires Wanes(s, s1, j) && Wanes(s1, s2, j)
    ensures Wanes(s, s2, j)
  {
  }

  lemma DropWanes(nodes: map<IP, Node>, x: JobId, j: JobId)
    ensures HoldsLess(nodes, map ip | ip in nodes :: DropFromNode(nodes[ip], x), j)
  {
    forall ip | ip in nodes
      ensures DropFromNode(nodes[ip], x).worker.job.Tasks(j) <= nodes[ip].worker.job.Tasks(j)
    {
    }
  }

  lemma RemoveWanes(s: State, x: JobId, j: JobId)
    ensures Wanes(s, RemoveJob(s, x), j)
  {
    hide Without, AsInt32;
  }

  lemma DecrementWanes(s: State, x: JobId, n: nat, j: JobId)
    requires j in s.jobs ==> j in s.execs
    ensures Wanes(s, DecrementExecution(s, x, n), j)
  {
    hide RemoveJob;
    if x in s.execs {
      var s1 := s.(execs := s.execs[x := s.execs[x] - n]);
      RemoveWanes(s1, x, j);
    }
  }

  lemma StopAndRemoveWanes(s: State, x: JobId, j: JobId)
    ensures Wanes(s, RemoveJob(StopWorkers(s, x), x), j)
  {
    hide RemoveJob, DropFromNode, WithoutJob;
    DropWanes(s.nodes, x, j);
    RemoveWanes(StopWorkers(s, x), x, j);
    hide HoldsLess;
    assert Wanes(s, StopWorkers(s, x), j);
    WanesTransitive(s, StopWorkers(s, x), RemoveJob(StopWorkers(s, x), x), j);
  }

  lemma RescheduleOneWanes(s: State, x: JobId, ts: set<TaskId>, j: JobId)
    requires s.execs.Keys == s.jobs.Keys
    ensures Wanes(s, RescheduleOne(s, x, ts), j)
  {
    hide StopWorkers, RemoveJob, DecrementExecution, LimitReached, TaskList, Ascending;
    if x in s.jobs {
      var s1 := s.(running := s.running[x := Running(s, x) - |ts|]);
      assert Wanes(s, s1, j);
      if LimitReached(s, x) {
        StopAndRemoveWanes(s1, x, j);
        WanesTransitive(s, s1, RemoveJob(StopWorkers(s1, x), x), j);
      } else if s.jobs[x].noReschedule {
        DecrementWanes(s1, x, |ts|, j);
        WanesTransitive(s, s1, DecrementExecution(s1, x, |ts|), j);
      }
    }
  }

  lemma {:induction false} RescheduleFromWanes(s: State, known: Registry, pending: set<JobId>, w: WorkerJob,
                                               ids: seq<JobId>, j: JobId)
    requires Base(s, known, pending)
    ensures Wanes(s, RescheduleFrom(s, w, ids), j)
    decreases |ids|
  {
    hide Base, Wanes, RescheduleOne;
    if ids == [] {
      WanesSelf(s, j);
    } else {
      var s1 := RescheduleOne(s, ids[0], w.Tasks(ids[0]));
      SameKeys(s, known, pending);
      RescheduleOneWanes(s, ids[0], w.Tasks(ids[0]), j);
      RescheduleOneKeeps(s, known, pending, ids[0], w.Tasks(ids[0]));
      RescheduleFromWanes(s1, known, pending - {ids[0]}, w, ids[1..], j);
      WanesTransitive(s, s1, RescheduleFrom(s1, w, ids[1..]), j);
    }
  }

  lemma WanesSelf(s: State, j: JobId)
    ensures Wanes(s, s, j)
  {
  }

  lemma SameKeys(s: State, known: Registry, pending: set<JobId>)
    requires Base(s, known, pending)
    ensures s.execs.Keys == s.jobs.Keys
  {
  }

  lemma SetNodeWanes(s: State, ip: IP, n: Node, j: JobId)
    requires ip in s.nodes && n.worker.job.Tasks(j) <= s.nodes[ip].worker.job.Tasks(j)
    ensures Wanes(s, SetNode(s, ip, n), j)
  {
  }

  lemma AddFailedWanes(s: State, x: JobId, ip: IP, j: JobId)
    ensures Wanes(s, AddFailed(s, x, ip), j)
  {
  }

  lemma AddFailedAllWanes(s: State, w: WorkerJob, ip: IP, j: JobId)
    ensures Wanes(s, AddFailedAll(s, w, ip), j)
  {
  }

  lemma DeleteTaskLess(w: WorkerJob, x: JobId, t: TaskId, j: JobId)
    ensures w.DeleteTask(x, t).Tasks(j) <= w.Tasks(j)
    ensures w.DeleteJob(x).Tasks(j) <= w.Tasks(j)
  {
  }

  lemma ChangeWorkerStateWanes(s: State, known: Registry, ip: IP, j: JobId)
    requires Base(s, known, {})
    ensures Wanes(s, ChangeWorkerState(s, ip), j)
  {
    hide Base, Wanes, WorkerOk, AddFailedAll, RescheduleFrom;
    WanesSelf(s, j);
    if !(ip !in s.nodes || s.nodes[ip].worker.state != NotAvailable || s.nodes[ip].busy < 1) {
      var n := s.nodes[ip];
      var w, n1 := n.worker.job, Node(n.worker.(job := Empty), 0);
      var s1 := AddFailedAll(s, w, ip);
      WorkerAt(s, known, ip);
      WorkerJobKnown(n.worker, known);
      AddFailedAllKeeps(s, known, w, ip);
      EmptyWorkerOk(n.worker, known);
      SetNodeKeeps(s1, known, w.jobs.Keys, ip, n1);
      AddFailedAllTasks(s, w, ip);
      AddFailedAllWanes(s, w, ip, j);
      SetNodeWanes(s1, ip, n1, j);
      RescheduleFromWanes(SetNode(s1, ip, n1), known, w.jobs.Keys, w, Ascending(w.jobs.Keys), j);
      WanesTransitive(s, s1, SetNode(s1, ip, n1), j);
      WanesTransitive(s, SetNode(s1, ip, n1), ChangeWorkerState(s, ip), j);
    }
  }

  lemma DeleteNodeWanes(s: State, known: Registry, ip: IP, j: JobId)
    requires Base(s, known, {})
    ensures Wanes(s, DeleteNode(s, ip), j)
  {
    hide Wanes, WorkerOk, AddFailedAll, RescheduleFrom, JobsOk, QueueOk, SentOk, FailedLimit;
    WanesSelf(s, j);
    if ip in s.nodes {
      var w := s.nodes[ip].worker.job;
      WorkerAt(s, known, ip);
      WorkerJobKnown(s.nodes[ip].worker, known);
      AddFailedAllKeeps(s, known, w, ip);
      AddFailedAllTasks(s, w, ip);
      var s1 := AddFailedAll(s, w, ip);
      var s2 := s1.(nodes := s.nodes - {ip});
      assert Base(s2, known, w.jobs.Keys);
      AddFailedAllWanes(s, w, ip, j);
      DeletedWanes(s1, ip, j);
      RescheduleFromWanes(s2, known, w.jobs.Keys, w, Ascending(w.jobs.Keys), j);
      WanesTransitive(s, s1, s2, j);
      WanesTransitive(s, s2, DeleteNode(s, ip), j);
    }
  }

  lemma DeletedWanes(s: State, ip: IP, j: JobId)
    ensures Wanes(s, s.(nodes := s.nodes - {ip}), j)
  {
  }

  lemma SucceedTaskWanes(s: State, known: Registry, ip: IP, x: JobId, t: TaskId, j: JobId)
    requires Base(s, known, {})
    ensures Wanes(s, SucceedTask(s, ip, x, t), j)
  {
    hide Base, DecrementExecution, WorkerJob.DeleteTask;
    WanesSelf(s, j);
    SameKeys(s, known, {});
    if !(x !in s.jobs || ip !in s.nodes || !s.nodes[ip].worker.job.HasTask(x, t)) {
      var n := s.nodes[ip];
      var s1 := SetNode(s, ip, Node(n.worker.(job := n.worker.job.DeleteTask(x, t)), n.busy - 1));
      var s2 := s1.(running := s.running[x := Running(s, x) - 1]);
      DeleteTaskLess(n.worker.job, x, t, j);
      SetNodeWanes(s, ip, s1.nodes[ip], j);
      assert Wanes(s1, s2, j);
      DecrementWanes(s2, x, 1, j);
      WanesTransitive(s, s1, s2, j);
      WanesTransitive(s, s2, SucceedTask(s, ip, x, t), j);
    }
  }

  lemma ChargeWanes(s: State, ip: IP, x: JobId, n: int, j: JobId)
    requires ip in s.nodes
    ensures Wanes(s, Charge(s, ip, x, n), j)
  {
    hide Wanes;
    AddFailedWanes(s, x, ip, j);
    SetNodeWanes(AddFailed(s, x, ip), ip, s.nodes[ip].(busy := s.nodes[ip].busy - n), j);
    WanesTransitive(s, AddFailed(s, x, ip), Charge(s, ip, x, n), j);
  }

  lemma FailTaskWanes(s: State, known: Registry, ip: IP, x: JobId, t: TaskId, j: JobId)
    requires Base(s, known, {})
    ensures Wanes(s, FailTask(s, ip, x, t), j)
  {
    hide Base, Wanes, RescheduleOne, Charge, DropTaskAt;
    WanesSelf(s, j);
    if Counts(s, ip, x) {
      var c := Charge(s, ip, x, 1);
      var s1 := RescheduleOne(c, x, {t});
      ChargeKeeps(s, known, ip, x, 1);
      SameKeys(c, known, {x});
      ChargeWanes(s, ip, x, 1, j);
      RescheduleOneWanes(c, x, {t}, j);
      DropTaskWanes(s1, ip, x, t, j);
      WanesTransitive(s, c, s1, j);
      WanesTransitive(s, s1, FailTask(s, ip, x, t), j);
    }
  }

  lemma DropTaskWanes(s: State, ip: IP, x: JobId, t: TaskId, j: JobId)
    ensures Wanes(s, DropTaskAt(s, ip, x, t), j)
  {
    hide Wanes;
    WanesSelf(s, j);
    if ip in s.nodes {
      DeleteTaskLess(s.nodes[ip].worker.job, x, t, j);
      SetNodeWanes(s, ip, DropTaskAt(s, ip, x, t).nodes[ip], j);
    }
  }

  lemma DropFirstWanes(s: State, ip: IP, j: JobId)
    ensures Wanes(s, DropFirstAt(s, ip), j)
  {
    hide Wanes;
    WanesSelf(s, j);
    if ip in s.nodes {
      var w := s.nodes[ip].worker.job;
      if w.FirstJob() >= 0 {
        DeleteTaskLess(w, w.FirstJob(), 0, j);
      }
      SetNodeWanes(s, ip, DropFirstJob(s.nodes[ip]), j);
    }
  }

  lemma FailSendWanes(s: State, known: Registry, ip: IP, b: WorkerJob, j: JobId)
    requires Base(s, known, {})
    ensures Wanes(s, FailSend(s, ip, b), j)
  {
    hide Base, Wanes, RescheduleFrom, Charge, DropFirstAt;
    WanesSelf(s, j);
    var x := b.FirstJob();
    if Counts(s, ip, x) {
      var c := Charge(s, ip, x, b.Total());
      var s1 := Reschedule(c, b);
      FirstJobIsKey(b);
      ChargeKeeps(s, known, ip, x, b.Total());
      ChargeWanes(s, ip, x, b.Total(), j);
      RescheduleFromWanes(c, known, {x}, b, Ascending(b.jobs.Keys), j);
      DropFirstWanes(s1, ip, j);
      WanesTransitive(s, c, s1, j);
      WanesTransitive(s, s1, FailSend(s, ip, b), j);
    }
  }

  /** Every step but a request for tasks and the appearance of a host only takes from a job that
      has already been planned. */
  lemma StepWanes(r: Trace, e: Event, j: JobId)
    requires Base(r.s, r.known, {}) && Possible(r, e) && j in r.known
    requires !e.TaskRequested? && !e.HostAppeared?
    ensures Wanes(r.s, Next(r.s, e), j)
  {
    hide Base, Wanes, UpdateWorker, ChangeWorkerState, DeleteNode, FailSend, SucceedTask, FailTask,
         StopWorkers, RemoveJob, PlanJob;
    WanesSelf(r.s, j);
    match e
    case WorkerUpdated(ip, st, n) => UpdateWanes(r.s, ip, st, n, j);
    case WorkerStateChanged(ip) => ChangeWorkerStateWanes(r.s, r.known, ip, j);
    case NodeDeleted(ip) => DeleteNodeWanes(r.s, r.known, ip, j);
    case JobPlanned(job, cpus, workers) => PlanWanes(r.s, job, cpus, workers, j);
    case SendFailed(ip, b) => FailSendWanes(r.s, r.known, ip, b, j);
    case TaskSucceeded(ip, x, t) => SucceedTaskWanes(r.s, r.known, ip, x, t, j);
    case TaskFailed(ip, x, t) => FailTaskWanes(r.s, r.known, ip, x, t, j);
    case TaskTimedOut(ip, x, t) => FailTaskWanes(r.s, r.known, ip, x, t, j);
    case JobStopped(x) => StopAndRemoveWanes(r.s, x, j);
    case _ => assert false;
  }

  lemma UpdateWanes(s: State, ip: IP, st: WorkerState, n: int, j: JobId)
    ensures Wanes(s, UpdateWorker(s, ip, st, n), j)
  {
  }

  lemma PlanWanes(s: State, job: Job, cpus: int, workers: int, j: JobId)
    requires job.id != j
    ensures Wanes(s, PlanJob(s, job, cpus, workers), j)
  {
    hide Inserted, Below;
  }
}
