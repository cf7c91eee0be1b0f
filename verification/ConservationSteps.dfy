/** The steps that conserve tasks unconditionally: planning and stopping a job, a success report,
    and changes of a worker's state. */
module ConservationSteps {
  import opened Ordering
  import opened WorkerJobs
  import opened SchedulerState
  import opened BatchTasks
  import opened SchedulerSteps
  import opened Safety
  import opened Rows
  import opened Conservation

  lemma NoLimbo(j: JobId)
    ensures var none: Limbo := map[]; none - {j} == none
  {
  }

  lemma StopJobConserves(s: State, j: JobId)
    requires Conserved(s, map[])
    ensures Conserved(StopJob(s, j), map[])
  {
    hide Conserved, Purged, StopWorkers, RemoveJob;
    if j in s.jobs {
      RemovedIsPurged(s, j, 0);
      PurgedKeeps(s, map[], j, StopJob(s, j));
      NoLimbo(j);
    }
  }

  // ---- planning ----

  lemma UnknownRow(s: State, j: JobId)
    requires NoResidue(s) && j !in s.jobs
    ensures PendingIn(s.toSend, j) == {} && ReschedOf(s.resched, j) == {}
    ensures HeldOf(s.nodes, j) == map[] && RunningIn(s.running, j) == 0
  {
    forall ip | ip in s.nodes ensures j !in s.nodes[ip].worker.job.jobs {
    }
  }

  lemma FreshRowOk(n: nat)
    ensures RowOk(Row(Below(n), {}, map[], {}, n, 0, n))
  {
    assert AllHeld(map[]) == {};
    assert Unfinished(Row(Below(n), {}, map[], {}, n, 0, n)) == Below(n);
  }

  lemma PlannedRow(s: State, s1: State, j: JobId, n: nat, x: JobId)
    requires NoResidue(s) && j !in s.jobs && j in s1.jobs && s1.jobs == s.jobs[j := s1.jobs[j]]
    requires s1.jobs[j].planned == n && s1.execs == s.execs[j := n] && s1.toSend == s.toSend[j := Below(n)]
    requires s1.nodes == s.nodes && s1.resched == s.resched && s1.running == s.running
    ensures x == j ==> RowOf(s1, {}, j) == Row(Below(n), {}, map[], {}, n, 0, n)
    ensures x in s.jobs ==> RowOf(s1, {}, x) == RowOf(s, {}, x)
  {
    hide ReschedOf, HeldOf, NoResidue;
    UnknownRow(s, j);
  }

  lemma PlannedResidue(s: State, s1: State, j: JobId)
    requires NoResidue(s) && j in s1.jobs && s1.jobs == s.jobs[j := s1.jobs[j]]
    requires s1.execs.Keys == s.execs.Keys + {j} && s1.toSend.Keys == s.toSend.Keys + {j}
    requires s1.nodes == s.nodes && s1.resched == s.resched && s1.running == s.running
    ensures NoResidue(s1)
  {
    hide NoDuplicates;
  }

  /** A new job starts with all its planned tasks waiting to be sent. */
  lemma PlanJobConserves(s: State, job: Job, cpus: int, workers: int)
    requires Conserved(s, map[]) && job.id !in s.jobs
    ensures Conserved(PlanJob(s, job, cpus, workers), map[])
  {
    hide NoResidue, RowOk, RowOf, Inserted;
    var s1 := PlanJob(s, job, cpus, workers);
    var n := NumPlannedExec(job, cpus, workers);
    UnknownRow(s, job.id);
    assert {} + Below(n) == Below(n);
    PlannedResidue(s, s1, job.id);
    FreshRowOk(n);
    forall x | x in s1.jobs ensures RowOk(RowOf(s1, PendingIn(map[], x), x)) {
      PlannedRow(s, s1, job.id, n, x);
      if x != job.id {
        RowAt(s, map[], x);
      }
    }
  }

  // ---- a success report ----

  lemma HeldCredited(nodes: map<IP, Node>, ip: IP, n: Node, j: JobId, t: TaskId, x: JobId)
    requires ip in nodes && nodes[ip].worker.job.HasTask(j, t)
    requires n.worker.job == nodes[ip].worker.job.DeleteTask(j, t)
    ensures x != j ==> HeldOf(nodes[ip := n], x) == HeldOf(nodes, x)
    ensures x == j ==> var h := HeldOf(nodes, j);
                       && ip in h && t in h[ip]
                       && HeldOf(nodes[ip := n], j) == if h[ip] == {t} then h - {ip} else h[ip := h[ip] - {t}]
  {
    hide HeldOf;
    HolderAt(nodes, ip, x);
    if x == j {
      HeldChanged(nodes, ip, n, x);
    } else {
      HeldSame(nodes, ip, n, x);
    }
  }

  ghost function AfterCredit(s: State, ip: IP, j: JobId, t: TaskId): State
    requires ip in s.nodes && j in s.execs
  {
    var n := s.nodes[ip];
    SetNode(s, ip, Node(n.worker.(job := n.worker.job.DeleteTask(j, t)), n.busy - 1))
    .(running := s.running[j := Running(s, j) - 1], execs := s.execs[j := s.execs[j] - 1])
  }

  lemma CreditedRow(s: State, ip: IP, j: JobId, t: TaskId, x: JobId)
    requires ip in s.nodes && j in s.execs && j in s.jobs && x in s.jobs && s.nodes[ip].worker.job.HasTask(j, t)
    ensures x == j ==> var r := RowOf(s, {}, j);
                       && ip in r.held && t in r.held[ip]
                       && RowOf(AfterCredit(s, ip, j, t), {}, j) == Credited(r, ip, t)
    ensures x != j ==> RowOf(AfterCredit(s, ip, j, t), {}, x) == RowOf(s, {}, x)
  {
    hide ReschedOf, HeldOf, WorkerJob.DeleteTask;
    HeldCredited(s.nodes, ip, AfterCredit(s, ip, j, t).nodes[ip], j, t, x);
  }

  lemma CreditedResidue(s: State, ip: IP, j: JobId, t: TaskId)
    requires NoResidue(s) && ip in s.nodes && j in s.execs
    ensures NoResidue(AfterCredit(s, ip, j, t))
  {
    hide ListOk;
    var w := s.nodes[ip].worker.job;
    assert w.DeleteTask(j, t).jobs.Keys <= w.jobs.Keys;
  }

  lemma CreditConserves(s: State, ip: IP, j: JobId, t: TaskId)
    requires Conserved(s, map[]) && ip in s.nodes && j in s.execs && j in s.jobs
    requires s.nodes[ip].worker.job.HasTask(j, t)
    ensures Conserved(AfterCredit(s, ip, j, t), map[])
  {
    hide RowOk, RowOf, NoResidue, Credited, WorkerJob.DeleteTask;
    CreditedResidue(s, ip, j, t);
    forall x | x in s.jobs {
      CreditedRow(s, ip, j, t, x);
    }
    RowAt(s, map[], j);
    CreditOneRow(s, ip, j, t);
    OneRowKeeps(s, map[], j, AfterCredit(s, ip, j, t), map[]);
  }

  lemma CreditOneRow(s: State, ip: IP, j: JobId, t: TaskId)
    requires j in s.jobs && RowOk(RowOf(s, {}, j))
    requires ip in RowOf(s, {}, j).held && t in RowOf(s, {}, j).held[ip]
    ensures RowOk(Credited(RowOf(s, {}, j), ip, t))
  {
    hide RowOk, HeldOf, ReschedOf, Credited;
    CreditedOk(RowOf(s, {}, j), ip, t);
  }

  /** A success report credits a task the worker holds, once; any other success report changes
      nothing. */
  lemma SucceedTaskConserves(s: State, known: Registry, ip: IP, j: JobId, t: TaskId)
    requires Base(s, known, {}) && Conserved(s, map[])
    ensures Conserved(SucceedTask(s, ip, j, t), map[])
  {
    hide Base, Conserved, Solid, DecrementExecution, WorkerJob.DeleteTask;
    if !(j !in s.jobs || ip !in s.nodes || !s.nodes[ip].worker.job.HasTask(j, t)) {
      ExecsAt(s, map[], j);
      CreditConserves(s, ip, j, t);
      var n := s.nodes[ip];
      var n1 := Node(n.worker.(job := n.worker.job.DeleteTask(j, t)), n.busy - 1);
      var s1 := SetNode(s, ip, n1).(running := s.running[j := Running(s, j) - 1]);
      var s2 := AfterCredit(s, ip, j, t);
      DecrementCases(s1, j, 1);
      if s.execs[j] - 1 < 1 {
        BaseIsSolid(s, known, {});
        SolidAfterCredit(s, ip, j, t);
        EmptyRowOf(s2, j);
        UpdatedThenRemoved(s.execs, j, s.execs[j] - 1);
        NothingLeft(s2, j, RemoveJob(s1, j));
        PurgedKeeps(s2, map[], j, RemoveJob(s1, j));
        NoLimbo(j);
      }
    }
  }

  lemma DeleteTaskValid(w: WorkerJob, j: JobId, t: TaskId)
    requires w.Valid()
    ensures w.DeleteTask(j, t).Valid()
  {
  }

  lemma SolidAfterCredit(s: State, ip: IP, j: JobId, t: TaskId)
    requires Solid(s) && ip in s.nodes && j in s.execs
    ensures Solid(AfterCredit(s, ip, j, t))
  {
    hide WorkerJob.DeleteTask, WorkerJob.Valid;
    DeleteTaskValid(s.nodes[ip].worker.job, j, t);
  }

  lemma EmptyRowOf(s: State, j: JobId)
    requires Conserved(s, map[]) && j in s.jobs && j in s.execs && s.execs[j] < 1
    ensures Unfinished(RowOf(s, {}, j)) == {}
  {
    hide Conserved, RowOk, HeldOf, ReschedOf;
    RowAt(s, map[], j);
    EmptyRow(RowOf(s, {}, j));
  }

  // ---- changes of a worker ----

  ghost predicate SameTables(nodes: map<IP, Node>, nodes1: map<IP, Node>) {
    && nodes1.Keys == nodes.Keys
    && forall ip | ip in nodes :: nodes1[ip].worker.job.jobs == nodes[ip].worker.job.jobs
  }

  lemma HeldSameTables(nodes: map<IP, Node>, nodes1: map<IP, Node>, j: JobId)
    requires SameTables(nodes, nodes1)
    ensures HeldOf(nodes1, j) == HeldOf(nodes, j)
  {
    assert HeldOf(nodes1, j).Keys == HeldOf(nodes, j).Keys;
  }

  lemma SameResidue(s: State, s1: State)
    requires NoResidue(s) && SameTasks(s, s1) && SameTables(s.nodes, s1.nodes)
    ensures NoResidue(s1)
  {
    hide ListOk;
  }

  lemma SameRow(s: State, s1: State, limbo: Limbo, j: JobId)
    requires SameTasks(s, s1) && SameTables(s.nodes, s1.nodes) && j in s.jobs
    ensures RowOf(s1, PendingIn(limbo, j), j) == RowOf(s, PendingIn(limbo, j), j)
  {
    hide ReschedOf, HeldOf, SameTables;
    HeldSameTables(s.nodes, s1.nodes, j);
  }

  /** Two states whose workers hold the same tables conserve alike. */
  lemma SameHoldings(s: State, s1: State, limbo: Limbo)
    requires Conserved(s, limbo) && SameTasks(s, s1) && SameTables(s.nodes, s1.nodes)
    ensures Conserved(s1, limbo)
  {
    hide RowOk, RowOf, NoResidue, SameTables;
    SameResidue(s, s1);
    forall j | j in s1.jobs ensures RowOk(RowOf(s1, PendingIn(limbo, j), j)) {
      RowAt(s, limbo, j);
      SameRow(s, s1, limbo, j);
    }
  }

  lemma SetNodeTables(nodes: map<IP, Node>, ip: IP, n: Node)
    requires ip in nodes && n.worker.job.jobs == nodes[ip].worker.job.jobs
    ensures SameTables(nodes, nodes[ip := n])
  {
  }

  lemma UpdateWorkerConserves(s: State, ip: IP, state: WorkerState, numCPU: int)
    requires Conserved(s, map[])
    ensures Conserved(UpdateWorker(s, ip, state, numCPU), map[])
  {
    hide Conserved, SameTables;
    if ip in s.nodes {
      SetNodeTables(s.nodes, ip, UpdateWorker(s, ip, state, numCPU).nodes[ip]);
      SameHoldings(s, UpdateWorker(s, ip, state, numCPU), map[]);
    }
  }
}
