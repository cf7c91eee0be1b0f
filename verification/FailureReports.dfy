/** Failure reports and failed sends (src/master/scheduler.cpp:388-434, 478-525) conserve tasks
    only under a condition on the report.  This module proves the exact condition. */
module FailureReports {
  import opened Ordering
  import opened WorkerJobs
  import opened SchedulerState
  import opened BatchTasks
  import opened SchedulerSteps
  import opened Safety
  import opened Rows
  import opened Conservation
  import opened ConservationSteps

  /** One more failed host takes job `j` to its failed-node limit. */
  predicate HitsLimit(s: State, j: JobId) {
    j in s.jobs && s.jobs[j].maxFailedNodes >= 0 && |FailedOf(s, j)| + 1 >= s.jobs[j].maxFailedNodes
  }

  lemma ChargeFacts(s: State, ip: IP, j: JobId, n: int)
    requires Counts(s, ip, j)
    ensures var s0 := Charge(s, ip, j, n);
            && j in s0.jobs && LimitReached(s0, j) == HitsLimit(s, j)
            && SameTasks(s, s0) && SameTables(s.nodes, s0.nodes)
  {
  }

  /** Below the limit, rescheduling does not look at the nodes. */
  lemma RescheduleBelowLimit(s: State, nodes: map<IP, Node>, j: JobId, ts: set<TaskId>)
    requires j in s.jobs && !LimitReached(s, j)
    ensures RescheduleOne(s.(nodes := nodes), j, ts) == RescheduleOne(s, j, ts).(nodes := nodes)
  {
    hide DecrementExecution, LimitReached, StopWorkers, RemoveJob, TaskList, Ascending;
    LimitIgnoresNodes(s, nodes, j);
    DecrementIgnoresNodes(s.(running := s.running[j := Running(s, j) - |ts|]), nodes, j, |ts|);
  }

  lemma LimitIgnoresNodes(s: State, nodes: map<IP, Node>, j: JobId)
    requires j in s.jobs
    ensures LimitReached(s.(nodes := nodes), j) == LimitReached(s, j)
  {
  }

  lemma RemoveIgnoresNodes(s: State, nodes: map<IP, Node>, j: JobId)
    ensures RemoveJob(s.(nodes := nodes), j) == RemoveJob(s, j).(nodes := nodes)
  {
    hide Without, AsInt32;
  }

  lemma DecrementIgnoresNodes(s: State, nodes: map<IP, Node>, j: JobId, n: nat)
    ensures DecrementExecution(s.(nodes := nodes), j, n) == DecrementExecution(s, j, n).(nodes := nodes)
  {
    hide RemoveJob;
    if j in s.execs {
      RemoveIgnoresNodes(s.(execs := s.execs[j := s.execs[j] - n]), nodes, j);
    }
  }

  lemma SetTwice(nodes: map<IP, Node>, ip: IP, a: Node, b: Node)
    ensures nodes[ip := a][ip := b] == nodes[ip := b]
  {
  }

  /** At the limit, rescheduling drops the job from every table. */
  lemma RescheduleAtLimit(s: State, s0: State, j: JobId, ts: set<TaskId>)
    requires j in s0.jobs && LimitReached(s0, j)
    requires SameTasks(s, s0) && SameTables(s.nodes, s0.nodes)
    ensures Purged(s, j, RescheduleOne(s0, j, ts))
  {
    hide LimitReached, StopWorkers, RemoveJob, Purged;
    RemovedIsPurged(s0, j, Running(s0, j) - |ts|);
    PurgedFromSame(s, s0, j, RescheduleOne(s0, j, ts));
  }

  lemma PurgedFromSame(s: State, s0: State, j: JobId, s1: State)
    requires SameTasks(s, s0) && SameTables(s.nodes, s0.nodes) && Purged(s0, j, s1)
    ensures Purged(s, j, s1)
  {
    hide WithoutJob;
  }

  lemma PurgedTable(s: State, j: JobId, s1: State, ip: IP)
    requires Purged(s, j, s1) && ip in s.nodes
    ensures ip in s1.nodes && s1.nodes[ip].worker.job.jobs == s.nodes[ip].worker.job.jobs - {j}
  {
    hide WithoutJob;
  }

  // ---- a failed task ----

  /** The failed host is recorded, its CPU is released and the task is off its table. */
  ghost function TaskOff(s: State, ip: IP, j: JobId, t: TaskId): State {
    if ip !in s.nodes then s else
    var n := s.nodes[ip];
    SetNode(AddFailed(s, j, ip), ip, Node(n.worker.(job := n.worker.job.DeleteTask(j, t)), n.busy - 1))
  }

  /** Below the limit it makes no difference that the code reschedules first and takes the task
      off the worker afterwards. */
  lemma FailTaskBelowLimit(s: State, ip: IP, j: JobId, t: TaskId)
    requires Counts(s, ip, j) && !HitsLimit(s, j)
    ensures FailTask(s, ip, j, t) == RescheduleOne(TaskOff(s, ip, j, t), j, {t})
  {
    hide HitsLimit, LimitReached, WorkerJob.DeleteTask, RescheduleOne;
    ChargeFacts(s, ip, j, 1);
    RescheduleBelowLimit(Charge(s, ip, j, 1), TaskOff(s, ip, j, t).nodes, j, {t});
    SetTwice(s.nodes, ip, s.nodes[ip].(busy := s.nodes[ip].busy - 1), TaskOff(s, ip, j, t).nodes[ip]);
    RescheduleBelowLimit(Charge(s, ip, j, 1), Charge(s, ip, j, 1).nodes, j, {t});
  }

  lemma TaskOffRow(s: State, ip: IP, j: JobId, t: TaskId, x: JobId)
    requires ip in s.nodes && j in s.jobs && x in s.jobs && s.nodes[ip].worker.job.HasTask(j, t)
    ensures x == j ==> var r := RowOf(s, {}, j);
                       && ip in r.held && t in r.held[ip]
                       && RowOf(TaskOff(s, ip, j, t), {t}, j) == TaskLifted(r, ip, t)
    ensures x != j ==> RowOf(TaskOff(s, ip, j, t), {}, x) == RowOf(s, {}, x)
  {
    hide ReschedOf, HeldOf, WorkerJob.DeleteTask;
    HeldCredited(s.nodes, ip, TaskOff(s, ip, j, t).nodes[ip], j, t, x);
  }

  lemma TaskOffResidue(s: State, ip: IP, j: JobId, t: TaskId)
    requires NoResidue(s) && ip in s.nodes
    ensures NoResidue(TaskOff(s, ip, j, t))
  {
    hide ListOk;
    var w := s.nodes[ip].worker.job;
    assert w.DeleteTask(j, t).jobs.Keys <= w.jobs.Keys;
  }

  ghost function OneLimbo(j: JobId, t: TaskId): Limbo {
    map[j := {t}]
  }

  lemma TaskOffConserves(s: State, ip: IP, j: JobId, t: TaskId)
    requires ip in s.nodes && j in s.jobs && s.nodes[ip].worker.job.HasTask(j, t)
    requires Conserved(s, map[])
    ensures Conserved(TaskOff(s, ip, j, t), OneLimbo(j, t))
  {
    hide RowOk, RowOf, NoResidue, TaskLifted, WorkerJob.DeleteTask;
    TaskOffResidue(s, ip, j, t);
    forall x | x in s.jobs {
      TaskOffRow(s, ip, j, t, x);
    }
    RowAt(s, map[], j);
    TaskLiftOneRow(s, ip, j, t);
    OneRowKeeps(s, map[], j, TaskOff(s, ip, j, t), OneLimbo(j, t));
  }

  lemma TaskLiftOneRow(s: State, ip: IP, j: JobId, t: TaskId)
    requires j in s.jobs && RowOk(RowOf(s, {}, j))
    requires ip in RowOf(s, {}, j).held && t in RowOf(s, {}, j).held[ip]
    ensures RowOk(TaskLifted(RowOf(s, {}, j), ip, t))
  {
    hide RowOk, HeldOf, ReschedOf, TaskLifted;
    TaskLiftedOk(RowOf(s, {}, j), ip, t);
  }

  lemma TaskOffSolid(s: State, ip: IP, j: JobId, t: TaskId)
    requires Solid(s) && ip in s.nodes
    ensures Solid(TaskOff(s, ip, j, t))
  {
    hide WorkerJob.DeleteTask, WorkerJob.Valid;
    DeleteTaskValid(s.nodes[ip].worker.job, j, t);
  }

  lemma HeldFailureConserves(s: State, known: Registry, ip: IP, j: JobId, t: TaskId)
    requires Base(s, known, {}) && Conserved(s, map[])
    requires Counts(s, ip, j) && !HitsLimit(s, j) && s.nodes[ip].worker.job.HasTask(j, t)
    ensures Conserved(FailTask(s, ip, j, t), map[])
  {
    hide Base, Conserved, Solid, RescheduleOne, FailTask, TaskOff;
    FailTaskBelowLimit(s, ip, j, t);
    TaskOffConserves(s, ip, j, t);
    BaseIsSolid(s, known, {});
    TaskOffSolid(s, ip, j, t);
    var limbo := OneLimbo(j, t);
    RescheduleOneConserves(TaskOff(s, ip, j, t), limbo, j);
    assert limbo - {j} == map[];
  }

  /** At the limit the job is dropped from every table. */
  lemma FailTaskAtLimit(s: State, ip: IP, j: JobId, t: TaskId)
    requires Counts(s, ip, j) && HitsLimit(s, j)
    ensures Purged(s, j, FailTask(s, ip, j, t))
  {
    hide HitsLimit, LimitReached, RescheduleOne, Purged, SameTables, Charge;
    ChargeFacts(s, ip, j, 1);
    RescheduleAtLimit(s, Charge(s, ip, j, 1), j, {t});
    var s1 := RescheduleOne(Charge(s, ip, j, 1), j, {t});
    PurgedTable(s, j, s1, ip);
    DropAbsentTask(s1, ip, j, t);
  }

  lemma DropAbsentTask(s: State, ip: IP, j: JobId, t: TaskId)
    requires ip in s.nodes && j !in s.nodes[ip].worker.job.jobs
    ensures DropTaskAt(s, ip, j, t) == s
  {
    SetNodeSelf(s, ip);
  }

  lemma SetNodeSelf(s: State, ip: IP)
    requires ip in s.nodes
    ensures SetNode(s, ip, s.nodes[ip]) == s
  {
    assert s.nodes[ip := s.nodes[ip]] == s.nodes;
  }

  /** Below the limit, rescheduling takes `|ts|` off the running count of a job that stays, and a
      job that goes leaves its waiting tasks where they are. */
  lemma BelowLimitFacts(s: State, j: JobId, ts: set<TaskId>)
    requires j in s.jobs && !LimitReached(s, j)
    ensures var s1 := RescheduleOne(s, j, ts);
            && s1.nodes == s.nodes && s1.toSend == s.toSend
            && (j in s1.jobs ==> RunningIn(s1.running, j) == Running(s, j) - |ts| && s1.jobs[j] == s.jobs[j])
            && (j !in s1.jobs ==> s1.resched == s.resched && s.jobs[j].noReschedule && RunningIn(s.execs, j) <= |ts|)
  {
    hide TaskList, Ascending, LimitReached, StopWorkers, RemoveJob, DecrementExecution;
    var s1 := s.(running := s.running[j := Running(s, j) - |ts|]);
    DecrementCases(s1, j, |ts|);
    RemoveFacts(s1, j);
  }

  lemma RemoveFacts(s: State, j: JobId)
    ensures var s1 := RemoveJob(s, j);
            s1.nodes == s.nodes && s1.toSend == s.toSend && s1.resched == s.resched && j !in s1.jobs
  {
    hide Without, AsInt32;
  }

  lemma UnfinishedNonEmpty(s: State, known: Registry, j: JobId)
    requires Base(s, known, {}) && Conserved(s, map[]) && j in s.jobs
    ensures RunningIn(s.execs, j) >= 1 && Unfinished(RowOf(s, {}, j)) != {}
  {
    ExecsPositive(s, known, j);
    hide Base, Conserved, HeldOf, ReschedOf, AllHeld;
    RowAt(s, map[], j);
    if Unfinished(RowOf(s, {}, j)) == {} {
      EmptyHasSize0();
    }
  }

  lemma EmptyHasSize0()
    ensures Size({}) == 0
  {
  }

  lemma ExecsPositive(s: State, known: Registry, j: JobId)
    requires Base(s, known, {}) && j in s.jobs
    ensures RunningIn(s.execs, j) >= 1
  {
    hide QueueOk, WorkersOk, FailedLimit, Safety.SentOk;
  }

  /** Rescheduling tasks that are not taken off a worker breaks the law. */
  lemma UnbackedReschedule(s: State, known: Registry, a: State, j: JobId, ts: set<TaskId>)
    requires Base(s, known, {}) && Conserved(s, map[]) && j in s.jobs && ts != {}
    requires SameTasks(s, a) && SameTables(s.nodes, a.nodes) && !LimitReached(a, j)
    ensures !Conserved(RescheduleOne(a, j, ts), map[])
  {
    hide Base, Conserved, RescheduleOne, LimitReached, SameTables, RowOk, HeldOf, ReschedOf;
    var s1 := RescheduleOne(a, j, ts);
    BelowLimitFacts(a, j, ts);
    HeldSameTables(s.nodes, a.nodes, j);
    SizePositive(ts);
    if Conserved(s1, map[]) {
      RowAt(s, map[], j);
      if j in s1.jobs {
        RowAt(s1, map[], j);
        MiscountedRow(RowOf(s, {}, j), RowOf(s1, {}, j));
      } else {
        ResidueAt(s1, map[]);
        UnknownRow(s1, j);
        UnfinishedNonEmpty(s, known, j);
        NoHolderNoTask();
      }
    }
  }

  lemma ResidueAt(s: State, limbo: Limbo)
    requires Conserved(s, limbo)
    ensures NoResidue(s)
  {
    hide RowsOk, ListOk, HoldersOk;
  }

  lemma NoHolderNoTask()
    ensures AllHeld(map[]) == {}
  {
  }

  lemma UnheldTaskOff(s: State, ip: IP, j: JobId, t: TaskId)
    requires ip in s.nodes && j in s.jobs && !s.nodes[ip].worker.job.HasTask(j, t)
    ensures SameTasks(s, TaskOff(s, ip, j, t)) && SameTables(s.nodes, TaskOff(s, ip, j, t).nodes)
  {
  }

  lemma TaskOffLimit(s: State, ip: IP, j: JobId, t: TaskId)
    requires Counts(s, ip, j)
    ensures LimitReached(TaskOff(s, ip, j, t), j) == HitsLimit(s, j)
  {
  }

  /** A failure report conserves tasks if and only if the worker holds the reported task, unless
      the report is ignored or takes the job to its failed-node limit. */
  lemma FailTaskConservesIff(s: State, known: Registry, ip: IP, j: JobId, t: TaskId)
    requires Base(s, known, {}) && Conserved(s, map[])
    ensures Conserved(FailTask(s, ip, j, t), map[]) <==>
            (Counts(s, ip, j) && !HitsLimit(s, j) ==> s.nodes[ip].worker.job.HasTask(j, t))
  {
    hide Base, Conserved, FailTask, HitsLimit, LimitReached, RescheduleOne, TaskOff, SameTables, Purged;
    if !Counts(s, ip, j) {
      IgnoredFailure(s, ip, j, t);
    } else if HitsLimit(s, j) {
      FailTaskAtLimit(s, ip, j, t);
      PurgedKeeps(s, map[], j, FailTask(s, ip, j, t));
      NoLimbo(j);
    } else if s.nodes[ip].worker.job.HasTask(j, t) {
      HeldFailureConserves(s, known, ip, j, t);
    } else {
      FailTaskBelowLimit(s, ip, j, t);
      UnheldTaskOff(s, ip, j, t);
      TaskOffLimit(s, ip, j, t);
      UnbackedReschedule(s, known, TaskOff(s, ip, j, t), j, {t});
    }
  }

  lemma IgnoredFailure(s: State, ip: IP, j: JobId, t: TaskId)
    requires !Counts(s, ip, j)
    ensures FailTask(s, ip, j, t) == s
  {
  }
}
