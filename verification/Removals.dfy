/** A job that leaves the scheduler leaves nothing behind (src/master/scheduled_jobs.h:94-106, 164-184,
    src/master/scheduler.cpp:181-228, 558-573, 649-692): not in the tables of jobs, not among the failed
    hosts and not in the history. */
module Removals {
  import opened Ordering
  import opened WorkerJobs
  import opened SchedulerState
  import opened BatchSelection
  import opened SchedulerSteps
  import opened Safety
  import opened SchedulerRuns
  import opened JobRuns
  import opened Losses
  import opened ExecutionRecords

  /** Failed hosts are recorded for job `j` only while it is scheduled. */
  predicate Forgotten(t: State, j: JobId) {
    j in t.jobs || j !in t.failed
  }

  lemma RemoveForgets(t: State, x: JobId, j: JobId)
    requires Forgotten(t, j)
    ensures Forgotten(RemoveJob(t, x), j)
  {
    hide Without, AsInt32;
  }

  lemma DecrementForgets(t: State, x: JobId, n: nat, j: JobId)
    requires Forgotten(t, j)
    ensures Forgotten(DecrementExecution(t, x, n), j)
  {
    hide RemoveJob, DecrementExecution;
    DecrementCases(t, x, n);
    RemoveForgets(t, x, j);
  }

  lemma StopForgets(t: State, x: JobId, j: JobId)
    requires Forgotten(t, j)
    ensures Forgotten(RemoveJob(StopWorkers(t, x), x), j)
  {
    hide RemoveJob, WithoutJob, DropFromNode;
    RemoveForgets(StopWorkers(t, x), x, j);
  }

  lemma RoundForgets(t: State, x: JobId, ts: set<TaskId>, j: JobId)
    requires Forgotten(t, j)
    ensures Forgotten(RescheduleOne(t, x, ts), j)
  {
    hide RemoveJob, StopWorkers, DecrementExecution, LimitReached, TaskList, Ascending;
    if x in t.jobs {
      var t1 := t.(running := t.running[x := Running(t, x) - |ts|]);
      StopForgets(t1, x, j);
      DecrementForgets(t1, x, |ts|, j);
    }
  }

  lemma {:induction false} RoundsForget(t: State, w: WorkerJob, ids: seq<JobId>, j: JobId)
    requires Forgotten(t, j)
    ensures Forgotten(RescheduleFrom(t, w, ids), j)
    decreases |ids|
  {
    hide RescheduleOne, Forgotten;
    if ids != [] {
      RoundForgets(t, ids[0], w.Tasks(ids[0]), j);
      RoundsForget(RescheduleOne(t, ids[0], w.Tasks(ids[0])), w, ids[1..], j);
    }
  }

  lemma StepForgets(s: State, e: Event, j: JobId)
    requires j in s.jobs
    ensures Forgotten(Next(s, e), j)
  {
    hide ChangeWorkerState, DeleteNode, FailSend, FailTask, SucceedTask, Request, RemoveJob, StopWorkers, Inserted, Below;
    match e
    case WorkerStateChanged(ip) => VacateForgets(s, ip, j);
    case NodeDeleted(ip) => VacateForgets(s, ip, j);
    case SendFailed(ip, b) => FailSendForgets(s, ip, b, j);
    case TaskFailed(ip, x, t) => FailTaskForgets(s, ip, x, t, j);
    case TaskTimedOut(ip, x, t) => FailTaskForgets(s, ip, x, t, j);
    case TaskSucceeded(ip, x, t) => SucceedForgets(s, ip, x, t, j);
    case JobStopped(x) => StopForgets(s, x, j);
    case TaskRequested(order) => RequestFacts(s, order);
    case _ =>
  }

  lemma FailSendForgets(s: State, ip: IP, b: WorkerJob, j: JobId)
    requires j in s.jobs
    ensures Forgotten(FailSend(s, ip, b), j)
  {
    hide RescheduleFrom, WorkerJob.FirstJob, WorkerJob.Total, DropFirstJob;
    if Counts(s, ip, b.FirstJob()) {
      RoundsForget(Charge(s, ip, b.FirstJob(), b.Total()), b, Ascending(b.jobs.Keys), j);
    }
  }

  lemma VacateForgets(s: State, ip: IP, j: JobId)
    requires j in s.jobs
    ensures Forgotten(ChangeWorkerState(s, ip), j) && Forgotten(DeleteNode(s, ip), j)
  {
    hide RescheduleFrom;
    if ip in s.nodes {
      var w := s.nodes[ip].worker.job;
      RoundsForget(Reset(s, ip), w, Ascending(w.jobs.Keys), j);
      RoundsForget(AddFailedAll(s, w, ip).(nodes := s.nodes - {ip}), w, Ascending(w.jobs.Keys), j);
    }
  }

  lemma FailTaskForgets(s: State, ip: IP, x: JobId, t: TaskId, j: JobId)
    requires j in s.jobs
    ensures Forgotten(FailTask(s, ip, x, t), j)
  {
    hide RescheduleOne, WorkerJob.DeleteTask;
    if Counts(s, ip, x) {
      RoundForgets(Charge(s, ip, x, 1), x, {t}, j);
    }
  }

  lemma SucceedForgets(s: State, ip: IP, x: JobId, t: TaskId, j: JobId)
    requires j in s.jobs
    ensures Forgotten(SucceedTask(s, ip, x, t), j)
  {
    hide DecrementExecution, WorkerJob.DeleteTask;
    if x in s.jobs && ip in s.nodes && s.nodes[ip].worker.job.HasTask(x, t) {
      var n := s.nodes[ip];
      DecrementForgets(SetNode(s, ip, Node(n.worker.(job := n.worker.job.DeleteTask(x, t)), n.busy - 1))
                       .(running := s.running[x := Running(s, x) - 1]), x, 1, j);
    }
  }

  /** Whatever step removes a scheduled job, afterwards it is not in the queue, nothing is owed or counted
      for it, no host is recorded as failed for it, and a job number of 31 bits has no history. */
  lemma RemovedLeavesNothing(r: Trace, e: Event, j: JobId)
    requires Base(r.s, r.known, {}) && Possible(r, e) && j in r.s.jobs && j !in Advance(r, e).s.jobs
    ensures var s1 := Advance(r, e).s;
            && j !in s1.queue && j !in s1.execs && j !in s1.sent && j !in s1.running && j !in s1.failed
            && (j < 0x8000_0000 ==> j as int !in s1.history)
  {
    hide Next, Request, Ordered, SentOk, FailedLimit, WorkersOk;
    AdvanceKeeps(r, e);
    AdvanceIsNext(r, e);
    StepForgets(r.s, e, j);
    if e.TaskRequested? {
      RequestFacts(r.s, e.order);
      RequestAdvances(r, e.order);
    } else {
      StepCut(r.s, e);
      if j < 0x8000_0000 {
        Narrow(j);
      }
      CutErases(r.s, Next(r.s, e), j);
    }
  }

  lemma AdvanceIsNext(r: Trace, e: Event)
    ensures Advance(r, e).s == Next(r.s, e)
  {
  }

  lemma CutErases(s: State, s1: State, j: JobId)
    requires Cut(s, s1) && j in s.jobs && j !in s1.jobs
    ensures AsInt32(j) !in s1.history
  {
    hide AsInt32;
    assert AsInt32(j) in Keys32(s.jobs.Keys - s1.jobs.Keys);
  }

  /** Job numbers of 31 bits are not changed by the conversion. */
  lemma Narrow(j: JobId)
    requires j < 0x8000_0000
    ensures AsInt32(j) == j
  {
  }
}
