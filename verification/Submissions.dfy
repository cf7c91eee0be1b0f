/** What is stored and enforced is what was submitted: over every run, the jobs on the workers and in the
    tables keep to the settings of the job that `PlanJobExecution` received (src/master/scheduler.cpp:152-179,
    739-808, src/master/scheduled_jobs.h:73-92, src/master/job.cpp:90-142). */
module Submissions {
  import opened Ordering
  import opened WorkerJobs
  import opened SchedulerState
  import opened BatchSelection
  import opened BatchFacts
  import opened SchedulerSteps
  import opened Safety
  import opened SchedulerRuns
  import opened BatchChoice

  // ---- the stored job ----

  /** The registry has every submitted job, with all its settings and the number of executions planned. */
  lemma {:induction false} RegisteredAsSubmitted(es: seq<Event>, i: nat)
    requires PossibleRun(Boot, es) && i < |es| && es[i].JobPlanned?
    ensures var e, known := es[i], After(Boot, es).known;
            && e.job.id in known
            && known[e.job.id] == e.job.(planned := NumPlannedExec(e.job, e.totalCPU, e.totalWorkers))
    decreases |es|
  {
    hide Next, Request, NumPlannedExec;
    if i < |es| - 1 {
      RegisteredAsSubmitted(es[..|es| - 1], i);
    }
  }

  lemma {:induction false} RegisteredWasSubmitted(es: seq<Event>, j: JobId)
    requires j in After(Boot, es).known
    ensures exists i :: 0 <= i < |es| && es[i].JobPlanned? && es[i].job.id == j
    decreases |es|
  {
    hide Next, Request, NumPlannedExec;
    var p := es[..|es| - 1];
    if j in After(Boot, p).known {
      RegisteredWasSubmitted(p, j);
      var i :| 0 <= i < |p| && p[i].JobPlanned? && p[i].job.id == j;
      assert es[i] == p[i];
    } else {
      assert es[|es| - 1].JobPlanned?;
    }
  }

  /** Planning a job stores it with every setting as submitted, owes as many executions as were planned
      and files the tasks with the numbers below that. */
  lemma PlanningStores(r: Trace, e: Event)
    requires Base(r.s, r.known, {}) && e.JobPlanned? && Possible(r, e)
    ensures var s1, job := Next(r.s, e), e.job;
            && job.id in s1.jobs && s1.jobs[job.id] == job.(planned := s1.jobs[job.id].planned)
            && job.id in s1.execs && s1.execs[job.id] == s1.jobs[job.id].planned >= 1
            && (job.numExec > 0 ==> s1.jobs[job.id].planned == job.numExec)
            && (forall t: TaskId :: t in Pending(s1, job.id) <==> t < s1.jobs[job.id].planned)
            && job.id in s1.queue && job.id !in s1.sent
  {
    hide Inserted, WorkersOk, QueueOk, FailedLimit;
    var s1 := Next(r.s, e);
    InsertedHas(s1.jobs, r.s.queue, e.job.id);
  }

  /** Over every run, a scheduled job was submitted, and agrees with the submission in every setting. */
  lemma StoredAsSubmitted(es: seq<Event>, j: JobId) returns (i: nat)
    requires PossibleRun(Boot, es) && j in After(Boot, es).s.jobs
    ensures i < |es| && es[i].JobPlanned? && es[i].job.id == j
    ensures var stored := After(Boot, es).s.jobs[j];
            && stored == es[i].job.(planned := stored.planned)
            && stored.planned == NumPlannedExec(es[i].job, es[i].totalCPU, es[i].totalWorkers)
  {
    hide Base, After, Possible, NumPlannedExec;
    BootIsSafe();
    RunKeeps(Boot, es);
    JobIsRegistered(After(Boot, es).s, After(Boot, es).known, j);
    RegisteredWasSubmitted(es, j);
    i :| 0 <= i < |es| && es[i].JobPlanned? && es[i].job.id == j;
    RegisteredAsSubmitted(es, i);
  }

  lemma JobIsRegistered(s: State, known: Registry, j: JobId)
    requires Base(s, known, {}) && j in s.jobs
    ensures j in known && known[j] == s.jobs[j]
  {
    hide QueueOk, SentOk, FiledOk, FailedLimit, WorkersOk;
  }

  // ---- what workers hold ----

  /** Over every run, whatever is reported, a worker that holds tasks of a job keeps to the settings with
      which the job was submitted: host and group lists, limits per worker, and exclusivity. */
  lemma HeldAsSubmitted(es: seq<Event>, ip: IP, j: JobId) returns (i: nat)
    requires PossibleRun(Boot, es) && ip in After(Boot, es).s.nodes
    requires j in After(Boot, es).s.nodes[ip].worker.job.jobs
    ensures i < |es| && es[i].JobPlanned? && es[i].job.id == j
    ensures var w, job := After(Boot, es).s.nodes[ip].worker, es[i].job;
            && w.host !in job.blacklistHosts && (job.hosts != {} ==> w.host in job.hosts)
            && w.group !in job.blacklistGroups && (job.groups != {} ==> w.group in job.groups)
            && (job.maxWorkerInstances > 0 ==> |w.job.Tasks(j)| <= job.maxWorkerInstances)
            && (job.maxExecAtWorker > 0 ==> |w.job.Tasks(j)| <= job.maxExecAtWorker)
            && (job.exclusive ==> w.job.jobs.Keys == {j}) && (w.job.exclusive <==> job.exclusive)
  {
    hide After, Possible, NumPlannedExec;
    SafetyOverRuns(es);
    var r := After(Boot, es);
    assert Allowed(r.s.nodes[ip].worker, r.known, j);
    RegisteredWasSubmitted(es, j);
    i :| 0 <= i < |es| && es[i].JobPlanned? && es[i].job.id == j;
    RegisteredAsSubmitted(es, i);
  }

  /** Over every run the scheduled jobs stand in the queue by ascending priority and, within one priority,
      by ascending group. */
  lemma QueueAscends(es: seq<Event>, i: nat, k: nat)
    requires PossibleRun(Boot, es) && i < k < |After(Boot, es).s.queue|
    ensures var s := After(Boot, es).s;
            && s.queue[i] in s.jobs && s.queue[k] in s.jobs
            && var a, b := s.jobs[s.queue[i]], s.jobs[s.queue[k]];
               a.priority < b.priority || (a.priority == b.priority && a.groupId <= b.groupId)
  {
    hide Base, After, Possible;
    BootIsSafe();
    RunKeeps(Boot, es);
    QueueOrdered(After(Boot, es).s, After(Boot, es).known);
  }

  // ---- whom a job may be given to ----

  /** The worker at `ip` may start a task of the scheduled job `j` if and only if it has not failed the job,
      its host and group are on the right lists, no exclusive job is in the way, and one more task is
      within every positive limit. */
  lemma EligibleIff(s: State, ip: IP, j: JobId)
    requires ip in s.nodes && j in s.jobs
    ensures var job, w := s.jobs[j], s.nodes[ip].worker;
            Eligible(s, ip, j) <==>
              && (j in s.failed ==> ip !in s.failed[j])
              && w.host !in job.blacklistHosts && (job.hosts == {} || w.host in job.hosts)
              && w.group !in job.blacklistGroups && (job.groups == {} || w.group in job.groups)
              && (job.exclusive || w.job.exclusive ==> w.job.jobs.Keys <= {j})
              && (job.maxWorkerInstances > 0 ==> |w.job.Tasks(j)| + 1 <= job.maxWorkerInstances)
              && (job.maxClusterInstances > 0 && j in s.running ==> s.running[j] + 1 <= job.maxClusterInstances)
              && (job.maxExecAtWorker > 0 ==>
                    && |w.job.Tasks(j)| + 1 <= job.maxExecAtWorker
                    && (j in s.history && ip in s.history[j] ==> s.history[j][ip] + 1 <= job.maxExecAtWorker))
  {
    var held := s.nodes[ip].worker.job;
    assert Empty.Tasks(j) == {};
    OneKey(held.jobs, if held.jobs.Keys == {} then j else Least(held.jobs.Keys));
    if held.jobs.Keys <= {j} {
      SubsetSize(held.jobs.Keys, {j});
    }
  }
}
