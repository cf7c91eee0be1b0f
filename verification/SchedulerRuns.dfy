/** Safety and accounting over whole runs of the scheduler, with every interleaving of the steps
    and every sequence of messages. */
module SchedulerRuns {
  import opened Ordering
  import opened WorkerJobs
  import opened SchedulerState
  import opened BatchSelection
  import opened SchedulerSteps
  import opened Safety
  import opened Rows
  import opened Conservation
  import opened ConservationSteps
  import opened FailureReports
  import opened FailedSends
  import opened CpuAccounting

  /** The state together with two history variables: the jobs planned so far, and the size of the
      first batch of each job. */
  datatype Trace = Trace(s: State, known: Registry, first: map<JobId, nat>)

  const Boot: Trace := Trace(Initial, map[], map[])

  /** The batch of this request is the first one of its job: there is no count entry yet. */
  function FirstBatches(s: State, g: Grant, first: map<JobId, nat>): map<JobId, nat> {
    match g
    case NoTask => first
    case Batch(ip, b) =>
      if b.jobs.Keys != {} && Least(b.jobs.Keys) !in s.running then first[Least(b.jobs.Keys) := b.Total()]
      else first
  }

  function Advance(r: Trace, e: Event): Trace {
    var s1 := Next(r.s, e);
    match e
    case JobPlanned(job, cpus, workers) =>
      r.(s := s1, known := r.known[job.id := job.(planned := NumPlannedExec(job, cpus, workers))])
    case TaskRequested(order) =>
      r.(s := s1, first := FirstBatches(r.s, Request(r.s, order).0, r.first))
    case _ => r.(s := s1)
  }

  function After(r: Trace, es: seq<Event>): Trace {
    if es == [] then r else Advance(After(r, es[..|es| - 1]), es[|es| - 1])
  }

  /** What the rest of the master guarantees: job numbers are used once, and a worker that
      appears is the one known under its address or holds nothing. */
  predicate Possible(r: Trace, e: Event) {
    match e
    case HostAppeared(ip, w) => Genuine(r.s, ip, w)
    case JobPlanned(job, _, _) => job.id !in r.known
    case _ => true
  }

  predicate PossibleRun(r: Trace, es: seq<Event>) {
    es == [] || (PossibleRun(r, es[..|es| - 1]) && Possible(After(r, es[..|es| - 1]), es[|es| - 1]))
  }

  // ---- safety over every run ----

  lemma AppearHostKeeps(s: State, known: Registry, ip: IP, w: Worker)
    requires Base(s, known, {}) && Genuine(s, ip, w)
    ensures Base(AppearHost(s, ip, w), known, {})
  {
    hide Base;
    if w.job == Empty {
      EmptyWorkerOk(w, known);
      assert w.(job := Empty) == w;
    } else {
      WorkerAt(s, known, ip);
      SameWorkerOk(s.nodes[ip].worker, w, known);
    }
    SetNodeKeeps(s, known, {}, ip, AppearHost(s, ip, w).nodes[ip]);
  }

  lemma SameWorkerOk(w: Worker, w1: Worker, known: Registry)
    requires WorkerOk(w, known) && w1.job == w.job && w1.host == w.host && w1.group == w.group
    ensures WorkerOk(w1, known)
  {
    forall j | j in w1.job.jobs ensures Allowed(w1, known, j) {
      assert Allowed(w, known, j);
    }
  }

  lemma UpdateWorkerKeeps(s: State, known: Registry, ip: IP, state: WorkerState, numCPU: int)
    requires Base(s, known, {})
    ensures Base(UpdateWorker(s, ip, state, numCPU), known, {})
  {
    hide Base, WorkerOk;
    if ip in s.nodes {
      WorkerAt(s, known, ip);
      SameWorkerOk(s.nodes[ip].worker, UpdateWorker(s, ip, state, numCPU).nodes[ip].worker, known);
      SetNodeKeeps(s, known, {}, ip, UpdateWorker(s, ip, state, numCPU).nodes[ip]);
    }
  }

  lemma StopJobKeeps(s: State, known: Registry, j: JobId)
    requires Base(s, known, {})
    ensures Base(StopJob(s, j), known, {})
  {
    hide Base, StopWorkers, RemoveJob;
    StopAndRemoveKeeps(s, known, {}, j);
    assert {} - {j} == {};
  }

  /** Every possible step keeps exclusivity, limits, permissions and the failed-node limit. */
  lemma AdvanceKeeps(r: Trace, e: Event)
    requires Base(r.s, r.known, {}) && Possible(r, e)
    ensures Base(Advance(r, e).s, Advance(r, e).known, {})
  {
    hide Base, AppearHost, UpdateWorker, ChangeWorkerState, DeleteNode, Request, FailSend,
         SucceedTask, FailTask, StopJob;
    match e
    case HostAppeared(ip, w) => AppearHostKeeps(r.s, r.known, ip, w);
    case WorkerUpdated(ip, st, n) => UpdateWorkerKeeps(r.s, r.known, ip, st, n);
    case WorkerStateChanged(ip) => ChangeWorkerStateKeeps(r.s, r.known, ip);
    case NodeDeleted(ip) => DeleteNodeKeeps(r.s, r.known, ip);
    case JobPlanned(job, cpus, workers) => PlanJobKeeps(r.s, r.known, job, cpus, workers);
    case TaskRequested(order) => RequestKeeps(r.s, r.known, order);
    case SendFailed(ip, b) => FailSendKeeps(r.s, r.known, ip, b);
    case TaskSucceeded(ip, j, t) => SucceedTaskKeeps(r.s, r.known, ip, j, t);
    case TaskFailed(ip, j, t) => FailTaskKeeps(r.s, r.known, ip, j, t);
    case TaskTimedOut(ip, j, t) => FailTaskKeeps(r.s, r.known, ip, j, t);
    case JobStopped(j) => StopJobKeeps(r.s, r.known, j);
  }

  lemma BootIsSafe()
    ensures Base(Boot.s, Boot.known, {})
  {
  }

  lemma {:induction false} RunKeeps(r: Trace, es: seq<Event>)
    requires Base(r.s, r.known, {}) && PossibleRun(r, es)
    ensures Base(After(r, es).s, After(r, es).known, {})
    decreases |es|
  {
    hide Base, Advance, Possible;
    if es != [] {
      RunKeeps(r, es[..|es| - 1]);
      AdvanceKeeps(After(r, es[..|es| - 1]), es[|es| - 1]);
    }
  }

  /** Over every run from the start, whatever the workers report: an exclusive job is alone on its
      worker and the flag says so, no worker holds more tasks of a job than its positive limits
      allow, every job a worker holds permits its host and group, the flag of an empty worker is clear,
      and every scheduled job with a failed-node limit of at least one is below it. */
  lemma SafetyOverRuns(es: seq<Event>)
    requires PossibleRun(Boot, es)
    ensures var r := After(Boot, es);
            && (forall ip, j | ip in r.s.nodes && j in r.s.nodes[ip].worker.job.jobs ::
                  && j in r.known && Allowed(r.s.nodes[ip].worker, r.known, j)
                  && (r.known[j].exclusive ==> r.s.nodes[ip].worker.job.jobs.Keys == {j})
                  && (r.s.nodes[ip].worker.job.exclusive <==> r.known[j].exclusive))
            && (forall ip | ip in r.s.nodes && r.s.nodes[ip].worker.job.jobs.Keys == {} ::
                  !r.s.nodes[ip].worker.job.exclusive)
            && (forall j | j in r.s.jobs && r.s.jobs[j].maxFailedNodes >= 1 ::
                  |FailedOf(r.s, j)| < r.s.jobs[j].maxFailedNodes)
  {
    BootIsSafe();
    RunKeeps(Boot, es);
    SafetyReadout(After(Boot, es).s, After(Boot, es).known);
  }

  lemma SafetyReadout(s: State, known: Registry)
    requires Base(s, known, {})
    ensures forall ip, j | ip in s.nodes && j in s.nodes[ip].worker.job.jobs ::
              && j in known && Allowed(s.nodes[ip].worker, known, j)
              && (known[j].exclusive ==> s.nodes[ip].worker.job.jobs.Keys == {j})
              && (s.nodes[ip].worker.job.exclusive <==> known[j].exclusive)
    ensures forall ip | ip in s.nodes && s.nodes[ip].worker.job.jobs.Keys == {} :: !s.nodes[ip].worker.job.exclusive
    ensures forall j | j in s.jobs && s.jobs[j].maxFailedNodes >= 1 ::
              |FailedOf(s, j)| < s.jobs[j].maxFailedNodes
  {
    forall ip | ip in s.nodes && s.nodes[ip].worker.job.jobs.Keys == {} ensures !s.nodes[ip].worker.job.exclusive {
      FlagClear(s, known, ip);
    }
    forall ip, j | ip in s.nodes && j in s.nodes[ip].worker.job.jobs
      ensures && j in known && Allowed(s.nodes[ip].worker, known, j)
              && (known[j].exclusive ==> s.nodes[ip].worker.job.jobs.Keys == {j})
              && (s.nodes[ip].worker.job.exclusive <==> known[j].exclusive)
    {
      WorkerReadout(s, known, ip, j);
    }
    hide WorkersOk;
  }

  lemma FlagClear(s: State, known: Registry, ip: IP)
    requires Base(s, known, {}) && ip in s.nodes
    ensures s.nodes[ip].worker.job.jobs.Keys == {} ==> !s.nodes[ip].worker.job.exclusive
  {
    hide Base;
    WorkerAt(s, known, ip);
  }

  lemma WorkerReadout(s: State, known: Registry, ip: IP, j: JobId)
    requires Base(s, known, {}) && ip in s.nodes && j in s.nodes[ip].worker.job.jobs
    ensures j in known && Allowed(s.nodes[ip].worker, known, j)
    ensures known[j].exclusive ==> s.nodes[ip].worker.job.jobs.Keys == {j}
    ensures s.nodes[ip].worker.job.exclusive <==> known[j].exclusive
  {
    hide Base;
    WorkerAt(s, known, ip);
  }

  // ---- conservation ----

  /** A failed send is about the tasks of one job, as every batch is that is handed out. */
  ghost predicate OneJobBatch(e: Event) {
    e.SendFailed? ==> e.batch.jobs.Keys != {} && IsBatch(e.batch, Least(e.batch.jobs.Keys))
  }

  ghost predicate BatchRun(es: seq<Event>) {
    forall i | 0 <= i < |es| :: OneJobBatch(es[i])
  }

  /** The condition under which a step conserves tasks, about the state before the step only: a
      reappearing worker holds what it held, a failed send below the failed-node limit is about all
      that the worker holds of its lowest-numbered job, and a failure below the limit is about a task
      that the worker holds. */
  predicate Lawful(s: State, e: Event) {
    match e
    case HostAppeared(ip, w) => ip in s.nodes ==> w.job.jobs == s.nodes[ip].worker.job.jobs
    case SendFailed(ip, b) =>
      var j := b.FirstJob();
      Counts(s, ip, j) ==> if HitsLimit(s, j) then s.nodes[ip].worker.job.jobs.Keys <= {j} else Returns(s, ip, b, j)
    case TaskFailed(ip, j, t) =>
      Counts(s, ip, j) && !HitsLimit(s, j) ==> s.nodes[ip].worker.job.HasTask(j, t)
    case _ => true
  }

  /** The condition under which the tables still add up after a step.  It is weaker than `Lawful` for
      a late failed send only: finished tasks may stand in for held ones. */
  ghost predicate AddsUp(s: State, e: Event) {
    match e
    case SendFailed(ip, b) =>
      var j := b.FirstJob();
      Counts(s, ip, j) ==>
        if HitsLimit(s, j) then s.nodes[ip].worker.job.jobs.Keys <= {j} else Exchanges(s, ip, b, j)
    case _ => Lawful(s, e)
  }

  lemma LawfulAddsUp(s: State, e: Event)
    requires Lawful(s, e)
    ensures AddsUp(s, e)
  {
    hide HitsLimit, Done, RowOf, WorkerJob.FirstJob;
    if e.SendFailed? && Counts(s, e.ip, e.batch.FirstJob()) {
      var j := e.batch.FirstJob();
      NothingExchanged(RowOf(s, {}, j), e.batch.Tasks(j));
    }
  }

  lemma UnconditionalConserved(r: Trace, e: Event)
    requires Base(r.s, r.known, {}) && Conserved(r.s, map[]) && Possible(r, e)
    requires !e.HostAppeared? && !e.SendFailed? && !e.TaskFailed? && !e.TaskTimedOut?
    ensures Conserved(Next(r.s, e), map[])
  {
    hide Base, Conserved, ChangeWorkerState, DeleteNode, Request, SucceedTask, StopJob, UpdateWorker;
    match e
    case WorkerUpdated(ip, st, n) => UpdateWorkerConserves(r.s, ip, st, n);
    case WorkerStateChanged(ip) => ChangeWorkerStateConserves(r.s, r.known, ip);
    case NodeDeleted(ip) => DeleteNodeConserves(r.s, r.known, ip);
    case JobPlanned(job, cpus, workers) =>
      NotScheduled(r.s, r.known, job.id);
      PlanJobConserves(r.s, job, cpus, workers);
    case TaskRequested(order) => RequestConserves(r.s, order);
    case TaskSucceeded(ip, j, t) => SucceedTaskConserves(r.s, r.known, ip, j, t);
    case JobStopped(j) => StopJobConserves(r.s, j);
    case _ => assert false;
  }

  /** After a step the tables add up if and only if `AddsUp` held before it. */
  lemma AdvanceConservesIff(r: Trace, e: Event)
    requires Base(r.s, r.known, {}) && Conserved(r.s, map[]) && Possible(r, e) && OneJobBatch(e)
    ensures Conserved(Advance(r, e).s, map[]) <==> AddsUp(r.s, e)
  {
    hide Base, Conserved, AppearHost, UpdateWorker, FailSend, FailTask, Request, ChangeWorkerState, DeleteNode,
         SucceedTask, StopJob, PlanJob, HitsLimit, Exchanges;
    match e
    case HostAppeared(ip, w) => AppearHostConservesIff(r.s, r.known, ip, w);
    case SendFailed(ip, b) =>
      SingleKey(b, Least(b.jobs.Keys));
      FailSendConservesIff(r.s, r.known, ip, b, Least(b.jobs.Keys));
    case TaskFailed(ip, j, t) => FailTaskConservesIff(r.s, r.known, ip, j, t);
    case TaskTimedOut(ip, j, t) => FailTaskConservesIff(r.s, r.known, ip, j, t);
    case _ => UnconditionalConserved(r, e);
  }

  predicate LawfulRun(r: Trace, es: seq<Event>) {
    es == [] || (LawfulRun(r, es[..|es| - 1]) && Lawful(After(r, es[..|es| - 1]).s, es[|es| - 1]))
  }

  /** Along a lawful run the tables add up. */
  lemma {:induction false} LawfulRunConserves(es: seq<Event>)
    requires PossibleRun(Boot, es) && BatchRun(es) && LawfulRun(Boot, es)
    ensures Conserved(After(Boot, es).s, map[])
    decreases |es|
  {
    hide Base, Conserved, Advance, Possible, Lawful, OneJobBatch, AddsUp;
    if es == [] {
      BootIsConserved();
    } else {
      var p, e := es[..|es| - 1], es[|es| - 1];
      LawfulRunConserves(p);
      BootIsSafe();
      RunKeeps(Boot, p);
      LawfulAddsUp(After(Boot, p).s, e);
      AdvanceConservesIff(After(Boot, p), e);
    }
  }

  lemma BootIsConserved()
    ensures Conserved(Boot.s, map[])
  {
  }

  lemma NotScheduled(s: State, known: Registry, j: JobId)
    requires Base(s, known, {}) && j !in known
    ensures j !in s.jobs
  {
  }

  // ---- accounting ----

  /** The condition under which a step keeps the CPU counters exact, given that the tables add up. */
  predicate CpuSafe(s: State, e: Event) {
    match e
    case HostAppeared(ip, w) => w.job.Total() <= w.numCPU
    case WorkerUpdated(ip, _, n) => ip in s.nodes ==> s.nodes[ip].worker.job.Total() <= n
    case SendFailed(ip, b) =>
      var j := b.FirstJob();
      Counts(s, ip, j) ==> !HitsLimit(s, j) && |b.Tasks(j)| == |s.nodes[ip].worker.job.Tasks(j)|
    case TaskFailed(ip, j, t) => Counts(s, ip, j) ==> !HitsLimit(s, j)
    case TaskTimedOut(ip, j, t) =>
      Counts(s, ip, j) && s.nodes[ip].worker.job.HasTask(j, t) ==> !HitsLimit(s, j)
    case _ => true
  }

  /** The condition under which a step keeps tasks and CPUs accounted for. */
  predicate Sound(s: State, e: Event) {
    Lawful(s, e) && CpuSafe(s, e)
  }

  lemma UnconditionalAccounted(r: Trace, e: Event)
    requires Base(r.s, r.known, {}) && Accounted(r.s) && Possible(r, e)
    requires e.WorkerStateChanged? || e.NodeDeleted? || e.JobPlanned? || e.TaskRequested?
             || e.TaskSucceeded? || e.JobStopped?
    ensures Accounted(Next(r.s, e))
  {
    hide Base, Conserved, CpuOk, ChangeWorkerState, DeleteNode, Request, SucceedTask, StopJob;
    UnconditionalConserved(r, e);
    match e
    case WorkerStateChanged(ip) => ChangeWorkerStateCpu(r.s, ip);
    case NodeDeleted(ip) => DeleteNodeCpu(r.s, ip);
    case JobPlanned(job, cpus, workers) =>
    case TaskRequested(order) => RequestCpu(r.s, order);
    case TaskSucceeded(ip, j, t) => SucceedTaskCpu(r.s, ip, j, t);
    case JobStopped(j) => StopJobCpu(r.s, j);
    case _ => assert false;
  }

  /** After a step the tables add up and the CPU counters are exact if and only if `AddsUp` and
      `CpuSafe` held before it. */
  lemma AdvanceAccountedIff(r: Trace, e: Event)
    requires Base(r.s, r.known, {}) && Accounted(r.s) && Possible(r, e) && OneJobBatch(e)
    ensures Accounted(Advance(r, e).s) <==> AddsUp(r.s, e) && CpuSafe(r.s, e)
  {
    hide Base, Accounted, AppearHost, UpdateWorker, FailSend, FailTask, Request, ChangeWorkerState, DeleteNode,
         SucceedTask, StopJob, PlanJob, HitsLimit, Exchanges;
    match e
    case HostAppeared(ip, w) => AppearHostAccountedIff(r.s, r.known, ip, w);
    case WorkerUpdated(ip, st, n) => UpdateWorkerAccountedIff(r.s, ip, st, n);
    case SendFailed(ip, b) =>
      SingleKey(b, Least(b.jobs.Keys));
      FailSendAccountedIff(r.s, r.known, ip, b, Least(b.jobs.Keys));
    case TaskFailed(ip, j, t) => FailTaskAccountedIff(r.s, r.known, ip, j, t);
    case TaskTimedOut(ip, j, t) => FailTaskAccountedIff(r.s, r.known, ip, j, t);
    case _ => UnconditionalAccounted(r, e);
  }

  predicate SoundRun(r: Trace, es: seq<Event>) {
    es == [] || (SoundRun(r, es[..|es| - 1]) && Sound(After(r, es[..|es| - 1]).s, es[|es| - 1]))
  }

  /** Along a sound run the tables add up and the CPU counters are exact. */
  lemma {:induction false} SoundRunAccounts(es: seq<Event>)
    requires PossibleRun(Boot, es) && BatchRun(es) && SoundRun(Boot, es)
    ensures Accounted(After(Boot, es).s) && LawfulRun(Boot, es)
    decreases |es|
  {
    hide Base, Accounted, Advance, Possible, Lawful, OneJobBatch, AddsUp, CpuSafe;
    if es == [] {
      BootIsAccounted();
    } else {
      var p, e := es[..|es| - 1], es[|es| - 1];
      SoundRunAccounts(p);
      BootIsSafe();
      RunKeeps(Boot, p);
      LawfulAddsUp(After(Boot, p).s, e);
      AdvanceAccountedIff(After(Boot, p), e);
    }
  }

  lemma BootIsAccounted()
    ensures Accounted(Boot.s)
  {
  }
}
