/** The scheduler and the sender thread together: a sender that sleeps although a worker could start a
    task.  Every public method but the handling of lost workers notifies when it changes anything; this
    module proves exactly which runs leave the sender asleep with work to do
    (src/master/scheduler.cpp:42-130, 152-179, 388-573, src/master/worker_manager.cpp:129-156,
    src/master/job_sender.cpp:34-76). */
module Dispatch {
  import opened WorkerJobs
  import opened SchedulerState
  import opened Ordering
  import opened BatchSelection
  import BatchFacts
  import opened SchedulerSteps
  import SchedulerObject
  import opened Safety
  import opened SchedulerRuns
  import opened BatchChoice
  import opened Losses
  import WakeUp

  // ---- which steps notify ----

  /** The step ends with a call of `NotifyAll`.  A lost worker notifies only if a task was put back on the
      reschedule list. */
  predicate Notifies(s: State, e: Event) {
    match e
    case HostAppeared(_, _) => true
    case WorkerUpdated(_, _, _) => false
    case WorkerStateChanged(ip) =>
      && IsLost(s, ip)
      && var w := s.nodes[ip].worker.job;
         SchedulerObject.Relists(Reset(s, ip), w, Ascending(w.jobs.Keys))
    case NodeDeleted(_) => true
    case JobPlanned(_, _, _) => true
    case TaskRequested(_) => false
    case SendFailed(ip, b) => Counts(s, ip, b.FirstJob())
    case TaskSucceeded(ip, j, t) => j in s.jobs && ip in s.nodes && s.nodes[ip].worker.job.HasTask(j, t)
    case TaskFailed(ip, j, _) => Counts(s, ip, j)
    case TaskTimedOut(ip, j, t) => ip in s.nodes && s.nodes[ip].worker.job.HasTask(j, t) && Counts(s, ip, j)
    case JobStopped(j) => j in s.jobs
  }

  /** A report notifies if and only if it changes anything. */
  lemma ReportNotifiesIff(s: State, e: Event)
    requires e.SendFailed? || e.TaskSucceeded? || e.TaskFailed? || e.TaskTimedOut? || e.JobStopped?
    ensures Notifies(s, e) <==> Next(s, e) != s
  {
    hide WorkerJob.FirstJob, FailTask, FailSend, SucceedTask, StopJob;
    match e
    case SendFailed(ip, b) => SendChanges(s, ip, b);
    case TaskSucceeded(ip, j, t) => SuccessChanges(s, ip, j, t);
    case TaskFailed(ip, j, t) => FailureChanges(s, ip, j, t);
    case TaskTimedOut(ip, j, t) => FailureChanges(s, ip, j, t);
    case JobStopped(j) => StopChanges(s, j);
    case _ => assert false;
  }

  lemma {:induction false} RoundsKeepFailed(s: State, w: WorkerJob, ids: seq<JobId>, j: JobId)
    ensures var s1 := RescheduleFrom(s, w, ids);
            j in s1.jobs ==> j in s.jobs && FailedOf(s1, j) == FailedOf(s, j)
    decreases |ids|
  {
    hide RescheduleOne;
    if ids != [] {
      var s1 := RescheduleOne(s, ids[0], w.Tasks(ids[0]));
      RoundsKeepFailed(s1, w, ids[1..], j);
      RoundKeepsFailed(s, ids[0], w.Tasks(ids[0]), j);
    }
  }

  lemma RoundKeepsFailed(s: State, x: JobId, ts: set<TaskId>, j: JobId)
    ensures var s1 := RescheduleOne(s, x, ts);
            j in s1.jobs ==> j in s.jobs && FailedOf(s1, j) == FailedOf(s, j)
  {
    hide LimitReached, Without, WithoutJob, DropFromNode, AsInt32, TaskList, Ascending;
  }

  lemma SendChanges(s: State, ip: IP, b: WorkerJob)
    ensures Counts(s, ip, b.FirstJob()) <==> FailSend(s, ip, b) != s
  {
    hide RescheduleFrom, WorkerJob.FirstJob, WorkerJob.Total, DropFirstJob;
    var j := b.FirstJob();
    if Counts(s, ip, j) {
      RoundsKeepFailed(Charge(s, ip, j, b.Total()), b, Ascending(b.jobs.Keys), j);
      assert FailSend(s, ip, b).failed == s.failed ==> j !in FailSend(s, ip, b).jobs;
    }
  }

  lemma FailureChanges(s: State, ip: IP, j: JobId, t: TaskId)
    ensures Counts(s, ip, j) <==> FailTask(s, ip, j, t) != s
  {
    hide RescheduleOne, WorkerJob.DeleteTask;
    if Counts(s, ip, j) {
      RoundKeepsFailed(Charge(s, ip, j, 1), j, {t}, j);
      assert FailTask(s, ip, j, t).failed == s.failed ==> j !in FailTask(s, ip, j, t).jobs;
    }
  }

  lemma SuccessChanges(s: State, ip: IP, j: JobId, t: TaskId)
    ensures (j in s.jobs && ip in s.nodes && s.nodes[ip].worker.job.HasTask(j, t)) <==> SucceedTask(s, ip, j, t) != s
  {
    hide Without, AsInt32, WorkerJob.DeleteTask;
    if j in s.jobs && ip in s.nodes && s.nodes[ip].worker.job.HasTask(j, t) {
      assert SucceedTask(s, ip, j, t).nodes[ip].busy == s.nodes[ip].busy - 1;
    }
  }

  lemma StopChanges(s: State, j: JobId)
    ensures j in s.jobs <==> StopJob(s, j) != s
  {
    hide Without, WithoutJob, DropFromNode, AsInt32;
    if j in s.jobs {
      assert j !in StopJob(s, j).jobs;
    }
  }

  /** The worker manager makes a worker usable; in the same call it goes on to `OnHostAppearance`, which
      notifies. */
  predicate Returns(e: Event) {
    e.WorkerUpdated? && e.state != NotAvailable && e.state != Disabled
  }

  lemma IgnoredSteps(s: State, e: Event)
    requires !Notifies(s, e) && !e.WorkerUpdated? && !e.TaskRequested?
    requires e.WorkerStateChanged? ==> !IsLost(s, e.ip)
    ensures Next(s, e) == s
  {
    hide WorkerJob.FirstJob;
  }

  /** The worker manager makes a worker available, with a free CPU, that may start a waiting task. */
  ghost predicate Revives(s: State, ip: IP, state: WorkerState, numCPU: int) {
    && ip in s.nodes && s.nodes[ip].worker.(state := state).IsAvailable() && numCPU > s.nodes[ip].busy
    && exists j :: Eligible(s, ip, j) && Waits(s, j)
  }

  lemma UpdatedEligible(s: State, ip: IP, state: WorkerState, numCPU: int, x: IP, j: JobId)
    requires ip in s.nodes && x in s.nodes
    ensures var s1 := UpdateWorker(s, ip, state, numCPU);
            && Eligible(s1, x, j) == Eligible(s, x, j) && Waits(s1, j) == Waits(s, j)
            && (x != ip ==> Idle(s1, x) == Idle(s, x))
            && (x == ip ==>
                  Idle(s1, x) == (s.nodes[ip].worker.(state := state).IsAvailable() && numCPU > s.nodes[ip].busy))
  {
  }

  /** Where nothing may be started, a change of a worker makes something startable if and only if it
      revives the worker. */
  lemma UpdateStartsIff(s: State, ip: IP, state: WorkerState, numCPU: int)
    requires !Startable(s)
    ensures Startable(UpdateWorker(s, ip, state, numCPU)) <==> Revives(s, ip, state, numCPU)
  {
    hide Idle, Eligible, Waits, Worker.IsAvailable;
    var s1 := UpdateWorker(s, ip, state, numCPU);
    if ip in s.nodes {
      forall x, j | x in s.nodes ensures CanStart(s1, x, j) <==>
                                         && x == ip && s.nodes[ip].worker.(state := state).IsAvailable()
                                         && numCPU > s.nodes[ip].busy && Eligible(s, ip, j) && Waits(s, j) {
        UpdatedEligible(s, ip, state, numCPU, x, j);
        assert !CanStart(s, x, j);
      }
    }
  }

  /** Before the step: it is the silent loss of a worker, and another worker may start a task after it. */
  ghost predicate StartsUntold(s: State, e: Event) {
    && e.WorkerStateChanged? && IsLost(s, e.ip) && Silent(s, e.ip)
    && exists x, k :: StartsAfterLoss(s, e.ip, x, k)
  }

  /** Where nothing may be started, a step that does not lead to a notification makes something startable
      if and only if it is such a loss. */
  lemma SilentStepIff(s: State, known: Registry, e: Event)
    requires Base(s, known, {}) && !Startable(s) && !Notifies(s, e) && !Returns(e) && !e.TaskRequested?
    ensures Startable(Next(s, e)) <==> StartsUntold(s, e)
  {
    hide Base, Startable, Reset, SchedulerObject.Relists, ChangeWorkerState, Silent, UpdateWorker, StartsAfterLoss;
    if e.WorkerUpdated? {
      UpdateStartsIff(s, e.ip, e.state, e.numCPU);
    } else if e.WorkerStateChanged? && IsLost(s, e.ip) {
      SilentIff(s, known, e.ip);
      LossStartsIff(s, known, e.ip);
    } else {
      IgnoredSteps(s, e);
    }
  }

  // ---- the scheduler with its sender ----

  /** `owed` counts the steps whose notification is still to be delivered, `returning` has the workers
      whose `OnHostAppearance` is still to come, and `found` tells whether the scan under way has got a
      task. */
  datatype Desk = Desk(r: Trace, owed: nat, returning: set<IP>, sender: WakeUp.Sender, found: Option<bool>)

  datatype Move =
    | Step(e: Event)
      /** A section of the sender, or the delivery of a notification. */
    | Act(a: WakeUp.Action)
      /** The sender calls `GetTaskToSend`, which visits all nodes. */
    | Scan(order: seq<IP>)

  predicate Enabled(d: Desk, m: Move) {
    match m
    case Step(e) => !e.TaskRequested? && Possible(d.r, e)
    case Act(a) =>
      WakeUp.Enabled(d.sender, a) && (a.Notify? ==> d.owed > 0) && (a.End? ==> d.found == Some(a.got))
    case Scan(order) =>
      d.sender.at == WakeUp.Scanning && d.found == None && forall ip | ip in d.r.s.nodes :: ip in order
  }

  function Back(returning: set<IP>, e: Event): set<IP> {
    match e
    case WorkerUpdated(ip, _, _) => if Returns(e) then returning + {ip} else returning
    case HostAppeared(ip, _) => returning - {ip}
    case _ => returning
  }

  function Moved(d: Desk, m: Move): Desk {
    match m
    case Step(e) =>
      d.(r := Advance(d.r, e), owed := d.owed + (if Notifies(d.r.s, e) then 1 else 0),
         returning := Back(d.returning, e))
    case Act(a) =>
      d.(sender := WakeUp.Next(d.sender, a), owed := if a.Notify? && d.owed > 0 then d.owed - 1 else d.owed,
         found := if a.Begin? then None else d.found)
    case Scan(order) =>
      d.(r := Advance(d.r, TaskRequested(order)), found := Some(Request(d.r.s, order).0.Batch?))
  }

  const Opening: Desk := Desk(Boot, 0, {}, WakeUp.Start, None)

  function After(ms: seq<Move>): Desk {
    if ms == [] then Opening else Moved(After(ms[..|ms| - 1]), ms[|ms| - 1])
  }

  predicate PossibleRun(ms: seq<Move>) {
    ms == [] || (PossibleRun(ms[..|ms| - 1]) && Enabled(After(ms[..|ms| - 1]), ms[|ms| - 1]))
  }

  /** What the sender does in a run. */
  function Acts(ms: seq<Move>): seq<WakeUp.Action> {
    if ms == [] then [] else
      var m := ms[|ms| - 1];
      Acts(ms[..|ms| - 1]) + if m.Act? then [m.a] else []
  }

  /** The sender's part of a run is a run of the wake-up protocol. */
  lemma {:induction false} SenderRuns(ms: seq<Move>)
    requires PossibleRun(ms)
    ensures WakeUp.Possible(Acts(ms)) && After(ms).sender == WakeUp.After(Acts(ms))
    decreases |ms|
  {
    hide Advance, Possible, Notifies, Request, WakeUp.Enabled, WakeUp.Next;
    if ms != [] {
      var p, m := ms[..|ms| - 1], ms[|ms| - 1];
      SenderRuns(p);
      if m.Act? {
        assert Acts(ms)[..|Acts(ms)| - 1] == Acts(p);
      } else {
        assert Acts(ms) == Acts(p);
      }
    }
  }

  /** What the scheduler does in a run. */
  function Events(ms: seq<Move>): seq<Event> {
    if ms == [] then [] else
      Events(ms[..|ms| - 1]) +
      match ms[|ms| - 1]
      case Step(e) => [e]
      case Act(_) => []
      case Scan(order) => [TaskRequested(order)]
  }

  /** The scheduler's part of a run is a run of the scheduler. */
  lemma {:induction false} SchedulerRunsToo(ms: seq<Move>)
    requires PossibleRun(ms)
    ensures SchedulerRuns.PossibleRun(Boot, Events(ms)) && After(ms).r == SchedulerRuns.After(Boot, Events(ms))
    decreases |ms|
  {
    hide Advance, Possible, Notifies, Request, WakeUp.Enabled, WakeUp.Next;
    if ms != [] {
      var p, m := ms[..|ms| - 1], ms[|ms| - 1];
      SchedulerRunsToo(p);
      if m.Act? {
        assert Events(ms) == Events(p);
      } else {
        assert Events(ms)[..|Events(ms)| - 1] == Events(p);
        if m.Scan? {
          RequestPossible(After(p).r, m.order);
        }
      }
    }
  }

  /** The sender has been notified, will be, or is about to scan. */
  predicate Awake(d: Desk) {
    || d.owed > 0 || d.returning != {} || d.sender.flag
    || d.sender.at == WakeUp.Roused || d.sender.at == WakeUp.Ready
    || (d.sender.at == WakeUp.Scanning && d.found != Some(false))
  }

  /** If a worker could start a task, the sender is awake. */
  ghost predicate Covered(d: Desk) {
    Startable(d.r.s) ==> Awake(d)
  }

  /** Before the move: it makes a task startable, and neither is the sender awake nor is it told. */
  ghost predicate StartsSilently(d: Desk, m: Move) {
    m.Step? && !Awake(d) && StartsUntold(d.r.s, m.e)
  }

  lemma {:induction false} RunSafe(ms: seq<Move>)
    requires PossibleRun(ms)
    ensures Base(After(ms).r.s, After(ms).r.known, {})
    decreases |ms|
  {
    hide Base, Advance, Possible, Notifies;
    if ms == [] {
      BootIsSafe();
    } else {
      var p, m := ms[..|ms| - 1], ms[|ms| - 1];
      RunSafe(p);
      match m
      case Step(e) => AdvanceKeeps(After(p).r, e);
      case Scan(order) =>
        assert Possible(After(p).r, TaskRequested(order)) by {
          RequestPossible(After(p).r, order);
        }
        AdvanceKeeps(After(p).r, TaskRequested(order));
      case _ =>
    }
  }

  lemma RequestPossible(r: Trace, order: seq<IP>)
    ensures Possible(r, TaskRequested(order))
  {
  }

  lemma ScanMeans(s: State, known: Registry, order: seq<IP>)
    requires Base(s, known, {}) && forall ip | ip in s.nodes :: ip in order
    ensures Request(s, order).0.NoTask? ==> !Startable(s) && Request(s, order).1 == s
  {
    hide Base, Request, Eligible, Waits, Plan;
    RequestWorkConserving(s, known, order);
    BatchFacts.RequestCases(s, order);
  }

  lemma AdvanceState(r: Trace, e: Event)
    ensures Advance(r, e).s == Next(r.s, e)
  {
  }

  lemma UntoldIsSilent(s: State, known: Registry, e: Event)
    requires Base(s, known, {}) && StartsUntold(s, e)
    ensures !Notifies(s, e) && !Returns(e)
  {
    hide Base, Reset, SchedulerObject.Relists, Silent;
    SilentIff(s, known, e.ip);
  }

  lemma AppearanceNotifies(s: State, e: Event)
    ensures e.HostAppeared? ==> Notifies(s, e)
  {
  }

  lemma StepCoveredIff(d: Desk, e: Event)
    requires Base(d.r.s, d.r.known, {}) && Enabled(d, Step(e)) && Covered(d)
    ensures Covered(Moved(d, Step(e))) <==> !StartsSilently(d, Step(e))
  {
    hide Base, Advance, Notifies, Possible, Startable, StartsUntold;
    AdvanceState(d.r, e);
    AppearanceNotifies(d.r.s, e);
    assert Returns(e) ==> e.ip in Back(d.returning, e);
    if StartsUntold(d.r.s, e) {
      UntoldIsSilent(d.r.s, d.r.known, e);
    }
    if !Awake(d) && !Notifies(d.r.s, e) && !Returns(e) {
      SilentStepIff(d.r.s, d.r.known, e);
    }
  }

  /** A move keeps the sender covered if and only if it does not start something silently. */
  lemma MoveCoveredIff(d: Desk, m: Move)
    requires Base(d.r.s, d.r.known, {}) && Enabled(d, m) && Covered(d)
    ensures Covered(Moved(d, m)) <==> !StartsSilently(d, m)
  {
    hide Base, Advance, Request, Notifies, Possible, Startable;
    match m
    case Step(e) => StepCoveredIff(d, e);
    case Scan(order) =>
      ScanMeans(d.r.s, d.r.known, order);
      AdvanceState(d.r, TaskRequested(order));
    case _ =>
  }

  ghost predicate NoSilentStart(ms: seq<Move>) {
    ms == [] || (NoSilentStart(ms[..|ms| - 1]) && !StartsSilently(After(ms[..|ms| - 1]), ms[|ms| - 1]))
  }

  ghost predicate AlwaysCovered(ms: seq<Move>) {
    Covered(After(ms)) && (ms == [] || AlwaysCovered(ms[..|ms| - 1]))
  }

  /** Throughout a run the sender is awake whenever a worker could start a task, if and only if no move of
      the run starts something silently, judged in the state before the move. */
  lemma {:induction false} CoveredIff(ms: seq<Move>)
    requires PossibleRun(ms)
    ensures AlwaysCovered(ms) <==> NoSilentStart(ms)
    decreases |ms|
  {
    hide Base, Enabled, Moved, Covered, StartsSilently;
    if ms == [] {
      OpeningCovered();
    } else {
      var p := ms[..|ms| - 1];
      CoveredIff(p);
      RunSafe(p);
      if AlwaysCovered(p) {
        MoveCoveredIff(After(p), ms[|ms| - 1]);
      }
    }
  }

  lemma OpeningCovered()
    ensures Covered(Opening)
  {
  }

  /** The sender sleeps and no notification is on its way. */
  predicate SoundAsleep(d: Desk) {
    d.sender.at == WakeUp.Asleep && d.owed == 0 && d.returning == {}
  }

  /** In a run without a silent start, a sender that sleeps with no notification on its way has nothing to
      send: no worker may start any waiting task. */
  lemma SleepMeansNothingToSend(ms: seq<Move>)
    requires PossibleRun(ms) && NoSilentStart(ms)
    ensures SoundAsleep(After(ms)) ==> !Startable(After(ms).r.s)
  {
    hide Enabled, Moved, StartsSilently, Startable, After, WakeUp.After, Acts;
    CoveredIff(ms);
    SenderRuns(ms);
    WakeUp.RunAttentive(Acts(ms));
  }
}
