/** The history of executions per job and host (src/master/scheduler.cpp:230-341, 768-777,
    src/master/scheduled_jobs.h:282-319): what each batch adds to it, what the other steps erase, and that
    it never exceeds the limit with which the scheduler compares it. */
module ExecutionRecords {
  import opened Ordering
  import opened WorkerJobs
  import opened SchedulerState
  import opened BatchSelection
  import opened BatchFacts
  import opened BatchTasks
  import opened SchedulerSteps
  import opened Safety
  import opened SchedulerRuns
  import opened BatchChoice
  import opened JobRuns
  import opened Losses
  import Whereabouts
  import ClusterLimits

  // ---- what one batch records ----

  /** The part of the batch for the worker at `ip` that comes from the reschedule list. */
  function Again(s: State, ip: IP, free: int): WorkerJob
    requires ip in s.nodes
  {
    ScanResched(s, ip, free, s.resched, Draft(Empty, [], s.history, None)).planned
  }

  lemma {:induction false} ScanRecords(s: State, ip: IP, free: int, rest: seq<WorkerTask>, d: Draft)
    requires ip in s.nodes
    ensures var r := ScanResched(s, ip, free, rest, d);
            r.history == if d.chosen.None? && r.chosen.Some? then CountExec(d.history, r.chosen.value, ip)
                         else d.history
    decreases |rest|
  {
    hide CanAdd, Admits, CountExec, WorkerJob.Total;
    if rest != [] && d.planned.Total() < free {
      var d1 := Consider(s, ip, d, rest[0]);
      ScanRecords(s, ip, free, rest[1..], d1);
      if d1.chosen.Some? {
        ScanStaysChosen(s, ip, free, rest[1..], d1);
      }
    }
  }

  lemma CountExecAt(h: History, j: int, ip: IP, k: int, x: IP)
    ensures NumExecAt(CountExec(h, j, ip), k, x) == NumExecAt(h, k, x) + if k == j && x == ip then 1 else 0
  {
  }

  lemma {:induction false} FillRecords(s: State, ip: IP, free: int, j: JobId, hid: int, tasks: set<TaskId>, d: Draft,
                                       k: int, x: IP)
    requires ip in s.nodes && j in s.jobs
    ensures var (f, left) := Fill(s, ip, free, j, hid, tasks, d);
            && left <= tasks
            && NumExecAt(f.history, k, x) ==
               NumExecAt(d.history, k, x) + if k == hid && x == ip then |tasks - left| else 0
    decreases tasks
  {
    hide CanAdd, WorkerJob.Total, WorkerJob.AddTask, NumExecAt, CountExec;
    if !(tasks == {} || d.planned.Total() >= free || !CanAdd(s, ip, d.planned, d.history, j)) {
      var t := Least(tasks);
      var d1 := d.(planned := d.planned.AddTask(j, t).SetExclusive(s.jobs[j].exclusive),
                   history := CountExec(d.history, hid, ip));
      CountExecAt(d.history, hid, ip, k, x);
      FillRecords(s, ip, free, j, hid, tasks - {t}, d1, k, x);
      FillSame(s, ip, free, j, hid, tasks, d);
      var left := Fill(s, ip, free, j, hid, tasks, d).1;
      assert tasks - left == (tasks - {t} - left) + {t};
    } else {
      assert tasks - tasks == {};
    }
  }

  /** What a batch of job `j` for `ip` adds to the history under number `k` at host `x`.  Without a
      rescheduled task all tasks are counted under -1.  Otherwise the rescheduled ones together count as
      one execution of the job, and each task sent for the first time as one more. */
  function Counted(s: State, ip: IP, free: int, j: JobId, k: int, x: IP): int
    requires ip in s.nodes
  {
    var taken := |Pending(s, j) - Pending(Plan(s, ip, free).1, j)|;
    if x != ip then 0
    else if Again(s, ip, free).jobs.Keys == {} then if k == -1 then taken else 0
    else if k == j then 1 + taken else 0
  }

  /** The history after `GetJobForWorker`, in terms of the draft that the reschedule list leaves. */
  lemma PlanHistory(s: State, ip: IP, free: int, j: JobId, d: Draft, k: int, x: IP)
    requires ip in s.nodes && d == ScanResched(s, ip, free, s.resched, Start(s)) && DraftOk(s, ip, free, d)
    requires Plan(s, ip, free).0.jobs.Keys == {j}
    ensures var taken := |Pending(s, j) - Pending(Plan(s, ip, free).1, j)|;
            NumExecAt(Plan(s, ip, free).1.history, k, x) ==
            NumExecAt(d.history, k, x) + if k == d.planned.FirstJob() && x == ip then taken else 0
  {
    hide ScanResched, Fill, FirstSuiting, Suits, BatchOk, PendingIn, Admits, NumExecAt, WorkerJob.FirstJob;
    FirstSuitingSuits(s, ip, d, s.queue);
    DraftJob(s, ip, free, d);
    match FirstSuiting(s, ip, d, s.queue)
    case None =>
      assert Pending(s, j) - Pending(s, j) == {};
    case Some(y) =>
      SuitsFits(s, ip, d, y);
      FillOneJob(s, ip, free, y, d.planned.FirstJob(), Pending(s, y), d);
      FillRecords(s, ip, free, y, d.planned.FirstJob(), Pending(s, y), d, k, x);
      var left := Fill(s, ip, free, y, d.planned.FirstJob(), Pending(s, y), d).1;
      PendingAfter(s, y, left, j);
  }

  lemma PlanRecords(s: State, ip: IP, free: int, j: JobId, k: int, x: IP)
    requires ip in s.nodes && Plan(s, ip, free).0.jobs.Keys == {j}
    ensures NumExecAt(Plan(s, ip, free).1.history, k, x) == NumExecAt(s.history, k, x) + Counted(s, ip, free, j, k, x)
  {
    hide ScanResched, Plan, BatchOk, PendingIn, Admits, NumExecAt, CountExec, WorkerJob.FirstJob, DraftOk;
    var d := ScanResched(s, ip, free, s.resched, Start(s));
    ScanOkStart(s, ip, free);
    ScanRecords(s, ip, free, s.resched, Start(s));
    DraftJob(s, ip, free, d);
    PlanHistory(s, ip, free, j, d, k, x);
    if d.chosen.Some? {
      PlanKeepsChoice(s, ip, free, j, d);
      CountExecAt(s.history, d.chosen.value, ip, k, x);
    }
  }

  lemma ScanOkStart(s: State, ip: IP, free: int)
    requires ip in s.nodes
    ensures DraftOk(s, ip, free, ScanResched(s, ip, free, s.resched, Start(s)))
  {
    hide ScanResched;
    ScanOk(s, ip, free, s.resched, Start(s));
  }

  lemma PlanKeepsChoice(s: State, ip: IP, free: int, j: JobId, d: Draft)
    requires ip in s.nodes && d == ScanResched(s, ip, free, s.resched, Start(s)) && DraftOk(s, ip, free, d)
    requires Plan(s, ip, free).0.jobs.Keys == {j} && d.chosen.Some?
    ensures d.chosen == Some(j)
  {
    hide ScanResched, Fill, FirstSuiting, Suits, BatchOk, PendingIn, Admits, WorkerJob.FirstJob;
    FirstSuitingSuits(s, ip, d, s.queue);
    DraftJob(s, ip, free, d);
    match FirstSuiting(s, ip, d, s.queue)
    case None =>
    case Some(y) =>
      SuitsFits(s, ip, d, y);
      FillOneJob(s, ip, free, y, d.planned.FirstJob(), Pending(s, y), d);
  }

  /** The tasks of the draft are of the job chosen; before a choice there are none. */
  lemma DraftJob(s: State, ip: IP, free: int, d: Draft)
    requires ip in s.nodes && DraftOk(s, ip, free, d)
    ensures match d.chosen
            case None => d.planned == Empty && d.planned.jobs.Keys == {} && d.planned.FirstJob() == -1
            case Some(j) => j in s.jobs && d.planned.jobs.Keys == {j} && d.planned.FirstJob() == j && Admits(s, ip, j)
  {
    hide Admits, MayJoin, Fits;
    EmptyHasNoKeys();
  }

  // ---- what the other steps erase ----

  /** The history lost exactly the entries of the removed jobs, by their numbers cut to 32 bits. */
  ghost predicate Cut(s: State, s1: State) {
    s1.history == s.history - Keys32(s.jobs.Keys - s1.jobs.Keys)
  }

  lemma SameCut(s: State, s1: State)
    requires s1.history == s.history && s.jobs.Keys <= s1.jobs.Keys
    ensures Cut(s, s1)
  {
    assert s.jobs.Keys - s1.jobs.Keys == {};
  }

  lemma CutTwice(s: State, s1: State, s2: State)
    requires Cut(s, s1) && Cut(s1, s2) && s2.jobs.Keys <= s1.jobs.Keys <= s.jobs.Keys
    ensures Cut(s, s2)
  {
    hide AsInt32;
    var p, q := s.jobs.Keys - s1.jobs.Keys, s1.jobs.Keys - s2.jobs.Keys;
    assert s.jobs.Keys - s2.jobs.Keys == p + q;
    assert Keys32(p + q) == Keys32(p) + Keys32(q);
  }

  lemma RemoveCut(s: State, j: JobId)
    requires j in s.jobs
    ensures Cut(s, RemoveJob(s, j)) && RemoveJob(s, j).jobs.Keys <= s.jobs.Keys
  {
    hide AsInt32, Without;
    assert s.jobs.Keys - RemoveJob(s, j).jobs.Keys == {j};
    assert Keys32({j}) == {AsInt32(j)};
  }

  lemma DecrementCut(s: State, j: JobId, n: nat)
    requires j in s.jobs
    ensures Cut(s, DecrementExecution(s, j, n)) && DecrementExecution(s, j, n).jobs.Keys <= s.jobs.Keys
  {
    hide RemoveJob, DecrementExecution, Cut;
    DecrementCases(s, j, n);
    RemoveCut(s, j);
    if j in s.execs {
      SameCut(s, s.(execs := s.execs[j := s.execs[j] - n]));
    }
    SameCut(s, s);
  }

  lemma StopCut(s: State, j: JobId)
    requires j in s.jobs
    ensures Cut(s, RemoveJob(StopWorkers(s, j), j)) && RemoveJob(StopWorkers(s, j), j).jobs.Keys <= s.jobs.Keys
  {
    hide RemoveJob, WithoutJob, DropFromNode, Keys32;
    RemoveCut(StopWorkers(s, j), j);
  }

  lemma RoundCut(s: State, j: JobId, ts: set<TaskId>)
    ensures Cut(s, RescheduleOne(s, j, ts)) && RescheduleOne(s, j, ts).jobs.Keys <= s.jobs.Keys
  {
    hide RemoveJob, StopWorkers, DecrementExecution, LimitReached, TaskList, Ascending, Keys32;
    if j !in s.jobs {
      SameCut(s, s);
    } else {
      var s1 := s.(running := s.running[j := Running(s, j) - |ts|]);
      StopCut(s1, j);
      DecrementCut(s1, j, |ts|);
      SameCut(s, s1.(resched := s.resched + TaskList(j, Ascending(ts))));
    }
  }

  lemma {:induction false} RoundsCut(s: State, w: WorkerJob, ids: seq<JobId>)
    ensures Cut(s, RescheduleFrom(s, w, ids)) && RescheduleFrom(s, w, ids).jobs.Keys <= s.jobs.Keys
    decreases |ids|
  {
    hide RescheduleOne, Cut;
    if ids == [] {
      SameCut(s, s);
    } else {
      var s1 := RescheduleOne(s, ids[0], w.Tasks(ids[0]));
      RoundCut(s, ids[0], w.Tasks(ids[0]));
      RoundsCut(s1, w, ids[1..]);
      CutTwice(s, s1, RescheduleFrom(s1, w, ids[1..]));
    }
  }

  /** Every step but a request leaves the history alone, except for the entries of removed jobs. */
  lemma StepCut(s: State, e: Event)
    requires !e.TaskRequested?
    ensures Cut(s, Next(s, e))
  {
    hide Cut, RescheduleFrom, RescheduleOne, RemoveJob, StopWorkers, DecrementExecution, WorkerJob.FirstJob, Inserted,
         WorkerJob.Total;
    SameCut(s, s);
    match e
    case HostAppeared(ip, w) => SameCut(s, Next(s, e));
    case WorkerUpdated(_, _, _) => SameCut(s, Next(s, e));
    case WorkerStateChanged(ip) => VacateCut(s, ip);
    case NodeDeleted(ip) => VacateCut(s, ip);
    case JobPlanned(_, _, _) => SameCut(s, Next(s, e));
    case SendFailed(ip, b) => FailSendCut(s, ip, b);
    case TaskSucceeded(ip, j, t) => SucceedCut(s, ip, j, t);
    case TaskFailed(ip, j, t) => FailTaskCut(s, ip, j, t);
    case TaskTimedOut(ip, j, t) => FailTaskCut(s, ip, j, t);
    case JobStopped(j) =>
      if j in s.jobs {
        StopCut(s, j);
      }
  }

  /** The cut is a matter of jobs and history only. */
  lemma CutAlike(s: State, a: State, b: State, s1: State)
    requires Cut(a, b) && a.jobs == s.jobs && a.history == s.history && b.jobs == s1.jobs && b.history == s1.history
    ensures Cut(s, s1)
  {
  }

  lemma VacateCut(s: State, ip: IP)
    ensures Cut(s, ChangeWorkerState(s, ip)) && Cut(s, DeleteNode(s, ip))
  {
    hide Cut, RescheduleFrom;
    SameCut(s, s);
    if ip in s.nodes {
      var w := s.nodes[ip].worker.job;
      var a, b := Reset(s, ip), AddFailedAll(s, w, ip).(nodes := s.nodes - {ip});
      RoundsCut(a, w, Ascending(w.jobs.Keys));
      RoundsCut(b, w, Ascending(w.jobs.Keys));
      CutAlike(s, a, Reschedule(a, w), Reschedule(a, w));
      CutAlike(s, b, Reschedule(b, w), Reschedule(b, w));
    }
  }

  lemma FailSendCut(s: State, ip: IP, b: WorkerJob)
    ensures Cut(s, FailSend(s, ip, b))
  {
    hide Cut, RescheduleFrom, WorkerJob.FirstJob, WorkerJob.Total;
    SameCut(s, s);
    var j := b.FirstJob();
    if Counts(s, ip, j) {
      var a := Charge(s, ip, j, b.Total());
      RoundsCut(a, b, Ascending(b.jobs.Keys));
      CutAlike(s, a, Reschedule(a, b), FailSend(s, ip, b));
    }
  }

  lemma FailTaskCut(s: State, ip: IP, j: JobId, t: TaskId)
    ensures Cut(s, FailTask(s, ip, j, t))
  {
    hide Cut, RescheduleOne;
    SameCut(s, s);
    if Counts(s, ip, j) {
      var a := Charge(s, ip, j, 1);
      RoundCut(a, j, {t});
      CutAlike(s, a, RescheduleOne(a, j, {t}), FailTask(s, ip, j, t));
    }
  }

  lemma SucceedCut(s: State, ip: IP, j: JobId, t: TaskId)
    ensures Cut(s, SucceedTask(s, ip, j, t))
  {
    hide Cut, DecrementExecution, WorkerJob.DeleteTask;
    SameCut(s, s);
    if j in s.jobs && ip in s.nodes && s.nodes[ip].worker.job.HasTask(j, t) {
      var n := s.nodes[ip];
      var a := SetNode(s, ip, Node(n.worker.(job := n.worker.job.DeleteTask(j, t)), n.busy - 1))
               .(running := s.running[j := Running(s, j) - 1]);
      DecrementCut(a, j, 1);
      CutAlike(s, a, DecrementExecution(a, j, 1), SucceedTask(s, ip, j, t));
    }
  }

  // ---- requests ----

  /** How a request changes the history. */
  lemma RequestRecords(s: State, order: seq<IP>, k: int, x: IP)
    ensures var (g, s1) := Request(s, order);
            match g
            case NoTask => s1.history == s.history
            case Batch(ip, b) =>
              && ip in s.nodes && exists j ::
                   && b.jobs.Keys == {j} && j in s.jobs && b == Plan(s, ip, s.nodes[ip].FreeCPU()).0
                   && NumExecAt(s1.history, k, x) ==
                      NumExecAt(s.history, k, x) + Counted(s, ip, s.nodes[ip].FreeCPU(), j, k, x)
  {
    hide Plan, Request, NumExecAt, Counted, Idle, Fits, Admits, MayJoin;
    RequestCases(s, order);
    match Request(s, order).0
    case NoTask =>
    case Batch(ip, b) =>
      var free := s.nodes[ip].FreeCPU();
      PlanOk(s, ip, free);
      var j :| BatchOk(s, ip, free, b, j);
      PlanRecords(s, ip, free, j, k, x);
  }

  lemma {:induction false} FillWithin(s: State, ip: IP, free: int, j: JobId, hid: int, tasks: set<TaskId>, d: Draft)
    requires ip in s.nodes && j in s.jobs && s.jobs[j].maxExecAtWorker > 0
    requires NumExecAt(d.history, j, ip) <= s.jobs[j].maxExecAtWorker
    ensures NumExecAt(Fill(s, ip, free, j, hid, tasks, d).0.history, j, ip) <= s.jobs[j].maxExecAtWorker
    decreases tasks
  {
    hide WorkerJob.Total, WorkerJob.AddTask, NumExecAt, CountExec, WorkerJob.FirstJob;
    if !(tasks == {} || d.planned.Total() >= free || !CanAdd(s, ip, d.planned, d.history, j)) {
      var t := Least(tasks);
      CountExecAt(d.history, hid, ip, j, ip);
      FillWithin(s, ip, free, j, hid, tasks - {t},
                 d.(planned := d.planned.AddTask(j, t).SetExclusive(s.jobs[j].exclusive),
                    history := CountExec(d.history, hid, ip)));
    }
  }

  lemma EligibleRecorded(s: State, ip: IP, j: JobId)
    requires ip in s.nodes && Eligible(s, ip, j) && s.jobs[j].maxExecAtWorker > 0
    ensures NumExecAt(s.history, j, ip) < s.jobs[j].maxExecAtWorker
  {
  }

  /** The draft of the reschedule list, for the job chosen. */
  lemma ScanWithin(s: State, ip: IP, free: int, j: JobId)
    requires ip in s.nodes && free > 0 && j in s.jobs && s.jobs[j].maxExecAtWorker > 0
    requires NumExecAt(s.history, j, ip) <= s.jobs[j].maxExecAtWorker
    ensures var d := ScanResched(s, ip, free, s.resched, Start(s));
            NumExecAt(d.history, j, ip) <= s.jobs[j].maxExecAtWorker
  {
    hide ScanResched, NumExecAt, CountExec, Eligible;
    var d := ScanResched(s, ip, free, s.resched, Start(s));
    ScanRecords(s, ip, free, s.resched, Start(s));
    ScanChooses(s, ip, free, s.resched, Start(s));
    if d.chosen.Some? {
      CountExecAt(s.history, d.chosen.value, ip, j, ip);
      if d.chosen == Some(j) {
        EligibleRecorded(s, ip, j);
      }
    }
  }

  lemma PlanWithin(s: State, ip: IP, free: int, j: JobId)
    requires ip in s.nodes && free > 0 && j in s.jobs && s.jobs[j].maxExecAtWorker > 0
    requires NumExecAt(s.history, j, ip) <= s.jobs[j].maxExecAtWorker && Plan(s, ip, free).0.jobs.Keys == {j}
    ensures NumExecAt(Plan(s, ip, free).1.history, j, ip) <= s.jobs[j].maxExecAtWorker
  {
    hide ScanResched, Fill, FirstSuiting, Suits, BatchOk, PendingIn, Admits, NumExecAt, WorkerJob.FirstJob, DraftOk;
    var d := ScanResched(s, ip, free, s.resched, Start(s));
    ScanOkStart(s, ip, free);
    ScanWithin(s, ip, free, j);
    DraftJob(s, ip, free, d);
    FirstSuitingSuits(s, ip, d, s.queue);
    match FirstSuiting(s, ip, d, s.queue)
    case None =>
    case Some(y) =>
      SuitsFits(s, ip, d, y);
      DraftAdmits(s, ip, free, d, y);
      FillOneJob(s, ip, free, y, d.planned.FirstJob(), Pending(s, y), d);
      FillWithin(s, ip, free, y, d.planned.FirstJob(), Pending(s, y), d);
  }

  lemma DraftAdmits(s: State, ip: IP, free: int, d: Draft, y: JobId)
    requires ip in s.nodes && DraftOk(s, ip, free, d) && (d.chosen.Some? ==> d.chosen.value == y)
    ensures d.planned == Empty || BatchOk(s, ip, free, d.planned, y)
  {
  }

  /** The history never exceeds the limit of a scheduled job, and knows nothing of a job not planned. */
  ghost predicate Recorded(r: Trace, j: JobId, ip: IP) {
    var n := NumExecAt(r.s.history, j, ip);
    && (j !in r.known ==> n == 0)
    && (j in r.s.jobs && r.s.jobs[j].maxExecAtWorker > 0 ==> n <= r.s.jobs[j].maxExecAtWorker)
  }

  lemma RequestRecorded(s: State, known: Registry, order: seq<IP>, j: JobId, ip: IP)
    requires Base(s, known, {})
    requires j !in known ==> NumExecAt(s.history, j, ip) == 0
    requires j in s.jobs && s.jobs[j].maxExecAtWorker > 0 ==> NumExecAt(s.history, j, ip) <= s.jobs[j].maxExecAtWorker
    ensures var s1 := Request(s, order).1;
            && (j !in known ==> NumExecAt(s1.history, j, ip) == 0)
            && (j in s.jobs && s.jobs[j].maxExecAtWorker > 0 ==>
                  NumExecAt(s1.history, j, ip) <= s.jobs[j].maxExecAtWorker)
  {
    hide Base, Plan, Request, NumExecAt, Idle;
    RequestRecords(s, order, j, ip);
    RequestCases(s, order);
    match Request(s, order).0
    case NoTask =>
    case Batch(x, b) =>
      ScheduledKnown(s, known);
      var free := s.nodes[x].FreeCPU();
      ClusterLimits.IdleFree(s, x);
      if b.jobs.Keys == {j} && x == ip && j in s.jobs && s.jobs[j].maxExecAtWorker > 0 {
        PlanWithin(s, ip, free, j);
      }
  }

  lemma ScheduledKnown(s: State, known: Registry)
    requires Base(s, known, {})
    ensures forall j | j in s.jobs :: j in known
  {
    hide QueueOk, SentOk, FiledOk, FailedLimit, WorkersOk;
  }

  lemma CutRecorded(s: State, s1: State, j: JobId, ip: IP)
    requires Cut(s, s1)
    ensures NumExecAt(s1.history, j, ip) ==
            if j as int in Keys32(s.jobs.Keys - s1.jobs.Keys) then 0 else NumExecAt(s.history, j, ip)
  {
    hide Keys32;
  }

  lemma RequestAdvances(r: Trace, order: seq<IP>)
    ensures var r1 := Advance(r, TaskRequested(order));
            r1.s == Request(r.s, order).1 && r1.known == r.known
  {
  }

  lemma RecordedStep(r: Trace, e: Event, j: JobId, ip: IP)
    requires Base(r.s, r.known, {}) && Possible(r, e) && Recorded(r, j, ip)
    ensures Recorded(Advance(r, e), j, ip)
  {
    hide Base, Next, NumExecAt, Cut, Keys32, Request;
    var r1 := Advance(r, e);
    if e.TaskRequested? {
      RequestRecorded(r.s, r.known, e.order, j, ip);
      RequestFacts(r.s, e.order);
      RequestAdvances(r, e.order);
    } else {
      StepCut(r.s, e);
      CutRecorded(r.s, r1.s, j, ip);
      if j in r1.s.jobs {
        if j in r.s.jobs {
          Whereabouts.SameJob(r, e, j);
        } else if j in r.known {
          GoneStaysGone(r, e, j);
        }
      }
    }
  }

  /** Over every run the recorded executions of a scheduled job at a host are within its limit. */
  lemma {:induction false} RecordedOverRuns(es: seq<Event>, j: JobId, ip: IP)
    requires PossibleRun(Boot, es)
    ensures Recorded(After(Boot, es), j, ip)
    decreases |es|
  {
    hide Base, Advance, Possible;
    if es != [] {
      var p := es[..|es| - 1];
      RecordedOverRuns(p, j, ip);
      BootIsSafe();
      RunKeeps(Boot, p);
      RecordedStep(After(Boot, p), es[|es| - 1], j, ip);
    }
  }
}
