/** What the choice of a batch achieves: no idle worker is passed over while an eligible task waits,
    the chosen job is the right one, and the batch cannot be extended
    (src/master/scheduler.cpp:230-386). */
module BatchChoice {
  import opened Ordering
  import opened WorkerJobs
  import opened SchedulerState
  import opened BatchSelection
  import opened BatchFacts
  import opened BatchTasks
  import opened Safety

  /** The worker at `ip` may start a task of job `j` now. */
  predicate Eligible(s: State, ip: IP, j: JobId)
    requires ip in s.nodes
  {
    j in s.jobs && Admits(s, ip, j) && CanAdd(s, ip, Empty, s.history, j)
  }

  /** Some task of job `j` waits to be sent, for the first time or again. */
  predicate Waits(s: State, j: JobId) {
    Pending(s, j) != {} || exists k :: k in s.resched && k.job == j
  }

  // ---- the choice of the job ----

  function FirstRescheduled(s: State, ip: IP, q: seq<WorkerTask>): (r: Option<JobId>)
    requires ip in s.nodes
    ensures r.Some? ==> Eligible(s, ip, r.value) && exists k :: k in q && k.job == r.value
    ensures r.None? ==> forall k | k in q :: !Eligible(s, ip, k.job)
  {
    if q == [] then None
    else if Eligible(s, ip, q[0].job) then Some(q[0].job)
    else FirstRescheduled(s, ip, q[1..])
  }

  /** The chosen job is that of the first task in the list whose job is eligible. */
  lemma {:induction false} FirstRescheduledAt(s: State, ip: IP, q: seq<WorkerTask>) returns (i: nat)
    requires ip in s.nodes
    ensures i <= |q| && (forall k | 0 <= k < i :: !Eligible(s, ip, q[k].job))
    ensures FirstRescheduled(s, ip, q) == if i < |q| then Some(q[i].job) else None
    ensures i < |q| ==> Eligible(s, ip, q[i].job)
    decreases |q|
  {
    hide Eligible;
    if q == [] || Eligible(s, ip, q[0].job) {
      i := 0;
    } else {
      i := FirstRescheduledAt(s, ip, q[1..]);
      i := i + 1;
    }
  }

  lemma {:induction false} ScanChooses(s: State, ip: IP, free: int, rest: seq<WorkerTask>, d: Draft)
    requires ip in s.nodes && free > 0 && d.chosen.None? && d.planned == Empty && d.history == s.history
    ensures ScanResched(s, ip, free, rest, d).chosen == FirstRescheduled(s, ip, rest)
    decreases |rest|
  {
    EmptyTotal(Empty);
    if rest != [] {
      var d1 := Consider(s, ip, d, rest[0]);
      hide CanAdd, Admits, CountExec;
      if Eligible(s, ip, rest[0].job) {
        ScanStaysChosen(s, ip, free, rest[1..], d1);
      } else {
        ScanChooses(s, ip, free, rest[1..], d1);
      }
    }
  }

  lemma FillTakes(s: State, ip: IP, free: int, j: JobId, hid: int, tasks: set<TaskId>, d: Draft)
    requires ip in s.nodes && j in s.jobs && tasks != {} && CanAdd(s, ip, d.planned, d.history, j)
    requires d.planned == Empty && free > 0
    ensures Fill(s, ip, free, j, hid, tasks, d).0.planned.jobs.Keys != {}
  {
    EmptyTotal(Empty);
    hide CanAdd;
    var t := Least(tasks);
    var d1 := d.(planned := d.planned.AddTask(j, t).SetExclusive(s.jobs[j].exclusive),
                 history := CountExec(d.history, hid, ip));
    FillGrows(s, ip, free, j, hid, tasks - {t}, d1);
    assert j in d1.planned.jobs.Keys;
  }

  /** The job that is to be preferred for a worker: that of the first eligible task in the
      reschedule list, and otherwise the first eligible one of the queue with a task to send. */
  ghost predicate Preferred(s: State, ip: IP, j: JobId)
    requires ip in s.nodes
  {
    match FirstRescheduled(s, ip, s.resched)
    case Some(x) => j == x
    case None =>
      && Eligible(s, ip, j) && Pending(s, j) != {}
      && forall x | Eligible(s, ip, x) && Pending(s, x) != {} ::
           s.jobs[j].priority < s.jobs[x].priority
           || (s.jobs[j].priority == s.jobs[x].priority && s.jobs[j].groupId <= s.jobs[x].groupId)
  }

  ghost predicate Nothing(s: State, ip: IP)
    requires ip in s.nodes
  {
    forall j | Eligible(s, ip, j) :: !Waits(s, j)
  }

  lemma SentHasNothing(s: State, known: Registry, j: JobId)
    requires Base(s, known, {}) && j in s.jobs
    ensures j in s.sent <==> Pending(s, j) == {}
    ensures j in s.queue
  {
    hide JobsOk, FiledOk, FailedLimit, WorkersOk;
  }

  lemma UnchosenSuits(s: State, known: Registry, ip: IP, d: Draft, j: JobId)
    requires Base(s, known, {}) && ip in s.nodes && j in s.jobs
    requires d.chosen.None? && d.planned == Empty && d.history == s.history
    ensures Suits(s, ip, d, j) <==> Eligible(s, ip, j) && Pending(s, j) != {}
  {
    hide Base, Admits, CanAdd, Pending;
    SentHasNothing(s, known, j);
  }

  /** Among the jobs that suit, the first in the queue has the least priority number. */
  lemma {:induction false} FirstIsLeast(s: State, known: Registry, ip: IP, d: Draft, q: seq<JobId>, x: JobId)
    requires ip in s.nodes && Ordered(known, q) && (forall y | y in q :: y in known)
    requires x in q && x in s.jobs && Suits(s, ip, d, x)
    ensures var r := FirstSuiting(s, ip, d, q);
            r.Some? && r.value in known && NoLater(known[r.value], known[x])
    decreases |q|
  {
    hide Suits;
    if q[0] in s.jobs && Suits(s, ip, d, q[0]) {
      var i :| 0 <= i < |q| && q[i] == x;
      assert q[0] in known && q[i] in known;
    } else {
      assert Ordered(known, q[1..]);
      FirstIsLeast(s, known, ip, d, q[1..], x);
    }
  }

  lemma QueueOrdered(s: State, known: Registry)
    requires Base(s, known, {})
    ensures Ordered(known, s.queue) && forall j | j in s.queue :: j in known && j in s.jobs && s.jobs[j] == known[j]
  {
    hide SentOk, FiledOk, FailedLimit, WorkersOk;
  }

  lemma QueueChooses(s: State, known: Registry, ip: IP, d: Draft)
    requires Base(s, known, {}) && ip in s.nodes
    requires d.chosen.None? && d.planned == Empty && d.history == s.history
    requires FirstRescheduled(s, ip, s.resched) == None
    ensures match FirstSuiting(s, ip, d, s.queue)
            case None => Nothing(s, ip)
            case Some(j) => Eligible(s, ip, j) && Waits(s, j) && Preferred(s, ip, j)
  {
    hide Base, Suits, Eligible, FirstSuiting, Ordered;
    FirstSuitingSuits(s, ip, d, s.queue);
    QueueOrdered(s, known);
    forall x | x in s.jobs ensures Suits(s, ip, d, x) <==> Eligible(s, ip, x) && Pending(s, x) != {} {
      UnchosenSuits(s, known, ip, d, x);
    }
    forall x | Eligible(s, ip, x) ensures x in s.jobs && x in s.queue {
      EligibleScheduled(s, ip, x);
      SentHasNothing(s, known, x);
    }
    if FirstSuiting(s, ip, d, s.queue).Some? {
      var j := FirstSuiting(s, ip, d, s.queue).value;
      forall x | Eligible(s, ip, x) && Pending(s, x) != {} ensures NoLater(s.jobs[j], s.jobs[x]) {
        FirstIsLeast(s, known, ip, d, s.queue, x);
      }
    }
  }

  lemma EligibleScheduled(s: State, ip: IP, j: JobId)
    requires ip in s.nodes && Eligible(s, ip, j)
    ensures j in s.jobs
  {
  }

  /** `GetJobForWorker` on a worker with a free CPU gives tasks of the preferred job; it gives none
      if and only if no eligible task waits. */
  lemma PlanChooses(s: State, known: Registry, ip: IP, free: int)
    requires Base(s, known, {}) && ip in s.nodes && free > 0
    ensures var b := Plan(s, ip, free).0;
            && (b.jobs.Keys == {} <==> Nothing(s, ip))
            && (b.jobs.Keys != {} ==> exists j :: b.jobs.Keys == {j} && Preferred(s, ip, j))
  {
    hide Base, Suits, Eligible, FirstSuiting, ScanResched, Fill, Preferred, BatchOk, FirstRescheduled;
    var d := ScanResched(s, ip, free, s.resched, Start(s));
    ScanOk(s, ip, free, s.resched, Start(s));
    ScanUnchosen(s, ip, free, s.resched, Start(s));
    ScanChooses(s, ip, free, s.resched, Start(s));
    FirstSuitingSuits(s, ip, d, s.queue);
    match d.chosen
    case Some(x) => ChosenStays(s, ip, free, d, x);
    case None =>
      QueueChooses(s, known, ip, d);
      match FirstSuiting(s, ip, d, s.queue)
      case None => EmptyHasNoKeys();
      case Some(j) =>
        SuitsFits(s, ip, d, j);
        FillTakes(s, ip, free, j, d.planned.FirstJob(), Pending(s, j), d);
        FillOneJob(s, ip, free, j, d.planned.FirstJob(), Pending(s, j), d);
  }

  lemma EmptyHasNoKeys()
    ensures Empty.jobs.Keys == {}
  {
  }

  lemma SuitsFits(s: State, ip: IP, d: Draft, j: JobId)
    requires ip in s.nodes && j in s.jobs && Suits(s, ip, d, j)
    ensures CanAdd(s, ip, d.planned, d.history, j) && Pending(s, j) != {} && Admits(s, ip, j)
    ensures d.chosen.Some? ==> d.chosen.value == j
  {
  }

  lemma FillOneJob(s: State, ip: IP, free: int, j: JobId, hid: int, tasks: set<TaskId>, d: Draft)
    requires ip in s.nodes && j in s.jobs
    requires (d.planned == Empty && Admits(s, ip, j)) || BatchOk(s, ip, free, d.planned, j)
    ensures var f := Fill(s, ip, free, j, hid, tasks, d).0;
            f.planned.jobs.Keys == {} || f.planned.jobs.Keys == {j}
  {
    hide Fill;
    FillOk(s, ip, free, j, hid, tasks, d);
  }

  lemma ChosenStays(s: State, ip: IP, free: int, d: Draft, x: JobId)
    requires ip in s.nodes && d == ScanResched(s, ip, free, s.resched, Start(s))
    requires d.chosen == Some(x) && DraftOk(s, ip, free, d) && FirstRescheduled(s, ip, s.resched) == Some(x)
    ensures Plan(s, ip, free).0.jobs.Keys == {x} && Preferred(s, ip, x) && !Nothing(s, ip)
  {
    hide Suits, FirstSuiting, ScanResched, Fill, Admits, Eligible;
    FirstSuitingSuits(s, ip, d, s.queue);
    match FirstSuiting(s, ip, d, s.queue)
    case None =>
    case Some(j) =>
      SuitsFits(s, ip, d, j);
      FillOneJob(s, ip, free, x, d.planned.FirstJob(), Pending(s, x), d);
      FillGrows(s, ip, free, x, d.planned.FirstJob(), Pending(s, x), d);
  }

  /** The worker is ready or executing, not lost or disabled, and has a CPU that is not busy. */
  predicate InService(n: Node) {
    (n.worker.state == Ready || n.worker.state == Executing) && n.busy < n.worker.numCPU
  }

  /** The batch is of a waiting job that the worker at `ip` may start. */
  ghost predicate Serves(s: State, ip: IP, b: WorkerJob) {
    ip in s.nodes && exists j :: b.jobs.Keys == {j} && Eligible(s, ip, j) && Waits(s, j)
  }

  /** Work conservation: `GetTaskToSend` gives nothing if and only if no worker that it visits is in
      service, has a free CPU and may start a waiting task; otherwise it serves such a worker. */
  lemma RequestWorkConserving(s: State, known: Registry, order: seq<IP>)
    requires Base(s, known, {})
    ensures Request(s, order).0.NoTask? <==>
            forall ip, j | ip in order && ip in s.nodes && InService(s.nodes[ip]) && Eligible(s, ip, j) :: !Waits(s, j)
    ensures Request(s, order).0.Batch? ==>
              && Request(s, order).0.ip in order && Request(s, order).0.ip in s.nodes
              && InService(s.nodes[Request(s, order).0.ip])
              && Serves(s, Request(s, order).0.ip, Request(s, order).0.tasks)
  {
    RequestCases(s, order);
    hide Base, Request, Plan, Eligible, Waits, Serves;
    forall ip | ip in order && ip in s.nodes && Idle(s, ip)
      ensures Plan(s, ip, s.nodes[ip].FreeCPU()).0.jobs.Keys == {} <==> Nothing(s, ip)
      ensures Plan(s, ip, s.nodes[ip].FreeCPU()).0.jobs.Keys != {} ==> Serves(s, ip, Plan(s, ip, s.nodes[ip].FreeCPU()).0)
    {
      PlanChooses(s, known, ip, s.nodes[ip].FreeCPU());
      PlanServes(s, known, ip, s.nodes[ip].FreeCPU());
    }
  }

  lemma PlanServes(s: State, known: Registry, ip: IP, free: int)
    requires Base(s, known, {}) && ip in s.nodes && free > 0
    ensures Plan(s, ip, free).0.jobs.Keys != {} ==> Serves(s, ip, Plan(s, ip, free).0)
  {
    hide Base, Plan, Eligible, FirstRescheduled;
    PlanChooses(s, known, ip, free);
    if Plan(s, ip, free).0.jobs.Keys != {} {
      var j :| Plan(s, ip, free).0.jobs.Keys == {j} && Preferred(s, ip, j);
      assert Eligible(s, ip, j) && Waits(s, j);
    }
  }

  // ---- the batch is maximal ----

  /** A larger batch and a longer history only make it harder to add one more task. */
  lemma CanAddShrinks(s: State, ip: IP, p: WorkerJob, h: History, p1: WorkerJob, h1: History, j: JobId)
    requires ip in s.nodes && j in s.jobs
    requires p.Tasks(j) <= p1.Tasks(j) && NumExecAt(h, j, ip) <= NumExecAt(h1, j, ip)
    requires CanAdd(s, ip, p1, h1, j)
    ensures CanAdd(s, ip, p, h, j)
  {
    SubsetSize(p.Tasks(j), p1.Tasks(j));
  }

  ghost predicate Full(s: State, ip: IP, free: int, p: WorkerJob, h: History, j: JobId)
    requires ip in s.nodes && j in s.jobs
  {
    p.Total() >= free || !CanAdd(s, ip, p, h, j)
  }

  lemma {:induction false} ScanGrows(s: State, ip: IP, free: int, rest: seq<WorkerTask>, d: Draft, j: JobId)
    requires ip in s.nodes && d.chosen == Some(j)
    ensures var r := ScanResched(s, ip, free, rest, d);
            r.chosen == d.chosen && r.history == d.history && d.planned.Tasks(j) <= r.planned.Tasks(j)
    decreases |rest|
  {
    hide CanAdd, WorkerJob.Total;
    if rest != [] && d.planned.Total() < free {
      ScanGrows(s, ip, free, rest[1..], Consider(s, ip, d, rest[0]), j);
    }
  }

  /** After the scan the batch is full or no task of the chosen job is left over. */
  lemma {:induction false} ScanExhausts(s: State, ip: IP, free: int, rest: seq<WorkerTask>, d: Draft, j: JobId)
    requires ip in s.nodes && j in s.jobs && d.chosen == Some(j)
    requires ReschedOf(d.kept, j) == {}
    ensures var r := ScanResched(s, ip, free, rest, d);
            Full(s, ip, free, r.planned, r.history, j) || ReschedOf(r.kept, j) == {}
    decreases |rest|
  {
    hide CanAdd, WorkerJob.Total;
    if rest != [] && d.planned.Total() < free {
      var d1 := Consider(s, ip, d, rest[0]);
      if ReschedOf(d1.kept, j) == {} {
        ScanExhausts(s, ip, free, rest[1..], d1, j);
      } else {
        assert rest[0].job == j && !CanAdd(s, ip, d.planned, d.history, j) by {
          SkippedOther(d.kept, rest[0], j);
        }
        ScanGrows(s, ip, free, rest[1..], d1, j);
        var r := ScanResched(s, ip, free, rest[1..], d1);
        if CanAdd(s, ip, r.planned, r.history, j) {
          CanAddShrinks(s, ip, d.planned, d.history, r.planned, r.history, j);
        }
      }
    }
  }

  lemma SkippedOther(kept: seq<WorkerTask>, k: WorkerTask, j: JobId)
    ensures k.job != j ==> ReschedOf(kept + [k], j) == ReschedOf(kept, j)
  {
  }

  /** Up to the choice no task of the job that is chosen is passed over. */
  lemma {:induction false} ScanExhaustsFromStart(s: State, ip: IP, free: int, rest: seq<WorkerTask>, d: Draft, j: JobId)
    requires ip in s.nodes && d.chosen.None? && d.planned == Empty && d.history == s.history
    requires ReschedOf(d.kept, j) == {} || !Eligible(s, ip, j)
    requires j in s.jobs && ScanResched(s, ip, free, rest, d).chosen == Some(j)
    ensures var r := ScanResched(s, ip, free, rest, d);
            Full(s, ip, free, r.planned, r.history, j) || ReschedOf(r.kept, j) == {}
    decreases |rest|
  {
    hide CanAdd, WorkerJob.Total, Admits, CountExec, Full, ReschedOf;
    var d1 := Consider(s, ip, d, rest[0]);
    if d1.chosen.Some? {
      ScanStaysChosen(s, ip, free, rest[1..], d1);
      ScanExhausts(s, ip, free, rest[1..], d1, j);
    } else {
      SkippedOther(d.kept, rest[0], j);
      ScanExhaustsFromStart(s, ip, free, rest[1..], d1, j);
    }
  }

  lemma {:induction false} FillExhausts(s: State, ip: IP, free: int, j: JobId, hid: int, tasks: set<TaskId>, d: Draft)
    requires ip in s.nodes && j in s.jobs
    ensures var (f, left) := Fill(s, ip, free, j, hid, tasks, d);
            Full(s, ip, free, f.planned, f.history, j) || left == {}
    ensures Full(s, ip, free, d.planned, d.history, j) ==> Fill(s, ip, free, j, hid, tasks, d) == (d, tasks)
    decreases tasks
  {
    hide CanAdd, WorkerJob.Total;
    if !(tasks == {} || d.planned.Total() >= free || !CanAdd(s, ip, d.planned, d.history, j)) {
      var t := Least(tasks);
      FillExhausts(s, ip, free, j, hid, tasks - {t},
                   d.(planned := d.planned.AddTask(j, t).SetExclusive(s.jobs[j].exclusive),
                      history := CountExec(d.history, hid, ip)));
    }
  }

  ghost predicate Maximal(s: State, ip: IP, free: int, b: WorkerJob, s1: State, j: JobId)
    requires ip in s.nodes && j in s.jobs
  {
    Full(s, ip, free, b, s1.history, j) || !Waits(s1, j)
  }

  lemma NoneLeft(s: State, j: JobId)
    requires ReschedOf(s.resched, j) == {} && Pending(s, j) == {}
    ensures !Waits(s, j)
  {
    forall k | k in s.resched ensures k.job != j {
      assert k.job == j ==> k.task in ReschedOf(s.resched, j);
    }
  }

  lemma FilledMaximal(s: State, ip: IP, free: int, d: Draft, j: JobId, hid: int)
    requires ip in s.nodes && j in s.jobs
    requires Full(s, ip, free, d.planned, d.history, j) || ReschedOf(d.kept, j) == {}
    ensures var (f, left) := Fill(s, ip, free, j, hid, Pending(s, j), d);
            Maximal(s, ip, free, f.planned, SetPending(s, j, left).(resched := d.kept, history := f.history), j)
  {
    hide Full, ReschedOf, Fill, Waits;
    FillExhausts(s, ip, free, j, hid, Pending(s, j), d);
    var (f, left) := Fill(s, ip, free, j, hid, Pending(s, j), d);
    if left == {} && ReschedOf(d.kept, j) == {} {
      NoneLeft(SetPending(s, j, left).(resched := d.kept, history := f.history), j);
    }
  }

  lemma UnfilledMaximal(s: State, known: Registry, ip: IP, free: int, d: Draft, j: JobId)
    requires Base(s, known, {}) && ip in s.nodes && DraftOk(s, ip, free, d) && d.chosen == Some(j)
    requires FirstSuiting(s, ip, d, s.queue) == None
    requires Full(s, ip, free, d.planned, d.history, j) || ReschedOf(d.kept, j) == {}
    ensures Maximal(s, ip, free, d.planned, s.(resched := d.kept, history := d.history), j)
  {
    hide Base, ReschedOf, FirstSuiting, CanAdd, Admits, Waits, Fits, MayJoin, WorkerJob.Total;
    FirstSuitingSuits(s, ip, d, s.queue);
    SentHasNothing(s, known, j);
    if !Full(s, ip, free, d.planned, d.history, j) {
      NoneLeft(s.(resched := d.kept, history := d.history), j);
    }
  }

  lemma UnchosenList(s: State, ip: IP, j: JobId)
    requires ip in s.nodes && FirstRescheduled(s, ip, s.resched) == None && Eligible(s, ip, j)
    ensures ReschedOf(s.resched, j) == {}
  {
    hide Eligible;
  }

  /** The batch for a worker uses up the free CPUs, or nothing more of its job may be added to it
      under the limits, or no task of its job is left waiting. */
  lemma PlanMaximal(s: State, known: Registry, ip: IP, free: int, j: JobId)
    requires Base(s, known, {}) && ip in s.nodes && free > 0 && j in s.jobs
    requires Plan(s, ip, free).0.jobs.Keys == {j}
    ensures Maximal(s, ip, free, Plan(s, ip, free).0, Plan(s, ip, free).1, j)
  {
    hide Base, Suits, Eligible, FirstSuiting, ScanResched, Fill, BatchOk, FirstRescheduled, Maximal, Full, ReschedOf,
         Preferred;
    var d := ScanResched(s, ip, free, s.resched, Start(s));
    ScanOk(s, ip, free, s.resched, Start(s));
    ScanUnchosen(s, ip, free, s.resched, Start(s));
    ScanChooses(s, ip, free, s.resched, Start(s));
    FirstSuitingSuits(s, ip, d, s.queue);
    match d.chosen
    case Some(x) =>
      ChosenStays(s, ip, free, d, x);
      NothingKept(j);
      ScanExhaustsFromStart(s, ip, free, s.resched, Start(s), j);
      if FirstSuiting(s, ip, d, s.queue).None? {
        UnfilledMaximal(s, known, ip, free, d, j);
      } else {
        SuitsFits(s, ip, d, FirstSuiting(s, ip, d, s.queue).value);
        FilledMaximal(s, ip, free, d, j, d.planned.FirstJob());
      }
    case None =>
      QueueChooses(s, known, ip, d);
      match FirstSuiting(s, ip, d, s.queue)
      case None => EmptyHasNoKeys();
      case Some(y) =>
        SuitsFits(s, ip, d, y);
        FillOneJob(s, ip, free, y, d.planned.FirstJob(), Pending(s, y), d);
        UnchosenList(s, ip, y);
        assert d.kept == s.resched;
        FilledMaximal(s, ip, free, d, y, d.planned.FirstJob());
  }

  lemma NothingKept(j: JobId)
    ensures ReschedOf([], j) == {}
  {
  }
}
