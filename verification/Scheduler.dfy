/** The scheduler as the object it is (src/master/scheduler.cpp): its fields are reassigned by its
    methods, its loops are loops, and every method is proved to take the step of `SchedulerSteps`
    that carries its name. */
module SchedulerObject {
  import opened Ordering
  import opened WorkerJobs
  import opened SchedulerState
  import opened BatchSelection
  import opened BatchFacts
  import opened SchedulerSteps
  import FailedSends

  /** Whether `RescheduleJob` reports that it put a task on the list. */
  function Relists(s: State, w: WorkerJob, ids: seq<JobId>): bool
    decreases |ids|
  {
    ids != [] &&
    (Relistable(s, ids[0], w.Tasks(ids[0])) || Relists(RescheduleOne(s, ids[0], w.Tasks(ids[0])), w, ids[1..]))
  }

  predicate Relistable(s: State, j: JobId, tasks: set<TaskId>) {
    j in s.jobs && !LimitReached(s, j) && !s.jobs[j].noReschedule && tasks != {}
  }

  lemma AscendingFirst(s: set<nat>)
    requires s != {}
    ensures Ascending(s) == [Least(s)] + Ascending(s - {Least(s)})
  {
  }

  lemma ListFirst(j: JobId, s: set<TaskId>)
    ensures s == {} ==> TaskList(j, Ascending(s)) == []
    ensures s != {} ==> TaskList(j, Ascending(s)) == [WorkerTask(j, Least(s))] + TaskList(j, Ascending(s - {Least(s)}))
  {
  }

  /** Erasing at the iterator and moving the iterator on have the same effect on what is left. */
  lemma EraseStep(q: seq<WorkerTask>, i: nat, j: JobId)
    requires i < |q|
    ensures q[i].job == j ==>
              var r := q[..i] + q[i + 1..];
              r[..i] == q[..i] && WithoutJob(r[i..], j) == WithoutJob(q[i..], j)
    ensures q[i].job != j ==> q[..i + 1] + WithoutJob(q[i + 1..], j) == q[..i] + WithoutJob(q[i..], j)
  {
    hide WithoutJob;
    WithoutFirst(q[i..], j);
    assert q[i..][1..] == q[i + 1..];
    assert (q[..i] + q[i + 1..])[i..] == q[i + 1..];
    assert q[..i + 1] == q[..i] + [q[i]];
  }

  lemma WithoutFirst(q: seq<WorkerTask>, j: JobId)
    requires q != []
    ensures WithoutJob(q, j) == (if q[0].job == j then [] else [q[0]]) + WithoutJob(q[1..], j)
  {
  }

  /** The failed hosts after `ip` has been recorded for the jobs `done`. */
  ghost predicate Marked(f: map<JobId, set<IP>>, ids: set<JobId>, done: set<JobId>, ip: IP, f1: map<JobId, set<IP>>) {
    && done <= ids && f1.Keys == f.Keys + done
    && forall j | j in f1 :: f1[j] == FailedIn(f, j) + (if j in done then {ip} else {})
  }

  lemma MarkOne(f: map<JobId, set<IP>>, ids: set<JobId>, done: set<JobId>, ip: IP, f1: map<JobId, set<IP>>, j: JobId)
    requires Marked(f, ids, done, ip, f1) && j in ids - done
    ensures Marked(f, ids, done + {j}, ip, f1[j := FailedIn(f1, j) + {ip}])
  {
  }

  lemma MarkedAll(s: State, w: WorkerJob, ip: IP, f1: map<JobId, set<IP>>)
    requires Marked(s.failed, w.jobs.Keys, w.jobs.Keys, ip, f1)
    ensures AddFailedAll(s, w, ip) == s.(failed := f1)
  {
  }

  /** Deleting the nodes of a host one after the other, in the order of the table. */
  function DeleteHost(s: State, host: string, order: seq<IP>): State
    decreases |order|
  {
    if order == [] then s else
      var s1, ip := DeleteHost(s, host, order[..|order| - 1]), order[|order| - 1];
      if ip in s1.nodes && s1.nodes[ip].worker.host == host then DeleteNode(s1, ip) else s1
  }

  lemma DeleteHostStep(s: State, host: string, order: seq<IP>, i: nat)
    requires i < |order|
    ensures var s1, ip := DeleteHost(s, host, order[..i]), order[i];
            DeleteHost(s, host, order[..i + 1]) ==
            if ip in s1.nodes && s1.nodes[ip].worker.host == host then DeleteNode(s1, ip) else s1
  {
    hide DeleteNode;
    assert order[..i + 1][..i] == order[..i];
  }

  function Lost(ips: seq<IP>): (es: seq<Event>)
    ensures |es| == |ips| && forall i | 0 <= i < |ips| :: es[i] == WorkerStateChanged(ips[i])
  {
    if ips == [] then [] else Lost(ips[..|ips| - 1]) + [WorkerStateChanged(ips[|ips| - 1])]
  }

  lemma RunOne(s: State, ips: seq<IP>, ip: IP)
    ensures Run(s, Lost(ips + [ip])) == ChangeWorkerState(Run(s, Lost(ips)), ip)
  {
    hide ChangeWorkerState;
    var es := Lost(ips + [ip]);
    assert es[..|es| - 1] == Lost(ips);
  }

  // ---- the loops of the selection ----

  /** The tests read neither the reschedule list nor the recorded history. */
  lemma SameTests(s: State, s1: State, ip: IP, planned: WorkerJob, j: JobId)
    requires OnlyQueues(s, s1) && ip in s.nodes && j in s.jobs
    ensures CanAdd(s1, ip, planned, s1.history, j) == CanAdd(s, ip, planned, s1.history, j)
    ensures Admits(s1, ip, j) == Admits(s, ip, j)
  {
  }

  /** The tests of the loop over the job queue are those of `Suits`. */
  lemma SuitsTests(s: State, s1: State, ip: IP, d: Draft, found: bool, planned: WorkerJob, j: JobId)
    requires ip in s.nodes && j in s.jobs && s1 == s.(resched := s1.resched, history := s1.history)
    requires found == d.chosen.Some? && planned == d.planned && s1.history == d.history
    requires found ==> planned.FirstJob() == d.chosen.value
    ensures Suits(s, ip, d, j) <==>
            && j !in s.sent && !(found && planned.FirstJob() != j) && CanAdd(s1, ip, planned, s1.history, j)
            && j in s.toSend && s.toSend[j] != {} && Admits(s1, ip, j)
    ensures j in s.toSend ==> Pending(s, j) == s.toSend[j] == Pending(s1, j)
  {
    hide CanAdd, Admits, WorkerJob.FirstJob;
    SameTests(s, s1, ip, planned, j);
  }

  /** One round of the scan: the task at the iterator is either erased or passed. */
  lemma ScanStep(s: State, ip: IP, free: int, q: seq<WorkerTask>, i: nat, d: Draft)
    requires ip in s.nodes && i < |q| && d.kept == q[..i] && d.planned.Total() < free
    ensures var d1 := Consider(s, ip, d, q[i]);
            && ScanResched(s, ip, free, q[i..], d) == ScanResched(s, ip, free, q[i + 1..], d1)
            && (d1.kept == q[..i + 1] || d1.kept == q[..i])
            && var r := q[..i] + q[i + 1..];
               r[..i] == q[..i] && r[i..] == q[i + 1..]
  {
    hide CanAdd, CountExec, WorkerJob.Total, Admits;
    assert q[i..][1..] == q[i + 1..];
  }

  lemma ScanEnd(s: State, ip: IP, free: int, q: seq<WorkerTask>, i: nat, d: Draft)
    requires ip in s.nodes && i <= |q| && d.kept == q[..i] && (i == |q| || d.planned.Total() >= free)
    ensures ScanResched(s, ip, free, q[i..], d) == d.(kept := q)
  {
    assert q[..i] + q[i..] == q;
  }

  lemma FillStep(s: State, ip: IP, free: int, j: JobId, hid: int, tasks: set<TaskId>, d: Draft)
    requires ip in s.nodes && j in s.jobs
    ensures Fill(s, ip, free, j, hid, tasks, d) ==
            if tasks == {} || d.planned.Total() >= free || !CanAdd(s, ip, d.planned, d.history, j) then (d, tasks)
            else Fill(s, ip, free, j, hid, tasks - {Least(tasks)},
                      d.(planned := d.planned.AddTask(j, Least(tasks)).SetExclusive(s.jobs[j].exclusive),
                         history := CountExec(d.history, hid, ip)))
  {
  }

  /** Filling a batch looks at the jobs, the nodes and the running counts only. */
  lemma {:induction false} FillSame(s: State, s1: State, ip: IP, free: int, j: JobId, hid: int, tasks: set<TaskId>,
                                    d: Draft, d1: Draft)
    requires OnlyQueues(s, s1) && ip in s.nodes && j in s.jobs && d1.planned == d.planned && d1.history == d.history
    ensures var (f, left) := Fill(s, ip, free, j, hid, tasks, d);
            var (f1, left1) := Fill(s1, ip, free, j, hid, tasks, d1);
            f1.planned == f.planned && f1.history == f.history && left1 == left
    decreases tasks
  {
    hide CountExec, WorkerJob.Total, WorkerJob.AddTask, WorkerJob.SetExclusive;
    if !(tasks == {} || d.planned.Total() >= free || !CanAdd(s, ip, d.planned, d.history, j)) {
      var t := Least(tasks);
      var p, h := d.planned.AddTask(j, t).SetExclusive(s.jobs[j].exclusive), CountExec(d.history, hid, ip);
      FillSame(s, s1, ip, free, j, hid, tasks - {t}, d.(planned := p, history := h), d1.(planned := p, history := h));
    }
  }

  lemma FirstSuitingStep(s: State, ip: IP, d: Draft, q: seq<JobId>, i: nat)
    requires ip in s.nodes && i <= |q|
    ensures FirstSuiting(s, ip, d, q[i..]) ==
            if i == |q| then None
            else if q[i] in s.jobs && Suits(s, ip, d, q[i]) then Some(q[i])
            else FirstSuiting(s, ip, d, q[i + 1..])
  {
    hide Suits;
    if i < |q| {
      assert q[i..][1..] == q[i + 1..];
    }
  }

  lemma PlanCases(s: State, ip: IP, free: int)
    requires ip in s.nodes
    ensures var d := ScanResched(s, ip, free, s.resched, Start(s));
            Plan(s, ip, free) ==
            match FirstSuiting(s, ip, d, s.queue)
            case None => (d.planned, s.(resched := d.kept, history := d.history))
            case Some(j) =>
              if j in s.jobs then
                var (f, left) := Fill(s, ip, free, j, d.planned.FirstJob(), Pending(s, j), d);
                (f.planned, SetPending(s, j, left).(resched := d.kept, history := f.history))
              else (d.planned, s)
  {
    hide ScanResched, FirstSuiting, Fill, SetPending, WorkerJob.FirstJob;
  }

  lemma SetPendingQueues(s: State, q: seq<WorkerTask>, h0: History, j: JobId, left: set<TaskId>, h: History)
    ensures SetPending(s.(resched := q, history := h0), j, left).(history := h)
         == SetPending(s, j, left).(resched := q, history := h)
  {
    var sent, toSend := s.sent + {j}, if left == {} then s.toSend - {j} else s.toSend[j := left];
    if left == {} {
      assert SetPending(s, j, left) == s.(sent := sent, toSend := toSend);
    } else {
      assert SetPending(s, j, left) == s.(toSend := toSend);
    }
  }

  /** The job that `GetJobForWorker` reads off the batch is the one the scan has chosen. */
  lemma ChosenIsFirst(s: State, ip: IP, free: int)
    requires ip in s.nodes
    ensures var d := ScanResched(s, ip, free, s.resched, Start(s));
            d.chosen.Some? ==> d.planned.FirstJob() == d.chosen.value
  {
    hide ScanResched, Admits, MayJoin, Fits;
    ScanOk(s, ip, free, s.resched, Start(s));
  }

  lemma RequestStep(s: State, order: seq<IP>, i: nat)
    requires i <= |order|
    ensures i == |order| ==> Request(s, order[i..]) == (NoTask, s)
    ensures i < |order| ==>
              var ip := order[i];
              Request(s, order[i..]) ==
              if ip in s.nodes && Idle(s, ip) && Plan(s, ip, s.nodes[ip].FreeCPU()).0.jobs.Keys != {} then
                (Batch(ip, Plan(s, ip, s.nodes[ip].FreeCPU()).0),
                 Assign(PlanState(s, ip, s.nodes[ip].FreeCPU()), ip, Plan(s, ip, s.nodes[ip].FreeCPU()).0))
              else Request(s, order[i + 1..])
  {
    if i < |order| {
      hide Plan;
      assert order[i..][1..] == order[i + 1..];
      var ip := order[i];
      if ip in s.nodes {
        PlanOk(s, ip, s.nodes[ip].FreeCPU());
      }
    }
  }

  /** The state after `GetJobForWorker`; it knows the same nodes. */
  function PlanState(s: State, ip: IP, free: int): (s1: State)
    requires ip in s.nodes
    ensures s1.nodes == s.nodes
  {
    PlanOk(s, ip, free);
    Plan(s, ip, free).1
  }

  lemma PlanIsBatch(s: State, ip: IP, free: int)
    requires ip in s.nodes
    ensures var (b, s1) := Plan(s, ip, free);
            && b.Valid() && (b.Total() > 0 <==> b.jobs.Keys != {})
            && (b.Total() == 0 ==> b == Empty && s1 == s)
            && PlanState(s, ip, free) == s1
  {
    hide Plan, WorkerJob.Total;
    PlanOk(s, ip, free);
    EmptyTotal(Plan(s, ip, free).0);
  }

  const NODE_JOB_COMPLETION_NOT_FOUND := -2
  const NODE_JOB_TIMEOUT := -3

  lemma AddedBefore(s: State, j: JobId, ip: IP)
    requires ip in FailedOf(s, j)
    ensures AddFailed(s, j, ip) == s
  {
    assert s.failed[j] + {ip} == s.failed[j];
    assert s.failed[j := s.failed[j]] == s.failed;
  }

  lemma SingleTask(s: State, j: JobId, t: TaskId)
    ensures Reschedule(s, Empty.AddTask(j, t)) == RescheduleOne(s, j, {t})
  {
    hide RescheduleOne, RescheduleFrom;
    var w := Empty.AddTask(j, t);
    assert Empty.Tasks(j) + {t} == {t};
    FailedSends.SingleReschedule(s, w, j);
  }

  function StopEach(s: State, ids: seq<JobId>): State {
    if ids == [] then s else StopJob(StopEach(s, ids[..|ids| - 1]), ids[|ids| - 1])
  }

  class Scheduler {
    var nodes: map<IP, Node>
    var failed: map<JobId, set<IP>>
    var jobs: map<JobId, Job>
    var queue: seq<JobId>
    var sent: set<JobId>
    var execs: map<JobId, int>
    var toSend: map<JobId, set<TaskId>>
    var resched: seq<WorkerTask>
    var running: map<JobId, int>
    var history: History

    function View(): State
      reads this
    {
      State(nodes, failed, jobs, queue, sent, execs, toSend, resched, running, history)
    }

    constructor ()
      ensures View() == Initial
    {
      nodes, failed, jobs, queue, sent := map[], map[], map[], [], {};
      execs, toSend, resched, running, history := map[], map[], [], map[], map[];
    }

    // ---- nodes ----

    method OnHostAppearance(ip: IP, worker: Worker)
      modifies this`nodes
      ensures View() == AppearHost(old(View()), ip, worker)
    {
      var busy := 0;
      if ip in nodes {
        busy := nodes[ip].busy;
      }
      nodes := nodes[ip := Node(worker, busy)];
    }

    method DeleteWorker(host: string, order: seq<IP>)
      requires NoDuplicates(order) && SetOf(order) == nodes.Keys
      modifies this
      ensures View() == DeleteHost(old(View()), host, order)
    {
      var i := 0;
      while i < |order|
        invariant 0 <= i <= |order|
        invariant View() == DeleteHost(old(View()), host, order[..i])
      {
        hide DeleteHost, DeleteNode;
        var ip := order[i];
        DeleteHostStep(old(View()), host, order, i);
        if ip in nodes && nodes[ip].worker.host == host {
          EraseNode(ip);
        }
        i := i + 1;
      }
      assert order[..i] == order;
    }

    method EraseNode(ip: IP)
      requires ip in nodes
      modifies this
      ensures View() == DeleteNode(old(View()), ip)
    {
      hide AddFailedAll, RescheduleFrom;
      var workerJob := nodes[ip].worker.job;
      AddAllFailed(workerJob, ip);
      nodes := nodes - {ip};
      var _ := RescheduleJob(workerJob);
    }

    method OnChangedWorkerState(ips: seq<IP>)
      modifies this
      ensures View() == Run(old(View()), Lost(ips))
    {
      var i := 0;
      while i < |ips|
        invariant 0 <= i <= |ips|
        invariant View() == Run(old(View()), Lost(ips[..i]))
      {
        hide Run, Lost, ChangeWorkerState;
        assert ips[..i + 1] == ips[..i] + [ips[i]];
        RunOne(old(View()), ips[..i], ips[i]);
        ResetLostWorker(ips[i]);
        i := i + 1;
      }
      assert ips[..i] == ips;
    }

    method ResetLostWorker(ip: IP)
      modifies this
      ensures View() == ChangeWorkerState(old(View()), ip)
    {
      hide AddFailedAll, RescheduleFrom;
      if ip in nodes && nodes[ip].worker.state == NotAvailable && nodes[ip].busy >= 1 {
        var worker := nodes[ip].worker;
        AddAllFailed(worker.job, ip);
        nodes := nodes[ip := Node(worker.(job := Empty), 0)];
        var _ := RescheduleJob(worker.job);
      }
    }

    // ---- failed workers ----

    /** `FailedWorkers::Add` for one job: was the host not recorded yet? */
    method AddFailedWorker(j: JobId, ip: IP) returns (added: bool)
      modifies this`failed
      ensures View() == AddFailed(old(View()), j, ip)
      ensures added <==> ip !in FailedOf(old(View()), j)
    {
      var ips := if j in failed then failed[j] else {};
      added := ip !in ips;
      failed := failed[j := ips + {ip}];
    }

    method AddAllFailed(w: WorkerJob, ip: IP)
      modifies this`failed
      ensures View() == AddFailedAll(old(View()), w, ip)
    {
      var rest := w.jobs.Keys;
      while rest != {}
        invariant Marked(old(failed), w.jobs.Keys, w.jobs.Keys - rest, ip, failed) && rest <= w.jobs.Keys
        decreases rest
      {
        var j := Least(rest);
        MarkOne(old(failed), w.jobs.Keys, w.jobs.Keys - rest, ip, failed, j);
        var _ := AddFailedWorker(j, ip);
        assert w.jobs.Keys - (rest - {j}) == w.jobs.Keys - rest + {j};
        rest := rest - {j};
      }
      MarkedAll(old(View()), w, ip, failed);
    }

    // ---- scheduled jobs ----

    method RemoveScheduledJob(j: JobId)
      modifies this`execs, this`running, this`history, this`failed, this`jobs, this`queue, this`sent
      ensures View() == RemoveJob(old(View()), j)
    {
      hide Without, AsInt32;
      execs := execs - {j};
      running := running - {j};
      history := history - {AsInt32(j)};
      failed := failed - {j};
      jobs, sent := jobs - {j}, sent - {j};
      queue := Without(queue, j);
    }

    method DecrementJobExecution(j: JobId, n: nat)
      modifies this`execs, this`running, this`history, this`failed, this`jobs, this`queue, this`sent
      ensures View() == DecrementExecution(old(View()), j, n)
    {
      if j in execs {
        var numExecution := execs[j] - n;
        execs := execs[j := numExecution];
        if numExecution < 1 {
          RemoveScheduledJob(j);
        }
      }
    }

    method PlanJobExecution(job: Job, totalCPU: int, totalWorkers: int)
      modifies this
      ensures View() == PlanJob(old(View()), job, totalCPU, totalWorkers)
    {
      hide Inserted, Below;
      var n := NumPlannedExec(job, totalCPU, totalWorkers);
      var tasks := InsertTasks(PendingIn(toSend, job.id), n);
      toSend := toSend[job.id := tasks];
      execs := execs[job.id := n];
      jobs := jobs[job.id := job.(planned := n)];
      queue := Inserted(jobs, queue, job.id);
    }

    static method InsertTasks(before: set<TaskId>, n: nat) returns (tasks: set<TaskId>)
      ensures tasks == before + Below(n)
    {
      tasks := before;
      var t: nat := 0;
      while t < n
        invariant t <= n
        invariant tasks == before + Below(t)
      {
        tasks := tasks + {t};
        t := t + 1;
      }
    }

    // ---- stopping and rescheduling ----

    method DropJob(j: JobId)
      modifies this`nodes
      ensures nodes == map ip | ip in old(nodes) :: DropFromNode(old(nodes)[ip], j)
    {
      var rest := nodes.Keys;
      while rest != {}
        invariant nodes.Keys == old(nodes).Keys && rest <= nodes.Keys
        invariant forall ip | ip in nodes ::
                    nodes[ip] == if ip in rest then old(nodes)[ip] else DropFromNode(old(nodes)[ip], j)
        decreases rest
      {
        hide DropFromNode;
        var ip :| ip in rest;
        var n := nodes[ip];
        if j in n.worker.job.jobs {
          Dropped(n, j);
          nodes := nodes[ip := Node(n.worker.(job := n.worker.job.DeleteJob(j)), n.busy - |n.worker.job.Tasks(j)|)];
        } else {
          Undropped(n, j);
        }
        rest := rest - {ip};
      }
    }

    static lemma Dropped(n: Node, j: JobId)
      requires j in n.worker.job.jobs
      ensures DropFromNode(n, j)
           == Node(n.worker.(job := n.worker.job.DeleteJob(j)), n.busy - |n.worker.job.Tasks(j)|)
    {
    }

    static lemma Undropped(n: Node, j: JobId)
      requires j !in n.worker.job.jobs
      ensures DropFromNode(n, j) == n
    {
    }

    method StopJobAtWorkers(j: JobId)
      modifies this`nodes, this`toSend, this`resched
      ensures View() == StopWorkers(old(View()), j)
    {
      hide DropFromNode, WithoutJob;
      DropJob(j);
      toSend := toSend - {j};
      EraseRescheduled(j);
    }

    method EraseRescheduled(j: JobId)
      modifies this`resched
      ensures resched == WithoutJob(old(resched), j)
    {
      var i := 0;
      while i < |resched|
        invariant 0 <= i <= |resched|
        invariant WithoutJob(old(resched), j) == resched[..i] + WithoutJob(resched[i..], j)
        decreases |resched| - i
      {
        hide WithoutJob;
        EraseStep(resched, i, j);
        if resched[i].job == j {
          resched := resched[..i] + resched[i + 1..];
        } else {
          i := i + 1;
        }
      }
    }

    method RescheduleJob(w: WorkerJob) returns (found: bool)
      modifies this
      ensures View() == Reschedule(old(View()), w)
      ensures found == Relists(old(View()), w, Ascending(w.jobs.Keys))
    {
      found := false;
      var rest := w.jobs.Keys;
      while rest != {}
        invariant rest <= w.jobs.Keys
        invariant Reschedule(old(View()), w) == RescheduleFrom(View(), w, Ascending(rest))
        invariant Relists(old(View()), w, Ascending(w.jobs.Keys)) == (found || Relists(View(), w, Ascending(rest)))
        decreases rest
      {
        hide RescheduleOne, Ascending, Relistable;
        var j := Least(rest);
        AscendingFirst(rest);
        assert Ascending(rest)[1..] == Ascending(rest - {j});
        var listed := RescheduleTasks(j, w.Tasks(j));
        found := found || listed;
        rest := rest - {j};
      }
    }

    /** One round of the loop in `RescheduleJob`. */
    method RescheduleTasks(j: JobId, tasks: set<TaskId>) returns (listed: bool)
      modifies this
      ensures View() == RescheduleOne(old(View()), j, tasks)
      ensures listed == Relistable(old(View()), j, tasks)
    {
      hide StopWorkers, RemoveJob, DecrementExecution, TaskList, Ascending;
      listed := false;
      if j in jobs {
        running := running[j := RunningIn(running, j) - |tasks|];
        var limit := jobs[j].maxFailedNodes;
        if limit >= 0 && |FailedIn(failed, j)| >= limit {
          StopJobAtWorkers(j);
          RemoveScheduledJob(j);
        } else if jobs[j].noReschedule {
          DecrementJobExecution(j, |tasks|);
        } else {
          listed := tasks != {};
          AppendTasks(j, tasks);
        }
      }
    }

    method AppendTasks(j: JobId, tasks: set<TaskId>)
      modifies this`resched
      ensures resched == old(resched) + TaskList(j, Ascending(tasks))
    {
      hide Ascending, TaskList;
      var rest := tasks;
      while rest != {}
        invariant resched + TaskList(j, Ascending(rest)) == old(resched) + TaskList(j, Ascending(tasks))
        decreases rest
      {
        var t := Least(rest);
        ListFirst(j, rest);
        resched := resched + [WorkerTask(j, t)];
        rest := rest - {t};
      }
      ListFirst(j, rest);
    }

    // ---- choosing a batch ----

    method GetReschedJobForWorker(ip: IP, free: int) returns (found: bool, planned: WorkerJob)
      requires ip in nodes
      modifies this`resched, this`history
      ensures var s := old(View());
              var d := ScanResched(s, ip, free, s.resched, Start(s));
              && found == d.chosen.Some? && planned == d.planned
              && View() == s.(resched := d.kept, history := d.history)
    {
      hide ScanResched, CanAdd, CountExec, WorkerJob.Total, Admits, WorkerJob.AddTask, WorkerJob.SetExclusive;
      ghost var s := View();
      found, planned := false, Empty;
      var jobId: JobId := 0;
      var i := 0;
      assert resched[0..] == resched && resched[..0] == [];
      ghost var d := Start(s);
      while i < |resched| && planned.Total() < free
        invariant 0 <= i <= |resched|
        invariant View() == s.(resched := resched, history := history)
        invariant d == Draft(planned, resched[..i], history, if found then Some(jobId) else None)
        invariant ScanResched(s, ip, free, s.resched, Start(s)) == ScanResched(s, ip, free, resched[i..], d)
        decreases |resched| - i
      {
        var k := resched[i];
        ScanStep(s, ip, free, resched, i, d);
        d := Consider(s, ip, d, k);
        if k.job in jobs {
          SameTests(s, View(), ip, planned, k.job);
        }
        if k.job in jobs && CanAdd(View(), ip, planned, history, k.job) {
          if found && k.job == jobId {
            planned := planned.AddTask(jobId, k.task);
            resched := resched[..i] + resched[i + 1..];
            continue;
          } else if !found && Admits(View(), ip, k.job) {
            found, jobId := true, k.job;
            planned := planned.AddTask(jobId, k.task).SetExclusive(jobs[jobId].exclusive);
            history := CountExec(history, jobId, ip);
            resched := resched[..i] + resched[i + 1..];
            continue;
          }
        }
        i := i + 1;
      }
      ScanEnd(s, ip, free, resched, i, d);
    }

    /** The inner loop of `GetJobForWorker`, over the tasks to send of job `j`. */
    method TakeTasks(ip: IP, free: int, j: JobId, hid: int, before: WorkerJob) returns (planned: WorkerJob)
      requires ip in nodes && j in jobs && j in toSend && toSend[j] != {}
      modifies this`toSend, this`sent, this`history
      ensures var s := old(View());
              var (f, left) := Fill(s, ip, free, j, hid, Pending(s, j), Draft(before, [], s.history, None));
              planned == f.planned && View() == SetPending(s, j, left).(history := f.history)
    {
      hide CanAdd, CountExec, WorkerJob.Total, WorkerJob.AddTask, WorkerJob.SetExclusive, Fill;
      ghost var s := View();
      planned := before;
      var tasks := toSend[j];
      while tasks != {} && planned.Total() < free && CanAdd(View(), ip, planned, history, j)
        invariant View() == s.(history := history)
        invariant Fill(s, ip, free, j, hid, s.toSend[j], Draft(before, [], s.history, None))
               == Fill(s, ip, free, j, hid, tasks, Draft(planned, [], history, None))
        decreases tasks
      {
        SameTests(s, View(), ip, planned, j);
        FillStep(s, ip, free, j, hid, tasks, Draft(planned, [], history, None));
        var t := Least(tasks);
        planned := planned.AddTask(j, t).SetExclusive(jobs[j].exclusive);
        history := CountExec(history, hid, ip);
        tasks := tasks - {t};
      }
      SameTests(s, View(), ip, planned, j);
      FillStep(s, ip, free, j, hid, tasks, Draft(planned, [], history, None));
      if tasks == {} {
        sent, toSend := sent + {j}, toSend - {j};
      } else {
        toSend := toSend[j := tasks];
      }
    }

    method GetJobForWorker(ip: IP, free: int) returns (ok: bool, planned: WorkerJob)
      requires ip in nodes
      modifies this`resched, this`history, this`toSend, this`sent
      ensures (planned, View()) == Plan(old(View()), ip, free)
      ensures ok <==> planned.Total() > 0
    {
      hide ScanResched, CanAdd, WorkerJob.Total, WorkerJob.FirstJob, Admits, Fill, FirstSuiting, Suits, PendingIn, Plan,
           SetPending;
      ghost var s := View();
      ghost var d := ScanResched(s, ip, free, s.resched, Start(s));
      var found;
      found, planned := GetReschedJobForWorker(ip, free);
      ChosenIsFirst(s, ip, free);
      var jobId := planned.FirstJob();
      ghost var s1 := View();
      assert queue[0..] == queue;
      var i := 0;
      while i < |queue|
        invariant 0 <= i <= |queue|
        invariant View() == s1
        invariant FirstSuiting(s, ip, d, s.queue) == FirstSuiting(s, ip, d, queue[i..])
      {
        var j := queue[i];
        FirstSuitingStep(s, ip, d, queue, i);
        if j in jobs {
          SuitsTests(s, View(), ip, d, found, planned, j);
        }
        if && j in jobs && j !in sent
           && !(found && jobId != j)
           && CanAdd(View(), ip, planned, history, j)
           && j in toSend && toSend[j] != {}
           && Admits(View(), ip, j)
        {
          FillSame(s, s1, ip, free, j, jobId, toSend[j], d, Draft(planned, [], history, None));
          ghost var (f, left) := Fill(s, ip, free, j, jobId, toSend[j], d);
          SetPendingQueues(s, d.kept, d.history, j, left, f.history);
          planned := TakeTasks(ip, free, j, jobId, planned);
          break;
        }
        i := i + 1;
      }
      FirstSuitingStep(s, ip, d, queue, i);
      PlanCases(s, ip, free);
      ok := planned.Total() > 0;
    }

    /** `GetTaskToSend`, visiting the nodes in the order `order`. */
    method GetTaskToSend(order: seq<IP>) returns (got: bool, batch: WorkerJob, hostIP: IP)
      modifies this
      ensures Request(old(View()), order) == (if got then Batch(hostIP, batch) else NoTask, View())
    {
      hide Request, Plan, WorkerJob.Total, WorkerJob.Merge, Idle;
      ghost var s := View();
      got, batch, hostIP := false, Empty, "";
      assert order[0..] == order;
      var i := 0;
      while i < |order|
        invariant 0 <= i <= |order| && View() == s
        invariant Request(s, order) == Request(s, order[i..])
      {
        var ip := order[i];
        RequestStep(s, order, i);
        if ip in nodes && Idle(View(), ip) {
          PlanIsBatch(s, ip, nodes[ip].FreeCPU());
          got, batch := GetJobForWorker(ip, nodes[ip].FreeCPU());
          if got {
            Allocate(ip, batch);
            hostIP := ip;
            return;
          }
        }
        i := i + 1;
      }
      RequestStep(s, order, i);
    }

    method Allocate(ip: IP, batch: WorkerJob)
      requires ip in nodes && batch.jobs.Keys != {} && batch.Valid()
      modifies this`nodes, this`running
      ensures View() == Assign(old(View()), ip, batch)
    {
      hide WorkerJob.Total, WorkerJob.Merge;
      var n := nodes[ip];
      var table := AddAll(n.worker.job, batch);
      var numTasks := GetTotalNumTasks(batch);
      nodes := nodes[ip := Node(n.worker.(job := table), n.busy + numTasks)];
      var j := Least(batch.jobs.Keys);
      running := running[j := RunningIn(running, j) + numTasks];
    }

    // ---- reports ----

    method FreeCPU(ip: IP, n: int)
      requires ip in nodes
      modifies this`nodes
      ensures View() == SetNode(old(View()), ip, old(nodes)[ip].(busy := old(nodes)[ip].busy - n))
    {
      nodes := nodes[ip := nodes[ip].(busy := nodes[ip].busy - n)];
    }

    /** `known` is the worker manager's answer about the host. */
    method OnTaskSendCompletion(success: bool, batch: WorkerJob, ip: IP, known: bool)
      modifies this
      ensures View() == if success || !known then old(View()) else FailSend(old(View()), ip, batch)
    {
      hide WorkerJob.Total, WorkerJob.FirstJob, RescheduleFrom, DropFirstAt;
      if success || !known {
        return;
      }
      var j := batch.FirstJob();
      if j < 0 || j !in jobs || ip !in nodes {
        return;
      }
      var added := AddFailedWorker(j, ip);
      if added {
        FreeCPU(ip, batch.Total());
        assert View() == Charge(old(View()), ip, j, batch.Total());
        var _ := RescheduleJob(batch);
        DropFirst(ip);
      } else {
        AddedBefore(old(View()), j, ip);
      }
    }

    /** The deletion at the end of `OnTaskSendCompletion`, on the worker's own table. */
    method DropFirst(ip: IP)
      modifies this`nodes
      ensures View() == DropFirstAt(old(View()), ip)
    {
      if ip in nodes {
        var n := nodes[ip];
        var first := n.worker.job.FirstJob();
        if first >= 0 {
          nodes := nodes[ip := n.(worker := n.worker.(job := n.worker.job.DeleteJob(first)))];
        } else {
          assert nodes == nodes[ip := n];
        }
      }
    }

    method OnTaskCompletion(errCode: int, j: JobId, t: TaskId, ip: IP, known: bool)
      modifies this
      ensures View() == if !known || errCode == NODE_JOB_COMPLETION_NOT_FOUND then old(View())
                        else if errCode == 0 then SucceedTask(old(View()), ip, j, t)
                        else FailTask(old(View()), ip, j, t)
    {
      if known && errCode == 0 {
        OnTaskSuccess(j, t, ip);
      } else if known && errCode != NODE_JOB_COMPLETION_NOT_FOUND {
        OnTaskFailure(j, t, ip);
      }
    }

    method OnTaskSuccess(j: JobId, t: TaskId, ip: IP)
      modifies this
      ensures View() == SucceedTask(old(View()), ip, j, t)
    {
      hide WorkerJob.DeleteTask, DecrementExecution;
      if j !in jobs || ip !in nodes || !nodes[ip].worker.job.HasTask(j, t) {
        return;
      }
      var n := nodes[ip];
      nodes := nodes[ip := n.(worker := n.worker.(job := n.worker.job.DeleteTask(j, t)))];
      FreeCPU(ip, 1);
      running := running[j := RunningIn(running, j) - 1];
      assert nodes[ip] == Node(n.worker.(job := n.worker.job.DeleteTask(j, t)), n.busy - 1);
      assert nodes == old(nodes)[ip := nodes[ip]];
      DecrementJobExecution(j, 1);
    }

    method OnTaskFailure(j: JobId, t: TaskId, ip: IP)
      modifies this
      ensures View() == FailTask(old(View()), ip, j, t)
    {
      hide DropTaskAt, RescheduleOne, RescheduleFrom, WorkerJob.AddTask;
      if j !in jobs || ip !in nodes {
        return;
      }
      var added := AddFailedWorker(j, ip);
      if added {
        FreeCPU(ip, 1);
        assert View() == Charge(old(View()), ip, j, 1);
        var w := Empty.AddTask(j, t);
        SingleTask(View(), j, t);
        var _ := RescheduleJob(w);
        DropTask(j, t, ip);
      } else {
        AddedBefore(old(View()), j, ip);
      }
    }

    method DropTask(j: JobId, t: TaskId, ip: IP)
      modifies this`nodes
      ensures View() == DropTaskAt(old(View()), ip, j, t)
    {
      if ip in nodes {
        var n := nodes[ip];
        nodes := nodes[ip := n.(worker := n.worker.(job := n.worker.job.DeleteTask(j, t)))];
      }
    }

    method OnTaskTimeout(j: JobId, t: TaskId, ip: IP, known: bool)
      modifies this
      ensures View() == if known then TimeOutTask(old(View()), ip, j, t) else old(View())
    {
      hide FailTask;
      if known && ip in nodes && nodes[ip].worker.job.HasTask(j, t) {
        OnTaskCompletion(NODE_JOB_TIMEOUT, j, t, ip, known);
      }
    }

    method OnJobTimeout(j: JobId)
      modifies this
      ensures View() == StopJob(old(View()), j)
    {
      hide StopWorkers, RemoveJob;
      if j in jobs {
        StopJobAtWorkers(j);
        RemoveScheduledJob(j);
      }
    }

    method StopAllJobs()
      modifies this
      ensures View() == StopEach(old(View()), old(queue))
    {
      var ids := queue;
      var i := 0;
      while i < |ids|
        invariant 0 <= i <= |ids|
        invariant View() == StopEach(old(View()), ids[..i])
      {
        hide StopJob;
        assert ids[..i + 1][..i] == ids[..i];
        OnJobTimeout(ids[i]);
        i := i + 1;
      }
      assert ids[..i] == ids;
    }
  }
}
