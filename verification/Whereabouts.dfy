/** The conservation law over runs.  Every planned task of a scheduled job is in exactly one table and
    was never settled, or is in none and was credited or dropped exactly once: this holds throughout a
    run if and only if every step is lawful in the state in which it is taken
    (src/master/scheduler.cpp:152-573, src/master/scheduled_jobs.h:94-106). */
module Whereabouts {
  import opened Ordering
  import opened WorkerJobs
  import opened SchedulerState
  import opened BatchSelection
  import opened BatchTasks
  import opened SchedulerSteps
  import opened Safety
  import opened Rows
  import opened Conservation
  import opened FailureReports
  import opened FailedSends
  import opened CpuAccounting
  import opened SchedulerRuns
  import opened RunProperties
  import opened JobRuns
  import opened Credits

  // ---- the remaining executions ----

  /** If job `j` is still scheduled, it is owed `n` executions less than before. */
  ghost predicate Owes(s: State, s1: State, j: JobId, n: int) {
    j in s1.jobs ==>
      && j in s.jobs && s1.jobs[j] == s.jobs[j]
      && j in s.execs && j in s1.execs && s1.execs[j] == s.execs[j] - n
  }

  /** The executions of `n` tasks of job `j` are written off when they come back. */
  function WrittenOff(s: State, j: JobId, n: nat): nat {
    if j in s.jobs && s.jobs[j].noReschedule then n else 0
  }

  lemma RescheduleOneOwes(s: State, x: JobId, ts: set<TaskId>, j: JobId)
    requires j in s.jobs ==> j in s.execs
    ensures Owes(s, RescheduleOne(s, x, ts), j, if x == j then WrittenOff(s, j, |ts|) else 0)
  {
    hide LimitReached, TaskList, Ascending, StopWorkers, RemoveJob, DecrementExecution;
    if x in s.jobs {
      var s1 := s.(running := s.running[x := Running(s, x) - |ts|]);
      DecrementCases(s1, x, |ts|);
      RemoveOwes(s1, x, j);
      RemoveOwes(StopWorkers(s1, x), x, j);
      StopOwes(s1, x);
    }
  }

  lemma RemoveOwes(s: State, x: JobId, j: JobId)
    ensures var s1 := RemoveJob(s, x);
            s1.jobs == s.jobs - {x} && s1.execs == s.execs - {x}
  {
    hide Without, AsInt32;
  }

  lemma StopOwes(s: State, x: JobId)
    ensures StopWorkers(s, x).jobs == s.jobs && StopWorkers(s, x).execs == s.execs
  {
    hide WithoutJob, DropFromNode;
  }

  lemma {:induction false} RescheduleFromOwes(s: State, w: WorkerJob, ids: seq<JobId>, j: JobId)
    requires j in s.jobs ==> j in s.execs
    requires NoDuplicates(ids)
    ensures Owes(s, RescheduleFrom(s, w, ids), j, if j in ids then WrittenOff(s, j, |w.Tasks(j)|) else 0)
    decreases |ids|
  {
    hide RescheduleOne;
    if ids != [] {
      RescheduleOneOwes(s, ids[0], w.Tasks(ids[0]), j);
      RescheduleFromOwes(RescheduleOne(s, ids[0], w.Tasks(ids[0])), w, ids[1..], j);
      assert j in ids <==> j == ids[0] || j in ids[1..];
    }
  }

  lemma RescheduleOwes(s: State, w: WorkerJob, j: JobId)
    requires j in s.jobs ==> j in s.execs
    ensures Owes(s, Reschedule(s, w), j, WrittenOff(s, j, |w.Tasks(j)|))
  {
    hide RescheduleFrom;
    AscendingHasNoDuplicates(w.jobs.Keys);
    RescheduleFromOwes(s, w, Ascending(w.jobs.Keys), j);
  }

  lemma StopJobOwes(s: State, x: JobId, j: JobId)
    requires j in s.jobs ==> j in s.execs
    ensures Owes(s, StopJob(s, x), j, 0)
  {
    hide StopWorkers, RemoveJob;
    StopOwes(s, x);
    RemoveOwes(StopWorkers(s, x), x, j);
  }

  lemma SucceedOwes(s: State, ip: IP, x: JobId, t: TaskId, j: JobId)
    requires j in s.jobs ==> j in s.execs
    ensures Owes(s, SucceedTask(s, ip, x, t), j, if GivesCredit(s, TaskSucceeded(ip, x, t), j, t) then 1 else 0)
  {
    hide RemoveJob, DecrementExecution, WorkerJob.DeleteTask;
    if !(x !in s.jobs || ip !in s.nodes || !s.nodes[ip].worker.job.HasTask(x, t)) {
      var n := s.nodes[ip];
      var s1 := SetNode(s, ip, Node(n.worker.(job := n.worker.job.DeleteTask(x, t)), n.busy - 1));
      var s2 := s1.(running := s.running[x := Running(s, x) - 1]);
      DecrementCases(s2, x, 1);
      RemoveOwes(s2, x, j);
    }
  }

  lemma VacateOwes(s: State, ip: IP, j: JobId)
    requires j in s.jobs ==> j in s.execs
    ensures Owes(s, ChangeWorkerState(s, ip), j, WrittenOff(s, j, |TakenOff(s, WorkerStateChanged(ip), j)|))
    ensures Owes(s, DeleteNode(s, ip), j, WrittenOff(s, j, |TakenOff(s, NodeDeleted(ip), j)|))
  {
    hide Reschedule;
    if ip in s.nodes {
      var n := s.nodes[ip];
      var w := n.worker.job;
      var s1 := AddFailedAll(s, w, ip);
      RescheduleOwes(SetNode(s1, ip, Node(n.worker.(job := Empty), 0)), w, j);
      RescheduleOwes(s1.(nodes := s.nodes - {ip}), w, j);
    }
  }

  lemma FailTaskOwes(s: State, ip: IP, x: JobId, t: TaskId, j: JobId)
    requires j in s.jobs ==> j in s.execs
    ensures Owes(s, FailTask(s, ip, x, t), j, WrittenOff(s, j, |TakenOff(s, TaskFailed(ip, x, t), j)|))
  {
    hide RescheduleOne, HitsLimit, LimitReached;
    if Counts(s, ip, x) {
      var c := Charge(s, ip, x, 1);
      AtLimit(s, ip, x, 1);
      if HitsLimit(s, x) {
        LimitWaits(c, x, {t}, j);
      }
      RescheduleOneOwes(c, x, {t}, j);
      assert |{t}| == 1;
    }
  }

  lemma FailSendOwes(s: State, ip: IP, b: WorkerJob, j: JobId)
    requires Lawful(s, SendFailed(ip, b)) && OneJobBatch(SendFailed(ip, b)) && (j in s.jobs ==> j in s.execs)
    ensures Owes(s, FailSend(s, ip, b), j, WrittenOff(s, j, |TakenOff(s, SendFailed(ip, b), j)|))
  {
    hide RescheduleOne, HitsLimit, LimitReached, WorkerJob.Total, Reschedule, Charge, DropFirstAt, FailSend;
    var x := b.FirstJob();
    SingleKey(b, Least(b.jobs.Keys));
    if Counts(s, ip, x) {
      var ts, n := b.Tasks(x), |b.Tasks(x)|;
      var c := Charge(s, ip, x, n);
      FailSendSteps(s, ip, b, x);
      AtLimit(s, ip, x, n);
      ChargeOwes(s, ip, x, n);
      DropFirstOwes(RescheduleOne(c, x, ts), ip);
      RescheduleOneOwes(c, x, ts, j);
      if HitsLimit(s, x) {
        LimitWaits(c, x, ts, j);
      } else if s.jobs[x].noReschedule && x in RescheduleOne(c, x, ts).jobs && x == j {
        StaysOwed(c, x, ts);
      }
    } else {
      IgnoredSend(s, ip, b, x);
    }
  }

  lemma ChargeOwes(s: State, ip: IP, x: JobId, n: int)
    requires ip in s.nodes
    ensures Charge(s, ip, x, n).jobs == s.jobs && Charge(s, ip, x, n).execs == s.execs
  {
  }

  lemma DropFirstOwes(s: State, ip: IP)
    ensures DropFirstAt(s, ip).jobs == s.jobs && DropFirstAt(s, ip).execs == s.execs
  {
  }

  lemma RequestOwes(s: State, order: seq<IP>, j: JobId)
    requires j in s.jobs ==> j in s.execs
    ensures Owes(s, Request(s, order).1, j, 0)
  {
    hide Request;
    RequestFacts(s, order);
  }

  /** A lawful step takes exactly as many executions off a job as it settles tasks. */
  lemma StepOwes(r: Trace, e: Event, j: JobId)
    requires Possible(r, e) && j in r.known && Lawful(r.s, e) && OneJobBatch(e) && (j in r.s.jobs ==> j in r.s.execs)
    ensures Owes(r.s, Next(r.s, e), j, |Settles(r.s, e, j)|)
  {
    hide ChangeWorkerState, DeleteNode, FailSend, FailTask, StopJob, SucceedTask, Request, HitsLimit, Settles,
         WorkerJob.FirstJob, HeldAt, Lawful, OneJobBatch, PlanJob, TakenOff, AppearHost, UpdateWorker;
    var s := r.s;
    SettlesSize(s, e, j);
    match e
    case WorkerStateChanged(ip) => VacateOwes(s, ip, j);
    case NodeDeleted(ip) => VacateOwes(s, ip, j);
    case SendFailed(ip, b) => FailSendOwes(s, ip, b, j);
    case TaskFailed(ip, x, t) => FailTaskOwes(s, ip, x, t, j);
    case TaskTimedOut(ip, x, t) =>
      if ip in s.nodes && s.nodes[ip].worker.job.HasTask(x, t) {
        FailTaskOwes(s, ip, x, t, j);
        TimedOutHeld(s, ip, x, t, j);
      } else {
        TimedOutIgnored(s, ip, x, t, j);
      }
    case JobStopped(x) => StopJobOwes(s, x, j);
    case TaskSucceeded(ip, x, t) => SucceedOwes(s, ip, x, t, j);
    case TaskRequested(order) => RequestOwes(s, order, j);
    case JobPlanned(job, cpus, workers) => PlanOwes(s, job, cpus, workers, j);
    case _ => NodeOwes(s, e, j);
  }

  lemma NodeOwes(s: State, e: Event, j: JobId)
    requires e.HostAppeared? || e.WorkerUpdated?
    requires j in s.jobs ==> j in s.execs
    ensures Owes(s, Next(s, e), j, 0)
  {
  }

  lemma SettlesSize(s: State, e: Event, j: JobId)
    ensures !e.TaskSucceeded? ==> |Settles(s, e, j)| == WrittenOff(s, j, |TakenOff(s, e, j)|)
    ensures e.TaskSucceeded? ==> |Settles(s, e, j)| == if GivesCredit(s, e, j, e.task) then 1 else 0
    ensures e.HostAppeared? || e.WorkerUpdated? || e.JobPlanned? || e.TaskRequested? || e.JobStopped? ==>
              |Settles(s, e, j)| == 0
  {
    hide GivesCredit, HeldAt, Counts, HitsLimit, WorkerJob.FirstJob;
    assert Drops(s, e, j) + {} == Drops(s, e, j);
    if e.TaskSucceeded? {
      assert Drops(s, e, j) == {};
      assert {} + {e.task} == {e.task};
    }
  }

  lemma TimedOutIgnored(s: State, ip: IP, x: JobId, t: TaskId, j: JobId)
    requires !(ip in s.nodes && s.nodes[ip].worker.job.HasTask(x, t))
    ensures TakenOff(s, TaskTimedOut(ip, x, t), j) == {}
  {
    hide HitsLimit;
  }

  lemma TimedOutHeld(s: State, ip: IP, x: JobId, t: TaskId, j: JobId)
    requires ip in s.nodes
    ensures TakenOff(s, TaskTimedOut(ip, x, t), j) ==
            if s.nodes[ip].worker.job.HasTask(x, t) then TakenOff(s, TaskFailed(ip, x, t), j) else {}
  {
    hide HitsLimit;
  }

  lemma PlanOwes(s: State, job: Job, cpus: int, workers: int, j: JobId)
    requires job.id != j && (j in s.jobs ==> j in s.execs)
    ensures Owes(s, PlanJob(s, job, cpus, workers), j, 0)
  {
    hide Inserted, Below;
  }

  // ---- what the law says about one job ----

  /** The tables of job `j` are disjoint and within the planned tasks, and the counters count them. */
  ghost predicate Partitioned(s: State, j: JobId)
    requires j in s.jobs
  {
    && PendingIn(s.toSend, j) !! ReschedOf(s.resched, j) !! HeldTasks(s.nodes, j)
    && Alive(s, j) <= Below(s.jobs[j].planned)
    && RunningIn(s.execs, j) == |Alive(s, j)| && Running(s, j) == |HeldTasks(s.nodes, j)|
    && NoDuplicates(s.resched)
    && forall a, b | a != b :: HeldAt(s.nodes, a, j) !! HeldAt(s.nodes, b, j)
  }

  lemma RowSizes(r: Row)
    requires RowOk(r) && r.limbo == {}
    ensures r.execs == |r.pending + r.resched + AllHeld(r.held)| && r.running == |AllHeld(r.held)|
    ensures r.pending !! r.resched !! AllHeld(r.held)
    ensures r.pending + r.resched + AllHeld(r.held) <= Below(r.planned)
  {
    hide AllHeld;
    assert r.pending + r.resched + AllHeld(r.held) + {} == r.pending + r.resched + AllHeld(r.held);
    assert AllHeld(r.held) + {} == AllHeld(r.held);
  }

  lemma HeldApart(s: State, j: JobId)
    requires j in s.jobs && RowOk(RowOf(s, {}, j))
    ensures forall a, b | a != b :: HeldAt(s.nodes, a, j) !! HeldAt(s.nodes, b, j)
  {
    hide Unfinished, Size, Apart;
    var h := HeldOf(s.nodes, j);
    forall a, b | a != b ensures HeldAt(s.nodes, a, j) !! HeldAt(s.nodes, b, j) {
      assert a in h && b in h ==> h[a] !! h[b];
    }
  }

  lemma ConservedMeans(s: State, j: JobId)
    requires Conserved(s, map[]) && j in s.jobs
    ensures Partitioned(s, j)
  {
    hide Conserved, ReschedOf, HeldAt, NoDuplicates, RowOk, AllHeld, HeldOf, Below;
    ListDistinct(s);
    RowAt(s, map[], j);
    RowSizes(RowOf(s, {}, j));
    HeldApart(s, j);
  }

  lemma ListDistinct(s: State)
    requires Conserved(s, map[])
    ensures NoDuplicates(s.resched)
  {
  }

  // ---- the sum over the workers ----

  ghost function SumHeld(nodes: map<IP, Node>, ips: set<IP>, j: JobId): nat {
    if ips == {} then 0 else
      var ip :| ip in ips;
      |HeldAt(nodes, ip, j)| + SumHeld(nodes, ips - {ip}, j)
  }

  ghost function HeldBy(nodes: map<IP, Node>, ips: set<IP>, j: JobId): set<TaskId> {
    set ip, t | ip in ips && t in HeldAt(nodes, ip, j) :: t
  }

  lemma {:induction false} SumIsSize(nodes: map<IP, Node>, ips: set<IP>, j: JobId)
    requires forall a, b | a != b :: HeldAt(nodes, a, j) !! HeldAt(nodes, b, j)
    ensures SumHeld(nodes, ips, j) == |HeldBy(nodes, ips, j)|
    decreases ips
  {
    hide HeldAt;
    if ips == {} {
      assert HeldBy(nodes, ips, j) == {};
    } else {
      var ip :| ip in ips && SumHeld(nodes, ips, j) == |HeldAt(nodes, ip, j)| + SumHeld(nodes, ips - {ip}, j);
      SumIsSize(nodes, ips - {ip}, j);
      HeldByMore(nodes, ips, j, ip);
    }
  }

  lemma HeldByMore(nodes: map<IP, Node>, ips: set<IP>, j: JobId, ip: IP)
    requires ip in ips && forall a, b | a != b :: HeldAt(nodes, a, j) !! HeldAt(nodes, b, j)
    ensures |HeldBy(nodes, ips, j)| == |HeldBy(nodes, ips - {ip}, j)| + |HeldAt(nodes, ip, j)|
  {
    hide HeldAt;
    var rest, own := HeldBy(nodes, ips - {ip}, j), HeldAt(nodes, ip, j);
    assert HeldBy(nodes, ips, j) == rest + own;
    forall t | t in rest ensures t !in own {
      var a :| a in ips - {ip} && t in HeldAt(nodes, a, j);
      assert HeldAt(nodes, a, j) !! own;
    }
    assert rest !! own;
  }

  lemma HeldByAll(nodes: map<IP, Node>, j: JobId)
    ensures HeldBy(nodes, nodes.Keys, j) == HeldTasks(nodes, j)
  {
    hide HeldTasks;
    forall t ensures t in HeldBy(nodes, nodes.Keys, j) <==> t in HeldTasks(nodes, j) {
      HeldTasksAt(nodes, j, t);
    }
  }

  /** The cluster count of a job is the sum over the workers of the tasks they hold. */
  lemma RunningIsSum(s: State, j: JobId)
    requires j in s.jobs && Partitioned(s, j)
    ensures Running(s, j) == SumHeld(s.nodes, s.nodes.Keys, j)
  {
    hide HeldTasks, HeldAt, ReschedOf, NoDuplicates;
    SumIsSize(s.nodes, s.nodes.Keys, j);
    HeldByAll(s.nodes, j);
  }

  // ---- every task is somewhere or settled ----

  lemma SameJob(r: Trace, e: Event, j: JobId)
    requires Base(r.s, r.known, {}) && Possible(r, e) && j in r.s.jobs && j in Advance(r, e).s.jobs
    ensures Advance(r, e).s.jobs[j] == r.s.jobs[j]
  {
    AdvanceKeeps(r, e);
    hide Next, QueueOk, Safety.SentOk, FiledOk, FailedLimit, WorkersOk;
  }

  lemma ExecsAre(s: State, j: JobId)
    requires j in s.jobs && Partitioned(s, j) && j in s.execs
    ensures s.execs[j] == |Alive(s, j)|
  {
    hide Alive, HeldTasks, HeldAt, ReschedOf, NoDuplicates;
  }

  /** A lawful step takes from the tables of a job exactly the tasks that it settles. */
  lemma AliveExactly(r: Trace, e: Event, j: JobId)
    requires Base(r.s, r.known, {}) && Conserved(r.s, map[]) && Possible(r, e) && Lawful(r.s, e) && OneJobBatch(e)
    requires Conserved(Advance(r, e).s, map[]) && j in r.s.jobs && j in Advance(r, e).s.jobs
    ensures Alive(Advance(r, e).s, j) == Alive(r.s, j) - Settles(r.s, e, j)
    ensures Settles(r.s, e, j) <= Alive(r.s, j)
  {
    hide Base, Conserved, Lawful, OneJobBatch, Alive, Partitioned, Next, Settles;
    var s1, gone := Advance(r, e).s, Settles(r.s, e, j);
    JobKnown(r.s, r.known, j);
    AliveStep(r, e, j);
    ConservedMeans(r.s, j);
    ConservedMeans(s1, j);
    ExecsAt(r.s, map[], j);
    StepOwes(r, e, j);
    ExecsAre(r.s, j);
    ExecsAre(s1, j);
    SettlesHeld(r.s, e, j);
    HeldIsAlive(r.s, Host(e), j);
    forall t | t in gone ensures t !in Alive(s1, j) {
      SettlesEnds(r, e, j, t);
    }
    SplitSize(Alive(r.s, j), gone);
    SubsetSize(Alive(s1, j), Alive(r.s, j) - gone);
  }

  lemma SplitSize(a: set<TaskId>, b: set<TaskId>)
    requires b <= a
    ensures |a - b| == |a| - |b|
  {
    assert a == (a - b) + b;
  }

  lemma NewlyAlive(r: Trace, e: Event, j: JobId)
    requires Base(r.s, r.known, {}) && Possible(r, e) && j !in r.known && j in Advance(r, e).s.jobs
    requires Conserved(Advance(r, e).s, map[])
    ensures Alive(Advance(r, e).s, j) == Below(Advance(r, e).s.jobs[j].planned)
  {
    hide Base, Conserved, Below, Inserted, Request;
    var s1 := Advance(r, e).s;
    ConservedMeans(s1, j);
    if !e.JobPlanned? {
      hide Next;
      OnlyPlanningAdds(r, e, j);
      assert false;
    } else {
      NotScheduled(r.s, r.known, j);
      assert PendingIn(s1.toSend, j) == PendingIn(r.s.toSend, j) + Below(s1.jobs[j].planned);
    }
  }

  /** Task `t` of job `j` is in a table and was never settled, or is in none and was settled once. */
  ghost predicate Accountable(es: seq<Event>, j: JobId, t: TaskId) {
    if t in Alive(After(Boot, es).s, j)
    then CreditCount(Boot, es, j, t) + DropCount(Boot, es, j, t) == 0
    else CreditCount(Boot, es, j, t) + DropCount(Boot, es, j, t) == 1
  }

  /** The conservation law: the tables add up, and every planned task of every scheduled job is
      accountable. */
  ghost predicate Balanced(es: seq<Event>) {
    var s := After(Boot, es).s;
    && Conserved(s, map[])
    && forall j, t | j in s.jobs && t in Below(s.jobs[j].planned) :: Accountable(es, j, t)
  }

  lemma TaskStep(p: seq<Event>, es: seq<Event>, j: JobId, t: TaskId)
    requires es != [] && p == es[..|es| - 1] && Balanced(p)
    requires PossibleRun(Boot, es) && BatchRun(es) && LawfulRun(Boot, es)
    requires j in After(Boot, es).s.jobs && t in Below(After(Boot, es).s.jobs[j].planned)
    ensures Accountable(es, j, t)
  {
    hide Base, Conserved, Lawful, OneJobBatch, Alive, Advance, Possible, Settles, Below, CreditCount, DropCount;
    var r, e := After(Boot, p), es[|es| - 1];
    BootIsSafe();
    RunKeeps(Boot, p);
    LawfulRunConserves(p);
    LawfulRunConserves(es);
    SettleCountStep(Boot, es, j, t);
    if j in r.s.jobs {
      SameJob(r, e, j);
      assert Accountable(p, j, t);
      AliveExactly(r, e, j);
    } else if j in r.known {
      GoneStaysGone(r, e, j);
    } else {
      SettledOnce(p, j, t);
      NewlyAlive(r, e, j);
      UnscheduledSettles(r.s, e, j, t);
    }
  }

  lemma UnscheduledSettles(s: State, e: Event, j: JobId, t: TaskId)
    requires j !in s.jobs
    ensures t !in Settles(s, e, j)
  {
    hide TakenOff;
  }

  lemma {:induction false} LawfulBalances(es: seq<Event>)
    requires PossibleRun(Boot, es) && BatchRun(es) && LawfulRun(Boot, es)
    ensures Balanced(es)
    decreases |es|
  {
    hide Base, Advance, Possible, Lawful, OneJobBatch, Conserved, Below, Accountable;
    LawfulRunConserves(es);
    if es != [] {
      LawfulBalances(es[..|es| - 1]);
      forall j, t | j in After(Boot, es).s.jobs && t in Below(After(Boot, es).s.jobs[j].planned)
        ensures Accountable(es, j, t)
      {
        TaskStep(es[..|es| - 1], es, j, t);
      }
    }
  }

  // ---- and only lawful steps keep the law ----

  lemma UnfinishedIsAlive(s: State, j: JobId)
    requires j in s.jobs
    ensures Unfinished(RowOf(s, {}, j)) == Alive(s, j)
  {
    hide ReschedOf, AllHeld, HeldOf;
  }

  /** A late send that is not about the worker's holding brings a finished task back. */
  lemma LateSendRevives(s: State, ip: IP, b: WorkerJob, j: JobId)
    requires Counts(s, ip, j) && !HitsLimit(s, j) && b.jobs.Keys == {j}
    requires Exchanges(s, ip, b, j) && !Returns(s, ip, b, j)
    ensures exists t :: t in b.Tasks(j) && t in Below(s.jobs[j].planned) && t !in Alive(s, j)
                        && t in Alive(FailSend(s, ip, b), j)
    ensures j in FailSend(s, ip, b).jobs && FailSend(s, ip, b).jobs[j] == s.jobs[j]
  {
    hide HitsLimit, LimitReached, RescheduleOne, FailSend, Unfinished, WorkerJob.FirstJob, HeldTasks, ReschedOf,
         TaskList, Ascending, Below, RowOf;
    var ts, held := b.Tasks(j), s.nodes[ip].worker.job.Tasks(j);
    OtherTask(ts, held);
    var t :| t in ts - held;
    PlannedOf(s, j);
    UnfinishedIsAlive(s, j);
    FailSendBelowLimit(s, ip, b, j);
    var a := JobOff(s, ip, j, |ts|);
    JobOffLimit(s, ip, j, |ts|);
    JobOffJobs(s, ip, j, |ts|);
    RelistFacts(a, j, ts);
    RelistJobs(a, j, ts);
    ReschedOfAppended(s.resched, j, ts, j);
    assert t in Alive(FailSend(s, ip, b), j);
  }

  lemma PlannedOf(s: State, j: JobId)
    requires j in s.jobs
    ensures RowOf(s, {}, j).planned == s.jobs[j].planned
  {
  }

  lemma RelistJobs(s: State, j: JobId, ts: set<TaskId>)
    requires j in s.jobs && !LimitReached(s, j) && !s.jobs[j].noReschedule
    ensures RescheduleOne(s, j, ts).jobs == s.jobs
  {
    hide LimitReached, TaskList, Ascending;
  }

  lemma OtherTask(a: set<TaskId>, b: set<TaskId>)
    requires |a| == |b| && a != b
    ensures exists t :: t in a - b
  {
    var both := a * b;
    assert a == (a - b) + both;
    SubsetSize(both, b);
    assert a - b != {};
  }

  /** A step after which the law still holds was lawful. */
  lemma BalancedStepIsLawful(p: seq<Event>, es: seq<Event>)
    requires es != [] && p == es[..|es| - 1] && PossibleRun(Boot, es) && BatchRun(es)
    requires Balanced(p) && Balanced(es)
    ensures Lawful(After(Boot, p).s, es[|es| - 1])
  {
    hide Base, Conserved, Lawful, OneJobBatch, AddsUp, Possible, Advance;
    var r, e := After(Boot, p), es[|es| - 1];
    BootIsSafe();
    RunKeeps(Boot, p);
    AdvanceConservesIff(r, e);
    if !Lawful(r.s, e) {
      OnlySendsDiffer(r.s, e);
      RevivedBreaks(p, es);
      assert false;
    }
  }

  lemma OnlySendsDiffer(s: State, e: Event)
    requires AddsUp(s, e) && !Lawful(s, e)
    ensures e.SendFailed?
  {
  }

  lemma SendCase(s: State, e: Event)
    requires e.SendFailed? && AddsUp(s, e) && !Lawful(s, e) && OneJobBatch(e)
    ensures var j := e.batch.FirstJob();
            && j >= 0 && Counts(s, e.ip, j) && !HitsLimit(s, j) && e.batch.jobs.Keys == {j}
            && Exchanges(s, e.ip, e.batch, j) && !Returns(s, e.ip, e.batch, j)
  {
    hide HitsLimit, Exchanges, Returns;
    SingleKey(e.batch, Least(e.batch.jobs.Keys));
  }

  lemma RevivedBreaks(p: seq<Event>, es: seq<Event>)
    requires es != [] && p == es[..|es| - 1] && Balanced(p) && es[|es| - 1].SendFailed?
    requires AddsUp(After(Boot, p).s, es[|es| - 1]) && !Lawful(After(Boot, p).s, es[|es| - 1])
    requires OneJobBatch(es[|es| - 1])
    ensures !Balanced(es)
  {
    hide Conserved, Lawful, OneJobBatch, AddsUp, Alive, Exchanges, Returns, HitsLimit, FailSend, WorkerJob.FirstJob,
         Below, CreditCount, DropCount;
    var s, e := After(Boot, p).s, es[|es| - 1];
    SendCase(s, e);
    var j := e.batch.FirstJob();
    LateSendRevives(s, e.ip, e.batch, j);
    var t :| t in e.batch.Tasks(j) && t in Below(s.jobs[j].planned) && t !in Alive(s, j)
             && t in Alive(FailSend(s, e.ip, e.batch), j);
    assert Accountable(p, j, t);
    SettleCountStep(Boot, es, j, t);
    assert !Accountable(es, j, t);
  }

  ghost predicate AlwaysBalanced(es: seq<Event>) {
    Balanced(es) && (es == [] || AlwaysBalanced(es[..|es| - 1]))
  }

  /** Task conservation: the law holds throughout a run from the start if and only if every step of
      the run is lawful in the state in which it is taken. */
  lemma {:induction false} ConservationOverRuns(es: seq<Event>)
    requires PossibleRun(Boot, es) && BatchRun(es)
    ensures AlwaysBalanced(es) <==> LawfulRun(Boot, es)
    decreases |es|
  {
    hide Balanced, Lawful, Possible, OneJobBatch, Advance;
    if LawfulRun(Boot, es) {
      LawfulBalances(es);
    }
    if es != [] {
      var p := es[..|es| - 1];
      ConservationOverRuns(p);
      if AlwaysBalanced(es) {
        BalancedStepIsLawful(p, es);
      }
    }
  }

  ghost predicate AlwaysExact(es: seq<Event>) {
    Balanced(es) && CpuOk(After(Boot, es).s.nodes) && (es == [] || AlwaysExact(es[..|es| - 1]))
  }

  /** The law holds and all CPU counters are exact throughout a run if and only if every step of the
      run is sound in the state in which it is taken. */
  lemma {:induction false} AccountingOverRuns(es: seq<Event>)
    requires PossibleRun(Boot, es) && BatchRun(es)
    ensures AlwaysExact(es) <==> SoundRun(Boot, es)
    decreases |es|
  {
    hide Balanced, Lawful, Possible, OneJobBatch, Advance, CpuOk, Base, AddsUp, CpuSafe, Conserved;
    if SoundRun(Boot, es) {
      SoundRunAccounts(es);
      LawfulBalances(es);
    }
    if es != [] {
      var p := es[..|es| - 1];
      AccountingOverRuns(p);
      if AlwaysExact(es) {
        BootIsSafe();
        RunKeeps(Boot, p);
        BalancedStepIsLawful(p, es);
        BalancedConserves(p);
        BalancedConserves(es);
        AdvanceAccountedIff(After(Boot, p), es[|es| - 1]);
      }
    }
  }

  lemma BalancedConserves(es: seq<Event>)
    requires Balanced(es)
    ensures Conserved(After(Boot, es).s, map[])
  {
  }

  /** The law read out for one job. */
  lemma EveryTaskAccountedFor(es: seq<Event>, j: JobId)
    requires PossibleRun(Boot, es) && BatchRun(es) && LawfulRun(Boot, es) && j in After(Boot, es).s.jobs
    ensures var s := After(Boot, es).s;
            && Partitioned(s, j)
            && (!s.jobs[j].noReschedule ==> forall t :: DropCount(Boot, es, j, t) == 0)
            && forall t | t in Below(s.jobs[j].planned) ::
                 var n := CreditCount(Boot, es, j, t) + DropCount(Boot, es, j, t);
                 if t in Alive(s, j) then n == 0 else n == 1
  {
    hide Conserved, Lawful, Possible, OneJobBatch, Advance, Partitioned, Alive, CreditCount, DropCount, Below;
    LawfulBalances(es);
    ConservedMeans(After(Boot, es).s, j);
    if !After(Boot, es).s.jobs[j].noReschedule {
      forall t ensures DropCount(Boot, es, j, t) == 0 {
        NeverDropped(es, j, t);
      }
    }
    forall t | t in Below(After(Boot, es).s.jobs[j].planned) ensures Accountable(es, j, t) {
    }
  }

  lemma {:induction false} NeverDropped(es: seq<Event>, j: JobId, t: TaskId)
    requires PossibleRun(Boot, es) && j in After(Boot, es).s.jobs && !After(Boot, es).s.jobs[j].noReschedule
    ensures DropCount(Boot, es, j, t) == 0
    decreases |es|
  {
    hide Base, Advance, Possible, TakenOff;
    if es != [] {
      var p, e := es[..|es| - 1], es[|es| - 1];
      BootIsSafe();
      RunKeeps(Boot, p);
      var r := After(Boot, p);
      if j in r.s.jobs {
        SameJob(r, e, j);
        NeverDropped(p, j, t);
      } else if j in r.known {
        GoneStaysGone(r, e, j);
      } else {
        NeverKnown(p, j, t);
      }
    }
  }

  lemma {:induction false} NeverKnown(es: seq<Event>, j: JobId, t: TaskId)
    requires PossibleRun(Boot, es) && j !in After(Boot, es).known
    ensures DropCount(Boot, es, j, t) == 0
    decreases |es|
  {
    hide Base, Advance, Possible, TakenOff;
    if es != [] {
      var p := es[..|es| - 1];
      BootIsSafe();
      RunKeeps(Boot, p);
      StaysKnown(After(Boot, p), es[|es| - 1]);
      NeverKnown(p, j, t);
      NotScheduled(After(Boot, p).s, After(Boot, p).known, j);
    }
  }
}
