/** What a run can do to one job: a failed host gets no more of it, its running count obeys the
    cluster limit after the first batch, and it absorbs a bounded number of reports. */
module JobRuns {
  import opened Ordering
  import opened WorkerJobs
  import opened SchedulerState
  import opened BatchSelection
  import opened BatchFacts
  import opened SchedulerSteps
  import opened Safety
  import opened FailureReports
  import opened CpuAccounting
  import opened SchedulerRuns
  import opened RunProperties

  // ---- requests ----

  /** A request changes one worker and one running count, and only for an admitted job. */
  lemma RequestFacts(s: State, order: seq<IP>)
    ensures var (g, s1) := Request(s, order);
            && s1.jobs == s.jobs && s1.execs == s.execs && s1.failed == s.failed
            && match g
               case NoTask => s1 == s
               case Batch(ip, b) =>
                 ip in s.nodes && exists j ::
                   && BatchOk(s, ip, s.nodes[ip].FreeCPU(), b, j)
                   && s1.running == s.running[j := Running(s, j) + |b.Tasks(j)|]
                   && ip in s1.nodes && s1.nodes == s.nodes[ip := s1.nodes[ip]]
                   && s1.nodes[ip].worker.job == s.nodes[ip].worker.job.Merge(b)
  {
    RequestCases(s, order);
    hide Plan, Request, WorkerJob.Merge;
    match Request(s, order).0
    case NoTask =>
    case Batch(ip, b) =>
      PlanOk(s, ip, s.nodes[ip].FreeCPU());
      var j :| BatchOk(s, ip, s.nodes[ip].FreeCPU(), b, j);
      SingleJobTotal(b, j);
      hide BatchOk;
      assert Least(b.jobs.Keys) == j;
  }

  lemma RequestExcludes(s: State, order: seq<IP>, ip: IP, j: JobId)
    requires j in s.jobs && ip in FailedOf(s, j)
    ensures HeldAt(Request(s, order).1.nodes, ip, j) == HeldAt(s.nodes, ip, j)
  {
    hide Request;
    RequestFacts(s, order);
    match Request(s, order).0
    case NoTask =>
    case Batch(at, b) =>
      var j0 :| BatchOk(s, at, s.nodes[at].FreeCPU(), b, j0)
                && Request(s, order).1.nodes[at].worker.job == s.nodes[at].worker.job.Merge(b);
      if at == ip {
        assert j0 != j;
        assert b.Tasks(j) == {};
      }
  }

  // ---- a job that is gone stays gone ----

  lemma AppearWanes(s: State, ip: IP, w: Worker, j: JobId)
    requires Genuine(s, ip, w)
    ensures var s1 := AppearHost(s, ip, w);
            && s1.jobs == s.jobs && s1.execs == s.execs && s1.failed == s.failed && s1.running == s.running
            && s1.nodes.Keys == s.nodes.Keys + {ip}
            && forall x :: HeldAt(s1.nodes, x, j) <= HeldAt(s.nodes, x, j)
  {
  }

  lemma StaysKnown(r: Trace, e: Event)
    ensures r.known.Keys <= Advance(r, e).known.Keys
  {
    hide Next, Request;
  }

  lemma GoneStaysGone(r: Trace, e: Event, j: JobId)
    requires Base(r.s, r.known, {}) && Possible(r, e) && j in r.known && j !in r.s.jobs
    ensures j !in Advance(r, e).s.jobs
  {
    hide Base, Request;
    match e
    case HostAppeared(ip, w) => AppearWanes(r.s, ip, w, j);
    case TaskRequested(order) => RequestFacts(r.s, order);
    case _ =>
      hide Next;
      StepWanes(r, e, j);
  }

  lemma {:induction false} ScheduledThroughout(r: Trace, es: seq<Event>, j: JobId)
    requires Base(r.s, r.known, {}) && PossibleRun(r, es) && j in r.s.jobs
    ensures j in After(r, es).known
    ensures es != [] && j in After(r, es).s.jobs ==> j in After(r, es[..|es| - 1]).s.jobs
    decreases |es|
  {
    hide Base, Advance, Possible;
    if es == [] {
      JobKnown(r.s, r.known, j);
    } else {
      var p, e := es[..|es| - 1], es[|es| - 1];
      ScheduledThroughout(r, p, j);
      RunKeeps(r, p);
      StaysKnown(After(r, p), e);
      if j !in After(r, p).s.jobs {
        GoneStaysGone(After(r, p), e, j);
      }
    }
  }

  // ---- failed hosts ----

  lemma ExclusionStep(r: Trace, e: Event, ip: IP, j: JobId)
    requires Base(r.s, r.known, {}) && Possible(r, e) && j in r.s.jobs && ip in FailedOf(r.s, j)
    requires j in Advance(r, e).s.jobs
    ensures ip in FailedOf(Advance(r, e).s, j)
    ensures HeldAt(Advance(r, e).s.nodes, ip, j) <= HeldAt(r.s.nodes, ip, j)
  {
    hide Base, Request;
    JobKnown(r.s, r.known, j);
    match e
    case HostAppeared(x, w) => AppearWanes(r.s, x, w, j);
    case TaskRequested(order) =>
      RequestFacts(r.s, order);
      RequestExcludes(r.s, order, ip, j);
    case _ =>
      hide Next;
      StepWanes(r, e, j);
  }

  /** Once a host is recorded as failed for a job, no later batch gives it that job until the job
      is removed: along any run its tasks of that job only become fewer. */
  lemma {:induction false} FailedHostExcluded(r: Trace, es: seq<Event>, ip: IP, j: JobId)
    requires Base(r.s, r.known, {}) && PossibleRun(r, es)
    requires j in r.s.jobs && ip in FailedOf(r.s, j) && j in After(r, es).s.jobs
    ensures ip in FailedOf(After(r, es).s, j)
    ensures HeldAt(After(r, es).s.nodes, ip, j) <= HeldAt(r.s.nodes, ip, j)
    decreases |es|
  {
    hide Base, Advance, Possible;
    if es != [] {
      var p, e := es[..|es| - 1], es[|es| - 1];
      ScheduledThroughout(r, es, j);
      FailedHostExcluded(r, p, ip, j);
      RunKeeps(r, p);
      ExclusionStep(After(r, p), e, ip, j);
    }
  }

  // ---- the cluster limit ----

  function Max(a: int, b: int): int {
    if a < b then b else a
  }

  ghost predicate ClusterOk(r: Trace) {
    forall j | j in r.s.jobs && r.s.jobs[j].maxClusterInstances > 0 ::
      Running(r.s, j) <= Max(r.s.jobs[j].maxClusterInstances, RunningIn(r.first, j))
  }

  lemma FirstBatchSize(s: State, ip: IP, b: WorkerJob, j: JobId, first: map<JobId, nat>)
    requires ip in s.nodes && BatchOk(s, ip, s.nodes[ip].FreeCPU(), b, j)
    ensures FirstBatches(s, Batch(ip, b), first) == if j in s.running then first else first[j := |b.Tasks(j)|]
    ensures s.jobs[j].maxClusterInstances > 0 && j in s.running ==>
              s.running[j] + |b.Tasks(j)| <= s.jobs[j].maxClusterInstances
  {
    SingleJobTotal(b, j);
    hide Admits, MayJoin, WorkerJob.Total;
    assert Least(b.jobs.Keys) == j;
  }

  lemma RequestCluster(r: Trace, order: seq<IP>)
    requires ClusterOk(r)
    ensures ClusterOk(Advance(r, TaskRequested(order)))
  {
    hide Request, FirstBatches, BatchOk, WorkerJob.Tasks;
    RequestFacts(r.s, order);
    var (g, s1) := Request(r.s, order);
    match g
    case NoTask => SameFirst(r);
    case Batch(ip, b) =>
      var j :| BatchOk(r.s, ip, r.s.nodes[ip].FreeCPU(), b, j)
               && s1.running == r.s.running[j := Running(r.s, j) + |b.Tasks(j)|];
      FirstBatchSize(r.s, ip, b, j, r.first);
  }

  lemma SameFirst(r: Trace)
    ensures FirstBatches(r.s, NoTask, r.first) == r.first
  {
  }

  lemma ClusterStep(r: Trace, e: Event)
    requires Base(r.s, r.known, {}) && ClusterOk(r) && Possible(r, e)
    ensures ClusterOk(Advance(r, e))
  {
    hide Base, Request;
    match e
    case TaskRequested(order) => RequestCluster(r, order);
    case HostAppeared(ip, w) =>
    case _ =>
      hide Next;
      var s1 := Next(r.s, e);
      forall j | j in s1.jobs && s1.jobs[j].maxClusterInstances > 0
        ensures RunningIn(s1.running, j) <= Max(s1.jobs[j].maxClusterInstances, RunningIn(r.first, j))
      {
        if j in r.known {
          StepWanes(r, e, j);
        } else {
          NewJobRunsNothing(r, e, j);
        }
      }
  }

  lemma NewJobRunsNothing(r: Trace, e: Event, j: JobId)
    requires Base(r.s, r.known, {}) && Possible(r, e) && j !in r.known && j in Next(r.s, e).jobs
    requires !e.TaskRequested? && !e.HostAppeared?
    ensures RunningIn(Next(r.s, e).running, j) == 0
  {
    NotScheduled(r.s, r.known, j);
    assert j !in r.s.running;
    if e.JobPlanned? {
      hide Inserted, Below, Base;
    } else {
      OnlyPlanningAdds(r, e, j);
      assert false;
    }
  }

  lemma OnlyPlanningAdds(r: Trace, e: Event, j: JobId)
    requires Base(r.s, r.known, {}) && Possible(r, e) && j !in r.known && !e.JobPlanned?
    ensures j !in Next(r.s, e).jobs
  {
    hide Base, Next;
    AdvanceKeeps(r, e);
    NotScheduled(Advance(r, e).s, Advance(r, e).known, j);
  }

  /** Over every run, the running count of a scheduled job with a cluster limit never exceeds the
      larger of the limit and the size of its first batch. */
  lemma {:induction false} ClusterLimitOverRuns(es: seq<Event>)
    requires PossibleRun(Boot, es)
    ensures ClusterOk(After(Boot, es))
    decreases |es|
  {
    hide Base, Advance, Possible;
    if es != [] {
      var p, e := es[..|es| - 1], es[|es| - 1];
      ClusterLimitOverRuns(p);
      BootIsSafe();
      RunKeeps(Boot, p);
      ClusterStep(After(Boot, p), e);
    }
  }

  // ---- the number of reports a job absorbs ----

  /** Executions still owed plus known hosts that have not failed the job; zero once it is gone. */
  function Budget(s: State, j: JobId): int {
    if j in s.jobs then RunningIn(s.execs, j) + |s.nodes.Keys - FailedIn(s.failed, j)| else 0
  }

  /** The event is a report that the scheduler acts on, for job `j`. */
  predicate Effective(s: State, e: Event, j: JobId) {
    match e
    case TaskSucceeded(ip, x, t) =>
      x == j && j in s.jobs && ip in s.nodes && s.nodes[ip].worker.job.HasTask(j, t)
    case TaskFailed(ip, x, t) => x == j && Counts(s, ip, j)
    case TaskTimedOut(ip, x, t) => x == j && Counts(s, ip, j) && s.nodes[ip].worker.job.HasTask(j, t)
    case SendFailed(ip, b) => b.FirstJob() == j && Counts(s, ip, j)
    case _ => false
  }

  predicate NewHost(s: State, e: Event) {
    e.HostAppeared? && e.ip !in s.nodes
  }

  lemma WanesBudget(s: State, s1: State, j: JobId)
    requires Wanes(s, s1, j) && (j in s.jobs ==> RunningIn(s.execs, j) >= 1)
    ensures Budget(s1, j) <= Budget(s, j)
  {
    if j in s1.jobs {
      SubsetSize(s1.nodes.Keys - FailedIn(s1.failed, j), s.nodes.Keys - FailedIn(s.failed, j));
    }
    hide HoldsLess;
  }

  lemma BudgetPositive(s: State, known: Registry, j: JobId)
    requires Base(s, known, {}) && j in s.jobs
    ensures Budget(s, j) >= 1
  {
    hide Base;
    ExecsPositive(s, known, j);
  }

  lemma DecrementSpends(s: State, j: JobId)
    requires j in s.jobs && j in s.execs && s.execs[j] >= 1
    ensures Budget(DecrementExecution(s, j, 1), j) < Budget(s, j)
  {
    hide Without, AsInt32;
    var free := s.nodes.Keys - FailedIn(s.failed, j);
    assert |free| >= 0;
  }

  lemma SameBudget(s: State, s1: State, j: JobId)
    requires s1.jobs == s.jobs && s1.execs == s.execs && s1.failed == s.failed
    requires s1.nodes.Keys == s.nodes.Keys
    ensures Budget(s1, j) == Budget(s, j)
  {
  }

  lemma SuccessSpends(s: State, known: Registry, ip: IP, j: JobId, t: TaskId)
    requires Base(s, known, {}) && j in s.jobs && ip in s.nodes && s.nodes[ip].worker.job.HasTask(j, t)
    ensures Budget(SucceedTask(s, ip, j, t), j) < Budget(s, j)
  {
    hide Base, WorkerJob.DeleteTask, DecrementExecution, Budget;
    ExecsPositive(s, known, j);
    SameKeys(s, known, {});
    var n := s.nodes[ip];
    var s1 := SetNode(s, ip, Node(n.worker.(job := n.worker.job.DeleteTask(j, t)), n.busy - 1));
    var s2 := s1.(running := s.running[j := Running(s, j) - 1]);
    SameBudget(s, s2, j);
    DecrementSpends(s2, j);
  }

  /** A host that fails a job for the first time is spent for it. */
  lemma FailureSpends(s: State, c: State, s1: State, ip: IP, j: JobId)
    requires j in s.jobs && ip in s.nodes && ip !in FailedIn(s.failed, j)
    requires ip in FailedIn(c.failed, j) && Wanes(s, c, j) && Wanes(c, s1, j) && j in s1.jobs
    ensures Budget(s1, j) < Budget(s, j)
  {
    WanesTransitive(s, c, s1, j);
    var a, b := s1.nodes.Keys - FailedIn(s1.failed, j), s.nodes.Keys - FailedIn(s.failed, j);
    assert a <= b - {ip} && ip in b;
    SubsetSize(a, b - {ip});
    hide HoldsLess;
  }

  lemma FailTaskSpends(s: State, known: Registry, ip: IP, j: JobId, t: TaskId)
    requires Base(s, known, {}) && Counts(s, ip, j)
    ensures Budget(FailTask(s, ip, j, t), j) < Budget(s, j)
  {
    hide Base, Wanes, RescheduleOne, DropTaskAt;
    BudgetPositive(s, known, j);
    var c := Charge(s, ip, j, 1);
    var s1 := RescheduleOne(c, j, {t});
    ChargeKeeps(s, known, ip, j, 1);
    SameKeys(c, known, {j});
    ChargeWanes(s, ip, j, 1, j);
    RescheduleOneWanes(c, j, {t}, j);
    DropTaskWanes(s1, ip, j, t, j);
    WanesTransitive(c, s1, FailTask(s, ip, j, t), j);
    if j in FailTask(s, ip, j, t).jobs {
      FailureSpends(s, c, FailTask(s, ip, j, t), ip, j);
    }
  }

  lemma FailSendSpends(s: State, known: Registry, ip: IP, b: WorkerJob, j: JobId)
    requires Base(s, known, {}) && Counts(s, ip, j) && b.FirstJob() == j
    ensures Budget(FailSend(s, ip, b), j) < Budget(s, j)
  {
    hide Base, Wanes, RescheduleFrom, DropFirstAt;
    BudgetPositive(s, known, j);
    var c := Charge(s, ip, j, b.Total());
    var s1 := Reschedule(c, b);
    ChargeKeeps(s, known, ip, j, b.Total());
    ChargeWanes(s, ip, j, b.Total(), j);
    RescheduleFromWanes(c, known, {j}, b, Ascending(b.jobs.Keys), j);
    DropFirstWanes(s1, ip, j);
    WanesTransitive(c, s1, FailSend(s, ip, b), j);
    if j in FailSend(s, ip, b).jobs {
      FailureSpends(s, c, FailSend(s, ip, b), ip, j);
    }
  }

  /** Every report that takes effect spends from the budget of its job; no other step adds to it,
      except that a new host adds one. */
  lemma BudgetStep(r: Trace, e: Event, j: JobId)
    requires Base(r.s, r.known, {}) && Possible(r, e) && j in r.known
    ensures var s1 := Advance(r, e).s;
            Budget(s1, j) + (if Effective(r.s, e, j) then 1 else 0)
              <= Budget(r.s, j) + (if NewHost(r.s, e) then 1 else 0)
  {
    hide Base, Request, Budget, FailSend, FailTask, SucceedTask;
    if Effective(r.s, e, j) {
      match e
      case TaskSucceeded(ip, x, t) => SuccessSpends(r.s, r.known, ip, j, t);
      case TaskFailed(ip, x, t) => FailTaskSpends(r.s, r.known, ip, j, t);
      case TaskTimedOut(ip, x, t) => FailTaskSpends(r.s, r.known, ip, j, t);
      case SendFailed(ip, b) => FailSendSpends(r.s, r.known, ip, b, j);
    } else {
      QuietStep(r, e, j);
    }
  }

  lemma QuietStep(r: Trace, e: Event, j: JobId)
    requires Base(r.s, r.known, {}) && Possible(r, e) && j in r.known
    ensures Budget(Advance(r, e).s, j) <= Budget(r.s, j) + (if NewHost(r.s, e) then 1 else 0)
  {
    hide Base, Request;
    match e
    case HostAppeared(ip, w) =>
      AppearWanes(r.s, ip, w, j);
      AppearBudget(r.s, AppearHost(r.s, ip, w), ip, j);
    case TaskRequested(order) =>
      RequestFacts(r.s, order);
      RequestKeys(r.s, order);
    case _ =>
      hide Next;
      StepWanes(r, e, j);
      if j in r.s.jobs {
        ExecsPositive(r.s, r.known, j);
      }
      WanesBudget(r.s, Next(r.s, e), j);
  }

  lemma AppearBudget(s: State, s1: State, ip: IP, j: JobId)
    requires s1.jobs == s.jobs && s1.execs == s.execs && s1.failed == s.failed
    requires s1.nodes.Keys == s.nodes.Keys + {ip}
    ensures Budget(s1, j) <= Budget(s, j) + (if ip in s.nodes then 0 else 1)
  {
    var f := FailedIn(s.failed, j);
    if ip in s.nodes {
      assert s1.nodes.Keys == s.nodes.Keys;
    } else {
      SubsetSize(s1.nodes.Keys - f, (s.nodes.Keys - f) + {ip});
    }
  }

  lemma RequestKeys(s: State, order: seq<IP>)
    ensures Request(s, order).1.nodes.Keys == s.nodes.Keys
  {
    hide Request;
    RequestFacts(s, order);
  }

  function Effects(r: Trace, es: seq<Event>, j: JobId): nat {
    if es == [] then 0 else
      var p := es[..|es| - 1];
      Effects(r, p, j) + if Effective(After(r, p).s, es[|es| - 1], j) then 1 else 0
  }

  function Arrivals(r: Trace, es: seq<Event>): nat {
    if es == [] then 0 else
      var p := es[..|es| - 1];
      Arrivals(r, p) + if NewHost(After(r, p).s, es[|es| - 1]) then 1 else 0
  }

  /** Between arrivals of new hosts, a scheduled job absorbs at most as many effective reports as
      it has executions left plus known hosts that have not failed it. */
  lemma {:induction false} ReportsBounded(r: Trace, es: seq<Event>, j: JobId)
    requires Base(r.s, r.known, {}) && PossibleRun(r, es) && j in r.s.jobs
    ensures Effects(r, es, j) + Budget(After(r, es).s, j) <= Budget(r.s, j) + Arrivals(r, es)
    ensures Budget(After(r, es).s, j) >= 0
    decreases |es|
  {
    hide Base, Advance, Possible, Budget, Effective, NewHost;
    if es != [] {
      var p, e := es[..|es| - 1], es[|es| - 1];
      ReportsBounded(r, p, j);
      RunKeeps(r, p);
      ScheduledThroughout(r, p, j);
      BudgetStep(After(r, p), e, j);
    }
    RunKeeps(r, es);
    BudgetNonNegative(After(r, es).s, After(r, es).known, j);
  }

  lemma BudgetNonNegative(s: State, known: Registry, j: JobId)
    requires Base(s, known, {})
    ensures Budget(s, j) >= 0
  {
    hide Base;
    if j in s.jobs {
      BudgetPositive(s, known, j);
    }
  }
}
