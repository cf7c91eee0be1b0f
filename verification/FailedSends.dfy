/** A failed send (src/master/scheduler.cpp:388-434) deletes the first job of the worker's table,
    whatever the batch was.  This module proves when that conserves tasks. */
module FailedSends {
  import opened Ordering
  import opened WorkerJobs
  import opened SchedulerState
  import opened BatchTasks
  import opened SchedulerSteps
  import opened Safety
  import opened Rows
  import opened Conservation
  import opened ConservationSteps
  import opened FailureReports

  /** A batch as `GetTaskToSend` hands it out: tasks of one job. */
  ghost predicate IsBatch(batch: WorkerJob, j: JobId) {
    batch.jobs.Keys == {j} && batch.Tasks(j) != {}
  }

  lemma SingleKey(batch: WorkerJob, j: JobId)
    requires batch.jobs.Keys == {j}
    ensures batch.FirstJob() == j && batch.Total() == |batch.Tasks(j)|
  {
    SingleJobTotal(batch, j);
  }

  lemma SingleReschedule(s: State, batch: WorkerJob, j: JobId)
    requires batch.jobs.Keys == {j}
    ensures Reschedule(s, batch) == RescheduleOne(s, j, batch.Tasks(j))
  {
    hide RescheduleOne;
    assert Ascending(batch.jobs.Keys) == [j];
    var s1 := RescheduleOne(s, j, batch.Tasks(j));
    calc {
      RescheduleFrom(s, batch, [j]);
      RescheduleFrom(s1, batch, [j][1..]);
      { assert [j][1..] == []; }
      s1;
    }
  }

  lemma FailSendSteps(s: State, ip: IP, batch: WorkerJob, j: JobId)
    requires Counts(s, ip, j) && batch.jobs.Keys == {j}
    ensures FailSend(s, ip, batch) ==
            DropFirstAt(RescheduleOne(Charge(s, ip, j, |batch.Tasks(j)|), j, batch.Tasks(j)), ip)
  {
    hide Reschedule, Charge, DropFirstAt;
    SingleKey(batch, j);
    SingleReschedule(Charge(s, ip, j, |batch.Tasks(j)|), batch, j);
  }

  // ---- losing another job ----

  lemma DroppedJobRow(s: State, ip: IP, x: JobId)
    requires ip in s.nodes && x in s.jobs && s.nodes[ip].worker.job.FirstJob() == x
    ensures var r := RowOf(s, {}, x);
            ip in r.held && RowOf(DropFirstAt(s, ip), {}, x) == r.(held := r.held - {ip})
  {
    hide ReschedOf, HeldOf;
    HolderAt(s.nodes, ip, x);
    HeldChanged(s.nodes, ip, DropFirstJob(s.nodes[ip]), x);
  }

  /** A job whose row was right loses the tasks that the worker held. */
  lemma LosesFirstJob(s: State, ip: IP, x: JobId)
    requires ip in s.nodes && x in s.jobs && s.nodes[ip].worker.job.FirstJob() == x
    requires s.nodes[ip].worker.job.Valid() && RowOk(RowOf(s, {}, x))
    ensures !Conserved(DropFirstAt(s, ip), map[])
  {
    hide RowOk, ReschedOf, HeldOf, Conserved, DropFirstAt;
    DropFirstJobs(s, ip);
    DroppedJobRow(s, ip, x);
    HolderAt(s.nodes, ip, x);
    ShrunkRow(RowOf(s, {}, x), ip);
    if Conserved(DropFirstAt(s, ip), map[]) {
      RowAt(DropFirstAt(s, ip), map[], x);
    }
  }

  lemma DropFirstJobs(s: State, ip: IP)
    ensures DropFirstAt(s, ip).jobs == s.jobs
  {
  }

  lemma DropNothing(s: State, ip: IP)
    requires ip in s.nodes ==> s.nodes[ip].worker.job.jobs.Keys == {}
    ensures DropFirstAt(s, ip) == s
  {
    if ip in s.nodes {
      SetNodeSelf(s, ip);
    }
  }

  // ---- at the failed-node limit ----

  lemma FailSendAtLimit(s: State, known: Registry, ip: IP, batch: WorkerJob, j: JobId)
    requires Base(s, known, {}) && Conserved(s, map[]) && Counts(s, ip, j) && HitsLimit(s, j)
    requires batch.jobs.Keys == {j}
    ensures Conserved(FailSend(s, ip, batch), map[]) <==> s.nodes[ip].worker.job.jobs.Keys <= {j}
  {
    hide Base, Conserved, HitsLimit, LimitReached, RescheduleOne, Purged, SameTables, Charge,
         DropFirstAt, FailSend, RowOk, RowOf, Solid, Reschedule;
    var n, ts := |batch.Tasks(j)|, batch.Tasks(j);
    FailSendSteps(s, ip, batch, j);
    ChargeFacts(s, ip, j, n);
    var s1 := RescheduleOne(Charge(s, ip, j, n), j, ts);
    RescheduleAtLimit(s, Charge(s, ip, j, n), j, ts);
    PurgedKeeps(s, map[], j, s1);
    NoLimbo(j);
    PurgedTable(s, j, s1, ip);
    if s.nodes[ip].worker.job.jobs.Keys <= {j} {
      DropNothing(s1, ip);
    } else {
      ChargeKeeps(s, known, ip, j, n);
      RescheduleOneKeeps(Charge(s, ip, j, n), known, {j}, j, ts);
      BaseIsSolid(s1, known, {j} - {j});
      SolidAt(s1, ip);
      var x := s1.nodes[ip].worker.job.FirstJob();
      FirstJobIsKey(s1.nodes[ip].worker.job);
      assert s1.nodes[ip].worker.job.jobs.Keys != {};
      HolderScheduled(s1, map[], ip);
      RowAt(s1, map[], x);
      LosesFirstJob(s1, ip, x);
    }
  }

  lemma SolidAt(s: State, ip: IP)
    requires Solid(s) && ip in s.nodes
    ensures s.nodes[ip].worker.job.Valid()
  {
  }

  // ---- below the limit, with the job first in the worker's table ----

  /** The failed host is recorded, its CPUs are released and job `j` is off its table. */
  ghost function JobOff(s: State, ip: IP, j: JobId, n: int): State
    requires ip in s.nodes
  {
    var m := s.nodes[ip];
    SetNode(AddFailed(s, j, ip), ip, Node(m.worker.(job := m.worker.job.DeleteJob(j)), m.busy - n))
  }

  lemma FailSendBelowLimit(s: State, ip: IP, batch: WorkerJob, j: JobId)
    requires Counts(s, ip, j) && !HitsLimit(s, j) && batch.jobs.Keys == {j}
    requires s.nodes[ip].worker.job.FirstJob() == j
    ensures FailSend(s, ip, batch) == RescheduleOne(JobOff(s, ip, j, |batch.Tasks(j)|), j, batch.Tasks(j))
  {
    hide HitsLimit, LimitReached, WorkerJob.DeleteJob, RescheduleOne, FailSend;
    var n := |batch.Tasks(j)|;
    FailSendSteps(s, ip, batch, j);
    ChargeFacts(s, ip, j, n);
    var c := Charge(s, ip, j, n);
    RescheduleBelowLimit(c, JobOff(s, ip, j, n).nodes, j, batch.Tasks(j));
    RescheduleBelowLimit(c, c.nodes, j, batch.Tasks(j));
    SetTwice(s.nodes, ip, c.nodes[ip], JobOff(s, ip, j, n).nodes[ip]);
  }

  lemma JobOffLimit(s: State, ip: IP, j: JobId, n: int)
    requires Counts(s, ip, j)
    ensures LimitReached(JobOff(s, ip, j, n), j) == HitsLimit(s, j)
  {
  }

  lemma JobOffRow(s: State, ip: IP, j: JobId, n: int, x: JobId)
    requires ip in s.nodes && j in s.nodes[ip].worker.job.jobs && j in s.jobs && x in s.jobs
    ensures x == j ==> var r := RowOf(s, {}, j);
                       && ip in r.held && r.held[ip] == s.nodes[ip].worker.job.Tasks(j)
                       && RowOf(JobOff(s, ip, j, n), r.held[ip], j) == Lifted(r, ip)
    ensures x != j ==> RowOf(JobOff(s, ip, j, n), {}, x) == RowOf(s, {}, x)
  {
    hide ReschedOf, HeldOf;
    HolderAt(s.nodes, ip, x);
    if x == j {
      HeldChanged(s.nodes, ip, JobOff(s, ip, j, n).nodes[ip], x);
    } else {
      HeldSame(s.nodes, ip, JobOff(s, ip, j, n).nodes[ip], x);
    }
  }

  lemma JobOffResidue(s: State, ip: IP, j: JobId, n: int)
    requires NoResidue(s) && ip in s.nodes
    ensures NoResidue(JobOff(s, ip, j, n))
  {
    hide ListOk;
    var w := s.nodes[ip].worker.job;
    assert w.DeleteJob(j).jobs.Keys <= w.jobs.Keys;
  }

  lemma JobOffSolid(s: State, ip: IP, j: JobId, n: int)
    requires Solid(s) && ip in s.nodes
    ensures Solid(JobOff(s, ip, j, n))
  {
    assert s.nodes[ip].worker.job.DeleteJob(j).Valid();
  }

  function Min(a: int, b: int): int {
    if a < b then a else b
  }

  /** The batch is all that the worker holds of its lowest-numbered job; for a job that is never
      rescheduled only the number matters, and no more executions can be taken off than are left. */
  predicate Returns(s: State, ip: IP, batch: WorkerJob, j: JobId)
    requires ip in s.nodes && j in s.jobs
  {
    var held := s.nodes[ip].worker.job;
    && held.FirstJob() == j
    && (if s.jobs[j].noReschedule then Min(|batch.Tasks(j)|, RunningIn(s.execs, j)) == |held.Tasks(j)|
        else batch.Tasks(j) == held.Tasks(j))
  }

  /** What makes the tables add up after a failed send: for a job that is rescheduled the batch may
      also name finished tasks in place of held ones. */
  ghost predicate Exchanges(s: State, ip: IP, batch: WorkerJob, j: JobId)
    requires ip in s.nodes && j in s.jobs
  {
    var held := s.nodes[ip].worker.job;
    && held.FirstJob() == j
    && (if s.jobs[j].noReschedule then Min(|batch.Tasks(j)|, RunningIn(s.execs, j)) == |held.Tasks(j)|
        else |batch.Tasks(j)| == |held.Tasks(j)| && batch.Tasks(j) - held.Tasks(j) <= Done(RowOf(s, {}, j)))
  }

  lemma NoRescheduleCounts(s: State, j: JobId, a: set<TaskId>, b: set<TaskId>)
    requires j in s.jobs && j in s.execs && !LimitReached(s, j) && s.jobs[j].noReschedule
    requires Min(|a|, s.execs[j]) == Min(|b|, s.execs[j])
    ensures RescheduleOne(s, j, a) == RescheduleOne(s, j, b)
  {
    hide DecrementExecution, RemoveJob, StopWorkers, LimitReached;
    var sa := s.(running := s.running[j := Running(s, j) - |a|]);
    var sb := s.(running := s.running[j := Running(s, j) - |b|]);
    DecrementCases(sa, j, |a|);
    DecrementCases(sb, j, |b|);
    RemoveIgnoresRunning(s, j, Running(s, j) - |a|);
    RemoveIgnoresRunning(s, j, Running(s, j) - |b|);
  }

  lemma RemoveIgnoresRunning(s: State, j: JobId, n: int)
    ensures RemoveJob(s.(running := s.running[j := n]), j) == RemoveJob(s, j)
  {
    hide Without, AsInt32;
    UpdatedThenRemoved(s.running, j, n);
  }

  lemma ExchangedSets(p: set<TaskId>, q: set<TaskId>, h: set<TaskId>, l: set<TaskId>, b: set<TaskId>, all: set<TaskId>)
    requires Apart(p, q, h + l, {}) && h !! l && p + q + (h + l) + {} <= all
    requires b - l <= all - (p + q + (h + l) + {})
    ensures Apart(p, q, h, b) && p + q + h + b <= all
  {
    assert forall t | t in b :: t in l || (t in b - l && t !in p + q + (h + l) + {});
    assert p + q + h + l <= all;
  }

  lemma ExchangedSizes(p: set<TaskId>, q: set<TaskId>, h: set<TaskId>, l: set<TaskId>, b: set<TaskId>)
    requires Apart(p, q, h, l) && Apart(p, q, h, b) && Size(b) == Size(l)
    ensures Size(p + q + h + b) == Size(p + q + h + l) && Size(h + b) == Size(h + l)
  {
    hide Size;
    SizeOfApart(p + q + h, l);
    SizeOfApart(p + q + h, b);
    SizeOfApart(h, l);
    SizeOfApart(h, b);
  }

  /** The tasks in limbo may be exchanged for as many finished ones: the row still adds up. */
  lemma ExchangedOk(r: Row, ip: IP, b: set<TaskId>)
    requires RowOk(r) && r.limbo == {} && ip in r.held
    requires Size(b) == Size(r.held[ip]) && b - r.held[ip] <= Done(r)
    ensures RowOk(Lifted(r, ip).(limbo := b))
  {
    hide AllHeld, HeldOnce, Below, Size, Apart;
    LiftedOk(r, ip);
    WithoutHolder(r.held, ip);
    var h, l := AllHeld(r.held - {ip}), r.held[ip];
    ExchangedSets(r.pending, r.resched, h, l, b, Below(r.planned));
    ExchangedSizes(r.pending, r.resched, h, l, b);
  }

  lemma ExchangedConserves(s: State, ip: IP, j: JobId, n: int, b: set<TaskId>)
    requires Conserved(s, map[]) && ip in s.nodes && j in s.jobs && j in s.nodes[ip].worker.job.jobs
    requires |b| == |s.nodes[ip].worker.job.Tasks(j)|
    requires b - s.nodes[ip].worker.job.Tasks(j) <= Done(RowOf(s, {}, j))
    ensures Conserved(JobOff(s, ip, j, n), OffLimbo(j, b))
  {
    hide RowOk, NoResidue, Done, HeldOf, ReschedOf, WorkerJob.DeleteJob, JobOff;
    JobOffJobs(s, ip, j, n);
    ConservedResidue(s);
    JobOffResidue(s, ip, j, n);
    forall x | x in s.jobs {
      JobOffRow(s, ip, j, n, x);
    }
    RowAt(s, map[], j);
    ExchangedOk(RowOf(s, {}, j), ip, b);
    OneRowKeeps(s, map[], j, JobOff(s, ip, j, n), OffLimbo(j, b));
  }

  ghost function OffLimbo(j: JobId, b: set<TaskId>): Limbo {
    map[j := b]
  }

  lemma ConservedResidue(s: State)
    requires Conserved(s, map[])
    ensures NoResidue(s)
  {
  }

  lemma NothingExchanged(r: Row, b: set<TaskId>)
    ensures b - b <= Done(r)
  {
  }

  /** A failed send whose batch makes up for what the worker loses conserves tasks. */
  lemma ExchangeConserves(s: State, known: Registry, ip: IP, batch: WorkerJob, j: JobId)
    requires Base(s, known, {}) && Conserved(s, map[]) && Counts(s, ip, j) && !HitsLimit(s, j)
    requires batch.jobs.Keys == {j} && Exchanges(s, ip, batch, j)
    ensures Conserved(FailSend(s, ip, batch), map[])
  {
    hide Base, Conserved, HitsLimit, LimitReached, RescheduleOne, FailSend, JobOff, Solid, Done, RowOf;
    var n, held := |batch.Tasks(j)|, s.nodes[ip].worker.job.Tasks(j);
    FailSendBelowLimit(s, ip, batch, j);
    FirstJobIsKey(s.nodes[ip].worker.job);
    BaseIsSolid(s, known, {});
    JobOffSolid(s, ip, j, n);
    JobOffLimit(s, ip, j, n);
    JobOffJobs(s, ip, j, n);
    var back := if s.jobs[j].noReschedule then held else batch.Tasks(j);
    if s.jobs[j].noReschedule {
      NothingExchanged(RowOf(s, {}, j), held);
      ExecsAt(s, map[], j);
      HeldWithinExecs(s, ip, j);
      NoRescheduleCounts(JobOff(s, ip, j, n), j, batch.Tasks(j), held);
    }
    ExchangedConserves(s, ip, j, n, back);
    RescheduleOneConserves(JobOff(s, ip, j, n), OffLimbo(j, back), j);
    assert OffLimbo(j, back) - {j} == map[];
  }

  lemma HeldWithinExecs(s: State, ip: IP, j: JobId)
    requires Conserved(s, map[]) && j in s.jobs && ip in s.nodes && j in s.nodes[ip].worker.job.jobs
    ensures |s.nodes[ip].worker.job.Tasks(j)| <= RunningIn(s.execs, j)
  {
    hide Conserved, HeldOf, ReschedOf, AllHeld, Size, Below;
    RowAt(s, map[], j);
    HolderAt(s.nodes, ip, j);
    HeldIsUnfinished(RowOf(s, {}, j), ip);
  }

  lemma HeldIsUnfinished(r: Row, ip: IP)
    requires ip in r.held
    ensures Size(r.held[ip]) <= Size(Unfinished(r)) && |r.held[ip]| == Size(r.held[ip])
  {
    assert r.held[ip] <= Unfinished(r);
    SubsetSize(r.held[ip], Unfinished(r));
  }

  lemma JobOffJobs(s: State, ip: IP, j: JobId, n: int)
    requires ip in s.nodes
    ensures var a := JobOff(s, ip, j, n);
            a.jobs == s.jobs && a.execs == s.execs && a.running == s.running
    ensures JobOff(s, ip, j, n).resched == s.resched && JobOff(s, ip, j, n).toSend == s.toSend
  {
  }

  // ---- and nothing less than the whole conserves ----

  lemma CountsAgree(r: Row, ip: IP, b: set<TaskId>, r1: Row)
    requires RowOk(r) && r.limbo == {} && ip in r.held
    requires RowOk(r1) && r1.limbo == {} && r1.held == r.held - {ip} && r1.running == r.running - Size(b)
    ensures Size(b) == Size(r.held[ip])
  {
    hide AllHeld, HeldOnce, Below, Size, Apart, Unfinished;
    WithoutHolder(r.held, ip);
    NothingAdded(AllHeld(r.held));
    NothingAdded(AllHeld(r1.held));
    SizeOfApart(AllHeld(r1.held), r.held[ip]);
  }

  lemma RelistedIsDone(r: Row, ip: IP, b: set<TaskId>, r1: Row)
    requires RowOk(r) && r.limbo == {} && ip in r.held && b !! r.resched
    requires RowOk(r1) && r1.limbo == {} && r1.held == r.held - {ip} && r1.running == r.running - Size(b)
    requires r1.pending == r.pending && r1.resched == r.resched + b && r1.planned == r.planned
    ensures Size(b) == Size(r.held[ip]) && b - r.held[ip] <= Done(r)
  {
    hide AllHeld, HeldOnce, Below, Size;
    CountsAgree(r, ip, b, r1);
    WithoutHolder(r.held, ip);
  }

  lemma AppendedApart(q: seq<WorkerTask>, j: JobId, ts: set<TaskId>)
    requires NoDuplicates(q + TaskList(j, Ascending(ts)))
    ensures ReschedOf(q, j) !! ts
  {
    var a := TaskList(j, Ascending(ts));
    forall t, u | t in ReschedOf(q, j) && u in ts ensures t != u {
      var i :| 0 <= i < |q| && q[i] == WorkerTask(j, t);
      var k :| 0 <= k < |Ascending(ts)| && Ascending(ts)[k] == u;
      assert a[k] == WorkerTask(j, u);
      assert (q + a)[i] == q[i] && (q + a)[|q| + k] == a[k];
    }
  }

  /** The row of a job that stays scheduled after a failed send with the job first in the table. */
  lemma SendStays(s: State, ip: IP, batch: WorkerJob, j: JobId)
    requires Conserved(s, map[]) && Counts(s, ip, j) && !HitsLimit(s, j) && IsBatch(batch, j)
    requires s.nodes[ip].worker.job.FirstJob() == j
    requires Conserved(FailSend(s, ip, batch), map[]) && j in FailSend(s, ip, batch).jobs
    ensures Exchanges(s, ip, batch, j)
  {
    hide Done, Conserved, HitsLimit, LimitReached, RescheduleOne, FailSend, JobOff, RowOk, HeldOf, ReschedOf, AllHeld;
    var b, n := batch.Tasks(j), |batch.Tasks(j)|;
    FailSendBelowLimit(s, ip, batch, j);
    FirstJobIsKey(s.nodes[ip].worker.job);
    var a, s1 := JobOff(s, ip, j, n), FailSend(s, ip, batch);
    JobOffLimit(s, ip, j, n);
    JobOffJobs(s, ip, j, n);
    JobOffRow(s, ip, j, n, j);
    BelowLimitFacts(a, j, b);
    RowAt(s, map[], j);
    RowAt(s1, map[], j);
    var r, r1 := RowOf(s, {}, j), RowOf(s1, {}, j);
    CountsAgree(r, ip, b, r1);
    if s.jobs[j].noReschedule {
      ExecsAt(s, map[], j);
      StaysOwed(a, j, b);
    } else {
      RelistFacts(a, j, b);
      ResidueAt(s1, map[]);
      ListAt(s1);
      AppendedApart(s.resched, j, b);
      ReschedOfAppended(s.resched, j, b, j);
      RelistedIsDone(r, ip, b, r1);
    }
  }

  lemma StaysOwed(s: State, j: JobId, ts: set<TaskId>)
    requires j in s.jobs && j in s.execs && !LimitReached(s, j) && s.jobs[j].noReschedule
    requires j in RescheduleOne(s, j, ts).jobs
    ensures |ts| < s.execs[j]
  {
    hide LimitReached, Without, AsInt32, StopWorkers;
  }

  lemma ListAt(s: State)
    requires NoResidue(s)
    ensures NoDuplicates(s.resched)
  {
  }

  lemma RelistFacts(s: State, j: JobId, ts: set<TaskId>)
    requires j in s.jobs && !LimitReached(s, j) && !s.jobs[j].noReschedule
    ensures RescheduleOne(s, j, ts).resched == s.resched + TaskList(j, Ascending(ts))
  {
    hide LimitReached, TaskList, Ascending;
  }

  lemma SendRemoves(s: State, ip: IP, batch: WorkerJob, j: JobId)
    requires Conserved(s, map[]) && Counts(s, ip, j) && !HitsLimit(s, j) && IsBatch(batch, j)
    requires s.nodes[ip].worker.job.FirstJob() == j
    requires Conserved(FailSend(s, ip, batch), map[]) && j !in FailSend(s, ip, batch).jobs
    ensures Exchanges(s, ip, batch, j)
  {
    hide Conserved, HitsLimit, LimitReached, RescheduleOne, FailSend, JobOff, HeldOf, ReschedOf, AllHeld, RowOk;
    var b, n := batch.Tasks(j), |batch.Tasks(j)|;
    FailSendBelowLimit(s, ip, batch, j);
    FirstJobIsKey(s.nodes[ip].worker.job);
    var a, s1 := JobOff(s, ip, j, n), FailSend(s, ip, batch);
    JobOffLimit(s, ip, j, n);
    JobOffJobs(s, ip, j, n);
    JobOffRow(s, ip, j, n, j);
    BelowLimitFacts(a, j, b);
    RowAt(s, map[], j);
    ResidueAt(s1, map[]);
    UnknownRow(s1, j);
    OnlyHolder(RowOf(s, {}, j), ip);
  }

  /** A row with nothing but the tasks of one worker. */
  lemma OnlyHolder(r: Row, ip: IP)
    requires RowOk(r) && r.limbo == {} && ip in r.held && r.held - {ip} == map[]
    requires r.pending == {} && r.resched == {}
    ensures r.execs == Size(r.held[ip])
  {
    WithoutHolder(r.held, ip);
    NoHolderNoTask();
    hide AllHeld, HeldOnce;
    assert Unfinished(r) == r.held[ip];
  }

  lemma DecrementOther(s: State, j: JobId, n: nat, x: JobId)
    requires x in s.jobs && x != j
    ensures var s1 := DecrementExecution(s, j, n);
            && x in s1.jobs && s1.jobs[x] == s.jobs[x]
            && RunningIn(s1.execs, x) == RunningIn(s.execs, x) && RunningIn(s1.running, x) == RunningIn(s.running, x)
            && s1.nodes == s.nodes && s1.toSend == s.toSend && s1.resched == s.resched
  {
    hide Without, AsInt32;
  }

  lemma OtherRow(s: State, j: JobId, ts: set<TaskId>, x: JobId)
    requires j in s.jobs && !LimitReached(s, j) && x in s.jobs && x != j
    ensures x in RescheduleOne(s, j, ts).jobs
    ensures RowOf(RescheduleOne(s, j, ts), {}, x) == RowOf(s, {}, x)
  {
    hide DecrementExecution, StopWorkers, TaskList, Ascending, LimitReached, ReschedOf, HeldOf;
    ReschedOfAppended(s.resched, j, ts, x);
    DecrementOther(s.(running := s.running[j := Running(s, j) - |ts|]), j, |ts|, x);
  }

  /** With another job first in the table, or none, the wrong tasks are taken off. */
  lemma WrongJobBreaks(s: State, known: Registry, ip: IP, batch: WorkerJob, j: JobId)
    requires Base(s, known, {}) && Conserved(s, map[]) && Counts(s, ip, j) && !HitsLimit(s, j)
    requires batch.jobs.Keys == {j} && batch.Tasks(j) != {} && s.nodes[ip].worker.job.FirstJob() != j
    ensures !Conserved(FailSend(s, ip, batch), map[])
  {
    hide Base, Conserved, HitsLimit, LimitReached, RescheduleOne, FailSend, Charge, DropFirstAt, RowOk, RowOf,
         SameTables, Solid;
    var b, n := batch.Tasks(j), |batch.Tasks(j)|;
    FailSendSteps(s, ip, batch, j);
    ChargeFacts(s, ip, j, n);
    var c := Charge(s, ip, j, n);
    var s1 := RescheduleOne(c, j, b);
    BelowLimitFacts(c, j, b);
    FirstJobIsKey(s.nodes[ip].worker.job);
    var x := s.nodes[ip].worker.job.FirstJob();
    ChargeTable(s, ip, j, n);
    if x < 0 {
      DropNothing(s1, ip);
      UnbackedReschedule(s, known, c, j, b);
    } else {
      HolderScheduled(s, map[], ip);
      RowAt(s, map[], x);
      SameRow(s, c, map[], x);
      OtherRow(c, j, b, x);
      BaseIsSolid(s, known, {});
      SolidAt(s, ip);
      LosesFirstJob(s1, ip, x);
    }
  }

  lemma ChargeTable(s: State, ip: IP, j: JobId, n: int)
    requires ip in s.nodes
    ensures ip in Charge(s, ip, j, n).nodes && Charge(s, ip, j, n).nodes[ip].worker == s.nodes[ip].worker
  {
  }

  /** After a failed send the tables add up if and only if it is ignored, or reaches the failed-node
      limit on a worker that holds no other job, or stays below the limit and the batch makes up for
      what the worker loses of its lowest-numbered job.  The batch may be late: its tasks may have
      been finished meanwhile. */
  lemma FailSendConservesIff(s: State, known: Registry, ip: IP, batch: WorkerJob, j: JobId)
    requires Base(s, known, {}) && Conserved(s, map[]) && IsBatch(batch, j)
    ensures Conserved(FailSend(s, ip, batch), map[]) <==>
            (Counts(s, ip, j) ==>
              if HitsLimit(s, j) then s.nodes[ip].worker.job.jobs.Keys <= {j} else Exchanges(s, ip, batch, j))
  {
    hide Base, Conserved, HitsLimit, FailSend, RowOf, Done;
    if !Counts(s, ip, j) {
      IgnoredSend(s, ip, batch, j);
    } else if HitsLimit(s, j) {
      FailSendAtLimit(s, known, ip, batch, j);
    } else if s.nodes[ip].worker.job.FirstJob() != j {
      WrongJobBreaks(s, known, ip, batch, j);
    } else if Exchanges(s, ip, batch, j) {
      ExchangeConserves(s, known, ip, batch, j);
    } else if Conserved(FailSend(s, ip, batch), map[]) {
      if j in FailSend(s, ip, batch).jobs {
        SendStays(s, ip, batch, j);
      } else {
        SendRemoves(s, ip, batch, j);
      }
    }
  }

  lemma IgnoredSend(s: State, ip: IP, batch: WorkerJob, j: JobId)
    requires batch.jobs.Keys == {j} && !Counts(s, ip, j)
    ensures FailSend(s, ip, batch) == s
  {
    SingleKey(batch, j);
  }
}
