/** Task conservation: for every scheduled job the tasks to send, to reschedule, held by the
    workers and finished partition the planned interval, and the counters agree
    (src/master/scheduler.cpp:152-573). */
module Conservation {
  import opened Ordering
  import opened WorkerJobs
  import opened SchedulerState
  import opened BatchSelection
  import opened BatchFacts
  import opened BatchTasks
  import opened SchedulerSteps
  import opened Safety
  import opened Rows

  ghost function HeldOf(nodes: map<IP, Node>, j: JobId): Holding {
    map ip | ip in nodes && j in nodes[ip].worker.job.jobs :: nodes[ip].worker.job.jobs[j]
  }

  /** The row of job `j`: what all the tables say about it. */
  ghost function RowOf(s: State, limbo: set<TaskId>, j: JobId): Row
    requires j in s.jobs
  {
    Row(PendingIn(s.toSend, j), ReschedOf(s.resched, j), HeldOf(s.nodes, j), limbo,
        RunningIn(s.execs, j), RunningIn(s.running, j), s.jobs[j].planned)
  }

  type Limbo = map<JobId, set<TaskId>>

  ghost predicate ListOk(q: seq<WorkerTask>, jobs: Registry) {
    NoDuplicates(q) && forall k | k in q :: k.job in jobs
  }

  ghost predicate HoldersOk(nodes: map<IP, Node>, jobs: Registry) {
    forall ip | ip in nodes :: nodes[ip].worker.job.jobs.Keys <= jobs.Keys
  }

  /** Nothing is filed, listed or held for a job that is not scheduled. */
  ghost predicate NoResidue(s: State) {
    && ListOk(s.resched, s.jobs)
    && HoldersOk(s.nodes, s.jobs)
    && s.toSend.Keys <= s.jobs.Keys && s.running.Keys <= s.jobs.Keys
    && s.execs.Keys == s.jobs.Keys
  }

  ghost predicate RowsOk(s: State, limbo: Limbo) {
    forall j | j in s.jobs :: RowOk(RowOf(s, PendingIn(limbo, j), j))
  }

  /** The conservation law, up to the tasks in limbo. */
  ghost predicate Conserved(s: State, limbo: Limbo) {
    NoResidue(s) && limbo.Keys <= s.jobs.Keys && RowsOk(s, limbo)
  }

  lemma RowAt(s: State, limbo: Limbo, j: JobId)
    requires Conserved(s, limbo) && (j in s.jobs || j in limbo)
    ensures j in s.jobs && RowOk(RowOf(s, PendingIn(limbo, j), j))
  {
    hide RowOk, RowOf, NoResidue;
  }

  // ---- dropping a job from every table ----

  lemma ReschedOfWithoutJob(q: seq<WorkerTask>, j: JobId, x: JobId)
    requires x != j
    ensures ReschedOf(WithoutJob(q, j), x) == ReschedOf(q, x)
  {
  }

  lemma {:induction false} WithoutJobKeepsOrder(q: seq<WorkerTask>, j: JobId)
    requires NoDuplicates(q)
    ensures NoDuplicates(WithoutJob(q, j))
  {
    if q != [] {
      assert NoDuplicates(q[1..]);
      WithoutJobKeepsOrder(q[1..], j);
      var r := WithoutJob(q[1..], j);
      forall i | 0 <= i < |r| ensures r[i] != q[0] {
        assert r[i] in q[1..];
      }
    }
  }

  /** `nodes1` holds what `nodes` holds, except that every task of job `j` is gone. */
  ghost predicate TablesWithout(nodes: map<IP, Node>, j: JobId, nodes1: map<IP, Node>) {
    && nodes1.Keys == nodes.Keys
    && forall ip | ip in nodes :: nodes1[ip].worker.job.jobs == nodes[ip].worker.job.jobs - {j}
  }

  lemma HeldWithout(nodes: map<IP, Node>, j: JobId, nodes1: map<IP, Node>, x: JobId)
    requires TablesWithout(nodes, j, nodes1) && x != j
    ensures HeldOf(nodes1, x) == HeldOf(nodes, x)
  {
  }

  lemma StopTables(nodes: map<IP, Node>, j: JobId)
    ensures TablesWithout(nodes, j, map ip | ip in nodes :: DropFromNode(nodes[ip], j))
  {
    forall ip | ip in nodes
      ensures DropFromNode(nodes[ip], j).worker.job.jobs == nodes[ip].worker.job.jobs - {j}
    {
    }
  }

  /** `s1` is `s` without any trace of job `j` in the tables that conservation speaks about. */
  ghost predicate Purged(s: State, j: JobId, s1: State) {
    && TablesWithout(s.nodes, j, s1.nodes)
    && s1.toSend == s.toSend - {j}
    && s1.resched == WithoutJob(s.resched, j)
    && s1.jobs == s.jobs - {j} && s1.execs == s.execs - {j} && s1.running == s.running - {j}
  }

  lemma PurgedRow(s: State, limbo: Limbo, j: JobId, s1: State, x: JobId)
    requires Purged(s, j, s1) && x in s.jobs && x != j
    ensures RowOf(s1, PendingIn(limbo - {j}, x), x) == RowOf(s, PendingIn(limbo, x), x)
  {
    hide ReschedOf, HeldOf, TablesWithout;
    HeldWithout(s.nodes, j, s1.nodes, x);
    ReschedOfWithoutJob(s.resched, j, x);
  }

  lemma PurgedResidue(s: State, j: JobId, s1: State)
    requires NoResidue(s) && Purged(s, j, s1)
    ensures NoResidue(s1)
  {
    WithoutJobKeepsOrder(s.resched, j);
    hide WithoutJob, NoDuplicates;
  }

  lemma PurgedKeeps(s: State, limbo: Limbo, j: JobId, s1: State)
    requires Conserved(s, limbo) && Purged(s, j, s1)
    ensures Conserved(s1, limbo - {j})
  {
    hide NoResidue, RowOk, RowOf, PendingIn, WithoutJob, TablesWithout;
    PurgedResidue(s, j, s1);
    forall x | x in s1.jobs ensures RowOk(RowOf(s1, PendingIn(limbo - {j}, x), x)) {
      PurgedRow(s, limbo, j, s1, x);
    }
  }

  lemma RemovedIsPurged(s: State, j: JobId, v: int)
    ensures Purged(s, j, RemoveJob(StopWorkers(s.(running := s.running[j := v]), j), j))
    ensures Purged(s, j, RemoveJob(StopWorkers(s, j), j))
  {
    StopTables(s.nodes, j);
    UpdatedThenRemoved(s.running, j, v);
  }

  // ---- changing one row ----

  /** Only job `j` is touched: every other row, and the residue of other jobs, stays. */
  lemma OneRowKeeps(s: State, limbo: Limbo, j: JobId, s1: State, limbo1: Limbo)
    requires Conserved(s, limbo) && j in s.jobs && NoResidue(s1)
    requires s1.jobs == s.jobs && limbo1.Keys <= s1.jobs.Keys
    requires forall x | x in s.jobs && x != j ::
               RowOf(s1, PendingIn(limbo1, x), x) == RowOf(s, PendingIn(limbo, x), x)
    requires RowOk(RowOf(s1, PendingIn(limbo1, j), j))
    ensures Conserved(s1, limbo1)
  {
    hide RowOk, RowOf, NoResidue;
  }

  // ---- rescheduling one job ----

  /** The tables hold no empty task sets. */
  ghost predicate Solid(s: State) {
    && (forall ip | ip in s.nodes :: s.nodes[ip].worker.job.Valid())
    && (forall j | j in s.toSend :: s.toSend[j] != {})
  }

  lemma BaseIsSolid(s: State, known: Registry, pending: set<JobId>)
    requires Base(s, known, pending)
    ensures Solid(s)
  {
  }

  lemma {:induction false} WithoutAbsentJob(q: seq<WorkerTask>, j: JobId)
    requires ReschedOf(q, j) == {}
    ensures WithoutJob(q, j) == q
  {
    if q != [] {
      assert forall k | k in q[1..] && k.job == j :: k in q && k.task in ReschedOf(q, j);
      assert ReschedOf(q[1..], j) == {};
      WithoutAbsentJob(q[1..], j);
      assert q[0] in q && (q[0].job == j ==> q[0].task in ReschedOf(q, j));
    }
  }

  lemma NobodyHolds(nodes: map<IP, Node>, j: JobId)
    requires AllHeld(HeldOf(nodes, j)) == {}
    requires forall ip | ip in nodes :: nodes[ip].worker.job.Valid()
    ensures forall ip | ip in nodes :: j !in nodes[ip].worker.job.jobs
    ensures TablesWithout(nodes, j, nodes)
  {
    forall ip | ip in nodes ensures j !in nodes[ip].worker.job.jobs {
      if j in nodes[ip].worker.job.jobs {
        HolderSeen(HeldOf(nodes, j), ip);
      }
    }
  }

  lemma HolderSeen(h: Holding, ip: IP)
    requires ip in h && h[ip] != {}
    ensures AllHeld(h) != {}
  {
    var t :| t in h[ip];
    assert t in AllHeld(h);
  }

  /** Removing a job with no unfinished task leaves nothing behind. */
  lemma NothingLeft(s: State, j: JobId, s1: State)
    requires Solid(s) && j in s.jobs
    requires Unfinished(RowOf(s, {}, j)) == {}
    requires s1.nodes == s.nodes && s1.toSend == s.toSend && s1.resched == s.resched
    requires s1.jobs == s.jobs - {j} && s1.execs == s.execs - {j} && s1.running == s.running - {j}
    ensures Purged(s, j, s1)
  {
    var r := RowOf(s, {}, j);
    assert r.pending <= Unfinished(r) && r.resched <= Unfinished(r) && AllHeld(r.held) <= Unfinished(r);
    hide AllHeld, HeldOf, ReschedOf;
    NobodyHolds(s.nodes, j);
    WithoutAbsentJob(s.resched, j);
    assert j !in s.toSend;
    assert s.toSend - {j} == s.toSend;
  }

  lemma ReschedOfAppended(q: seq<WorkerTask>, j: JobId, ts: set<TaskId>, x: JobId)
    ensures ReschedOf(q + TaskList(j, Ascending(ts)), x) ==
            ReschedOf(q, x) + if x == j then ts else {}
  {
    hide TaskList, Ascending;
    ListContents(j, ts);
    var a := TaskList(j, Ascending(ts));
    assert forall k :: k in q + a <==> k in q || k in a;
    if x == j {
      forall t | t in ts ensures t in ReschedOf(q + a, x) {
        assert WorkerTask(j, t) in a;
      }
    }
  }

  lemma ListContents(j: JobId, ts: set<TaskId>)
    ensures forall k :: k in TaskList(j, Ascending(ts)) <==> k.job == j && k.task in ts
  {
    var q := Ascending(ts);
    var a := TaskList(j, q);
    forall k: WorkerTask | k.job == j && k.task in ts ensures k in a {
      var i :| 0 <= i < |q| && q[i] == k.task;
      assert a[i] == k;
    }
  }

  lemma AppendedNoDuplicates(q: seq<WorkerTask>, j: JobId, ts: set<TaskId>)
    requires NoDuplicates(q) && ReschedOf(q, j) !! ts
    ensures NoDuplicates(q + TaskList(j, Ascending(ts)))
  {
    var a := TaskList(j, Ascending(ts));
    forall i, k | 0 <= i < |q| && 0 <= k < |a| ensures q[i] != a[k] {
      assert a[k].task in ts && a[k].job == j;
      assert q[i] in q && (q[i].job == j ==> q[i].task in ReschedOf(q, j));
    }
  }

  lemma RelistedRow(s: State, limbo: Limbo, j: JobId, x: JobId)
    requires x in s.jobs && j in limbo
    ensures var s1 := s.(running := s.running[j := Running(s, j) - |limbo[j]|],
                         resched := s.resched + TaskList(j, Ascending(limbo[j])));
            && (x == j ==> RowOf(s1, PendingIn(limbo - {j}, j), j) == Relisted(RowOf(s, limbo[j], j)))
            && (x != j ==> RowOf(s1, PendingIn(limbo - {j}, x), x) == RowOf(s, PendingIn(limbo, x), x))
  {
    hide ReschedOf, HeldOf, TaskList, Ascending;
    ReschedOfAppended(s.resched, j, limbo[j], x);
  }

  lemma RelistResidue(s: State, limbo: Limbo, j: JobId)
    requires Conserved(s, limbo) && j in limbo
    ensures NoResidue(s.(running := s.running[j := Running(s, j) - |limbo[j]|],
                         resched := s.resched + TaskList(j, Ascending(limbo[j]))))
  {
    hide RowsOk, HoldersOk, Ascending, AllHeld, HeldOf, ReschedOf, Size, Below;
    RowAt(s, limbo, j);
    AppendedNoDuplicates(s.resched, j, limbo[j]);
  }

  lemma RelistKeeps(s: State, limbo: Limbo, j: JobId)
    requires Conserved(s, limbo) && j in limbo
    ensures Conserved(s.(running := s.running[j := Running(s, j) - |limbo[j]|],
                         resched := s.resched + TaskList(j, Ascending(limbo[j]))), limbo - {j})
  {
    hide RowOk, RowOf, NoResidue, TaskList, Ascending, Relisted;
    RowAt(s, limbo, j);
    RelistResidue(s, limbo, j);
    RelistedOk(RowOf(s, limbo[j], j));
    forall x | x in s.jobs {
      RelistedRow(s, limbo, j, x);
    }
    OneRowKeeps(s, limbo, j, s.(running := s.running[j := Running(s, j) - |limbo[j]|],
                                resched := s.resched + TaskList(j, Ascending(limbo[j]))), limbo - {j});
  }

  /** The row of `j` after `n` executions are taken off the counters. */
  lemma DroppedRow(s: State, limbo: Limbo, j: JobId, x: JobId)
    requires x in s.jobs && j in limbo && j in s.execs
    ensures var s1 := s.(running := s.running[j := Running(s, j) - |limbo[j]|],
                         execs := s.execs[j := s.execs[j] - |limbo[j]|]);
            && (x == j ==> RowOf(s1, PendingIn(limbo - {j}, j), j) == Dropped(RowOf(s, limbo[j], j)))
            && (x != j ==> RowOf(s1, PendingIn(limbo - {j}, x), x) == RowOf(s, PendingIn(limbo, x), x))
  {
    hide ReschedOf, HeldOf;
  }

  lemma ExecsAt(s: State, limbo: Limbo, j: JobId)
    requires Conserved(s, limbo)
    ensures j in s.execs <==> j in s.jobs
  {
    hide RowsOk, ListOk, HoldersOk;
  }

  /** Without the tasks in limbo, a job that runs out of executions has no unfinished task. */
  lemma DroppedOut(s: State, limbo: Limbo, j: JobId)
    requires Conserved(s, limbo) && j in limbo && j in s.jobs && j in s.execs
    requires s.execs[j] - |limbo[j]| < 1
    ensures Unfinished(RowOf(s, {}, j)) == {}
  {
    hide Conserved, RowOk, AllHeld, HeldOf, ReschedOf;
    RowAt(s, limbo, j);
    var r := RowOf(s, limbo[j], j);
    DroppedOk(r);
    EmptyRow(Dropped(r));
  }

  lemma DropKeeps(s: State, limbo: Limbo, j: JobId)
    requires Conserved(s, limbo) && j in limbo && Solid(s)
    ensures Conserved(DecrementExecution(s.(running := s.running[j := Running(s, j) - |limbo[j]|]), j, |limbo[j]|),
                      limbo - {j})
  {
    hide Conserved, RowOk, RowOf, DecrementExecution, Solid;
    var s0 := s.(running := s.running[j := Running(s, j) - |limbo[j]|]);
    RowAt(s, limbo, j);
    ExecsAt(s, limbo, j);
    DecrementCases(s0, j, |limbo[j]|);
    if s.execs[j] - |limbo[j]| < 1 {
      DroppedOut(s, limbo, j);
      UpdatedThenRemoved(s.running, j, Running(s, j) - |limbo[j]|);
      NothingLeft(s, j, RemoveJob(s0, j));
      PurgedKeeps(s, limbo, j, RemoveJob(s0, j));
    } else {
      DropStays(s, limbo, j);
    }
  }

  lemma CountersResidue(s: State, j: JobId, running: int, execs: int)
    requires NoResidue(s) && j in s.jobs
    ensures NoResidue(s.(running := s.running[j := running], execs := s.execs[j := execs]))
  {
    hide ListOk, HoldersOk;
  }

  lemma DropStays(s: State, limbo: Limbo, j: JobId)
    requires Conserved(s, limbo) && j in limbo && j in s.execs
    ensures Conserved(s.(running := s.running[j := Running(s, j) - |limbo[j]|],
                         execs := s.execs[j := s.execs[j] - |limbo[j]|]), limbo - {j})
  {
    hide RowOk, RowOf, NoResidue, Dropped, RowsOk;
    RowAt(s, limbo, j);
    CountersResidue(s, j, Running(s, j) - |limbo[j]|, s.execs[j] - |limbo[j]|);
    DroppedOk(RowOf(s, limbo[j], j));
    DroppedRow(s, limbo, j, j);
    forall x | x in s.jobs && x != j {
      DroppedRow(s, limbo, j, x);
    }
    OneRowKeeps(s, limbo, j, s.(running := s.running[j := Running(s, j) - |limbo[j]|],
                                execs := s.execs[j := s.execs[j] - |limbo[j]|]), limbo - {j});
  }

  lemma EmptyRow(r: Row)
    requires RowOk(r) && r.execs < 1
    ensures Unfinished(r) == {}
  {
  }

  lemma RescheduleOneConserves(s: State, limbo: Limbo, j: JobId)
    requires Conserved(s, limbo) && j in limbo && Solid(s)
    ensures Conserved(RescheduleOne(s, j, limbo[j]), limbo - {j})
  {
    hide Conserved, Solid, StopWorkers, RemoveJob, DecrementExecution, LimitReached, Purged, TaskList, Ascending;
    LimboScheduled(s, limbo, j);
    if LimitReached(s, j) {
      RemovedIsPurged(s, j, Running(s, j) - |limbo[j]|);
      PurgedKeeps(s, limbo, j, RescheduleOne(s, j, limbo[j]));
    } else if s.jobs[j].noReschedule {
      DropKeeps(s, limbo, j);
    } else {
      RelistKeeps(s, limbo, j);
    }
  }

  lemma LimboScheduled(s: State, limbo: Limbo, j: JobId)
    requires Conserved(s, limbo) && j in limbo
    ensures j in s.jobs
  {
  }

  // ---- rescheduling all that a worker held ----

  lemma {:induction false} RescheduleFromConserves(
      s: State, known: Registry, pending: set<JobId>, w: WorkerJob, ids: seq<JobId>, limbo: Limbo)
    requires Base(s, known, pending) && Conserved(s, limbo)
    requires limbo.Keys == SetOf(ids) && NoDuplicates(ids)
    requires forall j | j in limbo :: limbo[j] == w.Tasks(j)
    ensures Conserved(RescheduleFrom(s, w, ids), map[])
    decreases |ids|
  {
    hide Base, Conserved, RescheduleOne;
    if ids == [] {
      assert limbo == map[];
    } else {
      var j := ids[0];
      assert j in limbo;
      BaseIsSolid(s, known, pending);
      RescheduleOneConserves(s, limbo, j);
      RescheduleOneKeeps(s, known, pending, j, limbo[j]);
      TailKeys(ids, limbo);
      RescheduleFromConserves(RescheduleOne(s, j, limbo[j]), known, pending - {j}, w, ids[1..], limbo - {j});
    }
  }

  lemma TailKeys(ids: seq<JobId>, limbo: Limbo)
    requires ids != [] && NoDuplicates(ids) && limbo.Keys == SetOf(ids)
    ensures (limbo - {ids[0]}).Keys == SetOf(ids[1..])
    ensures NoDuplicates(ids[1..])
  {
    assert ids == [ids[0]] + ids[1..];
    forall x ensures x in limbo && x != ids[0] <==> x in ids[1..] {
      assert x in limbo <==> x in SetOf(ids);
    }
  }

  lemma RescheduleConserves(s: State, known: Registry, pending: set<JobId>, w: WorkerJob)
    requires Base(s, known, pending) && Conserved(s, w.jobs)
    ensures Conserved(Reschedule(s, w), map[])
  {
    hide Base, Conserved;
    AscendingHasNoDuplicates(w.jobs.Keys);
    assert SetOf(Ascending(w.jobs.Keys)) == w.jobs.Keys;
    RescheduleFromConserves(s, known, pending, w, Ascending(w.jobs.Keys), w.jobs);
  }

  /** Conservation speaks only about these fields. */
  ghost predicate SameTasks(s: State, s1: State) {
    && s1.jobs == s.jobs && s1.execs == s.execs && s1.running == s.running
    && s1.toSend == s.toSend && s1.resched == s.resched
  }

  /** `nodes1` differs from `nodes` in that `ip` holds nothing any more. */
  ghost predicate Vacated(nodes: map<IP, Node>, ip: IP, nodes1: map<IP, Node>) {
    && (forall x | x in nodes1 && x != ip :: x in nodes)
    && (forall x | x in nodes && x != ip :: x in nodes1 && nodes1[x].worker.job == nodes[x].worker.job)
    && (ip in nodes1 ==> nodes1[ip].worker.job.jobs == map[])
  }

  lemma HeldVacated(nodes: map<IP, Node>, ip: IP, nodes1: map<IP, Node>, j: JobId)
    requires Vacated(nodes, ip, nodes1) && ip in nodes
    ensures HeldOf(nodes1, j) == HeldOf(nodes, j) - {ip}
    ensures ip in HeldOf(nodes, j) <==> j in nodes[ip].worker.job.jobs
    ensures ip in HeldOf(nodes, j) ==> HeldOf(nodes, j)[ip] == nodes[ip].worker.job.jobs[j]
  {
    var h, h1 := HeldOf(nodes, j), HeldOf(nodes1, j);
    forall x ensures x in h1 <==> x in h - {ip} {
    }
    assert h1.Keys == (h - {ip}).Keys;
  }

  lemma VacatedRow(s: State, ip: IP, s1: State, j: JobId)
    requires SameTasks(s, s1) && Vacated(s.nodes, ip, s1.nodes) && ip in s.nodes && j in s.jobs
    ensures RowOf(s1, PendingIn(s.nodes[ip].worker.job.jobs, j), j) == Lifted(RowOf(s, {}, j), ip)
  {
    hide ReschedOf, Vacated, HeldOf;
    HeldVacated(s.nodes, ip, s1.nodes, j);
  }

  lemma VacatedResidue(s: State, ip: IP, s1: State)
    requires NoResidue(s) && SameTasks(s, s1) && Vacated(s.nodes, ip, s1.nodes)
    ensures NoResidue(s1)
  {
    hide ListOk;
  }

  lemma HolderScheduled(s: State, limbo: Limbo, ip: IP)
    requires Conserved(s, limbo) && ip in s.nodes
    ensures s.nodes[ip].worker.job.jobs.Keys <= s.jobs.Keys
  {
    hide RowsOk, ListOk;
  }

  lemma VacatedKeeps(s: State, ip: IP, s1: State)
    requires Conserved(s, map[]) && SameTasks(s, s1) && Vacated(s.nodes, ip, s1.nodes) && ip in s.nodes
    ensures Conserved(s1, s.nodes[ip].worker.job.jobs)
  {
    hide RowOk, RowOf, Lifted, NoResidue;
    VacatedResidue(s, ip, s1);
    HolderScheduled(s, map[], ip);
    forall j | j in s1.jobs ensures RowOk(RowOf(s1, PendingIn(s.nodes[ip].worker.job.jobs, j), j)) {
      RowAt(s, map[], j);
      LiftedFromRow(s, j, ip);
      VacatedRow(s, ip, s1, j);
    }
  }

  lemma LiftedFromRow(s: State, j: JobId, ip: IP)
    requires j in s.jobs && RowOk(RowOf(s, {}, j))
    ensures RowOk(Lifted(RowOf(s, {}, j), ip))
  {
    hide RowOk, Lifted;
    LiftedOk(RowOf(s, {}, j), ip);
  }

  lemma ChangeWorkerStateConserves(s: State, known: Registry, ip: IP)
    requires Base(s, known, {}) && Conserved(s, map[])
    ensures Conserved(ChangeWorkerState(s, ip), map[])
  {
    hide Base, Conserved, Reschedule, WorkerOk, AddFailedAll;
    if !(ip !in s.nodes || s.nodes[ip].worker.state != NotAvailable || s.nodes[ip].busy < 1) {
      var n := s.nodes[ip];
      WorkerAt(s, known, ip);
      WorkerJobKnown(n.worker, known);
      AddFailedAllKeeps(s, known, n.worker.job, ip);
      var s0 := AddFailedAll(s, n.worker.job, ip);
      EmptyWorkerOk(n.worker, known);
      SetNodeKeeps(s0, known, n.worker.job.jobs.Keys, ip, Node(n.worker.(job := Empty), 0));
      AddFailedAllTasks(s, n.worker.job, ip);
      VacatedKeeps(s, ip, SetNode(s0, ip, Node(n.worker.(job := Empty), 0)));
      RescheduleConserves(SetNode(s0, ip, Node(n.worker.(job := Empty), 0)), known,
                          n.worker.job.jobs.Keys, n.worker.job);
    }
  }

  lemma AddFailedAllTasks(s: State, w: WorkerJob, ip: IP)
    ensures SameTasks(s, AddFailedAll(s, w, ip)) && AddFailedAll(s, w, ip).nodes == s.nodes
  {
  }

  lemma EmptyWorkerOk(w: Worker, known: Registry)
    ensures WorkerOk(w.(job := Empty), known)
  {
  }

  lemma DeleteNodeConserves(s: State, known: Registry, ip: IP)
    requires Base(s, known, {}) && Conserved(s, map[])
    ensures Conserved(DeleteNode(s, ip), map[])
  {
    hide Conserved, Reschedule, WorkerOk, AddFailedAll;
    if ip in s.nodes {
      var w := s.nodes[ip].worker.job;
      WorkerAt(s, known, ip);
      WorkerJobKnown(s.nodes[ip].worker, known);
      AddFailedAllKeeps(s, known, w, ip);
      AddFailedAllTasks(s, w, ip);
      var s1 := AddFailedAll(s, w, ip).(nodes := s.nodes - {ip});
      VacatedKeeps(s, ip, s1);
      hide JobsOk, QueueOk, Safety.SentOk, FailedLimit;
      assert Base(s1, known, w.jobs.Keys);
      RescheduleConserves(s1, known, w.jobs.Keys, w);
    }
  }

  // ---- assigning a batch ----

  lemma WaitingOnceHolds(s: State)
    requires Conserved(s, map[])
    ensures WaitingOnce(s)
  {
    forall x ensures PendingIn(s.toSend, x) !! ReschedOf(s.resched, x) {
      if x in s.jobs {
        RowWaits(s, x);
      }
    }
    hide RowsOk, HoldersOk;
  }

  lemma RowWaits(s: State, j: JobId)
    requires Conserved(s, map[]) && j in s.jobs
    ensures PendingIn(s.toSend, j) !! ReschedOf(s.resched, j)
  {
    hide Conserved, ReschedOf, HeldOf, AllHeld, Size, Below;
    RowAt(s, map[], j);
  }

  /** Replacing one node changes what is held at that address only. */
  lemma HeldChanged(nodes: map<IP, Node>, ip: IP, n: Node, x: JobId)
    ensures HeldOf(nodes[ip := n], x) ==
            if x in n.worker.job.jobs then HeldOf(nodes, x)[ip := n.worker.job.jobs[x]] else HeldOf(nodes, x) - {ip}
  {
    var h, h1 := HeldOf(nodes, x), HeldOf(nodes[ip := n], x);
    assert h1.Keys == if x in n.worker.job.jobs then h.Keys + {ip} else h.Keys - {ip};
  }

  lemma HeldSame(nodes: map<IP, Node>, ip: IP, n: Node, x: JobId)
    requires ip in nodes
    requires x in n.worker.job.jobs <==> x in nodes[ip].worker.job.jobs
    requires x in n.worker.job.jobs ==> n.worker.job.jobs[x] == nodes[ip].worker.job.jobs[x]
    ensures HeldOf(nodes[ip := n], x) == HeldOf(nodes, x)
  {
    HeldChanged(nodes, ip, n, x);
    assert HeldOf(nodes[ip := n], x).Keys == HeldOf(nodes, x).Keys;
  }

  lemma HolderAt(nodes: map<IP, Node>, ip: IP, x: JobId)
    requires ip in nodes
    ensures ip in HeldOf(nodes, x) <==> x in nodes[ip].worker.job.jobs
    ensures ip in HeldOf(nodes, x) ==> HeldOf(nodes, x)[ip] == nodes[ip].worker.job.jobs[x]
  {
  }

  lemma HeldMerged(nodes: map<IP, Node>, ip: IP, n: Node, b: WorkerJob, j: JobId, x: JobId)
    requires ip in nodes && b.jobs.Keys == {j} && n.worker.job == nodes[ip].worker.job.Merge(b)
    ensures x != j ==> HeldOf(nodes[ip := n], x) == HeldOf(nodes, x)
    ensures x == j ==> var h := HeldOf(nodes, j);
                       HeldOf(nodes[ip := n], x) == h[ip := (if ip in h then h[ip] else {}) + b.Tasks(j)]
  {
    hide HeldOf;
    if x == j {
      HeldChanged(nodes, ip, n, x);
      HolderAt(nodes, ip, x);
    } else {
      assert b.Tasks(x) == {};
      HeldSame(nodes, ip, n, x);
    }
  }

  lemma TakesAt(s: State, b: WorkerJob, s1: State, x: JobId)
    requires Takes(s, b, s1)
    ensures ReschedOf(s1.resched, x) == ReschedOf(s.resched, x) - b.Tasks(x)
    ensures PendingIn(s1.toSend, x) == PendingIn(s.toSend, x) - b.Tasks(x)
    ensures b.Tasks(x) <= PendingIn(s.toSend, x) + ReschedOf(s.resched, x)
  {
    hide ReschedOf;
  }

  lemma AssignedRow(s: State, s1: State, ip: IP, b: WorkerJob, j: JobId, x: JobId)
    requires ip in s.nodes && OnlyQueues(s, s1) && Takes(s, b, s1) && b.jobs.Keys == {j} && x in s.jobs
    ensures x == j ==> RowOf(Assign(s1, ip, b), {}, j) == Sent(RowOf(s, {}, j), ip, b.Tasks(j))
    ensures x != j ==> RowOf(Assign(s1, ip, b), {}, x) == RowOf(s, {}, x)
  {
    hide ReschedOf, HeldOf, Takes, PendingIn, WorkerJob.Total, WorkerJob.Merge;
    SingleJobTotal(b, j);
    HeldMerged(s.nodes, ip, Assign(s1, ip, b).nodes[ip], b, j, x);
    TakesAt(s, b, s1, x);
    assert Least(b.jobs.Keys) == j;
    if x != j {
      assert b.Tasks(x) == {};
    }
  }

  lemma AssignedResidue(s: State, s1: State, ip: IP, b: WorkerJob, j: JobId)
    requires NoResidue(s) && ip in s.nodes && OnlyQueues(s, s1) && Takes(s, b, s1)
    requires b.jobs.Keys == {j} && j in s.jobs
    ensures NoResidue(Assign(s1, ip, b))
  {
    hide NoDuplicates, Takes;
    TakesList(s, b, s1);
    var w := s.nodes[ip].worker.job;
    assert w.Merge(b).jobs.Keys == w.jobs.Keys + {j};
  }

  lemma TakesList(s: State, b: WorkerJob, s1: State)
    requires Takes(s, b, s1)
    ensures NoDuplicates(s1.resched) && (forall k | k in s1.resched :: k in s.resched)
    ensures s1.toSend.Keys <= s.toSend.Keys
  {
    hide ReschedOf;
  }

  lemma AssignConserves(s: State, s1: State, ip: IP, b: WorkerJob, j: JobId)
    requires Conserved(s, map[]) && ip in s.nodes && OnlyQueues(s, s1) && Takes(s, b, s1)
    requires b.jobs.Keys == {j} && j in s.jobs
    ensures Conserved(Assign(s1, ip, b), map[])
  {
    hide RowOk, RowOf, NoResidue, Takes, Sent;
    AssignedResidue(s, s1, ip, b, j);
    forall x | x in s.jobs {
      AssignedRow(s, s1, ip, b, j, x);
    }
    SentRow(s, s1, ip, b, j);
    OneRowKeeps(s, map[], j, Assign(s1, ip, b), map[]);
  }

  lemma SentRow(s: State, s1: State, ip: IP, b: WorkerJob, j: JobId)
    requires Conserved(s, map[]) && j in s.jobs && Takes(s, b, s1)
    ensures RowOk(Sent(RowOf(s, {}, j), ip, b.Tasks(j)))
  {
    hide Conserved, RowOk, ReschedOf, HeldOf, Sent, Takes;
    RowAt(s, map[], j);
    TakesAt(s, b, s1, j);
    Rows.SentOk(RowOf(s, {}, j), ip, b.Tasks(j));
  }

  lemma RequestConserves(s: State, order: seq<IP>)
    requires Conserved(s, map[])
    ensures Conserved(Request(s, order).1, map[])
  {
    RequestCases(s, order);
    hide Plan, Request, Conserved, Takes, WaitingOnce;
    match Request(s, order).0
    case NoTask =>
    case Batch(ip, b) =>
      var free := s.nodes[ip].FreeCPU();
      WaitingOnceHolds(s);
      PlanTakes(s, ip, free);
      PlanOk(s, ip, free);
      var j :| BatchOk(s, ip, free, b, j);
      AssignConserves(s, Plan(s, ip, free).1, ip, b, j);
  }
}
