/** Operations that sweep over jobs or nodes: stopping every job empties the scheduler, deleting a host
    removes exactly its nodes, and losing workers empties them
    (src/master/scheduler.cpp:57-130, 605-637). */
module Sweeps {
  import opened Ordering
  import opened WorkerJobs
  import opened SchedulerState
  import opened SchedulerSteps
  import opened SchedulerObject
  import opened Safety
  import opened Conservation
  import opened ConservationSteps
  import opened CpuAccounting
  import opened SchedulerRuns

  // ---- stopping every job ----

  lemma StopJobJobs(s: State, j: JobId)
    ensures StopJob(s, j).jobs == s.jobs - {j}
  {
    hide Without, WithoutJob, AsInt32, DropFromNode;
  }

  lemma {:induction false} StopEachFacts(s: State, known: Registry, ids: seq<JobId>)
    requires Base(s, known, {}) && Accounted(s)
    ensures var s1 := StopEach(s, ids);
            && Base(s1, known, {}) && Accounted(s1)
            && s1.jobs.Keys <= s.jobs.Keys && forall j | j in ids :: j !in s1.jobs
    decreases |ids|
  {
    hide Base, Conserved, CpuOk, StopJob;
    if ids != [] {
      var p, j := ids[..|ids| - 1], ids[|ids| - 1];
      StopEachFacts(s, known, p);
      StopJobKeeps(StopEach(s, p), known, j);
      StopJobConserves(StopEach(s, p), j);
      StopJobCpu(StopEach(s, p), j);
      StopJobJobs(StopEach(s, p), j);
    }
  }

  /** Nothing is scheduled, waiting, counted or held, and every CPU is free. */
  ghost predicate Quiet(s: State) {
    && s.jobs == map[] && s.execs == map[] && s.running == map[] && s.toSend == map[] && s.resched == []
    && forall ip | ip in s.nodes :: s.nodes[ip].worker.job.jobs == map[] && s.nodes[ip].busy == 0
  }

  lemma NoneListed(q: seq<WorkerTask>, jobs: Registry)
    requires jobs.Keys == {} && forall k | k in q :: k.job in jobs
    ensures q == []
  {
    FirstListed(q);
  }

  lemma FirstListed(q: seq<WorkerTask>)
    ensures q != [] ==> q[0] in q
  {
  }

  lemma NothingScheduled(s: State)
    requires Accounted(s) && s.jobs.Keys == {}
    ensures Quiet(s)
  {
    hide RowsOk, NoDuplicates;
    NoneListed(s.resched, s.jobs);
    forall ip | ip in s.nodes ensures s.nodes[ip].worker.job.jobs == map[] && s.nodes[ip].busy == 0 {
      assert s.nodes[ip].worker.job.jobs.Keys <= s.jobs.Keys;
      assert NodeCpu(s.nodes[ip]);
      assert s.nodes[ip].worker.job.Pairs() == {};
    }
  }

  lemma QueueIsAll(s: State, known: Registry)
    requires Base(s, known, {})
    ensures forall j | j in s.jobs :: j in s.queue
  {
  }

  /** `StopAllJobs` leaves nothing behind: no job, no task in any table, no busy CPU. */
  lemma StopAllLeavesNothing(s: State, known: Registry)
    requires Base(s, known, {}) && Accounted(s)
    ensures Quiet(StopEach(s, s.queue))
  {
    hide Base, Accounted, Quiet;
    StopEachFacts(s, known, s.queue);
    QueueIsAll(s, known);
    NothingScheduled(StopEach(s, s.queue));
  }

  // ---- deleting a host ----

  ghost predicate SameHosts(nodes: map<IP, Node>, nodes1: map<IP, Node>) {
    nodes1.Keys == nodes.Keys && forall ip | ip in nodes :: nodes1[ip].worker.host == nodes[ip].worker.host
  }

  lemma {:induction false} RescheduleHosts(s: State, w: WorkerJob, ids: seq<JobId>)
    ensures SameHosts(s.nodes, RescheduleFrom(s, w, ids).nodes)
    decreases |ids|
  {
    hide RescheduleOne, LimitReached;
    if ids != [] {
      RescheduleOneNodes(s, ids[0], w.Tasks(ids[0]));
      RescheduleHosts(RescheduleOne(s, ids[0], w.Tasks(ids[0])), w, ids[1..]);
    }
  }

  lemma DeleteNodeHosts(s: State, ip: IP)
    ensures SameHosts(s.nodes - {ip}, DeleteNode(s, ip).nodes)
  {
    hide AddFailedAll, RescheduleFrom;
    if ip in s.nodes {
      var w := s.nodes[ip].worker.job;
      RescheduleHosts(AddFailedAll(s, w, ip).(nodes := s.nodes - {ip}), w, Ascending(w.jobs.Keys));
    }
  }

  /** `DeleteWorker` removes the nodes of the host that it visits and no other, and keeps the safety
      invariants and the accounts. */
  lemma {:induction false} DeleteHostRemoves(s: State, known: Registry, host: string, order: seq<IP>)
    requires Base(s, known, {}) && Accounted(s)
    ensures var s1 := DeleteHost(s, host, order);
            && Base(s1, known, {}) && Accounted(s1)
            && (forall ip :: ip in s1.nodes <==> ip in s.nodes && !(ip in order && s.nodes[ip].worker.host == host))
            && (forall ip | ip in s1.nodes :: s1.nodes[ip].worker.host == s.nodes[ip].worker.host)
    decreases |order|
  {
    hide Base, Conserved, CpuOk, DeleteNode;
    if order != [] {
      var p, ip := order[..|order| - 1], order[|order| - 1];
      DeleteHostRemoves(s, known, host, p);
      var s1 := DeleteHost(s, host, p);
      if ip in s1.nodes && s1.nodes[ip].worker.host == host {
        DeleteNodeKeeps(s1, known, ip);
        DeleteNodeConserves(s1, known, ip);
        DeleteNodeCpu(s1, ip);
        DeleteNodeHosts(s1, ip);
      }
    }
  }

  // ---- losing several workers ----

  ghost predicate SameStates(nodes: map<IP, Node>, nodes1: map<IP, Node>) {
    nodes1.Keys == nodes.Keys && forall ip | ip in nodes :: nodes1[ip].worker.state == nodes[ip].worker.state
  }

  lemma {:induction false} RescheduleStates(s: State, w: WorkerJob, ids: seq<JobId>)
    ensures SameStates(s.nodes, RescheduleFrom(s, w, ids).nodes)
    decreases |ids|
  {
    hide RescheduleOne, LimitReached;
    if ids != [] {
      RescheduleOneNodes(s, ids[0], w.Tasks(ids[0]));
      RescheduleStates(RescheduleOne(s, ids[0], w.Tasks(ids[0])), w, ids[1..]);
    }
  }

  lemma SelfStates(nodes: map<IP, Node>)
    ensures SameStates(nodes, nodes)
  {
  }

  lemma ResetLeaves(nodes: map<IP, Node>, ip: IP, x: IP)
    requires ip in nodes
    ensures var nodes1 := nodes[ip := Node(nodes[ip].worker.(job := Empty), 0)];
            && (forall nodes2 | SameStates(nodes1, nodes2) :: SameStates(nodes, nodes2))
            && (x in nodes1 <==> x in nodes)
            && (x in nodes && nodes[x].busy == 0 && nodes[x].worker.job.jobs.Keys == {} ==>
                  nodes1[x].busy == 0 && nodes1[x].worker.job.jobs.Keys == {})
  {
  }

  /** Losing one worker changes no state and leaves a worker without tasks as it is. */
  lemma LostLeaves(s: State, ip: IP, x: IP)
    ensures SameStates(s.nodes, ChangeWorkerState(s, ip).nodes)
    ensures Vacant(s, x) ==> Vacant(ChangeWorkerState(s, ip), x)
  {
    hide AddFailedAll, RescheduleFrom, SameStates, Ascending;
    SelfStates(s.nodes);
    if ip in s.nodes && s.nodes[ip].worker.state == NotAvailable && s.nodes[ip].busy >= 1 {
      var n := s.nodes[ip];
      var s1 := SetNode(AddFailedAll(s, n.worker.job, ip), ip, Node(n.worker.(job := Empty), 0));
      AddFailedAllTasks(s, n.worker.job, ip);
      ResetLeaves(s.nodes, ip, x);
      RescheduleStates(s1, n.worker.job, Ascending(n.worker.job.jobs.Keys));
      if Vacant(s, x) {
        RescheduleFromVacant(s1, n.worker.job, Ascending(n.worker.job.jobs.Keys), x);
      }
    }
  }

  /** After `OnChangedWorkerState` every unavailable worker of the list is without a task and a busy CPU,
      and the safety invariants and the accounts still hold. */
  lemma {:induction false} AllLostVacant(s: State, known: Registry, ips: seq<IP>)
    requires Base(s, known, {}) && Accounted(s)
    ensures var s1 := Run(s, Lost(ips));
            && Base(s1, known, {}) && Accounted(s1) && SameStates(s.nodes, s1.nodes)
            && forall ip | ip in ips && ip in s.nodes && s.nodes[ip].worker.state == NotAvailable :: Vacant(s1, ip)
    decreases |ips|
  {
    hide Base, Conserved, CpuOk, ChangeWorkerState, Run, Lost, Vacant;
    if ips == [] {
      NobodyLost(s);
    } else {
      var p, x := ips[..|ips| - 1], ips[|ips| - 1];
      AllLostVacant(s, known, p);
      assert ips == p + [x];
      RunOne(s, p, x);
      var s1 := Run(s, Lost(p));
      ChangeWorkerStateKeeps(s1, known, x);
      ChangeWorkerStateConserves(s1, known, x);
      ChangeWorkerStateCpu(s1, x);
      forall ip | ip in ips && ip in s.nodes && s.nodes[ip].worker.state == NotAvailable
        ensures Vacant(ChangeWorkerState(s1, x), ip)
      {
        LostLeaves(s1, x, ip);
        if ip == x {
          LostNodeIsVacant(s1, known, x);
        }
      }
      LostLeaves(s1, x, x);
    }
  }

  lemma NobodyLost(s: State)
    ensures Run(s, Lost([])) == s
  {
  }
}
