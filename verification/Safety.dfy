/** Invariants that hold over every run, whatever the workers report: exclusivity, the
    per-worker limits, host and group permissions, the failed-node limit, and the agreement of
    the job tables with each other. */
module Safety {
  import opened Ordering
  import opened WorkerJobs
  import opened SchedulerState
  import opened BatchSelection
  import opened BatchFacts
  import opened SchedulerSteps

  /** All jobs planned so far, scheduled or not. */
  type Registry = map<JobId, Job>

  // ---- the jobs and their tables ----

  /** `job` has a lower priority number than `other`, or the same and no higher group number. */
  predicate NoLater(job: Job, other: Job) {
    job.priority < other.priority || (job.priority == other.priority && job.groupId <= other.groupId)
  }

  ghost predicate Ordered(known: Registry, q: seq<JobId>) {
    forall i, k | 0 <= i < k < |q| ::
      q[i] in known && q[k] in known ==> NoLater(known[q[i]], known[q[k]])
  }

  ghost predicate JobsOk(jobs: Registry, execs: map<JobId, int>, known: Registry) {
    && (forall j | j in jobs :: j in known && jobs[j] == known[j] && jobs[j].planned >= 1)
    && execs.Keys == jobs.Keys
    && (forall j | j in execs :: execs[j] >= 1)
  }

  ghost predicate QueueOk(queue: seq<JobId>, jobs: Registry, known: Registry) {
    && (forall j :: j in queue <==> j in jobs)
    && NoDuplicates(queue)
    && Ordered(known, queue)
  }

  /** "Sent completely" is set exactly when no task is left to send. */
  ghost predicate SentOk(jobs: Registry, sent: set<JobId>, toSend: map<JobId, set<TaskId>>) {
    && (forall j | j in jobs :: j in sent <==> j !in toSend)
    && (forall j | j in toSend :: toSend[j] != {})
  }

  /** The sent flags and the running counts are those of scheduled jobs, and nothing is filed under a job
      that was never planned. */
  ghost predicate FiledOk(s: State, known: Registry) {
    && s.sent <= s.jobs.Keys && s.running.Keys <= s.jobs.Keys
    && s.toSend.Keys <= known.Keys && s.failed.Keys <= known.Keys
  }

  /** Every scheduled job with a limit of at least one failed node is below it, except that the
      jobs in `pending` have not been looked at yet. */
  ghost predicate FailedLimit(jobs: Registry, failed: map<JobId, set<IP>>, pending: set<JobId>) {
    forall j | j in jobs && j !in pending && jobs[j].maxFailedNodes >= 1 ::
      |FailedIn(failed, j)| < jobs[j].maxFailedNodes
  }

  // ---- the workers ----

  /** An exclusive job is alone on its worker, and the flag tells whether there is one. */
  ghost predicate Exclusive(w: WorkerJob, known: Registry) {
    && (forall j | j in w.jobs && j in known && known[j].exclusive :: w.jobs.Keys == {j} && w.exclusive)
    && (w.exclusive ==> forall j | j in w.jobs && j in known :: known[j].exclusive)
  }

  ghost predicate Allowed(w: Worker, known: Registry, j: JobId) {
    && j in known
    && w.host !in known[j].blacklistHosts && (known[j].hosts != {} ==> w.host in known[j].hosts)
    && w.group !in known[j].blacklistGroups && (known[j].groups != {} ==> w.group in known[j].groups)
    && (known[j].maxWorkerInstances > 0 ==> |w.job.Tasks(j)| <= known[j].maxWorkerInstances)
    && (known[j].maxExecAtWorker > 0 ==> |w.job.Tasks(j)| <= known[j].maxExecAtWorker)
  }

  ghost predicate WorkerOk(w: Worker, known: Registry) {
    && w.job.Valid()
    && Exclusive(w.job, known)
    && forall j | j in w.job.jobs :: Allowed(w, known, j)
  }

  ghost predicate WorkersOk(nodes: map<IP, Node>, known: Registry) {
    forall ip | ip in nodes :: WorkerOk(nodes[ip].worker, known)
  }

  ghost predicate Base(s: State, known: Registry, pending: set<JobId>) {
    && JobsOk(s.jobs, s.execs, known)
    && QueueOk(s.queue, s.jobs, known)
    && SentOk(s.jobs, s.sent, s.toSend)
    && FiledOk(s, known)
    && FailedLimit(s.jobs, s.failed, pending)
    && WorkersOk(s.nodes, known)
  }

  // ---- queue lemmas ----

  lemma {:induction false} WithoutKeeps(known: Registry, q: seq<JobId>, j: JobId)
    requires NoDuplicates(q) && Ordered(known, q)
    ensures NoDuplicates(Without(q, j)) && Ordered(known, Without(q, j))
  {
    if q != [] {
      assert NoDuplicates(q[1..]) && Ordered(known, q[1..]);
      WithoutKeeps(known, q[1..], j);
      var r := Without(q[1..], j);
      forall k | 0 <= k < |r|
        ensures r[k] != q[0]
        ensures q[0] in known && r[k] in known ==> NoLater(known[q[0]], known[r[k]])
      {
        assert r[k] in q[1..];
      }
    }
  }

  lemma InsertedFirst(jobs: Registry, q: seq<JobId>, j: JobId)
    requires j in jobs
    ensures q == [] ==> Inserted(jobs, q, j) == [j]
    ensures q != [] && q[0] in jobs && !NoLater(jobs[q[0]], jobs[j]) ==> Inserted(jobs, q, j) == [j] + q
    ensures q != [] && q[0] in jobs && NoLater(jobs[q[0]], jobs[j]) ==>
              Inserted(jobs, q, j) == [q[0]] + Inserted(jobs, q[1..], j)
  {
  }

  /** `j` stands at position `i`: behind jobs that it does not precede and before one that it does. */
  ghost predicate StandsAt(jobs: Registry, q: seq<JobId>, j: JobId, i: nat) {
    && i <= |q| && j in jobs && (forall x | x in q :: x in jobs)
    && (forall k | 0 <= k < i :: NoLater(jobs[q[k]], jobs[j]))
    && (i < |q| ==> !NoLater(jobs[q[i]], jobs[j]))
  }

  lemma StandsFurther(jobs: Registry, q: seq<JobId>, j: JobId, i: nat)
    requires q != [] && (forall x | x in q :: x in jobs) && StandsAt(jobs, q[1..], j, i)
    requires NoLater(jobs[q[0]], jobs[j])
    ensures StandsAt(jobs, q, j, i + 1)
  {
    hide NoLater;
    forall m | 0 <= m < i + 1 ensures NoLater(jobs[q[m]], jobs[j]) {
      assert m > 0 ==> q[m] == q[1..][m - 1];
    }
  }

  function PutAt(q: seq<JobId>, j: JobId, i: nat): seq<JobId>
    requires i <= |q|
  {
    q[..i] + [j] + q[i..]
  }

  lemma PutFurther(q: seq<JobId>, j: JobId, i: nat)
    requires i < |q|
    ensures [q[0]] + PutAt(q[1..], j, i) == PutAt(q, j, i + 1)
  {
    assert q[..i + 1] == [q[0]] + q[1..][..i];
    assert q[i + 1..] == q[1..][i..];
  }

  /** The new job goes behind every job that it does not precede and before the first that it does. */
  lemma {:induction false} InsertedBehind(jobs: Registry, q: seq<JobId>, j: JobId) returns (i: nat)
    requires j in jobs && forall x | x in q :: x in jobs
    ensures StandsAt(jobs, q, j, i) && Inserted(jobs, q, j) == PutAt(q, j, i)
  {
    hide Inserted, NoLater;
    InsertedFirst(jobs, q, j);
    if q == [] || !NoLater(jobs[q[0]], jobs[j]) {
      i := 0;
      assert PutAt(q, j, 0) == [j] + q;
    } else {
      hide PutAt, StandsAt;
      i := InsertedBehind(jobs, q[1..], j);
      StandsFurther(jobs, q, j, i);
      StandsWithin(jobs, q[1..], j, i);
      PutFurther(q, j, i);
      i := i + 1;
    }
  }

  lemma StandsWithin(jobs: Registry, q: seq<JobId>, j: JobId, i: nat)
    requires StandsAt(jobs, q, j, i)
    ensures i <= |q|
  {
  }

  lemma {:induction false} InsertedKeeps(known: Registry, q: seq<JobId>, j: JobId)
    requires j in known && NoDuplicates(q) && Ordered(known, q) && j !in q
    requires forall x | x in q :: x in known
    ensures NoDuplicates(Inserted(known, q, j)) && Ordered(known, Inserted(known, q, j))
    ensures forall x :: x in Inserted(known, q, j) <==> x in q || x == j
  {
    InsertedHas(known, q, j);
    if q != [] {
      if known[j].Before(known[q[0]]) {
        forall k | 0 <= k < |q| ensures NoLater(known[j], known[q[k]]) {
          assert q[k] in known;
        }
      } else {
        assert NoDuplicates(q[1..]) && Ordered(known, q[1..]);
        InsertedKeeps(known, q[1..], j);
        var r := Inserted(known, q[1..], j);
        forall k | 0 <= k < |r| ensures r[k] != q[0] && NoLater(known[q[0]], known[r[k]]) {
          assert r[k] in q[1..] || r[k] == j;
        }
      }
    }
  }

  lemma InsertedHas(jobs: Registry, q: seq<JobId>, j: JobId)
    requires j in jobs
    ensures forall x :: x in Inserted(jobs, q, j) <==> x in q || x == j
  {
    var r := Inserted(jobs, q, j);
    forall x ensures x in r <==> x in q || x == j {
      assert x in r <==> x in multiset(r);
      assert x in q <==> x in multiset(q);
    }
  }

  // ---- elementary changes ----

  lemma DeleteJobKeeps(w: Worker, known: Registry, j: JobId)
    requires WorkerOk(w, known)
    ensures WorkerOk(w.(job := w.job.DeleteJob(j)), known)
  {
    var w1 := w.(job := w.job.DeleteJob(j));
    forall x | x in w1.job.jobs ensures Allowed(w1, known, x) {
      assert w1.job.Tasks(x) == w.job.Tasks(x);
      assert Allowed(w, known, x);
    }
  }

  lemma DeleteTaskKeeps(w: Worker, known: Registry, j: JobId, t: TaskId)
    requires WorkerOk(w, known)
    ensures WorkerOk(w.(job := w.job.DeleteTask(j, t)), known)
  {
    if w.job.HasTask(j, t) {
      if w.job.jobs[j] == {t} {
        DeleteJobKeeps(w, known, j);
      } else {
        var w1 := w.(job := w.job.DeleteTask(j, t));
        assert w1.job.jobs.Keys == w.job.jobs.Keys;
        forall x | x in w1.job.jobs ensures Allowed(w1, known, x) && w1.job.jobs[x] != {} {
          SubsetSize(w1.job.Tasks(x), w.job.Tasks(x));
          assert Allowed(w, known, x);
        }
      }
    }
  }

  lemma DropAllKeeps(nodes: map<IP, Node>, known: Registry, j: JobId)
    requires WorkersOk(nodes, known)
    ensures WorkersOk(map ip | ip in nodes :: DropFromNode(nodes[ip], j), known)
  {
    forall ip | ip in nodes ensures WorkerOk(DropFromNode(nodes[ip], j).worker, known) {
      DeleteJobKeeps(nodes[ip].worker, known, j);
    }
  }

  lemma FailedLimitRemoved(jobs: Registry, failed: map<JobId, set<IP>>, pending: set<JobId>, j: JobId)
    requires FailedLimit(jobs, failed, pending)
    ensures FailedLimit(jobs - {j}, failed - {j}, pending - {j})
  {
    forall x | x in jobs - {j} && x !in pending - {j} ensures FailedIn(failed - {j}, x) == FailedIn(failed, x) {
    }
  }

  lemma RemoveJobKeeps(s: State, known: Registry, pending: set<JobId>, j: JobId)
    requires Base(s, known, pending)
    ensures Base(RemoveJob(s, j), known, pending - {j})
  {
    WithoutKeeps(known, s.queue, j);
    FailedLimitRemoved(s.jobs, s.failed, pending, j);
  }

  /** Stopping a job and removing it, as `OnJobTimeout` and an exceeded limit do. */
  lemma StopAndRemoveKeeps(s: State, known: Registry, pending: set<JobId>, j: JobId)
    requires Base(s, known, pending)
    ensures Base(RemoveJob(StopWorkers(s, j), j), known, pending - {j})
  {
    WithoutKeeps(known, s.queue, j);
    FailedLimitRemoved(s.jobs, s.failed, pending, j);
    DropAllKeeps(s.nodes, known, j);
  }

  lemma UpdatedThenRemoved(m: map<JobId, int>, j: JobId, v: int)
    ensures m[j := v] - {j} == m - {j}
  {
  }

  /** `DecrementJobExecution` removes the job exactly when its last execution is taken off. */
  lemma DecrementCases(s: State, j: JobId, n: nat)
    ensures DecrementExecution(s, j, n) ==
            if j !in s.execs then s
            else if s.execs[j] - n < 1 then RemoveJob(s, j)
            else s.(execs := s.execs[j := s.execs[j] - n])
  {
    if j in s.execs {
      UpdatedThenRemoved(s.execs, j, s.execs[j] - n);
    }
  }

  lemma FewerPending(s: State, known: Registry, pending: set<JobId>, more: set<JobId>)
    requires Base(s, known, pending) && pending <= more
    ensures Base(s, known, more)
  {
  }

  lemma DecrementKeeps(s: State, known: Registry, pending: set<JobId>, j: JobId, n: nat)
    requires Base(s, known, pending)
    ensures Base(DecrementExecution(s, j, n), known, pending)
  {
    hide Base, RemoveJob, DecrementExecution;
    DecrementCases(s, j, n);
    if j in s.execs && s.execs[j] - n < 1 {
      RemoveJobKeeps(s, known, pending, j);
      FewerPending(RemoveJob(s, j), known, pending - {j}, pending);
    } else if j in s.execs {
      SetExecsKeeps(s, known, pending, j, s.execs[j] - n);
    }
  }

  lemma SetExecsKeeps(s: State, known: Registry, pending: set<JobId>, j: JobId, n: int)
    requires Base(s, known, pending) && j in s.execs && n >= 1
    ensures Base(s.(execs := s.execs[j := n]), known, pending)
  {
  }

  lemma SetRunningKeeps(s: State, known: Registry, pending: set<JobId>, j: JobId, n: int)
    requires Base(s, known, pending) && j in s.jobs
    ensures Base(s.(running := s.running[j := n]), known, pending)
  {
  }

  lemma SetReschedKeeps(s: State, known: Registry, pending: set<JobId>, q: seq<WorkerTask>)
    requires Base(s, known, pending)
    ensures Base(s.(resched := q), known, pending)
  {
  }

  lemma BelowLimit(s: State, known: Registry, pending: set<JobId>, j: JobId)
    requires Base(s, known, pending) && (j in s.jobs ==> !LimitReached(s, j))
    ensures Base(s, known, pending - {j})
  {
  }

  lemma SameLimit(s: State, s1: State, j: JobId)
    requires j in s.jobs && s1.jobs == s.jobs && s1.failed == s.failed
    ensures LimitReached(s1, j) == LimitReached(s, j)
  {
  }

  /** After its round in `RescheduleJob`, a job is below its failed-node limit or gone. */
  lemma RescheduleOneKeeps(s: State, known: Registry, pending: set<JobId>, j: JobId, tasks: set<TaskId>)
    requires Base(s, known, pending)
    ensures Base(RescheduleOne(s, j, tasks), known, pending - {j})
  {
    hide Base, StopWorkers, RemoveJob, DecrementExecution, LimitReached, TaskList, Ascending;
    if j !in s.jobs {
      BelowLimit(s, known, pending, j);
    } else {
      var s1 := s.(running := s.running[j := Running(s, j) - |tasks|]);
      SetRunningKeeps(s, known, pending, j, Running(s, j) - |tasks|);
      SameLimit(s, s1, j);
      if LimitReached(s, j) {
        StopAndRemoveKeeps(s1, known, pending, j);
      } else {
        BelowLimit(s1, known, pending, j);
        if s.jobs[j].noReschedule {
          DecrementKeeps(s1, known, pending - {j}, j, |tasks|);
        } else {
          SetReschedKeeps(s1, known, pending - {j}, s.resched + TaskList(j, Ascending(tasks)));
        }
      }
    }
  }

  lemma {:induction false} RescheduleFromKeeps(s: State, known: Registry, pending: set<JobId>, w: WorkerJob, ids: seq<JobId>)
    requires Base(s, known, pending)
    ensures Base(RescheduleFrom(s, w, ids), known, pending - SetOf(ids))
    decreases |ids|
  {
    if ids != [] {
      RescheduleOneKeeps(s, known, pending, ids[0], w.Tasks(ids[0]));
      RescheduleFromKeeps(RescheduleOne(s, ids[0], w.Tasks(ids[0])), known, pending - {ids[0]}, w, ids[1..]);
      assert pending - SetOf(ids) == pending - {ids[0]} - SetOf(ids[1..]);
    } else {
      assert pending - SetOf(ids) == pending;
    }
  }

  lemma RescheduleKeeps(s: State, known: Registry, w: WorkerJob)
    requires Base(s, known, w.jobs.Keys)
    ensures Base(Reschedule(s, w), known, {})
  {
    RescheduleFromKeeps(s, known, w.jobs.Keys, w, Ascending(w.jobs.Keys));
    assert w.jobs.Keys - SetOf(Ascending(w.jobs.Keys)) == {};
  }

  lemma AddFailedKeeps(s: State, known: Registry, j: JobId, ip: IP)
    requires Base(s, known, {}) && j in known
    ensures Base(AddFailed(s, j, ip), known, {j})
  {
  }

  lemma AddFailedAllKeeps(s: State, known: Registry, w: WorkerJob, ip: IP)
    requires Base(s, known, {}) && w.jobs.Keys <= known.Keys
    ensures Base(AddFailedAll(s, w, ip), known, w.jobs.Keys)
  {
  }

  lemma SetNodeKeeps(s: State, known: Registry, pending: set<JobId>, ip: IP, n: Node)
    requires Base(s, known, pending) && WorkerOk(n.worker, known)
    ensures Base(SetNode(s, ip, n), known, pending)
  {
  }

  // ---- the steps ----

  lemma WorkerJobKnown(w: Worker, known: Registry)
    requires WorkerOk(w, known)
    ensures w.job.jobs.Keys <= known.Keys
  {
    forall j | j in w.job.jobs ensures j in known {
      assert Allowed(w, known, j);
    }
  }

  lemma ChangeWorkerStateKeeps(s: State, known: Registry, ip: IP)
    requires Base(s, known, {})
    ensures Base(ChangeWorkerState(s, ip), known, {})
  {
    if !(ip !in s.nodes || s.nodes[ip].worker.state != NotAvailable || s.nodes[ip].busy < 1) {
      var n := s.nodes[ip];
      WorkerJobKnown(n.worker, known);
      AddFailedAllKeeps(s, known, n.worker.job, ip);
      SetNodeKeeps(AddFailedAll(s, n.worker.job, ip), known, n.worker.job.jobs.Keys, ip,
                   Node(n.worker.(job := Empty), 0));
      RescheduleKeeps(SetNode(AddFailedAll(s, n.worker.job, ip), ip, Node(n.worker.(job := Empty), 0)),
                      known, n.worker.job);
    }
  }

  lemma DeleteNodeKeeps(s: State, known: Registry, ip: IP)
    requires Base(s, known, {})
    ensures Base(DeleteNode(s, ip), known, {})
  {
    if ip in s.nodes {
      var w := s.nodes[ip].worker.job;
      WorkerJobKnown(s.nodes[ip].worker, known);
      AddFailedAllKeeps(s, known, w, ip);
      var s1 := AddFailedAll(s, w, ip);
      var s2 := s1.(nodes := s.nodes - {ip});
      RescheduleKeeps(s2, known, w);
    }
  }

  lemma OrderedIn(known: Registry, known1: Registry, q: seq<JobId>)
    requires Ordered(known, q)
    requires forall x | x in q :: x in known && x in known1 && known[x] == known1[x]
    ensures Ordered(known1, q)
  {
    forall i, k | 0 <= i < k < |q|
      ensures q[i] in known1 && q[k] in known1 ==> !known1[q[k]].Before(known1[q[i]])
    {
      assert q[i] in q && q[k] in q;
    }
  }

  lemma PlannedQueue(s: State, known: Registry, jobs: Registry, j: JobId)
    requires Base(s, known, {}) && j !in known && j in jobs && jobs == s.jobs[j := jobs[j]]
    ensures QueueOk(Inserted(jobs, s.queue, j), jobs, known[j := jobs[j]])
  {
    assert j !in s.jobs;
    OrderedIn(known, jobs, s.queue);
    InsertedKeeps(jobs, s.queue, j);
    OrderedIn(jobs, known[j := jobs[j]], Inserted(jobs, s.queue, j));
  }

  lemma PlannedWorkers(s: State, known: Registry, j: JobId, job: Job)
    requires Base(s, known, {}) && j !in known
    ensures WorkersOk(s.nodes, known[j := job])
  {
    forall ip | ip in s.nodes ensures WorkerOk(s.nodes[ip].worker, known[j := job]) {
      MoreJobsKeep(s.nodes[ip].worker, known, j, job);
    }
  }

  lemma PlannedJobs(jobs: Registry, execs: map<JobId, int>, known: Registry, j: JobId, job: Job)
    requires JobsOk(jobs, execs, known) && j !in known && job.planned >= 1
    ensures JobsOk(jobs[j := job], execs[j := job.planned], known[j := job])
  {
  }

  lemma PlannedSent(jobs: Registry, sent: set<JobId>, toSend: map<JobId, set<TaskId>>, j: JobId, job: Job)
    requires SentOk(jobs, sent, toSend) && j !in sent && job.planned >= 1
    ensures SentOk(jobs[j := job], sent, toSend[j := Below(job.planned)])
  {
    assert 0 in Below(job.planned);
  }

  lemma PlannedFailed(jobs: Registry, failed: map<JobId, set<IP>>, j: JobId, job: Job)
    requires FailedLimit(jobs, failed, {}) && j !in failed
    ensures FailedLimit(jobs[j := job], failed, {})
  {
  }

  lemma PlanJobKeeps(s: State, known: Registry, job: Job, cpus: int, workers: int)
    requires Base(s, known, {}) && job.id !in known
    ensures var s1 := PlanJob(s, job, cpus, workers);
            Base(s1, known[job.id := job.(planned := NumPlannedExec(job, cpus, workers))], {})
  {
    hide WorkerOk, Ordered, NoDuplicates, Inserted;
    var s1 := PlanJob(s, job, cpus, workers);
    var j := job.id;
    PlannedQueue(s, known, s1.jobs, j);
    PlannedWorkers(s, known, j, s1.jobs[j]);
    assert Pending(s, j) + Below(s1.jobs[j].planned) == Below(s1.jobs[j].planned);
    PlannedJobs(s.jobs, s.execs, known, j, s1.jobs[j]);
    PlannedSent(s.jobs, s.sent, s.toSend, j, s1.jobs[j]);
    PlannedFailed(s.jobs, s.failed, j, s1.jobs[j]);
    hide JobsOk, QueueOk, SentOk, FailedLimit, WorkersOk;
  }

  lemma MoreJobsKeep(w: Worker, known: Registry, j: JobId, job: Job)
    requires WorkerOk(w, known) && j !in known
    ensures WorkerOk(w, known[j := job])
  {
    forall x | x in w.job.jobs ensures Allowed(w, known[j := job], x) {
      assert Allowed(w, known, x);
    }
  }

  // ---- assigning a batch ----

  lemma SetPendingKeeps(s: State, known: Registry, j: JobId, left: set<TaskId>)
    requires Base(s, known, {}) && j in s.jobs && Pending(s, j) != {}
    ensures Base(SetPending(s, j, left), known, {})
  {
    hide JobsOk, QueueOk, WorkersOk, FailedLimit;
  }

  lemma SetHistoryKeeps(s: State, known: Registry, q: seq<WorkerTask>, h: History)
    requires Base(s, known, {})
    ensures Base(s.(resched := q, history := h), known, {})
  {
  }

  lemma PlanKeeps(s: State, known: Registry, ip: IP, free: int)
    requires ip in s.nodes && Base(s, known, {})
    ensures Base(Plan(s, ip, free).1, known, {})
  {
    var d := ScanResched(s, ip, free, s.resched, Start(s));
    FirstSuitingSuits(s, ip, d, s.queue);
    hide ScanResched, Fill, FirstSuiting, Base;
    match FirstSuiting(s, ip, d, s.queue)
    case None => SetHistoryKeeps(s, known, d.kept, d.history);
    case Some(j) =>
      var (f, left) := Fill(s, ip, free, j, d.planned.FirstJob(), Pending(s, j), d);
      SetPendingKeeps(s, known, j, left);
      SetHistoryKeeps(SetPending(s, j, left), known, d.kept, f.history);
  }

  lemma MergedAllowed(s: State, known: Registry, ip: IP, free: int, b: WorkerJob, j: JobId, x: JobId)
    requires ip in s.nodes && WorkerOk(s.nodes[ip].worker, known)
    requires BatchOk(s, ip, free, b, j) && j in known && known[j] == s.jobs[j]
    requires x == j || x in s.nodes[ip].worker.job.jobs
    ensures var w := s.nodes[ip].worker;
            Allowed(w.(job := w.job.Merge(b)), known, x) && w.job.Merge(b).Tasks(x) != {}
  {
    hide Exclusive, MayJoin, WorkerJob.Merge, WorkerJob.Tasks;
    var w := s.nodes[ip].worker;
    MergedTasks(w.job, b, x);
    if x == j {
      BatchAllowed(s, ip, free, b, j);
    } else {
      assert Allowed(w, known, x);
      HeldSome(w.job, x);
      OtherTasks(b, j, x);
    }
  }

  lemma MergedTasks(w: WorkerJob, b: WorkerJob, x: JobId)
    ensures w.Merge(b).Tasks(x) == w.Tasks(x) + b.Tasks(x) && |w.Merge(b).Tasks(x)| <= |w.Tasks(x)| + |b.Tasks(x)|
    ensures b.Tasks(x) == {} ==> w.Merge(b).Tasks(x) == w.Tasks(x)
  {
    MergedAt(w, b, x);
    hide WorkerJob.Merge, WorkerJob.Tasks;
    UnionSize(w.Tasks(x), b.Tasks(x));
  }

  lemma MergedAt(w: WorkerJob, b: WorkerJob, x: JobId)
    ensures w.Merge(b).Tasks(x) == w.Tasks(x) + b.Tasks(x)
  {
    if x in w.jobs.Keys + b.jobs.Keys {
      assert w.Merge(b).jobs[x] == w.Tasks(x) + b.Tasks(x);
    }
  }

  lemma HeldSome(w: WorkerJob, x: JobId)
    requires w.Valid() && x in w.jobs
    ensures w.Tasks(x) != {}
  {
  }

  lemma OtherTasks(b: WorkerJob, j: JobId, x: JobId)
    requires b.jobs.Keys == {j} && x != j
    ensures b.Tasks(x) == {}
  {
  }

  /** A batch goes to a host and a group that its job permits, and fits the limits per worker. */
  lemma BatchAllowed(s: State, ip: IP, free: int, b: WorkerJob, j: JobId)
    requires ip in s.nodes && BatchOk(s, ip, free, b, j)
    ensures var w, job, n := s.nodes[ip].worker, s.jobs[j], |s.nodes[ip].worker.job.Tasks(j)| + |b.Tasks(j)|;
            && w.host !in job.blacklistHosts && (job.hosts != {} ==> w.host in job.hosts)
            && w.group !in job.blacklistGroups && (job.groups != {} ==> w.group in job.groups)
            && (job.maxWorkerInstances > 0 ==> n <= job.maxWorkerInstances)
            && (job.maxExecAtWorker > 0 ==> n <= job.maxExecAtWorker)
            && b.Tasks(j) != {}
  {
    hide MayJoin;
  }

  lemma MergedExclusive(s: State, known: Registry, ip: IP, free: int, b: WorkerJob, j: JobId)
    requires ip in s.nodes && WorkerOk(s.nodes[ip].worker, known)
    requires BatchOk(s, ip, free, b, j) && j in known && known[j] == s.jobs[j]
    ensures Exclusive(s.nodes[ip].worker.job.Merge(b), known)
  {
    var w := s.nodes[ip].worker;
    WorkerJobKnown(w, known);
    hide Allowed, Fits, Exclusive;
    MergeExclusive(w.job, known, b, j);
  }

  /** Merging a batch that `CanAddTaskToWorker` has admitted keeps a worker within its limits and
      an exclusive job alone. */
  lemma MergeKeeps(s: State, known: Registry, ip: IP, free: int, b: WorkerJob, j: JobId)
    requires ip in s.nodes && WorkerOk(s.nodes[ip].worker, known)
    requires BatchOk(s, ip, free, b, j) && j in known && known[j] == s.jobs[j]
    ensures WorkerOk(s.nodes[ip].worker.(job := s.nodes[ip].worker.job.Merge(b)), known)
  {
    hide Allowed, Exclusive, WorkerOk, BatchOk, MayJoin;
    MergedExclusive(s, known, ip, free, b, j);
    var w := s.nodes[ip].worker;
    var w1 := w.(job := w.job.Merge(b));
    BatchJob(s, ip, free, b, j);
    MergedKeys(w.job, b, j);
    forall x | x in w1.job.jobs ensures Allowed(w1, known, x) && w1.job.Tasks(x) != {} {
      MergedAllowed(s, known, ip, free, b, j, x);
    }
    WorkerAssembled(w1, known);
  }

  lemma BatchJob(s: State, ip: IP, free: int, b: WorkerJob, j: JobId)
    requires ip in s.nodes && BatchOk(s, ip, free, b, j)
    ensures b.jobs.Keys == {j}
  {
  }

  lemma MergedKeys(w: WorkerJob, b: WorkerJob, j: JobId)
    requires b.jobs.Keys == {j}
    ensures w.Merge(b).jobs.Keys == w.jobs.Keys + {j}
  {
  }

  lemma WorkerAssembled(w: Worker, known: Registry)
    requires Exclusive(w.job, known) && (w.job.exclusive ==> w.job.jobs.Keys != {})
    requires forall x | x in w.job.jobs :: Allowed(w, known, x) && w.job.Tasks(x) != {}
    ensures WorkerOk(w, known)
  {
    forall x | x in w.job.jobs ensures w.job.jobs[x] != {} {
      assert Allowed(w, known, x) && w.job.Tasks(x) != {};
    }
  }

  lemma MergeExclusive(w: WorkerJob, known: Registry, b: WorkerJob, j: JobId)
    requires w.Valid() && Exclusive(w, known) && j in known && b.jobs.Keys == {j}
    requires forall x | x in w.jobs :: x in known
    requires b.exclusive == known[j].exclusive
    requires known[j].exclusive || w.exclusive ==> w.jobs.Keys <= {j}
    ensures Exclusive(w.Merge(b), known)
  {
    assert w.Merge(b).jobs.Keys == w.jobs.Keys + {j};
    if w.exclusive {
      assert w.jobs.Keys == {j};
    }
  }

  lemma AssignKeeps(s: State, known: Registry, ip: IP, b: WorkerJob, j: JobId)
    requires Base(s, known, {}) && ip in s.nodes && j in s.jobs && b.jobs.Keys == {j}
    requires WorkerOk(s.nodes[ip].worker.(job := s.nodes[ip].worker.job.Merge(b)), known)
    ensures Base(Assign(s, ip, b), known, {})
  {
    hide Base, WorkerOk;
    var n := s.nodes[ip];
    var n1 := Node(n.worker.(job := n.worker.job.Merge(b)), n.busy + b.Total());
    SetNodeKeeps(s, known, {}, ip, n1);
    SetRunningKeeps(SetNode(s, ip, n1), known, {}, j, Running(s, j) + b.Total());
  }

  lemma RequestKeeps(s: State, known: Registry, order: seq<IP>)
    requires Base(s, known, {})
    ensures Base(Request(s, order).1, known, {})
  {
    RequestCases(s, order);
    hide Plan, Request, Base, WorkerOk;
    match Request(s, order).0
    case NoTask =>
    case Batch(ip, b) =>
      var free := s.nodes[ip].FreeCPU();
      PlanOk(s, ip, free);
      PlanKeeps(s, known, ip, free);
      var j :| BatchOk(s, ip, free, b, j);
      JobKnown(s, known, j);
      WorkerAt(s, known, ip);
      MergeKeeps(s, known, ip, free, b, j);
      AssignKeeps(Plan(s, ip, free).1, known, ip, b, j);
  }

  lemma JobKnown(s: State, known: Registry, j: JobId)
    requires Base(s, known, {}) && j in s.jobs
    ensures j in known && known[j] == s.jobs[j]
    ensures s.jobs.Keys <= known.Keys
  {
  }

  // ---- reports ----

  lemma SucceedTaskKeeps(s: State, known: Registry, ip: IP, j: JobId, t: TaskId)
    requires Base(s, known, {})
    ensures Base(SucceedTask(s, ip, j, t), known, {})
  {
    hide Base, DecrementExecution;
    if !(j !in s.jobs || ip !in s.nodes || !s.nodes[ip].worker.job.HasTask(j, t)) {
      var n := s.nodes[ip];
      WorkerAt(s, known, ip);
      DeleteTaskKeeps(n.worker, known, j, t);
      var n1 := Node(n.worker.(job := n.worker.job.DeleteTask(j, t)), n.busy - 1);
      SetNodeKeeps(s, known, {}, ip, n1);
      SetRunningKeeps(SetNode(s, ip, n1), known, {}, j, Running(s, j) - 1);
      DecrementKeeps(SetNode(s, ip, n1).(running := s.running[j := Running(s, j) - 1]), known, {}, j, 1);
    }
  }

  lemma WorkerAt(s: State, known: Registry, ip: IP)
    requires Base(s, known, {}) && ip in s.nodes
    ensures WorkerOk(s.nodes[ip].worker, known)
  {
  }

  lemma ChargeKeeps(s: State, known: Registry, ip: IP, j: JobId, n: int)
    requires Base(s, known, {}) && ip in s.nodes && j in s.jobs
    ensures Base(Charge(s, ip, j, n), known, {j})
  {
    hide Base, WorkerOk;
    WorkerAt(s, known, ip);
    JobKnown(s, known, j);
    AddFailedKeeps(s, known, j, ip);
    SetNodeKeeps(AddFailed(s, j, ip), known, {j}, ip, s.nodes[ip].(busy := s.nodes[ip].busy - n));
  }

  lemma DropTaskAtKeeps(s: State, known: Registry, ip: IP, j: JobId, t: TaskId)
    requires Base(s, known, {})
    ensures Base(DropTaskAt(s, ip, j, t), known, {})
  {
    hide Base, WorkerOk, WorkerJob.DeleteTask;
    if ip in s.nodes {
      WorkerAt(s, known, ip);
      var m := s.nodes[ip];
      DeleteTaskKeeps(m.worker, known, j, t);
      SetNodeKeeps(s, known, {}, ip, m.(worker := m.worker.(job := m.worker.job.DeleteTask(j, t))));
    }
  }

  lemma FailTaskKeeps(s: State, known: Registry, ip: IP, j: JobId, t: TaskId)
    requires Base(s, known, {})
    ensures Base(FailTask(s, ip, j, t), known, {})
  {
    hide Base, RescheduleOne, Charge, DropTaskAt;
    if Counts(s, ip, j) {
      ChargeKeeps(s, known, ip, j, 1);
      RescheduleOneKeeps(Charge(s, ip, j, 1), known, {j}, j, {t});
      assert {j} - {j} == {};
      DropTaskAtKeeps(RescheduleOne(Charge(s, ip, j, 1), j, {t}), known, ip, j, t);
    }
  }

  lemma FirstJobIsKey(w: WorkerJob)
    ensures w.FirstJob() >= 0 <==> w.jobs.Keys != {}
    ensures w.FirstJob() >= 0 ==> w.FirstJob() in w.jobs
  {
  }

  lemma DropFirstAtKeeps(s: State, known: Registry, ip: IP)
    requires Base(s, known, {})
    ensures Base(DropFirstAt(s, ip), known, {})
  {
    hide Base, WorkerOk;
    if ip in s.nodes {
      WorkerAt(s, known, ip);
      var m := s.nodes[ip];
      FirstJobIsKey(m.worker.job);
      if m.worker.job.FirstJob() >= 0 {
        DeleteJobKeeps(m.worker, known, m.worker.job.FirstJob());
      }
      SetNodeKeeps(s, known, {}, ip, DropFirstJob(m));
    }
  }

  lemma FailSendKeeps(s: State, known: Registry, ip: IP, batch: WorkerJob)
    requires Base(s, known, {})
    ensures Base(FailSend(s, ip, batch), known, {})
  {
    hide Base, Reschedule, Charge, DropFirstAt;
    var j := batch.FirstJob();
    if Counts(s, ip, j) {
      FirstJobIsKey(batch);
      ChargeKeeps(s, known, ip, j, batch.Total());
      FewerPending(Charge(s, ip, j, batch.Total()), known, {j}, batch.jobs.Keys);
      RescheduleKeeps(Charge(s, ip, j, batch.Total()), known, batch);
      DropFirstAtKeeps(Reschedule(Charge(s, ip, j, batch.Total()), batch), known, ip);
    }
  }
}
