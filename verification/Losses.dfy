/** A lost worker none of whose tasks goes back on the reschedule list
    (src/master/scheduler.cpp:89-130, 181-228): what such a loss leaves in every table, and exactly when
    another worker may start a task afterwards. */
module Losses {
  import opened Ordering
  import opened WorkerJobs
  import opened SchedulerState
  import opened BatchSelection
  import opened SchedulerSteps
  import opened SchedulerObject
  import opened Safety
  import opened BatchChoice
  import opened Purges
  import opened Credits

  /** The worker at `ip` is available, has a free CPU and may start a waiting task of job `j`. */
  predicate CanStart(s: State, ip: IP, j: JobId) {
    ip in s.nodes && Idle(s, ip) && Eligible(s, ip, j) && Waits(s, j)
  }

  ghost predicate Startable(s: State) {
    exists ip, j :: CanStart(s, ip, j)
  }

  predicate IsLost(s: State, ip: IP) {
    ip in s.nodes && s.nodes[ip].worker.state == NotAvailable && s.nodes[ip].busy >= 1
  }

  /** The state in which the tasks of a lost worker are rescheduled. */
  function Reset(s: State, ip: IP): State
    requires ip in s.nodes
  {
    var n := s.nodes[ip];
    SetNode(AddFailedAll(s, n.worker.job, ip), ip, Node(n.worker.(job := Empty), 0))
  }

  // ---- tables without some jobs ----

  /** What remains of a table without the jobs `p`. */
  function Less(w: WorkerJob, p: set<JobId>): WorkerJob {
    if w.jobs.Keys !! p then w else WorkerJob(w.jobs - p, w.exclusive && (w.jobs - p).Keys != {})
  }

  function LessNode(n: Node, p: set<JobId>): Node {
    Node(n.worker.(job := Less(n.worker.job, p)), n.busy - |PairsOf(n.worker.job, p)|)
  }

  lemma LessMore(w: WorkerJob, p: set<JobId>, j: JobId)
    requires j !in p
    ensures Less(w, p).DeleteJob(j) == Less(w, p + {j})
    ensures Less(w, p).Tasks(j) == w.Tasks(j)
  {
    assert (w.jobs - p) - {j} == w.jobs - (p + {j});
    if w.jobs.Keys !! p {
      assert w.jobs - {j} == w.jobs - (p + {j});
    }
  }

  lemma LessNodeMore(n: Node, p: set<JobId>, j: JobId)
    requires j !in p
    ensures DropFromNode(LessNode(n, p), j) == LessNode(n, p + {j})
  {
    hide Less, WorkerJob.DeleteJob;
    LessMore(n.worker.job, p, j);
    PairsOfExtended(n.worker.job, p, j);
    LessKeys(n.worker.job, p, j);
  }

  lemma LessKeys(w: WorkerJob, p: set<JobId>, j: JobId)
    requires j !in p
    ensures j in Less(w, p).jobs <==> j in w.jobs
    ensures j !in w.jobs ==> Less(w, p + {j}) == Less(w, p)
  {
    assert j !in w.jobs ==> w.jobs - p == w.jobs - (p + {j});
  }

  lemma LessNothing(n: Node)
    ensures LessNode(n, {}) == n
  {
    assert PairsOf(n.worker.job, {}) == {};
  }

  // ---- the rounds of a silent loss ----

  /** Of the jobs `done`, those at their failed-node limit. */
  function AtLimit(s: State, done: set<JobId>): set<JobId> {
    set j | j in done && j in s.jobs && LimitReached(s, j)
  }

  /** Of the jobs `done`, those that are removed: at the limit, or with no execution left. */
  function Ended(s: State, w: WorkerJob, done: set<JobId>): set<JobId> {
    set j | j in done && j in s.jobs && (LimitReached(s, j) || RunningIn(s.execs, j) <= |w.Tasks(j)|)
  }

  function Keys32(p: set<JobId>): set<int> {
    set j | j in p :: AsInt32(j)
  }

  /** What the rounds for `done`, none of which has listed a task, leave in the tables of job `k`. */
  ghost predicate ShedAt(s: State, t: State, w: WorkerJob, done: set<JobId>, k: JobId) {
    && FailedOf(t, k) == FailedOf(s, k) && Pending(t, k) == Pending(s, k)
    && if k in done
       then k in t.running && t.running[k] == Running(s, k) - |w.Tasks(k)|
       else && k in t.execs && k in s.execs && t.execs[k] == s.execs[k]
            && Running(t, k) == Running(s, k) && (k in t.running <==> k in s.running)
  }

  ghost predicate ShedJobs(s: State, t: State, w: WorkerJob, done: set<JobId>) {
    && t.jobs == s.jobs - Ended(s, w, done)
    && forall k | k in t.jobs :: ShedAt(s, t, w, done, k)
  }

  ghost predicate ShedRest(s: State, t: State, w: WorkerJob, done: set<JobId>) {
    && (forall x: WorkerTask | x.job in t.jobs :: x in t.resched <==> x in s.resched)
    && t.nodes == (map x | x in s.nodes :: LessNode(s.nodes[x], AtLimit(s, done)))
    && t.history == s.history - Keys32(Ended(s, w, done))
  }

  lemma EndedMore(s: State, w: WorkerJob, done: set<JobId>, j: JobId)
    requires j !in done
    ensures AtLimit(s, done + {j}) ==
            if j in s.jobs && LimitReached(s, j) then AtLimit(s, done) + {j} else AtLimit(s, done)
    ensures Ended(s, w, done + {j}) ==
            if j in s.jobs && (LimitReached(s, j) || RunningIn(s.execs, j) <= |w.Tasks(j)|)
            then Ended(s, w, done) + {j} else Ended(s, w, done)
  {
    hide LimitReached;
  }

  lemma PurgeRound(t: State, j: JobId, ts: set<TaskId>)
    requires j in t.jobs && LimitReached(t, j)
    ensures var t1 := RescheduleOne(t, j, ts);
            && t1.jobs == t.jobs - {j} && t1.execs == t.execs - {j} && t1.running == t.running - {j}
            && t1.failed == t.failed - {j} && t1.toSend == t.toSend - {j} && t1.resched == WithoutJob(t.resched, j)
            && t1.history == t.history - {AsInt32(j)}
            && t1.nodes == map x | x in t.nodes :: DropFromNode(t.nodes[x], j)
  {
    hide LimitReached, Without, WithoutJob, AsInt32, DropFromNode;
    UpdatedThenRemoved(t.running, j, Running(t, j) - |ts|);
  }

  lemma EndRound(t: State, j: JobId, ts: set<TaskId>)
    requires j in t.jobs && !LimitReached(t, j) && t.jobs[j].noReschedule && j in t.execs && t.execs[j] <= |ts|
    ensures var t1 := RescheduleOne(t, j, ts);
            && t1.jobs == t.jobs - {j} && t1.execs == t.execs - {j} && t1.running == t.running - {j}
            && t1.failed == t.failed - {j} && t1.toSend == t.toSend && t1.resched == t.resched
            && t1.history == t.history - {AsInt32(j)} && t1.nodes == t.nodes
  {
    hide LimitReached, Without, AsInt32, DecrementExecution;
    DecrementCases(t.(running := t.running[j := Running(t, j) - |ts|]), j, |ts|);
    UpdatedThenRemoved(t.running, j, Running(t, j) - |ts|);
  }

  lemma DropRound(t: State, j: JobId, ts: set<TaskId>)
    requires j in t.jobs && !LimitReached(t, j) && t.jobs[j].noReschedule && j in t.execs && t.execs[j] > |ts|
    ensures var t1 := RescheduleOne(t, j, ts);
            t1 == t.(running := t.running[j := Running(t, j) - |ts|], execs := t.execs[j := t.execs[j] - |ts|])
  {
    hide LimitReached, DecrementExecution;
    DecrementCases(t.(running := t.running[j := Running(t, j) - |ts|]), j, |ts|);
  }

  /** A round that lists no task is one of these. */
  lemma SameLimit(s: State, t: State, w: WorkerJob, done: set<JobId>, j: JobId)
    requires ShedJobs(s, t, w, done) && j !in done
    ensures j in t.jobs <==> j in s.jobs
    ensures j in t.jobs ==> t.jobs[j] == s.jobs[j] && LimitReached(t, j) == LimitReached(s, j)
    ensures j in t.jobs ==> j in t.execs && t.execs[j] == RunningIn(s.execs, j)
  {
  }

  /** The round for job `j` leaves the tables of another job alone. */
  lemma RoundOthers(t: State, j: JobId, ts: set<TaskId>, k: JobId)
    requires k != j && !Relistable(t, j, ts) && ts != {} && (j in t.jobs ==> j in t.execs)
    ensures var t1 := RescheduleOne(t, j, ts);
            && FailedOf(t1, k) == FailedOf(t, k) && Pending(t1, k) == Pending(t, k)
            && (k in t1.running <==> k in t.running) && Running(t1, k) == Running(t, k)
            && (k in t1.execs <==> k in t.execs) && RunningIn(t1.execs, k) == RunningIn(t.execs, k)
  {
    hide LimitReached, RescheduleOne, WithoutJob, AsInt32, DropFromNode;
    if j in t.jobs {
      if LimitReached(t, j) {
        PurgeRound(t, j, ts);
      } else if t.execs[j] <= |ts| {
        EndRound(t, j, ts);
      } else {
        DropRound(t, j, ts);
      }
    } else {
      UnscheduledRound(t, j, ts);
    }
  }

  lemma RoundOwn(t: State, j: JobId, ts: set<TaskId>)
    requires !Relistable(t, j, ts) && ts != {} && j in t.jobs && j in t.execs && j in RescheduleOne(t, j, ts).jobs
    ensures var t1 := RescheduleOne(t, j, ts);
            && FailedOf(t1, j) == FailedOf(t, j) && Pending(t1, j) == Pending(t, j)
            && j in t1.running && t1.running[j] == Running(t, j) - |ts|
  {
    hide LimitReached, RescheduleOne, WithoutJob, AsInt32, DropFromNode;
    if LimitReached(t, j) {
      PurgeRound(t, j, ts);
    } else if t.execs[j] <= |ts| {
      EndRound(t, j, ts);
    } else {
      DropRound(t, j, ts);
    }
  }

  /** The round for job `j` as seen by job `k`. */
  lemma RoundAt(s: State, t: State, w: WorkerJob, done: set<JobId>, j: JobId, k: JobId)
    requires ShedAt(s, t, w, done, k) && j !in done && !Relistable(t, j, w.Tasks(j)) && w.Tasks(j) != {}
    requires k in RescheduleOne(t, j, w.Tasks(j)).jobs && (j in t.jobs ==> j in t.execs)
    requires k == j ==> j in t.jobs
    ensures ShedAt(s, RescheduleOne(t, j, w.Tasks(j)), w, done + {j}, k)
  {
    hide RescheduleOne, WorkerJob.Tasks, Relistable, PendingIn, FailedIn;
    if k == j {
      RoundOwn(t, j, w.Tasks(j));
    } else {
      RoundOthers(t, j, w.Tasks(j), k);
    }
  }

  lemma RoundEnds(s: State, t: State, w: WorkerJob, done: set<JobId>, j: JobId)
    requires ShedJobs(s, t, w, done) && j !in done && !Relistable(t, j, w.Tasks(j)) && w.Tasks(j) != {}
    ensures RescheduleOne(t, j, w.Tasks(j)).jobs == s.jobs - Ended(s, w, done + {j})
    ensures RescheduleOne(t, j, w.Tasks(j)).jobs.Keys <= t.jobs.Keys
  {
    hide LimitReached, RescheduleOne, AtLimit, Ended, WithoutJob, AsInt32, DropFromNode, ShedAt;
    SameLimit(s, t, w, done, j);
    EndedMore(s, w, done, j);
    var ts := w.Tasks(j);
    if j in t.jobs {
      if LimitReached(t, j) {
        PurgeRound(t, j, ts);
      } else if t.execs[j] <= |ts| {
        EndRound(t, j, ts);
      } else {
        DropRound(t, j, ts);
      }
    } else {
      UnscheduledRound(t, j, ts);
    }
  }

  lemma RoundJobs(s: State, t: State, w: WorkerJob, done: set<JobId>, j: JobId)
    requires ShedJobs(s, t, w, done) && j !in done && !Relistable(t, j, w.Tasks(j)) && w.Tasks(j) != {}
    ensures ShedJobs(s, RescheduleOne(t, j, w.Tasks(j)), w, done + {j})
  {
    hide RescheduleOne, Ended, ShedAt, Relistable;
    RoundEnds(s, t, w, done, j);
    SameLimit(s, t, w, done, j);
    forall k | k in RescheduleOne(t, j, w.Tasks(j)).jobs
      ensures ShedAt(s, RescheduleOne(t, j, w.Tasks(j)), w, done + {j}, k)
    {
      RoundAt(s, t, w, done, j, k);
    }
  }

  lemma UnscheduledRound(t: State, j: JobId, ts: set<TaskId>)
    requires j !in t.jobs
    ensures RescheduleOne(t, j, ts) == t
  {
  }

  lemma LessNodesMore(nodes: map<IP, Node>, p: set<JobId>, j: JobId)
    requires j !in p
    ensures var t := map x | x in nodes :: LessNode(nodes[x], p);
            (map x | x in t :: DropFromNode(t[x], j)) == (map x | x in nodes :: LessNode(nodes[x], p + {j}))
  {
    hide LessNode, DropFromNode;
    forall x | x in nodes ensures DropFromNode(LessNode(nodes[x], p), j) == LessNode(nodes[x], p + {j}) {
      LessNodeMore(nodes[x], p, j);
    }
  }

  lemma Keys32More(h: History, p: set<JobId>, j: JobId)
    ensures h - Keys32(p) - {AsInt32(j)} == h - Keys32(p + {j})
  {
    hide AsInt32;
    assert Keys32(p + {j}) == Keys32(p) + {AsInt32(j)};
  }

  lemma RoundRest(s: State, t: State, w: WorkerJob, done: set<JobId>, j: JobId)
    requires ShedJobs(s, t, w, done) && ShedRest(s, t, w, done)
    requires j !in done && !Relistable(t, j, w.Tasks(j)) && w.Tasks(j) != {}
    ensures ShedRest(s, RescheduleOne(t, j, w.Tasks(j)), w, done + {j})
  {
    hide ShedAt, LimitReached, RescheduleOne, LessNode, AsInt32, DropFromNode, Keys32, Ended, AtLimit, Pending;
    SameLimit(s, t, w, done, j);
    EndedMore(s, w, done, j);
    AtLimitDone(s, done, j);
    var ts := w.Tasks(j);
    Keys32More(s.history, Ended(s, w, done), j);
    LessNodesMore(s.nodes, AtLimit(s, done), j);
    if j in t.jobs {
      if LimitReached(t, j) {
        PurgeRound(t, j, ts);
      } else if t.execs[j] <= |ts| {
        EndRound(t, j, ts);
      } else {
        DropRound(t, j, ts);
      }
    } else {
      UnscheduledRound(t, j, ts);
    }
  }

  lemma AtLimitDone(s: State, done: set<JobId>, j: JobId)
    requires j !in done
    ensures j !in AtLimit(s, done)
  {
  }

  lemma {:induction false} SilentRounds(s: State, t: State, w: WorkerJob, done: set<JobId>, ids: seq<JobId>)
    requires ShedJobs(s, t, w, done) && ShedRest(s, t, w, done) && !Relists(t, w, ids)
    requires NoDuplicates(ids) && (forall j | j in ids :: j !in done && w.Tasks(j) != {})
    ensures var t1 := RescheduleFrom(t, w, ids);
            ShedJobs(s, t1, w, done + SetOf(ids)) && ShedRest(s, t1, w, done + SetOf(ids))
    decreases |ids|
  {
    hide ShedJobs, ShedRest, RescheduleOne, Relistable;
    if ids == [] {
      assert done + SetOf(ids) == done;
    } else {
      var j := ids[0];
      RoundJobs(s, t, w, done, j);
      RoundRest(s, t, w, done, j);
      forall k | k in ids[1..] ensures k !in done + {j} {
        var i :| 1 <= i < |ids| && ids[i] == k;
      }
      SilentRounds(s, RescheduleOne(t, j, w.Tasks(j)), w, done + {j}, ids[1..]);
      assert done + {j} + SetOf(ids[1..]) == done + SetOf(ids) by {
        assert ids == [j] + ids[1..];
      }
    }
  }

  // ---- when a loss is silent ----

  /** No task of the worker at `ip` comes back to the list: each of its scheduled jobs reaches its
      failed-node limit with this worker or is never rescheduled. */
  predicate Silent(s: State, ip: IP)
    requires ip in s.nodes
  {
    forall j | j in s.nodes[ip].worker.job.jobs && j in s.jobs :: HitsAt(s, ip, j) || s.jobs[j].noReschedule
  }

  lemma {:induction false} SomeRelisted(s: State, w: WorkerJob, ids: seq<JobId>, j: JobId)
    requires j in ids && j in s.jobs && !LimitReached(s, j) && !s.jobs[j].noReschedule && w.Tasks(j) != {}
    ensures Relists(s, w, ids)
    decreases |ids|
  {
    hide LimitReached, RescheduleOne;
    if ids[0] != j {
      OtherRound(s, ids[0], w.Tasks(ids[0]), j);
      RescheduleOneJobs(s, ids[0], w.Tasks(ids[0]), j);
      SomeRelisted(RescheduleOne(s, ids[0], w.Tasks(ids[0])), w, ids[1..], j);
    }
  }

  lemma {:induction false} NoneRelisted(s: State, w: WorkerJob, ids: seq<JobId>)
    requires NoDuplicates(ids) && forall j | j in ids && j in s.jobs :: LimitReached(s, j) || s.jobs[j].noReschedule
    ensures !Relists(s, w, ids)
    decreases |ids|
  {
    hide LimitReached, RescheduleOne;
    if ids != [] {
      var s1 := RescheduleOne(s, ids[0], w.Tasks(ids[0]));
      forall j | j in ids[1..] && j in s1.jobs ensures LimitReached(s1, j) || s1.jobs[j].noReschedule {
        RescheduleOneJobs(s, ids[0], w.Tasks(ids[0]), j);
        assert j != ids[0] && j in ids;
        OtherRound(s, ids[0], w.Tasks(ids[0]), j);
      }
      NoneRelisted(s1, w, ids[1..]);
    }
  }

  lemma ResetLimit(s: State, ip: IP, j: JobId)
    requires ip in s.nodes && j in s.nodes[ip].worker.job.jobs && j in s.jobs
    ensures j in Reset(s, ip).jobs && Reset(s, ip).jobs[j] == s.jobs[j]
    ensures LimitReached(Reset(s, ip), j) == HitsAt(s, ip, j)
  {
  }

  lemma HoldsSome(s: State, known: Registry, ip: IP, j: JobId)
    requires Base(s, known, {}) && ip in s.nodes && j in s.nodes[ip].worker.job.jobs
    ensures s.nodes[ip].worker.job.Tasks(j) != {}
  {
    hide Base;
    WorkerAt(s, known, ip);
  }

  lemma ResetJobs(s: State, ip: IP)
    requires ip in s.nodes
    ensures Reset(s, ip).jobs == s.jobs && Reset(s, ip).execs == s.execs
    ensures ChangeWorkerState(s, ip) ==
            if IsLost(s, ip) then Reschedule(Reset(s, ip), s.nodes[ip].worker.job) else s
  {
    hide Reschedule;
  }

  /** `RescheduleJob` reports a task put back exactly if the loss is not silent. */
  lemma SilentIff(s: State, known: Registry, ip: IP)
    requires Base(s, known, {}) && ip in s.nodes
    ensures var w := s.nodes[ip].worker.job;
            Relists(Reset(s, ip), w, Ascending(w.jobs.Keys)) <==> !Silent(s, ip)
  {
    hide Base, Relists, LimitReached, HitsAt, Reset;
    var w := s.nodes[ip].worker.job;
    ResetJobs(s, ip);
    forall j | j in w.jobs && j in s.jobs ensures LimitReached(Reset(s, ip), j) == HitsAt(s, ip, j) {
      ResetLimit(s, ip, j);
    }
    if Silent(s, ip) {
      NoneRelisted(Reset(s, ip), w, Ascending(w.jobs.Keys));
    } else {
      var j :| j in w.jobs && j in s.jobs && !HitsAt(s, ip, j) && !s.jobs[j].noReschedule;
      HoldsSome(s, known, ip, j);
      SomeRelisted(Reset(s, ip), w, Ascending(w.jobs.Keys), j);
    }
  }

  // ---- what may be started after a silent loss ----

  /** The jobs that the loss of the worker at `ip` takes to their failed-node limit. */
  function Purgees(s: State, ip: IP): set<JobId>
    requires ip in s.nodes
  {
    set j | j in s.nodes[ip].worker.job.jobs && HitsAt(s, ip, j)
  }

  /** The jobs that a silent loss removes: those, and the ones whose last executions are written off. */
  function Goners(s: State, ip: IP): set<JobId>
    requires ip in s.nodes
  {
    var w := s.nodes[ip].worker.job;
    set j | j in w.jobs && j in s.jobs && (HitsAt(s, ip, j) || RunningIn(s.execs, j) <= |w.Tasks(j)|)
  }

  /** The four tests of `CanAddTaskToWorker` as they come out after the loss: the jobs at their limit are
      off the table, the running count is lower by the lost tasks, and the history of every removed job
      is erased. */
  predicate FitsAfterLoss(s: State, ip: IP, x: IP, k: JobId)
    requires ip in s.nodes && x in s.nodes && k in s.jobs
  {
    var job, w, held := s.jobs[k], s.nodes[ip].worker.job, Less(s.nodes[x].worker.job, Purgees(s, ip));
    && (job.exclusive || held.exclusive ==> |held.jobs| <= 1 && (held.FirstJob() == -1 || held.FirstJob() == k))
    && (job.maxWorkerInstances > 0 ==> |held.Tasks(k)| < job.maxWorkerInstances)
    && (job.maxClusterInstances > 0 && (k in w.jobs || k in s.running) ==>
          Running(s, k) - |w.Tasks(k)| < job.maxClusterInstances)
    && (job.maxExecAtWorker > 0 ==>
          && NumExecAt(s.history - Keys32(Goners(s, ip)), k, x) < job.maxExecAtWorker
          && |held.Tasks(k)| < job.maxExecAtWorker)
  }

  /** Before a silent loss of the worker at `ip`: the worker at `x` may start a task of job `k` after it. */
  predicate StartsAfterLoss(s: State, ip: IP, x: IP, k: JobId)
    requires ip in s.nodes
  {
    && x in s.nodes && x != ip && s.nodes[x].worker.IsAvailable()
    && s.nodes[x].FreeCPU() + |PairsOf(s.nodes[x].worker.job, Purgees(s, ip))| > 0
    && k in s.jobs && k !in Goners(s, ip) && Waits(s, k) && Admits(s, x, k) && FitsAfterLoss(s, ip, x, k)
  }

  lemma ResetSets(s: State, ip: IP)
    requires ip in s.nodes
    ensures var w := s.nodes[ip].worker.job;
            && AtLimit(Reset(s, ip), w.jobs.Keys) == Purgees(s, ip)
            && Ended(Reset(s, ip), w, w.jobs.Keys) == Goners(s, ip)
  {
    hide LimitReached, HitsAt, Reset;
    ResetJobs(s, ip);
    var w := s.nodes[ip].worker.job;
    forall j | j in w.jobs && j in s.jobs ensures LimitReached(Reset(s, ip), j) == HitsAt(s, ip, j) {
      ResetLimit(s, ip, j);
    }
    forall j ensures HitsAt(s, ip, j) ==> j in s.jobs {
      HitsScheduled(s, ip, j);
    }
  }

  lemma HitsScheduled(s: State, ip: IP, j: JobId)
    ensures HitsAt(s, ip, j) ==> j in s.jobs
  {
  }

  /** All tables after a silent loss. */
  lemma LossSheds(s: State, known: Registry, ip: IP)
    requires Base(s, known, {}) && IsLost(s, ip) && Silent(s, ip)
    ensures var w := s.nodes[ip].worker.job;
            && ShedJobs(Reset(s, ip), ChangeWorkerState(s, ip), w, w.jobs.Keys)
            && ShedRest(Reset(s, ip), ChangeWorkerState(s, ip), w, w.jobs.Keys)
  {
    hide Base, Silent, Reset, Relists, ShedJobs, ShedRest, RescheduleFrom, ChangeWorkerState;
    var w := s.nodes[ip].worker.job;
    ResetJobs(s, ip);
    SilentIff(s, known, ip);
    ExecsKnown(s, known);
    ShedNothing(Reset(s, ip), w);
    forall j | j in Ascending(w.jobs.Keys) ensures w.Tasks(j) != {} {
      HoldsSome(s, known, ip, j);
    }
    SilentRounds(Reset(s, ip), Reset(s, ip), w, {}, Ascending(w.jobs.Keys));
    assert {} + SetOf(Ascending(w.jobs.Keys)) == w.jobs.Keys;
  }

  lemma ExecsKnown(s: State, known: Registry)
    requires Base(s, known, {})
    ensures s.execs.Keys == s.jobs.Keys
  {
    hide QueueOk, SentOk, FiledOk, FailedLimit, WorkersOk;
  }

  lemma ShedNothing(s: State, w: WorkerJob)
    requires s.execs.Keys == s.jobs.Keys
    ensures ShedJobs(s, s, w, {}) && ShedRest(s, s, w, {})
  {
    hide LimitReached, LessNode;
    forall x | x in s.nodes ensures LessNode(s.nodes[x], {}) == s.nodes[x] {
      LessNothing(s.nodes[x]);
    }
    assert AtLimit(s, {}) == {} && Ended(s, w, {}) == {} && Keys32({}) == {};
  }

  /** The tables after a silent loss, read off at one node and one job. */
  lemma LossAt(s: State, known: Registry, ip: IP, x: IP, k: JobId)
    requires Base(s, known, {}) && IsLost(s, ip) && Silent(s, ip)
    ensures var t, w := ChangeWorkerState(s, ip), s.nodes[ip].worker.job;
            && (x in t.nodes <==> x in s.nodes)
            && (x in s.nodes && x != ip ==> t.nodes[x] == LessNode(s.nodes[x], Purgees(s, ip)))
            && ip in t.nodes && t.nodes[ip].worker.state == NotAvailable
            && (k in t.jobs <==> k in s.jobs && k !in Goners(s, ip)) && t.history == s.history - Keys32(Goners(s, ip))
            && (k in t.jobs ==> t.jobs[k] == s.jobs[k] && ShedAt(Reset(s, ip), t, w, w.jobs.Keys, k))
            && (k in t.jobs ==> forall y: WorkerTask | y.job == k :: y in t.resched <==> y in s.resched)
  {
    hide Base, Silent, ChangeWorkerState, AtLimit, Ended, Purgees, Goners, Keys32, ShedAt, Less;
    LossSheds(s, known, ip);
    ResetSets(s, ip);
  }

  lemma LossFits(s: State, t: State, ip: IP, x: IP, k: JobId)
    requires ip in s.nodes && x in s.nodes && x in t.nodes && k in s.jobs && k in t.jobs && t.jobs[k] == s.jobs[k]
    requires t.nodes[x] == LessNode(s.nodes[x], Purgees(s, ip)) && t.history == s.history - Keys32(Goners(s, ip))
    requires var w := s.nodes[ip].worker.job; ShedAt(Reset(s, ip), t, w, w.jobs.Keys, k)
    ensures CanAdd(t, x, Empty, t.history, k) == FitsAfterLoss(s, ip, x, k)
  {
    hide Less, Purgees, Goners, Keys32, PairsOf, WorkerJob.FirstJob, NumExecAt;
    assert Empty.Tasks(k) == {};
  }

  lemma LossAdmits(s: State, t: State, ip: IP, x: IP, k: JobId)
    requires ip in s.nodes && x in s.nodes && x in t.nodes && k in s.jobs && k in t.jobs && t.jobs[k] == s.jobs[k]
    requires x != ip && t.nodes[x].worker == s.nodes[x].worker.(job := t.nodes[x].worker.job)
    requires FailedOf(t, k) == FailedOf(Reset(s, ip), k)
    ensures Admits(t, x, k) == Admits(s, x, k)
  {
  }

  /** Job `k` may be started at `x` after a silent loss if and only if the state before says so. */
  lemma LossStartsAt(s: State, known: Registry, ip: IP, x: IP, k: JobId)
    requires Base(s, known, {}) && IsLost(s, ip) && Silent(s, ip)
    ensures CanStart(ChangeWorkerState(s, ip), x, k) <==> StartsAfterLoss(s, ip, x, k)
  {
    hide Base, Silent, ChangeWorkerState, Purgees, Goners, Keys32, Less, PairsOf, CanAdd, Admits, FitsAfterLoss, Reset;
    LossAt(s, known, ip, x, k);
    var t := ChangeWorkerState(s, ip);
    if x in s.nodes && x != ip && k in t.jobs {
      LossFits(s, t, ip, x, k);
      LossAdmits(s, t, ip, x, k);
      ResetPending(s, ip, k);
    }
  }

  lemma ResetPending(s: State, ip: IP, k: JobId)
    requires ip in s.nodes
    ensures Pending(Reset(s, ip), k) == Pending(s, k)
  {
  }

  /** After a silent loss some worker may start a task if and only if the state before the loss says so. */
  lemma LossStartsIff(s: State, known: Registry, ip: IP)
    requires Base(s, known, {}) && IsLost(s, ip) && Silent(s, ip)
    ensures Startable(ChangeWorkerState(s, ip)) <==> exists x, k :: StartsAfterLoss(s, ip, x, k)
  {
    hide Base, Silent, ChangeWorkerState, CanStart, StartsAfterLoss;
    forall x, k ensures CanStart(ChangeWorkerState(s, ip), x, k) <==> StartsAfterLoss(s, ip, x, k) {
      LossStartsAt(s, known, ip, x, k);
    }
  }
}
