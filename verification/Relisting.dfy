/** The order of the reschedule list (src/master/scheduler.cpp:181-279, 649-692): no step lets a task
    overtake another that waits already, and the tasks that a step puts back stand behind all others in
    ascending order. */
module Relisting {
  import opened Ordering
  import opened WorkerJobs
  import opened SchedulerState
  import opened BatchSelection
  import opened BatchFacts
  import opened SchedulerSteps
  import opened Losses

  // ---- leaving entries out ----

  /** The entries of `a` are those of `b` at the ascending positions `f`. */
  ghost predicate Embeds(a: seq<WorkerTask>, b: seq<WorkerTask>, f: seq<nat>) {
    && |f| == |a|
    && (forall i | 0 <= i < |f| :: f[i] < |b| && a[i] == b[f[i]])
    && (forall i, k | 0 <= i < k < |f| :: f[i] < f[k])
  }

  /** `a` is `b` with some entries left out and the others in their order. */
  ghost predicate Thins(a: seq<WorkerTask>, b: seq<WorkerTask>) {
    exists f :: Embeds(a, b, f)
  }

  lemma ThinsItself(b: seq<WorkerTask>)
    ensures Thins(b, b) && Thins([], b)
  {
    var f: seq<nat> := seq(|b|, i => i);
    assert Embeds(b, b, f) && Embeds([], b, []);
  }

  lemma ThinsTwice(a: seq<WorkerTask>, b: seq<WorkerTask>, c: seq<WorkerTask>)
    requires Thins(a, b) && Thins(b, c)
    ensures Thins(a, c)
  {
    var f :| Embeds(a, b, f);
    var g :| Embeds(b, c, g);
    var h: seq<nat> := seq(|a|, i requires 0 <= i < |a| => g[f[i]]);
    assert Embeds(a, c, h);
  }

  lemma ThinsJoined(a: seq<WorkerTask>, b: seq<WorkerTask>, c: seq<WorkerTask>, d: seq<WorkerTask>)
    requires Thins(a, b) && Thins(c, d)
    ensures Thins(a + c, b + d)
  {
    var f :| Embeds(a, b, f);
    var g :| Embeds(c, d, g);
    var h: seq<nat> := f + seq(|g|, i requires 0 <= i < |g| => |b| + g[i]);
    assert Embeds(a + c, b + d, h);
  }

  lemma {:induction false} WithoutJobThins(q: seq<WorkerTask>, j: JobId)
    ensures Thins(WithoutJob(q, j), q)
  {
    hide Thins;
    ThinsItself(q);
    if q != [] {
      WithoutJobThins(q[1..], j);
      ThinsItself([q[0]]);
      assert q == [q[0]] + q[1..];
      ThinsJoined(if q[0].job == j then [] else [q[0]], [q[0]], WithoutJob(q[1..], j), q[1..]);
    }
  }

  lemma {:induction false} WithoutJobJoined(a: seq<WorkerTask>, b: seq<WorkerTask>, j: JobId)
    ensures WithoutJob(a + b, j) == WithoutJob(a, j) + WithoutJob(b, j)
  {
    hide WithoutJob;
    if a == [] {
      assert a + b == b;
      assert WithoutJob(a, j) == [] by {
        NothingWithout(j);
      }
    } else {
      WithoutJobJoined(a[1..], b, j);
      WithoutJobFirst(a + b, j);
      WithoutJobFirst(a, j);
      assert (a + b)[1..] == a[1..] + b;
    }
  }

  lemma WithoutJobFirst(q: seq<WorkerTask>, j: JobId)
    requires q != []
    ensures WithoutJob(q, j) == (if q[0].job == j then [] else [q[0]]) + WithoutJob(q[1..], j)
  {
  }

  lemma NothingWithout(j: JobId)
    ensures WithoutJob([], j) == []
  {
  }

  // ---- what a step adds ----

  /** Ascending by job and, within a job, by task. */
  ghost predicate InOrder(q: seq<WorkerTask>) {
    forall i, k | 0 <= i < k < |q| :: q[i].job < q[k].job || (q[i].job == q[k].job && q[i].task < q[k].task)
  }

  lemma ThinInOrder(a: seq<WorkerTask>, b: seq<WorkerTask>)
    requires Thins(a, b) && InOrder(b)
    ensures InOrder(a)
  {
    var f :| Embeds(a, b, f);
  }

  /** `q1` is `q` with some entries left out, followed by new ones in order. */
  ghost predicate Queues(q: seq<WorkerTask>, kept: seq<WorkerTask>, added: seq<WorkerTask>, q1: seq<WorkerTask>) {
    q1 == kept + added && Thins(kept, q) && InOrder(added)
  }

  lemma RoundQueues(q: seq<WorkerTask>, t: State, j: JobId, ts: set<TaskId>, kept: seq<WorkerTask>, added: seq<WorkerTask>)
    returns (kept1: seq<WorkerTask>, added1: seq<WorkerTask>)
    requires Queues(q, kept, added, t.resched) && forall k | k in added :: k.job < j
    ensures Queues(q, kept1, added1, RescheduleOne(t, j, ts).resched) && forall k | k in added1 :: k.job <= j
  {
    hide Thins, InOrder, WithoutJob, LimitReached, RescheduleOne, TaskList, Ascending;
    RoundList(t, j, ts);
    kept1, added1 := kept, added;
    if j in t.jobs {
      if LimitReached(t, j) {
        kept1, added1 := WithoutJob(kept, j), WithoutJob(added, j);
        WithoutJobJoined(kept, added, j);
        WithoutJobThins(kept, j);
        WithoutJobThins(added, j);
        ThinsTwice(kept1, kept, q);
        ThinInOrder(added1, added);
      } else if !t.jobs[j].noReschedule {
        added1 := added + TaskList(j, Ascending(ts));
        AddedInOrder(added, j, ts);
        assert kept + added1 == kept + added + TaskList(j, Ascending(ts));
      }
    }
  }

  lemma RoundList(t: State, j: JobId, ts: set<TaskId>)
    ensures RescheduleOne(t, j, ts).resched ==
            if j !in t.jobs then t.resched
            else if LimitReached(t, j) then WithoutJob(t.resched, j)
            else if t.jobs[j].noReschedule then t.resched
            else t.resched + TaskList(j, Ascending(ts))
  {
    hide LimitReached, WithoutJob, Without, DropFromNode, AsInt32, TaskList, Ascending, DecrementExecution;
    DecrementList(t.(running := t.running[j := Running(t, j) - |ts|]), j, |ts|);
  }

  lemma AddedInOrder(added: seq<WorkerTask>, j: JobId, ts: set<TaskId>)
    requires InOrder(added) && forall k | k in added :: k.job < j
    ensures InOrder(added + TaskList(j, Ascending(ts))) && forall k | k in TaskList(j, Ascending(ts)) :: k.job == j
  {
    var q := Ascending(ts);
    var list := TaskList(j, q);
    hide Ascending, TaskList;
    var all := added + list;
    forall i, k | 0 <= i < k < |all|
      ensures all[i].job < all[k].job || (all[i].job == all[k].job && all[i].task < all[k].task)
    {
      if i < |added| {
        assert all[i] == added[i] && added[i] in added;
        assert k >= |added| ==> all[k] == list[k - |added|];
      } else {
        assert all[i] == list[i - |added|] && all[k] == list[k - |added|];
        assert q[i - |added|] < q[k - |added|];
      }
    }
  }

  lemma DecrementList(t: State, j: JobId, n: nat)
    ensures DecrementExecution(t, j, n).resched == t.resched
  {
    hide Without, AsInt32;
  }

  lemma {:induction false} RoundsQueue(q: seq<WorkerTask>, t: State, w: WorkerJob, ids: seq<JobId>, kept: seq<WorkerTask>,
                                       added: seq<WorkerTask>)
    returns (kept1: seq<WorkerTask>, added1: seq<WorkerTask>)
    requires Queues(q, kept, added, t.resched) && (forall i, k | 0 <= i < k < |ids| :: ids[i] < ids[k])
    requires forall k, j | k in added && j in ids :: k.job < j
    ensures Queues(q, kept1, added1, RescheduleFrom(t, w, ids).resched)
    decreases |ids|
  {
    hide Queues, RescheduleOne;
    kept1, added1 := kept, added;
    if ids != [] {
      forall k | k in added ensures k.job < ids[0] {
        assert ids[0] in ids;
      }
      kept1, added1 := RoundQueues(q, t, ids[0], w.Tasks(ids[0]), kept, added);
      forall j | j in ids[1..] ensures ids[0] < j {
        var i :| 1 <= i < |ids| && ids[i] == j;
      }
      kept1, added1 := RoundsQueue(q, RescheduleOne(t, ids[0], w.Tasks(ids[0])), w, ids[1..], kept1, added1);
    }
  }

  lemma NothingAdded(q: seq<WorkerTask>)
    ensures Queues(q, q, [], q)
  {
    ThinsItself(q);
  }

  lemma RescheduleQueues(t: State, w: WorkerJob) returns (kept: seq<WorkerTask>, added: seq<WorkerTask>)
    ensures Queues(t.resched, kept, added, Reschedule(t, w).resched)
  {
    hide Queues, RescheduleFrom;
    NothingAdded(t.resched);
    kept, added := RoundsQueue(t.resched, t, w, Ascending(w.jobs.Keys), t.resched, []);
  }

  // ---- requests ----

  lemma {:induction false} ScanThins(s: State, ip: IP, free: int, rest: seq<WorkerTask>, d: Draft)
    returns (r: seq<WorkerTask>)
    requires ip in s.nodes
    ensures ScanResched(s, ip, free, rest, d).kept == d.kept + r && Thins(r, rest)
    decreases |rest|
  {
    hide Thins, CanAdd, Admits, CountExec, WorkerJob.Total;
    ThinsItself(rest);
    if rest == [] {
      r := [];
    } else if d.planned.Total() >= free {
      r := rest;
    } else {
      var d1 := Consider(s, ip, d, rest[0]);
      var r1 := ScanThins(s, ip, free, rest[1..], d1);
      var head := if d1.kept == d.kept then [] else [rest[0]];
      assert d1.kept == d.kept + head by {
        assert d.kept + [rest[0]] != d.kept;
      }
      ThinsItself([rest[0]]);
      ThinsJoined(head, [rest[0]], r1, rest[1..]);
      assert rest == [rest[0]] + rest[1..];
      r := head + r1;
      assert d.kept + head + r1 == d.kept + r;
    }
  }

  lemma PlanThins(s: State, ip: IP, free: int)
    requires ip in s.nodes
    ensures Thins(Plan(s, ip, free).1.resched, s.resched)
  {
    hide Thins, ScanResched, FirstSuiting, Fill;
    FirstSuitingSuits(s, ip, ScanResched(s, ip, free, s.resched, Start(s)), s.queue);
    var r := ScanThins(s, ip, free, s.resched, Start(s));
    assert [] + r == r;
  }

  lemma RequestThins(s: State, order: seq<IP>)
    ensures Thins(Request(s, order).1.resched, s.resched)
  {
    hide Thins, Plan, Request, Idle;
    RequestCases(s, order);
    match Request(s, order).0
    case NoTask => ThinsItself(s.resched);
    case Batch(ip, b) => PlanThins(s, ip, s.nodes[ip].FreeCPU());
  }

  // ---- every step ----

  /** After every step the reschedule list is the one before it, with some entries left out and the others
      in their order, followed by the tasks put back in ascending order; a request puts none back. */
  lemma StepQueues(s: State, e: Event) returns (kept: seq<WorkerTask>, added: seq<WorkerTask>)
    ensures Queues(s.resched, kept, added, Next(s, e).resched) && (e.TaskRequested? ==> added == [])
  {
    hide Thins, InOrder, Reschedule, RescheduleOne, Without, WithoutJob, DropFromNode, Request, DecrementExecution,
         WorkerJob.FirstJob, WorkerJob.Total, Inserted, AsInt32;
    NothingAdded(s.resched);
    kept, added := s.resched, [];
    match e
    case WorkerStateChanged(ip) =>
      if IsLost(s, ip) {
        kept, added := RescheduleQueues(Reset(s, ip), s.nodes[ip].worker.job);
      }
    case NodeDeleted(ip) =>
      if ip in s.nodes {
        var w := s.nodes[ip].worker.job;
        kept, added := RescheduleQueues(AddFailedAll(s, w, ip).(nodes := s.nodes - {ip}), w);
      }
    case SendFailed(ip, b) =>
      if Counts(s, ip, b.FirstJob()) {
        kept, added := RescheduleQueues(Charge(s, ip, b.FirstJob(), b.Total()), b);
      }
    case TaskFailed(ip, j, t) => kept, added := FailTaskQueues(s, ip, j, t);
    case TaskTimedOut(ip, j, t) =>
      if ip in s.nodes && s.nodes[ip].worker.job.HasTask(j, t) {
        kept, added := FailTaskQueues(s, ip, j, t);
      }
    case TaskSucceeded(ip, j, t) => SucceedList(s, ip, j, t);
    case JobStopped(j) =>
      if j in s.jobs {
        WithoutJobThins(s.resched, j);
        kept := WithoutJob(s.resched, j);
      }
    case TaskRequested(order) =>
      RequestThins(s, order);
      kept := Request(s, order).1.resched;
    case _ =>
  }

  lemma FailTaskQueues(s: State, ip: IP, j: JobId, t: TaskId) returns (kept: seq<WorkerTask>, added: seq<WorkerTask>)
    ensures Queues(s.resched, kept, added, FailTask(s, ip, j, t).resched)
  {
    hide Queues, RescheduleOne;
    NothingAdded(s.resched);
    kept, added := s.resched, [];
    if Counts(s, ip, j) {
      kept, added := RoundQueues(s.resched, Charge(s, ip, j, 1), j, {t}, s.resched, []);
    }
  }

  lemma SucceedList(s: State, ip: IP, j: JobId, t: TaskId)
    ensures SucceedTask(s, ip, j, t).resched == s.resched
  {
    hide DecrementExecution, WorkerJob.DeleteTask;
    if j in s.jobs && ip in s.nodes && s.nodes[ip].worker.job.HasTask(j, t) {
      var n := s.nodes[ip];
      DecrementList(SetNode(s, ip, Node(n.worker.(job := n.worker.job.DeleteTask(j, t)), n.busy - 1))
                    .(running := s.running[j := Running(s, j) - 1]), j, 1);
    }
  }
}
