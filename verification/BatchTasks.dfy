/** Where the tasks of a batch come from: a batch takes its tasks out of the reschedule list and
    out of the tasks to send of one job, and leaves everything else in place
    (src/master/scheduler.cpp:230-341). */
module BatchTasks {
  import opened Ordering
  import opened WorkerJobs
  import opened SchedulerState
  import opened BatchSelection
  import opened BatchFacts

  /** The tasks of job `j` in the reschedule list. */
  ghost function ReschedOf(q: seq<WorkerTask>, j: JobId): set<TaskId> {
    set k | k in q && k.job == j :: k.task
  }

  /** The list `q` consists of the tasks kept, the tasks still to visit and the tasks planned. */
  ghost predicate Split(q: seq<WorkerTask>, kept: seq<WorkerTask>, planned: WorkerJob) {
    && NoDuplicates(kept)
    && (forall k :: k in q <==> k in kept || planned.HasTask(k.job, k.task))
    && (forall k | k in kept :: !planned.HasTask(k.job, k.task))
  }

  lemma AddTaskHas(w: WorkerJob, j: JobId, t: TaskId, e: bool, x: JobId, u: TaskId)
    ensures w.AddTask(j, t).SetExclusive(e).HasTask(x, u) <==> w.HasTask(x, u) || (x == j && u == t)
    ensures w.AddTask(j, t).HasTask(x, u) <==> w.HasTask(x, u) || (x == j && u == t)
  {
  }

  lemma TakeSplits(q: seq<WorkerTask>, kept: seq<WorkerTask>, k: WorkerTask, rest: seq<WorkerTask>,
                   planned: WorkerJob, planned1: WorkerJob)
    requires Split(q, kept + [k] + rest, planned)
    requires forall x, u :: planned1.HasTask(x, u) <==> planned.HasTask(x, u) || (x == k.job && u == k.task)
    ensures Split(q, kept + rest, planned1)
  {
    var all, less := kept + [k] + rest, kept + rest;
    assert all[|kept|] == k;
    forall i | 0 <= i < |less| ensures less[i] != k {
      assert less[i] == all[if i < |kept| then i else i + 1];
    }
    forall i, m | 0 <= i < m < |less| ensures less[i] != less[m] {
      assert less[i] == all[if i < |kept| then i else i + 1] && less[m] == all[if m < |kept| then m else m + 1];
    }
    forall y ensures y in all <==> y in less || y == k {
    }
  }

  lemma ConsiderSplits(s: State, ip: IP, q: seq<WorkerTask>, d: Draft, k: WorkerTask, rest: seq<WorkerTask>)
    requires ip in s.nodes && Split(q, d.kept + [k] + rest, d.planned)
    ensures var d1 := Consider(s, ip, d, k);
            Split(q, d1.kept + rest, d1.planned)
  {
    hide Split, CanAdd, Admits, CountExec;
    var d1 := Consider(s, ip, d, k);
    if d1.kept == d.kept {
      forall x, u
        ensures d1.planned.HasTask(x, u) <==> d.planned.HasTask(x, u) || (x == k.job && u == k.task)
      {
        AddTaskHas(d.planned, k.job, k.task, d1.planned.exclusive, x, u);
      }
      TakeSplits(q, d.kept, k, rest, d.planned, d1.planned);
    }
  }

  lemma {:induction false} ScanSplits(s: State, ip: IP, free: int, q: seq<WorkerTask>, rest: seq<WorkerTask>, d: Draft)
    requires ip in s.nodes && Split(q, d.kept + rest, d.planned)
    ensures var r := ScanResched(s, ip, free, rest, d);
            Split(q, r.kept, r.planned)
    decreases |rest|
  {
    hide Split, Consider;
    if rest == [] {
      assert d.kept + rest == d.kept;
    } else if d.planned.Total() < free {
      assert d.kept + rest == d.kept + [rest[0]] + rest[1..];
      ConsiderSplits(s, ip, q, d, rest[0], rest[1..]);
      ScanSplits(s, ip, free, q, rest[1..], Consider(s, ip, d, rest[0]));
    }
  }

  /** `b` is `planned` with the tasks `moved` of job `j` added. */
  ghost predicate Moved(planned: WorkerJob, b: WorkerJob, j: JobId, moved: set<TaskId>) {
    forall x, u :: b.HasTask(x, u) <==> planned.HasTask(x, u) || (x == j && u in moved)
  }

  /** The inner loop moves tasks from `tasks` to the batch and leaves `left`. */
  lemma {:induction false} FillMoves(s: State, ip: IP, free: int, j: JobId, hid: int, tasks: set<TaskId>, d: Draft)
    requires ip in s.nodes && j in s.jobs
    ensures var (f, left) := Fill(s, ip, free, j, hid, tasks, d);
            && left <= tasks
            && Moved(d.planned, f.planned, j, tasks - left)
    decreases tasks
  {
    hide CanAdd, CountExec;
    if !(tasks == {} || d.planned.Total() >= free || !CanAdd(s, ip, d.planned, d.history, j)) {
      var t := Least(tasks);
      var d1 := d.(planned := d.planned.AddTask(j, t).SetExclusive(s.jobs[j].exclusive),
                   history := CountExec(d.history, hid, ip));
      FillMoves(s, ip, free, j, hid, tasks - {t}, d1);
      var (f, left) := Fill(s, ip, free, j, hid, tasks - {t}, d1);
      FillSame(s, ip, free, j, hid, tasks, d);
      forall x, u
        ensures f.planned.HasTask(x, u) <==> d.planned.HasTask(x, u) || (x == j && u in tasks - left)
      {
        AddTaskHas(d.planned, j, t, s.jobs[j].exclusive, x, u);
      }
    }
  }

  /** The inner loop takes the lowest-numbered tasks. */
  lemma {:induction false} FillTakesLowest(s: State, ip: IP, free: int, j: JobId, hid: int, tasks: set<TaskId>, d: Draft)
    requires ip in s.nodes && j in s.jobs
    ensures var left := Fill(s, ip, free, j, hid, tasks, d).1;
            left <= tasks && forall t, u | t in tasks - left && u in left :: t < u
    decreases tasks
  {
    hide CanAdd, CountExec, WorkerJob.Total, WorkerJob.AddTask;
    if !(tasks == {} || d.planned.Total() >= free || !CanAdd(s, ip, d.planned, d.history, j)) {
      var m := Least(tasks);
      FillTakesLowest(s, ip, free, j, hid, tasks - {m},
                      d.(planned := d.planned.AddTask(j, m).SetExclusive(s.jobs[j].exclusive),
                         history := CountExec(d.history, hid, ip)));
      FillSame(s, ip, free, j, hid, tasks, d);
      var left := Fill(s, ip, free, j, hid, tasks, d).1;
      forall t, u | t in tasks - left && u in left ensures t < u {
        assert t == m || t in tasks - {m} - left;
        assert u in tasks - {m};
      }
    }
  }

  /** Of the tasks to send, a batch takes the lowest-numbered ones of its job and leaves all others. */
  lemma PlanTakesLowest(s: State, ip: IP, free: int, x: JobId)
    requires ip in s.nodes
    ensures var s1 := Plan(s, ip, free).1;
            && Pending(s1, x) <= Pending(s, x)
            && forall t, u | t in Pending(s, x) - Pending(s1, x) && u in Pending(s1, x) :: t < u
  {
    hide ScanResched, FirstSuiting, Fill, PendingIn;
    var d := ScanResched(s, ip, free, s.resched, Start(s));
    FirstSuitingSuits(s, ip, d, s.queue);
    match FirstSuiting(s, ip, d, s.queue)
    case None =>
    case Some(j) =>
      FillTakesLowest(s, ip, free, j, d.planned.FirstJob(), Pending(s, j), d);
      var left := Fill(s, ip, free, j, d.planned.FirstJob(), Pending(s, j), d).1;
      PendingAfter(s, j, left, x);
  }

  lemma FillSame(s: State, ip: IP, free: int, j: JobId, hid: int, tasks: set<TaskId>, d: Draft)
    requires ip in s.nodes && j in s.jobs
    requires !(tasks == {} || d.planned.Total() >= free || !CanAdd(s, ip, d.planned, d.history, j))
    ensures var t := Least(tasks);
            Fill(s, ip, free, j, hid, tasks, d) ==
            Fill(s, ip, free, j, hid, tasks - {t},
                 d.(planned := d.planned.AddTask(j, t).SetExclusive(s.jobs[j].exclusive),
                    history := CountExec(d.history, hid, ip)))
  {
  }

  lemma SplitSets(q: seq<WorkerTask>, kept: seq<WorkerTask>, planned: WorkerJob, x: JobId)
    requires Split(q, kept, planned)
    ensures ReschedOf(kept, x) == ReschedOf(q, x) - planned.Tasks(x)
    ensures planned.Tasks(x) <= ReschedOf(q, x)
  {
    forall u | u in ReschedOf(kept, x) ensures u in ReschedOf(q, x) && u !in planned.Tasks(x) {
      assert WorkerTask(x, u) in kept;
    }
    forall u | u in planned.Tasks(x) ensures u in ReschedOf(q, x) {
      assert WorkerTask(x, u) in q;
    }
    forall u | u in ReschedOf(q, x) && u !in planned.Tasks(x) ensures u in ReschedOf(kept, x) {
      assert WorkerTask(x, u) in q;
    }
  }

  /** `s1` is `s` without the tasks of the batch `b`, which all came from the two waiting places. */
  ghost predicate Takes(s: State, b: WorkerJob, s1: State) {
    && NoDuplicates(s1.resched) && (forall k | k in s1.resched :: k in s.resched)
    && s1.toSend.Keys <= s.toSend.Keys
    && forall x: JobId ::
         && ReschedOf(s1.resched, x) == ReschedOf(s.resched, x) - b.Tasks(x)
         && PendingIn(s1.toSend, x) == PendingIn(s.toSend, x) - b.Tasks(x)
         && b.Tasks(x) <= PendingIn(s.toSend, x) + ReschedOf(s.resched, x)
  }

  ghost predicate WaitingOnce(s: State) {
    NoDuplicates(s.resched) && forall x :: PendingIn(s.toSend, x) !! ReschedOf(s.resched, x)
  }

  lemma WaitingOnceAt(s: State, x: JobId)
    requires WaitingOnce(s)
    ensures PendingIn(s.toSend, x) !! ReschedOf(s.resched, x)
  {
  }

  lemma UnfilledTakes(s: State, d: Draft, s1: State)
    requires WaitingOnce(s) && Split(s.resched, d.kept, d.planned)
    requires s1.resched == d.kept && s1.toSend == s.toSend
    ensures Takes(s, d.planned, s1)
  {
    hide ReschedOf;
    forall x: JobId
      ensures ReschedOf(s1.resched, x) == ReschedOf(s.resched, x) - d.planned.Tasks(x)
      ensures PendingIn(s1.toSend, x) == PendingIn(s.toSend, x) - d.planned.Tasks(x)
      ensures d.planned.Tasks(x) <= PendingIn(s.toSend, x) + ReschedOf(s.resched, x)
    {
      SplitSets(s.resched, d.kept, d.planned, x);
      assert PendingIn(s.toSend, x) !! ReschedOf(s.resched, x);
    }
  }

  lemma FilledTakes(s: State, d: Draft, j: JobId, left: set<TaskId>, b: WorkerJob, s1: State)
    requires WaitingOnce(s) && Split(s.resched, d.kept, d.planned)
    requires j in s.toSend && left <= s.toSend[j]
    requires Moved(d.planned, b, j, s.toSend[j] - left)
    requires s1.resched == d.kept && s1.toSend == SetPending(s, j, left).toSend
    ensures Takes(s, b, s1)
  {
    hide ReschedOf, WaitingOnce, Split, Moved, PendingIn, WorkerJob.Tasks, NoDuplicates, SetPending;
    forall x: JobId
      ensures ReschedOf(s1.resched, x) == ReschedOf(s.resched, x) - b.Tasks(x)
      ensures PendingIn(s1.toSend, x) == PendingIn(s.toSend, x) - b.Tasks(x)
      ensures b.Tasks(x) <= PendingIn(s.toSend, x) + ReschedOf(s.resched, x)
    {
      FilledTakesAt(s, d, j, left, b, s1, x);
    }
    SplitList(s.resched, d.kept, d.planned);
    SetPendingKeys(s, j, left);
  }

  lemma SetPendingKeys(s: State, j: JobId, left: set<TaskId>)
    requires j in s.toSend
    ensures SetPending(s, j, left).toSend.Keys <= s.toSend.Keys
  {
    KeysStay(s.toSend, j, left);
  }

  lemma KeysStay(m: map<JobId, set<TaskId>>, j: JobId, left: set<TaskId>)
    requires j in m
    ensures (m - {j}).Keys <= m.Keys && m[j := left].Keys == m.Keys
  {
  }

  lemma SplitList(q: seq<WorkerTask>, kept: seq<WorkerTask>, planned: WorkerJob)
    requires Split(q, kept, planned)
    ensures NoDuplicates(kept) && forall k | k in kept :: k in q
  {
  }

  lemma FilledSets(p: set<TaskId>, r: set<TaskId>, planned: set<TaskId>, left: set<TaskId>)
    requires p !! r && planned <= r && left <= p
    ensures r - planned == r - (planned + (p - left))
    ensures left == p - (planned + (p - left))
    ensures planned + (p - left) <= p + r
  {
  }

  lemma PendingAfter(s: State, j: JobId, left: set<TaskId>, x: JobId)
    ensures PendingIn(SetPending(s, j, left).toSend, x) == if x == j then left else PendingIn(s.toSend, x)
  {
    if left == {} {
      assert j !in s.toSend - {j};
      assert x != j ==> (x in s.toSend - {j} <==> x in s.toSend);
    }
  }

  lemma FilledTakesAt(s: State, d: Draft, j: JobId, left: set<TaskId>, b: WorkerJob, s1: State, x: JobId)
    requires WaitingOnce(s) && Split(s.resched, d.kept, d.planned)
    requires j in s.toSend && left <= s.toSend[j]
    requires Moved(d.planned, b, j, s.toSend[j] - left)
    requires s1.resched == d.kept && s1.toSend == SetPending(s, j, left).toSend
    ensures ReschedOf(s1.resched, x) == ReschedOf(s.resched, x) - b.Tasks(x)
    ensures PendingIn(s1.toSend, x) == PendingIn(s.toSend, x) - b.Tasks(x)
    ensures b.Tasks(x) <= PendingIn(s.toSend, x) + ReschedOf(s.resched, x)
  {
    hide ReschedOf, WaitingOnce, Split, Moved, SetPending;
    PendingAfter(s, j, left, x);
    WaitingOnceAt(s, x);
    SplitSets(s.resched, d.kept, d.planned, x);
    BatchOfTwo(d.planned, b, j, s.toSend[j] - left, x);
    var p := PendingIn(s.toSend, x);
    if x == j {
      FilledSets(p, ReschedOf(s.resched, x), d.planned.Tasks(x), left);
    } else {
      assert p - p == {};
      FilledSets(p, ReschedOf(s.resched, x), d.planned.Tasks(x), p);
    }
  }

  lemma BatchOfTwo(planned: WorkerJob, b: WorkerJob, j: JobId, moved: set<TaskId>, x: JobId)
    requires Moved(planned, b, j, moved)
    ensures b.Tasks(x) == planned.Tasks(x) + if x == j then moved else {}
  {
    forall u: TaskId ensures u in b.Tasks(x) <==> u in planned.Tasks(x) || (x == j && u in moved) {
      assert b.HasTask(x, u) <==> planned.HasTask(x, u) || (x == j && u in moved);
    }
  }

  /** The state that `GetJobForWorker` leaves lacks exactly the tasks of the batch. */
  lemma PlanTakes(s: State, ip: IP, free: int)
    requires ip in s.nodes && WaitingOnce(s)
    ensures Takes(s, Plan(s, ip, free).0, Plan(s, ip, free).1)
  {
    var d := ScanResched(s, ip, free, s.resched, Start(s));
    assert Split(s.resched, Start(s).kept + s.resched, Empty) by {
      assert [] + s.resched == s.resched;
    }
    hide Split, ScanResched, WaitingOnce, Takes, Fill, FirstSuiting, Moved;
    ScanSplits(s, ip, free, s.resched, s.resched, Start(s));
    FirstSuitingSuits(s, ip, d, s.queue);
    match FirstSuiting(s, ip, d, s.queue)
    case None => UnfilledTakes(s, d, s.(resched := d.kept, history := d.history));
    case Some(j) =>
      FillMoves(s, ip, free, j, d.planned.FirstJob(), Pending(s, j), d);
      var (f, left) := Fill(s, ip, free, j, d.planned.FirstJob(), Pending(s, j), d);
      FilledTakes(s, d, j, left, f.planned, SetPending(s, j, left).(resched := d.kept, history := f.history));
  }
}
