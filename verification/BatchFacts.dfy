/** What every batch satisfies, whatever the state: it belongs to one job, the job is admitted
    on the worker, and the limits that `CanAddTaskToWorker` tests before each task hold of the
    finished batch. */
module BatchFacts {
  import opened Ordering
  import opened WorkerJobs
  import opened SchedulerState
  import opened BatchSelection

  /** `n` planned tasks of job `j` on `ip` stay within every positive limit. */
  ghost predicate Fits(s: State, ip: IP, j: JobId, n: nat)
    requires ip in s.nodes && j in s.jobs
  {
    var job, held := s.jobs[j], |s.nodes[ip].worker.job.Tasks(j)|;
    && (job.maxWorkerInstances > 0 ==> held + n <= job.maxWorkerInstances)
    && (job.maxExecAtWorker > 0 ==> held + n <= job.maxExecAtWorker)
    && (job.maxClusterInstances > 0 && j in s.running ==> s.running[j] + n <= job.maxClusterInstances)
  }

  /** Job `j` may share the worker's table: an exclusive job, on either side, is alone. */
  ghost predicate MayJoin(s: State, ip: IP, j: JobId)
    requires ip in s.nodes && j in s.jobs
  {
    var held := s.nodes[ip].worker.job;
    s.jobs[j].exclusive || held.exclusive ==> held.jobs.Keys <= {j}
  }

  ghost predicate BatchOk(s: State, ip: IP, free: int, w: WorkerJob, j: JobId)
    requires ip in s.nodes
  {
    && j in s.jobs
    && w.jobs.Keys == {j} && w.jobs[j] != {}
    && w.exclusive == s.jobs[j].exclusive
    && |w.Tasks(j)| <= free
    && Admits(s, ip, j) && MayJoin(s, ip, j) && Fits(s, ip, j, |w.Tasks(j)|)
  }

  ghost predicate DraftOk(s: State, ip: IP, free: int, d: Draft)
    requires ip in s.nodes
  {
    match d.chosen
    case None => d.planned == Empty
    case Some(j) => BatchOk(s, ip, free, d.planned, j)
  }

  lemma OneKey(m: map<JobId, set<TaskId>>, j: JobId)
    requires |m| <= 1 && m.Keys != {} ==> j in m
    ensures |m| <= 1 ==> m.Keys <= {j}
  {
    if |m| <= 1 {
      forall x | x in m.Keys ensures x == j {
        if x != j {
          assert {x, j} <= m.Keys;
          assert |{x, j}| == 2;
          SubsetSize({x, j}, m.Keys);
        }
      }
    }
  }

  lemma CanAddJoins(s: State, ip: IP, planned: WorkerJob, h: History, j: JobId)
    requires ip in s.nodes && j in s.jobs && CanAdd(s, ip, planned, h, j)
    ensures MayJoin(s, ip, j)
  {
    var held := s.nodes[ip].worker.job;
    if s.jobs[j].exclusive || held.exclusive {
      if held.jobs.Keys != {} {
        OneKey(held.jobs, j);
      }
    }
  }

  /** One more task keeps the batch within what `CanAdd` has just tested. */
  lemma AddedOk(s: State, ip: IP, free: int, w: WorkerJob, h: History, j: JobId, t: TaskId)
    requires ip in s.nodes && j in s.jobs && CanAdd(s, ip, w, h, j)
    requires (w == Empty && Admits(s, ip, j)) || BatchOk(s, ip, free, w, j)
    requires w.Total() < free
    ensures BatchOk(s, ip, free, w.AddTask(j, t).SetExclusive(s.jobs[j].exclusive), j)
  {
    CanAddJoins(s, ip, w, h, j);
    if w == Empty {
      assert w.Tasks(j) + {t} == {t};
    } else {
      SingleJobTotal(w, j);
      assert |w.Tasks(j) + {t}| <= |w.Tasks(j)| + 1;
    }
  }

  lemma ConsiderOk(s: State, ip: IP, free: int, d: Draft, k: WorkerTask)
    requires ip in s.nodes && DraftOk(s, ip, free, d) && d.planned.Total() < free
    ensures DraftOk(s, ip, free, Consider(s, ip, d, k))
  {
    if k.job in s.jobs && CanAdd(s, ip, d.planned, d.history, k.job) {
      if d.chosen == Some(k.job) || (d.chosen.None? && Admits(s, ip, k.job)) {
        AddedOk(s, ip, free, d.planned, d.history, k.job, k.task);
      }
    }
  }

  lemma {:induction false} ScanOk(s: State, ip: IP, free: int, rest: seq<WorkerTask>, d: Draft)
    requires ip in s.nodes && DraftOk(s, ip, free, d)
    ensures DraftOk(s, ip, free, ScanResched(s, ip, free, rest, d))
    decreases |rest|
  {
    if rest != [] && d.planned.Total() < free {
      ConsiderOk(s, ip, free, d, rest[0]);
      ScanOk(s, ip, free, rest[1..], Consider(s, ip, d, rest[0]));
    }
  }

  lemma {:induction false} FillOk(s: State, ip: IP, free: int, j: JobId, hid: int, tasks: set<TaskId>, d: Draft)
    requires ip in s.nodes && j in s.jobs
    requires (d.planned == Empty && Admits(s, ip, j)) || BatchOk(s, ip, free, d.planned, j)
    ensures var (f, left) := Fill(s, ip, free, j, hid, tasks, d);
            && (f.planned == Empty || BatchOk(s, ip, free, f.planned, j))
            && left <= tasks
            && (f.planned == Empty ==> f == d && left == tasks)
    decreases tasks
  {
    if !(tasks == {} || d.planned.Total() >= free || !CanAdd(s, ip, d.planned, d.history, j)) {
      var t := Least(tasks);
      AddedOk(s, ip, free, d.planned, d.history, j, t);
      var d1 := d.(planned := d.planned.AddTask(j, t).SetExclusive(s.jobs[j].exclusive),
                   history := CountExec(d.history, hid, ip));
      FillOk(s, ip, free, j, hid, tasks - {t}, d1);
      FillGrows(s, ip, free, j, hid, tasks - {t}, d1);
    }
  }

  lemma {:induction false} FillGrows(s: State, ip: IP, free: int, j: JobId, hid: int, tasks: set<TaskId>, d: Draft)
    requires ip in s.nodes && j in s.jobs
    ensures var (f, left) := Fill(s, ip, free, j, hid, tasks, d);
            && d.planned.jobs.Keys <= f.planned.jobs.Keys
            && f.chosen == d.chosen && f.kept == d.kept
    decreases tasks
  {
    if !(tasks == {} || d.planned.Total() >= free || !CanAdd(s, ip, d.planned, d.history, j)) {
      var t := Least(tasks);
      FillGrows(s, ip, free, j, hid, tasks - {t},
                d.(planned := d.planned.AddTask(j, t).SetExclusive(s.jobs[j].exclusive),
                   history := CountExec(d.history, hid, ip)));
    }
  }

  lemma {:induction false} FirstSuitingSuits(s: State, ip: IP, d: Draft, q: seq<JobId>)
    requires ip in s.nodes
    ensures match FirstSuiting(s, ip, d, q)
            case Some(j) => j in q && j in s.jobs && Suits(s, ip, d, j)
            case None => forall j | j in q && j in s.jobs :: !Suits(s, ip, d, j)
    decreases |q|
  {
    if q != [] && !(q[0] in s.jobs && Suits(s, ip, d, q[0])) {
      FirstSuitingSuits(s, ip, d, q[1..]);
    }
  }

  /** A scan that chooses nothing leaves the list and the history as they were. */
  lemma {:induction false} ScanUnchosen(s: State, ip: IP, free: int, rest: seq<WorkerTask>, d: Draft)
    requires ip in s.nodes && d.chosen.None?
    ensures var r := ScanResched(s, ip, free, rest, d);
            r.chosen.None? ==> r == d.(kept := d.kept + rest)
    decreases |rest|
  {
    if rest != [] && d.planned.Total() < free {
      var d1 := Consider(s, ip, d, rest[0]);
      if d1.chosen.None? {
        ScanUnchosen(s, ip, free, rest[1..], d1);
        assert d.kept + rest == d.kept + [rest[0]] + rest[1..];
      } else {
        ScanStaysChosen(s, ip, free, rest[1..], d1);
      }
    }
  }

  lemma {:induction false} ScanStaysChosen(s: State, ip: IP, free: int, rest: seq<WorkerTask>, d: Draft)
    requires ip in s.nodes && d.chosen.Some?
    ensures ScanResched(s, ip, free, rest, d).chosen == d.chosen
    decreases |rest|
  {
    if rest != [] && d.planned.Total() < free {
      ScanStaysChosen(s, ip, free, rest[1..], Consider(s, ip, d, rest[0]));
    }
  }

  /** The fields that choosing a batch may change. */
  ghost predicate OnlyQueues(s: State, s1: State) {
    s1 == s.(toSend := s1.toSend, sent := s1.sent, resched := s1.resched, history := s1.history)
  }

  ghost function Start(s: State): Draft {
    Draft(Empty, [], s.history, None)
  }

  /** What `GetJobForWorker` may give back: nothing at all, or tasks of one admitted job. */
  ghost predicate PlanResult(s: State, ip: IP, free: int, b: WorkerJob, s1: State)
    requires ip in s.nodes
  {
    && OnlyQueues(s, s1)
    && (b.jobs.Keys == {} ==> b == Empty && s1 == s)
    && (b.jobs.Keys != {} ==> exists j :: BatchOk(s, ip, free, b, j))
  }

  lemma PlanUnfilled(s: State, ip: IP, free: int, d: Draft)
    requires ip in s.nodes && DraftOk(s, ip, free, d)
    requires d.chosen.None? ==> d == Start(s).(kept := s.resched)
    ensures PlanResult(s, ip, free, d.planned, s.(resched := d.kept, history := d.history))
  {
    if d.chosen.Some? {
      assert BatchOk(s, ip, free, d.planned, d.chosen.value);
    }
  }

  lemma SetPendingSame(s: State, j: JobId)
    requires Pending(s, j) != {}
    ensures SetPending(s, j, Pending(s, j)) == s
  {
    assert s.toSend[j := s.toSend[j]] == s.toSend;
  }

  lemma PlanFilled(s: State, ip: IP, free: int, d: Draft, j: JobId, hid: int)
    requires ip in s.nodes && DraftOk(s, ip, free, d) && j in s.jobs && Suits(s, ip, d, j)
    requires d.chosen.None? ==> d == Start(s).(kept := s.resched)
    ensures var (f, left) := Fill(s, ip, free, j, hid, Pending(s, j), d);
            PlanResult(s, ip, free, f.planned, SetPending(s, j, left).(resched := d.kept, history := f.history))
  {
    hide Fill, CanAdd, Fits, MayJoin;
    FillOk(s, ip, free, j, hid, Pending(s, j), d);
    FillGrows(s, ip, free, j, hid, Pending(s, j), d);
    var (f, left) := Fill(s, ip, free, j, hid, Pending(s, j), d);
    if f.planned == Empty {
      SetPendingSame(s, j);
    } else {
      assert BatchOk(s, ip, free, f.planned, j);
    }
  }

  /** `GetJobForWorker` hands out the tasks of a single admitted job within all limits, or
      nothing, and then it changes nothing. */
  lemma PlanOk(s: State, ip: IP, free: int)
    requires ip in s.nodes
    ensures PlanResult(s, ip, free, Plan(s, ip, free).0, Plan(s, ip, free).1)
  {
    var d := ScanResched(s, ip, free, s.resched, Start(s));
    ScanOk(s, ip, free, s.resched, Start(s));
    ScanUnchosen(s, ip, free, s.resched, Start(s));
    assert Start(s).kept + s.resched == s.resched;
    FirstSuitingSuits(s, ip, d, s.queue);
    match FirstSuiting(s, ip, d, s.queue)
    case None => PlanUnfilled(s, ip, free, d);
    case Some(j) => PlanFilled(s, ip, free, d, j, d.planned.FirstJob());
  }

  /** The outcomes of `GetTaskToSend`: a batch planned for one idle node of `order` and
      assigned to it, or no change because no idle node of `order` gets a batch. */
  lemma {:induction false} RequestCases(s: State, order: seq<IP>)
    ensures match Request(s, order).0
            case Batch(ip, b) =>
              && ip in order && ip in s.nodes && Idle(s, ip)
              && b.jobs.Keys != {}
              && Plan(s, ip, s.nodes[ip].FreeCPU()).0 == b
              && ip in Plan(s, ip, s.nodes[ip].FreeCPU()).1.nodes
              && Request(s, order).1 == Assign(Plan(s, ip, s.nodes[ip].FreeCPU()).1, ip, b)
            case NoTask =>
              && Request(s, order).1 == s
              && forall ip | ip in order && ip in s.nodes && Idle(s, ip) ::
                   Plan(s, ip, s.nodes[ip].FreeCPU()).0.jobs.Keys == {}
    decreases |order|
  {
    if order != [] {
      var ip := order[0];
      if ip in s.nodes && Idle(s, ip) {
        PlanOk(s, ip, s.nodes[ip].FreeCPU());
        if Plan(s, ip, s.nodes[ip].FreeCPU()).0.jobs.Keys == {} {
          RequestCases(s, order[1..]);
        }
      } else {
        RequestCases(s, order[1..]);
      }
    }
  }
}
