/** `WorkerTask` and `WorkerJob` (src/master/worker.h, worker.cpp): the table of tasks that a
    worker holds, and also the batch that the scheduler plans for it.  Both are stored and
    copied by value, so the rest of the model uses values; the loops are methods, and `WorkerTable`
    is the object that changes in place. */
module WorkerJobs {
  import opened Ordering

  type JobId = nat
  type TaskId = nat
  type IP = string

  datatype WorkerTask = WorkerTask(job: JobId, task: TaskId)

  datatype WorkerJob = WorkerJob(jobs: map<JobId, set<TaskId>>, exclusive: bool) {

    /** No job is listed without a task: every operation below keeps this. */
    ghost predicate Valid() {
      && (forall j | j in jobs :: jobs[j] != {})
      && (exclusive ==> jobs.Keys != {})
    }

    function Tasks(j: JobId): set<TaskId> {
      if j in jobs then jobs[j] else {}
    }

    predicate HasTask(j: JobId, t: TaskId) {
      t in Tasks(j)
    }

    function AddTask(j: JobId, t: TaskId): WorkerJob {
      this.(jobs := jobs[j := Tasks(j) + {t}])
    }

    function SetExclusive(e: bool): WorkerJob {
      this.(exclusive := e)
    }

    function DeleteJob(j: JobId): WorkerJob {
      if j !in jobs then this else
        var rest := jobs - {j};
        WorkerJob(rest, exclusive && rest.Keys != {})
    }

    function DeleteTask(j: JobId, t: TaskId): WorkerJob {
      if !HasTask(j, t) then this
      else if jobs[j] == {t} then DeleteJob(j)
      else this.(jobs := jobs[j := jobs[j] - {t}])
    }

    /** The lowest-numbered job, or -1 for an empty table. */
    function FirstJob(): int {
      if jobs.Keys == {} then -1 else Least(jobs.Keys)
    }

    /** All the tasks held. */
    function Pairs(): set<WorkerTask> {
      set j, t | j in jobs && t in jobs[j] :: WorkerTask(j, t)
    }

    function Total(): nat {
      |Pairs()|
    }

    /** `operator +=`. */
    function Merge(other: WorkerJob): WorkerJob {
      WorkerJob(map j | j in jobs.Keys + other.jobs.Keys :: Tasks(j) + other.Tasks(j),
                exclusive || other.exclusive)
    }
  }

  const Empty: WorkerJob := WorkerJob(map[], false)

  lemma ImageSize(j: JobId, ts: set<TaskId>)
    ensures |set t | t in ts :: WorkerTask(j, t)| == |ts|
  {
    if ts != {} {
      var x :| x in ts;
      ImageSize(j, ts - {x});
      assert (set t | t in ts :: WorkerTask(j, t))
          == (set t | t in ts - {x} :: WorkerTask(j, t)) + {WorkerTask(j, x)};
    }
  }

  /** Dropping a job frees exactly as many tasks as it had. */
  lemma DeleteJobTotal(w: WorkerJob, j: JobId)
    ensures w.DeleteJob(j).Total() == w.Total() - |w.Tasks(j)|
  {
    var image := set t | t in w.Tasks(j) :: WorkerTask(j, t);
    ImageSize(j, w.Tasks(j));
    assert w.Pairs() == w.DeleteJob(j).Pairs() + image;
    assert w.DeleteJob(j).Pairs() !! image;
  }

  lemma DeleteTaskTotal(w: WorkerJob, j: JobId, t: TaskId)
    ensures w.DeleteTask(j, t).Total() == w.Total() - (if w.HasTask(j, t) then 1 else 0)
  {
    if w.HasTask(j, t) {
      assert w.Pairs() == w.DeleteTask(j, t).Pairs() + {WorkerTask(j, t)};
      assert WorkerTask(j, t) !in w.DeleteTask(j, t).Pairs();
    }
  }

  lemma InPairs(w: WorkerJob, k: WorkerTask)
    ensures k in w.Pairs() <==> w.HasTask(k.job, k.task)
  {
  }

  /** `+=` adds exactly the size of the batch when the tables share no task. */
  lemma MergeTotal(w: WorkerJob, other: WorkerJob)
    requires forall j :: w.Tasks(j) !! other.Tasks(j)
    ensures w.Merge(other).Total() == w.Total() + other.Total()
  {
    var m := w.Merge(other);
    forall k: WorkerTask
      ensures k in m.Pairs() <==> k in w.Pairs() + other.Pairs()
      ensures !(k in w.Pairs() && k in other.Pairs())
    {
      InPairs(m, k);
      InPairs(w, k);
      InPairs(other, k);
      assert w.Tasks(k.job) !! other.Tasks(k.job);
    }
    assert m.Pairs() == w.Pairs() + other.Pairs();
  }

  lemma SingleJobTotal(w: WorkerJob, j: JobId)
    requires w.jobs.Keys == {j}
    ensures w.Total() == |w.Tasks(j)|
  {
    ImageSize(j, w.Tasks(j));
    assert w.Pairs() == set t | t in w.Tasks(j) :: WorkerTask(j, t);
  }

  lemma EmptyTotal(w: WorkerJob)
    requires w.Valid()
    ensures w.Total() == 0 <==> w.jobs.Keys == {}
  {
    if w.jobs.Keys != {} {
      var j :| j in w.jobs;
      var t :| t in w.jobs[j];
      assert WorkerTask(j, t) in w.Pairs();
    }
  }

  function PairsOf(w: WorkerJob, keys: set<JobId>): set<WorkerTask> {
    set k | k in w.Pairs() && k.job in keys
  }

  lemma PairsOfExtended(w: WorkerJob, keys: set<JobId>, j: JobId)
    requires j !in keys
    ensures |PairsOf(w, keys + {j})| == |PairsOf(w, keys)| + |w.Tasks(j)|
  {
    var image := set t | t in w.Tasks(j) :: WorkerTask(j, t);
    ImageSize(j, w.Tasks(j));
    forall k: WorkerTask
      ensures k in PairsOf(w, keys + {j}) <==> k in PairsOf(w, keys) + image
    {
      InPairs(w, k);
    }
    assert PairsOf(w, keys + {j}) == PairsOf(w, keys) + image;
    assert PairsOf(w, keys) !! image;
  }

  /** `GetTotalNumTasks`: the accumulating loop counts the held tasks of all jobs. */
  method GetTotalNumTasks(w: WorkerJob) returns (num: nat)
    ensures num == w.Total()
  {
    num := 0;
    var rest := w.jobs.Keys;
    ghost var seen: set<JobId> := {};
    while rest != {}
      invariant rest + seen == w.jobs.Keys && rest !! seen
      invariant num == |PairsOf(w, seen)|
      decreases rest
    {
      var j := Least(rest);
      PairsOfExtended(w, seen, j);
      num := num + |w.jobs[j]|;
      rest, seen := rest - {j}, seen + {j};
    }
    assert PairsOf(w, seen) == w.Pairs();
  }

  function Put(w: WorkerJob, j: JobId, ts: set<TaskId>): WorkerJob {
    w.(jobs := w.jobs[j := w.Tasks(j) + ts])
  }

  lemma PutAdd(w: WorkerJob, j: JobId, ts: set<TaskId>, t: TaskId)
    ensures Put(w, j, ts).AddTask(j, t) == Put(w, j, ts + {t})
  {
    assert w.Tasks(j) + ts + {t} == w.Tasks(j) + (ts + {t});
  }

  method AddTasks(w: WorkerJob, j: JobId, ts: set<TaskId>) returns (r: WorkerJob)
    requires ts != {}
    ensures r == Put(w, j, ts)
  {
    var first := Least(ts);
    r := w.AddTask(j, first);
    var added: set<TaskId>, rest: set<TaskId> := {first}, ts - {first};
    while rest != {}
      invariant added + rest == ts
      invariant r == Put(w, j, added)
      decreases rest
    {
      var t := Least(rest);
      PutAdd(w, j, added, t);
      r := r.AddTask(j, t);
      added, rest := added + {t}, rest - {t};
    }
    assert added == ts;
  }

  /** The part of `+=` that is done when the jobs `rest` of `other` are still to come. */
  ghost predicate Merging(w: WorkerJob, other: WorkerJob, rest: set<JobId>, r: WorkerJob) {
    && r.exclusive == w.exclusive
    && r.jobs.Keys == w.jobs.Keys + (other.jobs.Keys - rest)
    && (forall j | j in rest :: r.Tasks(j) == w.Tasks(j))
    && (forall j | j !in rest :: r.Tasks(j) == w.Tasks(j) + other.Tasks(j))
  }

  lemma MergingStep(w: WorkerJob, other: WorkerJob, rest: set<JobId>, r: WorkerJob, j: JobId)
    requires Merging(w, other, rest, r) && j in rest && rest <= other.jobs.Keys
    ensures Merging(w, other, rest - {j}, Put(r, j, other.jobs[j]))
  {
  }

  lemma MergingDone(w: WorkerJob, other: WorkerJob, r: WorkerJob)
    requires Merging(w, other, {}, r)
    ensures r.jobs == w.Merge(other).jobs
  {
    var m := w.Merge(other);
    forall j | j in r.jobs ensures r.jobs[j] == m.jobs[j] {
      assert r.Tasks(j) == w.Tasks(j) + other.Tasks(j);
    }
  }

  /** `operator +=`: adding the other table task by task gives the merged table. */
  method AddAll(w: WorkerJob, other: WorkerJob) returns (r: WorkerJob)
    requires other.Valid()
    ensures r == w.Merge(other)
  {
    r := w;
    var rest := other.jobs.Keys;
    assert Merging(w, other, rest, r);
    while rest != {}
      invariant rest <= other.jobs.Keys
      invariant Merging(w, other, rest, r)
      decreases rest
    {
      var j := Least(rest);
      MergingStep(w, other, rest, r, j);
      r := AddTasks(r, j, other.jobs[j]);
      rest := rest - {j};
    }
    MergingDone(w, other, r);
    if other.exclusive {
      r := r.SetExclusive(true);
    }
  }

  // ---- the object ----

  /** The table of a worker as the source updates it, in place. */
  class WorkerTable {
    var jobs: map<JobId, set<TaskId>>
    var exclusive: bool

    ghost function View(): WorkerJob
      reads this
    {
      WorkerJob(jobs, exclusive)
    }

    constructor ()
      ensures View() == Empty
    {
      jobs, exclusive := map[], false;
    }

    method AddTask(j: JobId, t: TaskId)
      modifies this`jobs
      ensures View() == old(View()).AddTask(j, t)
      ensures old(View()).Valid() ==> View().Valid()
    {
      var tasks := if j in jobs then jobs[j] else {};
      jobs := jobs[j := tasks + {t}];
    }

    /** The deleted task was there; with the last task of a job the job goes, and with the last job
        the exclusive flag. */
    method DeleteTask(j: JobId, t: TaskId) returns (deleted: bool)
      modifies this
      ensures deleted == old(View()).HasTask(j, t)
      ensures View() == old(View()).DeleteTask(j, t)
      ensures old(View()).Valid() ==> View().Valid()
    {
      deleted := j in jobs && t in jobs[j];
      if deleted {
        var tasks := jobs[j] - {t};
        assert tasks == {} <==> jobs[j] == {t};
        if tasks == {} {
          var _ := DeleteJob(j);
        } else {
          jobs := jobs[j := tasks];
        }
      }
    }

    method DeleteJob(j: JobId) returns (deleted: bool)
      modifies this
      ensures deleted == (j in old(jobs))
      ensures View() == old(View()).DeleteJob(j)
      ensures old(View()).Valid() ==> View().Valid()
    {
      deleted := j in jobs;
      if deleted {
        jobs := jobs - {j};
        if jobs.Keys == {} {
          exclusive := false;
        }
      }
    }

    /** `operator +=`. */
    method Append(other: WorkerJob)
      requires other.Valid()
      modifies this
      ensures View() == old(View()).Merge(other)
      ensures old(View()).Valid() ==> View().Valid()
    {
      hide WorkerJob.Merge;
      var merged := AddAll(WorkerJob(jobs, exclusive), other);
      jobs, exclusive := merged.jobs, merged.exclusive;
      MergeValid(old(View()), other);
    }
  }

  lemma MergeValid(w: WorkerJob, other: WorkerJob)
    requires w.Valid() ==> other.Valid()
    ensures w.Valid() ==> w.Merge(other).Valid()
  {
    if w.Valid() {
      forall j | j in w.Merge(other).jobs ensures w.Merge(other).jobs[j] != {} {
        assert j in w.jobs ==> w.jobs[j] <= w.Merge(other).jobs[j];
        assert j in other.jobs ==> other.jobs[j] <= w.Merge(other).jobs[j];
      }
    }
  }
}
