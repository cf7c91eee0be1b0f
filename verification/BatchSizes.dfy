/** The exact number of tasks in every batch, as a function of the state before it is chosen
    (src/master/scheduler.cpp:230-341, 739-779). */
module BatchSizes {
  import opened Ordering
  import opened WorkerJobs
  import opened SchedulerState
  import opened BatchSelection
  import opened BatchFacts
  import opened BatchTasks
  import opened Safety
  import opened BatchChoice
  import opened FailedSends
  import opened ClusterLimits
  import opened ExecutionRecords

  /** `n`, but no more than what a positive limit leaves when `used` is taken. */
  function Cap(limit: int, used: int, n: int): int {
    if limit > 0 then Min(n, limit - used) else n
  }

  /** How many tasks of job `j` the free CPUs and the limits on simultaneous tasks allow at `ip`. */
  function Room(s: State, ip: IP, j: JobId): int
    requires ip in s.nodes && j in s.jobs
  {
    var job, held := s.jobs[j], |s.nodes[ip].worker.job.Tasks(j)|;
    var n := if j in s.running then Cap(job.maxClusterInstances, s.running[j], s.nodes[ip].FreeCPU())
             else s.nodes[ip].FreeCPU();
    Cap(job.maxWorkerInstances, held, Cap(job.maxExecAtWorker, held, n))
  }

  /** The history leaves room for one execution only. */
  predicate OnlyOne(s: State, ip: IP, j: JobId)
    requires ip in s.nodes && j in s.jobs
  {
    s.jobs[j].maxExecAtWorker > 0 && NumExecAt(s.history, j, ip) + 1 >= s.jobs[j].maxExecAtWorker
  }

  /** Number of rescheduled tasks in the batch of job `j` for `ip`: they count as one execution. */
  ghost function AgainSize(s: State, ip: IP, j: JobId): int
    requires ip in s.nodes && j in s.jobs
  {
    if FirstRescheduled(s, ip, s.resched) != Some(j) then 0
    else if OnlyOne(s, ip, j) then 1
    else Min(|ReschedOf(s.resched, j)|, Room(s, ip, j))
  }

  /** Number of tasks in the batch that are sent for the first time: without a rescheduled task the
      history does not change while they are added. */
  ghost function FirstTimeSize(s: State, ip: IP, j: JobId): int
    requires ip in s.nodes && j in s.jobs
  {
    var n := Min(|Pending(s, j)|, Room(s, ip, j) - AgainSize(s, ip, j));
    if FirstRescheduled(s, ip, s.resched) != Some(j) then n
    else Cap(s.jobs[j].maxExecAtWorker, NumExecAt(s.history, j, ip) + 1, n)
  }

  ghost function BatchSize(s: State, ip: IP, j: JobId): int
    requires ip in s.nodes && j in s.jobs
  {
    AgainSize(s, ip, j) + FirstTimeSize(s, ip, j)
  }

  // ---- when a batch is full ----

  lemma RoomBounds(s: State, ip: IP, b: WorkerJob, j: JobId)
    requires ip in s.nodes && BatchOk(s, ip, s.nodes[ip].FreeCPU(), b, j)
    ensures |b.Tasks(j)| <= Room(s, ip, j)
  {
    hide Admits, MayJoin;
  }

  lemma FullIff(s: State, ip: IP, p: WorkerJob, h: History, j: JobId)
    requires ip in s.nodes && j in s.jobs && CanAdd(s, ip, Empty, s.history, j) && p.Total() == |p.Tasks(j)|
    ensures Full(s, ip, s.nodes[ip].FreeCPU(), p, h, j) <==>
            || |p.Tasks(j)| >= Room(s, ip, j)
            || (s.jobs[j].maxExecAtWorker > 0 && NumExecAt(h, j, ip) >= s.jobs[j].maxExecAtWorker)
  {
    hide WorkerJob.Total, NumExecAt, WorkerJob.FirstJob;
  }

  // ---- the rescheduled part ----

  /** Once the history has reached the limit the scan adds nothing more. */
  lemma {:induction false} ScanStuck(s: State, ip: IP, free: int, rest: seq<WorkerTask>, d: Draft, j: JobId)
    requires ip in s.nodes && j in s.jobs && d.chosen == Some(j) && s.jobs[j].maxExecAtWorker > 0
    requires NumExecAt(d.history, j, ip) >= s.jobs[j].maxExecAtWorker
    ensures ScanResched(s, ip, free, rest, d).planned == d.planned
    decreases |rest|
  {
    hide WorkerJob.Total, NumExecAt, WorkerJob.FirstJob, WorkerJob.Tasks;
    if rest != [] && d.planned.Total() < free {
      ScanStuck(s, ip, free, rest[1..], Consider(s, ip, d, rest[0]), j);
    }
  }

  lemma {:induction false} ScanOnce(s: State, ip: IP, free: int, rest: seq<WorkerTask>, d: Draft, j: JobId)
    requires ip in s.nodes && j in s.jobs && d.chosen.None? && d.planned == Empty && d.history == s.history
    requires ScanResched(s, ip, free, rest, d).chosen == Some(j) && OnlyOne(s, ip, j)
    ensures |ScanResched(s, ip, free, rest, d).planned.Tasks(j)| == 1
    decreases |rest|
  {
    hide CanAdd, Admits, WorkerJob.Total, NumExecAt, CountExec;
    var d1 := Consider(s, ip, d, rest[0]);
    if d1.chosen.Some? {
      ScanStaysChosen(s, ip, free, rest[1..], d1);
      CountExecAt(s.history, j, ip, j, ip);
      ScanStuck(s, ip, free, rest[1..], d1, j);
      assert Empty.Tasks(j) + {rest[0].task} == {rest[0].task};
    } else {
      ScanOnce(s, ip, free, rest[1..], d1, j);
    }
  }

  lemma ScanParts(s: State, ip: IP, free: int, j: JobId)
    requires ip in s.nodes && NoDuplicates(s.resched)
    ensures var d := ScanResched(s, ip, free, s.resched, Start(s));
            && ReschedOf(d.kept, j) == ReschedOf(s.resched, j) - d.planned.Tasks(j)
            && d.planned.Tasks(j) <= ReschedOf(s.resched, j)
  {
    assert Split(s.resched, Start(s).kept + s.resched, Empty) by {
      assert [] + s.resched == s.resched;
    }
    hide Split, ScanResched;
    ScanSplits(s, ip, free, s.resched, s.resched, Start(s));
    var d := ScanResched(s, ip, free, s.resched, Start(s));
    SplitSets(s.resched, d.kept, d.planned, j);
  }

  lemma NothingLeft(a: set<TaskId>, b: set<TaskId>)
    requires a <= b && b - a == {}
    ensures a == b
  {
    forall t | t in b ensures t in a {
      assert t !in b - a;
    }
  }

  /** The reschedule list gives the batch exactly so many tasks. */
  lemma AgainIs(s: State, ip: IP, j: JobId)
    requires ip in s.nodes && s.nodes[ip].FreeCPU() > 0 && j in s.jobs && NoDuplicates(s.resched)
    requires FirstRescheduled(s, ip, s.resched) == Some(j)
    ensures var d := ScanResched(s, ip, s.nodes[ip].FreeCPU(), s.resched, Start(s));
            && d.chosen == Some(j) && BatchOk(s, ip, s.nodes[ip].FreeCPU(), d.planned, j)
            && |d.planned.Tasks(j)| == AgainSize(s, ip, j)
            && NumExecAt(d.history, j, ip) == NumExecAt(s.history, j, ip) + 1
  {
    hide ScanResched, FirstRescheduled, CanAdd, Admits, ReschedOf, NumExecAt, CountExec, Room, BatchOk, Full,
         WorkerJob.Total;
    var free := s.nodes[ip].FreeCPU();
    var d := ScanResched(s, ip, free, s.resched, Start(s));
    ScanOk(s, ip, free, s.resched, Start(s));
    ScanChooses(s, ip, free, s.resched, Start(s));
    ScanRecords(s, ip, free, s.resched, Start(s));
    CountExecAt(s.history, j, ip, j, ip);
    ScanParts(s, ip, free, j);
    SubsetSize(d.planned.Tasks(j), ReschedOf(s.resched, j));
    RoomBounds(s, ip, d.planned, j);
    if OnlyOne(s, ip, j) {
      ScanOnce(s, ip, free, s.resched, Start(s), j);
    } else {
      NothingKept(j);
      ScanExhaustsFromStart(s, ip, free, s.resched, Start(s), j);
      DraftTotal(s, ip, free, d, j);
      ChosenFits(s, ip, j);
      FullIff(s, ip, d.planned, d.history, j);
      if ReschedOf(d.kept, j) == {} {
        NothingLeft(d.planned.Tasks(j), ReschedOf(s.resched, j));
      }
    }
  }

  lemma DraftTotal(s: State, ip: IP, free: int, d: Draft, j: JobId)
    requires ip in s.nodes && BatchOk(s, ip, free, d.planned, j)
    ensures d.planned.Total() == |d.planned.Tasks(j)| && d.planned.jobs.Keys == {j}
  {
    hide Admits, MayJoin, Fits, WorkerJob.Total;
    SingleJobTotal(d.planned, j);
  }

  lemma ChosenFits(s: State, ip: IP, j: JobId)
    requires ip in s.nodes && FirstRescheduled(s, ip, s.resched) == Some(j)
    ensures j in s.jobs && CanAdd(s, ip, Empty, s.history, j)
  {
    hide CanAdd, Admits;
  }

  // ---- the part that is sent for the first time ----

  /** The tasks that the loop over the queue adds to the draft `d` of the chosen job. */
  lemma FirstTimeIs(s: State, ip: IP, j: JobId, hid: int, d: Draft)
    requires ip in s.nodes && j in s.jobs && WaitingOnce(s) && CanAdd(s, ip, Empty, s.history, j)
    requires s.nodes[ip].FreeCPU() > 0
    requires (d.planned == Empty && Admits(s, ip, j)) || BatchOk(s, ip, s.nodes[ip].FreeCPU(), d.planned, j)
    requires d.planned.Tasks(j) <= ReschedOf(s.resched, j)
    requires hid == j && s.jobs[j].maxExecAtWorker > 0 ==> NumExecAt(d.history, j, ip) <= s.jobs[j].maxExecAtWorker
    requires hid != j && s.jobs[j].maxExecAtWorker > 0 ==> NumExecAt(d.history, j, ip) < s.jobs[j].maxExecAtWorker
    ensures var (f, left) := Fill(s, ip, s.nodes[ip].FreeCPU(), j, hid, Pending(s, j), d);
            var again := |d.planned.Tasks(j)|;
            var n := Min(|Pending(s, j)|, Room(s, ip, j) - again);
            |f.planned.Tasks(j)| == again +
              if hid == j then Cap(s.jobs[j].maxExecAtWorker, NumExecAt(d.history, j, ip), n) else n
  {
    hide Fill, CanAdd, Admits, ReschedOf, NumExecAt, Room, BatchOk, Full, WorkerJob.Total, Moved, WaitingOnce, PendingIn;
    var free, tasks := s.nodes[ip].FreeCPU(), Pending(s, j);
    var (f, left) := Fill(s, ip, free, j, hid, tasks, d);
    FillOk(s, ip, free, j, hid, tasks, d);
    FillMoves(s, ip, free, j, hid, tasks, d);
    BatchOfTwo(d.planned, f.planned, j, tasks - left, j);
    WaitingOnceAt(s, j);
    ApartSizes(d.planned.Tasks(j), tasks, left);
    FillExhausts(s, ip, free, j, hid, tasks, d);
    FillRecords(s, ip, free, j, hid, tasks, d, j, ip);
    if s.jobs[j].maxExecAtWorker > 0 {
      FillWithin(s, ip, free, j, hid, tasks, d);
    }
    EmptyRoom(s, ip, j);
    FilledTotal(s, ip, free, f.planned, j);
    FullIff(s, ip, f.planned, f.history, j);
    LargestNumber(|d.planned.Tasks(j)|, |tasks - left|, |tasks|, Room(s, ip, j), s.jobs[j].maxExecAtWorker,
                  NumExecAt(d.history, j, ip), hid == j);
  }

  /** `n` more tasks are within all bounds and one of the bounds is met. */
  lemma LargestNumber(again: int, n: int, tasks: int, room: int, limit: int, recorded: int, counted: bool)
    requires 0 <= n <= tasks && again + n <= room
    requires counted && limit > 0 ==> recorded + n <= limit
    requires !counted && limit > 0 ==> recorded < limit
    requires || n == tasks || again + n >= room
             || (limit > 0 && recorded + (if counted then n else 0) >= limit)
    ensures n == if counted then Cap(limit, recorded, Min(tasks, room - again)) else Min(tasks, room - again)
  {
  }

  lemma ApartSizes(a: set<TaskId>, tasks: set<TaskId>, left: set<TaskId>)
    requires left <= tasks && a !! tasks
    ensures |a + (tasks - left)| == |a| + |tasks - left| && |tasks - left| <= |tasks|
    ensures left == {} ==> |tasks - left| == |tasks|
  {
    SubsetSize(tasks - left, tasks);
    if left == {} {
      assert tasks - left == tasks;
    }
  }

  /** An eligible job finds room for one task if there is a free CPU. */
  lemma EmptyRoom(s: State, ip: IP, j: JobId)
    requires ip in s.nodes && j in s.jobs && CanAdd(s, ip, Empty, s.history, j)
    ensures s.nodes[ip].FreeCPU() > 0 ==> Room(s, ip, j) > 0
  {
    hide NumExecAt, WorkerJob.FirstJob;
  }

  lemma FilledTotal(s: State, ip: IP, free: int, b: WorkerJob, j: JobId)
    requires ip in s.nodes && (b == Empty || BatchOk(s, ip, free, b, j)) && free == s.nodes[ip].FreeCPU()
    ensures b.Total() == |b.Tasks(j)|
    ensures b == Empty || |b.Tasks(j)| <= Room(s, ip, j)
  {
    hide Room;
    if b == Empty {
      EmptyHasNoKeys();
      EmptyTotal(Empty);
    } else {
      SingleJobTotal(b, j);
      RoomBounds(s, ip, b, j);
    }
  }

  // ---- the whole batch ----

  lemma RescheduledSize(s: State, known: Registry, ip: IP, j: JobId)
    requires Base(s, known, {}) && WaitingOnce(s) && ip in s.nodes && s.nodes[ip].FreeCPU() > 0 && j in s.jobs
    requires FirstRescheduled(s, ip, s.resched) == Some(j)
    ensures |Plan(s, ip, s.nodes[ip].FreeCPU()).0.Tasks(j)| == BatchSize(s, ip, j)
  {
    hide Base, ScanResched, Fill, FirstSuiting, Suits, BatchOk, PendingIn, Admits, NumExecAt, CanAdd, AgainSize, Room,
         FirstRescheduled, ReschedOf, WorkerJob.FirstJob;
    var free := s.nodes[ip].FreeCPU();
    var d := ScanResched(s, ip, free, s.resched, Start(s));
    ListOnce(s);
    AgainIs(s, ip, j);
    ScanParts(s, ip, free, j);
    DraftJob(s, ip, free, d);
    ChosenFits(s, ip, j);
    if s.jobs[j].maxExecAtWorker > 0 {
      FitsRecorded(s, ip, j);
    }
    FirstSuitingSuits(s, ip, d, s.queue);
    match FirstSuiting(s, ip, d, s.queue)
    case None => UnfilledSize(s, known, ip, j, d);
    case Some(y) =>
      SuitsFits(s, ip, d, y);
      FirstTimeIs(s, ip, j, j, d);
  }

  lemma ListOnce(s: State)
    requires WaitingOnce(s)
    ensures NoDuplicates(s.resched)
  {
  }

  lemma FitsRecorded(s: State, ip: IP, j: JobId)
    requires ip in s.nodes && j in s.jobs && CanAdd(s, ip, Empty, s.history, j) && s.jobs[j].maxExecAtWorker > 0
    ensures NumExecAt(s.history, j, ip) < s.jobs[j].maxExecAtWorker
  {
  }

  /** If the loop over the queue adds nothing, there is nothing to add. */
  lemma UnfilledSize(s: State, known: Registry, ip: IP, j: JobId, d: Draft)
    requires Base(s, known, {}) && ip in s.nodes && j in s.jobs && d.chosen == Some(j)
    requires BatchOk(s, ip, s.nodes[ip].FreeCPU(), d.planned, j) && CanAdd(s, ip, Empty, s.history, j)
    requires NumExecAt(d.history, j, ip) == NumExecAt(s.history, j, ip) + 1
    requires s.jobs[j].maxExecAtWorker > 0 ==> NumExecAt(s.history, j, ip) < s.jobs[j].maxExecAtWorker
    requires forall y | y in s.queue && y in s.jobs :: !Suits(s, ip, d, y)
    requires FirstRescheduled(s, ip, s.resched) == Some(j) && |d.planned.Tasks(j)| == AgainSize(s, ip, j)
    ensures FirstTimeSize(s, ip, j) == 0
  {
    hide Base, CanAdd, PendingIn, NumExecAt, AgainSize, Room, FirstRescheduled, ReschedOf, Fits, MayJoin, WorkerJob.Total;
    SentHasNothing(s, known, j);
    RoomBounds(s, ip, d.planned, j);
    DraftTotal(s, ip, s.nodes[ip].FreeCPU(), d, j);
    FullIff(s, ip, d.planned, d.history, j);
    assert !Suits(s, ip, d, j);
  }

  lemma QueuedSize(s: State, known: Registry, ip: IP, j: JobId)
    requires Base(s, known, {}) && WaitingOnce(s) && ip in s.nodes && s.nodes[ip].FreeCPU() > 0 && j in s.jobs
    requires FirstRescheduled(s, ip, s.resched) == None && FirstQueued(s, ip, s.queue) == Some(j)
    ensures |Plan(s, ip, s.nodes[ip].FreeCPU()).0.Tasks(j)| == BatchSize(s, ip, j)
  {
    hide Base, ScanResched, Fill, FirstSuiting, Suits, BatchOk, PendingIn, Admits, NumExecAt, CanAdd, Room,
         FirstRescheduled, FirstQueued, ReschedOf, WorkerJob.FirstJob, DraftOk;
    var free := s.nodes[ip].FreeCPU();
    var d := ScanResched(s, ip, free, s.resched, Start(s));
    ScanOkStart(s, ip, free);
    ScanChooses(s, ip, free, s.resched, Start(s));
    ScanUnchosen(s, ip, free, s.resched, Start(s));
    DraftJob(s, ip, free, d);
    QueuedSuits(s, known, ip, d, s.queue);
    FirstSuitingSuits(s, ip, d, s.queue);
    SuitsFits(s, ip, d, j);
    if s.jobs[j].maxExecAtWorker > 0 {
      FitsRecorded(s, ip, j);
    }
    FirstTimeIs(s, ip, j, -1, d);
  }

  /** Every batch has exactly the size that the state before it says. */
  lemma BatchSizeIs(s: State, known: Registry, ip: IP, j: JobId)
    requires Base(s, known, {}) && WaitingOnce(s) && ip in s.nodes && s.nodes[ip].FreeCPU() > 0
    requires Chosen(s, ip) == Some(j)
    ensures j in s.jobs && |Plan(s, ip, s.nodes[ip].FreeCPU()).0.Tasks(j)| == BatchSize(s, ip, j)
  {
    hide Base, WaitingOnce, Plan, BatchSize, FirstRescheduled, FirstQueued;
    ChosenScheduled(s, ip);
    match FirstRescheduled(s, ip, s.resched)
    case Some(x) => RescheduledSize(s, known, ip, j);
    case None => QueuedSize(s, known, ip, j);
  }

  /** A batch consists of its rescheduled tasks and those that leave the tasks to send. */
  lemma BatchParts(s: State, ip: IP, free: int, j: JobId)
    requires WaitingOnce(s) && ip in s.nodes && Plan(s, ip, free).0.jobs.Keys == {j}
    ensures |Plan(s, ip, free).0.Tasks(j)| ==
            |Again(s, ip, free).Tasks(j)| + |Pending(s, j) - Pending(Plan(s, ip, free).1, j)|
  {
    hide ScanResched, Fill, FirstSuiting, Suits, BatchOk, PendingIn, Admits, WorkerJob.FirstJob, DraftOk, WaitingOnce,
         ReschedOf, Moved;
    var d := ScanResched(s, ip, free, s.resched, Start(s));
    ScanOkStart(s, ip, free);
    DraftJob(s, ip, free, d);
    ListOnce(s);
    ScanParts(s, ip, free, j);
    WaitingOnceAt(s, j);
    FirstSuitingSuits(s, ip, d, s.queue);
    match FirstSuiting(s, ip, d, s.queue)
    case None =>
      assert Pending(s, j) - Pending(s, j) == {};
    case Some(y) =>
      SuitsFits(s, ip, d, y);
      DraftAdmits(s, ip, free, d, y);
      FillOneJob(s, ip, free, y, d.planned.FirstJob(), Pending(s, y), d);
      FillMoves(s, ip, free, y, d.planned.FirstJob(), Pending(s, y), d);
      var (f, left) := Fill(s, ip, free, y, d.planned.FirstJob(), Pending(s, y), d);
      BatchOfTwo(d.planned, f.planned, y, Pending(s, y) - left, j);
      PendingAfter(s, y, left, j);
      ApartSizes(d.planned.Tasks(j), Pending(s, y), left);
  }
}
