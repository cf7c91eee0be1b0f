/** The limit on executions of a job at one worker, over whole runs (src/master/scheduler.cpp:230-341,
    768-777).  The limit is compared with a history that misses some of the executions: how far the
    history falls behind, and exactly which runs keep the limit. */
module ExecutionLimits {
  import opened WorkerJobs
  import opened SchedulerState
  import opened BatchSelection
  import opened BatchFacts
  import opened BatchTasks
  import opened SchedulerSteps
  import opened Safety
  import opened Conservation
  import opened SchedulerRuns
  import opened BatchChoice
  import opened JobRuns
  import Whereabouts
  import opened Losses
  import opened ClusterLimits
  import opened ExecutionRecords
  import opened BatchSizes

  /** Number of tasks of job `j` that the step hands to the worker at `ip`. */
  function HandedBy(s: State, e: Event, j: JobId, ip: IP): nat {
    if !e.TaskRequested? then 0 else
      match Request(s, e.order).0
      case NoTask => 0
      case Batch(x, b) => if x == ip then |b.Tasks(j)| else 0
  }

  /** Number of executions of job `j` at `ip` along a run from the start, sent again or for the first
      time. */
  function Handed(es: seq<Event>, j: JobId, ip: IP): nat {
    if es == [] then 0 else
      var p := es[..|es| - 1];
      Handed(p, j, ip) + HandedBy(After(Boot, p).s, es[|es| - 1], j, ip)
  }

  // ---- how far the history falls behind ----

  /** The executions of job `j` at `ip` that the step hands out without recording them, or whose record
      it erases with that of a removed job of the same 32-bit number. */
  function Missed(s: State, e: Event, j: JobId, ip: IP): int {
    if e.TaskRequested? then
      match Request(s, e.order).0
      case NoTask => 0
      case Batch(x, b) =>
        if x == ip && ip in s.nodes && j in b.jobs
        then |b.Tasks(j)| - Counted(s, ip, s.nodes[ip].FreeCPU(), j, j, ip) else 0
    else if j as int in Keys32(s.jobs.Keys - Next(s, e).jobs.Keys) then NumExecAt(s.history, j, ip) else 0
  }

  function Missing(es: seq<Event>, j: JobId, ip: IP): int {
    if es == [] then 0 else
      var p := es[..|es| - 1];
      Missing(p, j, ip) + Missed(After(Boot, p).s, es[|es| - 1], j, ip)
  }

  lemma StepLedger(r: Trace, e: Event, j: JobId, ip: IP)
    ensures HandedBy(r.s, e, j, ip) ==
            NumExecAt(Advance(r, e).s.history, j, ip) - NumExecAt(r.s.history, j, ip) + Missed(r.s, e, j, ip)
  {
    hide Next, NumExecAt, Cut, Keys32, Request, Plan;
    if e.TaskRequested? {
      RequestRecords(r.s, e.order, j, ip);
      RequestAdvances(r, e.order);
    } else {
      StepCut(r.s, e);
      CutRecorded(r.s, Advance(r, e).s, j, ip);
    }
  }

  /** Over every run, the executions of a job at a host are those recorded plus those missed. */
  lemma {:induction false} LedgerOverRuns(es: seq<Event>, j: JobId, ip: IP)
    ensures Handed(es, j, ip) == NumExecAt(After(Boot, es).s.history, j, ip) + Missing(es, j, ip)
    decreases |es|
  {
    hide Advance, HandedBy, Missed, NumExecAt;
    if es == [] {
      NothingRecorded(j, ip);
    } else {
      LedgerOverRuns(es[..|es| - 1], j, ip);
      StepLedger(After(Boot, es[..|es| - 1]), es[|es| - 1], j, ip);
    }
  }

  lemma NothingRecorded(j: JobId, ip: IP)
    ensures NumExecAt(Boot.s.history, j, ip) == 0
  {
  }

  /** What a request hands to `ip` and does not record: all of a batch without a rescheduled task, and
      otherwise every rescheduled task but one. */
  lemma MissedIs(s: State, known: Registry, order: seq<IP>, j: JobId, ip: IP)
    requires Base(s, known, {}) && Conserved(s, map[])
    requires Receiver(s, order) == Some(ip) && Chosen(s, ip) == Some(j) && j in s.jobs
    ensures Missed(s, TaskRequested(order), j, ip) ==
            if FirstRescheduled(s, ip, s.resched) == Some(j) then AgainSize(s, ip, j) - 1 else BatchSize(s, ip, j)
  {
    hide Base, Conserved, WaitingOnce, Plan, Request, Chosen, AgainSize, FirstTimeSize, Receiver, Idle, FirstRescheduled,
         ScanResched, PendingIn, BatchOk, NumExecAt, CanAdd;
    var free := s.nodes[ip].FreeCPU();
    RequestIs(s, known, order);
    WaitingOnceHolds(s);
    ListOnce(s);
    IdleFree(s, ip);
    BatchSizeIs(s, known, ip, j);
    BatchParts(s, ip, free, j);
    ScanOkStart(s, ip, free);
    ScanChooses(s, ip, free, s.resched, Start(s));
    DraftJob(s, ip, free, ScanResched(s, ip, free, s.resched, Start(s)));
    if FirstRescheduled(s, ip, s.resched) == Some(j) {
      AgainIs(s, ip, j);
    } else {
      ChosenFromQueue(s, ip, j);
    }
  }

  lemma ChosenFromQueue(s: State, ip: IP, j: JobId)
    requires ip in s.nodes && Chosen(s, ip) == Some(j) && FirstRescheduled(s, ip, s.resched) != Some(j)
    ensures FirstRescheduled(s, ip, s.resched) == None
  {
    hide FirstRescheduled;
  }

  // ---- the limit itself ----

  /** Before the request: the batch planned for the worker that it serves takes the executions of job `j`
      at `ip` beyond the limit. */
  predicate Overruns(s: State, order: seq<IP>, handed: nat, j: JobId, ip: IP) {
    && Receiver(s, order) == Some(ip) && Chosen(s, ip) == Some(j) && j in s.jobs
    && 0 < s.jobs[j].maxExecAtWorker < handed + |Plan(s, ip, s.nodes[ip].FreeCPU()).0.Tasks(j)|
  }

  /** While the tables add up, the size of that batch is a number that the tables give. */
  lemma OverrunsIff(s: State, known: Registry, order: seq<IP>, handed: nat, j: JobId, ip: IP)
    requires Base(s, known, {}) && Conserved(s, map[])
    ensures Overruns(s, order, handed, j, ip) <==>
            && Receiver(s, order) == Some(ip) && Chosen(s, ip) == Some(j) && j in s.jobs
            && 0 < s.jobs[j].maxExecAtWorker < handed + BatchSize(s, ip, j)
  {
    hide Base, Conserved, WaitingOnce, Plan, Chosen, BatchSize, Receiver, Idle;
    if Receiver(s, order) == Some(ip) && Chosen(s, ip) == Some(j) {
      WaitingOnceHolds(s);
      IdleFree(s, ip);
      BatchSizeIs(s, known, ip, j);
    }
  }

  /** A request hands tasks of job `j` to `ip` exactly if they are the ones chosen. */
  lemma HandedIs(s: State, known: Registry, order: seq<IP>, j: JobId, ip: IP)
    requires Base(s, known, {})
    ensures HandedBy(s, TaskRequested(order), j, ip) ==
            if Receiver(s, order) == Some(ip) && Chosen(s, ip) == Some(j)
            then |Plan(s, ip, s.nodes[ip].FreeCPU()).0.Tasks(j)| else 0
  {
    hide Base, Plan, Request, Chosen, Receiver, Idle;
    RequestIs(s, known, order);
  }

  predicate Within(es: seq<Event>, j: JobId, ip: IP) {
    var s := After(Boot, es).s;
    j in s.jobs && s.jobs[j].maxExecAtWorker > 0 ==> Handed(es, j, ip) <= s.jobs[j].maxExecAtWorker
  }

  predicate AlwaysWithin(es: seq<Event>, j: JobId, ip: IP) {
    Within(es, j, ip) && (es == [] || AlwaysWithin(es[..|es| - 1], j, ip))
  }

  predicate NoOverrun(es: seq<Event>, j: JobId, ip: IP) {
    es == [] ||
    var p, e := es[..|es| - 1], es[|es| - 1];
    && NoOverrun(p, j, ip)
    && (e.TaskRequested? ==> !Overruns(After(Boot, p).s, e.order, Handed(p, j, ip), j, ip))
  }

  /** Nothing of a job is handed out before it is planned. */
  lemma {:induction false} UnknownUnhanded(es: seq<Event>, j: JobId, ip: IP)
    requires PossibleRun(Boot, es) && j !in After(Boot, es).known
    ensures Handed(es, j, ip) == 0
    decreases |es|
  {
    hide Base, Advance, Possible, HandedBy;
    if es != [] {
      var p := es[..|es| - 1];
      BootIsSafe();
      RunKeeps(Boot, p);
      KnownStays(After(Boot, p), es[|es| - 1], j);
      UnknownUnhanded(p, j, ip);
      UnknownNotHanded(After(Boot, p).s, After(Boot, p).known, es[|es| - 1], j, ip);
    }
  }

  lemma KnownStays(r: Trace, e: Event, j: JobId)
    ensures j in r.known ==> j in Advance(r, e).known
  {
    hide Next, Request;
  }

  lemma UnknownNotHanded(s: State, known: Registry, e: Event, j: JobId, ip: IP)
    requires Base(s, known, {}) && j !in known
    ensures HandedBy(s, e, j, ip) == 0
  {
    hide Base, Plan, Request, Admits, MayJoin, Fits;
    if e.TaskRequested? {
      ScheduledKnown(s, known);
      RequestFacts(s, e.order);
    }
  }

  lemma StepWithinIff(es: seq<Event>, p: seq<Event>, j: JobId, ip: IP)
    requires es != [] && p == es[..|es| - 1] && PossibleRun(Boot, es) && Within(p, j, ip)
    ensures Within(es, j, ip) <==>
            !(es[|es| - 1].TaskRequested? &&
              Overruns(After(Boot, p).s, es[|es| - 1].order, Handed(p, j, ip), j, ip))
  {
    hide Base, Advance, Possible, HandedBy, Plan, Receiver, Chosen, Next;
    var r, e := After(Boot, p), es[|es| - 1];
    BootIsSafe();
    RunKeeps(Boot, p);
    if e.TaskRequested? {
      HandedIs(r.s, r.known, e.order, j, ip);
      RequestFacts(r.s, e.order);
      RequestAdvances(r, e.order);
    } else {
      OthersHandNothing(r.s, e, j, ip);
      if j in Advance(r, e).s.jobs {
        if j in r.s.jobs {
          Whereabouts.SameJob(r, e, j);
        } else if j in r.known {
          GoneStaysGone(r, e, j);
        } else {
          UnknownUnhanded(p, j, ip);
        }
      }
    }
  }

  lemma OthersHandNothing(s: State, e: Event, j: JobId, ip: IP)
    requires !e.TaskRequested?
    ensures HandedBy(s, e, j, ip) == 0
  {
  }

  /** A run keeps the limit on executions of job `j` at `ip` throughout if and only if none of its requests
      overruns it, judged in the state before the request. */
  lemma {:induction false} ExecutionLimitIff(es: seq<Event>, j: JobId, ip: IP)
    requires PossibleRun(Boot, es)
    ensures AlwaysWithin(es, j, ip) <==> NoOverrun(es, j, ip)
    decreases |es|
  {
    hide Within, Overruns, Possible, Handed, After;
    if es == [] {
      NothingYet(j, ip);
    } else {
      var p := es[..|es| - 1];
      ExecutionLimitIff(p, j, ip);
      if AlwaysWithin(p, j, ip) {
        StepWithinIff(es, p, j, ip);
      }
    }
  }

  lemma NothingYet(j: JobId, ip: IP)
    ensures Within([], j, ip)
  {
  }
}
