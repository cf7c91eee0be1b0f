/** A job limited to one execution per worker that gets two on the same host: a batch without a
    rescheduled task is recorded under job number -1 (src/master/scheduler.cpp:284, 325, 768-777). */
module Repeats {
  import opened SchedulerState
  import opened SchedulerRuns
  import opened ExecutionLimits
  import opened Incidents
  import opened LateSend

  /** There is a sound run after which host "a" has been handed two executions of a scheduled job that is
      limited to one, and none is recorded. */
  lemma LimitOfOneGetsTwo()
    ensures exists es ::
              && Leads(es, After(Boot, es)) && 0 in After(Boot, es).s.jobs
              && After(Boot, es).s.jobs[0].maxExecAtWorker == 1 && Handed(es, 0, "a") == 2
              && NumExecAt(After(Boot, es).s.history, 0, "a") == 0
  {
    hide Leads, After, Handed;
    var es, b, t, u := Prepare();
  }
}
