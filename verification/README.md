# prun: a verified model of the master's scheduling core

prun runs the tasks of jobs on a cluster of worker hosts. This project models the parts of its
master that keep the books, and the descriptor pool of its worker, and proves what those parts keep
over every run.

* **Scheduler** (`src/master/scheduler.cpp` with its tables). A state value, one step function per
  public method and a class whose methods, loops included, are proved to take exactly these steps.
  Steps may come in any order: reports may be duplicated, late or about unknown jobs, hosts may
  appear, vanish and come back. A run is a sequence of steps from the empty scheduler. All results
  assume of the rest of the master that a job number is planned once and that a worker handed to
  `OnHostAppearance` is the one known under its address or holds nothing (`SchedulerRuns.Possible`);
  the results about task and CPU accounts also assume that a failed send is about tasks of one job, as
  every batch handed out is (`SchedulerRuns.BatchRun`). `MetaJobs` proves the first of these
  assumptions for jobs that come from the queue.
* **Meta-jobs and the job queue** (`job.cpp`, `job_manager.cpp`). The depth-first cycle check, the
  dependency counters, the delayed set, the heap and the index by number, over every order of
  pushes, pops, completions and deletions; then the queue and the scheduler together.
* **Two concurrent protocols**: the descriptor pool behind its semaphore, and the wake-up of the
  sender thread, under every interleaving of their atomic sections; then the sender and the scheduler
  together.
* **The cron queue** with lazy cancellation, as a refinement of an eager table.

Some laws are false of the scheduler as it is written. For each there is the exact condition under
which it holds, and a short run from the start that breaks it (in `Incidents`, `LateSend`, `Repeats`
and `SilentStart`):

* A failure report for a task that the host does not hold lists the task twice
  (`src/master/scheduler.cpp:504-516`). A failed send deletes the lowest-numbered job of the worker
  instead of the job that was sent, because the local variable at line 422 hides the parameter; and a
  late one loses the running task and brings a finished one back while all counters still agree.
  `Whereabouts.ConservationOverRuns` gives the exact condition, step by step, for task conservation.
* A failure report or a failed send that reaches a job's failed-node limit releases CPUs twice (lines
  201 and 674). `Whereabouts.AccountingOverRuns` gives the exact condition for tasks and CPUs.
* The first batch of a job is not subject to its cluster limit (line 760).
  `ClusterLimits.ClusterLimitIff` gives the exact condition, with the size of that batch.
* The history behind `max_exec_at_worker` (`doc/README:78-80`) misses executions: a batch without a
  rescheduled task is recorded under job number -1 (lines 284 and 325), and the rescheduled tasks of a
  batch count as one (line 269). `ExecutionLimits.ExecutionLimitIff` gives the exact condition.
* The loss of a worker notifies the sender only if a task was put back on the list (lines 116-121), so
  the sender may sleep although another worker could start a task. `Dispatch.CoveredIff` gives the
  exact condition; its condition on the state before the loss is that of `Losses.LossStartsIff`.

Reading order for the scheduler: `SchedulerState`, `BatchSelection`, `SchedulerSteps` (the model);
`Safety`, `Rows`, `Conservation`, `FailureReports`, `FailedSends`, `CpuAccounting` (one step);
`SchedulerRuns`, `Submissions`, `Directory`, `JobRuns`, `Purges`, `Removals`, `Credits`, `Whereabouts`, `Incidents`,
`LateSend` (runs); `BatchChoice`, `ClusterLimits`, `BatchSizes` (what the choice of a batch achieves);
`Relisting` (the order of rescheduled tasks);
`ExecutionRecords`, `ExecutionLimits`, `Repeats` (executions per worker); `Scheduler`, `Sweeps` (the
object); `Losses`, `Dispatch`, `SilentStart`, `MetaJobs` (with the sender, with the job queue).
`dafny verify dfyconfig.toml` checks the whole project.

## Model

| member | source | states |
|---|---|---|
| SchedulerRuns.SafetyOverRuns | src/master/scheduler.cpp:181-386 | over every run, with no assumption about what workers report: an exclusive job is alone on its worker, the flag is set exactly on workers with an exclusive job and clear on empty ones, the worker's host and group are outside the job's blacklists and, where there are lists, inside them, the tasks of a job are within its per-worker limits, and every scheduled job with a failed-node limit of at least one is below it |
| Submissions.HeldAsSubmitted | src/master/scheduler.cpp:281-341 | the same in terms of the job as it was submitted: whatever a worker holds was submitted by an event of the run, and the worker keeps to the lists, limits and exclusivity of that submission |
| Submissions.StoredAsSubmitted | src/master/scheduled_jobs.h:73-92 | over every run a scheduled job was submitted by an event of the run and agrees with it in every setting, with the number of executions planned at that event |
| Submissions.PlanningStores | src/master/scheduler.cpp:152-179 | planning stores the job with every setting, owes as many executions as planned, and files exactly the tasks with lower numbers |
| Submissions.EligibleIff | src/master/scheduler.cpp:731-779 | a worker may start a task of a job if and only if it has not failed the job, its host and group are outside the blacklists and inside the lists that are not empty, no exclusive job is in the way, and one more task is within every positive limit |
| Submissions.QueueAscends | src/master/scheduled_jobs.h:49-53 | over every run the scheduled jobs stand by ascending priority number and, within one priority, by ascending group number |
| Directory.DirectoryIsCurrent | src/master/scheduler.cpp:42-130 | over every run the nodes, and the host, group, state and CPU number of each, are exactly those of the latest messages about them |
| SchedulerRuns.AdvanceKeeps | src/master/scheduler.cpp:42-692 | every step keeps the safety invariant, including that "sent completely" means that no task is left to send and that the job queue is ordered by priority and group |
| SchedulerRuns.AdvanceConservesIff | src/master/scheduler.cpp:388-556 | after one step the tables of all jobs add up if and only if: a reappearing worker holds what it held, a failure below the limit is about a held task, a failed send below the limit has as many tasks as the worker holds of its lowest-numbered job, held or finished ones, and at the limit the worker holds no other job; late failed sends included |
| SchedulerRuns.LawfulRunConserves | src/master/scheduler.cpp:152-573 | along a run of lawful steps the tables of all jobs add up |
| Whereabouts.ConservationOverRuns | src/master/scheduler.cpp:152-573 | every planned task of every scheduled job is in exactly one table and was never credited or dropped, or in none and was credited or dropped exactly once, after every prefix of a run if and only if every step is lawful in the state in which it is taken |
| Whereabouts.BalancedStepIsLawful | src/master/scheduler.cpp:388-434 | a step after which that law still holds was lawful: a failed send that does not return the whole holding breaks the tables, loses a task or brings a settled one back |
| Whereabouts.StepOwes | src/master/scheduler.cpp:181-228 | a lawful step takes exactly as many executions off a job as it credits or drops tasks of it |
| Whereabouts.AliveExactly | src/master/scheduler.cpp:181-556 | a lawful step takes from the tables of a job exactly the tasks that it credits or drops |
| Whereabouts.EveryTaskAccountedFor | src/master/scheduler.cpp:152-573 | along a lawful run, for every scheduled job: the tables are disjoint, the counters count them, and every planned task is in one of them and was never credited or dropped, or in none and was credited or dropped exactly once; jobs that are rescheduled drop nothing |
| Whereabouts.ConservedMeans | src/master/scheduled_jobs.h:94-106 | for any job in a conserving state the three tables are disjoint and within the planned interval, no task is on two workers or twice in the reschedule list, and the remaining executions and the running count are the sizes of the tables |
| Whereabouts.RunningIsSum | src/master/scheduler.cpp:194-369 | the cluster count of a job is the sum over the workers of the tasks they hold |
| Purges.LimitPurges | src/master/scheduler.cpp:57-228 | a step that takes a scheduled job to its failed-node limit, be it a lost or deleted node, a failure or a failed send, ends with the job gone and no task of it in any table |
| Purges.PurgedForGood | src/master/scheduler.cpp:649-692 | over every run, whatever is reported, a job taken to its limit stays gone with all its tasks |
| Purges.AbsentStep | src/master/scheduler.cpp:42-692 | no step puts a task of a job that is absent from all tables into any of them |
| Credits.AliveStep | src/master/scheduler.cpp:181-556 | in a lawful step no settled task of a planned job comes back into any table |
| Credits.SettledOnce | src/master/scheduler.cpp:181-228 | along every lawful run each task of each job is credited or dropped at most once, whatever duplicates and late reports arrive |
| Credits.StepWaits | src/master/scheduler.cpp:181-573 | in every step but a request, whatever is reported, only what a lost node held or a report names starts to wait again, and only for jobs that are rescheduled |
| SchedulerRuns.AdvanceAccountedIff | src/master/scheduler.cpp:388-556 | after one step the tables add up and every busy counter equals the tasks held and is within the CPUs if and only if the tables add up, no report itself reaches the failed-node limit, a failed send has as many tasks as are taken off, and the worker has CPUs for what it holds |
| Whereabouts.AccountingOverRuns | src/master/scheduler.cpp:42-692 | the conservation law holds and every busy counter is exact after every prefix of a run if and only if every step is sound in the state in which it is taken |
| SchedulerRuns.SoundRunAccounts | src/master/scheduler.cpp:42-692 | along a run of sound steps the tables add up and the busy counters are exact |
| FailureReports.FailTaskConservesIff | src/master/scheduler.cpp:477-525 | a failure report conserves tasks exactly when it is ignored, reaches the limit, or the worker holds the task |
| FailedSends.FailSendConservesIff | src/master/scheduler.cpp:388-434 | after a failed send the tables add up exactly when it is ignored, or the batch makes up in number for what the worker loses of its lowest-numbered job with held or finished tasks, or it reaches the limit on a worker with no other job |
| CpuAccounting.FailTaskAccountedIff | src/master/scheduler.cpp:504-516 | a failure report keeps tasks and CPUs accounted for exactly when it is ignored, or the task is held and the limit is not reached |
| CpuAccounting.FailSendAccountedIff | src/master/scheduler.cpp:411-423 | the same for tasks and CPUs: below the limit only, and with as many tasks as are taken off |
| CpuAccounting.ChargedTwice | src/master/scheduler.cpp:649-678 | at the limit the busy counter ends lower than the tasks held by exactly the CPUs that the report released |
| CpuAccounting.AppearHostAccountedIff | src/master/worker_manager.cpp:129-156 | the return of a host keeps the accounts exactly when the known worker comes back, or held nothing, and has CPUs for what it holds |
| CpuAccounting.AppearHostConservesIff | src/master/scheduler.cpp:42-55 | the appearance of a host conserves tasks exactly when the worker it replaces held the same |
| CpuAccounting.UpdateWorkerAccountedIff | src/master/worker_manager.cpp:88-127 | a change of a worker's state or CPU number keeps the accounts exactly when the CPUs suffice for what it holds |
| CpuAccounting.LostNodeIsVacant | src/master/scheduler.cpp:89-130 | a node declared unavailable ends with no task and no busy CPU |
| CpuAccounting.RequestCpu | src/master/scheduler.cpp:362-369 | assigning a batch keeps every busy counter exact and within the CPUs |
| Conservation.RequestConserves | src/master/scheduler.cpp:230-386 | a batch moves its tasks from the waiting tables to one worker and loses none |
| Conservation.RescheduleOneConserves | src/master/scheduler.cpp:181-228 | putting the tasks of a lost worker back conserves them, whether they are listed again, dropped with their execution, or purged with the job |
| Conservation.ChangeWorkerStateConserves | src/master/scheduler.cpp:89-130 | losing a worker conserves the tasks of all jobs |
| Conservation.DeleteNodeConserves | src/master/scheduler.cpp:57-87 | deleting a node conserves the tasks of all jobs |
| ConservationSteps.SucceedTaskConserves | src/master/scheduler.cpp:438-476 | a success, duplicate or not, conserves the tasks of all jobs |
| Whereabouts.SucceedOwes | src/master/scheduler.cpp:438-476 | a success takes exactly one execution off its job if the worker holds the task, and none otherwise |
| ConservationSteps.PlanJobConserves | src/master/scheduler.cpp:152-179 | planning a new job files exactly its planned interval |
| ConservationSteps.StopJobConserves | src/master/scheduler.cpp:558-573 | stopping a job leaves nothing of it and conserves all others |
| Incidents.UnheldFailure | src/master/scheduler.cpp:504-516 | a run of two sound steps and a failure report for a task not held, after which the accounts are wrong |
| Incidents.LimitFreesTwice | src/master/scheduler.cpp:196-205 | a run whose last report reaches the limit, after which a node of four CPUs claims five free ones |
| Incidents.FailedSendLosesJob | src/master/scheduler.cpp:411-423 | a run whose last step is a failed send of one job, after which the only task of another job is in no table although an execution is owed |
| LateSend.LateSendLosesTask | src/master/scheduler.cpp:388-434 | a sound run and a late failed send after it: all tables and counters still add up, yet a credited task waits again and a task never settled is in no table |
| Incidents.FirstBatchExceedsClusterLimit | src/master/scheduler.cpp:756-766 | a run in which a job limited to one running task has two |
| JobRuns.FailedHostExcluded | src/master/scheduler.cpp:261-314 | along every run, once a host is recorded as failed for a job it stays so and its tasks of that job only become fewer, until the job is removed |
| JobRuns.ClusterLimitOverRuns | src/master/scheduler.cpp:756-766 | over every run the running count of a job with a cluster limit is at most the larger of the limit and the size of its first batch |
| ClusterLimits.UnstartedOverRuns | src/master/scheduler.cpp:194-369 | over every run a scheduled job without a count entry is on no worker and not on the reschedule list |
| ClusterLimits.FirstBatchIs | src/master/scheduler.cpp:281-341 | the first batch of a job has exactly as many tasks as the minimum of free CPUs, tasks to send and the positive per-worker limits |
| ClusterLimits.RequestIs | src/master/scheduler.cpp:343-386 | which node a request serves and with which job, as a function of the state before it |
| ClusterLimits.RequestWithinIff | src/master/scheduler.cpp:756-766 | a request keeps all jobs within their cluster limits if and only if it does not hand out a first batch larger than the limit |
| ClusterLimits.ClusterLimitIff | src/master/scheduler.cpp:756-766 | a whole run stays within all cluster limits if and only if none of its requests does that |
| BatchSizes.BatchSizeIs | src/master/scheduler.cpp:230-341 | every batch has exactly as many tasks as a formula of the state before it says: free CPUs, tasks waiting, per-worker and cluster limits, and the history where it is counted |
| ExecutionRecords.RequestRecords | src/master/scheduler.cpp:259-325 | what a batch adds to the history: without a rescheduled task all of it under -1, otherwise one execution for all rescheduled tasks together and one for each other task |
| ExecutionRecords.StepCut | src/master/scheduled_jobs.h:298-301 | every other step leaves the history alone but for the entries of removed jobs, found by their numbers cut to 32 bits |
| ExecutionRecords.RecordedOverRuns | src/master/scheduler.cpp:768-777 | over every run the recorded executions of a scheduled job at a host are within its limit |
| ExecutionLimits.LedgerOverRuns | src/master/scheduler.cpp:284-325 | over every run the executions of a job at a host are those recorded plus those missed |
| ExecutionLimits.MissedIs | src/master/scheduler.cpp:284-325 | a request misses all tasks of a batch without a rescheduled task, and otherwise every rescheduled task but one |
| ExecutionLimits.ExecutionLimitIff | src/master/scheduler.cpp:768-777 | every run keeps the limit on executions of a job at a host if and only if no request, judged in the state before it, adds a batch that exceeds it |
| ExecutionLimits.OverrunsIff | src/master/scheduler.cpp:230-341 | while the tables add up, whether a request exceeds the limit is a matter of the executions so far and of the formula for the size of a batch |
| Repeats.LimitOfOneGetsTwo | src/master/scheduler.cpp:284-325 | a sound run in which a job limited to one execution per worker gets two on one host, none of them recorded |
| JobRuns.ReportsBounded | src/master/scheduler.cpp:436-528 | between arrivals of new hosts a job absorbs at most as many effective reports as it has executions left plus known hosts that have not failed it |
| JobRuns.BudgetStep | src/master/failed_workers.h:34-47 | every effective report strictly lowers that measure or removes the job, and no other step raises it, except that a new host adds one |
| RunProperties.StepWanes | src/master/scheduler.cpp:57-692 | no step but a request for tasks and the appearance of a host adds executions, running tasks, held tasks or eligible hosts to a planned job |
| BatchChoice.RequestWorkConserving | src/master/scheduler.cpp:343-386 | nothing is handed out if and only if no visited worker that is ready or executing and has a CPU that is not busy may start any waiting task; otherwise such a worker gets a batch of a waiting job that it may start |
| BatchChoice.PlanChooses | src/master/scheduler.cpp:281-341 | a worker with a free CPU gets no batch if and only if nothing eligible waits; otherwise the batch is of the job of the first eligible rescheduled task, or with none of the eligible job with the least priority number and, among those, the least group number |
| BatchChoice.FirstRescheduledAt | src/master/scheduler.cpp:230-279 | that rescheduled task is the first in the list whose job the worker may start |
| BatchChoice.PlanMaximal | src/master/scheduler.cpp:230-341 | the batch uses all free CPUs, or its job may not get one more task on this worker, or no task of its job is left waiting |
| BatchFacts.PlanOk | src/master/scheduler.cpp:281-341 | a batch holds tasks of a single job, within the free CPUs and all limits, permitted on the host and not failed there; without a batch nothing changes |
| BatchFacts.RequestCases | src/master/scheduler.cpp:343-386 | a request either gives one idle node the batch planned for it or changes nothing |
| BatchTasks.PlanTakes | src/master/scheduler.cpp:230-341 | the tasks of a batch are taken out of the reschedule list and of the tasks to send, and nothing else is |
| BatchTasks.PlanTakesLowest | src/master/scheduler.cpp:316-334 | of the tasks to send a batch takes the lowest-numbered ones of its job |
| Relisting.StepQueues | src/master/scheduler.cpp:181-279 | after every step the reschedule list is the one before with some entries left out and the others in their order, followed by the tasks put back in ascending order; a request puts none back |
| Removals.RemovedLeavesNothing | src/master/scheduled_jobs.h:164-184 | whatever step removes a job, afterwards it is not in the queue, nothing is owed, counted or flagged for it, no host is recorded as failed for it and it has no history, unless its number has more than 31 bits |
| Sweeps.StopAllLeavesNothing | src/master/scheduler.cpp:606-637 | after all jobs are stopped no job, no task in any table and no busy CPU is left |
| Sweeps.DeleteHostRemoves | src/master/scheduler.cpp:57-87 | deleting a host removes exactly its nodes and keeps safety, conservation and CPU accounting |
| Sweeps.AllLostVacant | src/master/scheduler.cpp:89-130 | after the loop over changed workers every unavailable one is without a task and a busy CPU, no worker's state is changed, and safety, conservation and CPU accounting are kept |
| SchedulerState.NumPlannedExec | src/master/scheduler.cpp:781-808 | the requested number if positive, otherwise the total of CPUs, the number of permitted hosts or of workers, by unit, and one where that is not positive |
| Safety.InsertedKeeps | src/master/scheduled_jobs.h:49-53 | insertion keeps the queue ascending in priority and group number and free of duplicates |
| Safety.InsertedBehind | src/master/scheduled_jobs.h:73-92 | a new job goes behind every job with a lower priority number, or the same and no higher group number, and before the first other one |
| SchedulerObject.Scheduler.constructor | src/master/scheduler.cpp:36-39 | an empty scheduler |
| SchedulerObject.Scheduler.OnHostAppearance | src/master/scheduler.cpp:42-55 | takes the step of a host that appears |
| SchedulerObject.Scheduler.DeleteWorker | src/master/scheduler.cpp:57-87 | the loop over the nodes deletes those of the host one by one |
| SchedulerObject.Scheduler.OnChangedWorkerState | src/master/scheduler.cpp:89-130 | the loop takes one step per worker |
| SchedulerObject.Scheduler.PlanJobExecution | src/master/scheduler.cpp:152-179 | the loop files the whole interval of tasks |
| SchedulerObject.Scheduler.RescheduleJob | src/master/scheduler.cpp:181-228 | the nested loops put back, drop or purge job after job, and the result tells whether a task was listed |
| SchedulerObject.Scheduler.RescheduleTasks | src/master/scheduler.cpp:189-225 | one round of that loop |
| SchedulerObject.Scheduler.GetReschedJobForWorker | src/master/scheduler.cpp:230-279 | the loop that erases at its iterator computes the scan of the reschedule list |
| SchedulerObject.Scheduler.GetJobForWorker | src/master/scheduler.cpp:281-341 | the loop over the job queue computes the planned batch and the remaining tables |
| SchedulerObject.Scheduler.TakeTasks | src/master/scheduler.cpp:316-334 | the inner loop takes the lowest-numbered tasks while CPUs and limits allow |
| SchedulerObject.Scheduler.GetTaskToSend | src/master/scheduler.cpp:343-386 | the loop over the nodes hands out the batch of the first node that gets one |
| SchedulerObject.Scheduler.Allocate | src/master/scheduler.cpp:362-369 | the worker's table, its CPU counter and the cluster count after an assignment |
| SchedulerObject.Scheduler.OnTaskSendCompletion | src/master/scheduler.cpp:388-434 | takes the step of a failed send, with the deletion on the worker's own lowest-numbered job |
| SchedulerObject.Scheduler.OnTaskCompletion | src/master/scheduler.cpp:436-528 | takes the success or the failure step by error code, and none for "not found" |
| SchedulerObject.Scheduler.OnTaskTimeout | src/master/scheduler.cpp:530-556 | a time-out counts as a failure of a held task and is ignored otherwise |
| SchedulerObject.Scheduler.OnJobTimeout | src/master/scheduler.cpp:558-573 | a scheduled job is taken off every worker and removed |
| SchedulerObject.Scheduler.StopAllJobs | src/master/scheduler.cpp:606-623 | stops the jobs of a snapshot of the queue one by one |
| SchedulerObject.Scheduler.StopJobAtWorkers | src/master/scheduler.cpp:649-692 | both loops together take the job off every node, the tasks to send and the reschedule list |
| SchedulerObject.Scheduler.RemoveScheduledJob | src/master/scheduled_jobs.h:164-184 | the job leaves the index, the queue and, through the callback, the counters, the failed hosts and the history |
| SchedulerObject.Scheduler.DecrementJobExecution | src/master/scheduled_jobs.h:94-106 | the job is removed when no execution remains |
| SchedulerObject.Scheduler.AddFailedWorker | src/master/failed_workers.h:34-37 | records the host and tells whether it was new |
| SchedulerObject.Scheduler.AddAllFailed | src/master/failed_workers.h:39-47 | the loop records the host for every job of a worker and for no other |
| WorkerJobs.GetTotalNumTasks | src/master/worker.cpp:134-143 | the accumulating loop counts the pairs of job and task held |
| WorkerJobs.AddAll | src/master/worker.cpp:156-169 | adding task by task gives the union of both tables per job, exclusive if either is |
| WorkerJobs.MergeTotal | src/master/worker.cpp:156-169 | `+=` adds exactly the size of the batch when no task is shared |
| WorkerJobs.DeleteJobTotal | src/master/worker.cpp:56-69 | dropping a job lowers the total by exactly its tasks |
| WorkerJobs.DeleteTaskTotal | src/master/worker.cpp:32-54 | deleting a task lowers the total by one exactly if it was held |
| WorkerJobs.WorkerTable.AddTask | src/master/worker.cpp:27-30 | adds the task in place and lists no job without a task |
| WorkerJobs.WorkerTable.DeleteTask | src/master/worker.cpp:32-54 | deletes in place; the last task takes its job along, the last job the exclusive flag |
| WorkerJobs.WorkerTable.DeleteJob | src/master/worker.cpp:56-69 | deletes in place; the last job takes the exclusive flag along |
| WorkerJobs.WorkerTable.Append | src/master/worker.cpp:156-169 | merges in place and keeps the table valid |
| JobGraph.PrepareJobGraph | src/master/job_manager.cpp:608-675 | a graph is accepted if and only if every chain names at least two jobs and no walk along neighbours in the chains closes; its edges are then exactly the pairs of neighbours, one for each place behind the first of a chain, and a counter is the number of such places that name the job |
| JobGraph.AddEdges | src/master/job_manager.cpp:618-645 | the loops over the chains collect the edges of all of them, and fail exactly on a chain of fewer than two jobs |
| JobGraph.EdgeFollows | src/master/job_manager.cpp:618-645 | an edge is in the graph if and only if its ends are neighbours in some chain |
| JobGraph.EntriesCounted | src/master/job_manager.cpp:660-672 | the edges into a job are as many as the places behind the first of a chain that name it |
| JobGraph.CycleDetector.Search | src/master/job_manager.cpp:646-658 | the depth-first search reports a back edge if and only if the graph has a cycle |
| JobGraph.CycleDetector.Visit | src/master/job_manager.cpp:41-50 | one visit blackens its vertex, keeps the vertices under way a path, and keeps finished vertices ahead of their successors while no back edge was met |
| JobGraph.InDegrees | src/master/job_manager.cpp:660-672 | each counter is the number of edges into the vertex |
| JobGraph.SettledIsAcyclic | src/master/job_manager.cpp:646-658 | a finishing order without back edges rules out every cycle |
| JobGraph.FirstExists | src/master/job_manager.cpp:646-658 | in an acyclic graph every non-empty set of vertices has one without a predecessor in the set |
| MetaJobs.AcceptedIsNewGroup | src/master/job_manager.cpp:608-675 | an accepted graph with its counters, and jobs with fresh numbers, make a group that may be pushed, in which a job waits for another exactly if it stands right behind it in a chain |
| JobQueues.ReleaseLoop | src/master/job.cpp:36-64 | releasing a job takes exactly its out-edges off the counters of the unreleased members, moves exactly those that reach zero to the heap, and reports the last job by count |
| JobQueues.DependencyOrder | src/master/job.cpp:155-183 | a job not yet released is delayed exactly while a job it depends on is unreleased |
| JobQueues.NoDeadlock | src/master/job.cpp:348-362 | while a member is unreleased, some unreleased member is in the heap or popped |
| JobLives.LifeKeeps | src/master/job.cpp:142-362 | every order of pushes, pops, completions and deletions keeps the counters, the places and the index in agreement |
| JobLives.PoppedInOrder | src/master/job.cpp:334-346 | in every run no job is popped before all jobs it depends on are completed or deleted |
| JobLives.NeverDeadlocked | src/master/job.cpp:36-59 | in every reachable state a group with an unreleased job has one in the heap or popped |
| JobLives.ReportedOnce | src/master/job.cpp:56-58 | in every run the number of "last job in group" reports is one if all members are released and zero before |
| MetaJobs.BatchesInOrder | src/master/scheduled_jobs.h:217-257 | with queue and scheduler together, in every run a batch is only of a job all of whose predecessors in its meta-job have left the queue and the scheduler |
| MetaJobs.RunLinked | src/master/scheduler.cpp:152-179 | in every run of both the popped and unreleased jobs are exactly the scheduled ones |
| MetaJobs.PlanLinked | src/master/scheduler.cpp:152-179 | a job popped from the queue and planned was never planned before, and both sides stay in agreement |
| JobLives.GroupPushedOk | src/master/job_manager.cpp:226-250 | pushing an accepted group puts each member where its counter asks for |
| JobHeap.FrontIsLeast | src/master/job.h:219-232 | the front of a heap has the least priority number and, among those, the least group number |
| JobHeap.PushHeap | src/master/job.cpp:151-152 | insertion keeps the heap and adds exactly the job |
| JobHeap.PopHeap | src/master/job.cpp:339-341 | removal keeps the heap and takes exactly the front |
| JobHeap.MakeHeap | src/master/job.cpp:221-222 | a heap of the same jobs |
| JobQueueObject.JobQueue.PushJob | src/master/job.cpp:142-153 | the job is ready and indexed |
| JobQueueObject.JobQueue.PushJobs | src/master/job.cpp:155-183 | the loop puts each job into the heap or the delayed set and the index |
| JobQueueObject.JobQueue.PopJob | src/master/job.cpp:334-346 | takes the ready job with the least priority number and, among those, the least group number, or fails exactly when none is ready |
| JobQueueObject.JobQueue.OnJobDependenciesResolved | src/master/job.cpp:348-362 | a delayed job becomes ready; any other is ignored |
| JobQueueObject.JobQueue.ReleaseJobGroup | src/master/job.cpp:36-64 | the loop over the out-edges computes the release |
| JobQueueObject.JobQueue.DeleteJob | src/master/job.cpp:197-229 | deletes an indexed job after releasing it, and fails exactly when it is not indexed |
| JobQueueObject.JobQueue.DeleteJobGroup | src/master/job.cpp:275-300 | collects the jobs of the group and deletes them one by one |
| JobQueueObject.JobQueue.Clear | src/master/job.cpp:318-332 | collects all queued jobs and deletes them one by one |
| QueueSweeps.ClearEmpties | src/master/job.cpp:318-332 | after clearing, heap, delayed set and index are empty although deletions release delayed jobs midway |
| QueueSweeps.DeleteJobGroupRemoves | src/master/job.cpp:275-300 | afterwards no job of the group is queued and every other queued job still is |
| DescriptorPool.PoolSafety | src/worker/comm_descriptor.h:103-139 | under every interleaving no two threads hold the same block, a thread past the semaphore always finds a free descriptor, a thread without a block has none recorded, and semaphore count plus threads inside is the size of the pool |
| DescriptorPool.FreeExists | src/worker/comm_descriptor.h:110-128 | the counting argument: with a thread past the semaphore that holds nothing, some descriptor is unused |
| DescriptorPool.StepOk | src/common/helper.h:42-55 | each atomic section keeps the counts and gives every holder a descriptor of its own |
| DescriptorPool.CommDescrPool.Alloc | src/worker/comm_descriptor.h:110-128 | the linear search marks the first unused descriptor |
| DescriptorPool.CommDescrPool.Free | src/worker/comm_descriptor.h:130-139 | unmarks the thread's own descriptor |
| DescriptorPool.CommDescrPool.Wait | src/common/helper.h:49-55 | takes one from the count once it is positive |
| DescriptorPool.CommDescrPool.Notify | src/common/helper.h:42-47 | gives one back |
| WakeUp.NoLostWakeUp | src/master/job_sender.cpp:34-76 | under every interleaving, spurious wake-ups included, a sleeping sender has covered every notification: after the first one it has completed a scan that began after the latest, and its latest scan found nothing; before the first it may sleep without a scan |
| WakeUp.RunAttentive | src/master/job_sender.cpp:44-68 | in every reachable state each notification is covered by a completed scan, by the scan under way, by a scan that is due, or by the flag |
| WakeUp.SleepsUnlessNotified | src/master/job_sender.cpp:44-68 | under every interleaving a sender at the head of its loop goes to sleep if and only if there was no notification since it last took the flag |
| Dispatch.ReportNotifiesIff | src/master/scheduler.cpp:388-573 | a report or a stop notifies the sender if and only if it changes anything |
| Dispatch.CoveredIff | src/master/job_sender.cpp:34-76 | with scheduler and sender together, the sender is notified, about to be, or about to scan whenever a worker could start a task, throughout a run, if and only if no step of the run is, in the state before it, a silent loss after which another worker may start a task while the sender is none of these |
| Dispatch.SleepMeansNothingToSend | src/master/scheduler.cpp:343-386 | in such a run a sender that sleeps with no notification on its way has nothing to send; workers may be lost and return |
| Dispatch.SilentStepIff | src/master/scheduler.cpp:89-130 | where nothing may be started, a step that leads to no notification makes a task startable if and only if it is such a loss; in particular no other step does |
| Dispatch.UpdateStartsIff | src/master/worker_manager.cpp:88-156 | a change by the worker manager makes something startable if and only if the worker becomes usable with a free CPU and may start a waiting task; the notification of `OnHostAppearance` follows |
| Losses.LossStartsIff | src/master/scheduler.cpp:89-130 | after a silent loss some worker may start a task if and only if, in the state before it, another worker and a job that survives pass all tests once the purged jobs are off the tables, their CPUs free, the running count lower by the lost tasks and the histories of removed jobs erased |
| Losses.LossSheds | src/master/scheduler.cpp:181-228 | what a silent loss leaves in every table: jobs, running counts, executions left, worker tables, busy CPUs, reschedule list and history |
| Losses.SilentIff | src/master/scheduler.cpp:181-228 | no task goes back on the list, and nobody is notified, if and only if every scheduled job of the worker reaches its failed-node limit or is never rescheduled |
| Dispatch.SenderRuns | src/master/job_sender.cpp:34-76 | the sender's part of every joint run is a run of the wake-up protocol |
| Dispatch.SchedulerRunsToo | src/master/scheduler.cpp:343-386 | the scheduler's part of every joint run is a run of the scheduler |
| SilentStart.SleepsWithWorkToDo | src/master/scheduler.cpp:111-122 | a sound joint run at whose end the sender sleeps, no notification is on its way, and a worker may start a waiting task |
| Cron.CheckFires | src/master/cron_manager.cpp:73-101 | with an exact index a check fires exactly the planned handlers that are due, in the order of their deadlines and once each, and keeps the others |
| Cron.OrderOverRuns | src/master/cron_manager.cpp:73-101 | over every run, whatever names are pushed, the queue stands and a check fires by ascending deadline and, among equal deadlines, in the order of the pushes |
| Cron.CheckNames | src/master/cron_manager.cpp:88-92 | a check takes exactly the names of what it fires out of the index, also those that stand for a later push |
| Cron.RefinesEager | src/master/cron_manager.cpp:73-214 | with fresh names the index equals the eager table after every run, and a check fires exactly what the eager table has due |
| Cron.ExactIffFresh | src/master/cron_manager.cpp:103-132 | the index is exactly the live handlers throughout a run if and only if every push uses a name that is not planned |
| Cron.PushExactIff | src/master/cron_manager.cpp:134-188 | one push keeps the index exact if and only if the name is free |
| Cron.FiresOnce | src/master/cron_manager.cpp:73-101 | over every run, whatever names are pushed, a handler fires at most once |
| Cron.StoppedNeverFires | src/master/cron_manager.cpp:190-200 | a stopped handler never fires afterwards, even if its name is pushed again |
| Cron.StopMissesEarlierPush | src/master/cron_manager.cpp:128-131 | a name pushed twice and then stopped still fires its first handler |
| Cron.CronManager.PushJob | src/master/cron_manager.cpp:103-132 | inserts behind the entries that are not later, equal ones included, and overwrites the index |
| Cron.CronManager.Stop | src/master/cron_manager.cpp:190-200 | marks the indexed handler and drops the name |
| Cron.CronManager.StopAll | src/master/cron_manager.cpp:202-214 | the loop marks every handler; queue and index are emptied |
| Cron.CronManager.CheckTimeouts | src/master/cron_manager.cpp:73-101 | the erasing loop computes the handlers to run and the remaining queue |

## Left out

- `nodePriority_`: the order in which `GetTaskToSend` visits the nodes is a parameter; keys of that index are changed in place without sorting again, so no order is promised. `OnNewJob` and `CanTakeNewJob` are not modelled; a new job is an event of its own.
- `Worker`, `NodeState` and `FailedWorkers` objects: the scheduler class keeps nodes, worker tables and failed hosts as values in its own fields. The worker object shared with the worker manager shows as events that change its state, CPU number or table; aliasing beyond that is not captured. `ScheduledJobs` is part of the scheduler class too, so its removal callback is a plain sequence of assignments.
- The ping counters of the worker manager: only their effect, a changed worker state or a host that appears, is an event.
- Locks: each public scheduler method is one atomic step, `OnChangedWorkerState` one per worker.
- SchedulerObject.Scheduler.OnTaskTimeout: the check and the report are one step; the gap between the two locks is the same as a check without effect followed by a failure report at any later point, which is an event of its own.
- The `JobPtr` result of `GetTaskToSend`, commands sent to workers, callbacks, logging, statistics, and stopping by group or by name.
- Job names (`nameToJob_`, `RegisterJobName`, `ReleaseJobName`), JSON parsing, history restore and the numbers given to jobs: numbers and groups are taken as fresh where they are pushed.
- `JobGroup` and `Job` objects: groups with their counters are values in a field of the queue class. Whether a finished job's object still exists is a parameter of each release; unreleased jobs exist.
- JobHeap.MakeHeap: inserts one by one, so it fixes the contents and the heap order but not the layout that the library function would choose.
- JobQueueObject.JobQueue.DeleteJob: finds the job in the heap by its record instead of its number, which is the same while numbers are unique.
- `Semaphore::Reset`, `CommDescrPool::Shutdown` and the sockets of the descriptors.
- `JobSender::Stop`: the protocol is followed while the sender is not stopped, from its subscription on. In `Dispatch` the sender keeps the sections of `WakeUp`, `GetTaskToSend` is one step between the begin and the end of a scan, and a notification may be delivered any time after its step.
- WakeUp.NoLostWakeUp: the sender is a state machine over its critical sections, not a thread; the endless loop has no end to prove.
- `CronJob::Next` and the clock: deadlines and the current time are parameters. The names registered and released by cron are not modelled.
- Integer widths: counters are unbounded, except for the conversion of a job number to 32 bits when its history is removed.
- Sockets, process control, shared memory, configuration, the admin interface and the client.
