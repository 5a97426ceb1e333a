# A verified model of the task scheduler

The backend turns a user request into an execution: a planner splits it into tasks with
dependencies, agents run the tasks, and an aggregator combines their outputs. This project models
that machinery and proves what it promises:

- **The distributed path** (`scheduler.py`, `jobqueue.py`, `worker.py`). Any number of processes
  share database rows and three Redis structures without locks. `System.dfy` is a step system;
  `Safety`, `Preservation`, `Tokens`, `Wakeups` and `Termination` each prove one global invariant
  step by step, and `Runs` draws the theorems about every reachable state and every whole run.
  `Claims`, `Retries` and `Losses` add who works on a task and when, how often a task is claimed and
  how long it waits, and exactly which stopped processes cost a job. `Witnesses` holds concrete
  reachable runs.
- **The same code as imperative classes.** `Scheduler.dfy` and `JobQueue.dfy` hold the methods of
  `scheduler.py` and `jobqueue.py` with their loops and guarded updates. Each guarded UPDATE is proved
  equal to the transaction of the same name in `Tables.dfy`, which is the one the step system takes.
  `Confluence.dfy` proves that an uninterrupted scheduling pass of the step system ends where the
  method ends, for every row order, and `Handlers.dfy` does the same for whole job handlers, reaper and
  promoter rounds. `Steps.dfy` says that no step the source can take is missing from the step system.
- **The inline path** (`executor.py`, `orchestrator.py`, `aggregator.py`) in `Sequential.dfy` and
  `Aggregator.dfy`. `Agreement.dfy` proves that the distributed path refines it.
- **The planner**: `Planner.dfy`; `Plans.dfy` carries its guarantees to the rows of every run.
- **Self-contained cores**: the rate limiter (`RateLimiter.dfy`), the calculator's evaluator
  (`Calculator.dfy`), the agents' tool-calling loop (`AgentLoop.dfy`) and the retry delays
  (`Backoff.dfy`).

What an operation computes is stated twice where that matters: once by the function the proofs use,
and once without it, on the inputs and outputs themselves (`Planning.Follows`, `Aggregation.Summarizes`,
`Sequential.Informed`, `Sequential.Concludes`, `Scheduling.AttemptMade`, `Scheduling.FinalizedProperly`,
`Calculator.Denotes`, `Text.LaidOut`, the sums of `Totals.dfy`).

## How the distributed path is modelled

- The system follows one execution. Rows, results and jobs of different executions never meet.
- One action is one committed UPDATE or transaction, one SELECT snapshot, or one Redis command.
  Between two actions of a process any others may happen; a process is a program counter with its
  local copies.
- All tasks of an execution appear in one commit. The result INSERT and the status UPDATE of a
  successful run are one transaction; a second result for a task is dropped by the unique key.
- The lease is over-approximated: a reaper may pick up any RUNNING tasks at any time.
- A process may crash between a claim and the commit that ends the attempt (`Crash`). `Losses` adds a
  process that stops between popping a job and acting on it. Three other crashes are not modelled,
  and the liveness theorems assume them away, because the code has no recovery for them: between an
  update and its queue push, while planning, and after the commit that ends an attempt but before or
  during the scheduling pass that follows it.
- Reading `attempts` and the UPDATE of `_retry_or_fail` are separate actions, so a claim can come
  between them.
- The queue may deliver again any job it once held (`Redeliver`).
- A pass visits the rows of its snapshot in any order, and may or may not see its own updates.
- `History` counts claims, releases and overwritten increments for stating properties. No process reads it
  (only `Redeliver` does, to repeat jobs that were once pushed),
  and `Runs.HistoryRecords` says exactly what each field counts.
- The methods of `Scheduler` assume of the rows only that dependencies name earlier rows, which the
  planner guarantees.
- Costs are natural numbers of millionths of a dollar, the unit to which the code rounds.

## Where code and documentation disagree

The model follows the code.

1. Retries are documented as limited to `task_max_retries`. A stale read of `attempts` writes back a
   smaller number, and the task is claimed once more than allowed (`Witnesses.StaleReadOverclaims`).
   The exact law is claims = attempts + 1 if RUNNING + overwritten increments, so a task that used up
   its retries was claimed exactly task_max_retries + 1 times if and only if its overwritten
   increments are zero on balance (`Runs.ClaimsBounded`, `Runs.FreshRunClaims`); for a completed task
   the last term depends on whether it was still RUNNING when it completed (`Claims.CompletedClaims`).
2. Delivery is documented as at-least-once. `BLPOP` removes the job before it is handled, so a process
   that stops between the pop and the claim loses it. The loss does no harm exactly when the task
   cannot be claimed anyway or another job of it exists. Otherwise the task keeps waiting and the
   execution never finishes, unless the job is delivered again or, for a RETRYING task, a late worker
   still on it succeeds (`Losses.LostTaskJob`, `Losses.LostFirstJob`). A lost plan job leaves the
   execution PENDING, unless another one exists or arrives (`Losses.LostPlanJob`).
   `Witnesses.LosingAJobStrands` is such a state.
3. The claim is documented as guarded on PENDING; the code also claims RETRYING tasks.
4. A summarization task is documented to wait for all earlier tasks. It joins them all exactly when it
   came with no dependencies or names them all itself (`Planning.JoinsAllExactly`); when the ones it
   came with are all invalid it waits for none (`Planning.WaitsForNothingExactly`), and an answer can
   bring that about (`Planning.SummaryCanWaitForNothing`).

The branch "result already present" works as its comment says. A won claim never finds a result at
once; the branch is taken exactly when a success of that task by another worker is recorded between
the claim and its check (`Claims.ResultBranchExactly`), which needs a lease to expire first
(`Claims.ResultBranchNeedsLeaseExpiry`; `Witnesses.ResultBranchReached` is a case). Its UPDATE then
never changes anything, because a task with a result is always terminal (`Runs.ResultCoherence`).

## Model

| member | source | states |
|---|---|---|
| Runs.NoLostWakeup | backend/app/services/scheduler.py:119-191 | In any reachable state with empty queues, no process mid-job and no RUNNING task, the execution is COMPLETED or FAILED, its tasks are all terminal, and it is COMPLETED exactly when they all are |
| Wakeups.AwakeStep | backend/app/services/scheduler.py:365-425 | Every step keeps: a row a fresh pass would act on, and a finished set of rows, always has a process that still owes that pass or finalization |
| Wakeups.QuiescentIsFinished | backend/app/services/scheduler.py:365-425 | The wake-up invariant with token conservation and well-founded dependencies leaves nothing unfinished once nothing can move |
| Runs.DependencyOrder | backend/app/services/scheduler.py:381-403 | A task that is RUNNING, RETRYING or COMPLETED, or has a job anywhere, has only earlier, COMPLETED dependencies with stored results, although the claim checks none |
| Runs.ContextIsComplete | backend/app/services/scheduler.py:476-487 | A worker past its claim gets exactly one labelled output per listed dependency, in list order, two line breaks between them, and nothing else |
| Runs.TokenConservation | backend/app/jobqueue.py:53-97 | Main list, delayed set and workers' hands hold exactly one job of a waiting task, none of a RUNNING one, at most one of a terminal one; repeated delivery weakens only "exactly" to "at least" |
| Tokens.TokensStep | backend/app/jobqueue.py:84-97 | Every step, racing promoters with their conditional ZREM included, conserves the jobs of every task |
| Runs.DeadLetterExactness | backend/app/services/scheduler.py:298-321 | A task has exactly one dead letter (pushed or in hand) if it FAILED with attempts above the limit and none otherwise; cascade-failed tasks have attempts 0; attempts never exceed the limit plus one |
| Tokens.DeadLettersStep | backend/app/services/scheduler.py:271-321 | Every step keeps the dead-letter list exact |
| Runs.ResultCoherence | backend/app/services/scheduler.py:216-255 | A COMPLETED task has a result from the very run its metrics record, a result implies a terminal task, and the idempotency UPDATE changes nothing |
| Runs.FinishedForEver | backend/app/models/task_result.py:23-29 | Results, terminal tasks and finished executions never change again, in any continuation of a run |
| Preservation.IdempotencyUpdateIsNoOp | backend/app/services/scheduler.py:142-153 | The UPDATE of the "result already present" branch leaves the tables as they are |
| Runs.ClaimsBounded | backend/app/services/scheduler.py:268-293 | Claims of a task that has not completed equal attempts, plus one if RUNNING, plus overwritten increments; of a completed one the same or one more; at most the retries allowed plus one plus the overwritten increments |
| Claims.CompletedClaims | backend/app/services/scheduler.py:216-255 | After a task completes its claims are for ever its attempts plus overwritten increments, plus one exactly if it was still RUNNING when it completed |
| Runs.FreshRunClaims | backend/app/services/scheduler.py:268-293 | In a run whose retry UPDATEs all write the successor of the attempts they replace, a task is claimed at most max_retries + 1 times |
| Runs.HistoryRecords | backend/app/services/scheduler.py:505-512 | The history of a task counts exactly the claims won, the increments overwritten and the repeated deliveries |
| Runs.RunsAreBounded | backend/app/worker.py:50-94 | The length of every run is bounded by the cost of one plan, of reaper and promoter firings and repeated deliveries, and of the increments its stale reads overwrote; without stale reads the last term is zero |
| Claims.ClaimsAndStepsBounded | backend/app/worker.py:50-94 | With stale reads too: all claims of a run, and so all overwritten increments, are at most the plannable tasks plus the environment's firings, and the run's length is bounded by those alone |
| Claims.StepBudgeted | backend/app/services/scheduler.py:365-405 | No step but the environment's raises the claims won plus the jobs about plus the rows still to be enqueued |
| Termination.StepPaid | backend/app/services/scheduler.py:268-359 | Every step lowers a natural-number rank over rows, jobs and processes by one, apart from what a reaper or promoter firing, a repeated delivery or an overwritten increment adds |
| Termination.RoundsStep | backend/app/services/scheduler.py:374-403 | Rounds a pass has repeated plus rows no pass has settled never exceed the number of rows, under any interference |
| Runs.PassLoopBounded | backend/app/services/scheduler.py:374-403 | The `while changed` loop repeats at most once per task |
| Runs.EnqueuedOnceNeverDoomed | backend/app/services/scheduler.py:386-403 | All concurrent passes of a run together enqueue a task at most once, and never one with a FAILED dependency |
| Runs.EnqueuesCounted | backend/app/services/scheduler.py:515-522 | The enqueued flag counts exactly the enqueuing visits of a run |
| Runs.FinalizedTruthfully | backend/app/services/scheduler.py:408-470 | A finished execution is COMPLETED exactly when all its tasks are, else all are terminal; its totals are the sums over the agent runs behind the results of its completed tasks; its text summarizes the stored outputs, and a FAILED one has none |
| Runs.FinalizersAgree | backend/app/services/scheduler.py:408-470 | Concurrent finalizers hold the same verdict, that of the present rows |
| Preservation.CoreStep | backend/app/services/scheduler.py:65-359 | Every step of every process keeps the safety invariant and undoes nothing |
| Preservation.CoreInitially | backend/app/services/scheduler.py:65-113 | The safety invariant holds for a fresh execution and its plan job |
| Preservation.DoomedNotReleased | backend/app/services/scheduler.py:386-403 | A task with a FAILED dependency was never enqueued to run |
| Preservation.SnapshotDoomed | backend/app/services/scheduler.py:374-397 | A FAILED dependency seen in a stale snapshot is FAILED now |
| Preservation.SnapshotReady | backend/app/services/scheduler.py:400-403 | Dependencies seen COMPLETED in a stale snapshot are COMPLETED now |
| System.Next | backend/app/worker.py:50-94 | One action of one process: it alone moves, and only a plan changes the number of rows |
| Plans.RowsFollowAnswer | backend/app/services/scheduler.py:87-100 | In every run the rows are those of an answer the run committed: one task per usable item in order, with its agent, description and exactly the dependencies it must have, or the fallback tasks |
| Plans.FallbackSummaryWaits | backend/app/services/planner.py:127-144 | When no item was usable, the summary waits for both earlier tasks and starts only when they have completed with results |
| Handlers.TaskDelivery | backend/app/services/scheduler.py:119-191 | In the step system an undisturbed delivery of a task's job has the outcome of ExecuteTask for the answer the run's agent gave |
| Handlers.PlanDelivery | backend/app/services/scheduler.py:65-113 | An undisturbed delivery of the plan job has the outcome of PlanExecution for the answer the run committed, or fails the execution |
| Handlers.ReaperRound | backend/app/services/scheduler.py:335-359 | An undisturbed reaper round has the outcome of RecoverStaleTasks |
| Handlers.PromoterRound | backend/app/jobqueue.py:84-97 | An undisturbed promoter round moves exactly the due members it read, in order, each once |
| Handlers.DequeueTakesOldest | backend/app/jobqueue.py:58-68 | A pop takes the oldest job, and the process holds that very job |
| Steps.HandlersMay | backend/app/worker.py:30-65 | From every program point of a handler each of its actions is possible, whatever the agent or model answers |
| Steps.PassesMay | backend/app/services/scheduler.py:365-425 | The same for recoveries, scheduling passes and promotions, in any row order |
| Steps.EnvironmentMay | backend/app/worker.py:68-94 | Any RUNNING tasks may be reaped, any due members promoted, any pushed job delivered again |
| Steps.RoundsCounted | backend/app/services/scheduler.py:374-403 | A snapshot is the rows as they are; a pass that changed something goes another round, which is counted |
| Steps.VisitCounted | backend/app/services/scheduler.py:381-403 | A visit strikes its row off and marks the pass as changed exactly when its update took effect |
| Steps.VisitCopies | backend/app/services/scheduler.py:375-403 | After a visit the session's copies show its own update or not, and are otherwise as before |
| Steps.CrashAndRedelivery | backend/app/worker.py:50-65 | A crash only loses the process's place; a repeated delivery only appends the job |
| Steps.EnvironmentOnly | backend/app/worker.py:68-94 | In the bounds on runs only reaper and promoter firings and repeated deliveries cost anything |
| Witnesses.StaleReadOverclaims | backend/app/services/scheduler.py:271-286 | A reachable state in which a task was claimed max_retries + 2 times |
| Claims.ResultBranchExactly | backend/app/services/scheduler.py:129-153 | Between a won claim and its check the result turns up if and only if a success of that task is recorded, by another worker, in between |
| Claims.WonClaimFindsNoResult | backend/app/services/scheduler.py:132-142 | A claim that is won finds no result at that moment |
| Claims.ResultBranchNeedsLeaseExpiry | backend/app/services/scheduler.py:132-153 | Without a lease expiry at most one process is past its claim of a task, and it never finds a result |
| Claims.ResultAppears | backend/app/services/scheduler.py:233-255 | A result is present after a step exactly when it was before or the step records a success of that task |
| Witnesses.ResultBranchReached | backend/app/services/scheduler.py:142-153 | One such case: a reachable state in which a worker that claimed a planner-created task is about to find a result |
| Losses.LostTaskJob | backend/app/jobqueue.py:58-68 | A process stops holding a task job: if the job was spare or the run rescues the task every invariant holds again, else the task waits unchanged and the execution never finishes; at rest the execution has finished exactly in the first case |
| Losses.LostFirstJob | backend/app/jobqueue.py:58-68 | If the task was still PENDING the execution finishes exactly when another job of it exists or it is delivered again |
| Losses.LostPlanJob | backend/app/jobqueue.py:58-68 | The same for a plan job: spare exactly when the execution is past PENDING or another plan job is about; else it stays PENDING until one is delivered again |
| Losses.OrphanStep | backend/app/services/scheduler.py:505-512 | A task waiting for a job that is nowhere is left alone by every step, except a repeated delivery of its job or a late success, which put everything in order again |
| Witnesses.LosingAJobStrands | backend/app/jobqueue.py:58-68 | One such case: a reachable state in which stopping a process that holds the only job leaves nothing to happen and the execution RUNNING |
| Witnesses.OneTaskCompletes | backend/app/services/scheduler.py:119-191 | A run without lease expiry, allowed by an oracle that fixes every output, comes to rest COMPLETED: the hypotheses of the liveness and agreement theorems can be met together |
| Agreement.DistributedRefinesInline | backend/app/services/executor.py:56-116 | For the same plan and agents whose success is fixed by their position, a quiescent distributed run without lease expiry is COMPLETED exactly when the inline run is; if their outputs are fixed too it ends with the same execution row, text and totals included |
| Agreement.CompletedAgreesWithInline | backend/app/services/orchestrator.py:64-90 | A COMPLETED distributed execution has the inline run's row, lease expiries or not |
| Sequential.SequentialExecutor.Execute | backend/app/services/executor.py:56-116 | Runs the tasks in order up to the first that raises; every agent's context shows the output of each earlier task after its agent's name, in order; rows, results and outcomes record exactly the runs |
| Sequential.RunsInformed | backend/app/services/executor.py:72-86 | In a sequential run the k-th context is the k earlier outputs, labelled, in order, two line breaks between them |
| Sequential.SequentialExecutor.RecordResult | backend/app/services/executor.py:75-84 | The result, the metrics and the COMPLETED status are recorded together |
| Sequential.SequentialExecutor.SetStatus | backend/app/services/executor.py:118-123 | Changes the status of one task and nothing else |
| Sequential.SequentialRunUnique | backend/app/services/executor.py:56-116 | Agents and tasks determine the sequential run |
| Sequential.Orchestrator.RunExecution | backend/app/services/orchestrator.py:27-96 | Commits PLANNING, RUNNING and then COMPLETED or FAILED (PLANNING and FAILED when the planner raises); the totals are the sums over the agent runs and the text summarizes their outputs |
| Sequential.InlineConcludes | backend/app/services/orchestrator.py:70-90 | The inline execution row, from the runs themselves: status, token and cost sums, text |
| Sequential.Orchestrator.SetExecutionStatus | backend/app/services/orchestrator.py:99-102 | Commits the new status and nothing else |
| Scheduling.Scheduler.ScheduleExecution | backend/app/services/scheduler.py:365-405 | For every row order, own updates seen or not, an undisturbed pass ends in the fixpoint, finalized, and pushes each ready task once |
| Scheduling.SettledExactly | backend/app/services/scheduler.py:381-403 | The fixpoint fails exactly the tasks a chain of dependencies links to a FAILED one, enqueues exactly the ready ones, changes no other row, and is idempotent |
| Scheduling.CascadesIsReachability | backend/app/services/scheduler.py:386-397 | The cascade is exactly reachability of a FAILED task along dependency edges |
| Scheduling.UpdateKeepsFixpoint | backend/app/services/scheduler.py:386-403 | Each update of a pass leaves the fixpoint it works towards unchanged |
| Scheduling.Scheduler.VisitRow | backend/app/services/scheduler.py:381-403 | One row of a pass on copies however old: the cascade or enqueue update they call for, and a job exactly when an enqueue took effect; on an up-to-date copy an effective update is right for the present rows, and on a fresh snapshot none means the row is settled |
| Scheduling.ReachableRowsOk | backend/app/services/scheduler.py:381-403 | In every reachable state dependencies name earlier rows and a row was released only after its dependencies completed |
| Confluence.UninterruptedPass | backend/app/services/scheduler.py:365-405 | In the step system every uninterrupted pass of a process ends in the tables ScheduleExecution computes, with exactly the ready tasks pushed |
| Confluence.PassesAgree | backend/app/services/scheduler.py:374-403 | Two uninterrupted passes over the same rows end in the same tables and push the same jobs |
| Scheduling.Scheduler.ClaimTask | backend/app/services/scheduler.py:505-512 | Succeeds exactly for PENDING and RETRYING, and then sets RUNNING only |
| Scheduling.Scheduler.MarkEnqueued | backend/app/services/scheduler.py:515-522 | Succeeds exactly when the flag was clear, and sets only the flag |
| Scheduling.Scheduler.CascadeFailure | backend/app/services/scheduler.py:386-397 | Succeeds exactly for PENDING, whatever the flag, and sets FAILED and the flag |
| Scheduling.Scheduler.GuardExecution | backend/app/services/scheduler.py:525-534 | Compare-and-set on the execution status |
| Scheduling.Scheduler.PersistSuccess | backend/app/services/scheduler.py:216-255 | Keeps an existing result, else stores this one; completes a RUNNING or RETRYING row with its metrics |
| Scheduling.Scheduler.RetryOrFail | backend/app/services/scheduler.py:268-321 | On a RUNNING row schedules a delayed retry within the limit, else fails it with one dead letter; a lost race changes nothing |
| Scheduling.Scheduler.Finalize | backend/app/services/scheduler.py:408-470 | Leaves the execution alone unless it is RUNNING and has tasks that have all ended; then writes COMPLETED with the text of the outcomes, or FAILED, with the sums of the tokens and costs recorded in the rows |
| Scheduling.Scheduler.DependencyContext | backend/app/services/scheduler.py:476-487 | The outputs of the completed dependencies, each after its agent's name, in list order, none missing, two line breaks between them |
| Scheduling.Scheduler.ExecuteTask | backend/app/services/scheduler.py:119-191 | A delivery that cannot claim changes nothing; otherwise the agent answers a context that shows the dependencies, what it did is recorded, and a full pass follows |
| Scheduling.AttemptRecorded | backend/app/services/scheduler.py:142-189 | After the pass: an existing result is kept and the row COMPLETED; else the agent's output and metrics are the result and the row's metrics, or, if it raised, the attempts are one more, the row is RETRYING or FAILED by the limit and no result is added |
| Scheduling.Scheduler.RecoverStaleTasks | backend/app/services/scheduler.py:335-359 | Every stale row gets one attempt more and is RETRYING, delayed for its own time, or FAILED with one dead letter, in order; all else is as before, and one pass follows exactly when there was one |
| Scheduling.Scheduler.PlanExecution | backend/app/services/scheduler.py:65-113 | Plans only a PENDING execution; a raising planner fails it; otherwise fresh rows for a plan that follows the answer are inserted, the execution runs and a pass follows |
| Scheduling.IndependentTasksEnqueued | backend/app/services/scheduler.py:65-113 | Right after planning, exactly the tasks without dependencies are enqueued and none fails |
| JobQueues.JobQueue.Enqueue | backend/app/jobqueue.py:44-55 | Appends one job to the list |
| JobQueues.JobQueue.Dequeue | backend/app/jobqueue.py:58-68 | Removes and returns the oldest job; on an empty list nothing |
| JobQueues.JobQueue.ScheduleTask | backend/app/jobqueue.py:78-81 | Sets the run-at time of one delayed task |
| JobQueues.JobQueue.PushDeadLetter | backend/app/jobqueue.py:107-109 | Appends one dead letter |
| JobQueues.JobQueue.RangeByScore | backend/app/jobqueue.py:90-91 | The due members, each once, in score order |
| JobQueues.JobQueue.PromoteDue | backend/app/jobqueue.py:84-97 | Moves exactly the due members, in score order, each once, and returns their number |
| Planning.PlanIsBoundedDag | backend/app/services/planner.py:54-108 | For every decoded answer the plan has between 1 and max_tasks tasks, and each dependency names an earlier task |
| Planning.PlanFollowsAnswer | backend/app/services/planner.py:54-144 | One task per usable item, in order, up to the limit, with the agent and description it asks for and exactly the dependencies it must have; without a usable item the three fallback tasks naming the request |
| Planning.AgentIsNamed | backend/app/enums.py:33-52 | Which texts name which agent, capitals and surrounding white space aside; everything else means research |
| Planning.AssignOneRespects | backend/app/services/planner.py:70-88 | Supplied dependencies that name an earlier task are kept in order, others dropped; a summarization task without any gets exactly all earlier ones |
| Planning.KeepsEarlierInOrder | backend/app/services/planner.py:79-84 | The kept entries are exactly the valid ones, each at its place |
| Planning.JoinsAllExactly | backend/app/services/planner.py:79-88 | A summarization task waits for every earlier task exactly when it came with no dependencies or names every earlier task itself |
| Planning.WaitsForNothingExactly | backend/app/services/planner.py:79-88 | A task waits for nothing exactly when the dependencies it came with are all invalid, or it came with none and is no summarization task or the first task |
| Planning.SummaryCanWaitForNothing | backend/app/services/planner.py:90-108 | For any usable first item, an answer whose second item is a summary naming a task that is not earlier yields a summary that waits for nothing |
| Planning.ParsedSelects | backend/app/services/planner.py:90-108 | The parsed subtasks are the images of exactly the usable items, in order, none missing or repeated; anything but a list yields none |
| Planning.UsableItems | backend/app/services/planner.py:97-101 | An item is usable exactly when it is an object with a description that is not blank, and its description is then stripped |
| Planning.Planner.constructor | backend/app/services/planner.py:33-36 | At least one task may be planned, whatever the configured limits |
| Planning.Planner.Parse | backend/app/services/planner.py:90-108 | Computes the parsed subtasks that ParsedSelects and UsableItems describe |
| Planning.Planner.AssignDependencies | backend/app/services/planner.py:70-88 | Rewrites in place the dependencies of every subtask by its own position |
| Planning.Planner.Plan | backend/app/services/planner.py:54-68 | Returns a plan that follows the answer |
| Aggregation.Aggregator.Aggregate | backend/app/services/aggregator.py:16-45 | Builds a text that summarizes the outcomes |
| Aggregation.AggregateSummarizes | backend/app/services/aggregator.py:16-45 | The text line by line: the first summary, then, if anything else was used, a rule and for each other output in order a blank line, a heading with its agent and the stripped output; the whole stripped; or the fixed apology |
| Aggregation.EveryOutputOnce | backend/app/services/aggregator.py:23-43 | Among the lines that are joined, headline and sections hold each completed output exactly once; the first summary is the headline |
| Aggregation.EveryOutputAppears | backend/app/services/aggregator.py:17-45 | Every COMPLETED output that is not empty occurs, stripped, in the final text |
| Aggregation.OnlyCompletedMatter | backend/app/services/aggregator.py:18-21 | Exactly the COMPLETED outcomes with an output are used, in order and each as often as it comes |
| Aggregation.NothingToReport | backend/app/services/aggregator.py:18-21 | Without any the text says so |
| RateLimiting.RateLimiter.Handle | backend/app/middleware.py:60-100 | Requests that are not limited pass and are not counted; with a clock that does not run back a limited one passes exactly when at most `limit` requests with its key, itself included, fell in its window; its counter is one more, and beyond 10000 counters those of other windows are dropped |
| RateLimiting.RefinesPlainCount | backend/app/middleware.py:77-90 | With a clock that does not run back the counters with their cleanup decide as a plain count of the trace |
| RateLimiting.CounterShared | backend/app/middleware.py:72-75 | Whose requests share a counter: a non-empty key comes first, then the client, then everyone without either |
| RateLimiting.LimitedExactly | backend/app/middleware.py:61-70 | Exactly the HTTP requests to paths that start with /api are limited, and only by a positive limit |
| RateLimiting.WindowForwards | backend/app/middleware.py:77-90 | A window forwards everything up to the limit and nothing beyond |
| RateLimiting.MinuteForwardsTwiceTheLimit | backend/app/middleware.py:77-90 | Any 60 seconds forward at most twice the limit per key |
| RateLimiting.RetryAfterIsExact | backend/app/middleware.py:90-98 | Retry-After is between 1 and 60 and the least whole number of seconds that reaches the next window |
| RateLimiting.WaitingHelps | backend/app/middleware.py:90-98 | A refused client that waits Retry-After is served, unless its key used up the new window meanwhile |
| RateLimiting.NeverStricter | backend/app/middleware.py:77-90 | Whatever the clock does, a request that a plain count admits is admitted |
| RateLimiting.DepartsExactlyWhenForgotten | backend/app/middleware.py:77-90 | For any clock, some limit lets through what a plain count would refuse exactly when an earlier request of the key in the window was followed by one of the key in another window, or by a cleanup in another window |
| RateLimiting.ClockStepBackForgets | backend/app/middleware.py:80-84 | In every trace in which a key has used up its window, one request of the key in another window lets the next one in the used-up window through |
| Calculator.EvalMeans | backend/app/tools/calculator.py:33-56 | Evaluation yields an integer exactly when the expression has one by the laws of integer arithmetic, and that one |
| Calculator.FirstProblem | backend/app/tools/calculator.py:40-44 | Operands are evaluated from left to right; which problem a binary operator raises, exactly |
| Calculator.MagnitudeBounded | backend/app/tools/calculator.py:33-56 | A value of an integer expression is at most M to the power 256^height, M its largest absolute constant or 2 |
| Calculator.TowerAttainsBound | backend/app/tools/calculator.py:41-44 | For every M of at least 256 and every height some expression attains the bound |
| Calculator.ApplyBounded | backend/app/tools/calculator.py:40-44 | With the exponent guard one operator raises the magnitude at most to its 256th power |
| Calculator.FloorDivisionLaw | backend/app/tools/calculator.py:10-18 | Python's // and % are the only quotient and remainder with the remainder between zero and the divisor |
| Calculator.FloorAgainstEuclid | backend/app/tools/calculator.py:10-18 | Where they differ from Euclidean division: inexact division by a negative number, and by how much |
| Calculator.MinMaxLaw | backend/app/tools/calculator.py:20-29 | min and max return one of the arguments, a bound of all |
| AgentLoop.Agent.Run | backend/app/agents/base.py:54-111 | At most max(1, N) chat calls, each on the transcript so far; stops early only on an answer without tool calls; reported tokens and tool calls are the transcript's sums and counts |
| AgentLoop.Agent.Reply | backend/app/agents/base.py:86-92 | The tool's own output, or an error text for a failing or unknown tool |
| AgentLoop.PromptShows | backend/app/agents/base.py:46-52 | The prompt starts with the task and shows the context, or says that there is none |
| AgentLoop.Accounted | backend/app/agents/base.py:70-71 | A token count that is present is counted, an absent one counts nothing |
| AgentLoop.TranscriptWellFormed | backend/app/agents/base.py:76-101 | The transcript is the prompt and, back to back, one block per response that asked for tools: its assistant message, then one reply per call with its id and name, in order |
| AgentLoop.CallsAreReplies | backend/app/agents/base.py:93-101 | The tool messages of a transcript are as many as the calls requested |
| Backoff.DelayForFactor | backend/app/services/scheduler.py:324-329 | The delay for a given jitter factor: the capped exponential times the factor, never negative |
| Backoff.DoublesUntilCap | backend/app/services/scheduler.py:324-329 | Without jitter each delay is the double of the one before, up to the cap, and never shorter |
| Backoff.TotalWaitBounded | backend/app/services/scheduler.py:324-329 | With jitter, the delays of attempts 1 to R add up to at most 1.2 * min(base * (2^R - 1), R * cap) |
| Retries.RetriesWait | backend/app/services/scheduler.py:268-289 | In a run without stale reads the retries of a task are numbered 1, 2, ... up to at most the limit, and all waits for them together keep that bound |
| Backoff.UncappedWait | backend/app/services/scheduler.py:324-329 | Without jitter and below the cap the total is exactly base * (2^R - 1) |
| Text.JoinLaidOut | backend/app/services/scheduler.py:487 | str.join position by position: the parts in order, the separator between neighbours, nothing else |
| Text.LaidOutUnique | backend/app/services/scheduler.py:487 | And only one text is laid out so |
| Text.StripSplits | backend/app/services/aggregator.py:45 | str.strip removes white space at both ends, all of it and nothing else |

## Left out

- SQL, ORM sessions, migrations and the Redis wire protocol: only committed updates, snapshots, the unique key and list and sorted-set commands are kept.
- Decoding of JSON text and of job payloads: the planner starts from a decoded value, a job is a plan or task job with a valid id, and `_handle_job`'s rejection of malformed jobs is dropped.
- LLM providers, web search, URL fetch and thread pools: agents, providers and tools are arbitrary functions or arbitrary choices; a timeout is a failed agent run.
- Wall-clock times, leases, `started_at`, durations and error texts: nothing modelled depends on them, and the reaper may act at any time instead.
- Several executions at once: their rows and jobs are disjoint.
- Recovery from crashes between an update and its queue push, while planning, or before or during the pass that follows an attempt, and from database or Redis exceptions inside a pass: the code has none.
- Infinite runs and fairness: the theorems are about finite runs, every one of which is bounded.
- Runs.NoLostWakeup: assumes that no process stops between popping a job and acting on it, between an update and its push, while planning, or before or during the pass that follows an attempt; `Losses` gives the exact law for the first of these.
- Rounding of floating-point costs: costs are whole millionths of a dollar.
- Lower-casing beyond ASCII: no name an agent type is compared with contains a letter it could produce.
- The text of the planner's prompts, and how the fallback plan shortens the request: the shortened request is a parameter.
- Calculator.MagnitudeBounded: says nothing once an expression leaves the integers (true division, negative exponents, sqrt, log, float constants, round with two arguments); parsing and printing are left out.
- Agreement.DistributedRefinesInline: covers agents whose success does not depend on their context or on the attempt, because the two paths give different contexts and only one retries.
- Scheduling.Scheduler.RecoverStaleTasks: states the uninterrupted loop; the interrupted one is the step system's `Reap` and `RecoverOne`.
- The request-size limit, routes, streaming, authentication, configuration, logging and metrics: input and output, or one-branch facts.
