/**
 * The database: one execution row, its task rows (row i is the task whose
 * order_index is i) and the result table keyed by task.  Every operation below
 * is one committed UPDATE or one transaction of the scheduler: it re-checks its
 * guard against the rows as they are when it commits.
 */
module Tables {
  import opened Text

  datatype AgentType = Research | Analysis | Summarization

  datatype TaskStatus = Pending | Running | Retrying | Completed | Failed

  datatype ExecutionStatus = ExecPending | ExecPlanning | ExecRunning | ExecCompleted | ExecFailed

  /** What is recorded with a successful agent run; cost in millionths of a dollar, to which estimate_cost rounds. */
  datatype Metrics = Metrics(tokens: nat, cost: nat, toolCalls: nat)

  datatype Task = Task(
    agent: AgentType,
    description: string,
    dependsOn: seq<int>,
    status: TaskStatus,
    enqueued: bool,
    attempts: nat,
    metrics: Option<Metrics>)

  /** A result row, together with the metrics of the agent run that produced the output. */
  datatype Saved = Saved(output: string, producedBy: Metrics)

  datatype Execution = Execution(
    status: ExecutionStatus,
    finalResult: Option<string>,
    totalTokens: Option<nat>,
    totalCost: Option<nat>)

  datatype Tables = Tables(execution: Execution, tasks: seq<Task>, results: map<nat, Saved>)

  /** What _finalize decides to write. */
  datatype Verdict =
    | Success(finalResult: string, tokens: nat, cost: nat)
    | Failure(tokens: nat, cost: nat)

  predicate Terminal(status: TaskStatus) {
    status.Completed? || status.Failed?
  }

  predicate Claimable(status: TaskStatus) {
    status.Pending? || status.Retrying?
  }

  predicate AllTerminal(tasks: seq<Task>) {
    forall i :: 0 <= i < |tasks| ==> Terminal(tasks[i].status)
  }

  predicate AllCompleted(tasks: seq<Task>) {
    forall i :: 0 <= i < |tasks| ==> tasks[i].status.Completed?
  }

  // ---- tests made by the scheduling pass; a dependency that names no row is skipped (`if i in by_index`) ----

  /** A row the scheduling pass looks at: still PENDING and not enqueued. */
  predicate Untouched(task: Task) {
    task.status.Pending? && !task.enqueued
  }

  predicate Doomed(tasks: seq<Task>, i: nat)
    requires i < |tasks|
  {
    exists d :: d in tasks[i].dependsOn && 0 <= d < |tasks| && tasks[d].status.Failed?
  }

  predicate DepsCompleted(tasks: seq<Task>, i: nat)
    requires i < |tasks|
  {
    forall d :: d in tasks[i].dependsOn && 0 <= d < |tasks| ==> tasks[d].status.Completed?
  }

  /** Rows a fresh scheduling pass would act on. */
  predicate Actionable(tasks: seq<Task>, i: nat)
    requires i < |tasks|
  {
    Untouched(tasks[i]) && (Doomed(tasks, i) || DepsCompleted(tasks, i))
  }

  // ---- guarded updates ----

  /** _claim_task: PENDING/RETRYING -> RUNNING. */
  function ClaimTask(db: Tables, t: nat): Tables
    requires t < |db.tasks|
  {
    if Claimable(db.tasks[t].status)
    then db.(tasks := db.tasks[t := db.tasks[t].(status := Running)])
    else db
  }

  /** The idempotency branch of execute_task: RUNNING -> COMPLETED, nothing else recorded. */
  function CompleteIfRunning(db: Tables, t: nat): Tables
    requires t < |db.tasks|
  {
    if db.tasks[t].status.Running?
    then db.(tasks := db.tasks[t := db.tasks[t].(status := Completed)])
    else db
  }

  /** _persist_success: the unique key keeps an existing result; the row is guarded on RUNNING/RETRYING. */
  function PersistSuccess(db: Tables, t: nat, output: string, metrics: Metrics): Tables
    requires t < |db.tasks|
  {
    var results := if t in db.results then db.results else db.results[t := Saved(output, metrics)];
    var row := db.tasks[t];
    if row.status.Running? || row.status.Retrying?
    then db.(results := results, tasks := db.tasks[t := row.(status := Completed, metrics := Some(metrics))])
    else db.(results := results)
  }

  /** The UPDATE of _retry_or_fail, given the attempts value read earlier. */
  function RetryOrFail(db: Tables, t: nat, attemptsRead: nat, maxRetries: int): Tables
    requires t < |db.tasks|
  {
    if db.tasks[t].status.Running?
    then db.(tasks := db.tasks[t := db.tasks[t].(
      status := if attemptsRead + 1 <= maxRetries then Retrying else Failed,
      attempts := attemptsRead + 1)])
    else db
  }

  /** The cascade UPDATE: guarded on PENDING only. */
  function CascadeFailure(db: Tables, t: nat): Tables
    requires t < |db.tasks|
  {
    if db.tasks[t].status.Pending?
    then db.(tasks := db.tasks[t := db.tasks[t].(status := Failed, enqueued := true)])
    else db
  }

  /** _mark_enqueued: guarded on the flag only. */
  function MarkEnqueued(db: Tables, t: nat): Tables
    requires t < |db.tasks|
  {
    if !db.tasks[t].enqueued
    then db.(tasks := db.tasks[t := db.tasks[t].(enqueued := true)])
    else db
  }

  /** _guard_execution */
  function GuardExecution(db: Tables, expected: ExecutionStatus, next: ExecutionStatus): Tables {
    if db.execution.status == expected then db.(execution := db.execution.(status := next)) else db
  }

  function TokensSpent(task: Task): nat {
    if task.metrics.Some? then task.metrics.value.tokens else 0
  }

  function CostSpent(task: Task): nat {
    if task.metrics.Some? then task.metrics.value.cost else 0
  }

  /** The UPDATE of _finalize. */
  function WriteVerdict(db: Tables, v: Verdict): Tables {
    if db.execution.status == ExecRunning then db.(execution := Finalized(db.execution, v)) else db
  }

  function Finalized(e: Execution, v: Verdict): Execution {
    match v
    case Success(text, tokens, cost) => Execution(ExecCompleted, Some(text), Some(tokens), Some(cost))
    case Failure(tokens, cost) => e.(status := ExecFailed, totalTokens := Some(tokens), totalCost := Some(cost))
  }
}
