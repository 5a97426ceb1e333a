/**
 * scheduler.py, run by one process without interference.  Each small method is
 * one guarded UPDATE and is proved to be the transaction of the same name in
 * Tables, which is also the step of the concurrent system; the scheduling pass
 * is proved to be an order-independent fixpoint.
 */
module Scheduling {
  import opened Text
  import opened Tables
  import T = Tables
  import opened Sums
  import opened Totals
  import opened Aggregation
  import opened System
  import opened Termination
  import opened JobQueues
  import opened Sequential
  import Safety
  import Runs
  import Planning

  // ---- what reachable rows satisfy, stated on the rows alone ----

  predicate Released(row: Task) {
    row.status.Running? || row.status.Retrying? || row.status.Completed? || (row.status.Pending? && row.enqueued)
  }

  /** Every dependency names an earlier row, as the planner guarantees. */
  ghost predicate WellFounded(tasks: seq<Task>) {
    forall i :: 0 <= i < |tasks| ==> Safety.DependenciesEarlier(tasks, i)
  }

  /** And a row was released only after its dependencies had completed. */
  ghost predicate RowsOk(tasks: seq<Task>) {
    && WellFounded(tasks)
    && (forall i :: 0 <= i < |tasks| && Released(tasks[i]) ==> DepsCompleted(tasks, i))
  }

  lemma ReachableRowsOk(c: Config, s: State)
    requires Runs.Reachable(c, s)
    ensures RowsOk(s.db.tasks)
  {
    Runs.ReachableInvariant(c, s);
    forall i | 0 <= i < |s.db.tasks|
      ensures Safety.DependenciesEarlier(s.db.tasks, i) && (Released(s.db.tasks[i]) ==> DepsCompleted(s.db.tasks, i))
    {
      assert Safety.TaskOk(c, s, i);
    }
  }

  // ---- the fixpoint ----

  /** An untouched row that a chain of untouched rows links to a FAILED one. */
  ghost predicate Cascades(tasks: seq<Task>, i: nat)
    requires i < |tasks|
    decreases i
  {
    Untouched(tasks[i]) &&
    exists d :: d in tasks[i].dependsOn && 0 <= d < i && (tasks[d].status.Failed? || Cascades(tasks, d))
  }

  ghost function SettledRow(tasks: seq<Task>, i: nat): Task
    requires i < |tasks|
  {
    if Cascades(tasks, i) then tasks[i].(status := Failed, enqueued := true)
    else if Untouched(tasks[i]) && DepsCompleted(tasks, i) then tasks[i].(enqueued := true)
    else tasks[i]
  }

  /** What a scheduling pass leaves. */
  ghost function Settled(tasks: seq<Task>): (rows: seq<Task>)
    ensures |rows| == |tasks| && forall i :: 0 <= i < |tasks| ==> rows[i] == SettledRow(tasks, i)
  {
    seq(|tasks|, i requires 0 <= i < |tasks| => SettledRow(tasks, i))
  }

  /** A chain of dependency edges from row i to a FAILED row. */
  ghost predicate FailurePath(tasks: seq<Task>, path: seq<nat>) {
    && path != []
    && (forall k :: 0 <= k < |path| ==> path[k] < |tasks|)
    && (forall k :: 0 <= k < |path| - 1 ==> path[k + 1] in tasks[path[k]].dependsOn)
    && tasks[path[|path| - 1]].status.Failed?
  }

  ghost predicate ReachesFailure(tasks: seq<Task>, i: nat) {
    exists path :: FailurePath(tasks, path) && path[0] == i
  }

  /** The cascade is exactly reachability of a FAILED row along dependency edges. */
  lemma CascadesIsReachability(tasks: seq<Task>, i: nat)
    requires RowsOk(tasks) && i < |tasks|
    ensures Cascades(tasks, i) || tasks[i].status.Failed? <==> ReachesFailure(tasks, i)
  {
    if Cascades(tasks, i) || tasks[i].status.Failed? {
      CascadeHasPath(tasks, i);
    }
    if ReachesFailure(tasks, i) {
      var path :| FailurePath(tasks, path) && path[0] == i;
      PathCascades(tasks, path);
    }
  }

  lemma {:induction false} CascadeHasPath(tasks: seq<Task>, i: nat)
    requires i < |tasks| && (Cascades(tasks, i) || tasks[i].status.Failed?)
    ensures ReachesFailure(tasks, i)
    decreases i
  {
    if tasks[i].status.Failed? {
      assert FailurePath(tasks, [i]);
    } else {
      var d :| d in tasks[i].dependsOn && 0 <= d < i && (tasks[d].status.Failed? || Cascades(tasks, d));
      CascadeHasPath(tasks, d);
      var path :| FailurePath(tasks, path) && path[0] == d;
      assert FailurePath(tasks, [i] + path);
    }
  }

  lemma {:induction false} PathCascades(tasks: seq<Task>, path: seq<nat>)
    requires RowsOk(tasks) && FailurePath(tasks, path)
    ensures Cascades(tasks, path[0]) || tasks[path[0]].status.Failed?
    decreases |path|
  {
    if |path| > 1 {
      var i, d := path[0], path[1];
      assert path[0 + 1] in tasks[path[0]].dependsOn;
      assert FailurePath(tasks, path[1..]) by {
        forall k | 0 <= k < |path[1..]| - 1 ensures path[1..][k + 1] in tasks[path[1..][k]].dependsOn {
          assert path[k + 1 + 1] in tasks[path[k + 1]].dependsOn;
        }
      }
      PathCascades(tasks, path[1..]);
      assert Safety.DependenciesEarlier(tasks, i);
      if tasks[d].status.Failed? || Cascades(tasks, d) {
        assert !tasks[d].status.Completed?;
      }
    }
  }

  // ---- each update of the pass moves towards the fixpoint without changing it ----

  lemma {:induction false} CascadesAfter(tasks: seq<Task>, tasks': seq<Task>, i: nat, j: nat)
    requires WellFounded(tasks) && i < |tasks| && j < |tasks| && |tasks'| == |tasks|
    requires Untouched(tasks[i]) && tasks' == tasks[i := tasks'[i]] && tasks'[i].dependsOn == tasks[i].dependsOn
    requires
      || (Doomed(tasks, i) && tasks'[i].status.Failed?)
      || (DepsCompleted(tasks, i) && tasks'[i].status.Pending? && tasks'[i].enqueued)
    ensures (Cascades(tasks', j) || tasks'[j].status.Failed?) <==> (Cascades(tasks, j) || tasks[j].status.Failed?)
    ensures j != i ==> (Cascades(tasks', j) <==> Cascades(tasks, j))
    decreases j
  {
    assert Safety.DependenciesEarlier(tasks, j) && Safety.DependenciesEarlier(tasks, i);
    forall d | d in tasks[j].dependsOn
      ensures 0 <= d < j
      ensures (Cascades(tasks', d) || tasks'[d].status.Failed?) <==> (Cascades(tasks, d) || tasks[d].status.Failed?)
    {
      CascadesAfter(tasks, tasks', i, d);
    }
    if j == i && Doomed(tasks, i) {
      var d :| d in tasks[i].dependsOn && 0 <= d < |tasks| && tasks[d].status.Failed?;
      assert Cascades(tasks, i);
    } else if j == i {
      assert !Cascades(tasks, i) by {
        forall d | d in tasks[i].dependsOn ensures !tasks[d].status.Failed? && !Cascades(tasks, d) {
          assert tasks[d].status.Completed?;
        }
      }
    }
  }

  lemma UpdateKeepsFixpoint(tasks: seq<Task>, tasks': seq<Task>, i: nat)
    requires WellFounded(tasks) && i < |tasks| && Untouched(tasks[i])
    requires
      || (Doomed(tasks, i) && tasks' == tasks[i := tasks[i].(status := Failed, enqueued := true)])
      || (!Doomed(tasks, i) && DepsCompleted(tasks, i) && tasks' == tasks[i := tasks[i].(enqueued := true)])
    ensures WellFounded(tasks') && Settled(tasks') == Settled(tasks)
  {
    forall j | 0 <= j < |tasks|
      ensures SettledRow(tasks', j) == SettledRow(tasks, j)
      ensures Safety.DependenciesEarlier(tasks', j)
    {
      assert Safety.DependenciesEarlier(tasks, j);
      CascadesAfter(tasks, tasks', i, j);
      ReadinessKept(tasks, tasks', i, j);
    }
  }

  lemma ReadinessKept(tasks: seq<Task>, tasks': seq<Task>, i: nat, j: nat)
    requires i < |tasks| && j < |tasks| && |tasks'| == |tasks|
    requires Untouched(tasks[i]) && tasks' == tasks[i := tasks'[i]] && tasks'[i].dependsOn == tasks[i].dependsOn
    requires !tasks'[i].status.Completed?
    ensures DepsCompleted(tasks', j) <==> DepsCompleted(tasks, j)
  {
    forall d | d in tasks[j].dependsOn && 0 <= d < |tasks|
      ensures tasks'[d].status.Completed? <==> tasks[d].status.Completed?
    {
    }
  }

  lemma {:induction false} NothingCascades(tasks: seq<Task>, i: nat)
    requires WellFounded(tasks) && i < |tasks|
    requires forall k :: 0 <= k < |tasks| ==> !Actionable(tasks, k)
    ensures !Cascades(tasks, i)
    decreases i
  {
    assert !Actionable(tasks, i);
    forall d | d in tasks[i].dependsOn && 0 <= d < i ensures !Cascades(tasks, d) {
      NothingCascades(tasks, d);
    }
  }

  lemma FixpointReached(tasks: seq<Task>)
    requires WellFounded(tasks) && forall k :: 0 <= k < |tasks| ==> !Actionable(tasks, k)
    ensures Settled(tasks) == tasks
  {
    forall i | 0 <= i < |tasks| ensures SettledRow(tasks, i) == tasks[i] {
      NothingCascades(tasks, i);
      assert !Actionable(tasks, i);
    }
  }

  // ---- old copies of rows, as a session holds them ----

  predicate Copies(rows: seq<Task>, tasks: seq<Task>) {
    |rows| == |tasks| && forall i :: 0 <= i < |rows| ==> Safety.OldCopy(rows[i], tasks[i])
  }

  lemma CopyDoomed(rows: seq<Task>, tasks: seq<Task>, i: nat)
    requires Copies(rows, tasks) && i < |rows| && Doomed(rows, i)
    ensures Doomed(tasks, i)
  {
    var d :| d in rows[i].dependsOn && 0 <= d < |rows| && rows[d].status.Failed?;
    assert Safety.OldCopy(rows[i], tasks[i]) && Safety.OldCopy(rows[d], tasks[d]);
  }

  lemma CopyReady(rows: seq<Task>, tasks: seq<Task>, i: nat)
    requires Copies(rows, tasks) && i < |rows| && DepsCompleted(rows, i)
    ensures DepsCompleted(tasks, i) && !Doomed(tasks, i)
  {
    assert Safety.OldCopy(rows[i], tasks[i]);
    forall d | d in tasks[i].dependsOn && 0 <= d < |tasks| ensures tasks[d].status.Completed? {
      assert Safety.OldCopy(rows[d], tasks[d]);
    }
  }

  lemma SettledRowsOk(tasks: seq<Task>, i: nat)
    requires RowsOk(tasks) && i < |tasks|
    ensures Safety.DependenciesEarlier(Settled(tasks), i)
    ensures Released(Settled(tasks)[i]) ==> DepsCompleted(Settled(tasks), i)
    ensures !Actionable(Settled(tasks), i)
  {
    var rows := Settled(tasks);
    assert Safety.DependenciesEarlier(tasks, i);
    forall d | d in tasks[i].dependsOn
      ensures 0 <= d < i && (rows[d].status.Completed? <==> tasks[d].status.Completed?)
      ensures rows[d].status.Failed? <==> tasks[d].status.Failed? || Cascades(tasks, d)
    {
    }
    if Doomed(rows, i) && Untouched(tasks[i]) {
      var d :| d in rows[i].dependsOn && 0 <= d < |rows| && rows[d].status.Failed?;
      assert Cascades(tasks, i);
    }
  }

  /**
   * The fixpoint, without its construction: FAILED afterwards are exactly the rows a
   * chain of dependencies links to a FAILED one, newly enqueued exactly the ready
   * ones, every other row is as before, and another pass would change nothing.
   */
  lemma SettledExactly(tasks: seq<Task>)
    requires RowsOk(tasks)
    ensures forall i: nat :: i < |tasks| ==> (Settled(tasks)[i].status.Failed? <==> ReachesFailure(tasks, i))
    ensures forall i: nat :: i < |tasks| && !tasks[i].status.Failed? && !ReachesFailure(tasks, i) ==>
      Settled(tasks)[i] == tasks[i].(enqueued := tasks[i].enqueued || ReadyIn(tasks, i))
    ensures Settled(Settled(tasks)) == Settled(tasks)
  {
    var rows := Settled(tasks);
    forall i: nat | i < |tasks|
      ensures rows[i].status.Failed? <==> ReachesFailure(tasks, i)
      ensures !tasks[i].status.Failed? && !ReachesFailure(tasks, i) ==>
        rows[i] == tasks[i].(enqueued := tasks[i].enqueued || ReadyIn(tasks, i))
    {
      CascadesIsReachability(tasks, i);
    }
    forall i | 0 <= i < |tasks|
      ensures Safety.DependenciesEarlier(rows, i)
      ensures (Released(rows[i]) ==> DepsCompleted(rows, i)) && !Actionable(rows, i)
    {
      SettledRowsOk(tasks, i);
    }
    FixpointReached(rows);
  }

  /** What a session's copies say of a row's dependencies is true of the rows. */
  lemma CopyJudged(rows: seq<Task>, tasks: seq<Task>, i: nat)
    requires Copies(rows, tasks) && i < |rows|
    ensures Doomed(rows, i) ==> Doomed(tasks, i)
    ensures DepsCompleted(rows, i) ==> DepsCompleted(tasks, i) && !Doomed(tasks, i)
  {
    if Doomed(rows, i) {
      CopyDoomed(rows, tasks, i);
    }
    if DepsCompleted(rows, i) {
      CopyReady(rows, tasks, i);
    }
  }

  // ---- finalization ----

  function FinalizedTables(db: Tables): Tables {
    if db.tasks == [] || !AllTerminal(db.tasks) then db
    else WriteVerdict(db, VerdictOf(db.tasks, db.results))
  }

  /** The execution is left alone unless it is RUNNING and all its tasks have ended; then it gets their verdict. */
  ghost predicate FinalizedProperly(before: Tables, after: Tables) {
    && after.tasks == before.tasks && after.results == before.results
    && if before.execution.status != ExecRunning || before.tasks == []
          || exists i :: 0 <= i < |before.tasks| && before.tasks[i].status !in {Completed, Failed}
       then after.execution == before.execution
       else
         && after.execution.totalTokens == Some(RecordedTokens(before.tasks))
         && after.execution.totalCost == Some(RecordedCost(before.tasks))
         && if forall i :: 0 <= i < |before.tasks| ==> before.tasks[i].status == Completed then
              && after.execution.status == ExecCompleted && after.execution.finalResult.Some?
              && exists os ::
                Runs.OutcomesAre(before.tasks, before.results, os) && Summarizes(os, after.execution.finalResult.value)
            else
              after.execution.status == ExecFailed && after.execution.finalResult == before.execution.finalResult
  }

  lemma FinalizedMeans(db: Tables)
    ensures FinalizedProperly(db, FinalizedTables(db))
  {
    hide AggregateText, Outcomes, Total, TokensSpent, CostSpent, RecordedTokens, RecordedCost, Summarizes;
    hide Runs.OutcomesAre;
    TotalsAreRecorded(db.tasks);
    Runs.OutcomesHold(db.tasks, db.results);
    AggregateSummarizes(Outcomes(db.tasks, db.results));
  }

  /** What an uninterrupted schedule_execution leaves in the database. */
  ghost function AfterPass(db: Tables): Tables {
    FinalizedTables(db.(tasks := Settled(db.tasks)))
  }

  ghost predicate ReadyIn(tasks: seq<Task>, i: nat) {
    i < |tasks| && Untouched(tasks[i]) && DepsCompleted(tasks, i) && !Doomed(tasks, i)
  }

  /** The jobs pushed: exactly the rows that were ready, each once. */
  ghost predicate PushedReady(tasks: seq<Task>, before: Redis, after: Redis, pushed: seq<nat>) {
    && Distinct(pushed)
    && (forall i :: i in pushed <==> ReadyIn(tasks, i))
    && after == before.(queue := before.queue + Jobs(pushed))
  }

  // ---- progress of a pass ----

  /** One effective update of a pass, with the job it pushes. */
  ghost predicate PassUpdate(before: Tables, after: Tables, jobs: Redis, jobs': Redis, i: nat) {
    var tasks := before.tasks;
    && i < |tasks| && Untouched(tasks[i])
    && if Doomed(tasks, i) then
      && after == before.(tasks := tasks[i := tasks[i].(status := Failed, enqueued := true)])
      && jobs' == jobs
    else
      && DepsCompleted(tasks, i)
      && after == before.(tasks := tasks[i := tasks[i].(enqueued := true)])
      && jobs' == jobs.(queue := jobs.queue + [TaskJob(i)])
  }

  /** `pushed` are the ready rows already enqueued; nothing else is lost or added on the way to the fixpoint. */
  ghost predicate Progress(given: Tables, redis: Redis, db: Tables, jobs: Redis, pushed: seq<nat>) {
    && WellFounded(db.tasks) && Settled(db.tasks) == Settled(given.tasks)
    && db == given.(tasks := db.tasks)
    && Distinct(pushed)
    && (forall i :: ReadyIn(given.tasks, i) <==> i in pushed || ReadyIn(db.tasks, i))
    && (forall i :: i in pushed ==> !ReadyIn(db.tasks, i))
    && jobs == redis.(queue := redis.queue + Jobs(pushed))
  }

  lemma ProgressInitially(given: Tables, redis: Redis)
    requires WellFounded(given.tasks)
    ensures Progress(given, redis, given, redis, [])
  {
    hide WellFounded, Settled;
    assert redis.queue + Jobs([]) == redis.queue;
  }

  lemma ProgressWellFounded(given: Tables, redis: Redis, db: Tables, jobs: Redis, pushed: seq<nat>)
    requires Progress(given, redis, db, jobs, pushed)
    ensures WellFounded(db.tasks)
  {
  }

  lemma ReadyAfter(before: Tables, after: Tables, jobs: Redis, jobs': Redis, i: nat, j: nat)
    requires WellFounded(before.tasks) && PassUpdate(before, after, jobs, jobs', i)
    ensures ReadyIn(after.tasks, j) <==> ReadyIn(before.tasks, j) && j != i
  {
    if j < |before.tasks| {
      ReadinessKept(before.tasks, after.tasks, i, j);
      if DepsCompleted(before.tasks, j) {
        ReadyNotDoomed(before.tasks, j);
        ReadyNotDoomed(after.tasks, j);
      }
    }
  }

  lemma ReadyNotDoomed(tasks: seq<Task>, i: nat)
    requires i < |tasks| && DepsCompleted(tasks, i)
    ensures !Doomed(tasks, i)
  {
  }

  lemma ProgressStep(
    given: Tables, redis: Redis, before: Tables, jobs: Redis, after: Tables, jobs': Redis, pushed: seq<nat>, i: nat)
    returns (pushed': seq<nat>)
    requires Progress(given, redis, before, jobs, pushed) && PassUpdate(before, after, jobs, jobs', i)
    ensures Progress(given, redis, after, jobs', pushed')
    ensures FreshRows(after.tasks) < FreshRows(before.tasks)
  {
    UpdateKeepsFixpoint(before.tasks, after.tasks, i);
    TotalUpdate(before.tasks, i, after.tasks[i], FreshWeight);
    forall j: nat ensures ReadyIn(after.tasks, j) <==> ReadyIn(before.tasks, j) && j != i {
      ReadyAfter(before, after, jobs, jobs', i, j);
    }
    pushed' := if Doomed(before.tasks, i) then pushed else pushed + [i];
    assert ReadyIn(before.tasks, i) <==> !Doomed(before.tasks, i);
    assert Jobs(pushed + [i]) == Jobs(pushed) + [TaskJob(i)];
    hide WellFounded, Settled, ReadyIn, Doomed, DepsCompleted, FreshRows;
  }

  lemma ProgressEnds(given: Tables, redis: Redis, db: Tables, jobs: Redis, pushed: seq<nat>)
    requires Progress(given, redis, db, jobs, pushed)
    requires forall i :: 0 <= i < |db.tasks| ==> !Actionable(db.tasks, i)
    ensures db == given.(tasks := Settled(given.tasks))
    ensures PushedReady(given.tasks, redis, jobs, pushed)
  {
    FixpointReached(db.tasks);
    forall i: nat ensures !ReadyIn(db.tasks, i) {
      assert i < |db.tasks| ==> !Actionable(db.tasks, i);
    }
    hide WellFounded, Settled, ReadyIn, Actionable;
  }

  lemma CopiesInitially(tasks: seq<Task>)
    ensures Copies(tasks, tasks)
  {
  }

  /** An update leaves old copies old copies, the updated row's own new value included. */
  lemma CopiesAfter(rows: seq<Task>, before: Tables, after: Tables, jobs: Redis, jobs': Redis, i: nat)
    requires Copies(rows, before.tasks) && PassUpdate(before, after, jobs, jobs', i)
    ensures Copies(rows, after.tasks) && Copies(rows[i := after.tasks[i]], after.tasks)
    ensures forall j :: 0 <= j < |rows| && j != i ==> after.tasks[j] == before.tasks[j]
  {
    hide Doomed, DepsCompleted;
    forall j | 0 <= j < |rows| ensures Safety.OldCopy(rows[j], after.tasks[j]) {
      assert Safety.OldCopy(rows[j], before.tasks[j]);
    }
  }

  // ---- execute_task and recover_stale_tasks, up to the pass that ends them ----

  /** What a failed attempt leaves in Redis: a delayed retry, or a dead letter. */
  function AfterFailure(jobs: Redis, t: nat, attempts: nat, maxRetries: int, runAt: real): Redis {
    if attempts + 1 <= maxRetries
    then jobs.(delayed := jobs.delayed[t := runAt])
    else jobs.(dead := jobs.dead + [DeadLetter(t, attempts + 1)])
  }

  /** The tables after a won claim of t and the run of its agent. */
  function Attempted(db: Tables, t: nat, agents: Agents, maxRetries: int): Tables
    requires t < |db.tasks|
  {
    var claimed := T.ClaimTask(db, t);
    if t in db.results then T.CompleteIfRunning(claimed, t)
    else
      match agents(t, Runs.ContextOf(claimed, t))
      case Returned(output, metrics) => T.PersistSuccess(claimed, t, output, metrics)
      case Raised => T.RetryOrFail(claimed, t, claimed.tasks[t].attempts, maxRetries)
  }

  function AttemptedJobs(jobs: Redis, db: Tables, t: nat, agents: Agents, maxRetries: int, runAt: real): Redis
    requires t < |db.tasks|
  {
    if t in db.results || agents(t, Runs.ContextOf(T.ClaimTask(db, t), t)).Returned? then jobs
    else AfterFailure(jobs, t, db.tasks[t].attempts, maxRetries, runAt)
  }

  lemma AttemptedWellFounded(db: Tables, t: nat, agents: Agents, maxRetries: int)
    requires WellFounded(db.tasks) && t < |db.tasks|
    ensures WellFounded(Attempted(db, t, agents, maxRetries).tasks)
  {
    hide Runs.ContextOf;
    var after := Attempted(db, t, agents, maxRetries).tasks;
    forall i | 0 <= i < |after| ensures Safety.DependenciesEarlier(after, i) {
      assert Safety.DependenciesEarlier(db.tasks, i);
    }
  }

  // ---- what an attempt records, stated on the rows, the results and the queues ----

  /** The row and the queues after a failed attempt of t that had `attempts` before it. */
  predicate WrittenOff(
    row: Task, row': Task, jobs: Redis, jobs': Redis, t: nat, attempts: nat, maxRetries: int, runAt: real)
  {
    && row' == row.(status := if attempts + 1 <= maxRetries then Retrying else Failed, attempts := attempts + 1)
    && jobs'.queue == jobs.queue
    && if attempts + 1 <= maxRetries
       then jobs'.delayed == jobs.delayed[t := runAt] && jobs'.dead == jobs.dead
       else jobs'.delayed == jobs.delayed && jobs'.dead == jobs.dead + [DeadLetter(t, attempts + 1)]
  }

  /** Nothing but the row of t and its result differs. */
  predicate OnlyTask(db: Tables, db': Tables, t: nat) {
    && db'.execution == db.execution && |db'.tasks| == |db.tasks|
    && (forall i :: 0 <= i < |db.tasks| && i != t ==> db'.tasks[i] == db.tasks[i])
    && (forall i :: i in db.results ==> i in db'.results && db'.results[i] == db.results[i])
    && (forall i :: i in db'.results ==> i in db.results || i == t)
  }

  /** One attempt of a claimable task whose agent did `run`: what is recorded before the pass. */
  predicate AttemptMade(
    db: Tables, jobs: Redis, t: nat, maxRetries: int, run: AgentRun, runAt: real, db': Tables, jobs': Redis)
  {
    && t < |db.tasks| && OnlyTask(db, db', t)
    && if t in db.results then
         db'.tasks[t] == db.tasks[t].(status := Completed) && jobs' == jobs
       else match run
         case Returned(output, metrics) =>
           && t in db'.results && db'.results[t] == Saved(output, metrics)
           && db'.tasks[t] == db.tasks[t].(status := Completed, metrics := Some(metrics))
           && jobs' == jobs
         case Raised =>
           && t !in db'.results
           && WrittenOff(db.tasks[t], db'.tasks[t], jobs, jobs', t, db.tasks[t].attempts, maxRetries, runAt)
  }

  lemma AttemptedIsMade(db: Tables, jobs: Redis, t: nat, agents: Agents, maxRetries: int, runAt: real)
    requires t < |db.tasks| && Claimable(db.tasks[t].status)
    ensures AttemptMade(db, jobs, t, maxRetries, agents(t, Runs.ContextOf(T.ClaimTask(db, t), t)), runAt,
      Attempted(db, t, agents, maxRetries), AttemptedJobs(jobs, db, t, agents, maxRetries, runAt))
  {
    hide Runs.ContextOf;
  }

  /** A claimed task is none of its own dependencies' business. */
  lemma ClaimKeepsContext(db: Tables, t: nat, context: string)
    requires t < |db.tasks| && !db.tasks[t].status.Completed?
    requires Runs.ShowsDependencies(T.ClaimTask(db, t), db.tasks[t].dependsOn, context)
    ensures Runs.ShowsDependencies(db, db.tasks[t].dependsOn, context)
  {
    hide LaidOut;
    var claimed, deps := T.ClaimTask(db, t), db.tasks[t].dependsOn;
    var parts, at :| Runs.SuppliedAt(claimed, deps, parts, at) && LaidOut("\n\n", parts, context);
    forall d ensures Runs.HasOutput(db, d) <==> Runs.HasOutput(claimed, d) {
    }
    assert Runs.SuppliedAt(db, deps, parts, at);
  }

  /** The pass after an attempt leaves what was recorded. */
  lemma PassKeeps(db: Tables)
    ensures AfterPass(db).results == db.results && |AfterPass(db).tasks| == |db.tasks|
    ensures forall i :: 0 <= i < |db.tasks| && !Untouched(db.tasks[i]) ==> AfterPass(db).tasks[i] == db.tasks[i]
  {
  }

  /** An attempt and the pass that follows it. */
  ghost predicate AttemptedAndScheduled(
    db: Tables, jobs: Redis, t: nat, maxRetries: int, run: AgentRun, runAt: real, db': Tables, jobs': Redis)
  {
    exists recorded, pushes, pushed ::
      && AttemptMade(db, jobs, t, maxRetries, run, runAt, recorded, pushes)
      && db' == AfterPass(recorded)
      && PushedReady(recorded.tasks, pushes, jobs', pushed)
  }

  /** What is left of an attempt when the pass is over, on the task itself. */
  lemma AttemptRecorded(
    db: Tables, jobs: Redis, t: nat, maxRetries: int, run: AgentRun, runAt: real, db': Tables, jobs': Redis)
    requires AttemptedAndScheduled(db, jobs, t, maxRetries, run, runAt, db', jobs')
    ensures t < |db.tasks| == |db'.tasks|
    ensures t in db.results ==>
      db'.results == db.results && db'.tasks[t] == db.tasks[t].(status := Completed)
    ensures t !in db.results && run.Returned? ==>
      && db'.results == db.results[t := Saved(run.output, run.metrics)]
      && db'.tasks[t] == db.tasks[t].(status := Completed, metrics := Some(run.metrics))
    ensures t !in db.results && run.Raised? ==>
      && db'.results == db.results
      && db'.tasks[t] == db.tasks[t].(
           status := if db.tasks[t].attempts + 1 <= maxRetries then Retrying else Failed,
           attempts := db.tasks[t].attempts + 1)
  {
    hide AfterPass, PushedReady;
    var recorded, pushes, pushed :|
      && AttemptMade(db, jobs, t, maxRetries, run, runAt, recorded, pushes)
      && db' == AfterPass(recorded)
      && PushedReady(recorded.tasks, pushes, jobs', pushed);
    PassKeeps(recorded);
  }

  function FailedAttempt(row: Task, maxRetries: int): Task {
    row.(status := if row.attempts + 1 <= maxRetries then Retrying else Failed, attempts := row.attempts + 1)
  }

  /** The rows after _retry_or_fail on each stale one. */
  function Recovered(tasks: seq<Task>, stale: seq<nat>, maxRetries: int): (rows: seq<Task>)
    ensures |rows| == |tasks|
    ensures forall i :: 0 <= i < |tasks| && i !in stale ==> rows[i] == tasks[i]
    ensures forall i :: 0 <= i < |tasks| && i in stale ==> rows[i] == FailedAttempt(tasks[i], maxRetries)
  {
    seq(|tasks|, i requires 0 <= i < |tasks| =>
      if i in stale then FailedAttempt(tasks[i], maxRetries) else tasks[i])
  }

  function RecoveredJobs(jobs: Redis, tasks: seq<Task>, stale: seq<nat>, maxRetries: int, runAt: nat -> real): Redis
    requires forall k :: 0 <= k < |stale| ==> stale[k] < |tasks|
  {
    if stale == [] then jobs
    else
      var k := |stale| - 1;
      AfterFailure(RecoveredJobs(jobs, tasks, stale[..k], maxRetries, runAt),
                   stale[k], tasks[stale[k]].attempts, maxRetries, runAt(stale[k]))
  }

  lemma RecoveredWellFounded(tasks: seq<Task>, stale: seq<nat>, maxRetries: int)
    requires WellFounded(tasks)
    ensures WellFounded(Recovered(tasks, stale, maxRetries))
  {
    var rows := Recovered(tasks, stale, maxRetries);
    forall i | 0 <= i < |tasks| ensures Safety.DependenciesEarlier(rows, i) {
      assert Safety.DependenciesEarlier(tasks, i);
    }
  }

  lemma NothingToRecover(tasks: seq<Task>, jobs: Redis, maxRetries: int, runAt: nat -> real)
    ensures Recovered(tasks, [], maxRetries) == tasks && RecoveredJobs(jobs, tasks, [], maxRetries, runAt) == jobs
  {
  }

  lemma RecoverOneMore(db: Tables, jobs: Redis, stale: seq<nat>, k: nat, maxRetries: int, runAt: nat -> real)
    requires Distinct(stale) && k < |stale|
    requires forall j :: 0 <= j < |stale| ==> stale[j] < |db.tasks|
    ensures var t, rows := stale[k], Recovered(db.tasks, stale[..k], maxRetries);
      && rows[t] == db.tasks[t]
      && Recovered(db.tasks, stale[..k + 1], maxRetries) == rows[t := FailedAttempt(rows[t], maxRetries)]
      && RecoveredJobs(jobs, db.tasks, stale[..k + 1], maxRetries, runAt) ==
         AfterFailure(RecoveredJobs(jobs, db.tasks, stale[..k], maxRetries, runAt),
                      t, rows[t].attempts, maxRetries, runAt(t))
  {
    hide FailedAttempt, AfterFailure;
    assert stale[..k + 1] == stale[..k] + [stale[k]] && stale[..k + 1][..k] == stale[..k];
    assert stale[k] !in stale[..k];
  }

  // ---- what the recovery of stale tasks records ----

  predicate Retried(tasks: seq<Task>, stale: seq<nat>, maxRetries: int, i: nat) {
    i in stale && i < |tasks| && tasks[i].attempts + 1 <= maxRetries
  }

  /** The dead letters of the stale tasks that are out of retries, in order; `at` gives their places. */
  predicate LettersAt(tasks: seq<Task>, stale: seq<nat>, maxRetries: int, letters: seq<DeadLetter>, at: seq<nat>) {
    && |at| == |letters|
    && (forall k :: 0 <= k < |at| ==>
          && at[k] < |stale| && stale[at[k]] < |tasks| && tasks[stale[at[k]]].attempts + 1 > maxRetries
          && letters[k] == DeadLetter(stale[at[k]], tasks[stale[at[k]]].attempts + 1))
    && (forall k, l :: 0 <= k < l < |at| ==> at[k] < at[l])
    && (forall j :: 0 <= j < |stale| && stale[j] < |tasks| && tasks[stale[j]].attempts + 1 > maxRetries ==> j in at)
  }

  /** Retries are delayed, each for its own time. */
  ghost predicate DelayedAll(
    tasks: seq<Task>, stale: seq<nat>, maxRetries: int, runAt: nat -> real,
    delayed: map<nat, real>, delayed': map<nat, real>)
  {
    && (forall i :: i in delayed' <==> i in delayed || Retried(tasks, stale, maxRetries, i))
    && (forall i :: i in delayed' ==>
          delayed'[i] == if Retried(tasks, stale, maxRetries, i) then runAt(i) else delayed[i])
  }

  ghost predicate QueuedAll(
    tasks: seq<Task>, stale: seq<nat>, maxRetries: int, runAt: nat -> real, jobs: Redis, jobs': Redis)
  {
    && jobs'.queue == jobs.queue
    && DelayedAll(tasks, stale, maxRetries, runAt, jobs.delayed, jobs'.delayed)
    && exists letters, at :: LettersAt(tasks, stale, maxRetries, letters, at) && jobs'.dead == jobs.dead + letters
  }

  /** The last stale task: its effect on the queues. */
  lemma RecoveredLast(jobs: Redis, tasks: seq<Task>, stale: seq<nat>, maxRetries: int, runAt: nat -> real)
    requires stale != [] && forall k :: 0 <= k < |stale| ==> stale[k] < |tasks|
    ensures
      var t := stale[|stale| - 1];
      var before := RecoveredJobs(jobs, tasks, stale[..|stale| - 1], maxRetries, runAt);
      var after := RecoveredJobs(jobs, tasks, stale, maxRetries, runAt);
      && after.queue == before.queue
      && after.delayed ==
           (if tasks[t].attempts + 1 <= maxRetries then before.delayed[t := runAt(t)] else before.delayed)
      && after.dead ==
           before.dead + (if tasks[t].attempts + 1 <= maxRetries then [] else [DeadLetter(t, tasks[t].attempts + 1)])
  {
  }

  lemma {:induction false} RecoveredDelayed(
    jobs: Redis, tasks: seq<Task>, stale: seq<nat>, maxRetries: int, runAt: nat -> real)
    requires forall k :: 0 <= k < |stale| ==> stale[k] < |tasks|
    ensures var jobs' := RecoveredJobs(jobs, tasks, stale, maxRetries, runAt);
      jobs'.queue == jobs.queue && DelayedAll(tasks, stale, maxRetries, runAt, jobs.delayed, jobs'.delayed)
  {
    if stale != [] {
      RecoveredDelayed(jobs, tasks, stale[..|stale| - 1], maxRetries, runAt);
      RecoveredLast(jobs, tasks, stale, maxRetries, runAt);
      hide DelayedAll, RecoveredJobs;
      DelayedOneMore(tasks, stale, maxRetries, runAt, jobs.delayed,
        RecoveredJobs(jobs, tasks, stale[..|stale| - 1], maxRetries, runAt).delayed,
        RecoveredJobs(jobs, tasks, stale, maxRetries, runAt).delayed);
    }
  }

  lemma {:induction false} RecoveredLetters(
    jobs: Redis, tasks: seq<Task>, stale: seq<nat>, maxRetries: int, runAt: nat -> real)
    returns (letters: seq<DeadLetter>, at: seq<nat>)
    requires forall k :: 0 <= k < |stale| ==> stale[k] < |tasks|
    ensures LettersAt(tasks, stale, maxRetries, letters, at)
    ensures RecoveredJobs(jobs, tasks, stale, maxRetries, runAt).dead == jobs.dead + letters
  {
    letters, at := [], [];
    if stale == [] {
      assert jobs.dead + letters == jobs.dead;
    } else {
      letters, at := RecoveredLetters(jobs, tasks, stale[..|stale| - 1], maxRetries, runAt);
      RecoveredLast(jobs, tasks, stale, maxRetries, runAt);
      hide LettersAt, RecoveredJobs;
      letters, at := OneMoreLetter(tasks, stale, maxRetries, letters, at);
    }
  }

  lemma OneMoreLetter(tasks: seq<Task>, stale: seq<nat>, maxRetries: int, letters: seq<DeadLetter>, at: seq<nat>)
    returns (letters': seq<DeadLetter>, at': seq<nat>)
    requires stale != [] && stale[|stale| - 1] < |tasks|
    requires LettersAt(tasks, stale[..|stale| - 1], maxRetries, letters, at)
    ensures LettersAt(tasks, stale, maxRetries, letters', at')
    ensures var t := stale[|stale| - 1];
      letters' == letters +
        if tasks[t].attempts + 1 <= maxRetries then [] else [DeadLetter(t, tasks[t].attempts + 1)]
  {
    var n, t := |stale| - 1, stale[|stale| - 1];
    if tasks[t].attempts + 1 <= maxRetries {
      letters', at' := letters, at;
    } else {
      letters', at' := letters + [DeadLetter(t, tasks[t].attempts + 1)], at + [n];
      assert at'[|at|] == n;
      forall j | 0 <= j < |stale| && stale[j] < |tasks| && tasks[stale[j]].attempts + 1 > maxRetries
        ensures j in at'
      {
        if j < n {
          assert stale[..n][j] == stale[j] && j in at;
        }
      }
    }
  }

  lemma DelayedOneMore(
    tasks: seq<Task>, stale: seq<nat>, maxRetries: int, runAt: nat -> real,
    given: map<nat, real>, before: map<nat, real>, after: map<nat, real>)
    requires stale != [] && stale[|stale| - 1] < |tasks|
    requires DelayedAll(tasks, stale[..|stale| - 1], maxRetries, runAt, given, before)
    requires var t := stale[|stale| - 1];
      after == if tasks[t].attempts + 1 <= maxRetries then before[t := runAt(t)] else before
    ensures DelayedAll(tasks, stale, maxRetries, runAt, given, after)
  {
    var n, t := |stale| - 1, stale[|stale| - 1];
    forall i: nat
      ensures Retried(tasks, stale, maxRetries, i) <==>
        Retried(tasks, stale[..n], maxRetries, i) || (i == t && tasks[t].attempts + 1 <= maxRetries)
    {
      assert stale == stale[..n] + [t];
    }
    hide Retried;
  }

  predicate OneMoreAttempt(row: Task, row': Task, maxRetries: int) {
    row' == row.(status := if row.attempts + 1 <= maxRetries then Retrying else Failed, attempts := row.attempts + 1)
  }

  /** Every stale row is written off once; the others, the results and the execution are as before. */
  ghost predicate AllWrittenOff(
    db: Tables, jobs: Redis, stale: seq<nat>, maxRetries: int, runAt: nat -> real, db': Tables, jobs': Redis)
  {
    && db'.execution == db.execution && db'.results == db.results && |db'.tasks| == |db.tasks|
    && (forall i :: 0 <= i < |db.tasks| && i !in stale ==> db'.tasks[i] == db.tasks[i])
    && (forall i :: 0 <= i < |db.tasks| && i in stale ==> OneMoreAttempt(db.tasks[i], db'.tasks[i], maxRetries))
    && QueuedAll(db.tasks, stale, maxRetries, runAt, jobs, jobs')
  }

  lemma RecoveredQueued(jobs: Redis, tasks: seq<Task>, stale: seq<nat>, maxRetries: int, runAt: nat -> real)
    requires forall k :: 0 <= k < |stale| ==> stale[k] < |tasks|
    ensures QueuedAll(tasks, stale, maxRetries, runAt, jobs, RecoveredJobs(jobs, tasks, stale, maxRetries, runAt))
  {
    hide LettersAt, DelayedAll, RecoveredJobs;
    RecoveredDelayed(jobs, tasks, stale, maxRetries, runAt);
    var letters, at := RecoveredLetters(jobs, tasks, stale, maxRetries, runAt);
  }

  lemma RecoveredAllWrittenOff(
    db: Tables, jobs: Redis, stale: seq<nat>, maxRetries: int, runAt: nat -> real)
    requires forall k :: 0 <= k < |stale| ==> stale[k] < |db.tasks|
    ensures AllWrittenOff(db, jobs, stale, maxRetries, runAt,
      db.(tasks := Recovered(db.tasks, stale, maxRetries)), RecoveredJobs(jobs, db.tasks, stale, maxRetries, runAt))
  {
    hide QueuedAll, RecoveredJobs;
    RecoveredQueued(jobs, db.tasks, stale, maxRetries, runAt);
  }

  /** Recovery and the pass that follows it. */
  ghost predicate RecoveredAndScheduled(
    db: Tables, jobs: Redis, stale: seq<nat>, maxRetries: int, runAt: nat -> real, db': Tables, jobs': Redis)
  {
    exists recorded, pushes, pushed ::
      && AllWrittenOff(db, jobs, stale, maxRetries, runAt, recorded, pushes)
      && db' == AfterPass(recorded)
      && PushedReady(recorded.tasks, pushes, jobs', pushed)
  }

  // ---- plan_execution ----

  lemma PlannedWellFounded(answer: Planning.Json, repr: Planning.Json -> string, snippet: string, limit: nat)
    ensures WellFounded(Planning.RowsOf(Planning.PlanOf(answer, repr, snippet, limit)))
  {
    hide Planning.Chosen, Planning.AssignOne, Planning.DependenciesRespected;
    var source := Planning.Clamp(Planning.Chosen(answer, repr, snippet), limit);
    var rows := Planning.RowsOf(Planning.PlanOf(answer, repr, snippet, limit));
    forall i | 0 <= i < |rows| ensures Safety.DependenciesEarlier(rows, i) {
      Planning.AssignOneRespects(source[i], i);
    }
  }

  /** Fresh rows for the tasks of a plan. */
  predicate FreshRowsFor(plan: seq<Planning.Subtask>, rows: seq<Task>) {
    && |rows| == |plan|
    && forall i :: 0 <= i < |rows| ==>
      rows[i] == Task(plan[i].agent, plan[i].description, plan[i].dependsOn, Pending, false, 0, None)
  }

  /** The execution starts RUNNING with fresh rows for a plan that follows the answer, and a pass over them follows. */
  ghost predicate PlannedAndScheduled(
    db: Tables, jobs: Redis, answer: Planning.Json, repr: Planning.Json -> string, snippet: string, limit: nat,
    db': Tables, jobs': Redis)
  {
    exists plan, rows, pushed ::
      && Planning.Follows(answer, repr, snippet, limit, plan) && FreshRowsFor(plan, rows)
      && db' == AfterPass(db.(tasks := rows, execution := db.execution.(status := ExecRunning)))
      && PushedReady(rows, jobs, jobs', pushed)
  }

  /** Planning enqueues the independent tasks, exactly those, and fails none. */
  lemma IndependentTasksEnqueued(answer: Planning.Json, repr: Planning.Json -> string, snippet: string, limit: nat)
    ensures var rows := Planning.RowsOf(Planning.PlanOf(answer, repr, snippet, limit));
      && (forall i: nat :: ReadyIn(rows, i) <==> i < |rows| && rows[i].dependsOn == [])
      && forall i: nat :: i < |rows| ==> Settled(rows)[i] == rows[i].(enqueued := rows[i].dependsOn == [])
  {
    hide Planning.PlanOf;
    var rows := Planning.RowsOf(Planning.PlanOf(answer, repr, snippet, limit));
    PlannedWellFounded(answer, repr, snippet, limit);
    forall i: nat | i < |rows|
      ensures ReadyIn(rows, i) <==> rows[i].dependsOn == []
      ensures !Cascades(rows, i)
    {
      assert Safety.DependenciesEarlier(rows, i);
      if rows[i].dependsOn != [] {
        var d := rows[i].dependsOn[0];
        assert d in rows[i].dependsOn && rows[d].status.Pending?;
      }
      NoFailureNoCascade(rows, i);
    }
  }

  lemma {:induction false} NoFailureNoCascade(tasks: seq<Task>, i: nat)
    requires i < |tasks| && forall k :: 0 <= k < |tasks| ==> !tasks[k].status.Failed?
    ensures !Cascades(tasks, i)
    decreases i
  {
    forall d | d in tasks[i].dependsOn && 0 <= d < i ensures !Cascades(tasks, d) {
      NoFailureNoCascade(tasks, d);
    }
  }

  class Scheduler {
    var db: Tables
    const queue: JobQueue
    const maxRetries: int

    constructor (db: Tables, queue: JobQueue, maxRetries: int)
      ensures this.db == db && this.queue == queue && this.maxRetries == maxRetries
    {
      this.db := db;
      this.queue := queue;
      this.maxRetries := maxRetries;
    }

    // ---- guarded updates ----

    method ClaimTask(t: nat) returns (won: bool)
      requires t < |db.tasks|
      modifies this
      ensures db == T.ClaimTask(old(db), t)
      ensures won <==> old(db).tasks[t].status == Pending || old(db).tasks[t].status == Retrying
      ensures db == if won then old(db).(tasks := old(db).tasks[t := old(db).tasks[t].(status := Running)]) else old(db)
    {
      won := db.tasks[t].status.Pending? || db.tasks[t].status.Retrying?;
      if won {
        db := db.(tasks := db.tasks[t := db.tasks[t].(status := Running)]);
      }
    }

    method MarkEnqueued(t: nat) returns (won: bool)
      requires t < |db.tasks|
      modifies this
      ensures db == T.MarkEnqueued(old(db), t)
      ensures won <==> !old(db).tasks[t].enqueued
      ensures db == if won then old(db).(tasks := old(db).tasks[t := old(db).tasks[t].(enqueued := true)]) else old(db)
    {
      won := !db.tasks[t].enqueued;
      if won {
        db := db.(tasks := db.tasks[t := db.tasks[t].(enqueued := true)]);
      }
    }

    method CascadeFailure(t: nat) returns (won: bool)
      requires t < |db.tasks|
      modifies this
      ensures db == T.CascadeFailure(old(db), t)
      ensures won <==> old(db).tasks[t].status == Pending
      ensures db ==
        if won then old(db).(tasks := old(db).tasks[t := old(db).tasks[t].(status := Failed, enqueued := true)])
        else old(db)
    {
      won := db.tasks[t].status.Pending?;
      if won {
        db := db.(tasks := db.tasks[t := db.tasks[t].(status := Failed, enqueued := true)]);
      }
    }

    method GuardExecution(expected: ExecutionStatus, next: ExecutionStatus) returns (won: bool)
      modifies this
      ensures db == T.GuardExecution(old(db), expected, next)
      ensures won <==> old(db).execution.status == expected
      ensures db == if won then old(db).(execution := old(db).execution.(status := next)) else old(db)
    {
      won := db.execution.status == expected;
      if won {
        db := db.(execution := db.execution.(status := next));
      }
    }

    method PersistSuccess(t: nat, output: string, metrics: Metrics)
      requires t < |db.tasks|
      modifies this
      ensures db == T.PersistSuccess(old(db), t, output, metrics)
      ensures db.execution == old(db).execution && |db.tasks| == |old(db).tasks|
      ensures db.results ==
        if t in old(db).results then old(db).results else old(db).results[t := Saved(output, metrics)]
      ensures db.tasks[t] ==
        if old(db).tasks[t].status == Running || old(db).tasks[t].status == Retrying
        then old(db).tasks[t].(status := Completed, metrics := Some(metrics)) else old(db).tasks[t]
      ensures forall i :: 0 <= i < |db.tasks| && i != t ==> db.tasks[i] == old(db).tasks[i]
    {
      if t !in db.results {
        db := db.(results := db.results[t := Saved(output, metrics)]);
      }
      var row := db.tasks[t];
      if row.status.Running? || row.status.Retrying? {
        db := db.(tasks := db.tasks[t := row.(status := Completed, metrics := Some(metrics))]);
      }
    }

    /** Which of the two ways the failed attempt went; a lost race changes nothing. */
    method RetryOrFail(t: nat, attemptsRead: nat, runAt: real)
      requires t < |db.tasks|
      modifies this, queue
      ensures db == T.RetryOrFail(old(db), t, attemptsRead, maxRetries)
      ensures db ==
        if old(db).tasks[t].status != Running then old(db)
        else old(db).(tasks := old(db).tasks[t := old(db).tasks[t].(
          status := if attemptsRead + 1 <= maxRetries then Retrying else Failed,
          attempts := attemptsRead + 1)])
      ensures queue.redis ==
        if !old(db).tasks[t].status.Running? then old(queue.redis)
        else if attemptsRead + 1 <= maxRetries
        then old(queue.redis).(delayed := old(queue.redis).delayed[t := runAt])
        else old(queue.redis).(dead := old(queue.redis).dead + [DeadLetter(t, attemptsRead + 1)])
    {
      var attemptsNew := attemptsRead + 1;
      var won := db.tasks[t].status.Running?;
      if attemptsNew <= maxRetries {
        if won {
          db := db.(tasks := db.tasks[t := db.tasks[t].(status := Retrying, attempts := attemptsNew)]);
          queue.ScheduleTask(t, runAt);
        }
        return;
      }
      if won {
        db := db.(tasks := db.tasks[t := db.tasks[t].(status := Failed, attempts := attemptsNew)]);
        queue.PushDeadLetter(DeadLetter(t, attemptsNew));
      }
    }

    method Finalize()
      modifies this
      ensures db == FinalizedTables(old(db))
      ensures FinalizedProperly(old(db), db)
    {
      FinalizedMeans(db);
      hide FinalizedProperly;
      var tasks := db.tasks;
      if tasks == [] {
        return;
      }
      if exists i :: 0 <= i < |tasks| && !Terminal(tasks[i].status) {
        return;
      }
      var totalTokens, totalCost := Total(tasks, TokensSpent), Total(tasks, CostSpent);
      if AllCompleted(tasks) {
        var aggregator := new Aggregator();
        var finalResult := aggregator.Aggregate(Outcomes(tasks, db.results));
        if db.execution.status == ExecRunning {
          db := db.(execution := Execution(ExecCompleted, Some(finalResult), Some(totalTokens), Some(totalCost)));
        }
      } else {
        if db.execution.status == ExecRunning {
          db := db.(execution := db.execution.(
            status := ExecFailed, totalTokens := Some(totalTokens), totalCost := Some(totalCost)));
        }
      }
    }

    // ---- the scheduling pass ----

    /**
     * One row of a pass, judged on the session's copies, however old they are; `won` says
     * whether an update took effect.  When the copy of the row itself is up to date an
     * effective update is one the present rows call for.
     */
    method VisitRow(rows: seq<Task>, i: nat) returns (won: bool)
      requires i < |rows| == |db.tasks|
      modifies this, queue
      ensures db ==
        if !Untouched(rows[i]) then old(db)
        else if Doomed(rows, i) then T.CascadeFailure(old(db), i)
        else if DepsCompleted(rows, i) then T.MarkEnqueued(old(db), i)
        else old(db)
      ensures won <==> db != old(db)
      ensures queue.redis ==
        if won && !Doomed(rows, i) then old(queue.redis).(queue := old(queue.redis).queue + [TaskJob(i)])
        else old(queue.redis)
      ensures !won && rows == old(db.tasks) ==> !Actionable(rows, i)
      ensures won && Copies(rows, old(db.tasks)) && rows[i] == old(db.tasks)[i] ==>
        PassUpdate(old(db), db, old(queue.redis), queue.redis, i)
    {
      won := false;
      if !rows[i].status.Pending? || rows[i].enqueued {
        return;
      }
      if Copies(rows, db.tasks) {
        CopyJudged(rows, db.tasks, i);
      }
      if Doomed(rows, i) {
        won := CascadeFailure(i);
      } else if DepsCompleted(rows, i) {
        won := MarkEnqueued(i);
        if won {
          queue.Enqueue(TaskJob(i));
        }
      }
    }

    /** Any order of the rows, and own updates seen or not: the outcome is the fixpoint. */
    method ScheduleExecution()
      requires WellFounded(db.tasks)
      modifies this, queue
      ensures db == AfterPass(old(db))
      ensures FinalizedProperly(old(db).(tasks := Settled(old(db).tasks)), db)
      ensures exists pushed :: PushedReady(old(db.tasks), old(queue.redis), queue.redis, pushed)
    {
      hide FinalizedTables, FinalizedProperly, Settled, WellFounded, PassUpdate, Progress, Actionable, Copies;
      hide PushedReady;
      ghost var given, redis, pushed := db, queue.redis, [];
      ProgressInitially(given, redis);
      var changed := true;
      while changed
        invariant Progress(given, redis, db, queue.redis, pushed)
        invariant !changed ==> forall i :: 0 <= i < |db.tasks| ==> !Actionable(db.tasks, i)
        decreases FreshRows(db.tasks), changed
      {
        changed := false;
        ProgressWellFounded(given, redis, db, queue.redis, pushed);
        CopiesInitially(db.tasks);
        ghost var left := FreshRows(db.tasks);
        var rows := db.tasks;
        var todo := Indices(|rows|);
        while todo != {}
          invariant Progress(given, redis, db, queue.redis, pushed)
          invariant Copies(rows, db.tasks) && |rows| == |db.tasks|
          invariant forall i :: i in todo ==> i < |rows| && rows[i] == db.tasks[i]
          invariant if changed then FreshRows(db.tasks) < left else FreshRows(db.tasks) == left && rows == db.tasks
          invariant !changed ==> forall i :: 0 <= i < |rows| && i !in todo ==> !Actionable(rows, i)
          decreases todo
        {
          var i :| i in todo;
          todo := todo - {i};
          ghost var before, jobs := db, queue.redis;
          var won := VisitRow(rows, i);
          if won {
            pushed := ProgressStep(given, redis, before, jobs, db, queue.redis, pushed, i);
            CopiesAfter(rows, before, db, jobs, queue.redis, i);
            changed := true;
            var seesOwn: bool := *;
            if seesOwn {
              rows := rows[i := db.tasks[i]];
            }
          }
        }
      }
      ProgressEnds(given, redis, db, queue.redis, pushed);
      Finalize();
    }

    // ---- job handlers ----

    method DependencyContext(t: nat) returns (context: string)
      requires t < |db.tasks|
      ensures context == Runs.ContextOf(db, t)
      ensures Runs.ShowsDependencies(db, db.tasks[t].dependsOn, context)
    {
      Runs.ContextShows(db, t);
      hide Runs.ShowsDependencies, Runs.ContextParts, Join;
      var deps := db.tasks[t].dependsOn;
      var parts: seq<string> := [];
      for k := 0 to |deps|
        invariant parts == Runs.ContextParts(db, deps[..k])
      {
        Runs.ContextPartsStep(db, deps, k);
        var index := deps[k];
        if 0 <= index < |db.tasks| && db.tasks[index].status.Completed? && index in db.results {
          parts := parts + ["[" + AgentName(db.tasks[index].agent) + "] " + db.results[index].output];
        }
      }
      assert deps[..|deps|] == deps;
      context := Join("\n\n", parts);
    }

    /** One delivery of a task's job; a delivery that cannot claim the task changes nothing. */
    method ExecuteTask(t: nat, agents: Agents, runAt: real)
      requires WellFounded(db.tasks) && t < |db.tasks|
      modifies this, queue
      ensures old(db).tasks[t].status != Pending && old(db).tasks[t].status != Retrying ==>
        db == old(db) && queue.redis == old(queue.redis)
      ensures old(db).tasks[t].status == Pending || old(db).tasks[t].status == Retrying ==>
        exists context ::
          && Runs.ShowsDependencies(old(db), old(db).tasks[t].dependsOn, context)
          && AttemptedAndScheduled(old(db), old(queue.redis), t, maxRetries, agents(t, context), runAt, db, queue.redis)
    {
      hide WellFounded, DepsCompleted, AfterPass, PushedReady, Runs.ContextOf, Runs.ShowsDependencies, AttemptMade;
      hide FinalizedProperly;
      ghost var given, redis := db, queue.redis;
      var won := ClaimTask(t);
      if !won {
        return;
      }
      AttemptedWellFounded(given, t, agents, maxRetries);
      AttemptedIsMade(given, redis, t, agents, maxRetries, runAt);
      Runs.ContextShows(db, t);
      ClaimKeepsContext(given, t, Runs.ContextOf(db, t));
      if t in db.results {
        if db.tasks[t].status.Running? {
          db := db.(tasks := db.tasks[t := db.tasks[t].(status := Completed)]);
        }
      } else {
        var context := DependencyContext(t);
        match agents(t, context)
        case Returned(output, metrics) => PersistSuccess(t, output, metrics);
        case Raised => RetryOrFail(t, db.tasks[t].attempts, runAt);
      }
      assert db == Attempted(given, t, agents, maxRetries);
      assert queue.redis == AttemptedJobs(redis, given, t, agents, maxRetries, runAt);
      ScheduleExecution();
    }

    /** `stale`: the RUNNING rows whose lease expired. */
    method RecoverStaleTasks(stale: seq<nat>, runAt: nat -> real) returns (recovered: nat)
      requires WellFounded(db.tasks) && Distinct(stale)
      requires forall k :: 0 <= k < |stale| ==> stale[k] < |db.tasks| && db.tasks[stale[k]].status.Running?
      modifies this, queue
      ensures recovered == |stale|
      ensures stale == [] ==> db == old(db) && queue.redis == old(queue.redis)
      ensures stale != [] ==>
        RecoveredAndScheduled(old(db), old(queue.redis), stale, maxRetries, runAt, db, queue.redis)
    {
      hide WellFounded, AfterPass, PushedReady, Recovered, RecoveredJobs, AllWrittenOff, FinalizedProperly;
      ghost var given, redis := db, queue.redis;
      recovered := 0;
      NothingToRecover(given.tasks, redis, maxRetries, runAt);
      for k := 0 to |stale|
        invariant recovered == k
        invariant db == given.(tasks := Recovered(given.tasks, stale[..k], maxRetries))
        invariant queue.redis == RecoveredJobs(redis, given.tasks, stale[..k], maxRetries, runAt)
      {
        var t := stale[k];
        RecoverOneMore(given, redis, stale, k, maxRetries, runAt);
        RetryOrFail(t, db.tasks[t].attempts, runAt(t));
        recovered := recovered + 1;
      }
      assert stale[..|stale|] == stale;
      if stale == [] {
        NothingToRecover(given.tasks, redis, maxRetries, runAt);
        return;
      }
      RecoveredWellFounded(given.tasks, stale, maxRetries);
      RecoveredAllWrittenOff(given, redis, stale, maxRetries, runAt);
      ScheduleExecution();
    }

    /** `answer` is None when the planner raises. */
    method PlanExecution(answer: Option<Planning.Json>, snippet: string, planner: Planning.Planner)
      requires db.execution.status == ExecPending ==> db.tasks == []
      modifies this, queue
      ensures old(db).execution.status != ExecPending ==> db == old(db) && queue.redis == old(queue.redis)
      ensures old(db).execution.status == ExecPending && answer.None? ==>
        db == old(db).(execution := old(db).execution.(status := ExecFailed)) && queue.redis == old(queue.redis)
      ensures old(db).execution.status == ExecPending && answer.Some? ==>
        PlannedAndScheduled(old(db), old(queue.redis), answer.value, planner.repr, snippet, planner.maxTasks,
          db, queue.redis)
    {
      hide WellFounded, AfterPass, PushedReady, Planning.PlanOf, Planning.Follows, FinalizedProperly;
      var won := GuardExecution(ExecPending, ExecPlanning);
      if !won {
        return;
      }
      if answer.None? {
        db := db.(execution := db.execution.(status := ExecFailed));
        return;
      }
      var subtasks := planner.Plan(answer.value, snippet);
      PlannedWellFounded(answer.value, planner.repr, snippet, planner.maxTasks);
      db := db.(tasks := Planning.RowsOf(subtasks));
      assert FreshRowsFor(subtasks, db.tasks);
      won := GuardExecution(ExecPlanning, ExecRunning);
      ScheduleExecution();
    }
  }
}
