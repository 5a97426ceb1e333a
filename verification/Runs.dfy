/** Whole runs of the distributed path, and what holds in every reachable state. */
module Runs {
  import opened Text
  import opened Tables
  import opened Sums
  import opened Totals
  import opened Selections
  import opened Aggregation
  import opened System
  import opened Safety
  import opened Preservation
  import opened Tokens
  import opened Wakeups
  import opened Termination

  /** Every action of the run is enabled where it is taken. */
  ghost predicate ValidRun(c: Config, s: State, run: seq<Action>)
    decreases |run|
  {
    run == [] || (Shape(s) && Enabled(s, run[0]) && ValidRun(c, Next(c, s, run[0]), run[1..]))
  }

  ghost function After(c: Config, s: State, run: seq<Action>): State
    requires ValidRun(c, s, run)
    decreases |run|
  {
    if run == [] then s else After(c, Next(c, s, run[0]), run[1..])
  }

  predicate NoLeaseExpiry(run: seq<Action>) {
    forall k :: 0 <= k < |run| ==> !run[k].Reap?
  }

  ghost predicate Invariant(c: Config, s: State) {
    && Core(c, s) && Shape(s) && Sized(c, s)
    && TokensConserved(s) && DeadLettersExact(c, s) && Awake(s) && RoundsBounded(s)
  }

  lemma InvariantStep(c: Config, s: State, a: Action)
    requires 1 <= c.maxTasks && Invariant(c, s) && Enabled(s, a)
    ensures Invariant(c, Next(c, s, a))
  {
    hide Core, Shape, Sized, TokensConserved, DeadLettersExact, Awake, RoundsBounded, Next, Enabled;
    CoreStep(c, s, a);
    CoreShape(c, Next(c, s, a));
    SizedStep(c, s, a);
    TokensStep(c, s, a);
    DeadLettersStep(c, s, a);
    AwakeStep(c, s, a);
    RoundsStep(c, s, a);
  }

  lemma InvariantInitially(c: Config, n: nat)
    ensures Invariant(c, Initial(n))
  {
    CoreInitially(c, n);
  }

  lemma {:induction false} InvariantRun(c: Config, s: State, run: seq<Action>)
    requires 1 <= c.maxTasks && Invariant(c, s) && ValidRun(c, s, run)
    ensures Invariant(c, After(c, s, run))
    decreases |run|
  {
    if run != [] {
      InvariantStep(c, s, run[0]);
      InvariantRun(c, Next(c, s, run[0]), run[1..]);
    }
  }

  ghost predicate Reachable(c: Config, s: State) {
    1 <= c.maxTasks && exists n, run :: ValidRun(c, Initial(n), run) && After(c, Initial(n), run) == s
  }

  lemma ReachableInvariant(c: Config, s: State)
    requires Reachable(c, s)
    ensures Invariant(c, s)
  {
    var n, run :| ValidRun(c, Initial(n), run) && After(c, Initial(n), run) == s;
    InvariantInitially(c, n);
    InvariantRun(c, Initial(n), run);
  }

  // ---- liveness ----

  /** No lost wake-up: when nothing is left to happen, the execution has finished. */
  lemma NoLostWakeup(c: Config, s: State)
    requires Reachable(c, s) && Quiescent(s)
    ensures s.db.execution.status == ExecCompleted || s.db.execution.status == ExecFailed
    ensures s.db.tasks != [] ==> AllTerminal(s.db.tasks)
    ensures s.db.tasks != [] ==> (s.db.execution.status == ExecCompleted <==> AllCompleted(s.db.tasks))
  {
    ReachableInvariant(c, s);
    QuiescentIsFinished(c, s);
  }

  // ---- dependency order ----

  ghost predicate Started(s: State, i: nat)
    requires i < |s.db.tasks|
  {
    var status := s.db.tasks[i].status;
    status.Running? || status.Retrying? || status.Completed? || TokenCount(s, i) > 0
  }

  /** A task runs, has run, or has a job anywhere only after all its dependencies completed with a result. */
  lemma DependencyOrder(c: Config, s: State, i: nat, d: int)
    requires Reachable(c, s) && i < |s.db.tasks| && Started(s, i) && d in s.db.tasks[i].dependsOn
    ensures 0 <= d < i && s.db.tasks[d].status.Completed? && d in s.db.results
  {
    ReachableInvariant(c, s);
    assert TaskOk(c, s, i);
    if !s.history[i].released {
      NoTokenBeforeRelease(c, s, i);
    }
    assert 0 <= d < i;
    assert TaskOk(c, s, d);
  }

  function ContextPart(db: Tables, d: nat): string
    requires d < |db.tasks| && d in db.results
  {
    "[" + AgentName(db.tasks[d].agent) + "] " + db.results[d].output
  }

  /** The parts _dependency_context collects: entries that are missing or unfinished are skipped. */
  function ContextParts(db: Tables, deps: seq<int>): seq<string> {
    if deps == [] then []
    else
      var d := deps[|deps| - 1];
      ContextParts(db, deps[..|deps| - 1]) +
      if Provided(db, d) then [ContextPart(db, d)] else []
  }

  lemma ContextPartsStep(db: Tables, deps: seq<int>, k: nat)
    requires k < |deps|
    ensures ContextParts(db, deps[..0]) == []
    ensures ContextParts(db, deps[..k + 1]) ==
      ContextParts(db, deps[..k]) + (if Provided(db, deps[k]) then [ContextPart(db, deps[k])] else [])
  {
    assert deps[..k + 1][..k] == deps[..k];
  }

  predicate Provided(db: Tables, d: int) {
    0 <= d < |db.tasks| && db.tasks[d].status.Completed? && d in db.results
  }

  lemma {:induction false} NothingSkipped(db: Tables, deps: seq<int>)
    requires forall k :: 0 <= k < |deps| ==> Provided(db, deps[k])
    ensures |ContextParts(db, deps)| == |deps|
    ensures forall k :: 0 <= k < |deps| ==>
      Provided(db, deps[k]) && ContextParts(db, deps)[k] == ContextPart(db, deps[k])
  {
    if deps != [] {
      assert Provided(db, deps[|deps| - 1]);
      NothingSkipped(db, deps[..|deps| - 1]);
    }
  }

  /** _dependency_context */
  function ContextOf(db: Tables, t: nat): string
    requires t < |db.tasks|
  {
    Join("\n\n", ContextParts(db, db.tasks[t].dependsOn))
  }

  predicate HasOutput(db: Tables, d: int) {
    0 <= d < |db.tasks| && db.tasks[d].status == Completed && d in db.results
  }

  /** The output of dependency d after its agent's name. */
  predicate IsPartFor(db: Tables, d: int, part: string) {
    HasOutput(db, d) && var i: nat := d; part == Labelled(db.tasks[i].agent, db.results[i].output)
  }

  /** One labelled output for each listed dependency that has one, in list order; `at` gives their places. */
  ghost predicate SuppliedAt(db: Tables, deps: seq<int>, parts: seq<string>, at: seq<nat>) {
    && |at| == |parts|
    && (forall k :: 0 <= k < |at| ==> at[k] < |deps| && IsPartFor(db, deps[at[k]], parts[k]))
    && (forall k, l :: 0 <= k < l < |at| ==> at[k] < at[l])
    && (forall j :: 0 <= j < |deps| && HasOutput(db, deps[j]) ==> j in at)
  }

  /** The context an agent gets for the dependencies. */
  ghost predicate ShowsDependencies(db: Tables, deps: seq<int>, context: string) {
    exists parts, at :: SuppliedAt(db, deps, parts, at) && LaidOut("\n\n", parts, context)
  }

  function Supply(db: Tables): int -> Option<string> {
    (d: int) => if Provided(db, d) then Some(ContextPart(db, d)) else None
  }

  lemma {:induction false} PartsSelected(db: Tables, deps: seq<int>) returns (at: seq<nat>)
    ensures Selects(deps, Supply(db), ContextParts(db, deps), at)
  {
    at := [];
    if deps != [] {
      var front, last := deps[..|deps| - 1], deps[|deps| - 1];
      at := PartsSelected(db, front);
      SelectsNext(front, Supply(db), ContextParts(db, front), at, last);
      assert front + [last] == deps;
      hide Selects;
      if Provided(db, last) {
        at := at + [|front|];
      }
    }
  }

  lemma ContextShows(db: Tables, t: nat)
    requires t < |db.tasks|
    ensures ShowsDependencies(db, db.tasks[t].dependsOn, ContextOf(db, t))
  {
    hide LaidOut, Join, ContextParts, Labelled, AgentName;
    var deps := db.tasks[t].dependsOn;
    var parts := ContextParts(db, deps);
    var at := PartsSelected(db, deps);
    forall k | 0 <= k < |at|
      ensures at[k] < |deps| && IsPartFor(db, deps[at[k]], parts[k])
    {
      assert Supply(db)(deps[at[k]]) == Some(parts[k]);
      LabelledByName(db.tasks[deps[at[k]]].agent, db.results[deps[at[k]]].output);
    }
    JoinLaidOut("\n\n", parts);
    assert SuppliedAt(db, deps, parts, at);
  }

  /** Exactly one part per listed dependency, in list order. */
  predicate AllSupplied(db: Tables, deps: seq<int>, parts: seq<string>) {
    && |parts| == |deps|
    && forall k :: 0 <= k < |deps| ==> IsPartFor(db, deps[k], parts[k])
  }

  /** Whenever a worker is past its claim, its context has exactly one part per listed dependency, in order. */
  lemma ContextIsComplete(c: Config, s: State, p: nat)
    requires Reachable(c, s) && p < |s.procs| && (s.procs[p].Claimed? || s.procs[p].Working?)
    ensures s.procs[p].task < |s.db.tasks|
    ensures exists parts ::
      && AllSupplied(s.db, s.db.tasks[s.procs[p].task].dependsOn, parts)
      && LaidOut("\n\n", parts, ContextOf(s.db, s.procs[p].task))
  {
    ReachableInvariant(c, s);
    assert ProcOk(c, s, s.procs[p]);
    var t := s.procs[p].task;
    assert TaskOk(c, s, t);
    var deps := s.db.tasks[t].dependsOn;
    forall k | 0 <= k < |deps| ensures Provided(s.db, deps[k]) {
      assert deps[k] in s.db.tasks[t].dependsOn;
      assert TaskOk(c, s, deps[k]);
    }
    hide Invariant, Reachable;
    AllPartsSupplied(s.db, t);
  }

  lemma AllPartsSupplied(db: Tables, t: nat)
    requires t < |db.tasks|
    requires forall k :: 0 <= k < |db.tasks[t].dependsOn| ==> Provided(db, db.tasks[t].dependsOn[k])
    ensures exists parts :: AllSupplied(db, db.tasks[t].dependsOn, parts) && LaidOut("\n\n", parts, ContextOf(db, t))
  {
    hide LaidOut, Join, ContextParts, Labelled, AgentName;
    var deps := db.tasks[t].dependsOn;
    var parts := ContextParts(db, deps);
    NothingSkipped(db, deps);
    forall k | 0 <= k < |deps| ensures IsPartFor(db, deps[k], parts[k]) {
      assert Provided(db, deps[k]);
      LabelledByName(db.tasks[deps[k]].agent, db.results[deps[k]].output);
    }
    JoinLaidOut("\n\n", parts);
    assert AllSupplied(db, deps, parts);
  }

  // ---- tokens and dead letters ----

  /** Token conservation; a redelivered job only weakens "exactly one" to "at least one". */
  lemma TokenConservation(c: Config, s: State, t: nat)
    requires Reachable(c, s) && t < |s.db.tasks|
    ensures |s.history| == |s.db.tasks|
    ensures var row, k := s.db.tasks[t], TokenCount(s, t);
      && (row.status.Retrying? || (row.status.Pending? && row.enqueued) ==> k >= 1)
      && (Untouched(row) ==> k == 0)
      && (!s.history[t].redelivered ==>
        && (row.status.Retrying? || (row.status.Pending? && row.enqueued) ==> k == 1)
        && (row.status.Running? ==> k == 0)
        && (Terminal(row.status) ==> k <= 1))
  {
    ReachableInvariant(c, s);
    assert TaskOk(c, s, t) && TokensOf(s, t);
    if !s.history[t].released {
      NoTokenBeforeRelease(c, s, t);
    }
  }

  /** Exactly the exhausted tasks have a dead letter, and exactly one. */
  lemma DeadLetterExactness(c: Config, s: State, t: nat)
    requires Reachable(c, s) && 0 <= c.maxRetries && t < |s.db.tasks|
    ensures var row := s.db.tasks[t];
      && DeadCount(c, s, t) == (if row.status.Failed? && row.attempts > c.maxRetries then 1 else 0)
      && row.attempts <= c.maxRetries + 1
      && (row.status.Failed? ==> row.attempts == c.maxRetries + 1 || (row.attempts == 0 && Doomed(s.db.tasks, t)))
    ensures forall k :: 0 <= k < |s.redis.dead| ==> s.redis.dead[k].attempts == c.maxRetries + 1
  {
    ReachableInvariant(c, s);
    assert TaskOk(c, s, t);
    ExhaustedMeans(c, s, t);
  }

  // ---- results ----

  lemma ResultsUntouched(c: Config, s: State, a: Action)
    requires Shape(s) && Enabled(s, a) && !a.AgentSucceeds?
    ensures Next(c, s, a).db.results == s.db.results
  {
    hide Shape, Frame, Untouched, Doomed, DepsCompleted;
  }

  /** Result coherence; the late-worker races included. */
  lemma ResultCoherence(c: Config, s: State, t: nat)
    requires Reachable(c, s) && t < |s.db.tasks|
    ensures s.db.tasks[t].status.Completed? ==>
      t in s.db.results && s.db.tasks[t].metrics == Some(s.db.results[t].producedBy)
    ensures t in s.db.results ==> Terminal(s.db.tasks[t].status)
    ensures !s.db.tasks[t].status.Completed? ==> s.db.tasks[t].metrics == None
    ensures t in s.db.results ==> CompleteIfRunning(s.db, t) == s.db
  {
    ReachableInvariant(c, s);
    assert TaskOk(c, s, t);
  }

  /** Finished work and finished executions never change again, whatever runs on. */
  lemma {:induction false} FinishedForEver(c: Config, s: State, run: seq<Action>)
    requires 1 <= c.maxTasks && Invariant(c, s) && ValidRun(c, s, run)
    ensures var s' := After(c, s, run);
      && (forall t :: t in s.db.results ==> t in s'.db.results && s'.db.results[t] == s.db.results[t])
      && (forall t :: 0 <= t < |s.db.tasks| && Terminal(s.db.tasks[t].status) ==>
            t < |s'.db.tasks| && s'.db.tasks[t] == s.db.tasks[t])
      && (s.db.execution.status == ExecCompleted || s.db.execution.status == ExecFailed ==>
            s'.db.execution == s.db.execution)
    decreases |run|
  {
    if run != [] {
      var next := Next(c, s, run[0]);
      FinishedStep(c, s, run[0]);
      InvariantStep(c, s, run[0]);
      FinishedForEver(c, next, run[1..]);
    }
  }

  lemma FinishedStep(c: Config, s: State, a: Action)
    requires 1 <= c.maxTasks && Invariant(c, s) && Enabled(s, a)
    ensures var s' := Next(c, s, a);
      && (forall t :: t in s.db.results ==> t in s'.db.results && s'.db.results[t] == s.db.results[t])
      && (forall t :: 0 <= t < |s.db.tasks| && Terminal(s.db.tasks[t].status) ==>
            t < |s'.db.tasks| && s'.db.tasks[t] == s.db.tasks[t])
      && (s.db.execution.status == ExecCompleted || s.db.execution.status == ExecFailed ==>
            s'.db.execution == s.db.execution)
  {
    if s.db.execution.status == ExecCompleted || s.db.execution.status == ExecFailed {
      ExecutionFrozen(c, s, a);
    }
    CoreStep(c, s, a);
    if a.PlanCommits? {
      NoRowsWhilePlanning(c, s, a.p);
    } else {
      hide Core, Shape, Next, Enabled;
      forall t | 0 <= t < |s.db.tasks| && Terminal(s.db.tasks[t].status)
        ensures Next(c, s, a).db.tasks[t] == s.db.tasks[t]
      {
        assert RowEvolves(s.db.tasks[t], s.history[t], Next(c, s, a).db.tasks[t], Next(c, s, a).history[t]);
      }
    }
  }

  lemma ExecutionUntouched(c: Config, s: State, a: Action)
    requires Shape(s) && Enabled(s, a) && !PlanningAction(a) && !a.CommitVerdict?
    ensures Next(c, s, a).db.execution == s.db.execution
  {
    hide Shape, Untouched, Doomed, DepsCompleted;
  }

  lemma ExecutionFrozen(c: Config, s: State, a: Action)
    requires Core(c, s) && Shape(s) && Enabled(s, a)
    requires s.db.execution.status == ExecCompleted || s.db.execution.status == ExecFailed
    ensures Next(c, s, a).db.execution == s.db.execution
  {
    if PlanningAction(a) {
      TotalAtLeast(s.procs, a.p, PlannerWeight);
    } else if !a.CommitVerdict? {
      ExecutionUntouched(c, s, a);
      hide Core, Shape, Next, Enabled;
    }
  }

  // ---- finalization ----

  /** A finished execution carries the verdict of its terminal rows. */
  lemma FinalizedAsDecided(c: Config, s: State)
    requires Reachable(c, s)
    ensures s.db.execution.status == ExecCompleted ==>
      && s.db.tasks != [] && AllCompleted(s.db.tasks)
      && (forall t :: 0 <= t < |s.db.tasks| ==> t in s.db.results)
      && s.db.execution.finalResult == Some(AggregateText(Outcomes(s.db.tasks, s.db.results)))
      && s.db.execution.totalTokens == Some(Total(s.db.tasks, TokensSpent))
      && s.db.execution.totalCost == Some(Total(s.db.tasks, CostSpent))
    ensures s.db.execution.status == ExecFailed && s.db.tasks != [] ==>
      && AllTerminal(s.db.tasks)
      && (exists t :: 0 <= t < |s.db.tasks| && s.db.tasks[t].status.Failed?)
      && s.db.execution.finalResult == None
      && s.db.execution.totalTokens == Some(Total(s.db.tasks, TokensSpent))
      && s.db.execution.totalCost == Some(Total(s.db.tasks, CostSpent))
  {
    ReachableInvariant(c, s);
    if s.db.execution.status == ExecCompleted {
      forall t | 0 <= t < |s.db.tasks| ensures t in s.db.results {
        assert TaskOk(c, s, t);
      }
    }
  }

  /** One outcome per task, in order: what the row says, with the stored output. */
  predicate OutcomesAre(tasks: seq<Task>, results: map<nat, Saved>, os: seq<Outcome>) {
    && |os| == |tasks|
    && forall i :: 0 <= i < |os| ==>
      && os[i].agent == tasks[i].agent && os[i].description == tasks[i].description
      && os[i].status == tasks[i].status
      && os[i].output == if i in results then results[i].output else ""
  }

  lemma ReachableMetrics(c: Config, s: State)
    requires Reachable(c, s)
    ensures MetricsCoherent(s.db.tasks, s.db.results)
  {
    ReachableInvariant(c, s);
    forall i | 0 <= i < |s.db.tasks|
      ensures
        if s.db.tasks[i].status.Completed?
        then i in s.db.results && s.db.tasks[i].metrics == Some(s.db.results[i].producedBy)
        else s.db.tasks[i].metrics == None
    {
      assert TaskOk(c, s, i);
    }
  }

  /**
   * A finished execution tells the truth: its verdict is that of its rows, its totals
   * are the sums over the agent runs behind the stored results of completed tasks,
   * and its text is the aggregate of the stored outputs.
   */
  lemma FinalizedTruthfully(c: Config, s: State)
    requires Reachable(c, s) && s.db.tasks != []
    requires s.db.execution.status == ExecCompleted || s.db.execution.status == ExecFailed
    ensures forall t :: 0 <= t < |s.db.tasks| ==>
      s.db.tasks[t].status.Completed? || s.db.tasks[t].status.Failed?
    ensures s.db.execution.status == ExecCompleted <==>
      forall t :: 0 <= t < |s.db.tasks| ==> s.db.tasks[t].status.Completed?
    ensures s.db.execution.totalTokens == Some(ProducedTokens(s.db.tasks, s.db.results, |s.db.tasks|))
    ensures s.db.execution.totalCost == Some(ProducedCost(s.db.tasks, s.db.results, |s.db.tasks|))
    ensures s.db.execution.status == ExecCompleted ==>
      exists os :: OutcomesAre(s.db.tasks, s.db.results, os) && s.db.execution.finalResult == Some(AggregateText(os))
    ensures s.db.execution.status == ExecFailed ==> s.db.execution.finalResult == None
  {
    hide Reachable, AggregateText, OutcomesAre, Outcomes, MetricsCoherent;
    hide Total, ProducedTokens, ProducedCost, TokensSpent, CostSpent;
    FinalizedAsDecided(c, s);
    ReachableMetrics(c, s);
    TotalsProduced(s.db.tasks, s.db.results);
    OutcomesHold(s.db.tasks, s.db.results);
  }

  lemma OutcomesHold(tasks: seq<Task>, results: map<nat, Saved>)
    ensures OutcomesAre(tasks, results, Outcomes(tasks, results))
  {
  }

  /** Two finalizers that have read terminal rows hold the same verdict. */
  lemma FinalizersAgree(c: Config, s: State, p: nat, q: nat)
    requires Reachable(c, s) && p < |s.procs| && q < |s.procs|
    requires s.procs[p].Deciding? && s.procs[q].Deciding?
    ensures s.procs[p].verdict == s.procs[q].verdict == VerdictOf(s.db.tasks, s.db.results)
  {
    ReachableInvariant(c, s);
    assert ProcOk(c, s, s.procs[p]) && ProcOk(c, s, s.procs[q]);
  }

  // ---- what the history records ----

  /** The action wins a claim of task t. */
  predicate WinsClaim(s: State, a: Action, t: nat)
    requires Enabled(s, a) && t < |s.db.tasks|
  {
    a.Claim? && s.procs[a.p].task == t && Claimable(s.db.tasks[t].status)
  }

  /** The action is an effective UPDATE of _retry_or_fail on task t. */
  predicate WritesAttempts(s: State, a: Action, t: nat)
    requires Enabled(s, a) && t < |s.db.tasks|
  {
    a.RecoverOne? && s.procs[a.p].batch[0].task == t && s.db.tasks[t].status.Running?
  }

  predicate Recorded(s: State, a: Action, s': State, t: nat)
    requires Enabled(s, a) && t < |s.db.tasks| && t < |s.history| && t < |s'.history|
  {
    var h, h' := s.history[t], s'.history[t];
    && h'.claims == h.claims + (if WinsClaim(s, a, t) then 1 else 0)
    && h'.lost == h.lost +
      (if WritesAttempts(s, a, t) then s.db.tasks[t].attempts - s.procs[a.p].batch[0].attemptsRead else 0)
    && (h'.redelivered <==> h.redelivered || (a.Redeliver? && a.job == TaskJob(t)))
  }

  lemma TaskActionRecorded(c: Config, s: State, a: Action, t: nat)
    requires Shape(s) && Enabled(s, a) && TaskAction(a) && t < |s.db.tasks|
    ensures Recorded(s, a, Next(c, s, a), t)
  {
    hide Frame, Claimable;
  }

  lemma OtherActionRecorded(c: Config, s: State, a: Action, t: nat)
    requires Shape(s) && Enabled(s, a) && (QueueAction(a) || PlanningAction(a)) && !a.PlanCommits? && t < |s.db.tasks|
    ensures Recorded(s, a, Next(c, s, a), t)
  {
    hide Frame;
  }

  lemma PassActionRecorded(c: Config, s: State, a: Action, t: nat)
    requires Shape(s) && Enabled(s, a) && PassAction(a) && t < |s.db.tasks|
    ensures Recorded(s, a, Next(c, s, a), t)
  {
    if a.Visit? {
      VisitHistory(s, a.p, a.row, a.seesOwn, t);
      hide Shape, DoVisit, Frame;
    } else {
      hide Shape, Frame;
    }
  }

  /** The history of a task counts exactly the claims won and the increments overwritten. */
  lemma HistoryRecords(c: Config, s: State, a: Action, t: nat)
    requires Shape(s) && Enabled(s, a) && t < |s.db.tasks| && !a.PlanCommits?
    ensures Recorded(s, a, Next(c, s, a), t)
  {
    hide Next, Recorded, Enabled;
    if TaskAction(a) {
      TaskActionRecorded(c, s, a, t);
    } else if PassAction(a) {
      PassActionRecorded(c, s, a, t);
    } else {
      OtherActionRecorded(c, s, a, t);
    }
  }

  lemma VisitHistory(s: State, p: nat, i: nat, seesOwn: bool, t: nat)
    requires Shape(s) && p < |s.procs| && s.procs[p].Scanning? && i in s.procs[p].todo && t < |s.history|
    ensures var h, h' := s.history[t], DoVisit(s, p, i, seesOwn).history[t];
      h'.claims == h.claims && h'.lost == h.lost && h'.redelivered == h.redelivered
  {
    hide Untouched, Doomed, DepsCompleted;
  }

  // ---- bounded work ----

  /** Claims are bounded by the retries allowed plus the increments that stale reads overwrote. */
  lemma ClaimsBounded(c: Config, s: State, t: nat)
    requires Reachable(c, s) && 0 <= c.maxRetries && t < |s.db.tasks| == |s.history|
    ensures var row, h := s.db.tasks[t], s.history[t];
      && h.lost >= 0
      && h.claims <= c.maxRetries + 1 + h.lost
      && (!row.status.Completed? ==> h.claims == row.attempts + h.lost + if row.status.Running? then 1 else 0)
      && (row.status.Completed? ==> row.attempts + h.lost <= h.claims <= row.attempts + h.lost + 1)
      && (Exhausted(s, t) ==> (h.claims == c.maxRetries + 1 <==> h.lost == 0))
  {
    ReachableInvariant(c, s);
    assert TaskOk(c, s, t);
  }

  /** Every effective UPDATE of _retry_or_fail in the run writes the successor of the attempts it replaces. */
  ghost predicate FreshReads(c: Config, s: State, run: seq<Action>)
    requires ValidRun(c, s, run)
    decreases |run|
  {
    run == [] ||
    ((forall t :: 0 <= t < |s.db.tasks| && WritesAttempts(s, run[0], t) ==>
        s.procs[run[0].p].batch[0].attemptsRead == s.db.tasks[t].attempts)
     && FreshReads(c, Next(c, s, run[0]), run[1..]))
  }

  ghost predicate NothingLost(s: State) {
    forall t :: 0 <= t < |s.history| ==> s.history[t].lost == 0
  }

  lemma FreshStepLosesNothing(c: Config, s: State, a: Action)
    requires Shape(s) && Enabled(s, a) && NothingLost(s)
    requires forall t :: 0 <= t < |s.db.tasks| && WritesAttempts(s, a, t) ==>
      s.procs[a.p].batch[0].attemptsRead == s.db.tasks[t].attempts
    ensures NothingLost(Next(c, s, a))
  {
    if a.PlanCommits? {
      hide Shape;
    } else {
      hide Next;
      forall t | 0 <= t < |Next(c, s, a).history| ensures Next(c, s, a).history[t].lost == 0 {
        assert s.history[t].lost == 0;
        HistoryRecords(c, s, a, t);
      }
    }
  }

  lemma {:induction false} FreshRunLosesNothing(c: Config, s: State, run: seq<Action>)
    requires ValidRun(c, s, run) && FreshReads(c, s, run) && NothingLost(s)
    ensures NothingLost(After(c, s, run))
    decreases |run|
  {
    if run != [] {
      FreshStepLosesNothing(c, s, run[0]);
      FreshRunLosesNothing(c, Next(c, s, run[0]), run[1..]);
    }
  }

  /** Without a stale read a task is claimed at most max_retries + 1 times. */
  lemma FreshRunClaims(c: Config, n: nat, run: seq<Action>, t: nat)
    requires 1 <= c.maxTasks && 0 <= c.maxRetries
    requires ValidRun(c, Initial(n), run) && FreshReads(c, Initial(n), run)
    requires t < |After(c, Initial(n), run).db.tasks| == |After(c, Initial(n), run).history|
    ensures After(c, Initial(n), run).history[t].claims <= c.maxRetries + 1
  {
    FreshRunLosesNothing(c, Initial(n), run);
    ClaimsBounded(c, After(c, Initial(n), run), t);
  }

  function EnvironmentTotal(c: Config, run: seq<Action>): nat {
    if run == [] then 0 else EnvironmentCost(c, run[0]) + EnvironmentTotal(c, run[1..])
  }

  lemma {:induction false} RunPaid(c: Config, s: State, run: seq<Action>)
    requires 1 <= c.maxTasks && Invariant(c, s) && ValidRun(c, s, run)
    ensures |run| + Rank(c, After(c, s, run)) + AttemptCost(c) * Lost(s.history)
      <= Rank(c, s) + EnvironmentTotal(c, run) + AttemptCost(c) * Lost(After(c, s, run).history)
    decreases |run|
  {
    if run != [] {
      StepPaid(c, s, run[0]);
      InvariantStep(c, s, run[0]);
      RunPaid(c, Next(c, s, run[0]), run[1..]);
    }
  }

  lemma InitialRank(c: Config, n: nat)
    ensures Rank(c, Initial(n)) == PlanningCost(c) + 2 && Lost(Initial(n).history) == 0
  {
    TotalZero(Initial(n).procs, ProcRanks(c));
    assert Initial(n).redis.queue[1..] == [];
  }

  /**
   * Whole runs are bounded, whatever the interleaving and the number of processes:
   * by the cost of one plan, of what the environment added, and of lost increments.
   */
  lemma RunsAreBounded(c: Config, n: nat, run: seq<Action>)
    requires 1 <= c.maxTasks && ValidRun(c, Initial(n), run)
    ensures |run| <= PlanningCost(c) + 2 + EnvironmentTotal(c, run)
      + AttemptCost(c) * Lost(After(c, Initial(n), run).history)
    ensures FreshReads(c, Initial(n), run) ==> |run| <= PlanningCost(c) + 2 + EnvironmentTotal(c, run)
  {
    InvariantInitially(c, n);
    RunPaid(c, Initial(n), run);
    InitialRank(c, n);
    if FreshReads(c, Initial(n), run) {
      FreshRunLosesNothing(c, Initial(n), run);
      TotalZero(After(c, Initial(n), run).history, LostOf);
    }
  }

  /** The `while changed` loop: rounds already repeated plus rows still fresh never exceed the number of rows. */
  lemma PassLoopBounded(c: Config, s: State, p: nat)
    requires Reachable(c, s) && p < |s.procs|
    requires s.procs[p].Scheduling? || s.procs[p].Scanning? || s.procs[p].Publishing?
    ensures s.procs[p].rounds + FreshRows(s.db.tasks) <= |s.db.tasks|
  {
    ReachableInvariant(c, s);
    assert WithinRounds(s.db.tasks, s.procs[p]);
  }

  // ---- enqueued once, and never both enqueued and cascade-failed ----

  /** The action is a pass that won _mark_enqueued for t. */
  predicate Enqueues(c: Config, s: State, a: Action, t: nat)
    requires Shape(s) && Enabled(s, a)
  {
    a.Visit? && a.row == t && Next(c, s, a).procs[a.p].Publishing?
  }

  ghost function EnqueueCount(c: Config, s: State, run: seq<Action>, t: nat): nat
    requires ValidRun(c, s, run)
    decreases |run|
  {
    if run == [] then 0
    else (if Enqueues(c, s, run[0], t) then 1 else 0) + EnqueueCount(c, Next(c, s, run[0]), run[1..], t)
  }

  function ReleasedBit(s: State, t: nat): nat {
    if t < |s.history| && s.history[t].released then 1 else 0
  }

  lemma VisitReleases(c: Config, s: State, p: nat, i: nat, seesOwn: bool, t: nat)
    requires Core(c, s) && Shape(s) && p < |s.procs| && s.procs[p].Scanning? && i in s.procs[p].todo
    ensures var s' := DoVisit(s, p, i, seesOwn);
      ReleasedBit(s', t) == ReleasedBit(s, t) + if i == t && s'.procs[p].Publishing? then 1 else 0
  {
    assert ProcOk(c, s, s.procs[p]) && TaskOk(c, s, i);
    hide Core, Shape, ProcOk, Doomed, DepsCompleted, Untouched, ResultCoherent, ClaimsAccounted;
  }

  lemma OthersRelease(c: Config, s: State, a: Action, t: nat)
    requires Shape(s) && Enabled(s, a) && !a.Visit?
    requires a.PlanCommits? ==> s.history == []
    ensures ReleasedBit(Next(c, s, a), t) == ReleasedBit(s, t) && !Enqueues(c, s, a, t)
  {
  }

  lemma EnqueueReleases(c: Config, s: State, a: Action, t: nat)
    requires Core(c, s) && Shape(s) && Enabled(s, a)
    ensures ReleasedBit(Next(c, s, a), t) == ReleasedBit(s, t) + if Enqueues(c, s, a, t) then 1 else 0
  {
    if a.Visit? {
      VisitReleases(c, s, a.p, a.row, a.seesOwn, t);
      hide Core, Shape, DoVisit, ReleasedBit;
    } else {
      if a.PlanCommits? {
        NoRowsWhilePlanning(c, s, a.p);
      }
      OthersRelease(c, s, a, t);
      hide Core, Shape, ReleasedBit, Next, Enabled;
    }
  }

  lemma {:induction false} EnqueuesCounted(c: Config, s: State, run: seq<Action>, t: nat)
    requires 1 <= c.maxTasks && Invariant(c, s) && ValidRun(c, s, run)
    ensures ReleasedBit(After(c, s, run), t) == ReleasedBit(s, t) + EnqueueCount(c, s, run, t)
    decreases |run|
  {
    if run != [] {
      EnqueueReleases(c, s, run[0], t);
      InvariantStep(c, s, run[0]);
      EnqueuesCounted(c, Next(c, s, run[0]), run[1..], t);
    }
  }

  /** All concurrent passes together enqueue a task at most once, and never one whose dependency failed. */
  lemma EnqueuedOnceNeverDoomed(c: Config, n: nat, run: seq<Action>, t: nat)
    requires 1 <= c.maxTasks && ValidRun(c, Initial(n), run)
    requires t < |After(c, Initial(n), run).db.tasks|
    ensures EnqueueCount(c, Initial(n), run, t) <= 1
    ensures Doomed(After(c, Initial(n), run).db.tasks, t) ==>
      EnqueueCount(c, Initial(n), run, t) == 0 && TokenCount(After(c, Initial(n), run), t) == 0
  {
    var s := After(c, Initial(n), run);
    InvariantInitially(c, n);
    InvariantRun(c, Initial(n), run);
    EnqueuesCounted(c, Initial(n), run, t);
    if Doomed(s.db.tasks, t) {
      DoomedNotReleased(c, s, t);
      NoTokenBeforeRelease(c, s, t);
    }
  }
}
