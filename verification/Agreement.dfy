/**
 * The distributed path refines the sequential one.  For the same plan, and agents
 * whose success does not depend on their context, a finished distributed run
 * succeeds exactly when the inline run does, whatever the interleaving, the
 * retries, crashes and repeated deliveries; if their outputs do not depend on it
 * either, it ends with the same text and totals.
 */
module Agreement {
  import opened Text
  import opened Tables
  import opened Sums
  import opened Aggregation
  import opened System
  import opened Safety
  import opened Preservation
  import opened Wakeups
  import opened Runs
  import opened Sequential
  import Planning

  /** What the model planned, and what a run of the agent at each position may do. */
  datatype Oracle = Oracle(answer: Planning.Json, snippet: string, allows: (nat, AgentRun) -> bool)

  /** Agents of the inline path that stay within the oracle whatever context they are given. */
  ghost predicate Consistent(o: Oracle, agents: Agents) {
    forall i, context :: o.allows(i, agents(i, context))
  }

  /** Whether an agent succeeds is fixed by its position. */
  ghost predicate SuccessDetermined(o: Oracle) {
    forall i, r, q :: o.allows(i, r) && o.allows(i, q) ==> (r.Returned? <==> q.Returned?)
  }

  /** Everything an agent does is fixed by its position. */
  ghost predicate OutputDetermined(o: Oracle) {
    forall i, r, q :: o.allows(i, r) && o.allows(i, q) ==> r == q
  }

  function PlannedTasks(c: Config, o: Oracle): seq<Task> {
    Planning.RowsOf(Planning.PlanOf(o.answer, c.repr, o.snippet, c.maxTasks))
  }

  /** The action is one the oracle allows. */
  predicate Obeys(o: Oracle, s: State, a: Action)
    requires Enabled(s, a)
  {
    match a
    case PlanCommits(_, answer, snippet) => answer == o.answer && snippet == o.snippet
    case AgentSucceeds(p, output, metrics) => o.allows(s.procs[p].task, Returned(output, metrics))
    case AgentFails(p) => o.allows(s.procs[p].task, Raised)
    case _ => true
  }

  ghost predicate ObeysAll(c: Config, o: Oracle, s: State, run: seq<Action>)
    requires ValidRun(c, s, run)
    decreases |run|
  {
    run == [] || (Obeys(o, s, run[0]) && ObeysAll(c, o, Next(c, s, run[0]), run[1..]))
  }

  // ---- what the oracle pins down, with or without lease expiry ----

  ghost predicate FollowsPlan(c: Config, o: Oracle, s: State) {
    s.db.tasks == [] ||
    (|s.db.tasks| == |PlannedTasks(c, o)| &&
     forall i :: 0 <= i < |s.db.tasks| ==>
       s.db.tasks[i].agent == PlannedTasks(c, o)[i].agent &&
       s.db.tasks[i].description == PlannedTasks(c, o)[i].description &&
       s.db.tasks[i].dependsOn == PlannedTasks(c, o)[i].dependsOn)
  }

  ghost predicate ResultsFromOracle(o: Oracle, s: State) {
    forall i :: i in s.db.results ==>
      o.allows(i, Returned(s.db.results[i].output, s.db.results[i].producedBy))
  }

  lemma FollowsPlanStep(c: Config, o: Oracle, s: State, a: Action)
    requires 1 <= c.maxTasks && Core(c, s) && Shape(s) && Enabled(s, a) && Obeys(o, s, a) && FollowsPlan(c, o, s)
    ensures FollowsPlan(c, o, Next(c, s, a))
  {
    CoreStep(c, s, a);
    if !a.PlanCommits? {
      hide Core, Shape, PlannedTasks, Next, Enabled;
      forall i | 0 <= i < |s.db.tasks|
        ensures Next(c, s, a).db.tasks[i].agent == s.db.tasks[i].agent
        ensures Next(c, s, a).db.tasks[i].description == s.db.tasks[i].description
        ensures Next(c, s, a).db.tasks[i].dependsOn == s.db.tasks[i].dependsOn
      {
        assert RowEvolves(s.db.tasks[i], s.history[i], Next(c, s, a).db.tasks[i], Next(c, s, a).history[i]);
      }
    } else {
      hide Core, Shape;
    }
  }

  lemma ResultsStep(c: Config, o: Oracle, s: State, a: Action)
    requires Shape(s) && Enabled(s, a) && Obeys(o, s, a) && ResultsFromOracle(o, s)
    ensures ResultsFromOracle(o, Next(c, s, a))
  {
    if !a.AgentSucceeds? {
      ResultsUntouched(c, s, a);
      hide Shape, Next, Enabled;
    } else {
      hide Shape;
    }
  }

  lemma {:induction false} OracleRun(c: Config, o: Oracle, s: State, run: seq<Action>)
    requires 1 <= c.maxTasks && Invariant(c, s) && ValidRun(c, s, run) && ObeysAll(c, o, s, run)
    requires FollowsPlan(c, o, s) && ResultsFromOracle(o, s)
    ensures FollowsPlan(c, o, After(c, s, run)) && ResultsFromOracle(o, After(c, s, run))
    decreases |run|
  {
    if run != [] {
      FollowsPlanStep(c, o, s, run[0]);
      ResultsStep(c, o, s, run[0]);
      InvariantStep(c, s, run[0]);
      OracleRun(c, o, Next(c, s, run[0]), run[1..]);
    }
  }

  // ---- when every agent succeeds and no lease expires, nothing fails ----

  ghost predicate AllSucceed(o: Oracle, n: nat) {
    forall i, r :: 0 <= i < n && o.allows(i, r) ==> r.Returned?
  }

  predicate NoBatch(q: Proc) {
    q.Recovering? || q.Delaying? || q.Burying? ==> q.batch == []
  }

  ghost predicate NoFailedRow(s: State) {
    forall i :: 0 <= i < |s.db.tasks| ==> !s.db.tasks[i].status.Failed?
  }

  ghost predicate NothingToRecover(s: State) {
    forall p :: 0 <= p < |s.procs| ==> NoBatch(s.procs[p])
  }

  lemma NoNewBatch(c: Config, s: State, a: Action)
    requires Shape(s) && Enabled(s, a) && !a.Reap? && !a.AgentFails? && NothingToRecover(s)
    ensures NothingToRecover(Next(c, s, a))
  {
    assert !a.Redeliver? ==> NoBatch(s.procs[a.p]);
    hide NoBatch, Shape, Enabled;
    if TaskAction(a) {
      TaskActionNoBatch(c, s, a);
      hide Next;
    } else if !a.Redeliver? {
      OtherActionNoBatch(c, s, a);
      hide Next;
    } else {
      hide PlanningStep, PassStep;
    }
  }

  lemma TaskActionNoBatch(c: Config, s: State, a: Action)
    requires Shape(s) && Enabled(s, a) && TaskAction(a) && !a.Reap? && !a.AgentFails? && NoBatch(s.procs[a.p])
    ensures NoBatch(Next(c, s, a).procs[a.p])
  {
    hide Shape, Frame, Claimable;
  }

  lemma OtherActionNoBatch(c: Config, s: State, a: Action)
    requires Shape(s) && Enabled(s, a) && !TaskAction(a) && !a.Redeliver? && NoBatch(s.procs[a.p])
    ensures NoBatch(Next(c, s, a).procs[a.p])
  {
    hide Shape, Frame, Untouched, Doomed, DepsCompleted;
  }

  lemma NoNewFailure(c: Config, s: State, a: Action)
    requires Shape(s) && Enabled(s, a) && !a.RecoverOne? && !a.Visit? && NoFailedRow(s)
    ensures NoFailedRow(Next(c, s, a))
  {
    hide Planning.PlanOf;
  }

  lemma VisitFailsNothing(c: Config, s: State, p: nat, i: nat, seesOwn: bool)
    requires Core(c, s) && Shape(s) && p < |s.procs| && s.procs[p].Scanning? && i in s.procs[p].todo
    requires NoFailedRow(s)
    ensures NoFailedRow(DoVisit(s, p, i, seesOwn))
  {
    var q := s.procs[p];
    assert ProcOk(c, s, q) && InRange(s, q);
    if Doomed(q.rows, i) {
      SnapshotDoomed(s, q.rows, i);
    }
  }

  /** No agent run fails, and there is nothing to retry. */
  lemma NothingToFail(c: Config, o: Oracle, s: State, a: Action)
    requires ProcsOk(c, s) && Enabled(s, a) && Obeys(o, s, a)
    requires AllSucceed(o, |s.db.tasks|) && NothingToRecover(s)
    ensures !a.AgentFails? && !a.RecoverOne?
  {
    assert !a.Redeliver? ==> ProcOk(c, s, s.procs[a.p]) && NoBatch(s.procs[a.p]);
  }

  lemma NothingFailsStep(c: Config, o: Oracle, s: State, a: Action)
    requires Core(c, s) && Shape(s) && Enabled(s, a) && Obeys(o, s, a) && !a.Reap?
    requires AllSucceed(o, |s.db.tasks|) && NoFailedRow(s) && NothingToRecover(s)
    ensures NoFailedRow(Next(c, s, a)) && NothingToRecover(Next(c, s, a))
  {
    NothingToFail(c, o, s, a);
    NoNewBatch(c, s, a);
    if a.Visit? {
      VisitFailsNothing(c, s, a.p, a.row, a.seesOwn);
      hide Core, Shape, DoVisit;
    } else {
      NoNewFailure(c, s, a);
    }
  }

  lemma {:induction false} NothingFailsRun(c: Config, o: Oracle, s: State, run: seq<Action>)
    requires 1 <= c.maxTasks && Invariant(c, s) && ValidRun(c, s, run) && ObeysAll(c, o, s, run)
    requires NoLeaseExpiry(run) && FollowsPlan(c, o, s)
    requires AllSucceed(o, |PlannedTasks(c, o)|) && NoFailedRow(s) && NothingToRecover(s)
    ensures NoFailedRow(After(c, s, run))
    decreases |run|
  {
    if run != [] {
      assert !run[0].Reap?;
      assert NoLeaseExpiry(run[1..]);
      NothingFailsStep(c, o, s, run[0]);
      FollowsPlanStep(c, o, s, run[0]);
      InvariantStep(c, s, run[0]);
      NothingFailsRun(c, o, Next(c, s, run[0]), run[1..]);
    }
  }

  // ---- the inline run of the same plan ----

  lemma InlineRunsUntil(c: Config, o: Oracle, agents: Agents, runs: seq<AgentRun>)
    requires SequentialRun(agents, PlannedTasks(c, o), runs) && Consistent(o, agents) && SuccessDetermined(o)
    ensures AllReturned(runs) <==> AllSucceed(o, |PlannedTasks(c, o)|)
    ensures AllReturned(runs) ==> |runs| == |PlannedTasks(c, o)|
    ensures forall k :: 0 <= k < |runs| ==> o.allows(k, runs[k])
  {
    hide PlannedTasks, Join, Parts;
    forall k | 0 <= k < |runs| ensures o.allows(k, runs[k]) {
      assert runs[k] == agents(k, Join("\n\n", Parts(PlannedTasks(c, o), runs[..k])));
    }
    if AllReturned(runs) {
      forall i, r | 0 <= i < |runs| && o.allows(i, r) ensures r.Returned? {
        assert o.allows(i, runs[i]);
      }
    } else {
      var k :| 0 <= k < |runs| && runs[k].Raised?;
      assert o.allows(k, runs[k]);
    }
  }

  lemma DeterminedOutputs(o: Oracle)
    requires OutputDetermined(o)
    ensures SuccessDetermined(o)
  {
  }

  lemma CompletedMeansSucceeded(c: Config, o: Oracle, s: State)
    requires TasksOk(c, s) && AllCompleted(s.db.tasks) && s.db.tasks != []
    requires FollowsPlan(c, o, s) && ResultsFromOracle(o, s) && SuccessDetermined(o)
    ensures AllSucceed(o, |PlannedTasks(c, o)|)
  {
    hide PlannedTasks;
    forall i, r | 0 <= i < |s.db.tasks| && o.allows(i, r) ensures r.Returned? {
      assert TaskOk(c, s, i);
      assert o.allows(i, Returned(s.db.results[i].output, s.db.results[i].producedBy));
    }
  }

  /** What the inline run did with a task is what the stored result says. */
  lemma SameOutput(c: Config, o: Oracle, s: State, runs: seq<AgentRun>, i: nat)
    requires TasksOk(c, s) && i < |s.db.tasks| && s.db.tasks[i].status.Completed? && i < |runs|
    requires ResultsFromOracle(o, s) && OutputDetermined(o) && o.allows(i, runs[i])
    ensures i in s.db.results && s.db.tasks[i].metrics == Some(s.db.results[i].producedBy)
    ensures runs[i] == Returned(s.db.results[i].output, s.db.results[i].producedBy)
  {
    assert TaskOk(c, s, i);
    assert o.allows(i, Returned(s.db.results[i].output, s.db.results[i].producedBy));
  }

  ghost predicate Finished(c: Config, o: Oracle, s: State) {
    && TasksOk(c, s) && AllCompleted(s.db.tasks) && s.db.tasks != []
    && FollowsPlan(c, o, s) && ResultsFromOracle(o, s)
  }

  lemma RowsMatchInline(c: Config, o: Oracle, s: State, agents: Agents, runs: seq<AgentRun>)
    requires Finished(c, o, s) && OutputDetermined(o)
    requires SequentialRun(agents, PlannedTasks(c, o), runs) && Consistent(o, agents)
    ensures AllReturned(runs) && |runs| == |PlannedTasks(c, o)| == |s.db.tasks|
    ensures forall i :: 0 <= i < |s.db.tasks| ==>
      s.db.tasks[i].metrics == RowsAfter(PlannedTasks(c, o), runs)[i].metrics
    ensures Outcomes(s.db.tasks, s.db.results) == OutcomesOf(PlannedTasks(c, o), runs)
  {
    DeterminedOutputs(o);
    CompletedMeansSucceeded(c, o, s);
    InlineRunsUntil(c, o, agents, runs);
    hide PlannedTasks, SequentialRun, TasksOk, ResultsFromOracle, Consistent, SuccessDetermined, OutputDetermined;
    forall i | 0 <= i < |s.db.tasks|
      ensures s.db.tasks[i].metrics == RowsAfter(PlannedTasks(c, o), runs)[i].metrics
      ensures Outcomes(s.db.tasks, s.db.results)[i] == OutcomesOf(PlannedTasks(c, o), runs)[i]
    {
      SameOutput(c, o, s, runs, i);
    }
  }

  lemma {:induction false} SameTotals(a: seq<Task>, b: seq<Task>)
    requires |a| == |b| && forall i :: 0 <= i < |a| ==> a[i].metrics == b[i].metrics
    ensures Total(a, TokensSpent) == Total(b, TokensSpent) && Total(a, CostSpent) == Total(b, CostSpent)
  {
    if a != [] {
      SameTotals(a[1..], b[1..]);
    }
  }

  lemma CompletedIsFinished(c: Config, o: Oracle, n: nat, run: seq<Action>)
    requires 1 <= c.maxTasks && ValidRun(c, Initial(n), run) && ObeysAll(c, o, Initial(n), run)
    ensures var s := After(c, Initial(n), run);
      Reachable(c, s) && (s.db.execution.status == ExecCompleted ==> Finished(c, o, s))
  {
    var s := After(c, Initial(n), run);
    InvariantInitially(c, n);
    OracleRun(c, o, Initial(n), run);
    InvariantRun(c, Initial(n), run);
    assert Reachable(c, s);
    FinalizedAsDecided(c, s);
  }

  /** A completed distributed execution ends with exactly the row of the inline run, lease expiries or not. */
  lemma CompletedAgreesWithInline(
    c: Config, o: Oracle, agents: Agents, n: nat, run: seq<Action>, runs: seq<AgentRun>)
    requires 1 <= c.maxTasks && ValidRun(c, Initial(n), run) && ObeysAll(c, o, Initial(n), run)
    requires After(c, Initial(n), run).db.execution.status == ExecCompleted
    requires SequentialRun(agents, PlannedTasks(c, o), runs) && Consistent(o, agents) && OutputDetermined(o)
    ensures After(c, Initial(n), run).db.execution == InlineExecution(PlannedTasks(c, o), runs)
  {
    var s := After(c, Initial(n), run);
    CompletedIsFinished(c, o, n, run);
    FinalizedAsDecided(c, s);
    hide ValidRun, ObeysAll, SequentialRun, Reachable, Finished, PlannedTasks;
    RowsMatchInline(c, o, s, agents, runs);
    SameTotals(s.db.tasks, RowsAfter(PlannedTasks(c, o), runs));
  }

  /**
   * Without lease expiry a quiescent distributed run that planned its tasks is
   * COMPLETED exactly when the inline run of the same plan is.
   */
  lemma DistributedRefinesInline(
    c: Config, o: Oracle, agents: Agents, n: nat, run: seq<Action>, runs: seq<AgentRun>)
    requires 1 <= c.maxTasks && ValidRun(c, Initial(n), run) && ObeysAll(c, o, Initial(n), run)
    requires NoLeaseExpiry(run)
    requires Quiescent(After(c, Initial(n), run)) && After(c, Initial(n), run).db.tasks != []
    requires SequentialRun(agents, PlannedTasks(c, o), runs) && Consistent(o, agents) && SuccessDetermined(o)
    ensures
      var distributed := After(c, Initial(n), run).db.execution;
      var inline := InlineExecution(PlannedTasks(c, o), runs);
      && distributed.status == inline.status
      && (inline.status == ExecFailed ==> distributed.finalResult == inline.finalResult == None)
      && (inline.status == ExecCompleted && OutputDetermined(o) ==> distributed == inline)
  {
    hide After, ValidRun, ObeysAll, Reachable, Finished, NoLeaseExpiry, Total, TokensSpent, CostSpent;
    hide Quiescent, SequentialRun, Consistent, SuccessDetermined, OutputDetermined, PlannedTasks, AggregateText;
    var s := After(c, Initial(n), run);
    CompletedIsFinished(c, o, n, run);
    NoLostWakeup(c, s);
    FinalizedAsDecided(c, s);
    InlineRunsUntil(c, o, agents, runs);
    if s.db.execution.status == ExecCompleted {
      AgreesWhenDetermined(c, o, agents, n, run, runs);
    } else if AllReturned(runs) {
      InvariantInitially(c, n);
      NothingFailsRun(c, o, Initial(n), run);
    }
  }

  lemma AgreesWhenDetermined(
    c: Config, o: Oracle, agents: Agents, n: nat, run: seq<Action>, runs: seq<AgentRun>)
    requires 1 <= c.maxTasks && ValidRun(c, Initial(n), run) && ObeysAll(c, o, Initial(n), run)
    requires After(c, Initial(n), run).db.execution.status == ExecCompleted
    requires SequentialRun(agents, PlannedTasks(c, o), runs) && Consistent(o, agents) && SuccessDetermined(o)
    ensures AllReturned(runs)
    ensures OutputDetermined(o) ==>
      After(c, Initial(n), run).db.execution == InlineExecution(PlannedTasks(c, o), runs)
  {
    var s := After(c, Initial(n), run);
    CompletedIsFinished(c, o, n, run);
    CompletedMeansSucceeded(c, o, s);
    InlineRunsUntil(c, o, agents, runs);
    if OutputDetermined(o) {
      CompletedAgreesWithInline(c, o, agents, n, run, runs);
    }
  }
}
