/**
 * The inline path: executor.py runs the tasks in order and stops at the first
 * failure; orchestrator.py drives an execution through planning, running and
 * aggregation.
 */
module Sequential {
  import opened Text
  import opened Tables
  import opened Sums
  import opened Totals
  import opened Aggregation
  import Planning

  datatype AgentRun = Returned(output: string, metrics: Metrics) | Raised

  /** What the agent of the task at a position does with a context. */
  type Agents = (nat, string) -> AgentRun

  function ContextLine(task: Task, output: string): string {
    "[" + AgentName(task.agent) + "] " + output
  }

  // ---- specification ----

  /** Context parts of the first k tasks, all of which returned. */
  function Parts(tasks: seq<Task>, runs: seq<AgentRun>): seq<string>
    requires |runs| <= |tasks| && forall k :: 0 <= k < |runs| ==> runs[k].Returned?
  {
    seq(|runs|, k requires 0 <= k < |runs| => ContextLine(tasks[k], runs[k].output))
  }

  ghost predicate AllReturned(runs: seq<AgentRun>) {
    forall k :: 0 <= k < |runs| ==> runs[k].Returned?
  }

  /** Each run saw the outputs of all earlier tasks, none of which raised. */
  ghost predicate InOrder(agents: Agents, tasks: seq<Task>, runs: seq<AgentRun>) {
    && |runs| <= |tasks|
    && forall k :: 0 <= k < |runs| ==>
      AllReturned(runs[..k]) && runs[k] == agents(k, Join("\n\n", Parts(tasks, runs[..k])))
  }

  /** The sequential run of `tasks`: in order, stopping early only because the last run raised. */
  ghost predicate SequentialRun(agents: Agents, tasks: seq<Task>, runs: seq<AgentRun>) {
    && InOrder(agents, tasks, runs)
    && (|runs| < |tasks| ==> runs != [] && runs[|runs| - 1].Raised?)
  }

  /** The context holds the outputs of the first k runs, each after its agent's name, in order, each once. */
  ghost predicate ShowsEarlier(tasks: seq<Task>, runs: seq<AgentRun>, k: nat, context: string) {
    k <= |runs| && k <= |tasks| &&
    exists parts :: LaidOut("\n\n", parts, context) && LabelledOutputs(tasks, runs, k, parts)
  }

  predicate LabelledOutputs(tasks: seq<Task>, runs: seq<AgentRun>, k: nat, parts: seq<string>) {
    && |parts| == k <= |runs| && k <= |tasks|
    && forall j :: 0 <= j < k ==> runs[j].Returned? && parts[j] == Labelled(tasks[j].agent, runs[j].output)
  }

  /** Every agent answered a context with all earlier outputs, none of which is missing. */
  ghost predicate Informed(agents: Agents, tasks: seq<Task>, runs: seq<AgentRun>) {
    |runs| <= |tasks| && forall k :: 0 <= k < |runs| ==> InformedAt(agents, tasks, runs, k)
  }

  ghost predicate InformedAt(agents: Agents, tasks: seq<Task>, runs: seq<AgentRun>, k: nat)
    requires k < |runs|
  {
    exists context :: runs[k] == agents(k, context) && ShowsEarlier(tasks, runs, k, context)
  }

  lemma ContextShowsEarlier(agents: Agents, tasks: seq<Task>, runs: seq<AgentRun>, k: nat)
    requires InOrder(agents, tasks, runs) && k < |runs|
    ensures InformedAt(agents, tasks, runs, k)
  {
    hide LaidOut, Join, AgentName, Labelled;
    assert AllReturned(runs[..k]);
    var parts := Parts(tasks, runs[..k]);
    forall j | 0 <= j < k ensures runs[j].Returned? && parts[j] == Labelled(tasks[j].agent, runs[j].output) {
      assert runs[..k][j] == runs[j];
      LabelledByName(tasks[j].agent, runs[j].output);
    }
    JoinLaidOut("\n\n", parts);
    assert LabelledOutputs(tasks, runs, k, parts);
    assert ShowsEarlier(tasks, runs, k, Join("\n\n", parts));
  }

  /** In a sequential run every agent sees what all earlier ones produced. */
  lemma RunsInformed(agents: Agents, tasks: seq<Task>, runs: seq<AgentRun>)
    requires SequentialRun(agents, tasks, runs)
    ensures Informed(agents, tasks, runs)
  {
    hide InformedAt, InOrder, Parts;
    RunsFit(agents, tasks, runs);
    forall k | 0 <= k < |runs| ensures InformedAt(agents, tasks, runs, k) {
      ContextShowsEarlier(agents, tasks, runs, k);
    }
  }

  lemma RunsFit(agents: Agents, tasks: seq<Task>, runs: seq<AgentRun>)
    requires InOrder(agents, tasks, runs)
    ensures |runs| <= |tasks|
  {
  }

  lemma InOrderExtends(agents: Agents, tasks: seq<Task>, runs: seq<AgentRun>, run: AgentRun)
    requires InOrder(agents, tasks, runs) && AllReturned(runs) && |runs| < |tasks|
    requires run == agents(|runs|, Join("\n\n", Parts(tasks, runs)))
    ensures InOrder(agents, tasks, runs + [run])
  {
    var longer := runs + [run];
    assert longer[..|runs|] == runs;
    forall k | 0 <= k < |longer|
      ensures AllReturned(longer[..k]) && longer[k] == agents(k, Join("\n\n", Parts(tasks, longer[..k])))
    {
      if k < |runs| {
        assert longer[..k] == runs[..k];
      }
    }
  }

  function RowAfter(task: Task, run: AgentRun): Task {
    match run
    case Returned(_, metrics) => task.(status := Completed, metrics := Some(metrics))
    case Raised => task.(status := Failed)
  }

  function RowsAfter(tasks: seq<Task>, runs: seq<AgentRun>): (rows: seq<Task>)
    requires |runs| <= |tasks|
    ensures |rows| == |tasks|
    ensures forall i :: 0 <= i < |runs| ==> rows[i] == RowAfter(tasks[i], runs[i])
    ensures forall i :: |runs| <= i < |tasks| ==> rows[i] == tasks[i]
  {
    seq(|tasks|, i requires 0 <= i < |tasks| => if i < |runs| then RowAfter(tasks[i], runs[i]) else tasks[i])
  }

  function OutcomeOf(task: Task, run: AgentRun): Outcome {
    match run
    case Returned(output, _) => Outcome(task.agent, task.description, Completed, output)
    case Raised => Outcome(task.agent, task.description, Failed, "")
  }

  function OutcomesOf(tasks: seq<Task>, runs: seq<AgentRun>): (os: seq<Outcome>)
    requires |runs| <= |tasks|
    ensures |os| == |runs| && forall i :: 0 <= i < |runs| ==> os[i] == OutcomeOf(tasks[i], runs[i])
  {
    seq(|runs|, i requires 0 <= i < |runs| => OutcomeOf(tasks[i], runs[i]))
  }

  /** The sequential run is determined by the agents and the tasks. */
  lemma {:induction false} SameStart(
    agents: Agents, tasks: seq<Task>, r1: seq<AgentRun>, r2: seq<AgentRun>, k: nat)
    requires InOrder(agents, tasks, r1) && InOrder(agents, tasks, r2)
    requires k <= |r1| && k <= |r2|
    ensures r1[..k] == r2[..k]
  {
    hide Join, ContextLine;
    if k > 0 {
      SameStart(agents, tasks, r1, r2, k - 1);
      assert r1[..k] == r1[..k - 1] + [r1[k - 1]] && r2[..k] == r2[..k - 1] + [r2[k - 1]];
    }
  }

  /** Where another run went on, nothing had raised. */
  lemma ShorterReturned(agents: Agents, tasks: seq<Task>, r1: seq<AgentRun>, r2: seq<AgentRun>)
    requires InOrder(agents, tasks, r1) && InOrder(agents, tasks, r2) && |r1| < |r2|
    ensures AllReturned(r1)
  {
    SameStart(agents, tasks, r1, r2, |r1|);
    hide Join, ContextLine, Parts;
    assert r1[..|r1|] == r1;
    assert AllReturned(r2[..|r1|]);
  }

  lemma NotShorter(agents: Agents, tasks: seq<Task>, r1: seq<AgentRun>, r2: seq<AgentRun>)
    requires SequentialRun(agents, tasks, r1) && SequentialRun(agents, tasks, r2)
    ensures |r2| <= |r1|
  {
    hide Join, ContextLine, Parts;
    if |r1| < |r2| {
      ShorterReturned(agents, tasks, r1, r2);
      hide InOrder;
    }
  }

  lemma SequentialRunUnique(agents: Agents, tasks: seq<Task>, r1: seq<AgentRun>, r2: seq<AgentRun>)
    requires SequentialRun(agents, tasks, r1) && SequentialRun(agents, tasks, r2)
    ensures r1 == r2
  {
    NotShorter(agents, tasks, r1, r2);
    NotShorter(agents, tasks, r2, r1);
    SameStart(agents, tasks, r1, r2, |r1|);
  }

  lemma PartsExtend(tasks: seq<Task>, runs: seq<AgentRun>, run: AgentRun)
    requires |runs| < |tasks| && AllReturned(runs) && run.Returned?
    ensures AllReturned(runs + [run])
    ensures Parts(tasks, runs + [run]) == Parts(tasks, runs) + [ContextLine(tasks[|runs|], run.output)]
  {
    assert forall k :: 0 <= k < |runs + [run]| ==> (runs + [run])[k].Returned?;
  }

  lemma RowsExtend(tasks: seq<Task>, runs: seq<AgentRun>, run: AgentRun)
    requires |runs| < |tasks|
    ensures RowsAfter(tasks, runs + [run]) == RowsAfter(tasks, runs)[|runs| := RowAfter(tasks[|runs|], run)]
    ensures OutcomesOf(tasks, runs + [run]) == OutcomesOf(tasks, runs) + [OutcomeOf(tasks[|runs|], run)]
  {
  }

  /** State of the executor's loop while no task has failed. */
  ghost predicate SoFar(
    agents: Agents, tasks: seq<Task>, runs: seq<AgentRun>, rows: seq<Task>, results: map<nat, Saved>,
    contextParts: seq<string>, outcomes: seq<Outcome>)
  {
    && InOrder(agents, tasks, runs) && AllReturned(runs)
    && contextParts == Parts(tasks, runs)
    && Recorded(tasks, runs, rows, results, outcomes)
  }

  /** Rows, results and outcomes record exactly the runs made. */
  ghost predicate Recorded(
    tasks: seq<Task>, runs: seq<AgentRun>, rows: seq<Task>, results: map<nat, Saved>, outcomes: seq<Outcome>)
  {
    && |runs| <= |tasks|
    && rows == RowsAfter(tasks, runs)
    && outcomes == OutcomesOf(tasks, runs)
    && (forall i: nat :: i in results <==> i < |runs| && runs[i].Returned?)
    && (forall i :: i in results ==> results[i] == Saved(runs[i].output, runs[i].metrics))
  }

  /** The same, field by field. */
  predicate Reported(
    tasks: seq<Task>, runs: seq<AgentRun>, rows: seq<Task>, results: map<nat, Saved>, outcomes: seq<Outcome>)
  {
    && |runs| <= |tasks| == |rows| && |outcomes| == |runs|
    && (forall i :: |runs| <= i < |tasks| ==> rows[i] == tasks[i] && i !in results)
    && (forall i :: i in results ==> i < |runs|)
    && forall i :: 0 <= i < |runs| ==>
      && outcomes[i].agent == tasks[i].agent && outcomes[i].description == tasks[i].description
      && match runs[i]
         case Returned(output, metrics) =>
           && rows[i] == tasks[i].(status := Completed, metrics := Some(metrics))
           && i in results && results[i] == Saved(output, metrics)
           && outcomes[i].status == Completed && outcomes[i].output == output
         case Raised =>
           && rows[i] == tasks[i].(status := Failed) && i !in results
           && outcomes[i].status == Failed && outcomes[i].output == ""
  }

  lemma RecordedReports(
    tasks: seq<Task>, runs: seq<AgentRun>, rows: seq<Task>, results: map<nat, Saved>, outcomes: seq<Outcome>)
    requires Recorded(tasks, runs, rows, results, outcomes)
    ensures Reported(tasks, runs, rows, results, outcomes)
  {
  }

  lemma RecordedExtends(
    tasks: seq<Task>, runs: seq<AgentRun>, rows: seq<Task>, results: map<nat, Saved>, outcomes: seq<Outcome>,
    run: AgentRun)
    requires Recorded(tasks, runs, rows, results, outcomes) && |runs| < |tasks|
    ensures Recorded(tasks, runs + [run], rows[|runs| := RowAfter(tasks[|runs|], run)],
      if run.Returned? then results[|runs| := Saved(run.output, run.metrics)] else results,
      outcomes + [OutcomeOf(tasks[|runs|], run)])
  {
    RowsExtend(tasks, runs, run);
    hide RowsAfter, OutcomesOf, RowAfter, OutcomeOf;
  }

  lemma SoFarExtends(
    agents: Agents, tasks: seq<Task>, runs: seq<AgentRun>, rows: seq<Task>, results: map<nat, Saved>,
    contextParts: seq<string>, outcomes: seq<Outcome>, run: AgentRun)
    requires SoFar(agents, tasks, runs, rows, results, contextParts, outcomes) && |runs| < |tasks|
    requires run == agents(|runs|, Join("\n\n", contextParts)) && run.Returned?
    ensures SoFar(agents, tasks, runs + [run], rows[|runs| := RowAfter(tasks[|runs|], run)],
      results[|runs| := Saved(run.output, run.metrics)],
      contextParts + [ContextLine(tasks[|runs|], run.output)], outcomes + [OutcomeOf(tasks[|runs|], run)])
  {
    InOrderExtends(agents, tasks, runs, run);
    PartsExtend(tasks, runs, run);
    RecordedExtends(tasks, runs, rows, results, outcomes, run);
    hide InOrder, Parts, Recorded, RowAfter, OutcomeOf, ContextLine, Join;
  }

  lemma SoFarStops(
    agents: Agents, tasks: seq<Task>, runs: seq<AgentRun>, rows: seq<Task>, results: map<nat, Saved>,
    contextParts: seq<string>, outcomes: seq<Outcome>, run: AgentRun)
    requires SoFar(agents, tasks, runs, rows, results, contextParts, outcomes) && |runs| < |tasks|
    requires run == agents(|runs|, Join("\n\n", contextParts)) && run.Raised?
    ensures SequentialRun(agents, tasks, runs + [run]) && !AllReturned(runs + [run])
    ensures Recorded(tasks, runs + [run], rows[|runs| := RowAfter(tasks[|runs|], run)], results,
      outcomes + [OutcomeOf(tasks[|runs|], run)])
  {
    InOrderExtends(agents, tasks, runs, run);
    RecordedExtends(tasks, runs, rows, results, outcomes, run);
    assert (runs + [run])[|runs|].Raised?;
    hide InOrder, Parts, Recorded, RowAfter, OutcomeOf, ContextLine, Join;
  }

  lemma SoFarInitially(agents: Agents, tasks: seq<Task>)
    ensures SoFar(agents, tasks, [], tasks, map[], [], [])
  {
  }

  lemma SoFarEnds(
    agents: Agents, tasks: seq<Task>, runs: seq<AgentRun>, rows: seq<Task>, results: map<nat, Saved>,
    contextParts: seq<string>, outcomes: seq<Outcome>)
    requires SoFar(agents, tasks, runs, rows, results, contextParts, outcomes) && |runs| == |tasks|
    ensures SequentialRun(agents, tasks, runs) && AllReturned(runs)
    ensures Recorded(tasks, runs, rows, results, outcomes)
  {
  }

  // ---- executor.py ----

  class SequentialExecutor {
    var tasks: seq<Task>
    var results: map<nat, Saved>

    constructor (tasks: seq<Task>)
      ensures this.tasks == tasks && results == map[]
    {
      this.tasks := tasks;
      this.results := map[];
    }

    method SetStatus(i: nat, status: TaskStatus)
      requires i < |tasks|
      modifies this`tasks
      ensures tasks == old(tasks)[i := old(tasks)[i].(status := status)]
    {
      tasks := tasks[i := tasks[i].(status := status)];
    }

    /** The result row and the metrics are committed with the COMPLETED status. */
    method RecordResult(i: nat, output: string, metrics: Metrics)
      requires i < |tasks|
      modifies this
      ensures tasks == old(tasks)[i := old(tasks)[i].(status := Completed, metrics := Some(metrics))]
      ensures results == old(results)[i := Saved(output, metrics)]
    {
      results := results[i := Saved(output, metrics)];
      tasks := tasks[i := tasks[i].(metrics := Some(metrics))];
      SetStatus(i, Completed);
    }

    method Execute(agents: Agents) returns (allCompleted: bool, outcomes: seq<Outcome>, ghost runs: seq<AgentRun>)
      requires results == map[] && forall i :: 0 <= i < |tasks| ==> Untouched(tasks[i])
      modifies this
      ensures SequentialRun(agents, old(tasks), runs)
      ensures allCompleted <==> AllReturned(runs)
      ensures Recorded(old(tasks), runs, tasks, results, outcomes)
      ensures Informed(agents, old(tasks), runs)
      ensures Reported(old(tasks), runs, tasks, results, outcomes)
    {
      hide SoFar, SequentialRun, Recorded, AllReturned, Join, InOrder, Parts, Informed, Reported;
      ghost var given := tasks;
      SoFarInitially(agents, given);
      var n := |tasks|;
      var contextParts: seq<string> := [];
      outcomes, allCompleted, runs := [], true, [];
      var i := 0;
      while i < n
        invariant 0 <= i <= n == |tasks| == |given| && |runs| == i && allCompleted
        invariant SoFar(agents, given, runs, tasks, results, contextParts, outcomes)
        invariant forall k :: i <= k < n ==> tasks[k] == given[k]
      {
        assert tasks[i] == given[i];
        ghost var rows := tasks;
        SetStatus(i, Running);
        var run := agents(i, Join("\n\n", contextParts));
        match run {
          case Returned(output, metrics) =>
            SoFarExtends(agents, given, runs, rows, results, contextParts, outcomes, run);
            RecordResult(i, output, metrics);
            contextParts := contextParts + [ContextLine(tasks[i], output)];
            outcomes := outcomes + [Outcome(tasks[i].agent, tasks[i].description, Completed, output)];
            assert tasks == rows[i := RowAfter(given[i], run)];
            runs := runs + [run];
          case Raised =>
            SoFarStops(agents, given, runs, rows, results, contextParts, outcomes, run);
            allCompleted := false;
            SetStatus(i, Failed);
            outcomes := outcomes + [Outcome(tasks[i].agent, tasks[i].description, Failed, "")];
            assert tasks == rows[i := RowAfter(given[i], run)];
            runs := runs + [run];
            RunsInformed(agents, given, runs);
            RecordedReports(given, runs, tasks, results, outcomes);
            return;
        }
        i := i + 1;
      }
      SoFarEnds(agents, given, runs, tasks, results, contextParts, outcomes);
      RunsInformed(agents, given, runs);
      RecordedReports(given, runs, tasks, results, outcomes);
    }
  }

  // ---- orchestrator.py ----

  /** The execution row an inline run ends with, from the rows it planned. */
  function InlineExecution(tasks: seq<Task>, runs: seq<AgentRun>): Execution
    requires |runs| <= |tasks|
  {
    var rows := RowsAfter(tasks, runs);
    var tokens, cost := Total(rows, TokensSpent), Total(rows, CostSpent);
    if forall k :: 0 <= k < |runs| ==> runs[k].Returned?
    then Execution(ExecCompleted, Some(AggregateText(OutcomesOf(tasks, runs))), Some(tokens), Some(cost))
    else Execution(ExecFailed, None, Some(tokens), Some(cost))
  }

  function RunTokens(runs: seq<AgentRun>): nat {
    if runs == [] then 0
    else
      RunTokens(runs[..|runs| - 1]) + match runs[|runs| - 1] case Returned(_, m) => m.tokens case Raised => 0
  }

  function RunCost(runs: seq<AgentRun>): nat {
    if runs == [] then 0
    else
      RunCost(runs[..|runs| - 1]) + match runs[|runs| - 1] case Returned(_, m) => m.cost case Raised => 0
  }

  lemma {:induction false} RowsSumRuns(tasks: seq<Task>, runs: seq<AgentRun>)
    requires |runs| <= |tasks| && forall i :: 0 <= i < |tasks| ==> tasks[i].metrics == None
    ensures RecordedTokens(RowsAfter(tasks, runs)[..|runs|]) == RunTokens(runs)
    ensures RecordedCost(RowsAfter(tasks, runs)[..|runs|]) == RunCost(runs)
  {
    if runs != [] {
      var n := |runs| - 1;
      RowsSumRuns(tasks, runs[..n]);
      assert RowsAfter(tasks, runs)[..n + 1][..n] == RowsAfter(tasks, runs[..n])[..n];
    }
  }

  lemma {:induction false} RestSumsNothing(rows: seq<Task>, n: nat)
    requires n <= |rows| && forall i :: n <= i < |rows| ==> rows[i].metrics == None
    ensures RecordedTokens(rows) == RecordedTokens(rows[..n]) && RecordedCost(rows) == RecordedCost(rows[..n])
    decreases |rows|
  {
    if n == |rows| {
      assert rows[..n] == rows;
    } else {
      RestSumsNothing(rows[..|rows| - 1], n);
      assert rows[..|rows| - 1][..n] == rows[..n];
    }
  }

  lemma InlineTotals(tasks: seq<Task>, runs: seq<AgentRun>)
    requires |runs| <= |tasks| && forall i :: 0 <= i < |tasks| ==> tasks[i].metrics == None
    ensures Total(RowsAfter(tasks, runs), TokensSpent) == RunTokens(runs)
    ensures Total(RowsAfter(tasks, runs), CostSpent) == RunCost(runs)
  {
    var rows := RowsAfter(tasks, runs);
    TotalsAreRecorded(rows);
    RestSumsNothing(rows, |runs|);
    RowsSumRuns(tasks, runs);
  }

  /** One outcome per run, in order. */
  predicate OutcomesReport(tasks: seq<Task>, runs: seq<AgentRun>, os: seq<Outcome>) {
    && |os| == |runs| <= |tasks|
    && forall i :: 0 <= i < |os| ==>
      && os[i].agent == tasks[i].agent && os[i].description == tasks[i].description
      && match runs[i]
         case Returned(output, _) => os[i].status == Completed && os[i].output == output
         case Raised => os[i].status == Failed && os[i].output == ""
  }

  /** The execution row after an inline run, from the runs themselves. */
  ghost predicate Concludes(tasks: seq<Task>, runs: seq<AgentRun>, e: Execution) {
    && e.totalTokens == Some(RunTokens(runs)) && e.totalCost == Some(RunCost(runs))
    && if forall k :: 0 <= k < |runs| ==> runs[k].Returned? then
         && e.status == ExecCompleted && e.finalResult.Some?
         && exists os :: OutcomesReport(tasks, runs, os) && Summarizes(os, e.finalResult.value)
       else e.status == ExecFailed && e.finalResult == None
  }

  lemma InlineConcludes(tasks: seq<Task>, runs: seq<AgentRun>)
    requires |runs| <= |tasks| && forall i :: 0 <= i < |tasks| ==> tasks[i].metrics == None
    ensures Concludes(tasks, runs, InlineExecution(tasks, runs))
  {
    hide AggregateText, Summarizes, RowsAfter, Total, TokensSpent, CostSpent, RunTokens, RunCost;
    hide OutcomesOf, OutcomesReport;
    InlineTotals(tasks, runs);
    OutcomesReported(tasks, runs);
    AggregateSummarizes(OutcomesOf(tasks, runs));
  }

  lemma OutcomesReported(tasks: seq<Task>, runs: seq<AgentRun>)
    requires |runs| <= |tasks|
    ensures OutcomesReport(tasks, runs, OutcomesOf(tasks, runs))
  {
  }

  class Orchestrator {
    var execution: Execution
    ghost var committed: seq<ExecutionStatus>

    constructor ()
      ensures execution == Execution(ExecPending, None, None, None) && committed == []
    {
      execution := Execution(ExecPending, None, None, None);
      committed := [];
    }

    method SetExecutionStatus(status: ExecutionStatus)
      modifies this
      ensures execution == old(execution).(status := status)
      ensures committed == old(committed) + [status]
    {
      execution := execution.(status := status);
      committed := committed + [status];
    }

    /** `answer` is None when the planner raises. */
    method RunExecution(answer: Option<Planning.Json>, snippet: string, planner: Planning.Planner, agents: Agents)
      returns (ghost tasks: seq<Task>, ghost runs: seq<AgentRun>)
      requires execution == Execution(ExecPending, None, None, None) && committed == []
      modifies this
      ensures answer.None? ==>
        execution == Execution(ExecFailed, None, None, None) && committed == [ExecPlanning, ExecFailed]
      ensures answer.Some? ==>
        && tasks == Planning.RowsOf(Planning.PlanOf(answer.value, planner.repr, snippet, planner.maxTasks))
        && SequentialRun(agents, tasks, runs)
        && execution == InlineExecution(tasks, runs) && Concludes(tasks, runs, execution)
        && Informed(agents, tasks, runs)
        && committed == [ExecPlanning, ExecRunning, execution.status]
    {
      hide Planning.PlanOf, AggregateText, SequentialRun, OutcomesOf, Total, TokensSpent, CostSpent;
      hide Concludes, Informed, Reported, Summarizes;
      SetExecutionStatus(ExecPlanning);
      tasks, runs := [], [];
      if answer.None? {
        SetExecutionStatus(ExecFailed);
        return;
      }
      var subtasks := planner.Plan(answer.value, snippet);
      var rows := Planning.RowsOf(subtasks);
      tasks := rows;
      SetExecutionStatus(ExecRunning);
      var executor := new SequentialExecutor(rows);
      var allCompleted, outcomes;
      allCompleted, outcomes, runs := executor.Execute(agents);
      execution := execution.(
        totalTokens := Some(Total(executor.tasks, TokensSpent)),
        totalCost := Some(Total(executor.tasks, CostSpent)));
      if allCompleted {
        var aggregator := new Aggregator();
        var finalResult := aggregator.Aggregate(outcomes);
        execution := execution.(finalResult := Some(finalResult));
        SetExecutionStatus(ExecCompleted);
      } else {
        SetExecutionStatus(ExecFailed);
      }
      InlineConcludes(tasks, runs);
    }
  }
}
