/** The rows of an execution are those its model's answer asked for, in every run. */
module Plans {
  import opened Text
  import opened Tables
  import opened System
  import opened Safety
  import opened Preservation
  import opened Tokens
  import opened Termination
  import opened Runs
  import Planning

  /** The rows carry the tasks of the plan, dependencies included. */
  predicate Carry(rows: seq<Task>, plan: seq<Planning.Subtask>) {
    && |rows| == |plan|
    && forall i :: 0 <= i < |rows| ==>
      && rows[i].agent == plan[i].agent && rows[i].description == plan[i].description
      && rows[i].dependsOn == plan[i].dependsOn
  }

  /** The rows follow the answer that action a commits. */
  ghost predicate PlannedBy(c: Config, a: Action, rows: seq<Task>) {
    a.PlanCommits? &&
    exists plan :: Planning.Follows(a.answer, c.repr, a.snippet, c.maxTasks, plan) && Carry(rows, plan)
  }

  predicate SamePlan(rows: seq<Task>, rows': seq<Task>) {
    && |rows'| == |rows|
    && forall i :: 0 <= i < |rows| ==>
      && rows'[i].agent == rows[i].agent && rows'[i].description == rows[i].description
      && rows'[i].dependsOn == rows[i].dependsOn
  }

  lemma CommitFollows(c: Config, s: State, a: Action)
    requires Shape(s) && Enabled(s, a) && a.PlanCommits?
    ensures PlannedBy(c, a, Next(c, s, a).db.tasks)
  {
    var plan := Planning.PlanOf(a.answer, c.repr, a.snippet, c.maxTasks);
    Planning.PlanFollowsAnswer(a.answer, c.repr, a.snippet, c.maxTasks);
    hide Planning.PlanOf, Planning.Follows, Shape, Frame;
    assert Carry(Next(c, s, a).db.tasks, plan);
  }

  lemma StepKeepsPlan(c: Config, s: State, a: Action)
    requires Core(c, s) && Shape(s) && Enabled(s, a) && 1 <= c.maxTasks && !a.PlanCommits?
    ensures SamePlan(s.db.tasks, Next(c, s, a).db.tasks)
  {
    CoreStep(c, s, a);
    hide Core, Shape, Enabled, Next;
    forall i | 0 <= i < |s.db.tasks|
      ensures RowEvolves(s.db.tasks[i], s.history[i], Next(c, s, a).db.tasks[i], Next(c, s, a).history[i])
    {
    }
  }

  lemma PlannedBySame(c: Config, a: Action, rows: seq<Task>, rows': seq<Task>)
    requires PlannedBy(c, a, rows) && SamePlan(rows, rows')
    ensures PlannedBy(c, a, rows')
  {
    var plan :| Planning.Follows(a.answer, c.repr, a.snippet, c.maxTasks, plan) && Carry(rows, plan);
    assert Carry(rows', plan);
  }

  ghost predicate PlannedIn(c: Config, run: seq<Action>, rows: seq<Task>) {
    exists k :: 0 <= k < |run| && PlannedBy(c, run[k], rows)
  }

  lemma {:induction false} RunKeepsPlan(c: Config, s: State, run: seq<Action>)
    requires 1 <= c.maxTasks && Invariant(c, s) && ValidRun(c, s, run)
    ensures SamePlan(s.db.tasks, After(c, s, run).db.tasks) || PlannedIn(c, run, After(c, s, run).db.tasks)
    decreases |run|
  {
    hide Core, Shape, Sized, Enabled, Next, PlannedBy, SamePlan;
    if run == [] {
      SamePlanSelf(s.db.tasks);
    } else {
      var next, last := Next(c, s, run[0]), After(c, s, run);
      InvariantStep(c, s, run[0]);
      RunKeepsPlan(c, next, run[1..]);
      if PlannedIn(c, run[1..], last.db.tasks) {
        var k :| 0 <= k < |run[1..]| && PlannedBy(c, run[1..][k], last.db.tasks);
        assert PlannedBy(c, run[k + 1], last.db.tasks);
      } else if run[0].PlanCommits? {
        CommitFollows(c, s, run[0]);
        PlannedBySame(c, run[0], next.db.tasks, last.db.tasks);
      } else {
        StepKeepsPlan(c, s, run[0]);
        SamePlanChain(s.db.tasks, next.db.tasks, last.db.tasks);
      }
    }
  }

  lemma SamePlanSelf(rows: seq<Task>)
    ensures SamePlan(rows, rows)
  {
  }

  lemma SamePlanChain(a: seq<Task>, b: seq<Task>, c: seq<Task>)
    requires SamePlan(a, b) && SamePlan(b, c)
    ensures SamePlan(a, c)
  {
  }

  /** In every run the rows are those of an answer it committed: one task per usable item, with its dependencies. */
  lemma RowsFollowAnswer(c: Config, n: nat, run: seq<Action>)
    requires 1 <= c.maxTasks && ValidRun(c, Initial(n), run)
    ensures var rows := After(c, Initial(n), run).db.tasks; rows == [] || PlannedIn(c, run, rows)
  {
    InvariantInitially(c, n);
    RunKeepsPlan(c, Initial(n), run);
    hide PlannedIn, ValidRun, After, Invariant;
  }

  /** The summary of a fallback plan starts only when both tasks before it have completed with a result. */
  lemma FallbackSummaryWaits(c: Config, n: nat, run: seq<Action>)
    requires 3 <= c.maxTasks && ValidRun(c, Initial(n), run)
    requires forall k :: 0 <= k < |run| && run[k].PlanCommits? ==>
      run[k].answer.Array? ==> forall item :: item in run[k].answer.items ==> !Planning.Usable(item, c.repr)
    ensures var s := After(c, Initial(n), run);
      s.db.tasks != [] ==>
        && |s.db.tasks| == 3 && s.db.tasks[2].agent == Summarization && s.db.tasks[2].dependsOn == [0, 1]
        && (Started(s, 2) ==>
              && s.db.tasks[0].status.Completed? && 0 in s.db.results
              && s.db.tasks[1].status.Completed? && 1 in s.db.results)
  {
    var s := After(c, Initial(n), run);
    RowsFollowAnswer(c, n, run);
    assert Reachable(c, s);
    hide ValidRun, After, Reachable, Started;
    if s.db.tasks != [] {
      var k :| 0 <= k < |run| && PlannedBy(c, run[k], s.db.tasks);
      FallbackRows(c, run[k], s.db.tasks);
      if Started(s, 2) {
        DependencyOrder(c, s, 2, 0);
        DependencyOrder(c, s, 2, 1);
      }
    }
  }

  lemma FallbackRows(c: Config, a: Action, rows: seq<Task>)
    requires 3 <= c.maxTasks && PlannedBy(c, a, rows)
    requires a.answer.Array? ==> forall item :: item in a.answer.items ==> !Planning.Usable(item, c.repr)
    ensures |rows| == 3 && rows[2].agent == Summarization && rows[2].dependsOn == [0, 1]
  {
    hide Planning.Usable, Planning.PlannedFor;
    var plan :| Planning.Follows(a.answer, c.repr, a.snippet, c.maxTasks, plan) && Carry(rows, plan);
    var at :| Planning.UsableAt(a.answer, c.repr, at)
      && Planning.FollowsAt(a.answer, c.repr, a.snippet, c.maxTasks, plan, at);
    assert at == [] by {
      NoneUsable(a.answer, c.repr, at);
    }
    assert Planning.FallbackTask(a.snippet, 2, plan[2]);
  }

  lemma NoneUsable(answer: Planning.Json, repr: Planning.Json -> string, at: seq<nat>)
    requires Planning.UsableAt(answer, repr, at)
    requires answer.Array? ==> forall item :: item in answer.items ==> !Planning.Usable(item, repr)
    ensures at == []
  {
    hide Planning.Usable;
    if at != [] {
      FirstIsUsable(answer, repr, at);
    }
  }

  lemma FirstIsUsable(answer: Planning.Json, repr: Planning.Json -> string, at: seq<nat>)
    requires Planning.UsableAt(answer, repr, at) && at != []
    ensures answer.Array? && exists item :: item in answer.items && Planning.Usable(item, repr)
  {
    hide Planning.Usable;
    assert answer.items[at[0]] in answer.items;
  }
}
