/**
 * Concrete runs that show where the code is weaker than its documentation, and
 * that the hypotheses of the theorems in Runs are needed.
 */
module Witnesses {
  import opened Text
  import opened Tables
  import opened System
  import opened Wakeups
  import opened Runs
  import opened Sequential
  import opened Agreement
  import Planning

  lemma {:induction false} RunAppend(c: Config, s: State, run: seq<Action>, a: Action)
    requires ValidRun(c, s, run) && Shape(After(c, s, run)) && Enabled(After(c, s, run), a)
    ensures ValidRun(c, s, run + [a])
    ensures After(c, s, run + [a]) == Next(c, After(c, s, run), a)
    decreases |run|
  {
    if run == [] {
      assert run + [a] == [a];
      assert [a][1..] == [];
    } else {
      RunAppend(c, Next(c, s, run[0]), run[1..], a);
      assert (run + [a])[1..] == run[1..] + [a];
    }
  }

  lemma ReachableShape(c: Config, s: State)
    requires Reachable(c, s)
    ensures Shape(s)
  {
    ReachableInvariant(c, s);
  }

  lemma ReachableNext(c: Config, s: State, a: Action)
    requires Reachable(c, s) && Shape(s) && Enabled(s, a)
    ensures Reachable(c, Next(c, s, a)) && Shape(Next(c, s, a))
  {
    var n, run :| ValidRun(c, Initial(n), run) && After(c, Initial(n), run) == s;
    RunAppend(c, Initial(n), run, a);
    ReachableShape(c, Next(c, s, a));
  }

  function Demo(): Config {
    Config(1, 1, _ => "")
  }

  function DemoOutput(): AgentRun {
    Returned("done", Metrics(1, 0, 0))
  }

  function DemoOracle(): Oracle {
    Oracle(Planning.Null, "", (i: nat, r: AgentRun) => r == DemoOutput())
  }

  function DemoAgents(): Agents {
    (i: nat, context: string) => DemoOutput()
  }

  /** A run that the oracle allows and in which no lease expires. */
  ghost predicate LawfulRun(run: seq<Action>, s: State) {
    && ValidRun(Demo(), Initial(7), run) && After(Demo(), Initial(7), run) == s
    && ObeysAll(Demo(), DemoOracle(), Initial(7), run) && NoLeaseExpiry(run)
  }

  ghost predicate Lawful(s: State) {
    exists run :: LawfulRun(run, s)
  }

  lemma LawfulReachable(s: State)
    requires Lawful(s)
    ensures Reachable(Demo(), s)
  {
    var run :| LawfulRun(run, s);
  }

  lemma LawfulInitially()
    ensures Lawful(Initial(7)) && Shape(Initial(7))
  {
    assert LawfulRun([], Initial(7));
  }

  lemma {:induction false} ObeysAppend(c: Config, o: Oracle, s: State, run: seq<Action>, a: Action)
    requires ValidRun(c, s, run) && ObeysAll(c, o, s, run)
    requires Shape(After(c, s, run)) && Enabled(After(c, s, run), a) && Obeys(o, After(c, s, run), a)
    requires ValidRun(c, s, run + [a])
    ensures ObeysAll(c, o, s, run + [a])
    decreases |run|
  {
    hide Next, Shape, Enabled, Obeys;
    if run == [] {
      assert run + [a] == [a];
      assert [a][1..] == [];
    } else {
      assert (run + [a])[1..] == run[1..] + [a];
      ObeysAppend(c, o, Next(c, s, run[0]), run[1..], a);
    }
  }

  lemma LawfulNext(s: State, a: Action)
    requires Lawful(s) && Shape(s) && Enabled(s, a) && Obeys(DemoOracle(), s, a) && !a.Reap?
    ensures Lawful(Next(Demo(), s, a)) && Shape(Next(Demo(), s, a))
  {
    hide Shape, Enabled, Next, Obeys, ObeysAll, DemoOracle, Initial;
    var run :| LawfulRun(run, s);
    RunAppend(Demo(), Initial(7), run, a);
    ObeysAppend(Demo(), DemoOracle(), Initial(7), run, a);
    assert LawfulRun(run + [a], Next(Demo(), s, a));
    LawfulReachable(Next(Demo(), s, a));
    hide Reachable;
    ReachableShape(Demo(), Next(Demo(), s, a));
  }

  /** One task, enqueued, with the fields the demonstrations follow. */
  predicate OneTask(s: State, status: TaskStatus, attempts: nat, claims: nat, queue: seq<Job>) {
    && |s.db.tasks| == 1 && |s.history| == 1 && s.db.execution.status == ExecRunning
    && s.db.tasks[0].status == status && s.db.tasks[0].enqueued && s.db.tasks[0].attempts == attempts
    && s.db.tasks[0].dependsOn == []
    && s.history[0].claims == claims
    && s.redis.queue == queue && s.redis.delayed == map[]
  }

  predicate IdleFrom(s: State, k: nat) {
    |s.procs| == 7 && forall p :: k <= p < 7 ==> s.procs[p].Idle?
  }

  lemma DemoRows()
    ensures Planning.RowsOf(Planning.PlanOf(Planning.Null, Demo().repr, "", 1))
      == [Task(Research, "Research and gather relevant information for: ", [], Pending, false, 0, None)]
  {
    var description := "Research and gather relevant information for: ";
    assert description + "" == description;
    var plan := Planning.PlanOf(Planning.Null, Demo().repr, "", 1);
    assert plan == [Planning.Subtask(Research, description, [])];
  }

  lemma StartPlanning() returns (s: State)
    ensures Lawful(s) && Shape(s) && IdleFrom(s, 1) && s.procs[0] == Planning
    ensures s.db == Tables(Execution(ExecPlanning, None, None, None), [], map[])
    ensures s.redis == Redis([], map[], [])
  {
    hide Lawful, Frame;
    var c, s0 := Demo(), Initial(7);
    LawfulInitially();
    LawfulNext(s0, Dequeue(0));
    var s1 := Next(c, s0, Dequeue(0));
    LawfulNext(s1, GuardPlan(0));
    s := Next(c, s1, GuardPlan(0));
  }

  lemma PlanOneTask() returns (s: State)
    ensures Lawful(s) && Shape(s) && IdleFrom(s, 1) && s.procs[0] == Scheduling(0)
    ensures |s.db.tasks| == 1 && Untouched(s.db.tasks[0]) && s.db.tasks[0].attempts == 0
    ensures s.db.tasks[0].dependsOn == [] && s.db.results == map[]
    ensures s.history == [History(false, 0, 0, false)]
    ensures s.db.execution.status == ExecRunning && s.redis == Redis([], map[], [])
  {
    hide Lawful, Frame;
    var c := Demo();
    var s0 := StartPlanning();
    DemoRows();
    hide Planning.PlanOf, Planning.RowsOf;
    LawfulNext(s0, PlanCommits(0, Planning.Null, ""));
    var s1 := Next(c, s0, PlanCommits(0, Planning.Null, ""));
    LawfulNext(s1, StartRunning(0));
    s := Next(c, s1, StartRunning(0));
  }

  lemma ReleaseOneTask() returns (s: State)
    ensures Lawful(s) && Shape(s) && IdleFrom(s, 1)
    ensures s.procs[0].Publishing? && s.procs[0].task == 0 && s.procs[0].todo == {}
    ensures OneTask(s, Pending, 0, 0, []) && s.db.results == map[] && s.history[0].lost == 0
    ensures s.redis.dead == []
  {
    hide Lawful, Frame;
    var c := Demo();
    var s0 := PlanOneTask();
    LawfulNext(s0, TakeSnapshot(0));
    var s1 := Next(c, s0, TakeSnapshot(0));
    assert s1.procs[0].todo == {0};
    LawfulNext(s1, Visit(0, 0, false));
    s := Next(c, s1, Visit(0, 0, false));
  }

  lemma EnqueueOneTask() returns (s: State)
    ensures Lawful(s) && Shape(s) && IdleFrom(s, 1)
    ensures s.procs[0].Scanning? && s.procs[0].todo == {} && s.procs[0].changed
    ensures OneTask(s, Pending, 0, 0, [TaskJob(0)]) && s.db.results == map[] && s.history[0].lost == 0
  {
    hide Lawful, Frame;
    var c := Demo();
    var s0 := ReleaseOneTask();
    LawfulNext(s0, Publish(0));
    s := Next(c, s0, Publish(0));
  }

  lemma RunOneTask() returns (s: State)
    ensures Reachable(Demo(), s) && Shape(s) && IdleFrom(s, 2)
    ensures s.procs[1] == Working(0)
    ensures OneTask(s, Running, 0, 1, []) && s.db.results == map[] && s.history[0].lost == 0
  {
    hide Reachable, Frame;
    var c := Demo();
    var s0 := EnqueueOneTask();
    LawfulReachable(s0);
    ReachableNext(c, s0, Dequeue(1));
    var s1 := Next(c, s0, Dequeue(1));
    ReachableNext(c, s1, Claim(1));
    var s2 := Next(c, s1, Claim(1));
    ReachableNext(c, s2, CheckResult(1));
    s := Next(c, s2, CheckResult(1));
  }

  /** The reaper reads the row while the worker is still on it. */
  lemma ReapOneTask() returns (s: State)
    ensures Reachable(Demo(), s) && Shape(s) && IdleFrom(s, 3)
    ensures s.procs[1] == Working(0) && s.procs[2] == Recovering([Stale(0, 0)])
    ensures OneTask(s, Running, 0, 1, []) && s.db.results == map[] && s.history[0].lost == 0
  {
    hide Reachable, Frame;
    var c := Demo();
    var s0 := RunOneTask();
    ReachableNext(c, s0, Reap(2, [0]));
    s := Next(c, s0, Reap(2, [0]));
  }

  /** Process p writes attempts 1 from a read of 0; the retry is promoted by q and claimed by w. */
  lemma RetryOnce(s0: State, p: nat, q: nat, w: nat) returns (s: State)
    requires Reachable(Demo(), s0) && Shape(s0) && |s0.procs| == 7
    requires p < 7 && q < 7 && w < 7 && p != q && q != w && p != w
    requires s0.procs[p] == Recovering([Stale(0, 0)]) && s0.procs[q].Idle? && s0.procs[w].Idle?
    requires |s0.history| == 1 && OneTask(s0, Running, s0.db.tasks[0].attempts, s0.history[0].claims, [])
    ensures Reachable(Demo(), s) && Shape(s) && |s.procs| == 7
    ensures s.procs[w] == Claimed(0)
    ensures forall k :: 0 <= k < 7 && k != p && k != q && k != w ==> s.procs[k] == s0.procs[k]
    ensures OneTask(s, Running, 1, s0.history[0].claims + 1, []) && s.db.results == s0.db.results
    ensures s.history[0].lost == s0.history[0].lost + s0.db.tasks[0].attempts
  {
    var s1 := RetryDelayed(s0, p);
    var s2 := RetryPromoted(s1, q);
    hide Reachable, Shape;
    s := ClaimAgain(s2, w);
  }

  lemma ClaimAgain(s0: State, w: nat) returns (s: State)
    requires Reachable(Demo(), s0) && Shape(s0) && |s0.procs| == 7 && w < 7 && s0.procs[w].Idle?
    requires |s0.history| == 1 && OneTask(s0, Retrying, 1, s0.history[0].claims, [TaskJob(0)])
    ensures Reachable(Demo(), s) && Shape(s) && |s.procs| == 7 && s.procs[w] == Claimed(0)
    ensures forall k :: 0 <= k < 7 && k != w ==> s.procs[k] == s0.procs[k]
    ensures OneTask(s, Running, 1, s0.history[0].claims + 1, []) && s.db.results == s0.db.results
    ensures s.history[0].lost == s0.history[0].lost
  {
    hide Reachable, Frame;
    var c := Demo();
    ReachableNext(c, s0, Dequeue(w));
    var s1 := Next(c, s0, Dequeue(w));
    ReachableNext(c, s1, Claim(w));
    s := Next(c, s1, Claim(w));
  }

  lemma RetryDelayed(s0: State, p: nat) returns (s: State)
    requires Reachable(Demo(), s0) && Shape(s0) && |s0.procs| == 7 && p < 7
    requires s0.procs[p] == Recovering([Stale(0, 0)])
    requires |s0.history| == 1 && OneTask(s0, Running, s0.db.tasks[0].attempts, s0.history[0].claims, [])
    ensures Reachable(Demo(), s) && Shape(s) && |s.procs| == 7
    ensures forall k :: 0 <= k < 7 && k != p ==> s.procs[k] == s0.procs[k]
    ensures s.redis.delayed == map[0 := 0.0]
    ensures OneTask(s.(redis := s.redis.(delayed := map[])), Retrying, 1, s0.history[0].claims, [])
    ensures s.db.results == s0.db.results
    ensures s.history[0].lost == s0.history[0].lost + s0.db.tasks[0].attempts
  {
    hide Reachable, Frame;
    var c := Demo();
    ReachableNext(c, s0, RecoverOne(p, 0.0));
    var s1 := Next(c, s0, RecoverOne(p, 0.0));
    ReachableNext(c, s1, ScheduleRetry(p));
    s := Next(c, s1, ScheduleRetry(p));
  }

  lemma RetryPromoted(s0: State, q: nat) returns (s: State)
    requires Reachable(Demo(), s0) && Shape(s0) && |s0.procs| == 7 && q < 7 && s0.procs[q].Idle?
    requires s0.redis.queue == [] && s0.redis.delayed == map[0 := 0.0]
    ensures Reachable(Demo(), s) && Shape(s) && |s.procs| == 7
    ensures forall k :: 0 <= k < 7 && k != q ==> s.procs[k] == s0.procs[k]
    ensures s.db == s0.db && s.history == s0.history
    ensures s.redis.queue == [TaskJob(0)] && s.redis.delayed == map[]
  {
    hide Reachable, Frame;
    var c := Demo();
    ReachableNext(c, s0, PromoteRead(q, [0], 0.0));
    var s1 := Next(c, s0, PromoteRead(q, [0], 0.0));
    s := MoveTask(s1, q);
  }

  lemma MoveTask(s0: State, q: nat) returns (s: State)
    requires Reachable(Demo(), s0) && Shape(s0) && |s0.procs| == 7 && q < 7 && s0.procs[q] == Promoting([0])
    requires s0.redis.queue == [] && s0.redis.delayed == map[0 := 0.0]
    ensures Reachable(Demo(), s) && Shape(s) && |s.procs| == 7
    ensures forall k :: 0 <= k < 7 && k != q ==> s.procs[k] == s0.procs[k]
    ensures s.db == s0.db && s.history == s0.history
    ensures s.redis.queue == [TaskJob(0)] && s.redis.delayed == map[]
  {
    hide Reachable, Frame;
    var c := Demo();
    ReachableNext(c, s0, PromoteRemove(q));
    var s1 := Next(c, s0, PromoteRemove(q));
    assert s1.redis.delayed == map[];
    ReachableNext(c, s1, PromotePush(q));
    s := Next(c, s1, PromotePush(q));
  }

  /** A stale read of attempts lets a task be claimed more than max_retries + 1 times. */
  lemma StaleReadOverclaims() returns (s: State)
    ensures Reachable(Demo(), s) && |s.history| == 1
    ensures s.history[0].claims == Demo().maxRetries + 2 && s.history[0].lost == 1
  {
    hide Reachable, Frame;
    var c := Demo();
    var s0 := ReapOneTask();
    ReachableNext(c, s0, AgentFails(1));
    var s1 := Next(c, s0, AgentFails(1));
    var s2 := RetryOnce(s1, 1, 3, 4);
    s := RetryOnce(s2, 2, 5, 6);
  }

  /**
   * The "result already present" branch is reached by a planner-created task: a
   * late worker commits between another worker's claim and its result check.
   */
  lemma ResultBranchReached() returns (s: State, p: nat)
    ensures Reachable(Demo(), s) && p < |s.procs|
    ensures s.procs[p] == Claimed(0) && 0 in s.db.results
    ensures |s.db.tasks| == 1 && s.db.tasks[0].status.Completed?
  {
    hide Reachable, Frame;
    var c := Demo();
    var s0 := ReapOneTask();
    var s1 := RetryOnce(s0, 2, 3, 4);
    var done := AgentSucceeds(1, "late", Metrics(1, 0, 0));
    ReachableNext(c, s1, done);
    s, p := Next(c, s1, done), 4;
  }

  /**
   * BLPOP hands a job out at most once: if the process that popped the only job
   * of a released task stops before its claim, nothing is left to happen and the
   * execution stays RUNNING.
   */
  lemma LosingAJobStrands() returns (s: State, p: nat)
    ensures Reachable(Demo(), s) && p < |s.procs| && s.procs[p] == Holds(0)
    ensures Quiescent(Become(s, p, Idle)) && s.db.execution.status == ExecRunning
  {
    hide Reachable, Lawful, Frame, Shape;
    var s0 := PassEnds();
    LawfulReachable(s0);
    ReachableNext(Demo(), s0, Dequeue(1));
    s, p := Next(Demo(), s0, Dequeue(1)), 1;
  }

  lemma PassEnds() returns (s: State)
    ensures Lawful(s) && Shape(s) && IdleFrom(s, 0)
    ensures OneTask(s, Pending, 0, 0, [TaskJob(0)]) && s.db.results == map[]
  {
    hide Lawful, Frame;
    var c := Demo();
    var s0 := EnqueueOneTask();
    LawfulNext(s0, EndPass(0));
    var s1 := Next(c, s0, EndPass(0));
    LawfulNext(s1, TakeSnapshot(0));
    var s2 := Next(c, s1, TakeSnapshot(0));
    assert s2.procs[0].todo == {0};
    LawfulNext(s2, Visit(0, 0, false));
    var s3 := Next(c, s2, Visit(0, 0, false));
    s := FinalizeIdles(s3);
  }

  lemma FinalizeIdles(s0: State) returns (s: State)
    requires Lawful(s0) && Shape(s0) && IdleFrom(s0, 1)
    requires OneTask(s0, Pending, 0, 0, [TaskJob(0)])
    requires s0.procs[0].Scanning? && s0.procs[0].todo == {} && !s0.procs[0].changed
    ensures Lawful(s) && Shape(s) && IdleFrom(s, 0)
    ensures OneTask(s, Pending, 0, 0, [TaskJob(0)]) && s.db.results == s0.db.results
  {
    hide Lawful, Frame;
    var c := Demo();
    LawfulNext(s0, EndPass(0));
    var s1 := Next(c, s0, EndPass(0));
    LawfulNext(s1, ReadForFinalize(0));
    s := Next(c, s1, ReadForFinalize(0));
  }

  /**
   * The hypotheses of the liveness and agreement theorems can be met together: a run
   * without lease expiry, allowed by an oracle that fixes every output, that comes to
   * rest COMPLETED; and the inline run of the same plan.
   */
  lemma OneTaskCompletes() returns (run: seq<Action>, runs: seq<AgentRun>)
    ensures var c, o := Demo(), DemoOracle();
      && 1 <= c.maxTasks && ValidRun(c, Initial(7), run) && ObeysAll(c, o, Initial(7), run) && NoLeaseExpiry(run)
      && Quiescent(After(c, Initial(7), run)) && After(c, Initial(7), run).db.tasks != []
      && After(c, Initial(7), run).db.execution.status == ExecCompleted
      && SequentialRun(DemoAgents(), PlannedTasks(c, o), runs)
      && Consistent(o, DemoAgents()) && SuccessDetermined(o) && OutputDetermined(o)
  {
    hide ValidRun, After, ObeysAll, NoLeaseExpiry, Quiescent, PlannedTasks, SequentialRun;
    run := DemoRun();
    runs := DemoInline();
    DemoDetermined();
  }

  lemma DemoDetermined()
    ensures Consistent(DemoOracle(), DemoAgents())
    ensures SuccessDetermined(DemoOracle()) && OutputDetermined(DemoOracle())
  {
  }

  lemma DemoInline() returns (runs: seq<AgentRun>)
    ensures SequentialRun(DemoAgents(), PlannedTasks(Demo(), DemoOracle()), runs)
  {
    runs := [DemoOutput()];
    DemoRows();
    hide Planning.PlanOf, Planning.RowsOf;
    assert runs[..0] == [];
  }

  lemma DemoRun() returns (run: seq<Action>)
    ensures ValidRun(Demo(), Initial(7), run)
    ensures var s := After(Demo(), Initial(7), run);
      && LawfulRun(run, s) && Quiescent(s) && s.db.tasks != [] && s.db.execution.status == ExecCompleted
  {
    hide Lawful, Shape, LawfulRun, Quiescent, OneTask, IdleFrom;
    var s0 := PassEnds();
    PassEndsIdle(s0);
    var s1 := WorkStarts(s0);
    var s2 := WorkReturns(s1);
    var s := FinalizeCompletes(s2);
    run := LawfulHasRun(s);
  }

  lemma PassEndsIdle(s: State)
    requires IdleFrom(s, 0)
    ensures |s.procs| == 7 && forall k :: 0 <= k < 7 ==> s.procs[k].Idle?
  {
  }

  lemma LawfulHasRun(s: State) returns (run: seq<Action>)
    requires Lawful(s)
    ensures ValidRun(Demo(), Initial(7), run) && LawfulRun(run, s) && After(Demo(), Initial(7), run) == s
  {
    run :| LawfulRun(run, s);
  }

  lemma WorkStarts(s0: State) returns (s: State)
    requires Lawful(s0) && Shape(s0) && IdleFrom(s0, 0)
    requires OneTask(s0, Pending, 0, 0, [TaskJob(0)]) && s0.db.results == map[]
    ensures Lawful(s) && Shape(s) && s.procs == s0.procs[1 := Working(0)]
    ensures OneTask(s, Running, 0, 1, []) && s.db.results == map[]
  {
    hide Lawful, Frame;
    var c := Demo();
    LawfulNext(s0, Dequeue(1));
    var s1 := Next(c, s0, Dequeue(1));
    LawfulNext(s1, Claim(1));
    var s2 := Next(c, s1, Claim(1));
    LawfulNext(s2, CheckResult(1));
    s := Next(c, s2, CheckResult(1));
  }

  lemma WorkReturns(s0: State) returns (s: State)
    requires Lawful(s0) && Shape(s0) && |s0.procs| == 7 && s0.procs[1] == Working(0)
    requires OneTask(s0, Running, 0, 1, []) && s0.db.results == map[]
    ensures Lawful(s) && Shape(s)
    ensures |s.procs| == 7 && s.procs[1].Scanning? && s.procs[1].todo == {} && !s.procs[1].changed
    ensures forall k :: 0 <= k < 7 && k != 1 ==> s.procs[k] == s0.procs[k]
    ensures OneTask(s, Completed, 0, 1, [])
  {
    hide Lawful, Frame;
    var c, done := Demo(), AgentSucceeds(1, "done", Metrics(1, 0, 0));
    LawfulNext(s0, done);
    var s1 := Next(c, s0, done);
    LawfulNext(s1, TakeSnapshot(1));
    var s2 := Next(c, s1, TakeSnapshot(1));
    assert s2.procs[1].todo == {0};
    LawfulNext(s2, Visit(1, 0, false));
    s := Next(c, s2, Visit(1, 0, false));
  }

  lemma FinalizeCompletes(s0: State) returns (s: State)
    requires Lawful(s0) && Shape(s0)
    requires |s0.procs| == 7 && s0.procs[1].Scanning? && s0.procs[1].todo == {} && !s0.procs[1].changed
    requires forall k :: 0 <= k < 7 && k != 1 ==> s0.procs[k].Idle?
    requires OneTask(s0, Completed, 0, 1, [])
    ensures Lawful(s) && Quiescent(s) && s.db.execution.status == ExecCompleted && s.db.tasks != []
  {
    hide Lawful, Frame, VerdictOf;
    var c := Demo();
    LawfulNext(s0, EndPass(1));
    var s1 := Next(c, s0, EndPass(1));
    LawfulNext(s1, ReadForFinalize(1));
    var s2 := Next(c, s1, ReadForFinalize(1));
    assert s2.procs[1].verdict == VerdictOf(s0.db.tasks, s0.db.results);
    VerdictSucceeds(s0);
    LawfulNext(s2, CommitVerdict(1));
    s := Next(c, s2, CommitVerdict(1));
  }

  lemma VerdictSucceeds(s: State)
    requires AllCompleted(s.db.tasks)
    ensures VerdictOf(s.db.tasks, s.db.results).Success?
  {
  }
}
