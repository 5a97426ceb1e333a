/**
 * A process may stop between popping a job and acting on it; BLPOP has removed
 * the job by then.  Which losses matter, for how long, and what makes up for them.
 */
module Losses {
  import opened Tables
  import opened Sums
  import opened System
  import opened Safety
  import opened Preservation
  import opened Tokens
  import opened Wakeups
  import opened Termination
  import opened Runs
  import opened Claims

  /** Process p stops; what it had popped is gone. */
  function Stop(s: State, p: nat): State
    requires p < |s.procs|
  {
    Become(s, p, Idle)
  }

  predicate Finished(s: State) {
    s.db.execution.status == ExecCompleted || s.db.execution.status == ExecFailed
  }

  // ---- a lost task job ----

  /** Everything that is invariant, but for the tokens of task t. */
  ghost predicate InvariantBut(c: Config, s: State, t: nat) {
    && Core(c, s) && Shape(s) && Sized(c, s) && DeadLettersExact(c, s) && Awake(s) && RoundsBounded(s)
    && |s.db.tasks| == |s.history|
    && forall u :: 0 <= u < |s.db.tasks| && u != t ==> TokensOf(s, u)
  }

  /** A released task waits for a job that is nowhere. */
  ghost predicate Orphaned(s: State, t: nat) {
    && t < |s.db.tasks| == |s.history|
    && s.history[t].released && Claimable(s.db.tasks[t].status)
    && TokenCount(s, t) == 0
  }

  /** The job can be spared: the task needs none, or has another. */
  predicate Spare(s: State, t: nat) {
    t < |s.db.tasks| ==> !Claimable(s.db.tasks[t].status) || TokenCount(s, t) >= 2
  }

  lemma StopTokens(s: State, p: nat, u: nat)
    requires p < |s.procs| && s.procs[p].Holds?
    ensures TokenCount(Stop(s, p), u) == TokenCount(s, u) - if u == s.procs[p].task then 1 else 0
    ensures TokenCount(s, s.procs[p].task) >= 1
  {
    HandStep(s, Stop(s, p), p, u);
    HandStep(s, Stop(s, p), p, s.procs[p].task);
  }

  lemma StopKeepsCore(c: Config, s: State, p: nat)
    requires Core(c, s) && p < |s.procs| && (s.procs[p].Holds? || s.procs[p].HoldsPlan?)
    ensures Core(c, Stop(s, p)) && Shape(Stop(s, p))
  {
    var s' := Stop(s, p);
    TotalUpdate(s.procs, p, Idle, PlannerWeight);
    forall i | 0 <= i < |s.db.tasks| ensures TaskOk(c, s', i) {
      assert TaskOk(c, s, i);
    }
    StopKeepsProcs(c, s, p);
    hide TaskOk, ProcOk;
    CoreShape(c, s');
  }

  lemma StopKeepsProcs(c: Config, s: State, p: nat)
    requires ProcsOk(c, s) && p < |s.procs|
    ensures ProcsOk(c, Stop(s, p))
  {
    var s' := Stop(s, p);
    forall k | 0 <= k < |s'.procs| ensures ProcOk(c, s', s'.procs[k]) {
      assert ProcOk(c, s, s.procs[k]);
    }
  }

  lemma StopKeepsDead(c: Config, s: State, p: nat)
    requires DeadLettersExact(c, s) && p < |s.procs| && (s.procs[p].Holds? || s.procs[p].HoldsPlan?)
    ensures DeadLettersExact(c, Stop(s, p))
  {
    var s' := Stop(s, p);
    forall t | 0 <= t < |s.db.tasks| ensures DeadCount(c, s', t) == DeadCount(c, s, t) {
      BuriesMove(s, s', p, t);
    }
  }

  lemma StopKeepsCovers(s: State, p: nat)
    requires Awake(s) && p < |s.procs| && (s.procs[p].Holds? || s.procs[p].HoldsPlan?)
    requires s.procs[p].HoldsPlan? && s.db.execution.status == ExecPending ==> PlanAwaited(Stop(s, p))
    ensures Awake(Stop(s, p))
  {
    var s' := Stop(s, p);
    if s.db.execution.status == ExecRunning {
      hide Actionable;
      forall i | 0 <= i < |s.db.tasks| && Actionable(s.db.tasks, i) ensures SomeoneCovers(s', i) {
        var k :| 0 <= k < |s.procs| && Covers(s.procs[k], i);
        assert Covers(s'.procs[k], i);
      }
      if AllTerminal(s.db.tasks) {
        var k :| 0 <= k < |s.procs| && WillFinalize(s.procs[k]);
        assert WillFinalize(s'.procs[k]);
      }
    } else if s.db.execution.status == ExecPending && s.procs[p].Holds? && PlanJob !in s.redis.queue {
      var k :| 0 <= k < |s.procs| && s.procs[k].HoldsPlan?;
      assert s'.procs[k].HoldsPlan?;
    }
  }

  lemma StopKeepsRest(c: Config, s: State, p: nat)
    requires Invariant(c, s) && p < |s.procs| && s.procs[p].Holds?
    ensures InvariantBut(c, Stop(s, p), s.procs[p].task)
    ensures s.procs[p].task < |s.db.tasks|
  {
    var s' := Stop(s, p);
    StopKeepsCore(c, s, p);
    StopKeepsDead(c, s, p);
    StopKeepsCovers(s, p);
    assert InRange(s, s.procs[p]);
    hide Core, Shape, DeadLettersExact, Awake;
    forall u | 0 <= u < |s.db.tasks| && u != s.procs[p].task ensures TokensOf(s', u) {
      assert TokensOf(s, u);
      StopTokens(s, p, u);
      hide TokenCount;
    }
    forall k | 0 <= k < |s'.procs| ensures WithinRounds(s'.db.tasks, s'.procs[k]) {
      assert WithinRounds(s.db.tasks, s.procs[k]);
    }
  }

  lemma TokensComplete(c: Config, s: State, t: nat)
    requires InvariantBut(c, s, t) && (t < |s.db.tasks| ==> TokensOf(s, t))
    ensures Invariant(c, s)
  {
    hide Core, Shape, Sized, DeadLettersExact, Awake, RoundsBounded, TokensOf;
  }

  /** Losing a job that can be spared loses nothing. */
  lemma SpareLossHarmless(c: Config, s: State, p: nat)
    requires Invariant(c, s) && p < |s.procs| && s.procs[p].Holds?
    requires s.procs[p].task < |s.db.tasks| && Spare(s, s.procs[p].task)
    ensures Invariant(c, Stop(s, p))
  {
    var t := s.procs[p].task;
    StopKeepsRest(c, s, p);
    StopTokens(s, p, t);
    assert TokensOf(s, t);
    hide TokenCount, InvariantBut, Core, Shape, Sized, DeadLettersExact, Awake, RoundsBounded;
    TokensComplete(c, Stop(s, p), t);
  }

  lemma LossOrphans(c: Config, s: State, p: nat)
    requires Invariant(c, s) && p < |s.procs| && s.procs[p].Holds?
    requires s.procs[p].task < |s.db.tasks| && !Spare(s, s.procs[p].task)
    ensures InvariantBut(c, Stop(s, p), s.procs[p].task) && Orphaned(Stop(s, p), s.procs[p].task)
  {
    StopKeepsRest(c, s, p);
    StopTokens(s, p, s.procs[p].task);
    assert ProcOk(c, s, s.procs[p]);
    hide TokenCount, InvariantBut, Core, Shape, Sized, DeadLettersExact, Awake, RoundsBounded;
  }

  // ---- an orphaned task stays as it is until it is rescued ----

  /** A job of t arrives again, or a late worker still on t succeeds. */
  predicate Rescues(s: State, a: Action, t: nat)
    requires Enabled(s, a)
  {
    a == Redeliver(TaskJob(t)) || SucceedsOn(s, a, t)
  }

  ghost predicate Rescued(c: Config, s: State, run: seq<Action>, t: nat)
    requires ValidRun(c, s, run)
    decreases |run|
  {
    run != [] && (Rescues(s, run[0], t) || Rescued(c, Next(c, s, run[0]), run[1..], t))
  }

  lemma OrphanNotHeld(s: State, p: nat, t: nat)
    requires Orphaned(s, t) && p < |s.procs|
    ensures HandOf(s.procs[p], t) == 0
  {
    TotalAtLeast(s.procs, p, InHand(t));
  }

  lemma OrphanNoResult(c: Config, s: State, t: nat)
    requires Core(c, s) && Orphaned(s, t)
    ensures t !in s.db.results && s.db.tasks[t].enqueued && !Doomed(s.db.tasks, t)
  {
    assert TaskOk(c, s, t);
    if Doomed(s.db.tasks, t) {
      DoomedNotReleased(c, s, t);
    }
  }

  /** The row and history bits of t that an unrescued step leaves alone, and no new job of t. */
  ghost predicate Unmoved(s: State, s': State, t: nat) {
    && t < |s.db.tasks| == |s'.db.tasks| && t < |s.history| == |s'.history|
    && s'.db.tasks[t] == s.db.tasks[t]
    && (s.history[t].released ==> s'.history[t].released)
    && TokenCount(s', t) == 0
  }

  lemma OrphanTaskAction(c: Config, s: State, a: Action, t: nat)
    requires Core(c, s) && Shape(s) && Enabled(s, a) && Orphaned(s, t) && TaskAction(a) && !SucceedsOn(s, a, t)
    ensures Unmoved(s, Next(c, s, a), t)
  {
    OrphanNoResult(c, s, t);
    OrphanNotHeld(s, a.p, t);
    OrphanRow(c, s, a, t);
    TaskHand(c, s, a, t);
    hide Core, Shape, Frame, Next, Enabled, TokenCount, SucceedsOn, Doomed;
    HandStep(s, Next(c, s, a), a.p, t);
  }

  /** Only a worker on t, or a claim of t, changes a row that waits. */
  lemma OrphanRow(c: Config, s: State, a: Action, t: nat)
    requires Shape(s) && Enabled(s, a) && TaskAction(a) && !SucceedsOn(s, a, t)
    requires t < |s.db.tasks| && Claimable(s.db.tasks[t].status) && t !in s.db.results
    requires HandOf(s.procs[a.p], t) == 0
    ensures Next(c, s, a).db.tasks[t] == s.db.tasks[t]
    ensures Next(c, s, a).history[t].released == s.history[t].released
  {
    hide Frame;
  }

  lemma TaskHand(c: Config, s: State, a: Action, t: nat)
    requires Shape(s) && Enabled(s, a) && TaskAction(a)
    requires t < |s.db.tasks| && !s.db.tasks[t].status.Running?
    ensures Next(c, s, a).redis == s.redis
    ensures HandOf(Next(c, s, a).procs[a.p], t) == 0
  {
    hide Frame, Shape;
  }

  lemma OrphanVisit(c: Config, s: State, p: nat, i: nat, seesOwn: bool, t: nat)
    requires Core(c, s) && Shape(s) && Orphaned(s, t)
    requires p < |s.procs| && s.procs[p].Scanning? && i in s.procs[p].todo
    ensures Unmoved(s, DoVisit(s, p, i, seesOwn), t)
  {
    var q := s.procs[p];
    OrphanNoResult(c, s, t);
    HandStep(s, DoVisit(s, p, i, seesOwn), p, t);
    assert ProcOk(c, s, q);
    if Doomed(q.rows, i) {
      SnapshotDoomed(s, q.rows, i);
    }
    hide Core, TokenCount, Doomed, DepsCompleted, ProcOk;
  }

  lemma OrphanPassAction(c: Config, s: State, a: Action, t: nat)
    requires Core(c, s) && Shape(s) && Enabled(s, a) && Orphaned(s, t) && PassAction(a)
    ensures Unmoved(s, Next(c, s, a), t)
  {
    if a.Visit? {
      OrphanVisit(c, s, a.p, a.row, a.seesOwn, t);
      hide Core, Shape, Unmoved, DoVisit;
    } else {
      PassHand(c, s, a, t);
      hide Core, Shape, TokenCount, Frame, Next, Enabled;
      HandStep(s, Next(c, s, a), a.p, t);
    }
  }

  lemma PassHand(c: Config, s: State, a: Action, t: nat)
    requires Shape(s) && Enabled(s, a) && PassAction(a) && !a.Visit?
    ensures Next(c, s, a).redis == s.redis && Next(c, s, a).history == s.history
    ensures Next(c, s, a).db.tasks == s.db.tasks
    ensures HandOf(Next(c, s, a).procs[a.p], t) == 0
  {
    hide Shape, Frame;
  }

  lemma OrphanQueueAction(c: Config, s: State, a: Action, t: nat)
    requires Core(c, s) && Shape(s) && Enabled(s, a) && Orphaned(s, t) && QueueAction(a)
    requires a != Redeliver(TaskJob(t))
    ensures Unmoved(s, Next(c, s, a), t)
  {
    if a.Redeliver? {
      PushCounts(s, a.job, t);
      hide Core, Shape, Frame;
    } else {
      QueueRowsStay(c, s, a);
      QueueStepCounts(c, s, a, t);
      hide Core, Shape, Enabled, TokenCount, Next;
    }
  }

  lemma OrphanPlanningAction(c: Config, s: State, a: Action, t: nat)
    requires Core(c, s) && Shape(s) && Enabled(s, a) && Orphaned(s, t) && PlanningAction(a)
    ensures Unmoved(s, Next(c, s, a), t)
  {
    OnlyPlannedOnce(c, s, a);
    HandStep(s, Next(c, s, a), a.p, t);
    hide Core, Shape, TokenCount, Frame;
  }

  lemma OrphanUnmoved(c: Config, s: State, a: Action, t: nat)
    requires Core(c, s) && Shape(s) && Enabled(s, a) && Orphaned(s, t) && !Rescues(s, a, t)
    ensures Unmoved(s, Next(c, s, a), t)
  {
    hide Core, Shape, Enabled, Next, Unmoved, Orphaned;
    if PlanningAction(a) {
      OrphanPlanningAction(c, s, a, t);
    } else if TaskAction(a) {
      OrphanTaskAction(c, s, a, t);
    } else if PassAction(a) {
      OrphanPassAction(c, s, a, t);
    } else {
      OrphanQueueAction(c, s, a, t);
    }
  }

  lemma OrphanUnfinished(c: Config, s: State, t: nat)
    requires Core(c, s) && Orphaned(s, t)
    ensures !Finished(s)
  {
    assert !Terminal(s.db.tasks[t].status);
  }

  lemma OrphanExecution(c: Config, s: State, a: Action, t: nat)
    requires Core(c, s) && Shape(s) && Enabled(s, a) && Orphaned(s, t)
    ensures s.db.execution.status == ExecRunning ==> Next(c, s, a).db.execution == s.db.execution
  {
    OnlyPlannedOnce(c, s, a);
    assert !Terminal(s.db.tasks[t].status);
    if !PlanningAction(a) {
      ExecutionUntouched(c, s, a);
      hide Next, Enabled;
    } else {
      hide Core, Shape, Orphaned;
    }
  }

  lemma OtherTokensStep(c: Config, s: State, a: Action, t: nat)
    requires InvariantBut(c, s, t) && Enabled(s, a) && !a.PlanCommits?
    ensures |Next(c, s, a).db.tasks| == |Next(c, s, a).history| == |s.db.tasks|
    ensures forall u :: 0 <= u < |s.db.tasks| && u != t ==> TokensOf(Next(c, s, a), u)
  {
    hide Core, Shape, Sized, DeadLettersExact, Awake, RoundsBounded, Enabled, Next, TokensOf;
    forall u | 0 <= u < |s.db.tasks| && u != t ensures TokensOf(Next(c, s, a), u) {
      TokensOfStep(c, s, a, u);
    }
  }

  lemma InvariantButStep(c: Config, s: State, a: Action, t: nat)
    requires 1 <= c.maxTasks && InvariantBut(c, s, t) && Enabled(s, a) && !a.PlanCommits?
    ensures InvariantBut(c, Next(c, s, a), t)
  {
    OtherTokensStep(c, s, a, t);
    hide Core, Shape, Sized, DeadLettersExact, Awake, RoundsBounded, Enabled, Next, TokensOf;
    CoreStep(c, s, a);
    CoreShape(c, Next(c, s, a));
    SizedStep(c, s, a);
    DeadLettersStep(c, s, a);
    AwakeStep(c, s, a);
    RoundsStep(c, s, a);
  }

  /** A rescue sets the tokens of t right again. */
  lemma RescueTokens(c: Config, s: State, a: Action, t: nat)
    requires Core(c, s) && Shape(s) && Enabled(s, a) && Orphaned(s, t) && Rescues(s, a, t)
    ensures var s' := Next(c, s, a); t < |s'.db.tasks| == |s'.history| && TokensOf(s', t)
  {
    if a.Redeliver? {
      PushCounts(s, TaskJob(t), t);
      hide Core, Shape, Frame;
    } else {
      assert ProcOk(c, s, s.procs[a.p]);
      HandStep(s, Next(c, s, a), a.p, t);
      hide Core, Shape, Frame, TokenCount, ProcOk;
    }
  }

  /** A step ends an orphan's wait exactly when it is a rescue, and then everything is in order again. */
  lemma OrphanStep(c: Config, s: State, a: Action, t: nat)
    requires 1 <= c.maxTasks && InvariantBut(c, s, t) && Orphaned(s, t) && Enabled(s, a)
    ensures var s' := Next(c, s, a);
      if Rescues(s, a, t) then Invariant(c, s')
      else InvariantBut(c, s', t) && Orphaned(s', t) && s'.db.tasks[t] == s.db.tasks[t]
  {
    OnlyPlannedOnce(c, s, a);
    InvariantButStep(c, s, a, t);
    if Rescues(s, a, t) {
      RescueTokens(c, s, a, t);
      hide InvariantBut, Orphaned, Next, Enabled, Invariant, TokensOf;
      TokensComplete(c, Next(c, s, a), t);
    } else {
      OrphanUnmoved(c, s, a, t);
      hide InvariantBut, Next, Enabled, TokenCount, Rescues;
    }
  }

  /** What an orphan's wait leaves as it was. */
  ghost predicate Waits(s: State, s': State, t: nat) {
    && Orphaned(s', t) && t < |s.db.tasks| && s'.db.tasks[t] == s.db.tasks[t]
    && (s.db.execution.status == ExecRunning ==> s'.db.execution == s.db.execution)
  }

  lemma {:induction false} OrphanRun(c: Config, s: State, run: seq<Action>, t: nat)
    requires 1 <= c.maxTasks && InvariantBut(c, s, t) && Orphaned(s, t) && ValidRun(c, s, run)
    ensures var s' := After(c, s, run);
      if Rescued(c, s, run, t) then Invariant(c, s') else InvariantBut(c, s', t) && Waits(s, s', t)
    decreases |run|
  {
    hide Next, Shape, Enabled, Rescues, Core, TokenCount;
    if run != [] {
      OrphanStep(c, s, run[0], t);
      if Rescues(s, run[0], t) {
        hide InvariantBut, Orphaned, Invariant, Waits;
        InvariantRun(c, Next(c, s, run[0]), run[1..]);
      } else {
        OrphanExecution(c, s, run[0], t);
        hide InvariantBut, Orphaned, Invariant;
        OrphanRun(c, Next(c, s, run[0]), run[1..], t);
      }
    }
  }

  lemma InvariantFinishes(c: Config, s: State)
    requires Invariant(c, s) && Quiescent(s)
    ensures Finished(s)
  {
    hide Core, Shape, Quiescent, Awake, TokensConserved;
    QuiescentIsFinished(c, s);
  }

  /**
   * The loss of a popped task job, exactly.  If the job can be spared, or the run
   * rescues the task, every invariant holds again; otherwise the task keeps waiting
   * and the execution never finishes.  At rest this decides whether it has finished.
   */
  lemma LostTaskJob(c: Config, s: State, p: nat, run: seq<Action>)
    requires 1 <= c.maxTasks && Invariant(c, s) && p < |s.procs| && s.procs[p].Holds?
    requires ValidRun(c, Stop(s, p), run)
    ensures
      var s', t := After(c, Stop(s, p), run), s.procs[p].task;
      var restored := Spare(s, t) || Rescued(c, Stop(s, p), run, t);
      && (if restored then Invariant(c, s') else Waits(s, s', t) && !Finished(s'))
      && (Quiescent(s') ==> (Finished(s') <==> restored))
  {
    var s', t := After(c, Stop(s, p), run), s.procs[p].task;
    HeldTaskExists(s, p);
    hide InvariantBut, Orphaned, Spare, ValidRun, After, Rescued, Quiescent, Invariant, Finished;
    if Spare(s, t) {
      SpareLossHarmless(c, s, p);
      InvariantRun(c, Stop(s, p), run);
    } else {
      LossOrphans(c, s, p);
      OrphanRun(c, Stop(s, p), run, t);
      if !Rescued(c, Stop(s, p), run, t) {
        StillUnfinished(c, s', t);
      }
    }
    if Quiescent(s') && (Spare(s, t) || Rescued(c, Stop(s, p), run, t)) {
      InvariantFinishes(c, s');
    }
  }

  lemma HeldTaskExists(s: State, p: nat)
    requires Shape(s) && p < |s.procs| && s.procs[p].Holds?
    ensures s.procs[p].task < |s.db.tasks|
  {
    assert InRange(s, s.procs[p]);
  }

  lemma StillUnfinished(c: Config, s: State, t: nat)
    requires InvariantBut(c, s, t) && Orphaned(s, t)
    ensures !Finished(s)
  {
    hide Orphaned;
    OrphanUnfinished(c, s, t);
  }

  // ---- what can rescue ----

  predicate PastClaim(q: Proc, t: nat) {
    q == Claimed(t) || q == Working(t)
  }

  ghost predicate NobodyPastClaim(s: State, t: nat) {
    forall p :: 0 <= p < |s.procs| ==> !PastClaim(s.procs[p], t)
  }

  /** A task that was never claimed has no late worker. */
  lemma PendingHasNoWorker(c: Config, s: State, t: nat)
    requires ProcsOk(c, s) && t < |s.db.tasks| && s.db.tasks[t].status.Pending?
    ensures NobodyPastClaim(s, t)
  {
    forall p | 0 <= p < |s.procs| ensures !PastClaim(s.procs[p], t) {
      assert ProcOk(c, s, s.procs[p]);
    }
  }

  lemma PastClaimStep(c: Config, s: State, a: Action, t: nat)
    requires Shape(s) && Enabled(s, a) && !a.Redeliver?
    ensures PastClaim(Next(c, s, a).procs[a.p], t) ==> PastClaim(s.procs[a.p], t) || s.procs[a.p] == Holds(t)
  {
    hide Shape, Frame, Untouched, Doomed, DepsCompleted;
  }

  lemma NobodyStays(c: Config, s: State, a: Action, t: nat)
    requires Shape(s) && Enabled(s, a) && Orphaned(s, t) && NobodyPastClaim(s, t)
    ensures NobodyPastClaim(Next(c, s, a), t)
  {
    if !a.Redeliver? {
      OrphanNotHeld(s, a.p, t);
      PastClaimStep(c, s, a, t);
    }
    hide Shape, Orphaned, Next, Enabled, PastClaim;
  }

  /** With no worker past its claim, only another delivery of the job helps. */
  lemma {:induction false} OnlyRedeliveryRescues(c: Config, s: State, run: seq<Action>, t: nat)
    requires 1 <= c.maxTasks && InvariantBut(c, s, t) && Orphaned(s, t) && ValidRun(c, s, run)
    requires NobodyPastClaim(s, t)
    ensures Rescued(c, s, run, t) <==> Redeliver(TaskJob(t)) in run
    decreases |run|
  {
    hide Next, Shape, Core, TokenCount;
    if run != [] {
      OrphanStep(c, s, run[0], t);
      NobodyStays(c, s, run[0], t);
      assert run == [run[0]] + run[1..];
      if run[0] != Redeliver(TaskJob(t)) {
        assert !Rescues(s, run[0], t);
        hide InvariantBut, Orphaned, Invariant, Enabled, Rescues;
        OnlyRedeliveryRescues(c, Next(c, s, run[0]), run[1..], t);
      }
    }
  }

  /** The first delivery of a job, lost: the execution finishes only if the job is delivered again. */
  lemma LostFirstJob(c: Config, s: State, p: nat, run: seq<Action>)
    requires 1 <= c.maxTasks && Invariant(c, s) && p < |s.procs| && s.procs[p].Holds?
    requires s.procs[p].task < |s.db.tasks| && s.db.tasks[s.procs[p].task].status.Pending?
    requires ValidRun(c, Stop(s, p), run) && Quiescent(After(c, Stop(s, p), run))
    ensures Finished(After(c, Stop(s, p), run)) <==>
      TokenCount(s, s.procs[p].task) >= 2 || Redeliver(TaskJob(s.procs[p].task)) in run
  {
    hide ValidRun, After, Rescued, Quiescent, InvariantBut, Orphaned, Finished, TokenCount;
    var t := s.procs[p].task;
    LostTaskJob(c, s, p, run);
    if !Spare(s, t) {
      LossOrphans(c, s, p);
      StopKeepsCore(c, s, p);
      PendingHasNoWorker(c, Stop(s, p), t);
      OnlyRedeliveryRescues(c, Stop(s, p), run, t);
    }
  }

  // ---- a lost plan job ----

  /** Everything that is invariant, but for the awaited plan. */
  ghost predicate InvariantButPlan(c: Config, s: State) {
    Core(c, s) && Shape(s) && Sized(c, s) && TokensConserved(s) && DeadLettersExact(c, s) && RoundsBounded(s)
  }

  ghost predicate Unplanned(s: State) {
    s.db.execution.status == ExecPending && !PlanAwaited(s)
  }

  /** The plan job can be spared: the execution is past planning, or another plan job is about. */
  ghost predicate PlanSpare(s: State, p: nat) {
    || s.db.execution.status != ExecPending
    || PlanJob in s.redis.queue
    || exists q :: 0 <= q < |s.procs| && q != p && s.procs[q].HoldsPlan?
  }

  lemma StopPlan(c: Config, s: State, p: nat)
    requires Invariant(c, s) && p < |s.procs| && s.procs[p].HoldsPlan?
    ensures InvariantButPlan(c, Stop(s, p))
    ensures if PlanSpare(s, p) then Invariant(c, Stop(s, p)) else Unplanned(Stop(s, p))
  {
    var s' := Stop(s, p);
    StopKeepsCore(c, s, p);
    StopKeepsDead(c, s, p);
    forall u | 0 <= u < |s.db.tasks| ensures TokensOf(s', u) {
      assert TokensOf(s, u);
      HandStep(s, s', p, u);
    }
    forall k | 0 <= k < |s'.procs| ensures WithinRounds(s'.db.tasks, s'.procs[k]) {
      assert WithinRounds(s.db.tasks, s.procs[k]);
    }
    hide Core, Shape, DeadLettersExact, TokensOf, WithinRounds;
    if PlanSpare(s, p) {
      if s.db.execution.status == ExecPending && PlanJob !in s.redis.queue {
        var q :| 0 <= q < |s.procs| && q != p && s.procs[q].HoldsPlan?;
        assert s'.procs[q].HoldsPlan?;
      }
      StopKeepsCovers(s, p);
    } else {
      forall q | 0 <= q < |s'.procs| ensures !s'.procs[q].HoldsPlan? {
        assert q != p ==> s'.procs[q] == s.procs[q];
      }
    }
  }

  /** Nobody plans and nobody can start to. */
  lemma UnplannedLimits(c: Config, s: State, a: Action)
    requires Core(c, s) && Enabled(s, a) && Unplanned(s)
    ensures !PlanningAction(a)
  {
    if !a.Redeliver? {
      TotalAtLeast(s.procs, a.p, PlannerWeight);
    }
  }

  /** A process gets hold of a plan job only by popping one. */
  lemma PlanAppears(c: Config, s: State, a: Action)
    requires Shape(s) && Enabled(s, a) && !PlanningAction(a) && a != Redeliver(PlanJob)
    ensures PlanJob in Next(c, s, a).redis.queue ==> PlanJob in s.redis.queue
    ensures !a.Redeliver? && Next(c, s, a).procs[a.p].HoldsPlan? ==> PlanJob in s.redis.queue
  {
    hide Shape, Frame, Untouched, Doomed, DepsCompleted, Claimable;
  }

  lemma UnplannedStays(c: Config, s: State, a: Action)
    requires Core(c, s) && Shape(s) && Enabled(s, a) && Unplanned(s) && a != Redeliver(PlanJob)
    ensures Unplanned(Next(c, s, a))
  {
    UnplannedLimits(c, s, a);
    PlanAppears(c, s, a);
    var s' := Next(c, s, a);
    if !a.CommitVerdict? {
      ExecutionUntouched(c, s, a);
    }
    hide Core, Shape, Enabled, PlanningAction;
    forall q | 0 <= q < |s'.procs| ensures !s'.procs[q].HoldsPlan? {
      assert !s.procs[q].HoldsPlan?;
    }
  }

  lemma PlanRedelivered(c: Config, s: State)
    requires Core(c, s) && Shape(s) && Unplanned(s)
    ensures Awake(Next(c, s, Redeliver(PlanJob)))
  {
    assert PlanJob in (s.redis.queue + [PlanJob]);
  }

  lemma UnplannedStep(c: Config, s: State, a: Action)
    requires 1 <= c.maxTasks && InvariantButPlan(c, s) && Unplanned(s) && Enabled(s, a)
    ensures var s' := Next(c, s, a);
      if a == Redeliver(PlanJob) then Invariant(c, s') else InvariantButPlan(c, s') && Unplanned(s')
  {
    hide Core, Shape, Sized, TokensConserved, DeadLettersExact, Awake, RoundsBounded, Next, Enabled, Unplanned;
    CoreStep(c, s, a);
    CoreShape(c, Next(c, s, a));
    SizedStep(c, s, a);
    TokensStep(c, s, a);
    DeadLettersStep(c, s, a);
    RoundsStep(c, s, a);
    if a == Redeliver(PlanJob) {
      PlanRedelivered(c, s);
    } else {
      UnplannedStays(c, s, a);
    }
  }

  lemma {:induction false} UnplannedRun(c: Config, s: State, run: seq<Action>)
    requires 1 <= c.maxTasks && InvariantButPlan(c, s) && Unplanned(s) && ValidRun(c, s, run)
    ensures var s' := After(c, s, run);
      if Redeliver(PlanJob) in run then Invariant(c, s') else Unplanned(s')
    decreases |run|
  {
    hide Next, Shape, Enabled, Core, Unplanned;
    if run != [] {
      assert run == [run[0]] + run[1..];
      UnplannedStep(c, s, run[0]);
      hide InvariantButPlan, Invariant;
      if run[0] == Redeliver(PlanJob) {
        InvariantRun(c, Next(c, s, run[0]), run[1..]);
      } else {
        UnplannedRun(c, Next(c, s, run[0]), run[1..]);
      }
    }
  }

  /** The loss of a popped plan job, exactly: the execution stays PENDING unless the job was spare or comes again. */
  lemma LostPlanJob(c: Config, s: State, p: nat, run: seq<Action>)
    requires 1 <= c.maxTasks && Invariant(c, s) && p < |s.procs| && s.procs[p].HoldsPlan?
    requires ValidRun(c, Stop(s, p), run)
    ensures
      var s', restored := After(c, Stop(s, p), run), PlanSpare(s, p) || Redeliver(PlanJob) in run;
      && (if restored then Invariant(c, s') else s'.db.execution.status == ExecPending)
      && (Quiescent(s') ==> (Finished(s') <==> restored))
  {
    var s' := After(c, Stop(s, p), run);
    StopPlan(c, s, p);
    hide ValidRun, After, Quiescent, Invariant, InvariantButPlan, PlanSpare, PlanAwaited;
    if PlanSpare(s, p) {
      InvariantRun(c, Stop(s, p), run);
    } else {
      UnplannedRun(c, Stop(s, p), run);
    }
    if Quiescent(s') && (PlanSpare(s, p) || Redeliver(PlanJob) in run) {
      InvariantFinishes(c, s');
    }
  }
}
