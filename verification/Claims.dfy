/**
 * Who works on a task: when a worker that claimed a task finds its result
 * already present, and how many claims a run can contain.
 */
module Claims {
  import opened Tables
  import opened Sums
  import opened System
  import opened Safety
  import opened Preservation
  import opened Termination
  import opened Runs
  import opened Tokens
  import opened Wakeups
  import Planning

  // ---- results appear only when an agent run is recorded ----

  /** The action records a successful agent run of task t. */
  predicate SucceedsOn(s: State, a: Action, t: nat)
    requires Enabled(s, a)
  {
    a.AgentSucceeds? && s.procs[a.p].task == t
  }

  /** A result is present after a step exactly when it was before or the step records a success. */
  lemma ResultAppears(c: Config, s: State, a: Action, t: nat)
    requires Shape(s) && Enabled(s, a)
    ensures t in Next(c, s, a).db.results <==> t in s.db.results || SucceedsOn(s, a, t)
  {
    if a.AgentSucceeds? {
      hide Shape, Frame;
    } else {
      ResultsUntouched(c, s, a);
      hide Shape, Next, Enabled;
    }
  }

  /** Some step of the run records a success of task t. */
  ghost predicate SuccessIn(c: Config, s: State, run: seq<Action>, t: nat)
    requires ValidRun(c, s, run)
    decreases |run|
  {
    run != [] && (SucceedsOn(s, run[0], t) || SuccessIn(c, Next(c, s, run[0]), run[1..], t))
  }

  lemma {:induction false} ResultAfterRun(c: Config, s: State, run: seq<Action>, t: nat)
    requires ValidRun(c, s, run)
    ensures t in After(c, s, run).db.results <==> t in s.db.results || SuccessIn(c, s, run, t)
    decreases |run|
  {
    hide Next, Shape, Enabled, SucceedsOn;
    if run != [] {
      ResultAppears(c, s, run[0], t);
      ResultAfterRun(c, Next(c, s, run[0]), run[1..], t);
    }
  }

  /** Process p takes none of the run's actions. */
  predicate Rests(p: nat, run: seq<Action>) {
    forall k :: 0 <= k < |run| ==> run[k].Redeliver? || run[k].p != p
  }

  lemma {:induction false} RestingProcessStays(c: Config, s: State, run: seq<Action>, p: nat)
    requires ValidRun(c, s, run) && Rests(p, run) && p < |s.procs|
    ensures p < |After(c, s, run).procs| && After(c, s, run).procs[p] == s.procs[p]
    decreases |run|
  {
    hide Next, Shape, Enabled;
    if run != [] {
      assert run[0].Redeliver? || run[0].p != p;
      RestingProcessStays(c, Next(c, s, run[0]), run[1..], p);
    }
  }

  /** A claim that is won finds no result at that moment. */
  lemma WonClaimFindsNoResult(c: Config, s: State, p: nat)
    requires Core(c, s) && Shape(s) && Enabled(s, Claim(p))
    ensures var s' := Next(c, s, Claim(p));
      s'.procs[p].Claimed? ==> s'.procs[p].task == s.procs[p].task && s'.procs[p].task !in s'.db.results
  {
    assert ProcOk(c, s, s.procs[p]);
    assert TaskOk(c, s, s.procs[p].task);
    hide Core, ProcOk, TasksOk;
  }

  /**
   * The branch "result already present", exactly: between a won claim and its check
   * the result turns up if and only if a success of that very task, by some other
   * worker, is recorded in between.
   */
  lemma ResultBranchExactly(c: Config, s: State, p: nat, run: seq<Action>)
    requires Core(c, s) && Shape(s) && Enabled(s, Claim(p)) && Next(c, s, Claim(p)).procs[p].Claimed?
    requires ValidRun(c, Next(c, s, Claim(p)), run) && Rests(p, run)
    ensures var claimed, t := Next(c, s, Claim(p)), s.procs[p].task;
      var s' := After(c, claimed, run);
      && p < |s'.procs| && s'.procs[p] == Claimed(t)
      && (t in s'.db.results <==> SuccessIn(c, claimed, run, t))
  {
    var claimed := Next(c, s, Claim(p));
    WonClaimFindsNoResult(c, s, p);
    hide Core, Shape, ValidRun, After, Next, Enabled, SuccessIn;
    ResultAfterRun(c, claimed, run, s.procs[p].task);
    RestingProcessStays(c, claimed, run, p);
  }

  // ---- claims of a completed task ----

  /** Claims and lost increments of a finished task stay as they are. */
  lemma {:induction false} FinishedHistoryStays(c: Config, s: State, run: seq<Action>, t: nat)
    requires 1 <= c.maxTasks && Invariant(c, s) && ValidRun(c, s, run)
    requires t < |s.db.tasks| == |s.history| && Terminal(s.db.tasks[t].status)
    ensures var s' := After(c, s, run);
      && t < |s'.db.tasks| && t < |s'.history| && s'.db.tasks[t] == s.db.tasks[t]
      && s'.history[t].claims == s.history[t].claims && s'.history[t].lost == s.history[t].lost
    decreases |run|
  {
    hide Core, Shape, Sized, TokensConserved, DeadLettersExact, Awake, RoundsBounded, Next, Enabled;
    if run != [] {
      FinishedStep(c, s, run[0]);
      InvariantStep(c, s, run[0]);
      FinishedHistoryStep(c, s, run[0], t);
      hide Invariant;
      FinishedHistoryStays(c, Next(c, s, run[0]), run[1..], t);
    }
  }

  lemma FinishedHistoryStep(c: Config, s: State, a: Action, t: nat)
    requires Core(c, s) && Shape(s) && Enabled(s, a)
    requires t < |s.db.tasks| == |s.history| && Terminal(s.db.tasks[t].status)
    ensures t < |Next(c, s, a).history| == |Next(c, s, a).db.tasks|
    ensures Next(c, s, a).history[t].claims == s.history[t].claims
    ensures Next(c, s, a).history[t].lost == s.history[t].lost
  {
    OnlyPlannedOnce(c, s, a);
    HistoryRecords(c, s, a, t);
    hide Core, Shape, Next, Enabled;
  }

  lemma OnlyPlannedOnce(c: Config, s: State, a: Action)
    requires Core(c, s) && Enabled(s, a) && s.db.tasks != []
    ensures !a.PlanCommits? && !a.PlanFails?
    ensures a.CommitVerdict? ==> AllTerminal(s.db.tasks)
  {
    assert !a.Redeliver? ==> ProcOk(c, s, s.procs[a.p]);
  }

  /** The law of claims for a completed task, exactly: the attempt that completed it counts if it was still RUNNING. */
  lemma CompletedClaims(c: Config, s: State, a: Action, run: seq<Action>, t: nat)
    requires 1 <= c.maxTasks && Invariant(c, s) && Enabled(s, a) && SucceedsOn(s, a, t)
    requires t < |s.db.tasks| && !Terminal(s.db.tasks[t].status) && ValidRun(c, Next(c, s, a), run)
    ensures var s' := After(c, Next(c, s, a), run);
      && t < |s'.db.tasks| && t < |s'.history| && s'.db.tasks[t].status.Completed?
      && s'.history[t].claims ==
           s'.db.tasks[t].attempts + s'.history[t].lost + if s.db.tasks[t].status.Running? then 1 else 0
  {
    var next := Next(c, s, a);
    CompletesRow(c, s, a, t);
    InvariantStep(c, s, a);
    assert TaskOk(c, s, t);
    hide ValidRun, After, Next, Enabled, Core, Shape, Invariant, LifeCycle, ResultCoherent;
    FinishedHistoryStays(c, next, run, t);
  }

  lemma CompletesRow(c: Config, s: State, a: Action, t: nat)
    requires Core(c, s) && Shape(s) && Enabled(s, a) && SucceedsOn(s, a, t)
    requires t < |s.db.tasks| && !Terminal(s.db.tasks[t].status)
    ensures var s' := Next(c, s, a);
      && |s'.db.tasks| == |s.db.tasks| == |s.history| == |s'.history|
      && s'.db.tasks[t].status.Completed? && s'.db.tasks[t].attempts == s.db.tasks[t].attempts
      && s'.history[t] == s.history[t]
  {
    assert ProcOk(c, s, s.procs[a.p]);
    hide Frame, Core;
  }

  // ---- one worker per task, as long as no lease expires ----

  /** Past its claim of t, or about to write off an attempt of t. */
  predicate On(q: Proc, t: nat) {
    match q
    case Claimed(u) => u == t
    case Working(u) => u == t
    case Recovering(batch) => exists k :: 0 <= k < |batch| && batch[k].task == t
    case _ => false
  }

  /** A process that recovers at most its own failed attempt. */
  predicate OwnBatch(q: Proc) {
    match q
    case Recovering(batch) => |batch| <= 1
    case Delaying(_, _, batch) => batch == []
    case Burying(_, _, batch) => batch == []
    case _ => true
  }

  ghost predicate OneWorker(s: State, t: nat) {
    && (forall p, q :: 0 <= p < |s.procs| && 0 <= q < |s.procs| && On(s.procs[p], t) && On(s.procs[q], t) ==> p == q)
    && (forall p :: 0 <= p < |s.procs| && On(s.procs[p], t) ==> t < |s.db.tasks| && s.db.tasks[t].status.Running?)
  }

  ghost predicate Exclusive(s: State) {
    (forall p :: 0 <= p < |s.procs| ==> OwnBatch(s.procs[p])) && forall t :: OneWorker(s, t)
  }

  /** How one step changes who works on t. */
  ghost predicate HandsOver(s: State, a: Action, s': State, t: nat)
    requires Enabled(s, a) && !a.Redeliver? && a.p < |s'.procs| && |s'.db.tasks| == |s.db.tasks|
  {
    var q, q' := s.procs[a.p], s'.procs[a.p];
    && OwnBatch(q')
    && (On(q', t) ==> On(q, t) || (t < |s.db.tasks| && WinsClaim(s, a, t) && s'.db.tasks[t].status.Running?))
    && (t < |s.db.tasks| && s.db.tasks[t].status.Running? && !s'.db.tasks[t].status.Running? ==>
          On(q, t) && !On(q', t))
  }

  lemma TaskActionHandsOver(c: Config, s: State, a: Action, t: nat)
    requires Core(c, s) && Shape(s) && Enabled(s, a) && TaskAction(a) && !a.Reap? && OwnBatch(s.procs[a.p])
    ensures HandsOver(s, a, Next(c, s, a), t)
  {
    hide Frame, Core;
  }

  lemma PassActionHandsOver(c: Config, s: State, a: Action, t: nat)
    requires Shape(s) && Enabled(s, a) && PassAction(a)
    ensures HandsOver(s, a, Next(c, s, a), t)
  {
    hide Frame, Shape, Untouched, Doomed, DepsCompleted;
  }

  lemma OtherActionHandsOver(c: Config, s: State, a: Action, t: nat)
    requires Shape(s) && Enabled(s, a) && (PlanningAction(a) || QueueAction(a)) && !a.PlanCommits? && !a.Redeliver?
    requires OwnBatch(s.procs[a.p])
    ensures HandsOver(s, a, Next(c, s, a), t)
  {
    hide Frame, Shape;
  }

  lemma StepHandsOver(c: Config, s: State, a: Action, t: nat)
    requires Core(c, s) && Shape(s) && Enabled(s, a)
    requires !a.Reap? && !a.PlanCommits? && !a.Redeliver? && OwnBatch(s.procs[a.p])
    ensures HandsOver(s, a, Next(c, s, a), t)
  {
    hide Core, Shape, Next, Enabled, HandsOver;
    if TaskAction(a) {
      TaskActionHandsOver(c, s, a, t);
    } else if PassAction(a) {
      PassActionHandsOver(c, s, a, t);
    } else {
      OtherActionHandsOver(c, s, a, t);
    }
  }

  lemma OneWorkerStep(s: State, a: Action, s': State, t: nat)
    requires Shape(s) && Enabled(s, a) && !a.Redeliver? && Frame(s, a, s') && |s'.db.tasks| == |s.db.tasks|
    requires HandsOver(s, a, s', t) && OneWorker(s, t)
    ensures OneWorker(s', t)
  {
    hide Shape, On, OwnBatch;
  }

  lemma RedeliveryExclusive(s: State, job: Job)
    requires Shape(s) && Enabled(s, Redeliver(job)) && Exclusive(s)
    ensures Exclusive(DoRedeliver(s, job))
  {
    var s' := DoRedeliver(s, job);
    hide On, OwnBatch;
    forall t ensures OneWorker(s', t) {
      assert OneWorker(s, t);
    }
  }

  /** While the rows are being planned nobody works on any. */
  lemma PlanExclusive(c: Config, s: State, a: Action)
    requires Core(c, s) && Shape(s) && Enabled(s, a) && a.PlanCommits? && 1 <= c.maxTasks
    ensures Exclusive(Next(c, s, a))
  {
    var s' := Next(c, s, a);
    CoreStep(c, s, a);
    NoRowsWhilePlanning(c, s, a.p);
    forall p | 0 <= p < |s'.procs| ensures OwnBatch(s'.procs[p]) && forall t :: !On(s'.procs[p], t) {
      assert ProcOk(c, s, s.procs[p]);
      assert ProcOk(c, s', s'.procs[p]);
    }
  }

  lemma ExclusiveStep(c: Config, s: State, a: Action)
    requires Core(c, s) && Shape(s) && Enabled(s, a) && 1 <= c.maxTasks && !a.Reap? && Exclusive(s)
    ensures Exclusive(Next(c, s, a))
  {
    if a.PlanCommits? {
      PlanExclusive(c, s, a);
      hide Core, Shape, Exclusive, Next, Enabled;
    } else if a.Redeliver? {
      RedeliveryExclusive(s, a.job);
      hide Core, Shape, Exclusive, Enabled, DoRedeliver;
    } else {
      ProcessStepExclusive(c, s, a);
      hide Core, Shape, Exclusive, Next, Enabled;
    }
  }

  lemma ProcessStepExclusive(c: Config, s: State, a: Action)
    requires Core(c, s) && Shape(s) && Enabled(s, a) && Exclusive(s)
    requires !a.Reap? && !a.PlanCommits? && !a.Redeliver?
    ensures Exclusive(Next(c, s, a))
  {
    var s' := Next(c, s, a);
    assert OwnBatch(s.procs[a.p]);
    hide Core, Shape, Next, Enabled, OneWorker, OwnBatch, On;
    forall t ensures HandsOver(s, a, s', t) && OneWorker(s', t) {
      StepHandsOver(c, s, a, t);
      OneWorkerStep(s, a, s', t);
    }
    assert HandsOver(s, a, s', 0);
  }

  lemma {:induction false} ExclusiveRun(c: Config, s: State, run: seq<Action>)
    requires 1 <= c.maxTasks && Invariant(c, s) && ValidRun(c, s, run) && NoLeaseExpiry(run) && Exclusive(s)
    ensures Exclusive(After(c, s, run))
    decreases |run|
  {
    if run != [] {
      assert !run[0].Reap?;
      assert NoLeaseExpiry(run[1..]);
      ExclusiveStep(c, s, run[0]);
      InvariantStep(c, s, run[0]);
      hide Invariant, Next, Shape, Enabled, Exclusive;
      ExclusiveRun(c, Next(c, s, run[0]), run[1..]);
    }
  }

  lemma RunningHasNoResult(c: Config, s: State, t: nat)
    requires Invariant(c, s) && t < |s.db.tasks| && s.db.tasks[t].status.Running?
    ensures t !in s.db.results
  {
    assert TaskOk(c, s, t);
  }

  /** Without a lease expiry at most one worker is ever past its claim of a task, and it never finds a result. */
  lemma ResultBranchNeedsLeaseExpiry(c: Config, n: nat, run: seq<Action>, p: nat)
    requires 1 <= c.maxTasks && ValidRun(c, Initial(n), run) && NoLeaseExpiry(run)
    ensures var s := After(c, Initial(n), run);
      p < |s.procs| && s.procs[p].Claimed? ==>
        && s.procs[p].task !in s.db.results
        && forall q :: 0 <= q < |s.procs| && On(s.procs[q], s.procs[p].task) ==> q == p
  {
    var s := After(c, Initial(n), run);
    InvariantInitially(c, n);
    InvariantRun(c, Initial(n), run);
    ExclusiveRun(c, Initial(n), run);
    hide ValidRun, After, Initial, Invariant, NoLeaseExpiry;
    if p < |s.procs| && s.procs[p].Claimed? {
      var t := s.procs[p].task;
      assert OneWorker(s, t) && On(s.procs[p], t);
      hide Exclusive, OwnBatch;
      RunningHasNoResult(c, s, t);
    }
  }

  // ---- how many claims a run can contain ----

  function ClaimsOf(h: History): nat {
    h.claims
  }

  function TaskJobWeight(job: Job): nat {
    if job.TaskJob? then 1 else 0
  }

  /** Task jobs a process has popped, is about to push, or has listed for promotion. */
  function JobsInHand(q: Proc): nat {
    match q
    case Holds(_) => 1
    case Publishing(_, _, _, _) => 1
    case Promoting(due) => |due|
    case Moving(_, due) => 1 + |due|
    case _ => 0
  }

  /** Rows that may still be enqueued: the fresh ones, or all that may be planned. */
  function RowsToCome(c: Config, tasks: seq<Task>): nat {
    if tasks == [] then c.maxTasks else FreshRows(tasks)
  }

  /** Claims won, and claims that the jobs about and the rows to come may still win. */
  function ClaimBudget(c: Config, s: State): nat {
    Total(s.history, ClaimsOf) + JobsAbout(s) + RowsToCome(c, s.db.tasks)
  }

  /** Task jobs in the main list and in hand. */
  function JobsAbout(s: State): nat {
    Total(s.redis.queue, TaskJobWeight) + Total(s.procs, JobsInHand)
  }

  lemma HandMoves(s: State, s': State, p: nat)
    requires p < |s.procs| && |s'.procs| == |s.procs| && s'.procs == s.procs[p := s'.procs[p]]
    ensures Total(s'.procs, JobsInHand) + JobsInHand(s.procs[p]) == Total(s.procs, JobsInHand) + JobsInHand(s'.procs[p])
  {
    TotalUpdate(s.procs, p, s'.procs[p], JobsInHand);
  }

  lemma PushWeighs(queue: seq<Job>, job: Job)
    ensures Total(queue + [job], TaskJobWeight) == Total(queue, TaskJobWeight) + TaskJobWeight(job)
  {
    TotalAppend(queue, [job], TaskJobWeight);
    assert [job][1..] == [];
  }

  lemma SameClaims(h: seq<History>, h': seq<History>)
    requires |h| == |h'| && forall t :: 0 <= t < |h| ==> h'[t].claims == h[t].claims
    ensures Total(h', ClaimsOf) == Total(h, ClaimsOf)
  {
    TotalMonotone(h, h', ClaimsOf);
    TotalMonotone(h', h, ClaimsOf);
  }

  /** The budget rises at most by what the environment adds. */
  predicate WithinBudget(c: Config, s: State, a: Action, s': State) {
    ClaimBudget(c, s') <= ClaimBudget(c, s) + EnvironmentCost(c, a)
  }

  lemma RowsNeverCome(c: Config, s: State, a: Action)
    requires Core(c, s) && Shape(s) && Enabled(s, a) && 1 <= c.maxTasks && !a.PlanCommits?
    ensures RowsToCome(c, Next(c, s, a).db.tasks) <= RowsToCome(c, s.db.tasks)
  {
    CoreStep(c, s, a);
    hide Core, Shape, Enabled, Next, FreshRows;
    FreshNeverRises(s, Next(c, s, a));
  }

  /** Claims change only when one is won. */
  lemma ClaimsStay(c: Config, s: State, a: Action)
    requires Shape(s) && Enabled(s, a) && !a.PlanCommits? && !a.Claim?
    ensures Total(Next(c, s, a).history, ClaimsOf) == Total(s.history, ClaimsOf)
  {
    hide Next, Enabled;
    forall t | 0 <= t < |s.history| ensures Next(c, s, a).history[t].claims == s.history[t].claims {
      HistoryRecords(c, s, a, t);
    }
    SameClaims(s.history, Next(c, s, a).history);
  }

  lemma ClaimBudgeted(c: Config, s: State, p: nat)
    requires Core(c, s) && Shape(s) && Enabled(s, Claim(p)) && 1 <= c.maxTasks
    ensures WithinBudget(c, s, Claim(p), Next(c, s, Claim(p)))
  {
    var s', t := Next(c, s, Claim(p)), s.procs[p].task;
    RowsNeverCome(c, s, Claim(p));
    HandMoves(s, s', p);
    assert InRange(s, s.procs[p]);
    hide Core, Shape, RowsToCome, Frame;
    if Claimable(s.db.tasks[t].status) {
      TotalUpdate(s.history, t, s'.history[t], ClaimsOf);
    }
  }

  /** A step that leaves the main list alone changes the jobs about by its own hand only. */
  lemma HandJobs(s: State, s': State, p: nat)
    requires p < |s.procs| && |s'.procs| == |s.procs| && s'.procs == s.procs[p := s'.procs[p]]
    requires s'.redis.queue == s.redis.queue
    ensures JobsAbout(s') + JobsInHand(s.procs[p]) == JobsAbout(s) + JobsInHand(s'.procs[p])
  {
    HandMoves(s, s', p);
  }

  lemma HandsEmpty(c: Config, s: State, a: Action)
    requires Shape(s) && Enabled(s, a)
    requires (TaskAction(a) && !a.Claim?) || (PassAction(a) && !a.Visit?)
    ensures Next(c, s, a).redis.queue == s.redis.queue
    ensures JobsInHand(s.procs[a.p]) == 0 && JobsInHand(Next(c, s, a).procs[a.p]) == 0
  {
    hide Shape, Frame;
  }

  /** Nothing but claims, jobs and rows decides the budget. */
  lemma BudgetParts(c: Config, s: State, a: Action, s': State)
    requires Total(s'.history, ClaimsOf) == Total(s.history, ClaimsOf)
    requires RowsToCome(c, s'.db.tasks) <= RowsToCome(c, s.db.tasks)
    requires JobsAbout(s') <= JobsAbout(s) + EnvironmentCost(c, a)
    ensures WithinBudget(c, s, a, s')
  {
  }

  lemma TaskActionBudgeted(c: Config, s: State, a: Action)
    requires Core(c, s) && Shape(s) && Enabled(s, a) && 1 <= c.maxTasks && TaskAction(a)
    ensures WithinBudget(c, s, a, Next(c, s, a))
  {
    hide Core, Shape, Enabled, Next, WithinBudget, RowsToCome, JobsAbout, JobsInHand, EnvironmentCost;
    if a.Claim? {
      ClaimBudgeted(c, s, a.p);
    } else {
      RowsNeverCome(c, s, a);
      ClaimsStay(c, s, a);
      HandsEmpty(c, s, a);
      HandJobs(s, Next(c, s, a), a.p);
      BudgetParts(c, s, a, Next(c, s, a));
    }
  }

  lemma VisitHand(s: State, p: nat, i: nat, seesOwn: bool)
    requires Shape(s) && p < |s.procs| && s.procs[p].Scanning? && i in s.procs[p].todo
    ensures var s' := DoVisit(s, p, i, seesOwn);
      && i < |s.db.tasks| && s'.redis == s.redis && JobsInHand(s.procs[p]) == 0
      && JobsInHand(s'.procs[p]) == (if s'.procs[p].Publishing? then 1 else 0)
      && (s'.procs[p].Publishing? ==>
            !s.db.tasks[i].enqueued && s'.db.tasks == s.db.tasks[i := s.db.tasks[i].(enqueued := true)])
  {
    assert InRange(s, s.procs[p]);
    hide Shape, Doomed, DepsCompleted, Untouched;
  }

  lemma VisitBudgeted(c: Config, s: State, p: nat, i: nat, seesOwn: bool)
    requires Core(c, s) && Shape(s) && Enabled(s, Visit(p, i, seesOwn)) && 1 <= c.maxTasks
    ensures WithinBudget(c, s, Visit(p, i, seesOwn), Next(c, s, Visit(p, i, seesOwn)))
  {
    var a := Visit(p, i, seesOwn);
    var s' := Next(c, s, a);
    hide Core, Shape, Frame, DoVisit, JobsInHand;
    RowsNeverCome(c, s, a);
    ClaimsStay(c, s, a);
    VisitHand(s, p, i, seesOwn);
    HandMoves(s, s', p);
    if s'.procs[p].Publishing? {
      TotalUpdate(s.db.tasks, i, s'.db.tasks[i], FreshWeight);
    }
  }

  lemma PassActionBudgeted(c: Config, s: State, a: Action)
    requires Core(c, s) && Shape(s) && Enabled(s, a) && 1 <= c.maxTasks && PassAction(a)
    ensures WithinBudget(c, s, a, Next(c, s, a))
  {
    hide Core, Shape, Enabled, Next, WithinBudget, RowsToCome, JobsAbout, JobsInHand, EnvironmentCost;
    if a.Visit? {
      VisitBudgeted(c, s, a.p, a.row, a.seesOwn);
    } else {
      RowsNeverCome(c, s, a);
      ClaimsStay(c, s, a);
      HandsEmpty(c, s, a);
      HandJobs(s, Next(c, s, a), a.p);
      BudgetParts(c, s, a, Next(c, s, a));
    }
  }

  lemma DequeueJobs(s: State, p: nat)
    requires p < |s.procs| && s.procs[p].Idle? && s.redis.queue != []
    ensures JobsAbout(DoDequeue(s, p)) == JobsAbout(s)
  {
    HandMoves(s, DoDequeue(s, p), p);
  }

  lemma PushJobs(s: State, p: nat)
    requires p < |s.procs|
    ensures s.procs[p].Publishing? ==> JobsAbout(DoPublish(s, p)) == JobsAbout(s)
    ensures s.procs[p].Moving? ==> JobsAbout(DoPromotePush(s, p)) == JobsAbout(s)
  {
    if s.procs[p].Publishing? {
      HandMoves(s, DoPublish(s, p), p);
      PushWeighs(s.redis.queue, TaskJob(s.procs[p].task));
    } else if s.procs[p].Moving? {
      HandMoves(s, DoPromotePush(s, p), p);
      PushWeighs(s.redis.queue, TaskJob(s.procs[p].task));
    }
  }

  lemma PromoteRemoveJobs(s: State, p: nat)
    requires p < |s.procs| && s.procs[p].Promoting? && s.procs[p].due != []
    ensures JobsAbout(DoPromoteRemove(s, p)) <= JobsAbout(s)
  {
    HandMoves(s, DoPromoteRemove(s, p), p);
  }

  lemma QueueActionJobs(c: Config, s: State, a: Action)
    requires Shape(s) && Enabled(s, a) && QueueAction(a)
    ensures JobsAbout(Next(c, s, a)) <= JobsAbout(s) + EnvironmentCost(c, a)
  {
    hide Shape, Frame, JobsAbout, JobsInHand, EnvironmentCost;
    hide DoDequeue, DoPublish, DoPromoteRemove, DoPromotePush, DoRedeliver, DoScheduleRetry, DoPushDeadLetter;
    match a
    case Dequeue(p) => DequeueJobs(s, p);
    case Publish(p) => PushJobs(s, p);
    case PromoteRemove(p) => PromoteRemoveJobs(s, p);
    case PromotePush(p) => PushJobs(s, p);
    case Redeliver(job) => RedeliverJobs(c, s, job);
    case _ => QuietJobs(c, s, a);
  }

  lemma QuietJobs(c: Config, s: State, a: Action)
    requires Shape(s) && Enabled(s, a)
    requires a.ScheduleRetry? || a.PushDeadLetter? || a.PromoteRead? || a.EndPromotion?
    ensures JobsAbout(Next(c, s, a)) <= JobsAbout(s) + EnvironmentCost(c, a)
  {
    hide Shape, Frame, JobsAbout;
    HandJobs(s, Next(c, s, a), a.p);
  }

  lemma RedeliverJobs(c: Config, s: State, job: Job)
    requires job.TaskJob? ==> job.task < |s.history|
    ensures JobsAbout(DoRedeliver(s, job)) <= JobsAbout(s) + EnvironmentCost(c, Redeliver(job))
  {
    PushWeighs(s.redis.queue, job);
  }

  lemma QueueActionBudgeted(c: Config, s: State, a: Action)
    requires Core(c, s) && Shape(s) && Enabled(s, a) && 1 <= c.maxTasks && QueueAction(a)
    ensures WithinBudget(c, s, a, Next(c, s, a))
  {
    hide Core, Shape, Enabled, Next, WithinBudget, RowsToCome, JobsAbout, EnvironmentCost;
    RowsNeverCome(c, s, a);
    ClaimsStay(c, s, a);
    QueueActionJobs(c, s, a);
    BudgetParts(c, s, a, Next(c, s, a));
  }

  lemma PlanningHands(c: Config, s: State, a: Action)
    requires Shape(s) && Enabled(s, a) && PlanningAction(a)
    ensures Next(c, s, a).redis.queue == s.redis.queue
    ensures JobsInHand(s.procs[a.p]) == 0 && JobsInHand(Next(c, s, a).procs[a.p]) == 0
  {
    hide Shape, Frame, Planning.PlanOf, Planning.RowsOf;
  }

  lemma NewRowsBudgeted(c: Config, s: State, a: Action)
    requires Core(c, s) && Shape(s) && Enabled(s, a) && 1 <= c.maxTasks && a.PlanCommits?
    ensures Total(Next(c, s, a).history, ClaimsOf) == Total(s.history, ClaimsOf) == 0
    ensures RowsToCome(c, Next(c, s, a).db.tasks) <= RowsToCome(c, s.db.tasks)
  {
    var s' := Next(c, s, a);
    NoRowsWhilePlanning(c, s, a.p);
    PlannedRows(c, a.answer, a.snippet);
    TotalZero(s'.history, ClaimsOf);
    FreshAtMostAll(s'.db.tasks);
    hide Core, Shape, Frame, Planning.PlanOf, Planning.RowsOf, FreshRows;
  }

  lemma PlanningActionBudgeted(c: Config, s: State, a: Action)
    requires Core(c, s) && Shape(s) && Enabled(s, a) && 1 <= c.maxTasks && PlanningAction(a)
    ensures WithinBudget(c, s, a, Next(c, s, a))
  {
    hide Core, Shape, Enabled, Next, WithinBudget, RowsToCome, JobsAbout, JobsInHand, EnvironmentCost;
    PlanningHands(c, s, a);
    HandJobs(s, Next(c, s, a), a.p);
    if a.PlanCommits? {
      NewRowsBudgeted(c, s, a);
    } else {
      RowsNeverCome(c, s, a);
      ClaimsStay(c, s, a);
    }
    BudgetParts(c, s, a, Next(c, s, a));
  }

  lemma StepBudgeted(c: Config, s: State, a: Action)
    requires Core(c, s) && Shape(s) && Enabled(s, a) && 1 <= c.maxTasks
    ensures WithinBudget(c, s, a, Next(c, s, a))
  {
    hide Core, Shape, Enabled, Next, WithinBudget;
    if PlanningAction(a) {
      PlanningActionBudgeted(c, s, a);
    } else if TaskAction(a) {
      TaskActionBudgeted(c, s, a);
    } else if PassAction(a) {
      PassActionBudgeted(c, s, a);
    } else {
      QueueActionBudgeted(c, s, a);
    }
  }

  lemma {:induction false} RunBudgeted(c: Config, s: State, run: seq<Action>)
    requires 1 <= c.maxTasks && Invariant(c, s) && ValidRun(c, s, run)
    ensures ClaimBudget(c, After(c, s, run)) <= ClaimBudget(c, s) + EnvironmentTotal(c, run)
    decreases |run|
  {
    hide ClaimBudget, EnvironmentCost;
    if run != [] {
      StepBudgeted(c, s, run[0]);
      InvariantStep(c, s, run[0]);
      hide Invariant, Shape, Enabled, Next;
      RunBudgeted(c, Next(c, s, run[0]), run[1..]);
    }
  }

  lemma InitialBudget(c: Config, n: nat)
    ensures ClaimBudget(c, Initial(n)) == c.maxTasks
  {
    TotalZero(Initial(n).procs, JobsInHand);
    assert Initial(n).redis.queue[1..] == [];
  }

  /** Increments lost to stale reads are paid for by claims. */
  lemma LostAtMostClaims(c: Config, s: State)
    requires Core(c, s)
    ensures Lost(s.history) <= Total(s.history, ClaimsOf)
  {
    forall t | 0 <= t < |s.history| ensures LostOf(s.history[t]) <= ClaimsOf(s.history[t]) {
      assert TaskOk(c, s, t);
    }
    LostBelow(s.history);
  }

  lemma {:induction false} LostBelow(h: seq<History>)
    requires forall t :: 0 <= t < |h| ==> LostOf(h[t]) <= ClaimsOf(h[t])
    ensures Total(h, LostOf) <= Total(h, ClaimsOf)
  {
    if h != [] {
      LostBelow(h[1..]);
    }
  }

  /**
   * Whole runs are bounded by the plan and the environment alone: all claims
   * together by the tasks that may be planned and the promotions, repeated
   * deliveries and reaper firings, and the number of steps by those again.
   */
  lemma ClaimsAndStepsBounded(c: Config, n: nat, run: seq<Action>)
    requires 1 <= c.maxTasks && ValidRun(c, Initial(n), run)
    ensures var s := After(c, Initial(n), run);
      Lost(s.history) <= Total(s.history, ClaimsOf) <= c.maxTasks + EnvironmentTotal(c, run)
    ensures |run| <= PlanningCost(c) + 2 + EnvironmentTotal(c, run)
      + AttemptCost(c) * (c.maxTasks + EnvironmentTotal(c, run))
  {
    hide ValidRun, After, Core, Shape, Lost, AttemptCost, PlanningCost, EnvironmentTotal, FreshReads, RowsToCome;
    hide TokensConserved, DeadLettersExact, Awake, RoundsBounded, Sized, Initial, ClaimsOf, JobsAbout;
    var s := After(c, Initial(n), run);
    InvariantInitially(c, n);
    RunBudgeted(c, Initial(n), run);
    InitialBudget(c, n);
    InvariantRun(c, Initial(n), run);
    LostAtMostClaims(c, s);
    RunsAreBounded(c, n, run);
    ScaledBy(AttemptCost(c), Lost(s.history), c.maxTasks + EnvironmentTotal(c, run));
  }

  lemma ScaledBy(k: nat, x: nat, y: nat)
    requires x <= y
    ensures k * x <= k * y
  {
  }
}
