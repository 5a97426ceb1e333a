/**
 * No wake-up is lost: whenever a fresh scheduling pass would have something to
 * do, some process still owes that pass.
 */
module Wakeups {
  import opened Tables
  import opened Sums
  import opened System
  import opened Safety
  import opened Tokens

  /** Will read the rows afresh before it stops. */
  predicate OwesSnapshot(q: Proc) {
    || q.Recovering? || q.Delaying? || q.Burying? || q.Scheduling? || q.Publishing?
    || (q.Scanning? && q.changed)
  }

  /** Will act on row i: by a fresh snapshot, or from the snapshot it is still scanning. */
  predicate Covers(q: Proc, i: nat) {
    || OwesSnapshot(q)
    || (q.Scanning? && i in q.todo && i < |q.rows| && Actionable(q.rows, i))
  }

  /** Will run _finalize on the present rows, or is about to write its verdict. */
  predicate WillFinalize(q: Proc) {
    OwesSnapshot(q) || q.Scanning? || q.Finalizing? || q.Deciding?
  }

  ghost predicate SomeoneCovers(s: State, i: nat) {
    exists p :: 0 <= p < |s.procs| && Covers(s.procs[p], i)
  }

  ghost predicate SomeoneFinalizes(s: State) {
    exists p :: 0 <= p < |s.procs| && WillFinalize(s.procs[p])
  }

  ghost predicate PlanAwaited(s: State) {
    PlanJob in s.redis.queue || exists p :: 0 <= p < |s.procs| && s.procs[p].HoldsPlan?
  }

  ghost predicate Awake(s: State) {
    && (s.db.execution.status == ExecPending ==> PlanAwaited(s))
    && (s.db.execution.status == ExecRunning ==>
      && (forall i :: 0 <= i < |s.db.tasks| && Actionable(s.db.tasks, i) ==> SomeoneCovers(s, i))
      && (AllTerminal(s.db.tasks) ==> SomeoneFinalizes(s)))
  }

  // ---- frames ----

  /** The acting process covers everything afterwards. */
  lemma ActorOwes(s': State, p: nat)
    requires p < |s'.procs| && OwesSnapshot(s'.procs[p])
    requires s'.db.execution.status != ExecPending
    ensures Awake(s')
  {
    forall i | 0 <= i < |s'.db.tasks| ensures SomeoneCovers(s', i) {
      assert Covers(s'.procs[p], i);
    }
    assert WillFinalize(s'.procs[p]);
  }

  /** Nothing becomes actionable or final, and the acting process was covering nothing. */
  lemma UncoveringActor(s: State, s': State, p: nat)
    requires Awake(s) && p < |s.procs| == |s'.procs| && s'.procs == s.procs[p := s'.procs[p]]
    requires s'.db.execution == s.db.execution && s.db.execution.status != ExecPending
    requires |s'.db.tasks| == |s.db.tasks|
    requires forall i :: 0 <= i < |s.db.tasks| && Actionable(s'.db.tasks, i) ==>
      Actionable(s.db.tasks, i) && (Covers(s.procs[p], i) ==> Covers(s'.procs[p], i))
    requires AllTerminal(s'.db.tasks) ==>
      AllTerminal(s.db.tasks) && (WillFinalize(s.procs[p]) ==> WillFinalize(s'.procs[p]))
    ensures Awake(s')
  {
    if s.db.execution.status == ExecRunning {
      forall i | 0 <= i < |s'.db.tasks| && Actionable(s'.db.tasks, i) ensures SomeoneCovers(s', i) {
        var k :| 0 <= k < |s.procs| && Covers(s.procs[k], i);
        assert Covers(s'.procs[k], i);
      }
      if AllTerminal(s'.db.tasks) {
        var k :| 0 <= k < |s.procs| && WillFinalize(s.procs[k]);
        assert WillFinalize(s'.procs[k]);
      }
    }
  }

  /** Rows and execution as they were; the actor covered nothing and finalized nothing. */
  lemma IrrelevantStep(s: State, s': State, p: nat)
    requires Awake(s) && p < |s.procs| == |s'.procs| && s'.procs == s.procs[p := s'.procs[p]]
    requires s'.db == s.db
    requires !WillFinalize(s.procs[p]) && !s.procs[p].HoldsPlan?
    requires PlanJob in s.redis.queue ==> PlanJob in s'.redis.queue || s'.procs[p].HoldsPlan?
    ensures Awake(s')
  {
    if s.db.execution.status == ExecPending {
      if PlanJob !in s.redis.queue {
        var k :| 0 <= k < |s.procs| && s.procs[k].HoldsPlan?;
        assert s'.procs[k].HoldsPlan?;
      } else if PlanJob !in s'.redis.queue {
        assert s'.procs[p].HoldsPlan?;
      }
    } else {
      UncoveringActor(s, s', p);
    }
  }

  // ---- steps ----

  lemma DequeueAwake(s: State, p: nat)
    requires Awake(s) && p < |s.procs| && s.procs[p].Idle? && s.redis.queue != []
    ensures Awake(DoDequeue(s, p))
  {
    assert s.redis.queue == [s.redis.queue[0]] + s.redis.queue[1..];
    IrrelevantStep(s, DoDequeue(s, p), p);
  }

  /** Only a claim changes the rows here, and a claimed row was released: nothing becomes actionable. */
  lemma ClaimAwake(c: Config, s: State, p: nat)
    requires Core(c, s) && Shape(s) && Awake(s) && p < |s.procs| && s.procs[p].Holds?
    ensures Awake(DoClaim(s, p))
  {
    var s', t := DoClaim(s, p), s.procs[p].task;
    assert ProcOk(c, s, s.procs[p]) && TaskOk(c, s, t);
    if Claimable(s.db.tasks[t].status) {
      ClaimedRowInert(c, s, t);
      UncoveringActor(s, s', p);
    } else {
      IrrelevantStep(s, s', p);
    }
  }

  lemma ClaimedRowInert(c: Config, s: State, t: nat)
    requires TasksOk(c, s) && t < |s.db.tasks| && s.history[t].released && Claimable(s.db.tasks[t].status)
    ensures var tasks' := ClaimTask(s.db, t).tasks;
      && !AllTerminal(tasks')
      && forall i :: 0 <= i < |tasks'| && Actionable(tasks', i) ==> Actionable(s.db.tasks, i)
  {
    var tasks, tasks' := s.db.tasks, ClaimTask(s.db, t).tasks;
    assert tasks'[t].status.Running?;
    forall i | 0 <= i < |tasks'| && Actionable(tasks', i) ensures Actionable(tasks, i) {
      assert i != t;
      if Doomed(tasks', i) {
        var d :| d in tasks'[i].dependsOn && 0 <= d < |tasks'| && tasks'[d].status.Failed?;
        assert tasks[d].status.Failed?;
      } else {
        forall d | d in tasks[i].dependsOn && 0 <= d < |tasks| ensures tasks[d].status.Completed? {
          assert tasks'[d].status.Completed?;
        }
      }
    }
  }

  /** A pass that still scans covers what its snapshot shows; visiting a row settles that row. */
  lemma QuietVisitAwake(c: Config, s: State, p: nat, i: nat, seesOwn: bool)
    requires Core(c, s) && Shape(s) && Awake(s)
    requires p < |s.procs| && s.procs[p].Scanning? && i in s.procs[p].todo
    requires !OwesSnapshot(DoVisit(s, p, i, seesOwn).procs[p])
    ensures Awake(DoVisit(s, p, i, seesOwn))
  {
    var q, s' := s.procs[p], DoVisit(s, p, i, seesOwn);
    VisitSettles(c, s, p, i, seesOwn);
    NotPending(c, s, p);
    assert |s'.procs| == |s.procs| && s'.procs == s.procs[p := s'.procs[p]];
    hide Core, Shape, DoVisit, Actionable, Awake;
    forall k | 0 <= k < |s.db.tasks| && Actionable(s'.db.tasks, k)
      ensures Actionable(s.db.tasks, k) && (Covers(q, k) ==> Covers(s'.procs[p], k))
    {
      if k in q.todo && k < |q.rows| && k != i && Actionable(q.rows, k) {
        OwnUpdateKeepsOthers(q.rows, s'.procs[p].rows, i, k);
      }
    }
    UncoveringActor(s, s', p);
  }

  lemma VisitAwake(c: Config, s: State, p: nat, i: nat, seesOwn: bool)
    requires Core(c, s) && Shape(s) && Awake(s)
    requires p < |s.procs| && s.procs[p].Scanning? && i in s.procs[p].todo
    ensures Awake(DoVisit(s, p, i, seesOwn))
  {
    if OwesSnapshot(DoVisit(s, p, i, seesOwn).procs[p]) {
      NotPending(c, s, p);
      ActorOwes(DoVisit(s, p, i, seesOwn), p);
    } else {
      QuietVisitAwake(c, s, p, i, seesOwn);
    }
  }

  lemma NotPending(c: Config, s: State, p: nat)
    requires Core(c, s) && p < |s.procs| && (s.procs[p].Scanning? || OwesSnapshot(s.procs[p]))
    ensures s.db.execution.status != ExecPending
  {
    assert ProcOk(c, s, s.procs[p]);
  }

  /** If the visit changed nothing, its row needs no action any more. */
  lemma VisitSettles(c: Config, s: State, p: nat, i: nat, seesOwn: bool)
    requires Core(c, s) && Shape(s)
    requires p < |s.procs| && s.procs[p].Scanning? && i in s.procs[p].todo
    requires !OwesSnapshot(DoVisit(s, p, i, seesOwn).procs[p])
    ensures i < |s.procs[p].rows| && DoVisit(s, p, i, seesOwn).db == s.db
    ensures Actionable(s.procs[p].rows, i) ==> !Actionable(s.db.tasks, i)
    ensures DoVisit(s, p, i, seesOwn).procs[p].Scanning?
    ensures DoVisit(s, p, i, seesOwn).procs[p].todo == s.procs[p].todo - {i}
    ensures var rows' := DoVisit(s, p, i, seesOwn).procs[p].rows;
      || rows' == s.procs[p].rows
      || (rows' == s.procs[p].rows[i := rows'[i]]
          && rows'[i].dependsOn == s.procs[p].rows[i].dependsOn
          && s.procs[p].rows[i].status.Pending? && !rows'[i].status.Completed?)
  {
    var q := s.procs[p];
    assert ProcOk(c, s, q) && OldCopy(q.rows[i], s.db.tasks[i]);
    assert InRange(s, q);
  }

  lemma OwnUpdateKeepsOthers(rows: seq<Task>, rows': seq<Task>, i: nat, k: nat)
    requires i < |rows| && k < |rows| && i != k && Actionable(rows, k)
    requires rows' == rows ||
      (|rows'| == |rows| && rows' == rows[i := rows'[i]] && rows[i].status.Pending?)
    ensures Actionable(rows', k)
  {
    if Doomed(rows, k) {
      var d :| d in rows[k].dependsOn && 0 <= d < |rows| && rows[d].status.Failed?;
      assert rows'[d].status.Failed?;
    } else {
      forall d | d in rows'[k].dependsOn && 0 <= d < |rows'| ensures rows'[d].status.Completed? {
        assert rows[d].status.Completed?;
      }
    }
  }

  /** Whoever ends a run of an agent, or recovers tasks, owes a pass afterwards. */
  lemma EndOfRunOwes(c: Config, s: State, a: Action)
    requires Core(c, s) && Shape(s) && Enabled(s, a)
    requires a.AgentFails? || a.AgentSucceeds? || a.Reap? || a.RecoverOne? || a.EndRecovery?
    ensures OwesSnapshot(Next(c, s, a).procs[a.p])
    ensures Next(c, s, a).db.execution == s.db.execution && s.db.tasks != []
  {
    assert ProcOk(c, s, s.procs[a.p]);
    if a.Reap? {
      assert a.stale[0] < |s.db.tasks|;
    }
  }

  lemma CheckOrCrashAwake(c: Config, s: State, a: Action)
    requires Core(c, s) && Shape(s) && Enabled(s, a) && Awake(s) && (a.CheckResult? || a.Crash?)
    ensures Awake(Next(c, s, a))
  {
    var s' := Next(c, s, a);
    assert ProcOk(c, s, s.procs[a.p]);
    if OwesSnapshot(s'.procs[a.p]) {
      ActorOwes(s', a.p);
    } else {
      IrrelevantStep(s, s', a.p);
    }
  }

  lemma TaskActionAwake(c: Config, s: State, a: Action)
    requires Core(c, s) && Shape(s) && Enabled(s, a) && TaskAction(a) && Awake(s)
    ensures Awake(Next(c, s, a))
  {
    if a.Claim? {
      ClaimAwake(c, s, a.p);
    } else if a.CheckResult? || a.Crash? {
      CheckOrCrashAwake(c, s, a);
    } else {
      EndOfRunOwes(c, s, a);
      ActorOwes(Next(c, s, a), a.p);
    }
  }

  lemma RoundAwake(c: Config, s: State, a: Action)
    requires Core(c, s) && Shape(s) && Enabled(s, a) && Awake(s)
    requires a.TakeSnapshot? || a.EndPass? || a.ReadForFinalize?
    ensures Awake(Next(c, s, a))
  {
    var s' := Next(c, s, a);
    assert ProcOk(c, s, s.procs[a.p]);
    if OwesSnapshot(s'.procs[a.p]) {
      ActorOwes(s', a.p);
    } else {
      UncoveringActor(s, s', a.p);
    }
  }

  lemma PassActionAwake(c: Config, s: State, a: Action)
    requires Core(c, s) && Shape(s) && Enabled(s, a) && PassAction(a) && Awake(s)
    ensures Awake(Next(c, s, a))
  {
    if a.Visit? {
      VisitAwake(c, s, a.p, a.row, a.seesOwn);
      hide Core, Shape, DoVisit, Awake, Frame;
    } else if a.CommitVerdict? {
      hide Core, Shape;
    } else {
      RoundAwake(c, s, a);
      hide Core, Shape, Enabled, Next, Awake;
    }
  }

  lemma PlanningActionAwake(c: Config, s: State, a: Action)
    requires Core(c, s) && Shape(s) && Enabled(s, a) && PlanningAction(a) && Awake(s)
    ensures Awake(Next(c, s, a))
  {
    var s' := Next(c, s, a);
    assert ProcOk(c, s, s.procs[a.p]);
    TotalAtLeast(s.procs, a.p, PlannerWeight);
    if a.StartRunning? {
      ActorOwes(s', a.p);
    } else if a.GuardPlan? && s.db.execution.status == ExecRunning {
      UncoveringActor(s, s', a.p);
    }
  }

  lemma PushAwake(c: Config, s: State, a: Action)
    requires Core(c, s) && Shape(s) && Enabled(s, a) && (a.ScheduleRetry? || a.PushDeadLetter? || a.Publish?)
    ensures Awake(Next(c, s, a))
  {
    assert ProcOk(c, s, s.procs[a.p]);
    hide Core, Shape, Frame, Awake;
    ActorOwes(Next(c, s, a), a.p);
  }

  lemma PromotionAwake(c: Config, s: State, a: Action)
    requires Shape(s) && Enabled(s, a) && Awake(s)
    requires a.PromoteRead? || a.PromoteRemove? || a.PromotePush? || a.EndPromotion?
    ensures Awake(Next(c, s, a))
  {
    hide Shape, Awake;
    IrrelevantStep(s, Next(c, s, a), a.p);
  }

  lemma QueueActionAwake(c: Config, s: State, a: Action)
    requires Core(c, s) && Shape(s) && Enabled(s, a) && QueueAction(a) && Awake(s)
    ensures Awake(Next(c, s, a))
  {
    hide Core, Shape, Awake;
    if a.Redeliver? {
      RedeliverAwake(s, a.job);
    } else if a.Dequeue? {
      DequeueAwake(s, a.p);
    } else if a.ScheduleRetry? || a.PushDeadLetter? || a.Publish? {
      PushAwake(c, s, a);
    } else {
      PromotionAwake(c, s, a);
    }
  }

  lemma RedeliverAwake(s: State, job: Job)
    requires Awake(s) && (job.TaskJob? ==> job.task < |s.history|)
    ensures Awake(DoRedeliver(s, job))
  {
    var s' := DoRedeliver(s, job);
    assert PlanJob in s.redis.queue ==> PlanJob in s'.redis.queue;
    assert s'.procs == s.procs;
    if s.db.execution.status == ExecRunning {
      forall i | 0 <= i < |s'.db.tasks| && Actionable(s'.db.tasks, i) ensures SomeoneCovers(s', i) {
        assert SomeoneCovers(s, i);
      }
      if AllTerminal(s'.db.tasks) {
        assert SomeoneFinalizes(s);
      }
    }
  }

  lemma AwakeStep(c: Config, s: State, a: Action)
    requires Core(c, s) && Shape(s) && Enabled(s, a) && Awake(s)
    ensures Awake(Next(c, s, a))
  {
    if PlanningAction(a) {
      PlanningActionAwake(c, s, a);
    } else if TaskAction(a) {
      TaskActionAwake(c, s, a);
    } else if PassAction(a) {
      PassActionAwake(c, s, a);
    } else {
      QueueActionAwake(c, s, a);
    }
  }

  // ---- quiescence ----

  /** Both queues empty, nobody mid-job, no task RUNNING. */
  ghost predicate Quiescent(s: State) {
    && s.redis.queue == [] && s.redis.delayed == map[]
    && (forall p :: 0 <= p < |s.procs| ==> s.procs[p].Idle?)
    && (forall i :: 0 <= i < |s.db.tasks| ==> !s.db.tasks[i].status.Running?)
  }

  lemma QuiescentHasNoTokens(s: State, t: nat)
    requires Quiescent(s)
    ensures TokenCount(s, t) == 0
  {
    TotalZero(s.procs, InHand(t));
  }

  lemma NothingActionable(s: State, i: nat)
    requires Awake(s) && Quiescent(s) && s.db.execution.status == ExecRunning && i < |s.db.tasks|
    ensures !Actionable(s.db.tasks, i)
  {
  }

  /** With no token anywhere an unfinished row is untouched. */
  lemma UnfinishedIsUntouched(c: Config, s: State, i: nat)
    requires Core(c, s) && TokensConserved(s) && Quiescent(s) && i < |s.db.tasks|
    ensures Terminal(s.db.tasks[i].status) || Untouched(s.db.tasks[i])
  {
    assert TaskOk(c, s, i) && TokensOf(s, i);
    QuiescentHasNoTokens(s, i);
  }

  /** By induction on the index: the dependencies of a row have finished, so it is not left untouched. */
  lemma {:induction false} EveryRowFinished(c: Config, s: State, i: nat)
    requires Core(c, s) && TokensConserved(s) && Awake(s) && Quiescent(s)
    requires s.db.execution.status == ExecRunning && i < |s.db.tasks|
    ensures Terminal(s.db.tasks[i].status)
    decreases i
  {
    UnfinishedIsUntouched(c, s, i);
    NothingActionable(s, i);
    assert TaskOk(c, s, i);
    forall d | d in s.db.tasks[i].dependsOn && 0 <= d < |s.db.tasks|
      ensures Terminal(s.db.tasks[d].status)
    {
      EveryRowFinished(c, s, d);
    }
  }

  /** No lost wake-up: a state in which nothing is left to happen has finished its execution. */
  lemma QuiescentIsFinished(c: Config, s: State)
    requires Core(c, s) && TokensConserved(s) && Awake(s) && Quiescent(s)
    ensures s.db.execution.status == ExecCompleted || s.db.execution.status == ExecFailed
  {
    if s.db.execution.status == ExecRunning {
      forall i | 0 <= i < |s.db.tasks| ensures Terminal(s.db.tasks[i].status) {
        EveryRowFinished(c, s, i);
      }
    } else if s.db.execution.status == ExecPlanning {
      TotalZero(s.procs, PlannerWeight);
    }
  }
}
