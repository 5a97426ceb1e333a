/** Every step keeps the safety invariant. */
module Preservation {
  import opened Text
  import opened Tables
  import Planning
  import opened Sums
  import opened System
  import opened Safety

  // ---- two frames: a step that leaves the rows alone, and one that changes a single row ----

  /** The process changes its program point; the database and the history stay. */
  lemma LocalStep(c: Config, s: State, s': State, p: nat)
    requires Core(c, s) && p < |s.procs| == |s'.procs|
    requires s'.db == s.db && s'.history == s.history
    requires s'.procs == s.procs[p := s'.procs[p]]
    requires ProcOk(c, s', s'.procs[p]) && JobsOk(s')
    requires PlannerWeight(s'.procs[p]) == PlannerWeight(s.procs[p])
    ensures Core(c, s')
    ensures Evolves(s, s')
  {
    TotalUpdate(s.procs, p, s'.procs[p], PlannerWeight);
    EveryoneElse(c, s, s', p);
    forall i | 0 <= i < |s.db.tasks| ensures TaskOk(c, s', i) {
      TaskOkEvolves(c, s, s', i);
    }
  }

  lemma EveryoneElse(c: Config, s: State, s': State, p: nat)
    requires TasksOk(c, s) && ProcsOk(c, s) && Evolves(s, s')
    requires p < |s.procs| == |s'.procs| && s'.procs == s.procs[p := s'.procs[p]]
    requires ProcOk(c, s', s'.procs[p])
    ensures ProcsOk(c, s')
  {
    forall k | 0 <= k < |s'.procs| ensures ProcOk(c, s', s'.procs[k]) {
      if k != p {
        assert ProcOk(c, s, s.procs[k]);
        ProcOkEvolves(c, s, s', s.procs[k]);
      }
    }
  }

  ghost predicate OneRow(s: State, s': State, p: nat, t: nat) {
    && p < |s.procs| == |s'.procs| && s'.procs == s.procs[p := s'.procs[p]]
    && t < |s.db.tasks| == |s.history|
    && |s'.db.tasks| == |s.db.tasks| && s'.db.tasks == s.db.tasks[t := s'.db.tasks[t]]
    && |s'.history| == |s.history| && s'.history == s.history[t := s'.history[t]]
    && RowEvolves(s.db.tasks[t], s.history[t], s'.db.tasks[t], s'.history[t])
    && s'.db.execution == s.db.execution
    && (forall i :: i in s.db.results ==> i in s'.db.results && s'.db.results[i] == s.db.results[i])
    && (forall i :: i in s'.db.results && i != t ==> i in s.db.results)
  }

  lemma OneRowEvolves(s: State, s': State, p: nat, t: nat)
    requires OneRow(s, s', p, t)
    ensures Evolves(s, s')
  {
  }

  lemma RowStep(c: Config, s: State, s': State, p: nat, t: nat)
    requires Core(c, s) && OneRow(s, s', p, t)
    requires TaskOk(c, s', t) && ProcOk(c, s', s'.procs[p])
    requires s'.redis == s.redis
    requires PlannerWeight(s'.procs[p]) == PlannerWeight(s.procs[p])
    ensures Core(c, s')
    ensures Evolves(s, s')
  {
    OneRowEvolves(s, s', p, t);
    TotalUpdate(s.procs, p, s'.procs[p], PlannerWeight);
    EveryoneElse(c, s, s', p);
    forall i | 0 <= i < |s.db.tasks| ensures TaskOk(c, s', i) {
      if i != t {
        TaskOkEvolves(c, s, s', i);
      }
    }
    if AllTerminal(s.db.tasks) {
      VerdictStable(c, s, s');
    }
  }

  // ---- steps on one row ----

  lemma ClaimKeeps(c: Config, s: State, p: nat)
    requires Core(c, s) && Shape(s) && p < |s.procs| && s.procs[p].Holds?
    ensures Core(c, DoClaim(s, p))
    ensures Evolves(s, DoClaim(s, p))
  {
    var s', t := DoClaim(s, p), s.procs[p].task;
    assert ProcOk(c, s, s.procs[p]) && TaskOk(c, s, t);
    if Claimable(s.db.tasks[t].status) {
      assert OneRow(s, s', p, t);
      OneRowEvolves(s, s', p, t);
      assert DepsCompleted(s'.db.tasks, t);
      RowStep(c, s, s', p, t);
    } else {
      LocalStep(c, s, s', p);
    }
  }

  /** The UPDATE of the "result already present" branch never finds its row RUNNING. */
  lemma IdempotencyUpdateIsNoOp(c: Config, s: State, t: nat)
    requires TasksOk(c, s) && t < |s.db.tasks| && t in s.db.results
    ensures CompleteIfRunning(s.db, t) == s.db
  {
    assert TaskOk(c, s, t);
  }

  lemma CheckResultKeeps(c: Config, s: State, p: nat)
    requires Core(c, s) && Shape(s) && p < |s.procs| && s.procs[p].Claimed?
    ensures Core(c, DoCheckResult(s, p))
    ensures Evolves(s, DoCheckResult(s, p))
  {
    var s', t := DoCheckResult(s, p), s.procs[p].task;
    assert ProcOk(c, s, s.procs[p]);
    if t in s.db.results {
      IdempotencyUpdateIsNoOp(c, s, t);
    }
    LocalStep(c, s, s', p);
  }

  lemma AgentSucceedsKeeps(c: Config, s: State, p: nat, output: string, metrics: Metrics)
    requires Core(c, s) && Shape(s) && p < |s.procs| && s.procs[p].Working?
    ensures Core(c, DoAgentSucceeds(s, p, output, metrics))
    ensures Evolves(s, DoAgentSucceeds(s, p, output, metrics))
  {
    var s', t := DoAgentSucceeds(s, p, output, metrics), s.procs[p].task;
    assert ProcOk(c, s, s.procs[p]) && TaskOk(c, s, t);
    assert OneRow(s, s', p, t);
    OneRowEvolves(s, s', p, t);
    assert DepsCompleted(s'.db.tasks, t);
    assert LifeCycle(c, s', t);
    assert ResultCoherent(s', t);
    RowStep(c, s, s', p, t);
  }

  lemma RecoverOneKeeps(c: Config, s: State, p: nat, runAt: real)
    requires Core(c, s) && Shape(s) && p < |s.procs| && s.procs[p].Recovering? && s.procs[p].batch != []
    ensures Core(c, DoRecoverOne(c, s, p, runAt))
    ensures Evolves(s, DoRecoverOne(c, s, p, runAt))
  {
    var s', x := DoRecoverOne(c, s, p, runAt), s.procs[p].batch[0];
    var t := x.task;
    assert ProcOk(c, s, s.procs[p]) && StaleOk(c, s, x) && TaskOk(c, s, t);
    var rest := s.procs[p].batch[1..];
    assert BatchOk(c, s, rest) by {
      forall k | 0 <= k < |rest| ensures StaleOk(c, s, rest[k]) {
        assert StaleOk(c, s, s.procs[p].batch[k + 1]);
      }
    }
    if s.db.tasks[t].status.Running? {
      assert OneRow(s, s', p, t);
      OneRowEvolves(s, s', p, t);
      assert BatchOk(c, s', rest) by {
        forall k | 0 <= k < |rest| ensures StaleOk(c, s', rest[k]) {
          StaleOkEvolves(c, s, s', rest[k]);
        }
      }
      assert DepsCompleted(s'.db.tasks, t);
      RowStep(c, s, s', p, t);
    } else {
      LocalStep(c, s, s', p);
    }
  }

  // ---- the scheduling pass ----

  /** What an old snapshot shows of a doomed row is still so. */
  lemma SnapshotDoomed(s: State, rows: seq<Task>, i: nat)
    requires SnapshotOk(s, rows) && i < |rows| && Doomed(rows, i)
    ensures Doomed(s.db.tasks, i)
  {
    var d :| d in rows[i].dependsOn && 0 <= d < |rows| && rows[d].status.Failed?;
    assert OldCopy(rows[i], s.db.tasks[i]) && OldCopy(rows[d], s.db.tasks[d]);
  }

  lemma SnapshotReady(s: State, rows: seq<Task>, i: nat)
    requires SnapshotOk(s, rows) && i < |rows| && DepsCompleted(rows, i)
    ensures DepsCompleted(s.db.tasks, i)
  {
    assert OldCopy(rows[i], s.db.tasks[i]);
    forall d | d in s.db.tasks[i].dependsOn && 0 <= d < |rows| ensures s.db.tasks[d].status.Completed? {
      assert OldCopy(rows[d], s.db.tasks[d]);
    }
  }

  /** A doomed row is never released: cascading and enqueueing exclude each other. */
  lemma DoomedNotReleased(c: Config, s: State, i: nat)
    requires TasksOk(c, s) && i < |s.db.tasks| && Doomed(s.db.tasks, i)
    ensures !s.history[i].released
    ensures s.db.tasks[i].status.Pending? || s.db.tasks[i].status.Failed?
    ensures s.db.tasks[i].status.Pending? ==> !s.db.tasks[i].enqueued
  {
    assert TaskOk(c, s, i);
    var d :| d in s.db.tasks[i].dependsOn && 0 <= d < |s.db.tasks| && s.db.tasks[d].status.Failed?;
  }

  lemma VisitDoomedKeeps(c: Config, s: State, p: nat, i: nat, seesOwn: bool)
    requires Core(c, s) && Shape(s) && p < |s.procs| && s.procs[p].Scanning? && i in s.procs[p].todo
    requires i < |s.procs[p].rows| && Untouched(s.procs[p].rows[i]) && Doomed(s.procs[p].rows, i)
    ensures Core(c, DoVisit(s, p, i, seesOwn))
    ensures Evolves(s, DoVisit(s, p, i, seesOwn))
  {
    var s', q := DoVisit(s, p, i, seesOwn), s.procs[p];
    assert ProcOk(c, s, q) && TaskOk(c, s, i);
    SnapshotDoomed(s, q.rows, i);
    DoomedNotReleased(c, s, i);
    var q' := s'.procs[p];
    assert OneRow(s, s', p, i);
    OneRowEvolves(s, s', p, i);
    assert Doomed(s'.db.tasks, i) by {
      var d :| d in s.db.tasks[i].dependsOn && 0 <= d < |s.db.tasks| && s.db.tasks[d].status.Failed?;
      assert d in s'.db.tasks[i].dependsOn && s'.db.tasks[d].status.Failed?;
    }
    assert SnapshotOk(s', q'.rows) by {
      SnapshotOkEvolves(s, s', q.rows);
    }
    RowStep(c, s, s', p, i);
  }

  lemma VisitReadyKeeps(c: Config, s: State, p: nat, i: nat, seesOwn: bool)
    requires Core(c, s) && Shape(s) && p < |s.procs| && s.procs[p].Scanning? && i in s.procs[p].todo
    requires i < |s.procs[p].rows| && Untouched(s.procs[p].rows[i])
    requires !Doomed(s.procs[p].rows, i) && DepsCompleted(s.procs[p].rows, i)
    ensures Core(c, DoVisit(s, p, i, seesOwn))
    ensures Evolves(s, DoVisit(s, p, i, seesOwn))
  {
    var s', q := DoVisit(s, p, i, seesOwn), s.procs[p];
    assert ProcOk(c, s, q) && TaskOk(c, s, i);
    SnapshotReady(s, q.rows, i);
    var q' := s'.procs[p];
    if s.db.tasks[i].enqueued {
      assert SnapshotOk(s', q'.rows);
      LocalStep(c, s, s', p);
    } else {
      assert OneRow(s, s', p, i);
      OneRowEvolves(s, s', p, i);
      SnapshotOkEvolves(s, s', q.rows);
      assert SnapshotOk(s', q'.rows);
      assert DepsCompleted(s'.db.tasks, i);
      RowStep(c, s, s', p, i);
    }
  }

  lemma VisitKeeps(c: Config, s: State, p: nat, i: nat, seesOwn: bool)
    requires Core(c, s) && Shape(s) && p < |s.procs| && s.procs[p].Scanning? && i in s.procs[p].todo
    ensures Core(c, DoVisit(s, p, i, seesOwn))
    ensures Evolves(s, DoVisit(s, p, i, seesOwn))
  {
    var q := s.procs[p];
    assert ProcOk(c, s, q) && InRange(s, q);
    if Untouched(q.rows[i]) && Doomed(q.rows, i) {
      VisitDoomedKeeps(c, s, p, i, seesOwn);
    } else if Untouched(q.rows[i]) && DepsCompleted(q.rows, i) {
      VisitReadyKeeps(c, s, p, i, seesOwn);
    } else {
      LocalStep(c, s, DoVisit(s, p, i, seesOwn), p);
    }
  }

  // ---- steps on the execution row ----

  /** Only the execution row and the process change. */
  lemma ExecutionStep(c: Config, s: State, s': State, p: nat)
    requires Core(c, s) && p < |s.procs| == |s'.procs|
    requires s'.db == s.db.(execution := s'.db.execution) && s'.history == s.history && s'.redis == s.redis
    requires s'.procs == s.procs[p := s'.procs[p]] && ProcOk(c, s', s'.procs[p])
    requires PhaseOk(s') && ExecutionOk(s')
    ensures Core(c, s')
    ensures Evolves(s, s')
  {
    EveryoneElse(c, s, s', p);
    forall i | 0 <= i < |s.db.tasks| ensures TaskOk(c, s', i) {
      TaskOkEvolves(c, s, s', i);
    }
  }

  lemma GuardPlanKeeps(c: Config, s: State, p: nat)
    requires Core(c, s) && p < |s.procs| && s.procs[p].HoldsPlan?
    ensures Core(c, DoGuardPlan(s, p))
    ensures Evolves(s, DoGuardPlan(s, p))
  {
    var s' := DoGuardPlan(s, p);
    TotalUpdate(s.procs, p, s'.procs[p], PlannerWeight);
    ExecutionStep(c, s, s', p);
  }

  lemma PlanFailsKeeps(c: Config, s: State, p: nat)
    requires Core(c, s) && p < |s.procs| && s.procs[p].Planning?
    ensures Core(c, DoPlanFails(s, p))
    ensures Evolves(s, DoPlanFails(s, p))
  {
    var s' := DoPlanFails(s, p);
    assert ProcOk(c, s, s.procs[p]);
    TotalUpdate(s.procs, p, Idle, PlannerWeight);
    TotalAtLeast(s.procs, p, PlannerWeight);
    ExecutionStep(c, s, s', p);
  }

  lemma StartRunningKeeps(c: Config, s: State, p: nat)
    requires Core(c, s) && p < |s.procs| && s.procs[p].Planned?
    ensures Core(c, DoStartRunning(s, p))
    ensures Evolves(s, DoStartRunning(s, p))
    ensures s.db.execution.status == ExecPlanning
  {
    var s' := DoStartRunning(s, p);
    assert ProcOk(c, s, s.procs[p]);
    TotalUpdate(s.procs, p, Scheduling(0), PlannerWeight);
    TotalAtLeast(s.procs, p, PlannerWeight);
    ExecutionStep(c, s, s', p);
  }

  lemma CommitVerdictKeeps(c: Config, s: State, p: nat)
    requires Core(c, s) && p < |s.procs| && s.procs[p].Deciding?
    ensures Core(c, DoCommitVerdict(s, p))
    ensures Evolves(s, DoCommitVerdict(s, p))
  {
    var s' := DoCommitVerdict(s, p);
    assert ProcOk(c, s, s.procs[p]);
    TotalUpdate(s.procs, p, Idle, PlannerWeight);
    ExecutionStep(c, s, s', p);
  }

  /** What a plan inserts: a non-empty DAG of fresh rows. */
  lemma PlannedRows(c: Config, answer: Planning.Json, snippet: string)
    requires 1 <= c.maxTasks
    ensures var rows := Planning.RowsOf(Planning.PlanOf(answer, c.repr, snippet, c.maxTasks));
      && 1 <= |rows| <= c.maxTasks
      && forall i :: 0 <= i < |rows| ==>
        && DependenciesEarlier(rows, i)
        && Untouched(rows[i]) && rows[i].attempts == 0 && rows[i].metrics == None
  {
    Planning.PlanIsBoundedDag(answer, c.repr, snippet, 1, c.maxTasks);
  }

  /** The rows of a plan appear in one commit, while no process refers to any row. */
  lemma PlanCommitsKeeps(c: Config, s: State, p: nat, answer: Planning.Json, snippet: string)
    requires Core(c, s) && p < |s.procs| && s.procs[p].Planning? && 1 <= c.maxTasks
    ensures Core(c, DoPlanCommits(c, s, p, answer, snippet))
    ensures 1 <= |DoPlanCommits(c, s, p, answer, snippet).db.tasks| <= c.maxTasks
  {
    var s' := DoPlanCommits(c, s, p, answer, snippet);
    PlannedRows(c, answer, snippet);
    hide Planning.PlanOf, Planning.RowsOf;
    assert ProcOk(c, s, s.procs[p]);
    TotalUpdate(s.procs, p, Planned, PlannerWeight);
    TotalAtLeast(s.procs, p, PlannerWeight);
    NobodyRefersToRows(c, s, s', p);
    FreshRowsOk(c, s');
  }

  lemma FreshRowsOk(c: Config, s: State)
    requires |s.history| == |s.db.tasks| && s.db.results == map[]
    requires forall i :: 0 <= i < |s.db.tasks| ==>
      && DependenciesEarlier(s.db.tasks, i)
      && Untouched(s.db.tasks[i]) && s.db.tasks[i].attempts == 0 && s.db.tasks[i].metrics == None
      && s.history[i] == History(false, 0, 0, false)
    ensures TasksOk(c, s)
  {
    forall i | 0 <= i < |s.db.tasks| ensures TaskOk(c, s, i) {
      assert Untouched(s.db.tasks[i]) && DependenciesEarlier(s.db.tasks, i);
      assert LifeCycle(c, s, i) && ResultCoherent(s, i) && ClaimsAccounted(s, i);
    }
  }

  lemma NobodyRefersToRows(c: Config, s: State, s': State, p: nat)
    requires ProcsOk(c, s) && s.db.tasks == [] && s'.db.tasks != []
    requires p < |s.procs| && s'.procs == s.procs[p := Planned]
    requires Total(s.procs, PlannerWeight) <= 1 && PlannerWeight(s.procs[p]) == 1
    ensures ProcsOk(c, s')
  {
    forall k | 0 <= k < |s'.procs| ensures ProcOk(c, s', s'.procs[k]) {
      if k != p {
        assert ProcOk(c, s, s.procs[k]);
        OnlyOnePlanner(s, p, k);
      }
    }
  }

  lemma OnlyOnePlanner(s: State, p: nat, k: nat)
    requires p < |s.procs| && k < |s.procs| && p != k
    requires Total(s.procs, PlannerWeight) <= 1 && PlannerWeight(s.procs[p]) == 1
    ensures PlannerWeight(s.procs[k]) == 0
  {
    TotalUpdate(s.procs, p, Idle, PlannerWeight);
    TotalAtLeast(s.procs[p := Idle], k, PlannerWeight);
  }

  // ---- Redis steps and reads ----

  lemma DequeueKeeps(c: Config, s: State, p: nat)
    requires Core(c, s) && p < |s.procs| && s.procs[p].Idle? && s.redis.queue != []
    ensures Core(c, DoDequeue(s, p))
    ensures Evolves(s, DoDequeue(s, p))
  {
    var s' := DoDequeue(s, p);
    forall k | 0 <= k < |s'.redis.queue| && s'.redis.queue[k].TaskJob?
      ensures Released(s', s'.redis.queue[k].task)
    {
      assert s'.redis.queue[k] == s.redis.queue[k + 1];
    }
    LocalStep(c, s, s', p);
  }

  lemma ReadKeeps(c: Config, s: State, p: nat, q': Proc)
    requires Core(c, s) && p < |s.procs| && ProcOk(c, s, q')
    requires PlannerWeight(q') == PlannerWeight(s.procs[p])
    ensures Core(c, Become(s, p, q'))
    ensures Evolves(s, Become(s, p, q'))
  {
    var s' := Become(s, p, q');
    assert Evolves(s, s');
    ProcOkEvolves(c, s, s', q');
    LocalStep(c, s, s', p);
  }

  lemma AgentFailsKeeps(c: Config, s: State, p: nat)
    requires Core(c, s) && Shape(s) && p < |s.procs| && s.procs[p].Working?
    ensures Core(c, DoAgentFails(s, p))
    ensures Evolves(s, DoAgentFails(s, p))
  {
    var t := s.procs[p].task;
    assert ProcOk(c, s, s.procs[p]) && TaskOk(c, s, t);
    var x := Stale(t, s.db.tasks[t].attempts);
    assert StaleOk(c, s, x);
    ReadKeeps(c, s, p, Recovering([x]));
  }

  lemma ReapKeeps(c: Config, s: State, p: nat, stale: seq<nat>)
    requires Core(c, s) && p < |s.procs| && s.procs[p].Idle? && stale != []
    requires forall k :: 0 <= k < |stale| ==> stale[k] < |s.db.tasks| && s.db.tasks[stale[k]].status.Running?
    ensures Core(c, DoReap(s, p, stale))
    ensures Evolves(s, DoReap(s, p, stale))
  {
    var batch := StaleBatch(s.db.tasks, stale);
    forall k | 0 <= k < |batch| ensures StaleOk(c, s, batch[k]) {
      assert TaskOk(c, s, stale[k]);
    }
    assert stale[0] < |s.db.tasks|;
    ReadKeeps(c, s, p, Recovering(batch));
  }

  lemma TakeSnapshotKeeps(c: Config, s: State, p: nat)
    requires Core(c, s) && p < |s.procs| && s.procs[p].Scheduling?
    ensures Core(c, DoTakeSnapshot(s, p))
    ensures Evolves(s, DoTakeSnapshot(s, p))
  {
    assert ProcOk(c, s, s.procs[p]);
    ReadKeeps(c, s, p, Scanning(s.db.tasks, Indices(|s.db.tasks|), false, s.procs[p].rounds));
  }

  lemma ReadForFinalizeKeeps(c: Config, s: State, p: nat)
    requires Core(c, s) && p < |s.procs| && s.procs[p].Finalizing?
    ensures Core(c, DoReadForFinalize(s, p))
    ensures Evolves(s, DoReadForFinalize(s, p))
  {
    assert ProcOk(c, s, s.procs[p]);
    ReadKeeps(c, s, p, DoReadForFinalize(s, p).procs[p]);
  }

  /** ZADD, dead-letter push, ZREM, RPUSH: the rows stay and every job names a released task. */
  lemma RedisStepKeeps(c: Config, s: State, s': State, p: nat)
    requires Core(c, s) && p < |s.procs|
    requires
      || (s.procs[p].Delaying? && s' == DoScheduleRetry(s, p))
      || (s.procs[p].Burying? && s' == DoPushDeadLetter(s, p))
      || (s.procs[p].Publishing? && s' == DoPublish(s, p))
      || (s.procs[p].Promoting? && s.procs[p].due != [] && s' == DoPromoteRemove(s, p))
      || (s.procs[p].Moving? && s' == DoPromotePush(s, p))
    ensures Core(c, s')
    ensures Evolves(s, s')
  {
    assert ProcOk(c, s, s.procs[p]);
    assert Evolves(s, s');
    if !s'.procs[p].Moving? {
      assert ProcOk(c, s, s'.procs[p]);
      ProcOkEvolves(c, s, s', s'.procs[p]);
    }
    LocalStep(c, s, s', p);
  }

  lemma RedeliverKeeps(c: Config, s: State, job: Job)
    requires Core(c, s) && (job.TaskJob? ==> job.task < |s.history| && s.history[job.task].released)
    ensures Core(c, DoRedeliver(s, job))
    ensures Evolves(s, DoRedeliver(s, job))
  {
    var s' := DoRedeliver(s, job);
    assert Evolves(s, s');
    forall k | 0 <= k < |s'.procs| ensures ProcOk(c, s', s'.procs[k]) {
      assert ProcOk(c, s, s.procs[k]);
      ProcOkEvolves(c, s, s', s.procs[k]);
    }
    forall i | 0 <= i < |s.db.tasks| ensures TaskOk(c, s', i) {
      assert TaskOk(c, s, i);
    }
  }

  // ---- any step ----

  lemma QueueRowsStay(c: Config, s: State, a: Action)
    requires Shape(s) && Enabled(s, a) && QueueAction(a) && !a.Redeliver?
    ensures Next(c, s, a).db == s.db && Next(c, s, a).history == s.history
  {
    hide Shape;
  }

  lemma PlanningActionKeeps(c: Config, s: State, a: Action)
    requires Core(c, s) && Shape(s) && Enabled(s, a) && 1 <= c.maxTasks && PlanningAction(a)
    ensures Core(c, Next(c, s, a))
    ensures !a.PlanCommits? ==> Evolves(s, Next(c, s, a))
  {
    match a
    case GuardPlan(p) => GuardPlanKeeps(c, s, p);
    case PlanFails(p) => PlanFailsKeeps(c, s, p);
    case PlanCommits(p, answer, snippet) => PlanCommitsKeeps(c, s, p, answer, snippet);
    case StartRunning(p) => StartRunningKeeps(c, s, p);
  }

  lemma EndRecoveryKeeps(c: Config, s: State, p: nat)
    requires Core(c, s) && p < |s.procs| && s.procs[p].Recovering?
    ensures Core(c, Become(s, p, Scheduling(0)))
    ensures Evolves(s, Become(s, p, Scheduling(0)))
  {
    assert ProcOk(c, s, s.procs[p]);
    ReadKeeps(c, s, p, Scheduling(0));
  }

  lemma EndPassKeeps(c: Config, s: State, p: nat)
    requires Core(c, s) && p < |s.procs| && s.procs[p].Scanning?
    ensures Core(c, DoEndPass(s, p))
    ensures Evolves(s, DoEndPass(s, p))
  {
    assert ProcOk(c, s, s.procs[p]);
    ReadKeeps(c, s, p, DoEndPass(s, p).procs[p]);
  }

  lemma TaskActionKeeps(c: Config, s: State, a: Action)
    requires Core(c, s) && Shape(s) && Enabled(s, a) && TaskAction(a)
    ensures Core(c, Next(c, s, a))
    ensures Evolves(s, Next(c, s, a))
  {
    hide Core, Evolves, Shape, Frame, DoClaim, DoCheckResult, DoAgentFails, DoAgentSucceeds, DoReap, DoRecoverOne;
    match a
    case Claim(p) => ClaimKeeps(c, s, p);
    case CheckResult(p) => CheckResultKeeps(c, s, p);
    case Crash(p) => ReadKeeps(c, s, p, Idle);
    case AgentFails(p) => AgentFailsKeeps(c, s, p);
    case AgentSucceeds(p, output, metrics) => AgentSucceedsKeeps(c, s, p, output, metrics);
    case Reap(p, stale) => ReapKeeps(c, s, p, stale);
    case RecoverOne(p, runAt) => RecoverOneKeeps(c, s, p, runAt);
    case EndRecovery(p) => EndRecoveryKeeps(c, s, p);
  }

  lemma PassActionKeeps(c: Config, s: State, a: Action)
    requires Core(c, s) && Shape(s) && Enabled(s, a) && PassAction(a)
    ensures Core(c, Next(c, s, a))
    ensures Evolves(s, Next(c, s, a))
  {
    hide Core, Evolves, Shape, Frame, DoTakeSnapshot, DoVisit, DoEndPass, DoReadForFinalize, DoCommitVerdict;
    match a
    case TakeSnapshot(p) => TakeSnapshotKeeps(c, s, p);
    case Visit(p, i, seesOwn) => VisitKeeps(c, s, p, i, seesOwn);
    case EndPass(p) => EndPassKeeps(c, s, p);
    case ReadForFinalize(p) => ReadForFinalizeKeeps(c, s, p);
    case CommitVerdict(p) => CommitVerdictKeeps(c, s, p);
  }

  lemma PromotionKeeps(c: Config, s: State, a: Action)
    requires Core(c, s) && Shape(s) && Enabled(s, a)
    requires a.PromoteRead? || a.PromoteRemove? || a.PromotePush? || a.EndPromotion?
    ensures Core(c, Next(c, s, a))
    ensures Evolves(s, Next(c, s, a))
  {
    hide Core, Evolves, Shape, Frame, DoPromoteRemove, DoPromotePush;
    match a
    case PromoteRead(p, due, _) => ReadKeeps(c, s, p, Promoting(due));
    case PromoteRemove(p) => RedisStepKeeps(c, s, DoPromoteRemove(s, p), p);
    case PromotePush(p) => RedisStepKeeps(c, s, DoPromotePush(s, p), p);
    case EndPromotion(p) => ReadKeeps(c, s, p, Idle);
  }

  lemma QueueActionKeeps(c: Config, s: State, a: Action)
    requires Core(c, s) && Shape(s) && Enabled(s, a) && QueueAction(a)
    ensures Core(c, Next(c, s, a))
    ensures Evolves(s, Next(c, s, a))
  {
    hide Core, Evolves, Shape, Frame, DoDequeue, DoScheduleRetry, DoPushDeadLetter, DoPublish, DoRedeliver;
    match a
    case Dequeue(p) => DequeueKeeps(c, s, p);
    case ScheduleRetry(p) => RedisStepKeeps(c, s, DoScheduleRetry(s, p), p);
    case PushDeadLetter(p) => RedisStepKeeps(c, s, DoPushDeadLetter(s, p), p);
    case Publish(p) => RedisStepKeeps(c, s, DoPublish(s, p), p);
    case Redeliver(job) => RedeliverKeeps(c, s, job);
    case _ => PromotionKeeps(c, s, a);
  }

  lemma CoreStep(c: Config, s: State, a: Action)
    requires Core(c, s) && Shape(s) && Enabled(s, a) && 1 <= c.maxTasks
    ensures Core(c, Next(c, s, a))
    ensures !a.PlanCommits? ==> Evolves(s, Next(c, s, a))
  {
    if PlanningAction(a) {
      PlanningActionKeeps(c, s, a);
    } else if TaskAction(a) {
      TaskActionKeeps(c, s, a);
    } else if PassAction(a) {
      PassActionKeeps(c, s, a);
    } else {
      QueueActionKeeps(c, s, a);
    }
  }

  lemma CoreInitially(c: Config, n: nat)
    ensures Core(c, Initial(n)) && Shape(Initial(n))
  {
    TotalZero(Initial(n).procs, PlannerWeight);
  }
}
