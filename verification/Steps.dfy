/** Which steps can be taken, and what the counters of a pass and of a run's cost count. */
module Steps {
  import opened Tables
  import opened System
  import opened Safety
  import opened Termination
  import opened Runs
  import Planning

  /**
   * Nothing the source can do is left out: from every program point each of its
   * actions is possible, with every outcome the outside may choose.
   */
  lemma HandlersMay(s: State, p: nat, answer: Planning.Json, text: string, metrics: Metrics)
    requires p < |s.procs|
    ensures match s.procs[p]
      case Idle => Enabled(s, Dequeue(p)) <==> s.redis.queue != []
      case HoldsPlan => Enabled(s, GuardPlan(p))
      case Planning => Enabled(s, PlanFails(p)) && Enabled(s, PlanCommits(p, answer, text))
      case Planned => Enabled(s, StartRunning(p))
      case Holds(_) => Enabled(s, Claim(p))
      case Claimed(_) => Enabled(s, CheckResult(p)) && Enabled(s, Crash(p))
      case Working(_) =>
        Enabled(s, AgentSucceeds(p, text, metrics)) && Enabled(s, AgentFails(p)) && Enabled(s, Crash(p))
      case _ => true
  {
    hide Distinct;
  }

  /** The same for recoveries, passes and promotions. */
  lemma PassesMay(s: State, p: nat, time: real, row: nat, seesOwn: bool)
    requires p < |s.procs|
    ensures match s.procs[p]
      case Recovering(batch) => Enabled(s, if batch == [] then EndRecovery(p) else RecoverOne(p, time))
      case Delaying(_, _, _) => Enabled(s, ScheduleRetry(p))
      case Burying(_, _, _) => Enabled(s, PushDeadLetter(p))
      case Scheduling(_) => Enabled(s, TakeSnapshot(p))
      case Scanning(_, todo, _, _) =>
        (row in todo ==> Enabled(s, Visit(p, row, seesOwn))) && (todo == {} ==> Enabled(s, EndPass(p)))
      case Publishing(_, _, _, _) => Enabled(s, Publish(p))
      case Finalizing => Enabled(s, ReadForFinalize(p))
      case Deciding(_) => Enabled(s, CommitVerdict(p))
      case Promoting(due) => Enabled(s, if due == [] then EndPromotion(p) else PromoteRemove(p))
      case Moving(_, _) => Enabled(s, PromotePush(p))
      case _ => true
  {
    hide Distinct;
  }

  /** A reaper may pick up any RUNNING tasks, a promoter any due members, and any pushed job may come again. */
  lemma EnvironmentMay(s: State, p: nat, stale: seq<nat>, due: seq<nat>, now: real, t: nat)
    requires p < |s.procs| && s.procs[p].Idle?
    ensures
      && stale != [] && Distinct(stale)
      && (forall k :: 0 <= k < |stale| ==> stale[k] < |s.db.tasks| && s.db.tasks[stale[k]].status == Running)
      ==> Enabled(s, Reap(p, stale))
    ensures
      && Distinct(due)
      && (forall k :: 0 <= k < |due| ==> due[k] in s.redis.delayed && s.redis.delayed[due[k]] <= now)
      ==> Enabled(s, PromoteRead(p, due, now))
    ensures t < |s.history| && s.history[t].released ==> Enabled(s, Redeliver(TaskJob(t)))
    ensures Enabled(s, Redeliver(PlanJob))
  {
  }

  /** A crash only loses the process's place; a repeated delivery only appends the job. */
  lemma CrashAndRedelivery(c: Config, s: State, a: Action)
    requires Shape(s) && Enabled(s, a)
    ensures a.Crash? ==>
      Next(c, s, a).db == s.db && Next(c, s, a).redis == s.redis && Next(c, s, a).procs == s.procs[a.p := Idle]
    ensures a.Redeliver? ==>
      && Next(c, s, a).db == s.db && Next(c, s, a).procs == s.procs
      && Next(c, s, a).redis == s.redis.(queue := s.redis.queue + [a.job])
  {
    hide Shape, Frame;
  }

  /** The snapshot is the rows as they are, all still to visit; a pass that changed something goes another round. */
  lemma RoundsCounted(c: Config, s: State, a: Action)
    requires Shape(s) && Enabled(s, a)
    ensures a.TakeSnapshot? ==>
      Next(c, s, a).procs[a.p] ==
        Scanning(s.db.tasks, Indices(|s.db.tasks|), false, s.procs[a.p].rounds)
    ensures a.EndPass? ==>
      Next(c, s, a).procs[a.p] ==
        if s.procs[a.p].changed then Scheduling(s.procs[a.p].rounds + 1) else Finalizing
    ensures a.Publish? ==>
      var q := s.procs[a.p]; Next(c, s, a).procs[a.p] == Scanning(q.rows, q.todo, true, q.rounds)
  {
    hide Shape, Frame;
  }

  /** A visit keeps the round, strikes the row off, and marks the pass as changed exactly when an update took effect. */
  lemma VisitCounted(c: Config, s: State, a: Action)
    requires Shape(s) && Enabled(s, a) && a.Visit?
    ensures
      var q, q' := s.procs[a.p], Next(c, s, a).procs[a.p];
      && (q'.Scanning? || q'.Publishing?) && q'.rounds == q.rounds && q'.todo == q.todo - {a.row}
      && (q'.Scanning? ==> (q'.changed <==> q.changed || Next(c, s, a).db != s.db))
      && (q'.Publishing? ==> q'.task == a.row && Next(c, s, a).db != s.db)
  {
    assert InRange(s, s.procs[a.p]);
    hide Shape, Frame, Doomed, DepsCompleted, Untouched;
  }

  /** The session's copies after a visit: its own update is seen or not, as chosen, and nothing else changes. */
  lemma VisitCopies(c: Config, s: State, a: Action)
    requires Shape(s) && Enabled(s, a) && a.Visit?
    ensures
      var q, q' := s.procs[a.p], Next(c, s, a).procs[a.p];
      && a.row < |q.rows| && |q'.rows| == |q.rows|
      && (forall i :: 0 <= i < |q.rows| && i != a.row ==> q'.rows[i] == q.rows[i])
      && q'.rows[a.row] ==
        if !a.seesOwn || !Untouched(q.rows[a.row]) then q.rows[a.row]
        else if Doomed(q.rows, a.row) then q.rows[a.row].(status := Failed, enqueued := true)
        else if DepsCompleted(q.rows, a.row) then q.rows[a.row].(enqueued := true)
        else q.rows[a.row]
  {
    assert InRange(s, s.procs[a.p]);
    hide Shape, Frame, Doomed, DepsCompleted, Untouched;
  }

  /** Only reaper and promoter firings and repeated deliveries cost anything, and in proportion to what they pick up. */
  lemma EnvironmentOnly(c: Config, a: Action)
    ensures !a.Reap? && !a.PromoteRead? && !a.Redeliver? ==> EnvironmentCost(c, a) == 0
    ensures a.Reap? ==> EnvironmentCost(c, a) == c.maxTasks + 6 + 2 * |a.stale|
    ensures a.PromoteRead? ==> EnvironmentCost(c, a) == |a.due| + 2
    ensures a.Redeliver? && a.job.TaskJob? ==> EnvironmentCost(c, a) == 3
    ensures a.Redeliver? && a.job.PlanJob? ==> EnvironmentCost(c, a) == PlanningCost(c) + 3
  {
  }

  /** The cost of one plan, in the tasks and retries allowed. */
  lemma PlanningCostIs(c: Config)
    ensures AttemptCost(c) == c.maxTasks + 12
    ensures var attempts := if c.maxRetries < 0 then 1 else c.maxRetries + 1;
      PlanningCost(c) == c.maxTasks * (attempts * (c.maxTasks + 12) + 2 * c.maxTasks + 14) + c.maxTasks + 6
  {
  }
}
