/** Conservation of job tokens and exactness of the dead-letter list. */
module Tokens {
  import opened Tables
  import opened Sums
  import opened System
  import opened Safety
  import opened Preservation

  /** Token of task t carried by a process: popped, or about to be pushed. */
  function HandOf(q: Proc, t: nat): nat {
    match q
    case Holds(u) => if u == t then 1 else 0
    case Delaying(u, _, _) => if u == t then 1 else 0
    case Publishing(u, _, _, _) => if u == t then 1 else 0
    case Moving(u, _) => if u == t then 1 else 0
    case _ => 0
  }

  function InHand(t: nat): Proc -> nat {
    (q: Proc) => HandOf(q, t)
  }

  /** Tokens of task t anywhere: main list, delayed set, hands. */
  function TokenCount(s: State, t: nat): nat {
    multiset(s.redis.queue)[TaskJob(t)]
    + (if t in s.redis.delayed then 1 else 0)
    + Total(s.procs, InHand(t))
  }

  ghost predicate TokensOf(s: State, t: nat)
    requires t < |s.db.tasks| == |s.history|
  {
    var k, row, h := TokenCount(s, t), s.db.tasks[t], s.history[t];
    h.released ==>
      && (Claimable(row.status) ==> k >= 1)
      && (!h.redelivered ==>
        && (Claimable(row.status) ==> k == 1)
        && (row.status.Running? ==> k == 0)
        && (Terminal(row.status) ==> k <= 1))
  }

  ghost predicate TokensConserved(s: State) {
    |s.db.tasks| == |s.history| && forall t :: 0 <= t < |s.db.tasks| ==> TokensOf(s, t)
  }

  /** A job exists somewhere only for a released task. */
  lemma NoTokenBeforeRelease(c: Config, s: State, t: nat)
    requires Core(c, s) && t < |s.db.tasks| && !s.history[t].released
    ensures TokenCount(s, t) == 0
  {
    forall k | 0 <= k < |s.redis.queue| ensures s.redis.queue[k] != TaskJob(t) {
    }
    assert TaskJob(t) !in multiset(s.redis.queue);
    forall p | 0 <= p < |s.procs| ensures InHand(t)(s.procs[p]) == 0 {
      assert ProcOk(c, s, s.procs[p]);
    }
    TotalZero(s.procs, InHand(t));
  }

  lemma HandsMove(s: State, s': State, p: nat, t: nat)
    requires p < |s.procs| == |s'.procs| && s'.procs == s.procs[p := s'.procs[p]]
    ensures Total(s'.procs, InHand(t)) + HandOf(s.procs[p], t) == Total(s.procs, InHand(t)) + HandOf(s'.procs[p], t)
  {
    TotalUpdate(s.procs, p, s'.procs[p], InHand(t));
  }

  lemma PushCounts(s: State, job: Job, t: nat)
    ensures multiset(s.redis.queue + [job])[TaskJob(t)]
      == multiset(s.redis.queue)[TaskJob(t)] + if job == TaskJob(t) then 1 else 0
  {
  }

  /** Program-point changes that carry no token and leave Redis alone. */
  lemma NeutralHands(s: State, s': State, p: nat, t: nat)
    requires p < |s.procs| == |s'.procs| && s'.procs == s.procs[p := s'.procs[p]]
    requires s'.redis == s.redis.(dead := s'.redis.dead)
    requires HandOf(s'.procs[p], t) == HandOf(s.procs[p], t)
    ensures TokenCount(s', t) == TokenCount(s, t)
  {
    HandsMove(s, s', p, t);
  }

  lemma DequeueCounts(s: State, p: nat, t: nat)
    requires p < |s.procs| && s.procs[p].Idle? && s.redis.queue != []
    ensures TokenCount(DoDequeue(s, p), t) == TokenCount(s, t)
  {
    HandsMove(s, DoDequeue(s, p), p, t);
    assert s.redis.queue == [s.redis.queue[0]] + s.redis.queue[1..];
  }

  lemma PushesCount(s: State, p: nat, t: nat)
    requires p < |s.procs|
    ensures s.procs[p].Publishing? ==> TokenCount(DoPublish(s, p), t) == TokenCount(s, t)
    ensures s.procs[p].Moving? ==> TokenCount(DoPromotePush(s, p), t) == TokenCount(s, t)
  {
    var q := s.procs[p];
    if q.Publishing? {
      HandsMove(s, DoPublish(s, p), p, t);
      PushCounts(s, TaskJob(q.task), t);
    } else if q.Moving? {
      HandsMove(s, DoPromotePush(s, p), p, t);
      PushCounts(s, TaskJob(q.task), t);
    }
  }

  lemma PromoteRemoveCounts(s: State, p: nat, t: nat)
    requires p < |s.procs| && s.procs[p].Promoting? && s.procs[p].due != []
    ensures TokenCount(DoPromoteRemove(s, p), t) == TokenCount(s, t)
  {
    HandsMove(s, DoPromoteRemove(s, p), p, t);
  }

  /** ZADD merges two tokens of one task into one; it never drops the last. */
  lemma ScheduleRetryCounts(s: State, p: nat, t: nat)
    requires p < |s.procs| && s.procs[p].Delaying?
    ensures var k, k' := TokenCount(s, t), TokenCount(DoScheduleRetry(s, p), t);
      k' == k || (k' == k - 1 && k' >= 1)
  {
    HandsMove(s, DoScheduleRetry(s, p), p, t);
    TotalAtLeast(s.procs, p, InHand(t));
  }

  lemma QueueStepCounts(c: Config, s: State, a: Action, t: nat)
    requires Shape(s) && Enabled(s, a) && QueueAction(a) && !a.Redeliver?
    ensures var k, k' := TokenCount(s, t), TokenCount(Next(c, s, a), t);
      k' == k || (k' == k - 1 && k' >= 1)
  {
    hide Shape, Frame, TokenCount;
    match a
    case Dequeue(p) => DequeueCounts(s, p, t);
    case ScheduleRetry(p) => ScheduleRetryCounts(s, p, t);
    case PushDeadLetter(p) => NeutralHands(s, Next(c, s, a), p, t);
    case Publish(p) => PushesCount(s, p, t);
    case PromoteRead(p, due, _) => NeutralHands(s, Next(c, s, a), p, t);
    case PromoteRemove(p) => PromoteRemoveCounts(s, p, t);
    case PromotePush(p) => PushesCount(s, p, t);
    case EndPromotion(p) => NeutralHands(s, Next(c, s, a), p, t);
  }

  lemma RedeliverTokens(s: State, job: Job, t: nat)
    requires Shape(s) && Enabled(s, Redeliver(job)) && t < |s.db.tasks| && TokensOf(s, t)
    ensures TokensOf(DoRedeliver(s, job), t)
  {
    PushCounts(s, job, t);
  }

  lemma QueueStepTokens(c: Config, s: State, a: Action, t: nat)
    requires Shape(s) && Enabled(s, a) && QueueAction(a)
    requires t < |s.db.tasks| && TokensOf(s, t)
    ensures TokensOf(Next(c, s, a), t)
  {
    if a.Redeliver? {
      RedeliverTokens(s, a.job, t);
      hide Shape, TokensOf, DoRedeliver;
    } else {
      QueueStepCounts(c, s, a, t);
      QueueRowsStay(c, s, a);
      hide Shape, Enabled, Next, TokenCount;
    }
  }

  /** A step that keeps Redis: the token count changes with the hand of the process only. */
  lemma HandStep(s: State, s': State, p: nat, t: nat)
    requires p < |s.procs| == |s'.procs| && s'.procs == s.procs[p := s'.procs[p]]
    requires s'.redis == s.redis
    ensures TokenCount(s', t) + HandOf(s.procs[p], t) == TokenCount(s, t) + HandOf(s'.procs[p], t)
    ensures HandOf(s.procs[p], t) <= TokenCount(s, t)
  {
    HandsMove(s, s', p, t);
    TotalAtLeast(s.procs, p, InHand(t));
  }

  lemma ClaimTokens(c: Config, s: State, p: nat, t: nat)
    requires Core(c, s) && Shape(s) && p < |s.procs| && s.procs[p].Holds?
    requires t < |s.db.tasks| && TokensOf(s, t)
    ensures TokensOf(DoClaim(s, p), t)
  {
    HandStep(s, DoClaim(s, p), p, t);
    assert TaskOk(c, s, t);
  }

  lemma RecoverTokens(c: Config, s: State, p: nat, runAt: real, t: nat)
    requires Core(c, s) && Shape(s) && p < |s.procs| && s.procs[p].Recovering? && s.procs[p].batch != []
    requires t < |s.db.tasks| && TokensOf(s, t)
    ensures TokensOf(DoRecoverOne(c, s, p, runAt), t)
  {
    HandStep(s, DoRecoverOne(c, s, p, runAt), p, t);
  }

  lemma SucceedTokens(c: Config, s: State, p: nat, output: string, metrics: Metrics, t: nat)
    requires Core(c, s) && Shape(s) && p < |s.procs| && s.procs[p].Working?
    requires t < |s.db.tasks| && TokensOf(s, t)
    ensures TokensOf(DoAgentSucceeds(s, p, output, metrics), t)
  {
    HandStep(s, DoAgentSucceeds(s, p, output, metrics), p, t);
  }

  lemma BecomeTokens(s: State, p: nat, q: Proc, t: nat)
    requires p < |s.procs| && t < |s.db.tasks| == |s.history| && TokensOf(s, t)
    requires HandOf(s.procs[p], t) == HandOf(q, t)
    ensures TokensOf(Become(s, p, q), t)
  {
    HandStep(s, Become(s, p, q), p, t);
  }

  lemma CheckTokens(c: Config, s: State, p: nat, t: nat)
    requires Core(c, s) && Shape(s) && p < |s.procs| && s.procs[p].Claimed?
    requires t < |s.db.tasks| && TokensOf(s, t)
    ensures TokensOf(DoCheckResult(s, p), t)
  {
    if s.procs[p].task in s.db.results {
      IdempotencyUpdateIsNoOp(c, s, s.procs[p].task);
    }
    HandStep(s, DoCheckResult(s, p), p, t);
  }

  lemma WriteStepTokens(c: Config, s: State, a: Action, t: nat)
    requires Core(c, s) && Shape(s) && Enabled(s, a) && (a.Claim? || a.AgentSucceeds? || a.RecoverOne?)
    requires t < |s.db.tasks| && TokensOf(s, t)
    ensures t < |Next(c, s, a).db.tasks| && TokensOf(Next(c, s, a), t)
  {
    match a
    case Claim(p) => ClaimTokens(c, s, p, t);
    case AgentSucceeds(p, output, metrics) => SucceedTokens(c, s, p, output, metrics, t);
    case RecoverOne(p, runAt) => RecoverTokens(c, s, p, runAt, t);
  }

  lemma ReadStepTokens(c: Config, s: State, a: Action, t: nat)
    requires Core(c, s) && Shape(s) && Enabled(s, a)
    requires a.CheckResult? || a.Crash? || a.AgentFails? || a.Reap? || a.EndRecovery?
    requires t < |s.db.tasks| && TokensOf(s, t)
    ensures t < |Next(c, s, a).db.tasks| && TokensOf(Next(c, s, a), t)
  {
    if a.CheckResult? {
      CheckTokens(c, s, a.p, t);
    } else {
      BecomeTokens(s, a.p, Next(c, s, a).procs[a.p], t);
    }
  }

  lemma TaskStepTokens(c: Config, s: State, a: Action, t: nat)
    requires Core(c, s) && Shape(s) && Enabled(s, a) && TaskAction(a)
    requires t < |s.db.tasks| && TokensOf(s, t)
    ensures t < |Next(c, s, a).db.tasks| && TokensOf(Next(c, s, a), t)
  {
    if a.Claim? || a.AgentSucceeds? || a.RecoverOne? {
      WriteStepTokens(c, s, a, t);
    } else {
      ReadStepTokens(c, s, a, t);
    }
  }

  lemma VisitTokens(c: Config, s: State, p: nat, i: nat, seesOwn: bool, t: nat)
    requires Core(c, s) && Shape(s) && p < |s.procs| && s.procs[p].Scanning? && i in s.procs[p].todo
    requires t < |s.db.tasks| && TokensOf(s, t)
    ensures TokensOf(DoVisit(s, p, i, seesOwn), t)
  {
    var q := s.procs[p];
    assert ProcOk(c, s, q);
    HandStep(s, DoVisit(s, p, i, seesOwn), p, t);
    if Doomed(q.rows, i) {
      SnapshotDoomed(s, q.rows, i);
      DoomedNotReleased(c, s, i);
    }
    if !s.history[t].released {
      NoTokenBeforeRelease(c, s, t);
      assert TaskOk(c, s, t);
    }
  }

  lemma PassStepTokens(c: Config, s: State, a: Action, t: nat)
    requires Core(c, s) && Shape(s) && Enabled(s, a) && PassAction(a)
    requires t < |s.db.tasks| && TokensOf(s, t)
    ensures t < |Next(c, s, a).db.tasks| && TokensOf(Next(c, s, a), t)
  {
    if a.Visit? {
      VisitTokens(c, s, a.p, a.row, a.seesOwn, t);
    } else {
      HandStep(s, Next(c, s, a), a.p, t);
    }
  }

  /** Every step that plans nothing conserves the tokens of each task on its own. */
  lemma TokensOfStep(c: Config, s: State, a: Action, t: nat)
    requires Core(c, s) && Shape(s) && Enabled(s, a) && !a.PlanCommits?
    requires t < |s.db.tasks| && TokensOf(s, t)
    ensures t < |Next(c, s, a).db.tasks| && TokensOf(Next(c, s, a), t)
  {
    hide Core, Shape, TokensOf, Enabled, Next;
    if PlanningAction(a) {
      PlanningStepTokens(c, s, a, t);
    } else if TaskAction(a) {
      TaskStepTokens(c, s, a, t);
    } else if PassAction(a) {
      PassStepTokens(c, s, a, t);
    } else {
      QueueStepTokens(c, s, a, t);
    }
  }

  lemma PlanningStepTokens(c: Config, s: State, a: Action, t: nat)
    requires Core(c, s) && Shape(s) && Enabled(s, a) && PlanningAction(a) && !a.PlanCommits?
    requires t < |s.db.tasks| && TokensOf(s, t)
    ensures TokensOf(Next(c, s, a), t)
  {
    HandsMove(s, Next(c, s, a), a.p, t);
  }

  lemma TokensStep(c: Config, s: State, a: Action)
    requires Core(c, s) && Shape(s) && Enabled(s, a) && 1 <= c.maxTasks
    requires TokensConserved(s)
    ensures TokensConserved(Next(c, s, a))
  {
    var s' := Next(c, s, a);
    CoreStep(c, s, a);
    forall t | 0 <= t < |s'.db.tasks| ensures TokensOf(s', t) {
      if !a.PlanCommits? {
        assert TokensOf(s, t);
        TokensOfStep(c, s, a, t);
      }
    }
  }

  // ---- dead letters ----

  function BuriesOf(q: Proc, t: nat): nat {
    if q.Burying? && q.task == t then 1 else 0
  }

  function Buries(t: nat): Proc -> nat {
    (q: Proc) => BuriesOf(q, t)
  }

  /** Entries of task t in the dead-letter list, plus pushes in hand. */
  function DeadCount(c: Config, s: State, t: nat): nat {
    multiset(s.redis.dead)[DeadLetter(t, Cap(c) + 1)] + Total(s.procs, Buries(t))
  }

  /** Failed by exhausting its retries, not by a failed dependency. */
  predicate Exhausted(s: State, t: nat)
    requires t < |s.db.tasks| == |s.history|
  {
    s.db.tasks[t].status.Failed? && s.history[t].released
  }

  ghost predicate DeadLettersExact(c: Config, s: State) {
    && |s.db.tasks| == |s.history|
    && (forall t :: 0 <= t < |s.db.tasks| ==> DeadCount(c, s, t) == if Exhausted(s, t) then 1 else 0)
    && (forall k :: 0 <= k < |s.redis.dead| ==>
          s.redis.dead[k].task < |s.db.tasks| && s.redis.dead[k].attempts == Cap(c) + 1)
    && (s.db.tasks == [] ==> s.redis.dead == [])
  }

  lemma BuriesMove(s: State, s': State, p: nat, t: nat)
    requires p < |s.procs| == |s'.procs| && s'.procs == s.procs[p := s'.procs[p]]
    ensures Total(s'.procs, Buries(t)) + BuriesOf(s.procs[p], t)
      == Total(s.procs, Buries(t)) + BuriesOf(s'.procs[p], t)
  {
    TotalUpdate(s.procs, p, s'.procs[p], Buries(t));
  }

  lemma PushDeadCount(c: Config, s: State, p: nat, t: nat)
    requires Core(c, s) && Shape(s) && p < |s.procs| && s.procs[p].Burying?
    ensures DeadCount(c, DoPushDeadLetter(s, p), t) == DeadCount(c, s, t)
  {
    var q, s' := s.procs[p], DoPushDeadLetter(s, p);
    assert ProcOk(c, s, q);
    BuriesMove(s, s', p, t);
    assert multiset(s'.redis.dead) == multiset(s.redis.dead) + multiset{DeadLetter(q.task, q.attempts)};
  }

  lemma RecoverDeadCount(c: Config, s: State, p: nat, runAt: real, t: nat)
    requires Core(c, s) && Shape(s) && p < |s.procs| && s.procs[p].Recovering? && s.procs[p].batch != []
    requires t < |s.db.tasks| && DeadCount(c, s, t) == if Exhausted(s, t) then 1 else 0
    ensures var s' := DoRecoverOne(c, s, p, runAt);
      DeadCount(c, s', t) == if Exhausted(s', t) then 1 else 0
  {
    var x, s' := s.procs[p].batch[0], DoRecoverOne(c, s, p, runAt);
    assert ProcOk(c, s, s.procs[p]) && StaleOk(c, s, x);
    BuriesMove(s, s', p, t);
  }

  /** All other steps: same list, same hands. */
  lemma OtherDeadCount(c: Config, s: State, a: Action, t: nat)
    requires Shape(s) && Enabled(s, a)
    requires !a.RecoverOne? && !a.PushDeadLetter? && !a.PlanCommits?
    ensures DeadCount(c, Next(c, s, a), t) == DeadCount(c, s, t)
    ensures Next(c, s, a).redis.dead == s.redis.dead
  {
    NobodyBuries(c, s, a, t);
    hide Next, Shape, Enabled, BuriesOf;
    if !a.Redeliver? {
      BuriesMove(s, Next(c, s, a), a.p, t);
    }
  }

  lemma NobodyBuries(c: Config, s: State, a: Action, t: nat)
    requires Shape(s) && Enabled(s, a)
    requires !a.RecoverOne? && !a.PushDeadLetter? && !a.PlanCommits?
    ensures Next(c, s, a).redis.dead == s.redis.dead
    ensures a.Redeliver? ==> Next(c, s, a).procs == s.procs
    ensures !a.Redeliver? ==> BuriesOf(Next(c, s, a).procs[a.p], t) == BuriesOf(s.procs[a.p], t)
  {
    hide Shape, Frame, Untouched, Doomed, DepsCompleted, Claimable;
  }

  lemma AttemptsStay(c: Config, s: State, a: Action, t: nat)
    requires Shape(s) && Enabled(s, a) && t < |s.db.tasks| && !a.RecoverOne? && !a.PlanCommits?
    ensures Next(c, s, a).db.tasks[t].attempts == s.db.tasks[t].attempts
  {
    hide Shape, Frame, Untouched, Doomed, DepsCompleted;
  }

  lemma ExhaustedMeans(c: Config, s: State, t: nat)
    requires TasksOk(c, s) && t < |s.db.tasks|
    ensures Exhausted(s, t) <==> s.db.tasks[t].attempts == Cap(c) + 1
  {
    assert TaskOk(c, s, t);
  }

  /** Only _retry_or_fail exhausts a task. */
  lemma ExhaustedStays(c: Config, s: State, a: Action, t: nat)
    requires Shape(s) && Enabled(s, a) && t < |s.db.tasks| && !a.RecoverOne? && !a.PlanCommits?
    requires TasksOk(c, s) && TasksOk(c, Next(c, s, a))
    ensures Exhausted(Next(c, s, a), t) == Exhausted(s, t)
  {
    hide Next, Shape, Enabled, TasksOk, Exhausted;
    ExhaustedMeans(c, s, t);
    ExhaustedMeans(c, Next(c, s, a), t);
    AttemptsStay(c, s, a, t);
  }

  lemma NothingDeadYet(c: Config, s: State, a: Action)
    requires Core(c, s) && Shape(s) && Enabled(s, a) && 1 <= c.maxTasks && DeadLettersExact(c, s)
    requires a.PlanCommits?
    ensures DeadLettersExact(c, Next(c, s, a))
  {
    var s' := Next(c, s, a);
    CoreStep(c, s, a);
    assert ProcOk(c, s, s.procs[a.p]);
    forall t | 0 <= t < |s'.db.tasks| ensures DeadCount(c, s', t) == 0 {
      forall k | 0 <= k < |s'.procs| ensures Buries(t)(s'.procs[k]) == 0 {
        assert ProcOk(c, s', s'.procs[k]);
      }
      TotalZero(s'.procs, Buries(t));
    }
  }

  lemma DeadCountStep(c: Config, s: State, a: Action, t: nat)
    requires Core(c, s) && Shape(s) && Enabled(s, a) && !a.PlanCommits? && Core(c, Next(c, s, a))
    requires t < |s.db.tasks| && DeadCount(c, s, t) == if Exhausted(s, t) then 1 else 0
    ensures DeadCount(c, Next(c, s, a), t) == if Exhausted(Next(c, s, a), t) then 1 else 0
  {
    if a.RecoverOne? {
      RecoverDeadCount(c, s, a.p, a.runAt, t);
      hide Core, DeadCount, DoRecoverOne, Exhausted;
    } else {
      ExhaustedStays(c, s, a, t);
      if a.PushDeadLetter? {
        PushDeadCount(c, s, a.p, t);
        hide Core, DeadCount, DoPushDeadLetter, Exhausted;
      } else {
        OtherDeadCount(c, s, a, t);
        hide Core, DeadCount, Next, Shape, Enabled, Exhausted;
      }
    }
  }

  lemma DeadLettersStep(c: Config, s: State, a: Action)
    requires Core(c, s) && Shape(s) && Enabled(s, a) && 1 <= c.maxTasks && DeadLettersExact(c, s)
    ensures DeadLettersExact(c, Next(c, s, a))
  {
    var s' := Next(c, s, a);
    if a.PlanCommits? {
      NothingDeadYet(c, s, a);
      hide Core, Shape, Enabled, Next, DeadLettersExact;
    } else {
      CoreStep(c, s, a);
      DeadEntries(c, s, a);
      DeadNonEmpty(c, s, a);
      hide Core, Shape, Enabled, Next, DeadCount, Exhausted;
      forall t | 0 <= t < |s'.db.tasks| ensures DeadCount(c, s', t) == if Exhausted(s', t) then 1 else 0 {
        DeadCountStep(c, s, a, t);
      }
    }
  }

  lemma DeadNonEmpty(c: Config, s: State, a: Action)
    requires Core(c, s) && Shape(s) && Enabled(s, a) && DeadLettersExact(c, s) && !a.PlanCommits?
    ensures Next(c, s, a).db.tasks == [] ==> Next(c, s, a).redis.dead == []
  {
    if a.PushDeadLetter? {
      assert ProcOk(c, s, s.procs[a.p]);
    } else {
      DeadListStays(c, s, a);
      hide Core, Shape, Enabled, Next;
    }
  }

  lemma DeadEntries(c: Config, s: State, a: Action)
    requires Core(c, s) && Shape(s) && Enabled(s, a) && DeadLettersExact(c, s) && !a.PlanCommits?
    ensures forall k :: 0 <= k < |Next(c, s, a).redis.dead| ==>
      Next(c, s, a).redis.dead[k].task < |s.db.tasks| && Next(c, s, a).redis.dead[k].attempts == Cap(c) + 1
  {
    if a.PushDeadLetter? {
      assert ProcOk(c, s, s.procs[a.p]);
      hide Core, Shape;
    } else {
      DeadListStays(c, s, a);
      hide Core, Shape, Enabled, Next;
    }
  }

  lemma DeadListStays(c: Config, s: State, a: Action)
    requires Shape(s) && Enabled(s, a) && !a.PushDeadLetter?
    ensures Next(c, s, a).redis.dead == s.redis.dead
  {
    hide Shape;
  }
}
