/**
 * The job handlers of the step system, run by one process without interference,
 * against what they must record: the same statements that the methods of
 * Scheduler and JobQueue are proved to meet.
 */
module Handlers {
  import opened Text
  import opened Tables
  import opened System
  import opened JobQueues
  import opened Sequential
  import opened Scheduling
  import opened Confluence
  import opened Runs
  import Planning

  /** Only process p moves, it does not crash, and it starts nothing new. */
  predicate Attends(p: nat, run: seq<Action>) {
    forall k :: 0 <= k < |run| ==>
      && !run[k].Redeliver? && run[k].p == p
      && !run[k].Crash? && !run[k].Dequeue? && !run[k].Reap? && !run[k].PromoteRead?
  }

  lemma AttendsFirst(p: nat, run: seq<Action>)
    requires Attends(p, run) && run != []
    ensures !run[0].Redeliver? && run[0].p == p && Attends(p, run[1..])
    ensures !run[0].Crash? && !run[0].Dequeue? && !run[0].Reap? && !run[0].PromoteRead?
  {
  }

  lemma IdleRests(c: Config, s: State, run: seq<Action>, p: nat)
    requires ValidRun(c, s, run) && Attends(p, run) && p < |s.procs| && s.procs[p].Idle?
    ensures run == [] && After(c, s, run) == s
  {
    hide Shape, Next;
    if run != [] {
      AttendsFirst(p, run);
    }
  }

  // ---- schedule_execution ----

  predicate InPass(q: Proc) {
    q.Scheduling? || q.Scanning? || q.Publishing? || q.Finalizing? || q.Deciding? || q.Idle?
  }

  lemma OnlyPassMoves(s: State, a: Action)
    requires !a.Redeliver? && a.p < |s.procs| && MayTake(s, s.procs[a.p], a) && InPass(s.procs[a.p])
    requires !a.Crash? && !a.Dequeue? && !a.Reap? && !a.PromoteRead?
    ensures PassAction(a) || a.Publish?
  {
  }

  lemma SoloInPass(given: Tables, redis: Redis, s: State, q: Proc, pushed: seq<nat>)
    requires Solo(given, redis, s, q, pushed)
    ensures InPass(q)
  {
  }

  lemma {:induction false} PassFrom(
    c: Config, given: Tables, redis: Redis, s: State, run: seq<Action>, p: nat, pushed: seq<nat>)
    returns (pushed': seq<nat>)
    requires ValidRun(c, s, run) && Attends(p, run) && p < |s.procs|
    requires Solo(given, redis, s, s.procs[p], pushed)
    ensures var s' := After(c, s, run); p < |s'.procs| && Solo(given, redis, s', s'.procs[p], pushed')
    decreases |run|
  {
    hide Solo, Next, Shape, PassAction, MayTake;
    pushed' := pushed;
    if run != [] {
      AttendsFirst(p, run);
      SoloInPass(given, redis, s, s.procs[p], pushed);
      OnlyPassMoves(s, run[0]);
      pushed' := SoloStep(c, given, redis, s, run[0], pushed);
      pushed' := PassFrom(c, given, redis, Next(c, s, run[0]), run[1..], p, pushed');
    }
  }

  /** When the process is idle again, the pass over `given` and `redis` is over. */
  ghost predicate Scheduled(given: Tables, redis: Redis, s': State, p: nat) {
    p < |s'.procs| &&
    (s'.procs[p].Idle? ==>
      s'.db == AfterPass(given) && exists pushed :: PushedReady(given.tasks, redis, s'.redis, pushed))
  }

  lemma ScheduleFrom(c: Config, s: State, run: seq<Action>, p: nat)
    requires ValidRun(c, s, run) && Attends(p, run) && p < |s.procs| && s.procs[p].Scheduling?
    requires WellFounded(s.db.tasks)
    ensures Scheduled(s.db, s.redis, After(c, s, run), p)
  {
    ProgressInitially(s.db, s.redis);
    hide WellFounded, Progress, Shape, Enabled, Next, AfterPass, PushedReady, ValidRun, After, Attends;
    var pushed := PassFrom(c, s.db, s.redis, s, run, p, []);
  }

  // ---- recover_stale_tasks ----

  lemma {:induction false} RunAtElsewhere(
    jobs: Redis, tasks: seq<Task>, stale: seq<nat>, maxRetries: int, f: nat -> real, g: nat -> real)
    requires forall k :: 0 <= k < |stale| ==> stale[k] < |tasks| && f(stale[k]) == g(stale[k])
    ensures RecoveredJobs(jobs, tasks, stale, maxRetries, f) == RecoveredJobs(jobs, tasks, stale, maxRetries, g)
  {
    if stale != [] {
      RunAtElsewhere(jobs, tasks, stale[..|stale| - 1], maxRetries, f, g);
    }
  }

  function Retimed(runAt: nat -> real, t: nat, time: real): nat -> real {
    (x: nat) => if x == t then time else runAt(x)
  }

  /** A recovery that has written off the first k of `stale`. */
  ghost predicate PartlyRecovered(
    c: Config, given: Tables, redis: Redis, stale: seq<nat>, k: nat, runAt: nat -> real, db: Tables, jobs: Redis)
  {
    && k <= |stale| && Distinct(stale)
    && (forall j :: 0 <= j < |stale| ==> stale[j] < |given.tasks| && given.tasks[stale[j]].status.Running?)
    && db == given.(tasks := Recovered(given.tasks, stale[..k], c.maxRetries))
    && jobs == RecoveredJobs(redis, given.tasks, stale[..k], c.maxRetries, runAt)
  }

  /** The action that writes off stale task k, and the queue command that follows it. */
  lemma RecoverNext(
    c: Config, given: Tables, redis: Redis, stale: seq<nat>, k: nat, runAt: nat -> real, db: Tables, jobs: Redis,
    time: real)
    requires PartlyRecovered(c, given, redis, stale, k, runAt, db, jobs) && k < |stale|
    ensures var t := stale[k];
      && t < |db.tasks| && db.tasks[t] == given.tasks[t] && |db.tasks| == |given.tasks|
      && PartlyRecovered(c, given, redis, stale, k + 1, Retimed(runAt, t, time),
           db.(tasks := db.tasks[t := FailedAttempt(db.tasks[t], c.maxRetries)]),
           AfterFailure(jobs, t, given.tasks[t].attempts, c.maxRetries, time))
  {
    var t := stale[k];
    hide FailedAttempt, AfterFailure;
    RecoverOneMore(given, redis, stale, k, c.maxRetries, Retimed(runAt, t, time));
    forall j | 0 <= j < |stale[..k]| ensures runAt(stale[..k][j]) == Retimed(runAt, t, time)(stale[..k][j]) {
      assert stale[..k][j] != t;
    }
    RunAtElsewhere(redis, given.tasks, stale[..k], c.maxRetries, runAt, Retimed(runAt, t, time));
    hide Recovered, RecoveredJobs;
  }

  /** One round of the recovery loop in the step system: two actions with the effect of _retry_or_fail. */
  lemma RecoverRound(c: Config, s: State, p: nat, a: Action, b: Action)
    requires Shape(s) && Enabled(s, a) && a.RecoverOne? && a.p == p
    requires s.procs[p].batch[0].task < |s.db.tasks| && s.db.tasks[s.procs[p].batch[0].task].status.Running?
    requires Shape(Next(c, s, a)) && Enabled(Next(c, s, a), b) && !b.Redeliver? && b.p == p
    ensures var x, s' := s.procs[p].batch[0], Next(c, Next(c, s, a), b);
      && p < |s'.procs| && s'.procs[p] == Recovering(s.procs[p].batch[1..])
      && s'.redis == AfterFailure(s.redis, x.task, x.attemptsRead, c.maxRetries, a.runAt)
      && (x.attemptsRead == s.db.tasks[x.task].attempts ==>
           s'.db == s.db.(tasks := s.db.tasks[x.task := FailedAttempt(s.db.tasks[x.task], c.maxRetries)]))
  {
    hide Frame, Shape;
  }

  /** From the middle of a recovery to its end and the pass that follows. */
  lemma {:induction false} RecoverFrom(
    c: Config, given: Tables, redis: Redis, stale: seq<nat>, k: nat, runAt: nat -> real,
    s: State, run: seq<Action>, p: nat) returns (runAt': nat -> real)
    requires ValidRun(c, s, run) && Attends(p, run) && p < |s.procs| && WellFounded(given.tasks)
    requires PartlyRecovered(c, given, redis, stale, k, runAt, s.db, s.redis)
    requires s.procs[p] == Recovering(StaleBatch(given.tasks, stale)[k..])
    ensures var s' := After(c, s, run);
      var rows := Recovered(given.tasks, stale, c.maxRetries);
      Scheduled(given.(tasks := rows), RecoveredJobs(redis, given.tasks, stale, c.maxRetries, runAt'), s', p)
    decreases |run|, 1
  {
    hide Shape, Recovered, RecoveredJobs, Scheduled, WellFounded;
    runAt' := runAt;
    if run == [] {
      NotOver(given.(tasks := Recovered(given.tasks, stale, c.maxRetries)),
        RecoveredJobs(redis, given.tasks, stale, c.maxRetries, runAt'), s, p);
    } else {
      AttendsFirst(p, run);
      if k == |stale| {
        assert StaleBatch(given.tasks, stale)[k..] == [];
        RecoverEnds(c, given, redis, stale, runAt, s, run, p);
      } else {
        runAt' := RecoverOn(c, given, redis, stale, k, runAt, s, run, p);
      }
    }
  }

  lemma NotOver(given: Tables, redis: Redis, s: State, p: nat)
    requires p < |s.procs| && !s.procs[p].Idle?
    ensures Scheduled(given, redis, s, p)
  {
  }

  lemma StepOff(c: Config, s: State, run: seq<Action>)
    requires ValidRun(c, s, run) && run != []
    ensures Shape(s) && Enabled(s, run[0]) && ValidRun(c, Next(c, s, run[0]), run[1..])
    ensures After(c, s, run) == After(c, Next(c, s, run[0]), run[1..])
  {
    hide Shape, Enabled, Next;
  }

  lemma EndsRecovery(c: Config, s: State, a: Action, p: nat)
    requires Shape(s) && Enabled(s, a) && !a.Redeliver? && a.p == p && s.procs[p] == Recovering([]) && !a.Crash?
    ensures var s' := Next(c, s, a);
      && s'.db == s.db && s'.redis == s.redis && |s'.procs| == |s.procs| && s'.procs[p] == Scheduling(0)
  {
    hide Shape, Frame;
  }

  lemma RecoverEnds(
    c: Config, given: Tables, redis: Redis, stale: seq<nat>, runAt: nat -> real, s: State, run: seq<Action>, p: nat)
    requires ValidRun(c, s, run) && Attends(p, run) && p < |s.procs| && WellFounded(given.tasks) && run != []
    requires PartlyRecovered(c, given, redis, stale, |stale|, runAt, s.db, s.redis)
    requires s.procs[p] == Recovering([])
    ensures Scheduled(given.(tasks := Recovered(given.tasks, stale, c.maxRetries)),
      RecoveredJobs(redis, given.tasks, stale, c.maxRetries, runAt), After(c, s, run), p)
  {
    hide Shape, Enabled, Next, Recovered, RecoveredJobs, Scheduled, WellFounded, ValidRun, After;
    AttendsFirst(p, run);
    StepOff(c, s, run);
    EndsRecovery(c, s, run[0], p);
    assert stale[..|stale|] == stale;
    RecoveredWellFounded(given.tasks, stale, c.maxRetries);
    ScheduleFrom(c, Next(c, s, run[0]), run[1..], p);
  }

  lemma RecoversFirst(s: State, a: Action, p: nat)
    requires !a.Redeliver? && a.p == p < |s.procs| && MayTake(s, s.procs[p], a)
    requires s.procs[p].Recovering? && s.procs[p].batch != []
    ensures a.RecoverOne?
  {
  }

  lemma QueuesNext(c: Config, s: State, a: Action, p: nat)
    requires Shape(s) && Enabled(s, a) && a.RecoverOne? && a.p == p
    requires s.procs[p].batch[0].task < |s.db.tasks| && s.db.tasks[s.procs[p].batch[0].task].status.Running?
    ensures var q := Next(c, s, a).procs[p]; !q.Idle? && (q.Delaying? || q.Burying?)
  {
    hide Shape, Frame;
  }

  lemma RecoverOn(
    c: Config, given: Tables, redis: Redis, stale: seq<nat>, k: nat, runAt: nat -> real,
    s: State, run: seq<Action>, p: nat) returns (runAt': nat -> real)
    requires ValidRun(c, s, run) && Attends(p, run) && p < |s.procs| && WellFounded(given.tasks) && run != []
    requires PartlyRecovered(c, given, redis, stale, k, runAt, s.db, s.redis) && k < |stale|
    requires s.procs[p] == Recovering(StaleBatch(given.tasks, stale)[k..])
    ensures Scheduled(given.(tasks := Recovered(given.tasks, stale, c.maxRetries)),
      RecoveredJobs(redis, given.tasks, stale, c.maxRetries, runAt'), After(c, s, run), p)
    decreases |run|, 0
  {
    hide Shape, Enabled, Next, Recovered, RecoveredJobs, Scheduled, WellFounded, ValidRun, After;
    hide FailedAttempt, AfterFailure;
    runAt' := runAt;
    var t, batch := stale[k], StaleBatch(given.tasks, stale);
    assert batch[k..][0] == batch[k] && batch[k..][1..] == batch[k + 1..];
    AttendsFirst(p, run);
    StepOff(c, s, run);
    EnabledMoves(s, run[0], p);
    RecoversFirst(s, run[0], p);
    var time := run[0].runAt;
    RecoverNext(c, given, redis, stale, k, runAt, s.db, s.redis, time);
    QueuesNext(c, s, run[0], p);
    var s1, rest := Next(c, s, run[0]), run[1..];
    if rest == [] {
      NothingLeft(c, s1);
      NotOver(given.(tasks := Recovered(given.tasks, stale, c.maxRetries)),
        RecoveredJobs(redis, given.tasks, stale, c.maxRetries, runAt'), s1, p);
    } else {
      AttendsFirst(p, rest);
      StepOff(c, s1, rest);
      RecoverRound(c, s, p, run[0], rest[0]);
      runAt' := RecoverFrom(
        c, given, redis, stale, k + 1, Retimed(runAt, t, time), Next(c, s1, rest[0]), rest[1..], p);
    }
  }

  lemma EnabledMoves(s: State, a: Action, p: nat)
    requires Enabled(s, a) && !a.Redeliver? && a.p == p
    ensures p < |s.procs| && MayTake(s, s.procs[p], a)
  {
  }

  lemma NothingLeft(c: Config, s: State)
    ensures ValidRun(c, s, []) && After(c, s, []) == s
  {
  }

  lemma ScheduledAfterRecovery(
    c: Config, given: Tables, redis: Redis, stale: seq<nat>, runAt: nat -> real, s: State, p: nat)
    requires forall k :: 0 <= k < |stale| ==> stale[k] < |given.tasks|
    requires Scheduled(given.(tasks := Recovered(given.tasks, stale, c.maxRetries)),
      RecoveredJobs(redis, given.tasks, stale, c.maxRetries, runAt), s, p)
    requires s.procs[p].Idle?
    ensures RecoveredAndScheduled(given, redis, stale, c.maxRetries, runAt, s.db, s.redis)
  {
    hide Recovered, RecoveredJobs, AllWrittenOff, AfterPass, PushedReady;
    RecoveredAllWrittenOff(given, redis, stale, c.maxRetries, runAt);
  }

  /** An undisturbed reaper round: every stale task is written off once, and one pass follows. */
  lemma ReaperRound(c: Config, s: State, stale: seq<nat>, run: seq<Action>, p: nat)
    requires Shape(s) && Enabled(s, Reap(p, stale)) && WellFounded(s.db.tasks)
    requires ValidRun(c, Next(c, s, Reap(p, stale)), run) && Attends(p, run)
    ensures var s' := After(c, Next(c, s, Reap(p, stale)), run);
      p < |s'.procs| && (s'.procs[p].Idle? ==>
        exists runAt :: RecoveredAndScheduled(s.db, s.redis, stale, c.maxRetries, runAt, s'.db, s'.redis))
  {
    var s1 := Next(c, s, Reap(p, stale));
    var runAt: nat -> real := (x: nat) => 0.0;
    assert stale[..0] == [] && StaleBatch(s.db.tasks, stale)[0..] == StaleBatch(s.db.tasks, stale);
    NothingToRecover(s.db.tasks, s.redis, c.maxRetries, runAt);
    assert PartlyRecovered(c, s.db, s.redis, stale, 0, runAt, s1.db, s1.redis);
    hide Shape, Next, ValidRun, After, WellFounded, RecoveredAndScheduled, Recovered, RecoveredJobs, PartlyRecovered;
    runAt := RecoverFrom(c, s.db, s.redis, stale, 0, runAt, s1, run, p);
    var s' := After(c, s1, run);
    if s'.procs[p].Idle? {
      ScheduledAfterRecovery(c, s.db, s.redis, stale, runAt, s', p);
    }
  }

  // ---- execute_task ----

  predicate Succeeds(a: Action, output: string, metrics: Metrics) {
    a.AgentSucceeds? && a.output == output && a.metrics == metrics
  }

  /** What the run's agent did, if it was run. */
  predicate Answers(run: seq<Action>, answer: AgentRun) {
    match answer
    case Returned(output, metrics) =>
      exists k :: 0 <= k < |run| && Succeeds(run[k], output, metrics)
    case Raised => exists k :: 0 <= k < |run| && run[k].AgentFails?
  }

  ghost predicate TaskHandled(
    c: Config, given: Tables, redis: Redis, t: nat, run: seq<Action>, s': State)
  {
    exists answer, runAt ::
      && (t in given.results || Answers(run, answer))
      && AttemptedAndScheduled(given, redis, t, c.maxRetries, answer, runAt, s'.db, s'.redis)
  }

  lemma AnswersLonger(a: Action, run: seq<Action>, answer: AgentRun)
    requires Answers(run, answer)
    ensures Answers([a] + run, answer)
  {
    match answer
    case Returned(output, metrics) =>
      var k :| 0 <= k < |run| && Succeeds(run[k], output, metrics);
      assert ([a] + run)[k + 1] == run[k];
    case Raised =>
      var k :| 0 <= k < |run| && run[k].AgentFails?;
      assert ([a] + run)[k + 1] == run[k];
  }

  lemma HandledLonger(c: Config, given: Tables, redis: Redis, t: nat, a: Action, run: seq<Action>, s': State)
    requires TaskHandled(c, given, redis, t, run, s')
    ensures TaskHandled(c, given, redis, t, [a] + run, s')
  {
    hide AttemptedAndScheduled, Answers;
    var answer, runAt :|
      && (t in given.results || Answers(run, answer))
      && AttemptedAndScheduled(given, redis, t, c.maxRetries, answer, runAt, s'.db, s'.redis);
    if t !in given.results {
      AnswersLonger(a, run, answer);
    }
  }

  /** The tables once t is claimed. */
  function ClaimedTables(db: Tables, t: nat): Tables
    requires t < |db.tasks|
  {
    db.(tasks := db.tasks[t := db.tasks[t].(status := Running)])
  }

  lemma RowChangeWellFounded(tasks: seq<Task>, t: nat, row: Task)
    requires WellFounded(tasks) && t < |tasks| && row.dependsOn == tasks[t].dependsOn
    ensures WellFounded(tasks[t := row])
  {
    var tasks' := tasks[t := row];
    forall i | 0 <= i < |tasks'| ensures Safety.DependenciesEarlier(tasks', i) {
      assert Safety.DependenciesEarlier(tasks, i);
    }
  }

  /** What was recorded, and the pass, make the outcome. */
  lemma RecordedThenScheduled(
    c: Config, given: Tables, redis: Redis, t: nat, answer: AgentRun, runAt: real, recorded: Tables, pushes: Redis,
    s': State, p: nat)
    requires AttemptMade(given, redis, t, c.maxRetries, answer, runAt, recorded, pushes)
    requires Scheduled(recorded, pushes, s', p) && s'.procs[p].Idle?
    ensures AttemptedAndScheduled(given, redis, t, c.maxRetries, answer, runAt, s'.db, s'.redis)
  {
    hide AttemptMade, AfterPass, PushedReady;
  }

  lemma FailedIsWrittenOff(
    c: Config, given: Tables, redis: Redis, t: nat, runAt: nat -> real, recorded: Tables, pushes: Redis)
    requires t < |given.tasks| && t !in given.results
    requires AllWrittenOff(ClaimedTables(given, t), redis, [t], c.maxRetries, runAt, recorded, pushes)
    ensures AttemptMade(given, redis, t, c.maxRetries, Raised, runAt(t), recorded, pushes)
  {
    var claimed := ClaimedTables(given, t);
    assert t in [t];
    OneLetter(claimed.tasks, t, c.maxRetries, runAt, redis, pushes);
    hide QueuedAll;
  }

  lemma OneLetter(
    tasks: seq<Task>, t: nat, maxRetries: int, runAt: nat -> real, jobs: Redis, jobs': Redis)
    requires t < |tasks| && QueuedAll(tasks, [t], maxRetries, runAt, jobs, jobs')
    ensures jobs'.queue == jobs.queue
    ensures tasks[t].attempts + 1 <= maxRetries ==>
      jobs'.delayed == jobs.delayed[t := runAt(t)] && jobs'.dead == jobs.dead
    ensures tasks[t].attempts + 1 > maxRetries ==>
      jobs'.delayed == jobs.delayed && jobs'.dead == jobs.dead + [DeadLetter(t, tasks[t].attempts + 1)]
  {
    hide LettersAt, DelayedAll;
    OneDelayed(tasks, t, maxRetries, runAt, jobs.delayed, jobs'.delayed);
    var letters, at :| LettersAt(tasks, [t], maxRetries, letters, at) && jobs'.dead == jobs.dead + letters;
    OneLetterOrNone(tasks, t, maxRetries, letters, at);
    assert jobs.dead + [] == jobs.dead;
  }

  lemma OneDelayed(
    tasks: seq<Task>, t: nat, maxRetries: int, runAt: nat -> real, given: map<nat, real>, after: map<nat, real>)
    requires t < |tasks| && DelayedAll(tasks, [t], maxRetries, runAt, given, after)
    ensures after == if tasks[t].attempts + 1 <= maxRetries then given[t := runAt(t)] else given
  {
    forall i: nat ensures Retried(tasks, [t], maxRetries, i) <==> i == t && tasks[t].attempts + 1 <= maxRetries {
    }
    hide Retried;
  }

  lemma {:induction false} PlaceAtLeast(at: seq<nat>, k: nat)
    requires k < |at| && forall i, j :: 0 <= i < j < |at| ==> at[i] < at[j]
    ensures at[k] >= k
  {
    if k > 0 {
      PlaceAtLeast(at, k - 1);
      assert at[k - 1] < at[k];
    }
  }

  lemma OneLetterOrNone(tasks: seq<Task>, t: nat, maxRetries: int, letters: seq<DeadLetter>, at: seq<nat>)
    requires t < |tasks| && LettersAt(tasks, [t], maxRetries, letters, at)
    ensures letters == if tasks[t].attempts + 1 <= maxRetries then [] else [DeadLetter(t, tasks[t].attempts + 1)]
  {
    if at != [] {
      PlaceAtLeast(at, |at| - 1);
    }
    assert [t][0] == t;
    assert tasks[t].attempts + 1 > maxRetries ==> 0 in at;
  }

  lemma FromWorking(
    c: Config, given: Tables, redis: Redis, t: nat, s: State, run: seq<Action>, p: nat)
    requires ValidRun(c, s, run) && Attends(p, run) && p < |s.procs| && s.procs[p] == Working(t)
    requires t < |given.tasks| && WellFounded(given.tasks) && t !in given.results
    requires s.db == ClaimedTables(given, t) && s.redis == redis
    ensures var s' := After(c, s, run);
      p < |s'.procs| && (s'.procs[p].Idle? ==> TaskHandled(c, given, redis, t, run, s'))
  {
    hide Shape, Next, Enabled, ValidRun, After, WellFounded, TaskHandled;
    if run == [] {
      NothingLeft(c, s);
    } else {
      AttendsFirst(p, run);
      StepOff(c, s, run);
      EnabledMoves(s, run[0], p);
      if run[0].AgentSucceeds? {
        WorkSucceeds(c, given, redis, t, s, run, p);
      } else {
        WorkFails(c, given, redis, t, s, run, p);
      }
    }
  }

  lemma SuccessStep(c: Config, s: State, a: Action, t: nat)
    requires Shape(s) && Enabled(s, a) && a.AgentSucceeds? && s.procs[a.p] == Working(t) && t < |s.db.tasks|
    requires s.db.tasks[t].status.Running? && t !in s.db.results
    ensures var s' := Next(c, s, a);
      && s'.redis == s.redis && |s'.procs| == |s.procs| && s'.procs[a.p] == Scheduling(0)
      && s'.db == s.db.(
           results := s.db.results[t := Saved(a.output, a.metrics)],
           tasks := s.db.tasks[t := s.db.tasks[t].(status := Completed, metrics := Some(a.metrics))])
  {
    hide Shape, Frame;
  }

  lemma WorkSucceeds(
    c: Config, given: Tables, redis: Redis, t: nat, s: State, run: seq<Action>, p: nat)
    requires ValidRun(c, s, run) && Attends(p, run) && p < |s.procs| && s.procs[p] == Working(t)
    requires t < |given.tasks| && WellFounded(given.tasks) && t !in given.results
    requires s.db == ClaimedTables(given, t) && s.redis == redis
    requires run != [] && run[0].AgentSucceeds? && run[0].p == p
    ensures var s' := After(c, s, run);
      p < |s'.procs| && (s'.procs[p].Idle? ==> TaskHandled(c, given, redis, t, run, s'))
  {
    hide Shape, Next, Enabled, ValidRun, After, WellFounded, Scheduled, AttemptedAndScheduled;
    AttendsFirst(p, run);
    StepOff(c, s, run);
    var a, s1 := run[0], Next(c, s, run[0]);
    SuccessStep(c, s, a, t);
    RowChangeWellFounded(given.tasks, t, s1.db.tasks[t]);
    assert s1.db.tasks == given.tasks[t := s1.db.tasks[t]];
    ScheduleFrom(c, s1, run[1..], p);
    var answer, s' := Returned(a.output, a.metrics), After(c, s, run);
    assert AttemptMade(given, redis, t, c.maxRetries, answer, 0.0, s1.db, s1.redis);
    ScheduledHas(s1.db, s1.redis, s', p);
    if s'.procs[p].Idle? {
      assert Answers(run, answer);
      RecordedThenScheduled(c, given, redis, t, answer, 0.0, s1.db, s1.redis, s', p);
    }
  }

  lemma ScheduledHas(given: Tables, redis: Redis, s: State, p: nat)
    requires Scheduled(given, redis, s, p)
    ensures p < |s.procs|
  {
  }

  lemma FailureStep(c: Config, s: State, a: Action, t: nat)
    requires Shape(s) && Enabled(s, a) && a.AgentFails? && s.procs[a.p] == Working(t) && t < |s.db.tasks|
    ensures var s' := Next(c, s, a);
      && s'.redis == s.redis && s'.db == s.db && |s'.procs| == |s.procs|
      && s'.procs[a.p] == Recovering([Stale(t, s.db.tasks[t].attempts)])
  {
    hide Shape, Frame;
  }

  lemma WorkFails(
    c: Config, given: Tables, redis: Redis, t: nat, s: State, run: seq<Action>, p: nat)
    requires ValidRun(c, s, run) && Attends(p, run) && p < |s.procs| && s.procs[p] == Working(t)
    requires t < |given.tasks| && WellFounded(given.tasks) && t !in given.results
    requires s.db == ClaimedTables(given, t) && s.redis == redis
    requires run != [] && run[0].p == p && !run[0].AgentSucceeds?
    ensures var s' := After(c, s, run);
      p < |s'.procs| && (s'.procs[p].Idle? ==> TaskHandled(c, given, redis, t, run, s'))
  {
    var claimed := ClaimedTables(given, t);
    AttendsFirst(p, run);
    StepOff(c, s, run);
    EnabledMoves(s, run[0], p);
    assert run[0].AgentFails?;
    hide Shape, Next, Enabled, ValidRun, After, Scheduled, AttemptedAndScheduled, MayTake;
    var s1 := Next(c, s, run[0]);
    FailureStep(c, s, run[0], t);
    RowChangeWellFounded(given.tasks, t, claimed.tasks[t]);
    var runAt: nat -> real := (x: nat) => 0.0;
    NothingToRecover(claimed.tasks, redis, c.maxRetries, runAt);
    assert [t][..0] == [];
    assert StaleBatch(claimed.tasks, [t])[0..] == [Stale(t, claimed.tasks[t].attempts)];
    assert PartlyRecovered(c, claimed, redis, [t], 0, runAt, s1.db, s1.redis);
    hide WellFounded, PartlyRecovered, Recovered, RecoveredJobs;
    runAt := RecoverFrom(c, claimed, redis, [t], 0, runAt, s1, run[1..], p);
    var s' := After(c, s, run);
    var recorded := claimed.(tasks := Recovered(claimed.tasks, [t], c.maxRetries));
    var pushes := RecoveredJobs(redis, claimed.tasks, [t], c.maxRetries, runAt);
    ScheduledHas(recorded, pushes, s', p);
    if s'.procs[p].Idle? {
      RecoveredAllWrittenOff(claimed, redis, [t], c.maxRetries, runAt);
      FailedIsWrittenOff(c, given, redis, t, runAt, recorded, pushes);
      RecordedThenScheduled(c, given, redis, t, Raised, runAt(t), recorded, pushes, s', p);
      assert Answers(run, Raised);
    }
  }

  lemma CheckStep(c: Config, s: State, a: Action, t: nat)
    requires Shape(s) && Enabled(s, a) && a.CheckResult? && s.procs[a.p] == Claimed(t) && t < |s.db.tasks|
    requires s.db.tasks[t].status.Running?
    ensures var s' := Next(c, s, a);
      && s'.redis == s.redis && |s'.procs| == |s.procs|
      && (t in s.db.results ==>
           && s'.procs[a.p] == Scheduling(0)
           && s'.db == s.db.(tasks := s.db.tasks[t := s.db.tasks[t].(status := Completed)]))
      && (t !in s.db.results ==> s'.procs[a.p] == Working(t) && s'.db == s.db)
  {
    hide Shape, Frame;
  }

  lemma FromClaimed(
    c: Config, given: Tables, redis: Redis, t: nat, s: State, run: seq<Action>, p: nat)
    requires ValidRun(c, s, run) && Attends(p, run) && p < |s.procs| && s.procs[p] == Claimed(t)
    requires t < |given.tasks| && WellFounded(given.tasks)
    requires s.db == ClaimedTables(given, t) && s.redis == redis
    ensures var s' := After(c, s, run);
      p < |s'.procs| && (s'.procs[p].Idle? ==> TaskHandled(c, given, redis, t, run, s'))
  {
    hide Shape, Next, Enabled, ValidRun, After, WellFounded, Scheduled, AttemptedAndScheduled;
    if run == [] {
      NothingLeft(c, s);
    } else {
      AttendsFirst(p, run);
      StepOff(c, s, run);
      EnabledMoves(s, run[0], p);
      CheckStep(c, s, run[0], t);
      var s1, s' := Next(c, s, run[0]), After(c, s, run);
      if t in given.results {
        RowChangeWellFounded(given.tasks, t, s1.db.tasks[t]);
        assert s1.db.tasks == given.tasks[t := s1.db.tasks[t]];
        ScheduleFrom(c, s1, run[1..], p);
        assert AttemptMade(given, redis, t, c.maxRetries, Raised, 0.0, s1.db, s1.redis);
        ScheduledHas(s1.db, s1.redis, s', p);
        if s'.procs[p].Idle? {
          RecordedThenScheduled(c, given, redis, t, Raised, 0.0, s1.db, s1.redis, s', p);
        }
      } else {
        FromWorking(c, given, redis, t, s1, run[1..], p);
        hide TaskHandled;
        if s'.procs[p].Idle? {
          HandledLonger(c, given, redis, t, run[0], run[1..], s');
          assert [run[0]] + run[1..] == run;
        }
      }
    }
  }

  lemma ClaimStep(c: Config, s: State, a: Action, t: nat)
    requires Shape(s) && Enabled(s, a) && a.Claim? && s.procs[a.p] == Holds(t)
    ensures t < |s.db.tasks|
    ensures var s' := Next(c, s, a);
      && s'.redis == s.redis && |s'.procs| == |s.procs|
      && if s.db.tasks[t].status == Pending || s.db.tasks[t].status == Retrying
         then s'.procs[a.p] == Claimed(t) && s'.db == ClaimedTables(s.db, t)
         else s'.procs[a.p] == Idle && s'.db == s.db
  {
    assert InRange(s, s.procs[a.p]);
    hide Shape, Frame;
  }

  /**
   * A delivery of a task's job, handled without interference, has exactly the outcome
   * of ExecuteTask: nothing if the task cannot be claimed; otherwise the attempt of
   * the run's own agent is recorded, or an existing result kept, and a full pass follows.
   */
  lemma TaskDelivery(c: Config, s: State, run: seq<Action>, p: nat, t: nat)
    requires ValidRun(c, s, run) && Attends(p, run) && p < |s.procs| && s.procs[p] == Holds(t)
    requires WellFounded(s.db.tasks)
    ensures var s' := After(c, s, run);
      p < |s'.procs| && (s'.procs[p].Idle? ==>
        t < |s.db.tasks| &&
        if s.db.tasks[t].status == Pending || s.db.tasks[t].status == Retrying
        then TaskHandled(c, s.db, s.redis, t, run, s')
        else s'.db == s.db && s'.redis == s.redis)
  {
    hide Shape, Next, Enabled, ValidRun, After, WellFounded, TaskHandled;
    if run == [] {
      NothingLeft(c, s);
    } else {
      AttendsFirst(p, run);
      StepOff(c, s, run);
      EnabledMoves(s, run[0], p);
      ClaimStep(c, s, run[0], t);
      var s1, s' := Next(c, s, run[0]), After(c, s, run);
      if s.db.tasks[t].status == Pending || s.db.tasks[t].status == Retrying {
        FromClaimed(c, s.db, s.redis, t, s1, run[1..], p);
        if s'.procs[p].Idle? {
          HandledLonger(c, s.db, s.redis, t, run[0], run[1..], s');
          assert [run[0]] + run[1..] == run;
        }
      } else {
        IdleRests(c, s1, run[1..], p);
      }
    }
  }

  // ---- plan_execution ----

  lemma GuardStep(c: Config, s: State, a: Action)
    requires Shape(s) && Enabled(s, a) && a.GuardPlan?
    ensures var s' := Next(c, s, a);
      && s'.redis == s.redis && |s'.procs| == |s.procs|
      && if s.db.execution.status == ExecPending
         then s'.procs[a.p] == Planning && s'.db == s.db.(execution := s.db.execution.(status := ExecPlanning))
         else s'.procs[a.p] == Idle && s'.db == s.db
  {
    hide Shape, Frame;
  }

  lemma PlanStep(c: Config, s: State, a: Action)
    requires Shape(s) && Enabled(s, a) && (a.PlanFails? || a.PlanCommits?)
    ensures var s' := Next(c, s, a);
      && s'.redis == s.redis && |s'.procs| == |s.procs|
      && (a.PlanFails? ==>
           s'.procs[a.p] == Idle && s'.db == s.db.(execution := s.db.execution.(status := ExecFailed)))
      && (a.PlanCommits? ==>
           && s'.procs[a.p] == Planned && s'.db == s.db.(tasks := s'.db.tasks)
           && exists plan ::
             Planning.Follows(a.answer, c.repr, a.snippet, c.maxTasks, plan) && FreshRowsFor(plan, s'.db.tasks))
      && (a.PlanCommits? ==> WellFounded(s'.db.tasks))
  {
    hide Shape, Frame, Planning.PlanOf, Planning.Follows, WellFounded;
    if a.PlanCommits? {
      var plan := Planning.PlanOf(a.answer, c.repr, a.snippet, c.maxTasks);
      Planning.PlanFollowsAnswer(a.answer, c.repr, a.snippet, c.maxTasks);
      PlannedWellFounded(a.answer, c.repr, a.snippet, c.maxTasks);
      assert FreshRowsFor(plan, Next(c, s, a).db.tasks);
    }
  }

  lemma StartStep(c: Config, s: State, a: Action)
    requires Shape(s) && Enabled(s, a) && a.StartRunning? && s.db.execution.status == ExecPlanning
    ensures var s' := Next(c, s, a);
      && s'.redis == s.redis && |s'.procs| == |s.procs| && s'.procs[a.p] == Scheduling(0)
      && s'.db == s.db.(execution := s.db.execution.(status := ExecRunning))
  {
    hide Shape, Frame;
  }

  /** What became of a won plan job. */
  ghost predicate PlanHandled(c: Config, given: Tables, redis: Redis, run: seq<Action>, s': State) {
    || ((exists k :: 0 <= k < |run| && run[k].PlanFails?)
        && s'.db == given.(execution := given.execution.(status := ExecFailed)) && s'.redis == redis)
    || (exists k :: 0 <= k < |run| && PlanFromAction(c, given, redis, run[k], s'))
  }

  ghost predicate PlanFromAction(c: Config, given: Tables, redis: Redis, a: Action, s': State) {
    a.PlanCommits? &&
    PlannedAndScheduled(given, redis, a.answer, c.repr, a.snippet, c.maxTasks, s'.db, s'.redis)
  }

  lemma FromPlanned(c: Config, given: Tables, redis: Redis, a: Action, s: State, run: seq<Action>, p: nat)
    requires ValidRun(c, s, run) && Attends(p, run) && p < |s.procs| && s.procs[p] == Planned
    requires a.PlanCommits? && s.redis == redis && WellFounded(s.db.tasks)
    requires s.db == given.(tasks := s.db.tasks, execution := given.execution.(status := ExecPlanning))
    requires exists plan ::
      Planning.Follows(a.answer, c.repr, a.snippet, c.maxTasks, plan) && FreshRowsFor(plan, s.db.tasks)
    ensures var s' := After(c, s, run);
      p < |s'.procs| && (s'.procs[p].Idle? ==> PlanFromAction(c, given, redis, a, s'))
  {
    hide Shape, Next, Enabled, ValidRun, After, WellFounded, Planning.Follows, AfterPass, PushedReady, FreshRowsFor;
    if run == [] {
      NothingLeft(c, s);
    } else {
      AttendsFirst(p, run);
      StepOff(c, s, run);
      EnabledMoves(s, run[0], p);
      StartStep(c, s, run[0]);
      var plan :| Planning.Follows(a.answer, c.repr, a.snippet, c.maxTasks, plan) && FreshRowsFor(plan, s.db.tasks);
      ScheduleFrom(c, Next(c, s, run[0]), run[1..], p);
    }
  }

  lemma FromPlanning(c: Config, given: Tables, redis: Redis, s: State, run: seq<Action>, p: nat)
    requires ValidRun(c, s, run) && Attends(p, run) && p < |s.procs| && s.procs[p] == Planning
    requires s.db == given.(execution := given.execution.(status := ExecPlanning)) && s.redis == redis
    ensures var s' := After(c, s, run);
      p < |s'.procs| && (s'.procs[p].Idle? ==> PlanHandled(c, given, redis, run, s'))
  {
    hide Shape, Next, Enabled, ValidRun, After, WellFounded, Planning.Follows, PlannedAndScheduled, FreshRowsFor;
    if run == [] {
      NothingLeft(c, s);
    } else {
      AttendsFirst(p, run);
      StepOff(c, s, run);
      EnabledMoves(s, run[0], p);
      PlanStep(c, s, run[0]);
      if run[0].PlanFails? {
        IdleRests(c, Next(c, s, run[0]), run[1..], p);
      } else {
        FromPlanned(c, given, redis, run[0], Next(c, s, run[0]), run[1..], p);
      }
    }
  }

  lemma PlanHandledLonger(c: Config, given: Tables, redis: Redis, a: Action, run: seq<Action>, s': State)
    requires PlanHandled(c, given, redis, run, s')
    ensures PlanHandled(c, given, redis, [a] + run, s')
  {
    hide PlanFromAction;
    var longer := [a] + run;
    if k :| 0 <= k < |run| && PlanFromAction(c, given, redis, run[k], s') {
      assert longer[k + 1] == run[k];
    } else {
      var k :| 0 <= k < |run| && run[k].PlanFails?;
      assert longer[k + 1] == run[k];
    }
  }

  /**
   * A delivery of the plan job, handled without interference, has the outcome of
   * PlanExecution: nothing unless the execution was PENDING; else a failure, or rows
   * that follow the committed answer and a full pass over them.
   */
  lemma PlanDelivery(c: Config, s: State, run: seq<Action>, p: nat)
    requires ValidRun(c, s, run) && Attends(p, run) && p < |s.procs| && s.procs[p] == HoldsPlan
    ensures var s' := After(c, s, run);
      p < |s'.procs| && (s'.procs[p].Idle? ==>
        if s.db.execution.status == ExecPending then PlanHandled(c, s.db, s.redis, run, s')
        else s'.db == s.db && s'.redis == s.redis)
  {
    hide Shape, Next, Enabled, ValidRun, After, PlanHandled;
    if run == [] {
      NothingLeft(c, s);
    } else {
      AttendsFirst(p, run);
      StepOff(c, s, run);
      EnabledMoves(s, run[0], p);
      GuardStep(c, s, run[0]);
      var s1, s' := Next(c, s, run[0]), After(c, s, run);
      if s.db.execution.status == ExecPending {
        FromPlanning(c, s.db, s.redis, s1, run[1..], p);
        if s'.procs[p].Idle? {
          PlanHandledLonger(c, s.db, s.redis, run[0], run[1..], s');
          assert [run[0]] + run[1..] == run;
        }
      } else {
        IdleRests(c, s1, run[1..], p);
      }
    }
  }

  // ---- promote_due and dequeue ----

  lemma RemoveStep(c: Config, s: State, a: Action)
    requires Shape(s) && Enabled(s, a) && a.PromoteRemove? && s.procs[a.p].due[0] in s.redis.delayed
    ensures var s', due := Next(c, s, a), s.procs[a.p].due;
      && s'.db == s.db && |s'.procs| == |s.procs| && s'.procs[a.p] == Moving(due[0], due[1..])
      && s'.redis == s.redis.(delayed := s.redis.delayed - {due[0]})
  {
    hide Shape, Frame;
  }

  lemma PushStep(c: Config, s: State, a: Action)
    requires Shape(s) && Enabled(s, a) && a.PromotePush?
    ensures var s', q := Next(c, s, a), s.procs[a.p];
      && s'.db == s.db && |s'.procs| == |s.procs| && s'.procs[a.p] == Promoting(q.due)
      && s'.redis == s.redis.(queue := s.redis.queue + [TaskJob(q.task)])
  {
    hide Shape, Frame;
  }

  lemma EndStep(c: Config, s: State, a: Action)
    requires Shape(s) && Enabled(s, a) && a.EndPromotion?
    ensures var s' := Next(c, s, a);
      s'.db == s.db && s'.redis == s.redis && |s'.procs| == |s.procs| && s'.procs[a.p] == Idle
  {
    hide Shape, Frame;
  }

  /** All of `due` moved, in order, each once. */
  predicate Promoted(before: Redis, after: Redis, due: seq<nat>) {
    && after.dead == before.dead
    && after.queue == before.queue + Jobs(due)
    && after.delayed == before.delayed - set t | t in due
  }

  lemma PromotedFirst(before: Redis, middle: Redis, after: Redis, due: seq<nat>)
    requires due != [] && Promoted(middle, after, due[1..])
    requires middle == before.(
      delayed := before.delayed - {due[0]}, queue := before.queue + [TaskJob(due[0])])
    ensures Promoted(before, after, due)
  {
    hide Jobs;
    JobsFirst(due, before.queue);
    MembersFirst(due, before.delayed);
  }

  lemma JobsFirst(due: seq<nat>, queue: seq<Job>)
    requires due != []
    ensures queue + [TaskJob(due[0])] + Jobs(due[1..]) == queue + Jobs(due)
  {
    assert Jobs(due) == [TaskJob(due[0])] + Jobs(due[1..]);
  }

  lemma MembersFirst(due: seq<nat>, delayed: map<nat, real>)
    requires due != []
    ensures delayed - {due[0]} - (set t | t in due[1..]) == delayed - (set t | t in due)
  {
    var rest, all := set t | t in due[1..], set t | t in due;
    assert due == [due[0]] + due[1..];
    assert all == {due[0]} + rest;
  }

  lemma {:induction false} PromotionFrom(c: Config, s: State, due: seq<nat>, run: seq<Action>, p: nat)
    requires ValidRun(c, s, run) && Attends(p, run) && p < |s.procs| && s.procs[p] == Promoting(due)
    requires Distinct(due) && forall k :: 0 <= k < |due| ==> due[k] in s.redis.delayed
    ensures var s' := After(c, s, run);
      p < |s'.procs| && (s'.procs[p].Idle? ==> s'.db == s.db && Promoted(s.redis, s'.redis, due))
    decreases |run|
  {
    hide Shape, Next, Enabled, Promoted;
    if run != [] {
      AttendsFirst(p, run);
      StepOff(c, s, run);
      EnabledMoves(s, run[0], p);
      hide ValidRun, After;
      var s1, rest := Next(c, s, run[0]), run[1..];
      if due == [] {
        EndStep(c, s, run[0]);
        IdleRests(c, s1, rest, p);
        PromotedNone(s.redis);
      } else {
        RemoveStep(c, s, run[0]);
        if rest == [] {
          NothingLeft(c, s1);
        } else {
          AttendsFirst(p, rest);
          StepOff(c, s1, rest);
          EnabledMoves(s1, rest[0], p);
          PushStep(c, s1, rest[0]);
          var s2 := Next(c, s1, rest[0]);
          RestDue(due, s.redis.delayed);
          PromotionFrom(c, s2, due[1..], rest[1..], p);
          if After(c, s, run).procs[p].Idle? {
            PromotedFirst(s.redis, s2.redis, After(c, s, run).redis, due);
          }
        }
      }
    }
  }

  lemma PromotedNone(redis: Redis)
    ensures Promoted(redis, redis, [])
  {
  }

  lemma RestDue(due: seq<nat>, delayed: map<nat, real>)
    requires due != [] && Distinct(due) && forall k :: 0 <= k < |due| ==> due[k] in delayed
    ensures Distinct(due[1..]) && forall k :: 0 <= k < |due[1..]| ==> due[1..][k] in delayed - {due[0]}
  {
  }

  /** An undisturbed promoter round moves exactly the members it read, in order, each once. */
  lemma PromoterRound(c: Config, s: State, due: seq<nat>, now: real, run: seq<Action>, p: nat)
    requires Shape(s) && Enabled(s, PromoteRead(p, due, now))
    requires ValidRun(c, Next(c, s, PromoteRead(p, due, now)), run) && Attends(p, run)
    ensures var s' := After(c, Next(c, s, PromoteRead(p, due, now)), run);
      p < |s'.procs| && (s'.procs[p].Idle? ==> s'.db == s.db && Promoted(s.redis, s'.redis, due))
    ensures forall k :: 0 <= k < |due| ==> due[k] in s.redis.delayed && s.redis.delayed[due[k]] <= now
  {
    hide Shape, Frame, ValidRun, After, Promoted;
    PromotionFrom(c, Next(c, s, PromoteRead(p, due, now)), due, run, p);
  }

  /** A pop takes the oldest job and nothing else; the process then holds that very job. */
  lemma DequeueTakesOldest(c: Config, s: State, p: nat)
    requires Shape(s) && Enabled(s, Dequeue(p))
    ensures var s' := Next(c, s, Dequeue(p));
      && s.redis.queue == [s.redis.queue[0]] + s'.redis.queue
      && s'.redis.delayed == s.redis.delayed && s'.redis.dead == s.redis.dead && s'.db == s.db
      && |s'.procs| == |s.procs|
      && s'.procs[p] == match s.redis.queue[0] case PlanJob => HoldsPlan case TaskJob(t) => Holds(t)
  {
    hide Shape, Frame;
  }
}
