/**
 * The scheduling pass of the step system, run by one process without
 * interference: every order of the rows, with the session's own updates seen or
 * not, ends in the same tables as Scheduler.ScheduleExecution.
 */
module Confluence {
  import opened Tables
  import opened System
  import opened JobQueues
  import opened Scheduling
  import opened Runs

  /** Only process p moves, and only inside schedule_execution. */
  predicate OnlyPassOf(p: nat, run: seq<Action>) {
    forall k :: 0 <= k < |run| ==> (PassAction(run[k]) || run[k].Publish?) && run[k].p == p
  }

  ghost predicate Visiting(rows: seq<Task>, tasks: seq<Task>, todo: set<nat>) {
    Copies(rows, tasks) && forall i :: i in todo ==> i < |rows| && i < |tasks| && rows[i] == tasks[i]
  }

  ghost predicate NothingLeft(rows: seq<Task>, todo: set<nat>) {
    forall i :: 0 <= i < |rows| && i !in todo ==> !Actionable(rows, i)
  }

  ghost predicate Done(given: Tables, redis: Redis, s: State, pushed: seq<nat>) {
    s.db == given.(tasks := Settled(given.tasks)) && PushedReady(given.tasks, redis, s.redis, pushed)
  }

  /** Where an uninterrupted pass that began on `given` and `redis` stands. */
  ghost predicate Solo(given: Tables, redis: Redis, s: State, q: Proc, pushed: seq<nat>) {
    match q
    case Scheduling(_) => Progress(given, redis, s.db, s.redis, pushed)
    case Scanning(rows, todo, changed, _) =>
      && Progress(given, redis, s.db, s.redis, pushed)
      && Visiting(rows, s.db.tasks, todo)
      && (!changed ==> rows == s.db.tasks && NothingLeft(rows, todo))
    case Publishing(t, rows, todo, _) =>
      && Progress(given, redis, s.db, s.redis.(queue := s.redis.queue + [TaskJob(t)]), pushed)
      && Visiting(rows, s.db.tasks, todo)
    case Finalizing => Done(given, redis, s, pushed)
    case Deciding(verdict) =>
      && Done(given, redis, s, pushed)
      && s.db.tasks != [] && AllTerminal(s.db.tasks) && verdict == VerdictOf(s.db.tasks, s.db.results)
    case Idle => s.db == AfterPass(given) && PushedReady(given.tasks, redis, s.redis, pushed)
    case _ => false
  }

  /** A row the pass has no reason to touch. */
  lemma VisitPassesBy(given: Tables, redis: Redis, s: State, p: nat, i: nat, seesOwn: bool, pushed: seq<nat>)
    requires Shape(s) && p < |s.procs| && s.procs[p].Scanning? && i in s.procs[p].todo
    requires Solo(given, redis, s, s.procs[p], pushed)
    requires i < |s.procs[p].rows| && !Actionable(s.procs[p].rows, i)
    ensures var s' := DoVisit(s, p, i, seesOwn); Solo(given, redis, s', s'.procs[p], pushed)
  {
    hide Progress, Shape, VerdictOf, AfterPass, PushedReady, Done, Doomed, DepsCompleted, Untouched;
  }

  lemma VisitCascades(given: Tables, redis: Redis, s: State, p: nat, i: nat, seesOwn: bool, pushed: seq<nat>)
    returns (pushed': seq<nat>)
    requires Shape(s) && p < |s.procs| && s.procs[p].Scanning? && i in s.procs[p].todo
    requires Solo(given, redis, s, s.procs[p], pushed)
    requires i < |s.procs[p].rows| && Untouched(s.procs[p].rows[i]) && Doomed(s.procs[p].rows, i)
    ensures var s' := DoVisit(s, p, i, seesOwn); Solo(given, redis, s', s'.procs[p], pushed')
  {
    var q, s' := s.procs[p], DoVisit(s, p, i, seesOwn);
    ProgressWellFounded(given, redis, s.db, s.redis, pushed);
    CopyDoomed(q.rows, s.db.tasks, i);
    hide WellFounded, Settled, Progress, Shape, VerdictOf, AfterPass, PushedReady, Done;
    hide Doomed, DepsCompleted, NothingLeft;
    assert PassUpdate(s.db, s'.db, s.redis, s'.redis, i);
    pushed' := ProgressStep(given, redis, s.db, s.redis, s'.db, s'.redis, pushed, i);
    CopiesAfter(q.rows, s.db, s'.db, s.redis, s'.redis, i);
    hide PassUpdate, Copies;
  }

  lemma VisitEnqueues(given: Tables, redis: Redis, s: State, p: nat, i: nat, seesOwn: bool, pushed: seq<nat>)
    returns (pushed': seq<nat>)
    requires Shape(s) && p < |s.procs| && s.procs[p].Scanning? && i in s.procs[p].todo
    requires Solo(given, redis, s, s.procs[p], pushed)
    requires i < |s.procs[p].rows| && Untouched(s.procs[p].rows[i])
    requires !Doomed(s.procs[p].rows, i) && DepsCompleted(s.procs[p].rows, i)
    ensures var s' := DoVisit(s, p, i, seesOwn); Solo(given, redis, s', s'.procs[p], pushed')
  {
    var q, s' := s.procs[p], DoVisit(s, p, i, seesOwn);
    ProgressWellFounded(given, redis, s.db, s.redis, pushed);
    CopyReady(q.rows, s.db.tasks, i);
    hide WellFounded, Settled, Progress, Shape, VerdictOf, AfterPass, PushedReady, Done;
    hide Doomed, DepsCompleted, NothingLeft;
    var jobs := s'.redis.(queue := s'.redis.queue + [TaskJob(i)]);
    assert PassUpdate(s.db, s'.db, s.redis, jobs, i);
    pushed' := ProgressStep(given, redis, s.db, s.redis, s'.db, jobs, pushed, i);
    CopiesAfter(q.rows, s.db, s'.db, s.redis, jobs, i);
    hide PassUpdate, Copies;
  }

  lemma VisitSolo(given: Tables, redis: Redis, s: State, p: nat, i: nat, seesOwn: bool, pushed: seq<nat>)
    returns (pushed': seq<nat>)
    requires Shape(s) && p < |s.procs| && s.procs[p].Scanning? && i in s.procs[p].todo
    requires Solo(given, redis, s, s.procs[p], pushed)
    ensures var s' := DoVisit(s, p, i, seesOwn); Solo(given, redis, s', s'.procs[p], pushed')
  {
    var rows := s.procs[p].rows;
    assert i < |rows|;
    hide Solo, Shape, Doomed, DepsCompleted, Untouched, DoVisit;
    if Untouched(rows[i]) && Doomed(rows, i) {
      pushed' := VisitCascades(given, redis, s, p, i, seesOwn, pushed);
    } else if Untouched(rows[i]) && DepsCompleted(rows, i) {
      pushed' := VisitEnqueues(given, redis, s, p, i, seesOwn, pushed);
    } else {
      VisitPassesBy(given, redis, s, p, i, seesOwn, pushed);
      pushed' := pushed;
    }
  }

  lemma SoloMove(c: Config, given: Tables, redis: Redis, s: State, a: Action, pushed: seq<nat>)
    requires Shape(s) && Enabled(s, a)
    requires
      || a.TakeSnapshot? || a.Publish? || a.ReadForFinalize? || a.CommitVerdict?
      || (a.EndPass? && s.procs[a.p].changed)
    requires Solo(given, redis, s, s.procs[a.p], pushed)
    ensures Solo(given, redis, Next(c, s, a), Next(c, s, a).procs[a.p], pushed)
  {
    hide Shape, Progress, Settled, PushedReady, VerdictOf, Actionable, Frame, DoVisit, WriteVerdict;
  }

  lemma SoloStep(c: Config, given: Tables, redis: Redis, s: State, a: Action, pushed: seq<nat>)
    returns (pushed': seq<nat>)
    requires Shape(s) && Enabled(s, a) && (PassAction(a) || a.Publish?)
    requires Solo(given, redis, s, s.procs[a.p], pushed)
    ensures Solo(given, redis, Next(c, s, a), Next(c, s, a).procs[a.p], pushed')
  {
    pushed' := pushed;
    if a.Visit? {
      pushed' := VisitSolo(given, redis, s, a.p, a.row, a.seesOwn, pushed);
      hide Shape, Solo, DoVisit;
    } else if a.EndPass? && !s.procs[a.p].changed {
      ProgressEnds(given, redis, s.db, s.redis, pushed);
      hide Shape, Progress, Settled, PushedReady, VerdictOf;
    } else {
      SoloMove(c, given, redis, s, a, pushed);
      hide Shape, Solo, Next;
    }
  }

  lemma {:induction false} SoloRun(
    c: Config, given: Tables, redis: Redis, s: State, run: seq<Action>, p: nat, pushed: seq<nat>)
    returns (pushed': seq<nat>)
    requires ValidRun(c, s, run) && OnlyPassOf(p, run) && p < |s.procs|
    requires Solo(given, redis, s, s.procs[p], pushed)
    ensures var s' := After(c, s, run); p < |s'.procs| && Solo(given, redis, s', s'.procs[p], pushed')
    decreases |run|
  {
    pushed' := pushed;
    if run != [] {
      pushed' := SoloStep(c, given, redis, s, run[0], pushed);
      hide Solo, Next, Shape, Enabled;
      pushed' := SoloRun(c, given, redis, Next(c, s, run[0]), run[1..], p, pushed');
    }
  }

  /** Every uninterrupted pass ends in the fixpoint, finalized, with exactly the ready tasks pushed. */
  lemma UninterruptedPass(c: Config, s: State, run: seq<Action>, p: nat)
    requires WellFounded(s.db.tasks) && p < |s.procs| && s.procs[p].Scheduling?
    requires ValidRun(c, s, run) && OnlyPassOf(p, run)
    ensures var s' := After(c, s, run);
      p < |s'.procs| && (s'.procs[p].Idle? ==>
        && s'.db == AfterPass(s.db)
        && exists pushed :: PushedReady(s.db.tasks, s.redis, s'.redis, pushed))
  {
    ProgressInitially(s.db, s.redis);
    hide WellFounded, Progress, Shape, Enabled, Next, AfterPass, PushedReady;
    var pushed := SoloRun(c, s.db, s.redis, s, run, p, []);
  }

  /** Two passes over the same rows agree on the tables and push the same jobs, in possibly different orders. */
  lemma PassesAgree(c: Config, s: State, run1: seq<Action>, run2: seq<Action>, p: nat)
    requires WellFounded(s.db.tasks) && p < |s.procs| && s.procs[p].Scheduling?
    requires ValidRun(c, s, run1) && OnlyPassOf(p, run1) && ValidRun(c, s, run2) && OnlyPassOf(p, run2)
    requires p < |After(c, s, run1).procs| && After(c, s, run1).procs[p].Idle?
    requires p < |After(c, s, run2).procs| && After(c, s, run2).procs[p].Idle?
    ensures After(c, s, run1).db == After(c, s, run2).db
    ensures multiset(After(c, s, run1).redis.queue) == multiset(After(c, s, run2).redis.queue)
  {
    UninterruptedPass(c, s, run1, p);
    UninterruptedPass(c, s, run2, p);
    PushesAgree(s.db.tasks, s.redis, After(c, s, run1).redis, After(c, s, run2).redis);
  }

  lemma PushesAgree(tasks: seq<Task>, redis: Redis, r1: Redis, r2: Redis)
    requires exists pushed :: PushedReady(tasks, redis, r1, pushed)
    requires exists pushed :: PushedReady(tasks, redis, r2, pushed)
    ensures multiset(r1.queue) == multiset(r2.queue)
  {
    hide ReadyIn;
    var xs :| PushedReady(tasks, redis, r1, xs);
    var ys :| PushedReady(tasks, redis, r2, ys);
    JobsCounted(xs);
    JobsCounted(ys);
    forall job ensures multiset(Jobs(xs))[job] == multiset(Jobs(ys))[job] {
      assert job.TaskJob? && job.task in xs <==> job.TaskJob? && job.task in ys;
    }
    assert multiset(Jobs(xs)) == multiset(Jobs(ys));
  }

  lemma {:induction false} JobsCounted(xs: seq<nat>)
    requires Distinct(xs)
    ensures forall job :: multiset(Jobs(xs))[job] == if job.TaskJob? && job.task in xs then 1 else 0
  {
    if xs != [] {
      var front, last := xs[..|xs| - 1], xs[|xs| - 1];
      JobsCounted(front);
      assert Jobs(xs) == Jobs(front) + [TaskJob(last)];
      assert xs == front + [last] && last !in front;
    }
  }
}
