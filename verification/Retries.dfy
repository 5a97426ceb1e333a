/** The attempt numbers that _retry_or_fail hands to _backoff over a run, and the time a task then waits. */
module Retries {
  import opened System
  import opened Safety
  import opened Tokens
  import opened Termination
  import opened Runs
  import Backoff
  import Planning
  import opened Wakeups

  /** The action schedules a retry of t. */
  predicate SchedulesRetry(c: Config, s: State, a: Action, t: nat)
    requires Enabled(s, a)
  {
    t < |s.db.tasks| && WritesAttempts(s, a, t) && s.procs[a.p].batch[0].attemptsRead + 1 <= c.maxRetries
  }

  /** The attempt numbers of the retries of t that the run schedules, in order. */
  ghost function RetryNumbers(c: Config, s: State, run: seq<Action>, t: nat): seq<nat>
    requires ValidRun(c, s, run)
    decreases |run|
  {
    if run == [] then []
    else
      (if SchedulesRetry(c, s, run[0], t) then [s.procs[run[0].p].batch[0].attemptsRead + 1] else [])
      + RetryNumbers(c, Next(c, s, run[0]), run[1..], t)
  }

  function AttemptsOf(s: State, t: nat): nat {
    if t < |s.db.tasks| then s.db.tasks[t].attempts else 0
  }

  /** A fresh read makes every effective update count the attempts up by one, and nothing else changes them. */
  lemma FreshAttempts(c: Config, s: State, a: Action, t: nat)
    requires 1 <= c.maxTasks && Invariant(c, s) && Enabled(s, a)
    requires t < |s.db.tasks| && WritesAttempts(s, a, t) ==>
      s.procs[a.p].batch[0].attemptsRead == s.db.tasks[t].attempts
    ensures AttemptsOf(Next(c, s, a), t) ==
      AttemptsOf(s, t) + if t < |s.db.tasks| && WritesAttempts(s, a, t) then 1 else 0
  {
    if a.PlanCommits? {
      NoRowsWhilePlanning(c, s, a.p);
      hide Invariant, Planning.PlanOf;
    } else if a.RecoverOne? {
      hide Core, Sized, TokensConserved, DeadLettersExact, Awake, RoundsBounded, Frame;
    } else if t < |s.db.tasks| {
      AttemptsStay(c, s, a, t);
      hide Invariant, Next, Enabled;
    }
  }

  /** In a run without stale reads the retries of a task are numbered on from its attempts, without gaps. */
  lemma {:induction false} RetriesNumbered(c: Config, s: State, run: seq<Action>, t: nat)
    requires 1 <= c.maxTasks && Invariant(c, s) && ValidRun(c, s, run) && FreshReads(c, s, run)
    ensures NumberedFrom(RetryNumbers(c, s, run, t), AttemptsOf(s, t), c.maxRetries)
    decreases |run|
  {
    hide Core, Shape, Sized, TokensConserved, DeadLettersExact, Awake, RoundsBounded;
    if run != [] {
      var written := t < |s.db.tasks| && WritesAttempts(s, run[0], t);
      assert written ==> s.procs[run[0].p].batch[0].attemptsRead == AttemptsOf(s, t);
      FreshAttempts(c, s, run[0], t);
      InvariantStep(c, s, run[0]);
      hide Invariant, Next, AttemptsOf, Enabled, WritesAttempts, NumberedFrom;
      RetriesNumbered(c, Next(c, s, run[0]), run[1..], t);
      var rest := RetryNumbers(c, Next(c, s, run[0]), run[1..], t);
      NumberedOn(rest, AttemptsOf(s, t), written, c.maxRetries);
    }
  }

  /** after + 1, after + 2, ..., none above the limit. */
  predicate NumberedFrom(numbers: seq<nat>, after: nat, limit: int) {
    forall k :: 0 <= k < |numbers| ==> numbers[k] == after + 1 + k && numbers[k] <= limit
  }

  lemma NumberedOn(rest: seq<nat>, attempts: nat, written: bool, limit: int)
    requires NumberedFrom(rest, attempts + if written then 1 else 0, limit)
    ensures NumberedFrom((if written && attempts + 1 <= limit then [attempts + 1] else []) + rest, attempts, limit)
  {
    if rest != [] {
      assert rest[0] <= limit;
    }
  }

  /** Time waited before retries with the given attempt numbers. */
  function WaitFor(base: real, cap: real, numbers: seq<nat>, factors: seq<real>): real
    requires |numbers| == |factors| && forall k :: 0 <= k < |numbers| ==> numbers[k] >= 1
  {
    if numbers == [] then 0.0
    else
      var last := |numbers| - 1;
      WaitFor(base, cap, numbers[..last], factors[..last]) + Backoff.Delay(base, cap, numbers[last], factors[last])
  }

  lemma {:induction false} WaitIsTotal(base: real, cap: real, numbers: seq<nat>, factors: seq<real>)
    requires |numbers| == |factors| && forall k :: 0 <= k < |numbers| ==> numbers[k] == k + 1
    ensures WaitFor(base, cap, numbers, factors) == Backoff.TotalWait(base, cap, factors)
  {
    hide Backoff.Delay;
    if numbers != [] {
      var last := |numbers| - 1;
      WaitIsTotal(base, cap, numbers[..last], factors[..last]);
    }
  }

  /**
   * From the start of an execution, without stale reads: the retries of a task are
   * numbered 1, 2, ... up to at most the limit, and whatever the jitter it waits for
   * them at most 1.2 times the smaller closed form for that many retries.
   */
  lemma RetriesWait(c: Config, n: nat, run: seq<Action>, t: nat, base: real, cap: real, factors: seq<real>)
    requires 1 <= c.maxTasks && ValidRun(c, Initial(n), run) && FreshReads(c, Initial(n), run)
    requires base >= 0.0 && cap >= 0.0
    requires |factors| == |RetryNumbers(c, Initial(n), run, t)|
    requires forall k :: 0 <= k < |factors| ==> 0.8 <= factors[k] <= 1.2
    ensures var numbers := RetryNumbers(c, Initial(n), run, t);
      && (forall k :: 0 <= k < |numbers| ==> numbers[k] == k + 1)
      && (numbers != [] ==> |numbers| <= c.maxRetries)
      && WaitFor(base, cap, numbers, factors) <= 1.2 * Backoff.ClosedForm(base, cap, |numbers|)
  {
    var numbers := RetryNumbers(c, Initial(n), run, t);
    InvariantInitially(c, n);
    RetriesNumbered(c, Initial(n), run, t);
    hide ValidRun, FreshReads, RetryNumbers, Invariant, Backoff.ClosedForm, WaitFor, Backoff.TotalWait;
    if numbers != [] {
      assert numbers[|numbers| - 1] == |numbers|;
    }
    WaitIsTotal(base, cap, numbers, factors);
    Backoff.TotalWaitBounded(base, cap, factors);
  }
}
