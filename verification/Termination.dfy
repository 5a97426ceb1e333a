/**
 * Work is bounded: every step of a run that the environment did not cause is
 * paid for by a natural-number rank, and the `while changed` loop of a
 * scheduling pass makes at most one iteration more than there are tasks.
 */
module Termination {
  import opened Tables
  import opened Sums
  import opened System
  import opened Safety
  import opened Preservation
  import Planning

  // ---- the pass loop ----

  function FreshWeight(row: Task): nat {
    if row.enqueued then 0 else 1
  }

  /** Rows no pass has settled yet. */
  function FreshRows(tasks: seq<Task>): nat {
    Total(tasks, FreshWeight)
  }

  /** Successful updates the pass has made since the round it is in began, as far as `changed` tells. */
  predicate WithinRounds(tasks: seq<Task>, q: Proc) {
    match q
    case Scheduling(rounds) => rounds + FreshRows(tasks) <= |tasks|
    case Scanning(_, _, changed, rounds) => rounds + (if changed then 1 else 0) + FreshRows(tasks) <= |tasks|
    case Publishing(_, _, _, rounds) => rounds + 1 + FreshRows(tasks) <= |tasks|
    case _ => true
  }

  ghost predicate RoundsBounded(s: State) {
    forall p :: 0 <= p < |s.procs| ==> WithinRounds(s.db.tasks, s.procs[p])
  }

  /** Interference never adds a fresh row. */
  lemma FreshNeverRises(s: State, s': State)
    requires Evolves(s, s')
    ensures FreshRows(s'.db.tasks) <= FreshRows(s.db.tasks)
  {
    forall i | 0 <= i < |s.db.tasks| ensures FreshWeight(s'.db.tasks[i]) <= FreshWeight(s.db.tasks[i]) {
      assert RowEvolves(s.db.tasks[i], s.history[i], s'.db.tasks[i], s'.history[i]);
    }
    TotalMonotone(s'.db.tasks, s.db.tasks, FreshWeight);
  }

  lemma OthersWithinRounds(s: State, s': State, p: nat)
    requires RoundsBounded(s) && Evolves(s, s')
    requires p < |s.procs| == |s'.procs| && s'.procs == s.procs[p := s'.procs[p]]
    requires WithinRounds(s'.db.tasks, s'.procs[p])
    ensures RoundsBounded(s')
  {
    FreshNeverRises(s, s');
    forall k | 0 <= k < |s'.procs| ensures WithinRounds(s'.db.tasks, s'.procs[k]) {
      assert WithinRounds(s.db.tasks, s.procs[k]);
    }
  }

  lemma VisitWithinRounds(c: Config, s: State, p: nat, i: nat, seesOwn: bool)
    requires Core(c, s) && Shape(s) && p < |s.procs| && s.procs[p].Scanning? && i in s.procs[p].todo
    requires WithinRounds(s.db.tasks, s.procs[p])
    ensures WithinRounds(DoVisit(s, p, i, seesOwn).db.tasks, DoVisit(s, p, i, seesOwn).procs[p])
  {
    var q, s' := s.procs[p], DoVisit(s, p, i, seesOwn);
    assert ProcOk(c, s, q) && InRange(s, q);
    if Doomed(q.rows, i) {
      SnapshotDoomed(s, q.rows, i);
      DoomedNotReleased(c, s, i);
    }
    TotalUpdate(s.db.tasks, i, s'.db.tasks[i], FreshWeight);
  }

  lemma RoundsStep(c: Config, s: State, a: Action)
    requires Core(c, s) && Shape(s) && Enabled(s, a) && RoundsBounded(s) && 1 <= c.maxTasks
    ensures RoundsBounded(Next(c, s, a))
  {
    var s' := Next(c, s, a);
    CoreStep(c, s, a);
    if a.PlanCommits? {
      assert ProcOk(c, s, s.procs[a.p]);
      forall k | 0 <= k < |s'.procs| ensures WithinRounds(s'.db.tasks, s'.procs[k]) {
        assert ProcOk(c, s, s.procs[k]);
      }
    } else {
      if !a.Redeliver? {
        ActorWithinRounds(c, s, a);
        OthersWithinRounds(s, s', a.p);
      }
    }
  }

  /** A process enters a pass with no round behind it. */
  lemma EntersWithoutRounds(c: Config, s: State, a: Action)
    requires Shape(s) && Enabled(s, a)
    requires !PassAction(a) && !a.Publish? && !a.PlanCommits? && !a.Redeliver?
    ensures var q := Next(c, s, a).procs[a.p];
      !q.Scanning? && !q.Publishing? && (q.Scheduling? ==> q.rounds == 0)
  {
    hide Shape;
  }

  lemma PassWithinRounds(c: Config, s: State, a: Action)
    requires Core(c, s) && Shape(s) && Enabled(s, a) && PassAction(a)
    requires WithinRounds(s.db.tasks, s.procs[a.p])
    ensures WithinRounds(Next(c, s, a).db.tasks, Next(c, s, a).procs[a.p])
  {
    hide Core, Shape, FreshRows;
    if a.Visit? {
      VisitWithinRounds(c, s, a.p, a.row, a.seesOwn);
    }
  }

  lemma ActorWithinRounds(c: Config, s: State, a: Action)
    requires Core(c, s) && Shape(s) && Enabled(s, a) && RoundsBounded(s)
    requires !a.PlanCommits? && !a.Redeliver?
    ensures WithinRounds(Next(c, s, a).db.tasks, Next(c, s, a).procs[a.p])
  {
    hide Core, Shape, FreshRows;
    assert WithinRounds(s.db.tasks, s.procs[a.p]);
    if PassAction(a) {
      PassWithinRounds(c, s, a);
    } else if !a.Publish? {
      EntersWithoutRounds(c, s, a);
      hide Next, Enabled;
      FreshAtMostAll(Next(c, s, a).db.tasks);
    }
  }

  lemma FreshAtMostAll(tasks: seq<Task>)
    ensures FreshRows(tasks) <= |tasks|
  {
    TotalBound(tasks, FreshWeight, 1);
  }

  // ---- the rank ----

  /** Steps of one scheduling pass whose snapshot changes nothing. */
  function PassCost(c: Config): nat { c.maxTasks + 4 }

  /** What winning a claim commits a process to. */
  function ClaimCost(c: Config): nat { PassCost(c) + 5 }

  /** What enqueueing a row, or failing it, may trigger. */
  function ReleaseCost(c: Config): nat { ClaimCost(c) + PassCost(c) + 1 }

  /** What one more attempt costs. */
  function AttemptCost(c: Config): nat { ClaimCost(c) + 3 }

  function AttemptsLeft(c: Config, row: Task): nat {
    if row.attempts <= Cap(c) then Cap(c) + 1 - row.attempts else 0
  }

  function TaskRank(c: Config, row: Task): nat {
    if Terminal(row.status) then 0 else AttemptsLeft(c, row) * AttemptCost(c) + Outstanding(c, row)
  }

  function Outstanding(c: Config, row: Task): nat {
    if row.status.Running? then 0
    else if row.status.Pending? && !row.enqueued then ReleaseCost(c)
    else ClaimCost(c)
  }

  function FreshRowCost(c: Config): nat {
    (Cap(c) + 1) * AttemptCost(c) + ReleaseCost(c)
  }

  function PlanningCost(c: Config): nat {
    c.maxTasks * FreshRowCost(c) + PassCost(c) + 2
  }

  function ProcRank(c: Config, q: Proc): nat {
    match q
    case Idle => 0
    case HoldsPlan => PlanningCost(c) + 1
    case Planning => PlanningCost(c)
    case Planned => PassCost(c) + 1
    case Holds(_) => 1
    case Claimed(_) => PassCost(c) + 5
    case Working(_) => PassCost(c) + 4
    case Recovering(batch) => PassCost(c) + 1 + 2 * |batch|
    case Delaying(_, _, batch) => PassCost(c) + 5 + 2 * |batch|
    case Burying(_, _, batch) => PassCost(c) + 2 + 2 * |batch|
    case Scheduling(_) => PassCost(c)
    case Scanning(_, todo, changed, _) => |todo| + if changed then PassCost(c) + 1 else 3
    case Publishing(_, _, todo, _) => |todo| + PassCost(c) + 4
    case Finalizing => 2
    case Deciding(_) => 1
    case Promoting(due) => |due| + 1
    case Moving(_, due) => |due| + 4
  }

  function JobRank(c: Config, job: Job): nat {
    if job.PlanJob? then PlanningCost(c) + 2 else 2
  }

  function ProcRanks(c: Config): Proc -> nat { (q: Proc) => ProcRank(c, q) }
  function JobRanks(c: Config): Job -> nat { (j: Job) => JobRank(c, j) }
  function TaskRanks(c: Config): Task -> nat { (row: Task) => TaskRank(c, row) }

  function Rank(c: Config, s: State): nat {
    Total(s.procs, ProcRanks(c)) + Total(s.redis.queue, JobRanks(c)) + 3 * |s.redis.delayed|
    + Total(s.db.tasks, TaskRanks(c))
  }

  function LostOf(h: History): nat {
    if h.lost < 0 then 0 else h.lost
  }

  /** Increments of attempts that stale reads have overwritten so far. */
  function Lost(history: seq<History>): nat {
    Total(history, LostOf)
  }

  /** What the environment adds: a reaper or promoter firing, a job delivered again. */
  function EnvironmentCost(c: Config, a: Action): nat {
    match a
    case Reap(_, stale) => PassCost(c) + 2 + 2 * |stale|
    case PromoteRead(_, due, _) => |due| + 2
    case Redeliver(job) => JobRank(c, job) + 1
    case _ => 0
  }

  ghost predicate Sized(c: Config, s: State) {
    && |s.db.tasks| <= c.maxTasks
    && (forall p :: 0 <= p < |s.procs| && (s.procs[p].Scanning? || s.procs[p].Publishing?) ==>
          |s.procs[p].todo| <= |s.db.tasks|)
  }

  lemma {:induction false} IndicesCount(n: nat)
    ensures |Indices(n)| == n
  {
    if n > 0 {
      IndicesCount(n - 1);
    }
  }

  lemma ProcsMove(c: Config, s: State, s': State, p: nat)
    requires p < |s.procs| == |s'.procs| && s'.procs == s.procs[p := s'.procs[p]]
    ensures Total(s'.procs, ProcRanks(c)) + ProcRank(c, s.procs[p])
      == Total(s.procs, ProcRanks(c)) + ProcRank(c, s'.procs[p])
  {
    TotalUpdate(s.procs, p, s'.procs[p], ProcRanks(c));
  }

  lemma RowMoves(c: Config, s: State, s': State, t: nat)
    requires t < |s.db.tasks| == |s'.db.tasks| && s'.db.tasks == s.db.tasks[t := s'.db.tasks[t]]
    ensures Total(s'.db.tasks, TaskRanks(c)) + TaskRank(c, s.db.tasks[t])
      == Total(s.db.tasks, TaskRanks(c)) + TaskRank(c, s'.db.tasks[t])
  {
    TotalUpdate(s.db.tasks, t, s'.db.tasks[t], TaskRanks(c));
  }

  /** One step is paid for. */
  predicate Paid(c: Config, s: State, a: Action, s': State) {
    Rank(c, s') + 1 + AttemptCost(c) * Lost(s.history)
      <= Rank(c, s) + EnvironmentCost(c, a) + AttemptCost(c) * Lost(s'.history)
  }

  /** Paid by the rank alone. */
  predicate Cheaper(c: Config, s: State, a: Action, s': State) {
    Rank(c, s') + 1 <= Rank(c, s) + EnvironmentCost(c, a) && Lost(s'.history) == Lost(s.history)
  }

  lemma FreshRowsRank(c: Config, rows: seq<Task>)
    requires |rows| <= c.maxTasks
    requires forall i :: 0 <= i < |rows| ==> Untouched(rows[i]) && rows[i].attempts == 0
    ensures Total(rows, TaskRanks(c)) <= c.maxTasks * FreshRowCost(c)
  {
    forall i | 0 <= i < |rows| ensures TaskRanks(c)(rows[i]) <= FreshRowCost(c) {
      assert Untouched(rows[i]);
    }
    TotalBound(rows, TaskRanks(c), FreshRowCost(c));
    Scaled(|rows|, c.maxTasks, FreshRowCost(c));
  }

  lemma PlanCommitsRank(c: Config, s: State, p: nat, answer: Planning.Json, snippet: string)
    requires p < |s.procs| && s.procs[p].Planning? && s.db.tasks == [] && 1 <= c.maxTasks
    ensures var s' := DoPlanCommits(c, s, p, answer, snippet);
      Rank(c, s') + 1 <= Rank(c, s) && |s'.db.tasks| <= c.maxTasks
  {
    var s' := DoPlanCommits(c, s, p, answer, snippet);
    PlannedRows(c, answer, snippet);
    hide Planning.PlanOf, Planning.RowsOf, FreshRowCost, PassCost;
    ProcsMove(c, s, s', p);
    FreshRowsRank(c, s'.db.tasks);
  }

  lemma NoRowsWhilePlanning(c: Config, s: State, p: nat)
    requires Core(c, s) && p < |s.procs| && s.procs[p].Planning?
    ensures s.db.tasks == [] && s.history == []
  {
    assert ProcOk(c, s, s.procs[p]);
  }

  lemma PlanCommitsDrops(c: Config, s: State, a: Action)
    requires s.db.tasks == [] && Shape(s) && Enabled(s, a) && a.PlanCommits? && 1 <= c.maxTasks
    ensures Rank(c, Next(c, s, a)) + 1 <= Rank(c, s)
  {
    hide Rank, DoPlanCommits;
    PlanCommitsRank(c, s, a.p, a.answer, a.snippet);
  }

  lemma PlanCommitsPaid(c: Config, s: State, a: Action)
    requires Core(c, s) && Shape(s) && Enabled(s, a) && a.PlanCommits? && 1 <= c.maxTasks
    ensures Paid(c, s, a, Next(c, s, a))
  {
    NoRowsWhilePlanning(c, s, a.p);
    assert Lost(s.history) == 0;
    hide Core, Shape, Enabled, Rank, AttemptCost, Next, Lost;
    PlanCommitsDrops(c, s, a);
    Scaled(0, Lost(Next(c, s, a).history), AttemptCost(c));
  }

  lemma Scaled(x: nat, y: nat, k: nat)
    requires x <= y
    ensures x * k <= y * k
  {
  }

  lemma Distributed(x: int, y: int, k: int)
    ensures (x + y) * k == x * k + y * k
  {
  }

  // ---- steps on rows ----

  lemma LostMoves(s: State, s': State, t: nat)
    requires t < |s.history| == |s'.history| && s'.history == s.history[t := s'.history[t]]
    ensures Lost(s'.history) + LostOf(s.history[t]) == Lost(s.history) + LostOf(s'.history[t])
  {
    TotalUpdate(s.history, t, s'.history[t], LostOf);
  }

  lemma ClaimedRank(c: Config, row: Task)
    requires Claimable(row.status) && row.enqueued
    ensures TaskRank(c, row.(status := Running)) + ClaimCost(c) == TaskRank(c, row)
  {
  }

  lemma ClaimPaid(c: Config, s: State, p: nat)
    requires Core(c, s) && Shape(s) && p < |s.procs| && s.procs[p].Holds?
    ensures Rank(c, DoClaim(s, p)) + 1 <= Rank(c, s) && Lost(DoClaim(s, p).history) == Lost(s.history)
  {
    var s', t := DoClaim(s, p), s.procs[p].task;
    assert ProcOk(c, s, s.procs[p]) && TaskOk(c, s, t);
    hide Core, Shape, TaskOk, ProcOk, TaskRank, Lost;
    ProcsMove(c, s, s', p);
    if Claimable(s.db.tasks[t].status) {
      ClaimedRank(c, s.db.tasks[t]);
      RowMoves(c, s, s', t);
      LostMoves(s, s', t);
    }
  }

  lemma SucceedsPaid(c: Config, s: State, p: nat, output: string, metrics: Metrics)
    requires Core(c, s) && Shape(s) && p < |s.procs| && s.procs[p].Working?
    ensures var s' := DoAgentSucceeds(s, p, output, metrics);
      Rank(c, s') + 1 <= Rank(c, s) && s'.history == s.history
  {
    var s', t := DoAgentSucceeds(s, p, output, metrics), s.procs[p].task;
    assert ProcOk(c, s, s.procs[p]);
    ProcsMove(c, s, s', p);
    if s'.db.tasks != s.db.tasks {
      RowMoves(c, s, s', t);
    }
  }

  /** A step of process p on row t that leaves Redis alone. */
  lemma RankMoves(c: Config, s: State, s': State, p: nat, t: nat)
    requires p < |s.procs| == |s'.procs| && s'.procs == s.procs[p := s'.procs[p]]
    requires t < |s.db.tasks| == |s'.db.tasks| && s'.db.tasks == s.db.tasks[t := s'.db.tasks[t]]
    requires s'.redis == s.redis
    ensures Rank(c, s') + ProcRank(c, s.procs[p]) + TaskRank(c, s.db.tasks[t])
      == Rank(c, s) + ProcRank(c, s'.procs[p]) + TaskRank(c, s'.db.tasks[t])
  {
    ProcsMove(c, s, s', p);
    RowMoves(c, s, s', t);
  }

  /** The UPDATE of _retry_or_fail: a stale read gives back exactly the attempts it overwrote. */
  lemma RecoverPaid(c: Config, s: State, p: nat, runAt: real)
    requires Core(c, s) && Shape(s) && p < |s.procs| && s.procs[p].Recovering? && s.procs[p].batch != []
    ensures var s' := DoRecoverOne(c, s, p, runAt);
      Rank(c, s') + 1 + AttemptCost(c) * Lost(s.history) <= Rank(c, s) + AttemptCost(c) * Lost(s'.history)
  {
    var s', x := DoRecoverOne(c, s, p, runAt), s.procs[p].batch[0];
    var t := x.task;
    assert ProcOk(c, s, s.procs[p]) && StaleOk(c, s, x) && TaskOk(c, s, t);
    RankMoves(c, s, s', p, t);
    hide Core, Shape, Rank, Lost, TaskRank, AttemptCost;
    if s.db.tasks[t].status.Running? {
      RecoveredRank(c, s.db.tasks[t], s'.db.tasks[t], x.attemptsRead);
      RecoveredLost(c, s, p, runAt);
      Exchange(Rank(c, s), Rank(c, s'), Lost(s.history), Lost(s'.history),
               TaskRank(c, s.db.tasks[t]), TaskRank(c, s'.db.tasks[t]),
               AttemptCost(c), s.db.tasks[t].attempts - x.attemptsRead);
    }
  }

  lemma Exchange(rank: int, rank': int, lost: int, lost': int, row: int, row': int, k: int, d: int)
    requires rank' + row <= rank + row' + 2 && row' + 3 <= row + d * k && lost' == lost + d
    ensures rank' + 1 + k * lost <= rank + k * lost'
  {
    Distributed(lost, d, k);
  }

  lemma RecoveredLost(c: Config, s: State, p: nat, runAt: real)
    requires Core(c, s) && Shape(s) && p < |s.procs| && s.procs[p].Recovering? && s.procs[p].batch != []
    requires s.procs[p].batch[0].task < |s.db.tasks|
    requires s.db.tasks[s.procs[p].batch[0].task].status.Running?
    ensures var x := s.procs[p].batch[0];
      Lost(DoRecoverOne(c, s, p, runAt).history) == Lost(s.history) + s.db.tasks[x.task].attempts - x.attemptsRead
  {
    var s', x := DoRecoverOne(c, s, p, runAt), s.procs[p].batch[0];
    assert ProcOk(c, s, s.procs[p]) && StaleOk(c, s, x) && TaskOk(c, s, x.task);
    LostMoves(s, s', x.task);
  }

  lemma RecoveredRank(c: Config, row: Task, row': Task, read: nat)
    requires row.status.Running? && row.attempts <= Cap(c) && read <= Cap(c)
    requires row'.attempts == read + 1 && row'.enqueued
    requires row'.status == if read + 1 <= c.maxRetries then Retrying else Failed
    ensures TaskRank(c, row') + 3 <= TaskRank(c, row) + (row.attempts - read) * AttemptCost(c)
  {
    var k := AttemptCost(c);
    Distributed(Cap(c) + 1 - row.attempts, row.attempts - read, k);
    assert TaskRank(c, row) + (row.attempts - read) * k == (Cap(c) + 1 - read) * k;
    Distributed(Cap(c) - read, 1, k);
    Scaled(0, Cap(c) - read, k);
  }

  lemma VisitRow(c: Config, s: State, p: nat, i: nat, seesOwn: bool)
    requires Core(c, s) && Shape(s) && p < |s.procs| && s.procs[p].Scanning? && i in s.procs[p].todo
    ensures i < |s.db.tasks|
    ensures var s' := DoVisit(s, p, i, seesOwn);
      && |s'.procs| == |s.procs| && s'.procs == s.procs[p := s'.procs[p]] && s'.redis == s.redis
      && |s'.db.tasks| == |s.db.tasks| && s'.db.tasks == s.db.tasks[i := s'.db.tasks[i]]
      && ProcRank(c, s'.procs[p]) + TaskRank(c, s'.db.tasks[i]) + 1
        <= ProcRank(c, s.procs[p]) + TaskRank(c, s.db.tasks[i])
  {
    var q := s.procs[p];
    assert ProcOk(c, s, q) && InRange(s, q) && TaskOk(c, s, i);
    if Doomed(q.rows, i) {
      SnapshotDoomed(s, q.rows, i);
      DoomedNotReleased(c, s, i);
    }
    assert |q.todo - {i}| == |q.todo| - 1;
  }

  lemma VisitPaid(c: Config, s: State, p: nat, i: nat, seesOwn: bool)
    requires Core(c, s) && Shape(s) && p < |s.procs| && s.procs[p].Scanning? && i in s.procs[p].todo
    ensures Rank(c, DoVisit(s, p, i, seesOwn)) + 1 <= Rank(c, s)
    ensures Lost(DoVisit(s, p, i, seesOwn).history) == Lost(s.history)
  {
    var s' := DoVisit(s, p, i, seesOwn);
    VisitRow(c, s, p, i, seesOwn);
    RankMoves(c, s, s', p, i);
    LostMoves(s, s', i);
  }

  // ---- steps on Redis ----

  lemma QueueMoves(c: Config, s: State, job: Job)
    ensures Total(s.redis.queue + [job], JobRanks(c)) == Total(s.redis.queue, JobRanks(c)) + JobRank(c, job)
  {
    TotalAppend(s.redis.queue, [job], JobRanks(c));
  }

  lemma DequeuePaid(c: Config, s: State, p: nat)
    requires p < |s.procs| && s.procs[p].Idle? && s.redis.queue != []
    ensures Rank(c, DoDequeue(s, p)) + 1 <= Rank(c, s)
  {
    ProcsMove(c, s, DoDequeue(s, p), p);
  }

  lemma PushesPaid(c: Config, s: State, p: nat)
    requires p < |s.procs|
    ensures s.procs[p].Publishing? ==> Rank(c, DoPublish(s, p)) + 1 <= Rank(c, s)
    ensures s.procs[p].Moving? ==> Rank(c, DoPromotePush(s, p)) + 1 <= Rank(c, s)
  {
    if s.procs[p].Publishing? {
      ProcsMove(c, s, DoPublish(s, p), p);
      QueueMoves(c, s, TaskJob(s.procs[p].task));
    } else if s.procs[p].Moving? {
      ProcsMove(c, s, DoPromotePush(s, p), p);
      QueueMoves(c, s, TaskJob(s.procs[p].task));
    }
  }

  lemma ScheduleRetryPaid(c: Config, s: State, p: nat)
    requires p < |s.procs| && s.procs[p].Delaying?
    ensures Rank(c, DoScheduleRetry(s, p)) + 1 <= Rank(c, s)
  {
    var s' := DoScheduleRetry(s, p);
    ProcsMove(c, s, s', p);
    assert s'.redis.delayed.Keys == s.redis.delayed.Keys + {s.procs[p].task};
  }

  lemma PromoteRemovePaid(c: Config, s: State, p: nat)
    requires p < |s.procs| && s.procs[p].Promoting? && s.procs[p].due != []
    ensures Rank(c, DoPromoteRemove(s, p)) + 1 <= Rank(c, s)
  {
    var t, s' := s.procs[p].due[0], DoPromoteRemove(s, p);
    ProcsMove(c, s, s', p);
    if t in s.redis.delayed {
      assert s'.redis.delayed.Keys == s.redis.delayed.Keys - {t};
    }
  }

  lemma PushDeadPaid(c: Config, s: State, p: nat)
    requires p < |s.procs| && s.procs[p].Burying?
    ensures Rank(c, DoPushDeadLetter(s, p)) + 1 <= Rank(c, s) && Lost(DoPushDeadLetter(s, p).history) == Lost(s.history)
  {
    ProcsMove(c, s, DoPushDeadLetter(s, p), p);
  }

  lemma RedeliverPaid(c: Config, s: State, job: Job)
    requires job.TaskJob? ==> job.task < |s.history|
    ensures var s' := DoRedeliver(s, job);
      Rank(c, s') <= Rank(c, s) + JobRank(c, job) && Lost(s'.history) == Lost(s.history)
  {
    TotalAppend(s.redis.queue, [job], JobRanks(c));
    if job.TaskJob? {
      LostMoves(s, DoRedeliver(s, job), job.task);
    }
  }

  // ---- any step ----

  lemma PointPaid(c: Config, s: State, p: nat, q: Proc)
    requires p < |s.procs|
    ensures Rank(c, Become(s, p, q)) + ProcRank(c, s.procs[p]) == Rank(c, s) + ProcRank(c, q)
  {
    ProcsMove(c, s, Become(s, p, q), p);
  }

  lemma CheckPaid(c: Config, s: State, p: nat)
    requires Core(c, s) && Shape(s) && p < |s.procs| && s.procs[p].Claimed?
    ensures Rank(c, DoCheckResult(s, p)) + 1 <= Rank(c, s) && Lost(DoCheckResult(s, p).history) == Lost(s.history)
  {
    if s.procs[p].task in s.db.results {
      IdempotencyUpdateIsNoOp(c, s, s.procs[p].task);
    }
    PointPaid(c, s, p, DoCheckResult(s, p).procs[p]);
  }

  lemma RowActionPaid(c: Config, s: State, a: Action)
    requires Core(c, s) && Shape(s) && Enabled(s, a) && (a.Claim? || a.AgentSucceeds? || a.CheckResult?)
    ensures Cheaper(c, s, a, Next(c, s, a))
  {
    hide Core, Rank, Lost, Shape, Frame, DoClaim, DoAgentSucceeds, DoCheckResult;
    match a
    case Claim(p) => ClaimPaid(c, s, p);
    case AgentSucceeds(p, output, metrics) => SucceedsPaid(c, s, p, output, metrics);
    case CheckResult(p) => CheckPaid(c, s, p);
  }

  lemma TaskActionPaid(c: Config, s: State, a: Action)
    requires Core(c, s) && Shape(s) && Enabled(s, a) && TaskAction(a) && !a.RecoverOne?
    ensures Cheaper(c, s, a, Next(c, s, a))
  {
    hide Core, Rank, Lost, Frame;
    match a
    case Crash(p) => PointPaid(c, s, p, Idle);
    case AgentFails(p) => PointPaid(c, s, p, DoAgentFails(s, p).procs[p]);
    case Reap(p, stale) => PointPaid(c, s, p, DoReap(s, p, stale).procs[p]);
    case EndRecovery(p) => PointPaid(c, s, p, Scheduling(0));
    case _ => RowActionPaid(c, s, a);
  }

  lemma SnapshotRank(c: Config, rows: seq<Task>, rounds: nat)
    ensures ProcRank(c, Scanning(rows, Indices(|rows|), false, rounds)) == |rows| + 3
  {
    IndicesCount(|rows|);
  }

  lemma SnapshotPaid(c: Config, s: State, p: nat)
    requires Sized(c, s) && p < |s.procs| && s.procs[p].Scheduling?
    ensures Rank(c, DoTakeSnapshot(s, p)) + 1 <= Rank(c, s) && DoTakeSnapshot(s, p).history == s.history
  {
    hide Rank;
    SnapshotRank(c, s.db.tasks, s.procs[p].rounds);
    PointPaid(c, s, p, DoTakeSnapshot(s, p).procs[p]);
  }

  lemma VerdictPaid(c: Config, s: State, p: nat)
    requires p < |s.procs| && s.procs[p].Deciding?
    ensures Rank(c, DoCommitVerdict(s, p)) + 1 <= Rank(c, s) && Lost(DoCommitVerdict(s, p).history) == Lost(s.history)
  {
    ProcsMove(c, s, DoCommitVerdict(s, p), p);
  }

  lemma PassActionPaid(c: Config, s: State, a: Action)
    requires Core(c, s) && Shape(s) && Enabled(s, a) && Sized(c, s) && PassAction(a)
    ensures Cheaper(c, s, a, Next(c, s, a))
  {
    hide Core, Rank, Lost, Shape, Frame, DoVisit, DoTakeSnapshot, DoCommitVerdict, VerdictOf, AllTerminal;
    match a
    case TakeSnapshot(p) => SnapshotPaid(c, s, p);
    case Visit(p, i, seesOwn) => VisitPaid(c, s, p, i, seesOwn);
    case EndPass(p) => PointPaid(c, s, p, Next(c, s, a).procs[p]);
    case ReadForFinalize(p) => PointPaid(c, s, p, Next(c, s, a).procs[p]);
    case CommitVerdict(p) => VerdictPaid(c, s, p);
  }

  lemma JobActionPaid(c: Config, s: State, a: Action)
    requires Shape(s) && Enabled(s, a) && (a.Dequeue? || a.ScheduleRetry? || a.PushDeadLetter? || a.Publish?)
    ensures Rank(c, Next(c, s, a)) + 1 <= Rank(c, s)
  {
    hide Rank, DoDequeue, DoScheduleRetry, DoPushDeadLetter, DoPublish, Shape, Frame;
    match a
    case Dequeue(p) => DequeuePaid(c, s, p);
    case ScheduleRetry(p) => ScheduleRetryPaid(c, s, p);
    case PushDeadLetter(p) => PushDeadPaid(c, s, p);
    case Publish(p) => PushesPaid(c, s, p);
  }

  lemma PromotionPaid(c: Config, s: State, a: Action)
    requires Shape(s) && Enabled(s, a)
    requires a.PromoteRead? || a.PromoteRemove? || a.PromotePush? || a.EndPromotion?
    ensures Rank(c, Next(c, s, a)) + 1 <= Rank(c, s) + EnvironmentCost(c, a)
  {
    hide Rank, DoPromoteRemove, DoPromotePush, Shape, Frame;
    match a
    case PromoteRead(p, due, _) => PointPaid(c, s, p, Promoting(due));
    case PromoteRemove(p) => PromoteRemovePaid(c, s, p);
    case PromotePush(p) => PushesPaid(c, s, p);
    case EndPromotion(p) => PointPaid(c, s, p, Idle);
  }

  lemma QueueActionPaid(c: Config, s: State, a: Action)
    requires Shape(s) && Enabled(s, a) && QueueAction(a)
    ensures Cheaper(c, s, a, Next(c, s, a))
  {
    if a.Redeliver? {
      RedeliverPaid(c, s, a.job);
      hide Rank, Lost, DoRedeliver;
    } else {
      QueueRowsStay(c, s, a);
      if a.Dequeue? || a.ScheduleRetry? || a.PushDeadLetter? || a.Publish? {
        JobActionPaid(c, s, a);
      } else {
        PromotionPaid(c, s, a);
      }
      hide Rank, Lost, Next, Enabled, Shape;
    }
  }

  lemma ExecutionPaid(c: Config, s: State, s': State, p: nat)
    requires p < |s.procs| == |s'.procs| && s'.procs == s.procs[p := s'.procs[p]]
    requires s'.db.tasks == s.db.tasks && s'.redis == s.redis
    ensures Rank(c, s') + ProcRank(c, s.procs[p]) == Rank(c, s) + ProcRank(c, s'.procs[p])
  {
    ProcsMove(c, s, s', p);
  }

  lemma PlanningActionPaid(c: Config, s: State, a: Action)
    requires Core(c, s) && Shape(s) && Enabled(s, a) && 1 <= c.maxTasks
    requires a.GuardPlan? || a.PlanFails? || a.StartRunning?
    ensures Cheaper(c, s, a, Next(c, s, a))
  {
    hide Core, Shape, Rank, Lost;
    ExecutionPaid(c, s, Next(c, s, a), a.p);
  }

  lemma RecoverStepPaid(c: Config, s: State, a: Action)
    requires Core(c, s) && Shape(s) && Enabled(s, a) && a.RecoverOne?
    ensures Paid(c, s, a, Next(c, s, a))
  {
    hide Core, Rank, Lost, AttemptCost, DoRecoverOne;
    RecoverPaid(c, s, a.p, a.runAt);
  }

  lemma StepPaid(c: Config, s: State, a: Action)
    requires Core(c, s) && Shape(s) && Enabled(s, a) && Sized(c, s) && 1 <= c.maxTasks
    ensures Paid(c, s, a, Next(c, s, a))
  {
    hide Core, Shape, Sized, Next, Rank, Lost, AttemptCost, Enabled;
    if a.RecoverOne? {
      RecoverStepPaid(c, s, a);
    } else if a.PlanCommits? {
      PlanCommitsPaid(c, s, a);
    } else if PlanningAction(a) {
      PlanningActionPaid(c, s, a);
    } else if TaskAction(a) {
      TaskActionPaid(c, s, a);
    } else if PassAction(a) {
      PassActionPaid(c, s, a);
    } else {
      QueueActionPaid(c, s, a);
    }
  }

  /** No process scans while the rows are inserted. */
  lemma NobodyScans(c: Config, s: State, p: nat)
    requires ProcsOk(c, s) && p < |s.procs| && s.procs[p].Planning?
    ensures forall k :: 0 <= k < |s.procs| ==> !s.procs[k].Scanning? && !s.procs[k].Publishing?
  {
    assert ProcOk(c, s, s.procs[p]);
    forall k | 0 <= k < |s.procs| ensures !s.procs[k].Scanning? && !s.procs[k].Publishing? {
      assert ProcOk(c, s, s.procs[k]);
    }
  }

  lemma PlannedSized(c: Config, s: State, a: Action)
    requires Core(c, s) && Shape(s) && Enabled(s, a) && 1 <= c.maxTasks && a.PlanCommits?
    ensures Sized(c, Next(c, s, a))
  {
    NobodyScans(c, s, a.p);
    PlannedRows(c, a.answer, a.snippet);
    hide Core, Shape, Planning.PlanOf, Planning.RowsOf;
  }

  lemma SizedStep(c: Config, s: State, a: Action)
    requires Core(c, s) && Shape(s) && Enabled(s, a) && Sized(c, s) && 1 <= c.maxTasks
    ensures Sized(c, Next(c, s, a))
  {
    hide Core, Shape, Enabled, Next;
    if a.PlanCommits? {
      PlannedSized(c, s, a);
    } else if !a.Redeliver? {
      ActorSized(c, s, a);
    }
  }

  lemma ActorSized(c: Config, s: State, a: Action)
    requires Shape(s) && Enabled(s, a) && Sized(c, s) && !a.PlanCommits? && !a.Redeliver?
    ensures var q := Next(c, s, a).procs[a.p]; q.Scanning? || q.Publishing? ==> |q.todo| <= |s.db.tasks|
  {
    if a.TakeSnapshot? {
      IndicesCount(|s.db.tasks|);
    } else if a.Visit? {
      VisitShrinks(s, a.p, a.row, a.seesOwn);
      hide Shape, DoVisit;
    } else if !PassAction(a) && !a.Publish? {
      EntersWithoutRounds(c, s, a);
      hide Shape, Enabled, Next;
    }
  }

  lemma VisitShrinks(s: State, p: nat, i: nat, seesOwn: bool)
    requires Shape(s) && p < |s.procs| && s.procs[p].Scanning? && i in s.procs[p].todo
    ensures var q := DoVisit(s, p, i, seesOwn).procs[p];
      (q.Scanning? || q.Publishing?) && |q.todo| < |s.procs[p].todo|
  {
    hide Shape, Untouched, Doomed, DepsCompleted;
    assert |s.procs[p].todo - {i}| == |s.procs[p].todo| - 1;
  }
}
