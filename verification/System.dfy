/**
 * The distributed path as a step system.  Any number of processes (consumer
 * threads, promoters, reapers) share the tables and the Redis structures.  One
 * action is one committed UPDATE or transaction, one SELECT snapshot, or one
 * Redis command; between two actions of one process any others may happen.
 *
 * The system follows one execution: rows, results and jobs of different
 * executions never meet.
 */
module System {
  import opened Sums
  import opened Text
  import opened Tables
  import opened Aggregation
  import Planning

  datatype Job = PlanJob | TaskJob(task: nat)

  datatype DeadLetter = DeadLetter(task: nat, attempts: nat)

  /** Main list, delayed sorted set (task -> run-at) and dead-letter list. */
  datatype Redis = Redis(queue: seq<Job>, delayed: map<nat, real>, dead: seq<DeadLetter>)

  /** A task to recover with the attempts value read for it. */
  datatype Stale = Stale(task: nat, attemptsRead: nat)

  datatype Proc =
    | Idle
    | HoldsPlan                                   // plan job popped
    | Planning                                    // won PENDING -> PLANNING
    | Planned                                     // rows committed, execution still PLANNING
    | Holds(task: nat)                            // task job popped, claim not attempted
    | Claimed(task: nat)                          // claim won, result table not checked
    | Working(task: nat)                          // agent running
    | Recovering(batch: seq<Stale>)               // _retry_or_fail calls still to make
    | Delaying(task: nat, runAt: real, batch: seq<Stale>)     // RETRYING committed, ZADD to do
    | Burying(task: nat, attempts: nat, batch: seq<Stale>)    // FAILED committed, dead-letter push to do
    | Scheduling(rounds: nat)                     // schedule_execution: snapshot to take
    | Scanning(rows: seq<Task>, todo: set<nat>, changed: bool, rounds: nat)
    | Publishing(task: nat, rows: seq<Task>, todo: set<nat>, rounds: nat)  // flag set, RPUSH to do
    | Finalizing                                  // _finalize: rows to read
    | Deciding(verdict: Verdict)                  // _finalize: UPDATE to do
    | Promoting(due: seq<nat>)                    // members still to ZREM
    | Moving(task: nat, due: seq<nat>)            // ZREM won, RPUSH to do

  /** History of a task, for stating properties only: no process reads it. */
  datatype History = History(
    released: bool,     // _mark_enqueued succeeded
    claims: nat,        // claims won
    lost: int,          // increments of attempts overwritten by stale reads
    redelivered: bool)  // the queue delivered a job for it again

  datatype State = State(db: Tables, redis: Redis, procs: seq<Proc>, history: seq<History>)

  datatype Config = Config(maxRetries: int, maxTasks: nat, repr: Planning.Json -> string)

  datatype Action =
    | Dequeue(p: nat)
    | GuardPlan(p: nat)
    | PlanFails(p: nat)
    | PlanCommits(p: nat, answer: Planning.Json, snippet: string)
    | StartRunning(p: nat)
    | Claim(p: nat)
    | CheckResult(p: nat)
    | Crash(p: nat)
    | AgentFails(p: nat)
    | AgentSucceeds(p: nat, output: string, metrics: Metrics)
    | Reap(p: nat, stale: seq<nat>)
    | RecoverOne(p: nat, runAt: real)
    | ScheduleRetry(p: nat)
    | PushDeadLetter(p: nat)
    | EndRecovery(p: nat)
    | TakeSnapshot(p: nat)
    | Visit(p: nat, row: nat, seesOwn: bool)
    | Publish(p: nat)
    | EndPass(p: nat)
    | ReadForFinalize(p: nat)
    | CommitVerdict(p: nat)
    | PromoteRead(p: nat, due: seq<nat>, now: real)
    | PromoteRemove(p: nat)
    | PromotePush(p: nat)
    | EndPromotion(p: nat)
    | Redeliver(job: Job)                         // environment: a pushed job arrives again

  // ---- reading the tables ----

  function Outcomes(tasks: seq<Task>, results: map<nat, Saved>): seq<Outcome> {
    seq(|tasks|, i requires 0 <= i < |tasks| =>
      Outcome(tasks[i].agent, tasks[i].description, tasks[i].status,
              if i in results then results[i].output else ""))
  }

  function VerdictOf(tasks: seq<Task>, results: map<nat, Saved>): Verdict {
    if AllCompleted(tasks)
    then Success(AggregateText(Outcomes(tasks, results)), Total(tasks, TokensSpent), Total(tasks, CostSpent))
    else Failure(Total(tasks, TokensSpent), Total(tasks, CostSpent))
  }

  predicate Distinct(xs: seq<nat>) {
    forall j, k :: 0 <= j < k < |xs| ==> xs[j] != xs[k]
  }

  function Indices(n: nat): (r: set<nat>)
    ensures forall i: nat :: i in r <==> i < n
  {
    if n == 0 then {} else Indices(n - 1) + {n - 1}
  }

  // ---- steps ----

  function Become(s: State, p: nat, q: Proc): State
    requires p < |s.procs|
  {
    s.(procs := s.procs[p := q])
  }

  function Initial(n: nat): State {
    State(Tables(Execution(ExecPending, None, None, None), [], map[]),
          Redis([PlanJob], map[], []),
          seq(n, _ => Idle),
          [])
  }

  /** Every index a process carries names a row; holds in every reachable state. */
  predicate InRange(s: State, q: Proc) {
    var n := |s.db.tasks|;
    match q
    case Holds(t) => t < n
    case Claimed(t) => t < n
    case Working(t) => t < n
    case Recovering(batch) => forall k :: 0 <= k < |batch| ==> batch[k].task < n
    case Delaying(t, _, batch) => t < n && forall k :: 0 <= k < |batch| ==> batch[k].task < n
    case Burying(t, _, batch) => t < n && forall k :: 0 <= k < |batch| ==> batch[k].task < n
    case Scanning(rows, todo, _, _) => |rows| == n && forall i :: i in todo ==> i < n
    case Publishing(t, rows, todo, _) => t < n && |rows| == n && forall i :: i in todo ==> i < n
    case Moving(t, _) => t < n
    case _ => true
  }

  /** Sizes agree and indices name rows: what makes every step well defined. */
  predicate Shape(s: State) {
    && |s.history| == |s.db.tasks|
    && (forall p :: 0 <= p < |s.procs| ==> InRange(s, s.procs[p]))
    && (forall k :: 0 <= k < |s.redis.queue| && s.redis.queue[k].TaskJob? ==> s.redis.queue[k].task < |s.db.tasks|)
    && (forall t :: t in s.redis.delayed ==> t < |s.db.tasks|)
  }

  predicate Enabled(s: State, a: Action) {
    if a.Redeliver? then a.job.TaskJob? ==> a.job.task < |s.history| && s.history[a.job.task].released
    else a.p < |s.procs| && MayTake(s, s.procs[a.p], a)
  }

  /** The program point (and data) from which a process takes an action. */
  predicate MayTake(s: State, q: Proc, a: Action) {
    match a
    case Dequeue(_) => q.Idle? && s.redis.queue != []
    case GuardPlan(_) => q.HoldsPlan?
    case PlanFails(_) => q.Planning?
    case PlanCommits(_, _, _) => q.Planning?
    case StartRunning(_) => q.Planned?
    case Claim(_) => q.Holds?
    case CheckResult(_) => q.Claimed?
    case Crash(_) => q.Claimed? || q.Working?
    case AgentFails(_) => q.Working?
    case AgentSucceeds(_, _, _) => q.Working?
    case Reap(_, stale) =>
      q.Idle? && stale != [] && Distinct(stale) &&
      forall k :: 0 <= k < |stale| ==> stale[k] < |s.db.tasks| && s.db.tasks[stale[k]].status.Running?
    case RecoverOne(_, _) => q.Recovering? && q.batch != []
    case ScheduleRetry(_) => q.Delaying?
    case PushDeadLetter(_) => q.Burying?
    case EndRecovery(_) => q.Recovering? && q.batch == []
    case TakeSnapshot(_) => q.Scheduling?
    case Visit(_, i, _) => q.Scanning? && i in q.todo
    case Publish(_) => q.Publishing?
    case EndPass(_) => q.Scanning? && q.todo == {}
    case ReadForFinalize(_) => q.Finalizing?
    case CommitVerdict(_) => q.Deciding?
    case PromoteRead(_, due, now) =>
      q.Idle? && Distinct(due) &&
      forall k :: 0 <= k < |due| ==> due[k] in s.redis.delayed && s.redis.delayed[due[k]] <= now
    case PromoteRemove(_) => q.Promoting? && q.due != []
    case PromotePush(_) => q.Moving?
    case EndPromotion(_) => q.Promoting? && q.due == []
    case Redeliver(_) => false
  }

  predicate PlanningAction(a: Action) {
    a.GuardPlan? || a.PlanFails? || a.PlanCommits? || a.StartRunning?
  }

  predicate TaskAction(a: Action) {
    || a.Claim? || a.CheckResult? || a.Crash? || a.AgentFails? || a.AgentSucceeds? || a.Reap? || a.RecoverOne?
    || a.EndRecovery?
  }

  predicate PassAction(a: Action) {
    a.TakeSnapshot? || a.Visit? || a.EndPass? || a.ReadForFinalize? || a.CommitVerdict?
  }

  predicate QueueAction(a: Action) {
    || a.Dequeue? || a.ScheduleRetry? || a.PushDeadLetter? || a.Publish?
    || a.PromoteRead? || a.PromoteRemove? || a.PromotePush? || a.EndPromotion? || a.Redeliver?
  }

  /** One process moves (the environment moves none) and only a plan changes the number of rows. */
  predicate Frame(s: State, a: Action, s': State) {
    && |s'.procs| == |s.procs|
    && (if a.Redeliver? then s'.procs == s.procs else a.p < |s.procs| && s'.procs == s.procs[a.p := s'.procs[a.p]])
    && (!a.PlanCommits? ==> |s'.db.tasks| == |s.db.tasks|)
    && |s'.history| == |s'.db.tasks|
  }

  function Next(c: Config, s: State, a: Action): (s': State)
    requires Shape(s) && Enabled(s, a)
    ensures Frame(s, a, s')
  {
    if PlanningAction(a) then PlanningStep(c, s, a)
    else if TaskAction(a) then TaskStep(c, s, a)
    else if PassAction(a) then PassStep(s, a)
    else QueueStep(s, a)
  }

  function PlanningStep(c: Config, s: State, a: Action): (s': State)
    requires Shape(s) && Enabled(s, a) && PlanningAction(a)
    ensures Frame(s, a, s')
  {
    match a
    case GuardPlan(p) => DoGuardPlan(s, p)
    case PlanFails(p) => DoPlanFails(s, p)
    case PlanCommits(p, answer, snippet) => DoPlanCommits(c, s, p, answer, snippet)
    case StartRunning(p) => DoStartRunning(s, p)
  }

  function TaskStep(c: Config, s: State, a: Action): (s': State)
    requires Shape(s) && Enabled(s, a) && TaskAction(a)
    ensures Frame(s, a, s')
  {
    match a
    case Claim(p) => DoClaim(s, p)
    case CheckResult(p) => DoCheckResult(s, p)
    case Crash(p) => Become(s, p, Idle)
    case AgentFails(p) => DoAgentFails(s, p)
    case AgentSucceeds(p, output, metrics) => DoAgentSucceeds(s, p, output, metrics)
    case Reap(p, stale) => DoReap(s, p, stale)
    case RecoverOne(p, runAt) => DoRecoverOne(c, s, p, runAt)
    case EndRecovery(p) => Become(s, p, Scheduling(0))
  }

  function PassStep(s: State, a: Action): (s': State)
    requires Shape(s) && Enabled(s, a) && PassAction(a)
    ensures Frame(s, a, s')
  {
    match a
    case TakeSnapshot(p) => DoTakeSnapshot(s, p)
    case Visit(p, i, seesOwn) => DoVisit(s, p, i, seesOwn)
    case EndPass(p) => DoEndPass(s, p)
    case ReadForFinalize(p) => DoReadForFinalize(s, p)
    case CommitVerdict(p) => DoCommitVerdict(s, p)
  }

  function QueueStep(s: State, a: Action): (s': State)
    requires Shape(s) && Enabled(s, a) && QueueAction(a)
    ensures Frame(s, a, s')
  {
    match a
    case Dequeue(p) => DoDequeue(s, p)
    case ScheduleRetry(p) => DoScheduleRetry(s, p)
    case PushDeadLetter(p) => DoPushDeadLetter(s, p)
    case Publish(p) => DoPublish(s, p)
    case PromoteRead(p, due, _) => Become(s, p, Promoting(due))
    case PromoteRemove(p) => DoPromoteRemove(s, p)
    case PromotePush(p) => DoPromotePush(s, p)
    case EndPromotion(p) => Become(s, p, Idle)
    case Redeliver(job) => DoRedeliver(s, job)
  }

  function DoDequeue(s: State, p: nat): State
    requires p < |s.procs| && s.redis.queue != []
  {
    var job := s.redis.queue[0];
    Become(s, p, if job.PlanJob? then HoldsPlan else Holds(job.task))
      .(redis := s.redis.(queue := s.redis.queue[1..]))
  }

  function DoGuardPlan(s: State, p: nat): State
    requires p < |s.procs|
  {
    Become(s, p, if s.db.execution.status == ExecPending then Planning else Idle)
      .(db := GuardExecution(s.db, ExecPending, ExecPlanning))
  }

  /** The planner raised: _fail_execution, which has no guard. */
  function DoPlanFails(s: State, p: nat): State
    requires p < |s.procs|
  {
    Become(s, p, Idle).(db := s.db.(execution := s.db.execution.(status := ExecFailed)))
  }

  function DoPlanCommits(c: Config, s: State, p: nat, answer: Planning.Json, snippet: string): State
    requires p < |s.procs|
  {
    var rows := Planning.RowsOf(Planning.PlanOf(answer, c.repr, snippet, c.maxTasks));
    Become(s, p, Planned).(
      db := s.db.(tasks := rows),
      history := seq(|rows|, _ => History(false, 0, 0, false)))
  }

  function DoStartRunning(s: State, p: nat): State
    requires p < |s.procs|
  {
    Become(s, p, Scheduling(0)).(db := GuardExecution(s.db, ExecPlanning, ExecRunning))
  }

  function DoClaim(s: State, p: nat): State
    requires Shape(s) && p < |s.procs| && s.procs[p].Holds?
  {
    assert InRange(s, s.procs[p]);
    var t := s.procs[p].task;
    if Claimable(s.db.tasks[t].status)
    then Become(s, p, Claimed(t)).(
      db := ClaimTask(s.db, t),
      history := s.history[t := s.history[t].(claims := s.history[t].claims + 1)])
    else Become(s, p, Idle)
  }

  function DoCheckResult(s: State, p: nat): State
    requires Shape(s) && p < |s.procs| && s.procs[p].Claimed?
  {
    assert InRange(s, s.procs[p]);
    var t := s.procs[p].task;
    if t in s.db.results
    then Become(s, p, Scheduling(0)).(db := CompleteIfRunning(s.db, t))
    else Become(s, p, Working(t))
  }

  /** The failure path rolls back and re-reads the row before _retry_or_fail. */
  function DoAgentFails(s: State, p: nat): State
    requires Shape(s) && p < |s.procs| && s.procs[p].Working?
  {
    assert InRange(s, s.procs[p]);
    var t := s.procs[p].task;
    Become(s, p, Recovering([Stale(t, s.db.tasks[t].attempts)]))
  }

  function DoAgentSucceeds(s: State, p: nat, output: string, metrics: Metrics): State
    requires Shape(s) && p < |s.procs| && s.procs[p].Working?
  {
    assert InRange(s, s.procs[p]);
    Become(s, p, Scheduling(0)).(db := PersistSuccess(s.db, s.procs[p].task, output, metrics))
  }

  /** recover_stale_tasks reads the stale rows, attempts included, in one SELECT. */
  function StaleBatch(tasks: seq<Task>, stale: seq<nat>): (batch: seq<Stale>)
    requires forall k :: 0 <= k < |stale| ==> stale[k] < |tasks|
    ensures |batch| == |stale|
    ensures forall k :: 0 <= k < |stale| ==> batch[k] == Stale(stale[k], tasks[stale[k]].attempts)
  {
    seq(|stale|, k requires 0 <= k < |stale| => Stale(stale[k], tasks[stale[k]].attempts))
  }

  function DoReap(s: State, p: nat, stale: seq<nat>): State
    requires p < |s.procs|
    requires forall k :: 0 <= k < |stale| ==> stale[k] < |s.db.tasks|
  {
    Become(s, p, Recovering(StaleBatch(s.db.tasks, stale)))
  }

  function DoRecoverOne(c: Config, s: State, p: nat, runAt: real): State
    requires Shape(s) && p < |s.procs| && s.procs[p].Recovering? && s.procs[p].batch != []
  {
    assert InRange(s, s.procs[p]);
    var batch := s.procs[p].batch;
    var t, r, rest := batch[0].task, batch[0].attemptsRead, batch[1..];
    if !s.db.tasks[t].status.Running? then Become(s, p, Recovering(rest))
    else
      Become(s, p, if r + 1 <= c.maxRetries then Delaying(t, runAt, rest) else Burying(t, r + 1, rest)).(
        db := RetryOrFail(s.db, t, r, c.maxRetries),
        history := s.history[t := s.history[t].(lost := s.history[t].lost + s.db.tasks[t].attempts - r)])
  }

  /** ZADD: a member that is already present only gets a new score. */
  function DoScheduleRetry(s: State, p: nat): State
    requires p < |s.procs| && s.procs[p].Delaying?
  {
    var q := s.procs[p];
    Become(s, p, Recovering(q.batch)).(redis := s.redis.(delayed := s.redis.delayed[q.task := q.runAt]))
  }

  function DoPushDeadLetter(s: State, p: nat): State
    requires p < |s.procs| && s.procs[p].Burying?
  {
    var q := s.procs[p];
    Become(s, p, Recovering(q.batch)).(
      redis := s.redis.(dead := s.redis.dead + [DeadLetter(q.task, q.attempts)]))
  }

  function DoTakeSnapshot(s: State, p: nat): State
    requires p < |s.procs| && s.procs[p].Scheduling?
  {
    Become(s, p, Scanning(s.db.tasks, Indices(|s.db.tasks|), false, s.procs[p].rounds))
  }

  /** One row of the pass.  `seesOwn`: whether the session's copy shows the pass's own update. */
  function DoVisit(s: State, p: nat, i: nat, seesOwn: bool): State
    requires Shape(s) && p < |s.procs| && s.procs[p].Scanning? && i in s.procs[p].todo
  {
    assert InRange(s, s.procs[p]);
    var q := s.procs[p];
    var left := q.todo - {i};
    if !Untouched(q.rows[i]) then Become(s, p, Scanning(q.rows, left, q.changed, q.rounds))
    else if Doomed(q.rows, i) then
      var rows := if seesOwn then q.rows[i := q.rows[i].(status := Failed, enqueued := true)] else q.rows;
      Become(s, p, Scanning(rows, left, q.changed || s.db.tasks[i].status.Pending?, q.rounds))
        .(db := CascadeFailure(s.db, i))
    else if DepsCompleted(q.rows, i) then
      var rows := if seesOwn then q.rows[i := q.rows[i].(enqueued := true)] else q.rows;
      if s.db.tasks[i].enqueued then Become(s, p, Scanning(rows, left, q.changed, q.rounds))
      else
        Become(s, p, Publishing(i, rows, left, q.rounds)).(
          db := MarkEnqueued(s.db, i),
          history := s.history[i := s.history[i].(released := true)])
    else Become(s, p, Scanning(q.rows, left, q.changed, q.rounds))
  }

  function DoPublish(s: State, p: nat): State
    requires p < |s.procs| && s.procs[p].Publishing?
  {
    var q := s.procs[p];
    Become(s, p, Scanning(q.rows, q.todo, true, q.rounds))
      .(redis := s.redis.(queue := s.redis.queue + [TaskJob(q.task)]))
  }

  function DoEndPass(s: State, p: nat): State
    requires p < |s.procs| && s.procs[p].Scanning?
  {
    var q := s.procs[p];
    Become(s, p, if q.changed then Scheduling(q.rounds + 1) else Finalizing)
  }

  function DoReadForFinalize(s: State, p: nat): State
    requires p < |s.procs|
  {
    var tasks := s.db.tasks;
    Become(s, p,
      if tasks == [] || !AllTerminal(tasks) then Idle else Deciding(VerdictOf(tasks, s.db.results)))
  }

  function DoCommitVerdict(s: State, p: nat): State
    requires p < |s.procs| && s.procs[p].Deciding?
  {
    Become(s, p, Idle).(db := WriteVerdict(s.db, s.procs[p].verdict))
  }

  /** The conditional ZREM: only the remover that found the member pushes it. */
  function DoPromoteRemove(s: State, p: nat): State
    requires p < |s.procs| && s.procs[p].Promoting? && s.procs[p].due != []
  {
    var t, rest := s.procs[p].due[0], s.procs[p].due[1..];
    if t in s.redis.delayed
    then Become(s, p, Moving(t, rest)).(redis := s.redis.(delayed := s.redis.delayed - {t}))
    else Become(s, p, Promoting(rest))
  }

  function DoPromotePush(s: State, p: nat): State
    requires p < |s.procs| && s.procs[p].Moving?
  {
    var q := s.procs[p];
    Become(s, p, Promoting(q.due)).(redis := s.redis.(queue := s.redis.queue + [TaskJob(q.task)]))
  }

  /** The environment delivers again a job that was once pushed. */
  function DoRedeliver(s: State, job: Job): State
    requires job.TaskJob? ==> job.task < |s.history|
  {
    s.(redis := s.redis.(queue := s.redis.queue + [job]),
       history :=
         if job.TaskJob? then s.history[job.task := s.history[job.task].(redelivered := true)]
         else s.history)
  }
}
