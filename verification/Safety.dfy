/**
 * The safety invariant of the step system: rows, processes, execution row.
 * `Core` holds initially and every step keeps it, under any interleaving.
 */
module Safety {
  import opened Text
  import opened Tables
  import opened Sums
  import opened System

  /** attempts a task that is not FAILED can have reached. */
  function Cap(c: Config): nat {
    if c.maxRetries < 0 then 0 else c.maxRetries
  }

  // ---- one row ----

  ghost predicate DependenciesEarlier(tasks: seq<Task>, i: nat)
    requires i < |tasks|
  {
    forall d :: d in tasks[i].dependsOn ==> 0 <= d < i
  }

  /** Dependency order and the life cycle of a row. */
  ghost predicate LifeCycle(c: Config, s: State, i: nat)
    requires i < |s.db.tasks| == |s.history|
  {
    var row, h := s.db.tasks[i], s.history[i];
    && DependenciesEarlier(s.db.tasks, i)
    && (h.released ==> row.enqueued && DepsCompleted(s.db.tasks, i))
    && (row.status.Running? || row.status.Retrying? || row.status.Completed? ==> h.released)
    && (row.status.Pending? && row.enqueued ==> h.released)
    && (!row.enqueued ==> row.status.Pending? && !h.released)
    && (row.status.Failed? && !h.released ==> row.attempts == 0 && Doomed(s.db.tasks, i))
    && (row.status.Failed? && h.released ==> row.attempts == Cap(c) + 1)
    && (!row.status.Failed? ==> row.attempts <= Cap(c))
    && (row.status.Pending? ==> row.attempts == 0)
  }

  /** The result table and the recorded metrics. */
  ghost predicate ResultCoherent(s: State, i: nat)
    requires i < |s.db.tasks| == |s.history|
  {
    var row := s.db.tasks[i];
    && (i in s.db.results ==> Terminal(row.status) && s.history[i].released)
    && (row.status.Completed? ==> i in s.db.results && row.metrics == Some(s.db.results[i].producedBy))
    && (!row.status.Completed? ==> row.metrics == None)
  }

  /** Claims against attempts: exact, counting the increments that stale reads overwrote. */
  ghost predicate ClaimsAccounted(s: State, i: nat)
    requires i < |s.db.tasks| == |s.history|
  {
    var row, h := s.db.tasks[i], s.history[i];
    && h.lost >= 0
    && (!row.status.Completed? ==> h.claims == row.attempts + h.lost + if row.status.Running? then 1 else 0)
    && (row.status.Completed? ==> row.attempts + h.lost <= h.claims <= row.attempts + h.lost + 1)
    && (!h.released ==> h.claims == 0)
    && (row.status.Pending? ==> h.lost == 0)
  }

  ghost predicate TaskOk(c: Config, s: State, i: nat)
    requires i < |s.db.tasks| == |s.history|
  {
    LifeCycle(c, s, i) && ResultCoherent(s, i) && ClaimsAccounted(s, i)
  }

  // ---- one process ----

  ghost predicate Released(s: State, t: nat) {
    t < |s.db.tasks| == |s.history| && s.history[t].released
  }

  ghost predicate StaleOk(c: Config, s: State, x: Stale) {
    && Released(s, x.task)
    && (x.attemptsRead <= Cap(c) || s.db.tasks[x.task].status.Failed?)
    && x.attemptsRead + 1 <= s.history[x.task].claims + if s.db.tasks[x.task].status.Running? then 0 else 1
  }

  ghost predicate BatchOk(c: Config, s: State, batch: seq<Stale>) {
    forall k :: 0 <= k < |batch| ==> StaleOk(c, s, batch[k])
  }

  /** What an old copy of a row still tells about the row now. */
  predicate OldCopy(old_: Task, now: Task) {
    && old_.dependsOn == now.dependsOn
    && (old_.status.Completed? ==> now.status.Completed?)
    && (old_.status.Failed? ==> now.status.Failed?)
    && (!old_.status.Pending? ==> !now.status.Pending?)
    && (old_.enqueued ==> now.enqueued)
  }

  ghost predicate SnapshotOk(s: State, rows: seq<Task>) {
    && |rows| == |s.db.tasks|
    && forall i :: 0 <= i < |rows| ==> OldCopy(rows[i], s.db.tasks[i])
  }

  predicate BelongsTo(todo: set<nat>, n: nat) {
    forall i :: i in todo ==> i < n
  }

  ghost predicate ProcOk(c: Config, s: State, q: Proc) {
    match q
    case Planning => s.db.tasks == []
    case Planned => s.db.tasks != []
    case Holds(t) => Released(s, t)
    case Claimed(t) => Released(s, t) && !s.db.tasks[t].status.Pending?
    case Working(t) => Released(s, t) && !s.db.tasks[t].status.Pending?
    case Recovering(batch) => s.db.tasks != [] && BatchOk(c, s, batch)
    case Delaying(t, _, batch) => Released(s, t) && BatchOk(c, s, batch)
    case Burying(t, a, batch) =>
      Released(s, t) && s.db.tasks[t].status.Failed? && a == Cap(c) + 1 && BatchOk(c, s, batch)
    case Scheduling(_) => s.db.tasks != []
    case Scanning(rows, todo, _, _) =>
      s.db.tasks != [] && SnapshotOk(s, rows) && BelongsTo(todo, |rows|)
    case Publishing(t, rows, todo, _) => Released(s, t) && SnapshotOk(s, rows) && BelongsTo(todo, |rows|)
    case Finalizing => s.db.tasks != []
    case Deciding(v) =>
      s.db.tasks != [] && AllTerminal(s.db.tasks) && v == VerdictOf(s.db.tasks, s.db.results)
    case Moving(t, _) => Released(s, t)
    case _ => true
  }

  function PlannerWeight(q: Proc): nat {
    if q.Planning? || q.Planned? then 1 else 0
  }

  // ---- the whole state ----

  ghost predicate PhaseOk(s: State) {
    var status := s.db.execution.status;
    && |s.history| == |s.db.tasks|
    && (forall i :: i in s.db.results ==> i < |s.db.tasks|)
    && Total(s.procs, PlannerWeight) == (if status == ExecPlanning then 1 else 0)
    && (status == ExecPending ==> s.db.tasks == [])
    && (status == ExecRunning || status == ExecCompleted ==> s.db.tasks != [])
  }

  ghost predicate JobsOk(s: State) {
    && (forall k :: 0 <= k < |s.redis.queue| && s.redis.queue[k].TaskJob? ==> Released(s, s.redis.queue[k].task))
    && (forall t :: t in s.redis.delayed ==> Released(s, t))
  }

  /** A finished execution tells the truth about its rows, for ever. */
  ghost predicate ExecutionOk(s: State) {
    var e, tasks := s.db.execution, s.db.tasks;
    && (e.status == ExecCompleted || (e.status == ExecFailed && tasks != []) ==>
        AllTerminal(tasks) && e == Finalized(e, VerdictOf(tasks, s.db.results)))
    && (e.status != ExecCompleted ==> e.finalResult == None)
  }

  ghost predicate TasksOk(c: Config, s: State) {
    |s.db.tasks| == |s.history| && forall i :: 0 <= i < |s.db.tasks| ==> TaskOk(c, s, i)
  }

  ghost predicate ProcsOk(c: Config, s: State) {
    forall p :: 0 <= p < |s.procs| ==> ProcOk(c, s, s.procs[p])
  }

  ghost predicate Core(c: Config, s: State) {
    PhaseOk(s) && TasksOk(c, s) && ProcsOk(c, s) && JobsOk(s) && ExecutionOk(s)
  }

  lemma CoreShape(c: Config, s: State)
    requires Core(c, s)
    ensures Shape(s)
  {
    forall p | 0 <= p < |s.procs| ensures InRange(s, s.procs[p]) {
      assert ProcOk(c, s, s.procs[p]);
      if s.procs[p].Recovering? || s.procs[p].Delaying? || s.procs[p].Burying? {
        forall k | 0 <= k < |s.procs[p].batch| ensures s.procs[p].batch[k].task < |s.db.tasks| {
          assert StaleOk(c, s, s.procs[p].batch[k]);
        }
      }
    }
  }

  // ---- what no step undoes ----

  predicate RowEvolves(row: Task, h: History, row': Task, h': History) {
    && row'.agent == row.agent && row'.description == row.description && row'.dependsOn == row.dependsOn
    && (Terminal(row.status) ==> row' == row)
    && (!row.status.Pending? ==> !row'.status.Pending?)
    && (row.enqueued ==> row'.enqueued)
    && (h.released ==> h'.released)
    && h.claims <= h'.claims
    && (row'.status.Running? && !row.status.Running? ==> h.claims + 1 <= h'.claims)
    && (row.status.Running? && row'.status.Running? ==> h'.claims == h.claims)
  }

  ghost predicate Evolves(s: State, s': State) {
    && |s.db.tasks| == |s'.db.tasks| == |s.history| == |s'.history|
    && (forall i :: 0 <= i < |s.db.tasks| ==>
          RowEvolves(s.db.tasks[i], s.history[i], s'.db.tasks[i], s'.history[i]))
    && (forall i :: i in s.db.results ==> i in s'.db.results && s'.db.results[i] == s.db.results[i])
  }

  lemma StaleOkEvolves(c: Config, s: State, s': State, x: Stale)
    requires Evolves(s, s') && StaleOk(c, s, x)
    ensures StaleOk(c, s', x)
  {
    var i := x.task;
    assert RowEvolves(s.db.tasks[i], s.history[i], s'.db.tasks[i], s'.history[i]);
  }

  lemma SnapshotOkEvolves(s: State, s': State, rows: seq<Task>)
    requires Evolves(s, s') && SnapshotOk(s, rows)
    ensures SnapshotOk(s', rows)
  {
    forall i | 0 <= i < |rows| ensures OldCopy(rows[i], s'.db.tasks[i]) {
      assert OldCopy(rows[i], s.db.tasks[i]);
      assert RowEvolves(s.db.tasks[i], s.history[i], s'.db.tasks[i], s'.history[i]);
    }
  }

  lemma AllTerminalFrozen(s: State, s': State)
    requires Evolves(s, s') && AllTerminal(s.db.tasks)
    ensures s'.db.tasks == s.db.tasks
  {
    forall i | 0 <= i < |s.db.tasks| ensures s'.db.tasks[i] == s.db.tasks[i] {
      assert RowEvolves(s.db.tasks[i], s.history[i], s'.db.tasks[i], s'.history[i]);
    }
  }

  /** A verdict over terminal rows stays right: rows are frozen and no result they use changes. */
  lemma VerdictStable(c: Config, s: State, s': State)
    requires TasksOk(c, s) && Evolves(s, s') && AllTerminal(s.db.tasks)
    ensures AllTerminal(s'.db.tasks)
    ensures VerdictOf(s'.db.tasks, s'.db.results) == VerdictOf(s.db.tasks, s.db.results)
  {
    AllTerminalFrozen(s, s');
    if AllCompleted(s.db.tasks) {
      forall i | 0 <= i < |s.db.tasks| ensures i in s.db.results {
        assert TaskOk(c, s, i);
      }
      assert Outcomes(s'.db.tasks, s'.db.results) == Outcomes(s.db.tasks, s.db.results);
    }
  }

  lemma ProcOkEvolves(c: Config, s: State, s': State, q: Proc)
    requires TasksOk(c, s) && Evolves(s, s') && ProcOk(c, s, q)
    ensures ProcOk(c, s', q)
  {
    if q.Recovering? || q.Delaying? || q.Burying? {
      forall k | 0 <= k < |q.batch| ensures StaleOk(c, s', q.batch[k]) {
        assert StaleOk(c, s, q.batch[k]);
        StaleOkEvolves(c, s, s', q.batch[k]);
      }
    }
    if q.Burying? {
      assert RowEvolves(s.db.tasks[q.task], s.history[q.task], s'.db.tasks[q.task], s'.history[q.task]);
    }
    if q.Scanning? || q.Publishing? {
      SnapshotOkEvolves(s, s', q.rows);
    }
    if q.Deciding? {
      VerdictStable(c, s, s');
    }
    if q.Holds? || q.Claimed? || q.Working? || q.Delaying? || q.Publishing? || q.Moving? {
      assert RowEvolves(s.db.tasks[q.task], s.history[q.task], s'.db.tasks[q.task], s'.history[q.task]);
    }
  }

  lemma TaskOkEvolves(c: Config, s: State, s': State, i: nat)
    requires Evolves(s, s') && i < |s.db.tasks| && TaskOk(c, s, i)
    requires s'.db.tasks[i] == s.db.tasks[i] && s'.history[i] == s.history[i]
    requires i in s'.db.results <==> i in s.db.results
    ensures TaskOk(c, s', i)
  {
    forall d | d in s.db.tasks[i].dependsOn && 0 <= d < |s.db.tasks| && Terminal(s.db.tasks[d].status)
      ensures s'.db.tasks[d] == s.db.tasks[d]
    {
      assert RowEvolves(s.db.tasks[d], s.history[d], s'.db.tasks[d], s'.history[d]);
    }
    if s.history[i].released {
      assert DepsCompleted(s'.db.tasks, i);
    }
    if Doomed(s.db.tasks, i) {
      assert Doomed(s'.db.tasks, i);
    }
  }
}
