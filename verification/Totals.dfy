/** The totals of an execution, summed field by field from the rows, the results or the runs themselves. */
module Totals {
  import opened Text
  import opened Tables
  import opened Sums

  // ---- from the rows ----

  function RecordedTokens(tasks: seq<Task>): nat {
    if tasks == [] then 0
    else
      var last := tasks[|tasks| - 1];
      RecordedTokens(tasks[..|tasks| - 1]) + match last.metrics case Some(m) => m.tokens case None => 0
  }

  function RecordedCost(tasks: seq<Task>): nat {
    if tasks == [] then 0
    else
      var last := tasks[|tasks| - 1];
      RecordedCost(tasks[..|tasks| - 1]) + match last.metrics case Some(m) => m.cost case None => 0
  }

  lemma TotalLast<T>(xs: seq<T>, f: T -> nat)
    requires xs != []
    ensures Total(xs, f) == Total(xs[..|xs| - 1], f) + f(xs[|xs| - 1])
  {
    var front, last := xs[..|xs| - 1], xs[|xs| - 1];
    TotalAppend(front, [last], f);
    assert xs == front + [last] && [last][1..] == [];
  }

  lemma {:induction false} TotalsAreRecorded(tasks: seq<Task>)
    ensures Total(tasks, TokensSpent) == RecordedTokens(tasks)
    ensures Total(tasks, CostSpent) == RecordedCost(tasks)
  {
    if tasks != [] {
      TotalsAreRecorded(tasks[..|tasks| - 1]);
      TotalLast(tasks, TokensSpent);
      TotalLast(tasks, CostSpent);
    }
  }

  lemma {:induction false} NothingRecorded(tasks: seq<Task>)
    requires forall i :: 0 <= i < |tasks| ==> tasks[i].metrics == None
    ensures RecordedTokens(tasks) == 0 && RecordedCost(tasks) == 0
  {
    if tasks != [] {
      NothingRecorded(tasks[..|tasks| - 1]);
    }
  }

  // ---- from the results ----

  /** Tokens of the agent runs behind the results of the first n tasks, of the COMPLETED ones only. */
  function ProducedTokens(tasks: seq<Task>, results: map<nat, Saved>, n: nat): nat
    requires n <= |tasks|
  {
    if n == 0 then 0
    else
      ProducedTokens(tasks, results, n - 1) +
      if tasks[n - 1].status.Completed? && n - 1 in results then results[n - 1].producedBy.tokens else 0
  }

  function ProducedCost(tasks: seq<Task>, results: map<nat, Saved>, n: nat): nat
    requires n <= |tasks|
  {
    if n == 0 then 0
    else
      ProducedCost(tasks, results, n - 1) +
      if tasks[n - 1].status.Completed? && n - 1 in results then results[n - 1].producedBy.cost else 0
  }

  /** Metrics are recorded exactly for completed rows, and are those behind the result. */
  predicate MetricsCoherent(tasks: seq<Task>, results: map<nat, Saved>) {
    forall i :: 0 <= i < |tasks| ==>
      if tasks[i].status.Completed? then i in results && tasks[i].metrics == Some(results[i].producedBy)
      else tasks[i].metrics == None
  }

  lemma {:induction false} RecordedIsProduced(tasks: seq<Task>, results: map<nat, Saved>, n: nat)
    requires MetricsCoherent(tasks, results) && n <= |tasks|
    ensures RecordedTokens(tasks[..n]) == ProducedTokens(tasks, results, n)
    ensures RecordedCost(tasks[..n]) == ProducedCost(tasks, results, n)
  {
    if n > 0 {
      RecordedIsProduced(tasks, results, n - 1);
      assert tasks[..n][..n - 1] == tasks[..n - 1];
      assert tasks[..n][n - 1] == tasks[n - 1];
    }
  }

  lemma TotalsProduced(tasks: seq<Task>, results: map<nat, Saved>)
    requires MetricsCoherent(tasks, results)
    ensures Total(tasks, TokensSpent) == ProducedTokens(tasks, results, |tasks|)
    ensures Total(tasks, CostSpent) == ProducedCost(tasks, results, |tasks|)
  {
    TotalsAreRecorded(tasks);
    RecordedIsProduced(tasks, results, |tasks|);
    assert tasks[..|tasks|] == tasks;
  }
}
