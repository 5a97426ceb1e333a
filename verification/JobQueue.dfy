/** jobqueue.py: the Redis list, the delayed sorted set and the dead-letter list. */
module JobQueues {
  import opened Text
  import opened System

  predicate Due(delayed: map<nat, real>, now: real, t: nat) {
    t in delayed && delayed[t] <= now
  }

  function DueSet(delayed: map<nat, real>, now: real): set<nat> {
    set t | t in delayed && delayed[t] <= now
  }

  predicate ByScore(delayed: map<nat, real>, xs: seq<nat>) {
    && (forall k :: 0 <= k < |xs| ==> xs[k] in delayed)
    && forall j, k :: 0 <= j < k < |xs| ==> delayed[xs[j]] <= delayed[xs[k]]
  }

  /** The due members, each once, in score order. */
  ghost predicate DueInOrder(delayed: map<nat, real>, now: real, due: seq<nat>) {
    Distinct(due) && ByScore(delayed, due) && forall t :: t in due <==> Due(delayed, now, t)
  }

  ghost predicate PromotedAs(before: Redis, after: Redis, now: real, due: seq<nat>) {
    DueInOrder(before.delayed, now, due) && after.queue == before.queue + Jobs(due)
  }

  function Jobs(ts: seq<nat>): (jobs: seq<Job>)
    ensures |jobs| == |ts| && forall k :: 0 <= k < |ts| ==> jobs[k] == TaskJob(ts[k])
  {
    seq(|ts|, k requires 0 <= k < |ts| => TaskJob(ts[k]))
  }

  lemma {:induction false} LeastExists(delayed: map<nat, real>, ts: set<nat>) returns (least: nat)
    requires ts != {} && forall t :: t in ts ==> t in delayed
    ensures least in ts && forall t :: t in ts ==> delayed[least] <= delayed[t]
    decreases |ts|
  {
    var t :| t in ts;
    if ts == {t} {
      least := t;
    } else {
      var rest := ts - {t};
      var other := LeastExists(delayed, rest);
      least := if delayed[t] <= delayed[other] then t else other;
      forall u | u in ts ensures delayed[least] <= delayed[u] {
        assert u == t || u in rest;
      }
    }
  }

  class JobQueue {
    var redis: Redis

    constructor ()
      ensures redis == Redis([], map[], [])
    {
      redis := Redis([], map[], []);
    }

    method Enqueue(job: Job)
      modifies this
      ensures redis == old(redis).(queue := old(redis).queue + [job])
    {
      redis := redis.(queue := redis.queue + [job]);
    }

    /** BLPOP: the oldest job, gone from the list once returned. */
    method Dequeue() returns (job: Option<Job>)
      modifies this
      ensures old(redis).queue == [] ==> job == None && redis == old(redis)
      ensures old(redis).queue != [] ==>
        job == Some(old(redis).queue[0]) && redis == old(redis).(queue := old(redis).queue[1..])
    {
      if redis.queue == [] {
        return None;
      }
      job := Some(redis.queue[0]);
      redis := redis.(queue := redis.queue[1..]);
    }

    method ScheduleTask(t: nat, runAt: real)
      modifies this
      ensures redis == old(redis).(delayed := old(redis).delayed[t := runAt])
    {
      redis := redis.(delayed := redis.delayed[t := runAt]);
    }

    method PushDeadLetter(entry: DeadLetter)
      modifies this
      ensures redis == old(redis).(dead := old(redis).dead + [entry])
    {
      redis := redis.(dead := redis.dead + [entry]);
    }

    /** ZRANGEBYSCORE -inf now: the due members in score order. */
    method RangeByScore(now: real) returns (due: seq<nat>)
      ensures DueInOrder(redis.delayed, now, due)
    {
      due := [];
      var rest := DueSet(redis.delayed, now);
      while rest != {}
        invariant forall t :: t in rest ==> Due(redis.delayed, now, t)
        invariant forall t :: t in due || t in rest <==> Due(redis.delayed, now, t)
        invariant forall t :: t in due ==> t !in rest
        invariant Distinct(due) && ByScore(redis.delayed, due)
        invariant forall j, t :: 0 <= j < |due| && t in rest ==> redis.delayed[due[j]] <= redis.delayed[t]
        decreases rest
      {
        ghost var least := LeastExists(redis.delayed, rest);
        var t :| t in rest && forall u :: u in rest ==> redis.delayed[t] <= redis.delayed[u];
        due := due + [t];
        rest := rest - {t};
      }
    }

    /** ZREM: whether the member was there. */
    method Remove(t: nat) returns (removed: bool)
      modifies this
      ensures removed <==> t in old(redis).delayed
      ensures redis == old(redis).(delayed := old(redis).delayed - {t})
    {
      removed := t in redis.delayed;
      redis := redis.(delayed := redis.delayed - {t});
    }

    /** Moves exactly the due members, in score order, each once. */
    method PromoteDue(now: real) returns (moved: nat)
      modifies this
      ensures redis.dead == old(redis).dead
      ensures redis.delayed == old(redis).delayed - DueSet(old(redis).delayed, now)
      ensures exists due :: PromotedAs(old(redis), redis, now, due) && moved == |due|
    {
      var due := RangeByScore(now);
      moved := 0;
      ghost var before := redis;
      for k := 0 to |due|
        invariant redis.dead == before.dead && moved == k
        invariant redis.queue == before.queue + Jobs(due[..k])
        invariant forall t :: t in redis.delayed <==> t in before.delayed && t !in due[..k]
        invariant forall t :: t in redis.delayed ==> redis.delayed[t] == before.delayed[t]
      {
        assert due[..k + 1] == due[..k] + [due[k]];
        assert due[k] !in due[..k];
        var removed := Remove(due[k]);
        if removed {
          Enqueue(TaskJob(due[k]));
          moved := moved + 1;
        }
        assert Jobs(due[..k + 1]) == Jobs(due[..k]) + [TaskJob(due[k])];
      }
      assert due[..|due|] == due;
      assert PromotedAs(before, redis, now, due);
    }
  }
}
