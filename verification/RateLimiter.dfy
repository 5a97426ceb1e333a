/** middleware.py: the fixed-window rate limiter and its opportunistic cleanup. */
module RateLimiting {
  import opened Text

  datatype Request = Request(isHttp: bool, path: string, apiKey: Option<string>, client: Option<string>, now: real)

  datatype Answer = Forwarded | TooMany(retryAfter: int)

  /** Per key: the window the count belongs to, and the count. */
  type Counts = map<string, (int, nat)>

  function KeyOf(r: Request): string {
    if r.apiKey.Some? && r.apiKey.value != "" then r.apiKey.value
    else if r.client.Some? then r.client.value
    else "anon"
  }

  /** int(now // 60) */
  function Window(now: real): int {
    (now / 60.0).Floor
  }

  /** 60 - int(now % 60) */
  function RetryAfter(now: real): int {
    60 - (now - 60.0 * Window(now) as real).Floor
  }

  predicate Limited(limit: int, r: Request) {
    r.isHttp && limit > 0 && "/api" <= r.path
  }

  /** Whose requests share a counter: a non-empty key comes first, then the client, then everyone without either. */
  lemma CounterShared(r: Request, other: Request)
    ensures r.apiKey.Some? && r.apiKey.value != "" ==> KeyOf(r) == r.apiKey.value
    ensures (r.apiKey == None || r.apiKey.value == "") && r.client.Some? ==> KeyOf(r) == r.client.value
    ensures (r.apiKey == None || r.apiKey.value == "") && r.client == None ==> KeyOf(r) == "anon"
    ensures r.apiKey.Some? && r.apiKey.value != "" && other.apiKey.Some? && other.apiKey.value != "" ==>
      (KeyOf(other) == KeyOf(r) <==> other.apiKey == r.apiKey)
    ensures r.apiKey == None && other.apiKey == None && r.client.Some? && other.client.Some? ==>
      (KeyOf(other) == KeyOf(r) <==> other.client == r.client)
  {
  }

  /** Only HTTP requests to paths that start with /api are limited, and only by a positive limit. */
  lemma LimitedExactly(limit: int, r: Request)
    ensures Limited(limit, r) <==>
      r.isHttp && limit > 0 && |r.path| >= 4 && r.path[0] == '/' && r.path[1..4] == "api"
  {
    if |r.path| >= 4 {
      assert r.path[..4] == [r.path[0]] + r.path[1..4];
      assert "/api" == ['/'] + "api";
      assert "/api" <= r.path <==> r.path[..4] == "/api";
      if r.path[..4] == "/api" {
        assert r.path[..4][0] == '/' && r.path[..4][1..] == "api";
      }
    }
  }

  // ---- the counters ----

  function Stored(counts: Counts, key: string, window: int): nat {
    if key in counts && counts[key].0 == window then counts[key].1 else 0
  }

  function Cleaned(counts: Counts, window: int): Counts {
    if |counts| > 10000 then map k | k in counts && counts[k].0 == window :: counts[k] else counts
  }

  function Charged(counts: Counts, key: string, window: int): Counts {
    Cleaned(counts[key := (window, Stored(counts, key, window) + 1)], window)
  }

  // ---- traces of limited requests ----

  function CountsAfter(trace: seq<Request>): Counts {
    if trace == [] then map[]
    else
      var last := trace[|trace| - 1];
      Charged(CountsAfter(trace[..|trace| - 1]), KeyOf(last), Window(last.now))
  }

  predicate Falls(r: Request, key: string, window: int) {
    KeyOf(r) == key && Window(r.now) == window
  }

  /** The plain count: requests of the trace with this key in this window. */
  function Occurrences(trace: seq<Request>, key: string, window: int): (n: nat)
    ensures n <= |trace|
  {
    if trace == [] then 0
    else
      var last := |trace| - 1;
      Occurrences(trace[..last], key, window) + if Falls(trace[last], key, window) then 1 else 0
  }

  ghost predicate ClockForward(trace: seq<Request>) {
    forall i, j :: 0 <= i < j < |trace| ==> Window(trace[i].now) <= Window(trace[j].now)
  }

  /** What the code decides for the last request of the trace. */
  predicate Admits(limit: int, trace: seq<Request>)
    requires trace != []
  {
    var last := trace[|trace| - 1];
    Stored(CountsAfter(trace[..|trace| - 1]), KeyOf(last), Window(last.now)) + 1 <= limit
  }

  /** What a plain count decides for it. */
  predicate PlainlyAdmits(limit: int, trace: seq<Request>)
    requires trace != []
  {
    var last := trace[|trace| - 1];
    Occurrences(trace, KeyOf(last), Window(last.now)) <= limit
  }

  // ---- what the counters remember, for any clock ----

  /** The last request of the trace makes the limiter forget the key's count of the window. */
  predicate Forgets(trace: seq<Request>, key: string, window: int)
    requires trace != []
  {
    var front, last := trace[..|trace| - 1], trace[|trace| - 1];
    && Window(last.now) != window
    && (KeyOf(last) == key || CleansUp(CountsAfter(front), KeyOf(last), Window(last.now)))
  }

  predicate CleansUp(counts: Counts, key: string, window: int) {
    |counts[key := (window, Stored(counts, key, window) + 1)]| > 10000
  }

  /** The requests of the key in the window since the last one that made it forgotten. */
  function Remembered(trace: seq<Request>, key: string, window: int): nat {
    if trace == [] then 0
    else
      var front, last := trace[..|trace| - 1], trace[|trace| - 1];
      if Falls(last, key, window) then Remembered(front, key, window) + 1
      else if Forgets(trace, key, window) then 0
      else Remembered(front, key, window)
  }

  lemma ChargedStores(counts: Counts, key: string, window: int, other: string, w: int)
    ensures Stored(Charged(counts, key, window), other, w) ==
      if other == key && w == window then Stored(counts, other, w) + 1
      else if w != window && (other == key || CleansUp(counts, key, window)) then 0
      else Stored(counts, other, w)
  {
  }

  lemma {:induction false} StoredIsRemembered(trace: seq<Request>, key: string, window: int)
    ensures Stored(CountsAfter(trace), key, window) == Remembered(trace, key, window)
  {
    hide Charged, Stored, Window, KeyOf, CleansUp;
    if trace != [] {
      var front, last := trace[..|trace| - 1], trace[|trace| - 1];
      StoredIsRemembered(front, key, window);
      ChargedStores(CountsAfter(front), KeyOf(last), Window(last.now), key, window);
    } else {
      NothingStored(key, window);
    }
  }

  lemma NothingStored(key: string, window: int)
    ensures Stored(CountsAfter([]), key, window) == 0
  {
  }

  /** Request i fell in the window and a later request j made the limiter forget it. */
  ghost predicate ForgottenAt(trace: seq<Request>, key: string, window: int, i: nat, j: nat) {
    i < j < |trace| && Falls(trace[i], key, window) && Forgets(trace[..j + 1], key, window)
  }

  ghost predicate Forgotten(trace: seq<Request>, key: string, window: int) {
    exists i: nat, j: nat :: ForgottenAt(trace, key, window, i, j)
  }

  lemma {:induction false} OccursSomewhere(trace: seq<Request>, key: string, window: int)
    ensures Occurrences(trace, key, window) > 0 <==>
      exists i :: 0 <= i < |trace| && Falls(trace[i], key, window)
  {
    if trace != [] {
      OccursSomewhere(trace[..|trace| - 1], key, window);
    }
  }

  lemma ForgottenPrefix(trace: seq<Request>, n: nat, key: string, window: int, i: nat, j: nat)
    requires n <= |trace| && j < n
    ensures ForgottenAt(trace[..n], key, window, i, j) <==> ForgottenAt(trace, key, window, i, j)
  {
    assert trace[..n][..j + 1] == trace[..j + 1];
  }

  lemma ForgottenExtends(trace: seq<Request>, key: string, window: int)
    requires trace != []
    ensures Forgotten(trace, key, window) <==>
      || Forgotten(trace[..|trace| - 1], key, window)
      || (Forgets(trace, key, window) && Occurrences(trace[..|trace| - 1], key, window) > 0)
  {
    var n := |trace| - 1;
    var front := trace[..n];
    assert trace[..n + 1] == trace;
    OccursSomewhere(front, key, window);
    hide Forgets, Falls;
    if Forgotten(trace, key, window) {
      var i: nat, j: nat :| ForgottenAt(trace, key, window, i, j);
      if j < n {
        ForgottenPrefix(trace, n, key, window, i, j);
      } else {
        assert front[i] == trace[i];
      }
    }
    if Forgotten(front, key, window) {
      var i: nat, j: nat :| ForgottenAt(front, key, window, i, j);
      ForgottenPrefix(trace, n, key, window, i, j);
    }
    if Forgets(trace, key, window) && Occurrences(front, key, window) > 0 {
      var i :| 0 <= i < |front| && Falls(front[i], key, window);
      assert ForgottenAt(trace, key, window, i, n);
    }
  }

  /** The counter never exceeds the plain count, and falls short of it exactly when something was forgotten. */
  lemma {:induction false} RememberedAgainstPlain(trace: seq<Request>, key: string, window: int)
    ensures Remembered(trace, key, window) <= Occurrences(trace, key, window)
    ensures Remembered(trace, key, window) < Occurrences(trace, key, window) <==> Forgotten(trace, key, window)
  {
    hide Forgets, Falls;
    if trace != [] {
      RememberedAgainstPlain(trace[..|trace| - 1], key, window);
      ForgottenExtends(trace, key, window);
      FallsIsNoForgetting(trace, key, window);
      hide Forgotten;
    }
  }

  lemma FallsIsNoForgetting(trace: seq<Request>, key: string, window: int)
    requires trace != []
    ensures Falls(trace[|trace| - 1], key, window) ==> !Forgets(trace, key, window)
  {
  }

  /** Whatever the clock does, a request that a plain count admits is admitted. */
  lemma NeverStricter(limit: int, trace: seq<Request>)
    requires trace != []
    ensures PlainlyAdmits(limit, trace) ==> Admits(limit, trace)
  {
    var front, last := trace[..|trace| - 1], trace[|trace| - 1];
    StoredIsRemembered(front, KeyOf(last), Window(last.now));
    RememberedAgainstPlain(front, KeyOf(last), Window(last.now));
    hide Stored, Window, KeyOf, CountsAfter, Forgotten;
  }

  /** The limiter departs from the plain count for some limit exactly when requests of the window were forgotten. */
  lemma DepartsExactlyWhenForgotten(trace: seq<Request>)
    requires trace != []
    ensures
      var front, last := trace[..|trace| - 1], trace[|trace| - 1];
      (exists limit :: Admits(limit, trace) && !PlainlyAdmits(limit, trace)) <==>
      Forgotten(front, KeyOf(last), Window(last.now))
  {
    var front, last := trace[..|trace| - 1], trace[|trace| - 1];
    var key, window := KeyOf(last), Window(last.now);
    StoredIsRemembered(front, key, window);
    RememberedAgainstPlain(front, key, window);
    hide Stored, Window, KeyOf, CountsAfter, Forgotten;
    if Remembered(front, key, window) < Occurrences(front, key, window) {
      var limit := Remembered(front, key, window) + 1;
      assert Admits(limit, trace) && !PlainlyAdmits(limit, trace);
    }
  }

  /** A clock that does not run back forgets nothing of the window it is in. */
  lemma ForwardForgetsNothing(trace: seq<Request>, key: string, window: int)
    requires ClockForward(trace) && forall i :: 0 <= i < |trace| ==> Window(trace[i].now) <= window
    ensures !Forgotten(trace, key, window)
  {
    forall i: nat, j: nat ensures !ForgottenAt(trace, key, window, i, j) {
      if i < j < |trace| {
        assert Window(trace[i].now) <= Window(trace[j].now) <= window;
        assert trace[..j + 1][j] == trace[j];
      }
    }
  }

  /** With a clock that does not run back it decides as a plain count would; the cleanup changes no decision. */
  lemma RefinesPlainCount(limit: int, trace: seq<Request>)
    requires trace != [] && ClockForward(trace)
    ensures Admits(limit, trace) <==> PlainlyAdmits(limit, trace)
  {
    var front, last := trace[..|trace| - 1], trace[|trace| - 1];
    ForwardForgetsNothing(front, KeyOf(last), Window(last.now));
    StoredIsRemembered(front, KeyOf(last), Window(last.now));
    RememberedAgainstPlain(front, KeyOf(last), Window(last.now));
    hide Stored, Window, KeyOf, CountsAfter, Forgotten;
  }

  /** The clock leaves a used-up window and comes back, with one request of the key between: the window starts anew. */
  lemma ClockStepBackForgets(limit: int, trace: seq<Request>, between: Request, r: Request)
    requires limit >= 1 && Occurrences(trace, KeyOf(r), Window(r.now)) >= limit
    requires KeyOf(between) == KeyOf(r) && Window(between.now) != Window(r.now)
    ensures Admits(limit, trace + [between, r]) && !PlainlyAdmits(limit, trace + [between, r])
  {
    var front, key, window := trace + [between], KeyOf(r), Window(r.now);
    assert trace + [between, r] == front + [r];
    assert (front + [r])[..|front|] == front && front[..|trace|] == trace;
    StoredIsRemembered(front, key, window);
    ForgetsOther(front, key, window);
    hide Stored, Window, KeyOf, CountsAfter;
  }

  /** A request of the key in another window leaves nothing remembered and nothing counted. */
  lemma ForgetsOther(trace: seq<Request>, key: string, window: int)
    requires trace != [] && KeyOf(trace[|trace| - 1]) == key && Window(trace[|trace| - 1].now) != window
    ensures Remembered(trace, key, window) == 0
    ensures Occurrences(trace, key, window) == Occurrences(trace[..|trace| - 1], key, window)
  {
    hide CleansUp;
  }

  // ---- how much gets through ----

  /** Requests of this key in this window that the code forwarded. */
  ghost function ForwardedIn(limit: int, trace: seq<Request>, key: string, window: int): nat {
    if trace == [] then 0
    else
      var last := |trace| - 1;
      ForwardedIn(limit, trace[..last], key, window) +
      if Falls(trace[last], key, window) && Admits(limit, trace) then 1 else 0
  }

  /** A window forwards everything up to the limit and nothing beyond it. */
  lemma {:induction false} WindowForwards(limit: nat, trace: seq<Request>, key: string, window: int)
    requires ClockForward(trace)
    ensures var n := Occurrences(trace, key, window);
      ForwardedIn(limit, trace, key, window) == if n <= limit then n else limit
  {
    if trace != [] {
      WindowForwards(limit, trace[..|trace| - 1], key, window);
      RefinesPlainCount(limit, trace);
      hide Admits, Window, KeyOf;
    }
  }

  predicate Within(r: Request, key: string, start: real) {
    KeyOf(r) == key && start <= r.now < start + 60.0
  }

  /** Forwarded requests of this key in the minute that begins at `start`. */
  ghost function ForwardedWithin(limit: int, trace: seq<Request>, key: string, start: real): nat {
    if trace == [] then 0
    else
      var last := |trace| - 1;
      ForwardedWithin(limit, trace[..last], key, start) +
      if Within(trace[last], key, start) && Admits(limit, trace) then 1 else 0
  }

  lemma MinuteSpansTwoWindows(start: real, now: real)
    requires start <= now < start + 60.0
    ensures Window(now) == Window(start) || Window(now) == Window(start) + 1
  {
    assert start / 60.0 <= now / 60.0 < start / 60.0 + 1.0;
  }

  lemma {:induction false} MinuteCountedByWindows(limit: int, trace: seq<Request>, key: string, start: real)
    ensures ForwardedWithin(limit, trace, key, start) <=
      ForwardedIn(limit, trace, key, Window(start)) + ForwardedIn(limit, trace, key, Window(start) + 1)
  {
    if trace != [] {
      var last := trace[|trace| - 1];
      MinuteCountedByWindows(limit, trace[..|trace| - 1], key, start);
      if Within(last, key, start) {
        MinuteSpansTwoWindows(start, last.now);
      }
      hide Admits, Window, KeyOf;
    }
  }

  /** Any minute, however it lies across the windows, forwards at most twice the limit per key. */
  lemma MinuteForwardsTwiceTheLimit(limit: nat, trace: seq<Request>, key: string, start: real)
    requires ClockForward(trace)
    ensures ForwardedWithin(limit, trace, key, start) <= 2 * limit
  {
    MinuteCountedByWindows(limit, trace, key, start);
    WindowForwards(limit, trace, key, Window(start));
    WindowForwards(limit, trace, key, Window(start) + 1);
  }

  // ---- Retry-After ----

  lemma WindowOf(now: real, w: int)
    requires 60.0 * w as real <= now < 60.0 * (w + 1) as real
    ensures Window(now) == w
  {
    assert w as real <= now / 60.0 < (w + 1) as real;
  }

  /** Retry-After is the least whole number of seconds that reaches another window, and it is the next one. */
  lemma RetryAfterIsExact(now: real, less: nat)
    ensures var wait := RetryAfter(now);
      && 1 <= wait <= 60
      && Window(now + wait as real) == Window(now) + 1
      && (less < wait ==> Window(now + less as real) == Window(now))
  {
    var w, wait := Window(now), RetryAfter(now);
    assert w as real <= now / 60.0 < w as real + 1.0;
    assert 60.0 * w as real <= now < 60.0 * w as real + 60.0;
    WindowOf(now + wait as real, w + 1);
    if less < wait {
      WindowOf(now + less as real, w);
    }
  }

  /** A client that waits out Retry-After is served, unless it used up the new window meanwhile. */
  lemma WaitingHelps(limit: int, trace: seq<Request>, refused: Request, again: Request)
    requires limit > 0 && ClockForward(trace + [again]) && refused in trace && KeyOf(again) == KeyOf(refused)
    requires again.now == refused.now + RetryAfter(refused.now) as real
    requires Occurrences(trace, KeyOf(again), Window(refused.now) + 1) < limit
    ensures Admits(limit, trace + [again])
  {
    RetryAfterIsExact(refused.now, 0);
    RefinesPlainCount(limit, trace + [again]);
    assert (trace + [again])[..|trace|] == trace;
  }

  /** The key's counter for the window is one more; beyond 10000 counters those of other windows are dropped. */
  predicate RecordedIn(before: Counts, after: Counts, key: string, window: int) {
    var n := if key in before && before[key].0 == window then before[key].1 else 0;
    var charged := before[key := (window, n + 1)];
    after == if |charged| > 10000 then map k | k in charged && charged[k].0 == window :: charged[k] else charged
  }

  lemma ChargedUnfolds(counts: Counts, key: string, window: int)
    ensures var charged := counts[key := (window, Stored(counts, key, window) + 1)];
      Charged(counts, key, window) ==
        if |charged| > 10000 then map k | k in charged && charged[k].0 == window :: charged[k] else charged
    ensures RecordedIn(counts, Charged(counts, key, window), key, window)
  {
  }

  lemma CountsExtend(trace: seq<Request>, r: Request)
    ensures CountsAfter(trace + [r]) == Charged(CountsAfter(trace), KeyOf(r), Window(r.now))
  {
    assert (trace + [r])[..|trace|] == trace;
  }

  class RateLimiter {
    const limit: int
    var counts: Counts
    ghost var trace: seq<Request>

    constructor (limit: int)
      ensures Valid() && this.limit == limit && trace == []
    {
      this.limit := limit;
      this.counts := map[];
      this.trace := [];
    }

    ghost predicate Valid()
      reads this
    {
      counts == CountsAfter(trace)
    }

    method Handle(r: Request) returns (answer: Answer)
      requires Valid()
      modifies this
      ensures Valid()
      ensures !Limited(limit, r) ==> answer == Forwarded && trace == old(trace) && counts == old(counts)
      ensures Limited(limit, r) ==> trace == old(trace) + [r]
      ensures Limited(limit, r) ==> RecordedIn(old(counts), counts, KeyOf(r), Window(r.now))
      ensures Limited(limit, r) && ClockForward(trace) ==>
        answer == if PlainlyAdmits(limit, trace) then Forwarded else TooMany(RetryAfter(r.now))
    {
      hide CountsAfter, Occurrences, Cleaned, ClockForward, Window, RetryAfter, KeyOf, RecordedIn;
      ghost var before := counts;
      if !r.isHttp {
        return Forwarded;
      }
      if limit <= 0 || !("/api" <= r.path) {
        return Forwarded;
      }
      var key := KeyOf(r);
      var window := Window(r.now);
      var windowStart, count := window, 0;
      if key in counts {
        windowStart, count := counts[key].0, counts[key].1;
      }
      if windowStart != window {
        windowStart, count := window, 0;
      }
      count := count + 1;
      counts := counts[key := (windowStart, count)];
      if |counts| > 10000 {
        counts := map k | k in counts && counts[k].0 == window :: counts[k];
      }
      ChargedUnfolds(before, key, window);
      assert counts == Charged(before, key, window);
      trace := trace + [r];
      assert trace[..|trace| - 1] == old(trace);
      CountsExtend(old(trace), r);
      if ClockForward(trace) {
        RefinesPlainCount(limit, trace);
      }
      if count > limit {
        return TooMany(RetryAfter(r.now));
      }
      return Forwarded;
    }
  }
}
