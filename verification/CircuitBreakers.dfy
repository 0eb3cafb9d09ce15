/**
  The sliding-window circuit breaker (backend/matrix/scheduler/circuit_breaker.py).

  Clock readings are parameters: they never decrease and, like Python's monotonic clock, are
  never negative.  `RecordFailure` reads the clock twice, so a recorded failure has two times.
 */
module CircuitBreakers {
  import opened Prelude

  datatype Config = Config(window: real, threshold: nat, coolOff: real)
  {
    predicate Valid() { window > 0.0 && threshold > 0 && coolOff >= 0.0 }
  }

  /** A failure recorded at `at`, with the clock at `end` when the call returned. */
  datatype Failure = Failure(at: real, end: real)

  datatype State = State(failures: seq<real>, openUntil: real)

  const FRESH := State([], 0.0)

  /** Those of the first `n` times that are not before `cutoff`. */
  function Since(times: seq<real>, n: nat, cutoff: real): seq<real>
    requires n <= |times|
  {
    if n == 0 then []
    else if times[n - 1] >= cutoff then Since(times, n - 1, cutoff) + [times[n - 1]]
    else Since(times, n - 1, cutoff)
  }

  /** One more failure: the old ones inside its window are kept, and it is added. */
  function Recorded(c: Config, s: State, now: real): State
  {
    var kept := Since(s.failures, |s.failures|, now - c.window) + [now];
    State(kept, if |kept| >= c.threshold then now + c.coolOff else s.openUntil)
  }

  predicate Ordered(log: seq<Failure>)
  {
    && (forall i | 0 <= i < |log| :: 0.0 <= log[i].at <= log[i].end)
    && (forall i, j | 0 <= i < j < |log| :: log[i].end <= log[j].at)
  }

  /** `now` may be the next clock reading. */
  predicate Follows(log: seq<Failure>, now: real)
  {
    0.0 <= now && forall i | 0 <= i < |log| :: log[i].end <= now
  }

  /** The state after the first `n` failures of `log`. */
  function Replay(c: Config, log: seq<Failure>, n: nat): State
    requires n <= |log|
  {
    if n == 0 then FRESH else Recorded(c, Replay(c, log, n - 1), log[n - 1].at)
  }

  /** Failure `i` took the breaker from closed to open: the answer of `record_failure`. */
  predicate Edge(c: Config, log: seq<Failure>, i: nat)
    requires i < |log|
  {
    Replay(c, log, i).openUntil <= log[i].at && log[i].end < Replay(c, log, i + 1).openUntil
  }

  predicate EdgeAtEnd(c: Config, log: seq<Failure>)
  {
    log != [] && Edge(c, log, |log| - 1)
  }

  /** How often the breaker reported an opening. */
  function Edges(c: Config, log: seq<Failure>, n: nat): nat
    requires n <= |log|
  {
    if n == 0 then 0 else Edges(c, log, n - 1) + if Edge(c, log, n - 1) then 1 else 0
  }

  lemma {:induction false} ReplayPrefix(c: Config, log: seq<Failure>, more: seq<Failure>, n: nat)
    requires n <= |log|
    ensures Replay(c, log + more, n) == Replay(c, log, n)
    ensures Edges(c, log + more, n) == Edges(c, log, n)
  {
    if n > 0 {
      ReplayPrefix(c, log, more, n - 1);
    }
  }

  lemma ReplayExtend(c: Config, log: seq<Failure>, f: Failure)
    ensures var s := Replay(c, log, |log|);
            var r := Recorded(c, s, f.at);
            && Replay(c, log + [f], |log| + 1) == r
            && (Edge(c, log + [f], |log|) <==> s.openUntil <= f.at && f.end < r.openUntil)
            && (Follows(log, f.at) && Ordered(log) && f.at <= f.end ==> Ordered(log + [f]))
  {
    ReplayPrefix(c, log, [f], |log|);
  }

  /** One more failure, seen from the breaker that records it. */
  lemma FailureRecorded(c: Config, log: seq<Failure>, f: Failure)
    requires Ordered(log) && Follows(log, f.at) && f.at <= f.end
    ensures var s := Replay(c, log, |log|);
            var r := Recorded(c, s, f.at);
            && Ordered(log + [f])
            && Replay(c, log + [f], |log + [f]|) == r
            && (EdgeAtEnd(c, log + [f]) <==> s.openUntil <= f.at && f.end < r.openUntil)
  {
    ReplayExtend(c, log, f);
  }

  // ----- what the breaker is for, stated without its state -----

  /** The times, among the first `n` failures, from `cutoff` on. */
  function Window(log: seq<Failure>, n: nat, cutoff: real): seq<real>
    requires n <= |log|
  {
    if n == 0 then []
    else if log[n - 1].at >= cutoff then Window(log, n - 1, cutoff) + [log[n - 1].at]
    else Window(log, n - 1, cutoff)
  }

  /** Failure `i` completes a window of `threshold` failures. */
  predicate Trips(c: Config, log: seq<Failure>, i: nat)
    requires i < |log|
  {
    |Window(log, i + 1, log[i].at - c.window)| >= c.threshold
  }

  /** The breaker is open at `t` exactly within the cool-off of some tripping failure. */
  ghost predicate OpenAt(c: Config, log: seq<Failure>, n: nat, t: real)
    requires n <= |log|
  {
    exists i :: 0 <= i < n && Trips(c, log, i) && t < log[i].at + c.coolOff
  }

  lemma {:induction false} SincePrefix(times: seq<real>, t: real, n: nat, cutoff: real)
    requires n <= |times|
    ensures Since(times + [t], n, cutoff) == Since(times, n, cutoff)
  {
    if n > 0 {
      SincePrefix(times, t, n - 1, cutoff);
    }
  }

  lemma SinceAppend(times: seq<real>, t: real, cutoff: real)
    ensures Since(times + [t], |times| + 1, cutoff) ==
            if t >= cutoff then Since(times, |times|, cutoff) + [t] else Since(times, |times|, cutoff)
  {
    SincePrefix(times, t, |times|, cutoff);
  }

  /** Forgetting early failures first does not change a later window. */
  lemma {:induction false} SinceWindow(log: seq<Failure>, n: nat, early: real, late: real)
    requires n <= |log| && early <= late
    ensures var w := Window(log, n, early); Since(w, |w|, late) == Window(log, n, late)
  {
    if n > 0 {
      SinceWindow(log, n - 1, early, late);
      SinceAppend(Window(log, n - 1, early), log[n - 1].at, late);
    }
  }

  /** The stored list is exactly the failures inside the window of the last one. */
  lemma {:induction false} FailuresAreTheWindow(c: Config, log: seq<Failure>, n: nat)
    requires c.Valid() && Ordered(log) && n <= |log|
    ensures Replay(c, log, n).failures == if n == 0 then [] else Window(log, n, log[n - 1].at - c.window)
  {
    if n > 1 {
      var early, late := log[n - 2].at - c.window, log[n - 1].at - c.window;
      FailuresAreTheWindow(c, log, n - 1);
      assert log[n - 2].at <= log[n - 2].end <= log[n - 1].at;
      SinceWindow(log, n - 1, early, late);
      assert Replay(c, log, n - 1).failures == Window(log, n - 1, early);
      assert Window(log, n, late) == Window(log, n - 1, late) + [log[n - 1].at];
    }
  }

  /** The state machine refines its definition: closed or open, at every later time. */
  lemma {:induction false} OpenExactly(c: Config, log: seq<Failure>, n: nat, t: real)
    requires c.Valid() && Ordered(log) && n <= |log| && 0.0 <= t && (n == 0 || log[n - 1].at <= t)
    ensures t < Replay(c, log, n).openUntil <==> OpenAt(c, log, n, t)
  {
    if n > 0 {
      FailuresAreTheWindow(c, log, n);
      OpenExactly(c, log, n - 1, t);
      if Trips(c, log, n - 1) {
        assert OpenAt(c, log, n, t) <==> t < log[n - 1].at + c.coolOff;
      } else {
        assert OpenAt(c, log, n, t) <==> OpenAt(c, log, n - 1, t);
      }
    }
  }

  lemma {:induction false} WindowSize(log: seq<Failure>, n: nat, cutoff: real)
    requires n <= |log|
    ensures |Window(log, n, cutoff)| == |set j | 0 <= j < n && log[j].at >= cutoff|
  {
    if n > 0 {
      WindowSize(log, n - 1, cutoff);
      var before := set j | 0 <= j < n - 1 && log[j].at >= cutoff;
      assert (set j | 0 <= j < n && log[j].at >= cutoff)
             == before + if log[n - 1].at >= cutoff then {n - 1} else {};
    }
  }

  /**
    Counted on the history: the breaker is open at `t` exactly if some failure less than a cool-off
    ago had, itself included, `threshold` failures within the window before it.
   */
  lemma OpenByCount(c: Config, log: seq<Failure>, n: nat, t: real)
    requires n <= |log|
    ensures OpenAt(c, log, n, t) <==>
            exists i :: 0 <= i < n && t < log[i].at + c.coolOff
                        && |set j | 0 <= j <= i && log[j].at >= log[i].at - c.window| >= c.threshold
  {
    forall i | 0 <= i < n
      ensures Trips(c, log, i) <==> |set j | 0 <= j <= i && log[j].at >= log[i].at - c.window| >= c.threshold
    {
      WindowSize(log, i + 1, log[i].at - c.window);
      assert (set j | 0 <= j < i + 1 && log[j].at >= log[i].at - c.window)
             == set j | 0 <= j <= i && log[j].at >= log[i].at - c.window;
    }
  }

  /** A failure is reported as an opening exactly if the breaker was closed before it and is open after it. */
  lemma EdgeExactly(c: Config, log: seq<Failure>, i: nat)
    requires c.Valid() && Ordered(log) && i < |log|
    ensures Edge(c, log, i) <==> !OpenAt(c, log, i, log[i].at) && OpenAt(c, log, i + 1, log[i].end)
  {
    OpenExactly(c, log, i, log[i].at);
    OpenExactly(c, log, i + 1, log[i].end);
  }

  // ----- openings are rare -----

  lemma {:induction false} OpenUntilGrows(c: Config, log: seq<Failure>, i: nat, n: nat)
    requires c.Valid() && Ordered(log) && i <= n <= |log|
    ensures Replay(c, log, i).openUntil <= Replay(c, log, n).openUntil
    ensures Replay(c, log, n).openUntil <= if n == 0 then 0.0 else log[n - 1].at + c.coolOff
    decreases n
  {
    if i < n {
      OpenUntilGrows(c, log, i, n - 1);
    } else if n > 0 {
      OpenUntilGrows(c, log, n - 1, n - 1);
    }
  }

  /** Any two openings lie at least a cool-off apart. */
  lemma EdgesApart(c: Config, log: seq<Failure>, i: nat, j: nat)
    requires c.Valid() && Ordered(log) && i < j < |log| && Edge(c, log, i) && Edge(c, log, j)
    ensures log[i].at + c.coolOff <= log[j].at
  {
    OpenUntilGrows(c, log, i + 1, j);
  }

  /** The last of the first `n` failures that opened the breaker, or -1. */
  function LastEdge(c: Config, log: seq<Failure>, n: nat): (r: int)
    requires n <= |log|
    ensures -1 <= r < n
    ensures r >= 0 ==> Edge(c, log, r)
    ensures r == -1 ==> Edges(c, log, n) == 0
  {
    if n == 0 then -1 else if Edge(c, log, n - 1) then n - 1 else LastEdge(c, log, n - 1)
  }

  /** A window that starts after failure `i` holds at most the failures after it. */
  lemma {:induction false} WindowAfter(log: seq<Failure>, i: int, n: nat, cutoff: real)
    requires Ordered(log) && -1 <= i < n <= |log| && (i >= 0 ==> log[i].at < cutoff)
    ensures |Window(log, n, cutoff)| <= n - 1 - i
  {
    if n > i + 1 {
      WindowAfter(log, i, n - 1, cutoff);
    } else if n > 0 {
      WindowBefore(log, n, cutoff);
    }
  }

  lemma {:induction false} WindowBefore(log: seq<Failure>, n: nat, cutoff: real)
    requires Ordered(log) && 0 < n <= |log| && log[n - 1].at < cutoff
    ensures Window(log, n, cutoff) == []
  {
    if n > 1 {
      WindowBefore(log, n - 1, cutoff);
    }
  }

  lemma OneMoreOpening(edges: nat, threshold: nat)
    ensures (edges + 1) * threshold == edges * threshold + threshold
  {
  }

  /** Every reported opening used up `threshold` failures of its own. */
  lemma {:induction false} EdgesPaidFor(c: Config, log: seq<Failure>, n: nat)
    requires c.Valid() && Ordered(log) && c.coolOff > c.window && n <= |log|
    ensures Edges(c, log, n) * c.threshold <= LastEdge(c, log, n) + 1
  {
    if n > 0 {
      EdgesPaidFor(c, log, n - 1);
      if Edge(c, log, n - 1) {
        OpeningPays(c, log, n);
        OneMoreOpening(Edges(c, log, n - 1), c.threshold);
      }
    }
  }

  lemma OpeningPays(c: Config, log: seq<Failure>, n: nat)
    requires c.Valid() && Ordered(log) && c.coolOff > c.window && 0 < n <= |log| && Edge(c, log, n - 1)
    ensures LastEdge(c, log, n - 1) + c.threshold <= n - 1
  {
    var i := LastEdge(c, log, n - 1);
    var cutoff := log[n - 1].at - c.window;
    assert |Window(log, n, cutoff)| >= c.threshold by {
      EdgeTrips(c, log, n - 1);
    }
    assert i >= 0 ==> log[i].at < cutoff by {
      if i >= 0 {
        EdgesApart(c, log, i, n - 1);
      }
    }
    WindowAfter(log, i, n, cutoff);
  }

  /** Only a tripping failure opens the breaker. */
  lemma EdgeTrips(c: Config, log: seq<Failure>, i: nat)
    requires c.Valid() && Ordered(log) && i < |log| && Edge(c, log, i)
    ensures Trips(c, log, i)
  {
    FailuresAreTheWindow(c, log, i + 1);
  }

  /** The bound that makes one alert per opening affordable. */
  ghost predicate AlertsBounded(c: Config)
  {
    forall log | Ordered(log) :: Edges(c, log, |log|) * c.threshold <= |log|
  }

  /** `threshold` failures at 0, and one more when the cool-off ends. */
  function Burst(c: Config): (r: seq<Failure>)
    ensures |r| == c.threshold + 1
  {
    seq(c.threshold + 1, i => if i < c.threshold then Failure(0.0, 0.0) else Failure(c.coolOff, c.coolOff))
  }

  lemma BurstFailures(c: Config, n: nat)
    requires c.Valid() && 0.0 < c.coolOff <= c.window && n <= c.threshold + 1
    ensures |Replay(c, Burst(c), n).failures| == n
  {
    if n > 0 {
      FailuresAreTheWindow(c, Burst(c), n);
      BurstWindow(c, n, Burst(c)[n - 1].at - c.window);
    }
  }

  lemma {:induction false} BurstState(c: Config, n: nat)
    requires c.Valid() && 0.0 < c.coolOff <= c.window && n <= c.threshold + 1
    ensures Replay(c, Burst(c), n).openUntil ==
            if n < c.threshold then 0.0 else if n == c.threshold then c.coolOff else c.coolOff + c.coolOff
    ensures Edges(c, Burst(c), n) == if n < c.threshold then 0 else n - c.threshold + 1
  {
    if n > 0 {
      BurstState(c, n - 1);
      BurstFailures(c, n);
      var f := Burst(c)[n - 1];
      var kept := Replay(c, Burst(c), n).failures;
      assert Replay(c, Burst(c), n).openUntil ==
             if |kept| >= c.threshold then f.at + c.coolOff else Replay(c, Burst(c), n - 1).openUntil;
    }
  }

  lemma {:induction false} BurstWindow(c: Config, n: nat, cutoff: real)
    requires c.Valid() && n <= c.threshold + 1 && cutoff <= 0.0
    ensures |Window(Burst(c), n, cutoff)| == n
  {
    if n > 0 {
      BurstWindow(c, n - 1, cutoff);
    }
  }

  lemma {:induction false} NoOpeningWithoutCoolOff(c: Config, log: seq<Failure>, n: nat)
    requires c.Valid() && c.coolOff == 0.0 && Ordered(log) && n <= |log|
    ensures Edges(c, log, n) == 0
  {
    if n > 0 {
      NoOpeningWithoutCoolOff(c, log, n - 1);
      OpenUntilGrows(c, log, n, n);
    }
  }

  lemma {:induction false} EdgesAtMostFailures(c: Config, log: seq<Failure>, n: nat)
    requires n <= |log|
    ensures Edges(c, log, n) <= n
  {
    if n > 0 {
      EdgesAtMostFailures(c, log, n - 1);
    }
  }

  /** Exactly which configurations guarantee `threshold` failures per opening. */
  lemma AlertsBoundedIff(c: Config)
    requires c.Valid()
    ensures AlertsBounded(c) <==> c.coolOff > c.window || c.coolOff == 0.0 || c.threshold == 1
  {
    if c.coolOff > c.window || c.coolOff == 0.0 || c.threshold == 1 {
      forall log | Ordered(log) ensures Edges(c, log, |log|) * c.threshold <= |log| {
        EdgesAtMostFailures(c, log, |log|);
        if c.coolOff == 0.0 {
          NoOpeningWithoutCoolOff(c, log, |log|);
        } else if c.threshold != 1 {
          EdgesPaidFor(c, log, |log|);
        }
      }
    } else {
      var log := Burst(c);
      BurstState(c, |log|);
      assert Ordered(log) && Edges(c, log, |log|) * c.threshold > |log|;
    }
  }

  class CircuitBreaker {
    const config: Config
    var failures: seq<real>
    var openUntil: real
    ghost var log: seq<Failure>

    ghost predicate Valid()
      reads this
    {
      config.Valid() && Ordered(log) && State(failures, openUntil) == Replay(config, log, |log|)
    }

    constructor (config: Config)
      requires config.Valid()
      ensures Valid() && this.config == config && log == []
    {
      this.config := config;
      failures, openUntil, log := [], 0.0, [];
    }

    method Prune(now: real)
      modifies `failures
      ensures failures == Since(old(failures), |old(failures)|, now - config.window)
    {
      var cutoff := now - config.window;
      failures := Since(failures, |failures|, cutoff);
    }

    method RecordFailure(now: real, end: real) returns (edge: bool)
      requires Valid() && Follows(log, now) && now <= end
      modifies this
      ensures Valid() && log == old(log) + [Failure(now, end)]
      ensures edge == EdgeAtEnd(config, log)
    {
      ghost var before := State(failures, openUntil);
      var wasOpen := now < openUntil;
      SinceAppend(failures, now, now - config.window);
      failures := failures + [now];
      assert |failures| == |before.failures| + 1;
      Prune(now);
      assert failures == Since(before.failures, |before.failures|, now - config.window) + [now];
      if |failures| >= config.threshold {
        openUntil := now + config.coolOff;
      }
      assert State(failures, openUntil) == Recorded(config, before, now);
      edge := !wasOpen && end < openUntil;
      FailureRecorded(config, log, Failure(now, end));
      log := log + [Failure(now, end)];
    }

    method IsOpen(now: real) returns (open: bool)
      requires Valid() && Follows(log, now)
      ensures open <==> OpenAt(config, log, |log|, now)
    {
      OpenExactly(config, log, |log|, now);
      open := now < openUntil;
    }

    method RetryAfter(now: real) returns (wait: real)
      requires Valid() && Follows(log, now)
      ensures 0.0 <= wait && !OpenAt(config, log, |log|, now + wait)
      ensures forall t | now <= t < now + wait :: OpenAt(config, log, |log|, t)
    {
      wait := MaxReal(0.0, openUntil - now);
      OpenExactly(config, log, |log|, now + wait);
      forall t | now <= t < now + wait ensures OpenAt(config, log, |log|, t) {
        OpenExactly(config, log, |log|, t);
      }
    }
  }
}
