/**
  The token bucket (backend/matrix/scheduler/token_bucket.py).

  Time and tokens are reals.  Between two `await`s the bucket runs without interruption; a
  history of the bucket is the sequence of those stretches, each one a refill at some instant
  followed, perhaps, by taking one token.
 */
module TokenBuckets {
  import opened Prelude

  datatype Config = Config(capacity: nat, rate: real)
  {
    predicate Valid() { capacity >= 1 && rate > 0.0 }
  }

  datatype Bucket = Bucket(tokens: real, lastRefill: real)

  datatype Event = Event(at: real, taken: bool)

  function Refilled(c: Config, b: Bucket, now: real): Bucket
  {
    if now - b.lastRefill > 0.0
    then Bucket(MinReal(c.capacity as real, b.tokens + Accrued(c.rate, now - b.lastRefill)), now)
    else b
  }

  function After(c: Config, b: Bucket, e: Event): Bucket
  {
    var r := Refilled(c, b, e.at);
    if e.taken then r.(tokens := r.tokens - 1.0) else r
  }

  /** The bucket, created full at `born`, after the events of `log`. */
  function Replay(c: Config, born: real, log: seq<Event>): Bucket
  {
    if log == [] then Bucket(c.capacity as real, born)
    else After(c, Replay(c, born, log[..|log| - 1]), log[|log| - 1])
  }

  /** Times never decrease and a token is taken only where the refilled bucket holds one. */
  predicate History(c: Config, born: real, log: seq<Event>)
  {
    log == [] ||
    var b := Replay(c, born, log[..|log| - 1]);
    var e := log[|log| - 1];
    && History(c, born, log[..|log| - 1])
    && b.lastRefill <= e.at
    && (e.taken ==> Refilled(c, b, e.at).tokens >= 1.0)
  }

  lemma {:induction false} TokensBounded(c: Config, born: real, log: seq<Event>)
    requires c.Valid() && History(c, born, log)
    ensures 0.0 <= Replay(c, born, log).tokens <= c.capacity as real
    ensures Replay(c, born, log).lastRefill == if log == [] then born else log[|log| - 1].at
  {
    if log != [] {
      var prefix, e := log[..|log| - 1], log[|log| - 1];
      TokensBounded(c, born, prefix);
      RefillBounds(c, Replay(c, born, prefix), e.at);
    }
  }

  lemma RefillBounds(c: Config, b: Bucket, now: real)
    requires c.Valid() && b.lastRefill <= now && 0.0 <= b.tokens <= c.capacity as real
    ensures b.tokens <= Refilled(c, b, now).tokens <= c.capacity as real
    ensures Refilled(c, b, now).tokens <= b.tokens + Accrued(c.rate, now - b.lastRefill)
    ensures Refilled(c, b, now).lastRefill == now
  {
    AccruedNonNegative(c.rate, now - b.lastRefill);
  }

  /** Tokens granted at instants in [from, to]. */
  function Grants(log: seq<Event>, from: real, to: real): nat
  {
    if log == [] then 0
    else
      var e := log[|log| - 1];
      Grants(log[..|log| - 1], from, to) + if e.taken && from <= e.at <= to then 1 else 0
  }

  lemma {:induction false} GrantsBefore(c: Config, born: real, log: seq<Event>, from: real, to: real)
    requires c.Valid() && History(c, born, log) && (log == [] || log[|log| - 1].at < from)
    ensures Grants(log, from, to) == 0
  {
    if log != [] {
      TokensBounded(c, born, log[..|log| - 1]);
      GrantsBefore(c, born, log[..|log| - 1], from, to);
    }
  }

  /** What is left in the bucket and what was granted since `from` came out of one full bucket and the refill. */
  lemma {:induction false} Potential(c: Config, born: real, log: seq<Event>, from: real, to: real)
    requires c.Valid() && History(c, born, log) && log != [] && from <= log[|log| - 1].at <= to
    ensures Replay(c, born, log).tokens + Grants(log, from, to) as real
            <= c.capacity as real + Accrued(c.rate, log[|log| - 1].at - from)
  {
    var prefix, e := log[..|log| - 1], log[|log| - 1];
    var b := Replay(c, born, prefix);
    TokensBounded(c, born, prefix);
    RefillBounds(c, b, e.at);
    AccruedNonNegative(c.rate, e.at - from);
    if prefix == [] || prefix[|prefix| - 1].at < from {
      GrantsBefore(c, born, prefix, from, to);
    } else {
      Potential(c, born, prefix, from, to);
      AccruedSplit(c.rate, from, b.lastRefill, e.at);
    }
  }

  /** In any history, the tokens granted within [from, to] are at most one burst plus the refill. */
  lemma {:induction false} RateBound(c: Config, born: real, log: seq<Event>, from: real, to: real)
    requires c.Valid() && History(c, born, log) && from <= to
    ensures Grants(log, from, to) as real <= c.capacity as real + Accrued(c.rate, to - from)
  {
    AccruedNonNegative(c.rate, to - from);
    if log != [] {
      var last := log[|log| - 1].at;
      if last > to {
        RateBound(c, born, log[..|log| - 1], from, to);
      } else if last < from {
        GrantsBefore(c, born, log, from, to);
      } else {
        Potential(c, born, log, from, to);
        TokensBounded(c, born, log);
        AccruedNonNegative(c.rate, to - last);
        AccruedSplit(c.rate, from, last, to);
      }
    }
  }

  /** The monotonic clock; `drift` bounds how far it moves between two readings with no `await` in between. */
  class Clock {
    var now: real
    const drift: real

    constructor (now: real, drift: real)
      requires drift >= 0.0
      ensures this.now == now && this.drift == drift
    {
      this.now, this.drift := now, drift;
    }

    method Monotonic() returns (t: real)
      requires drift >= 0.0
      modifies this
      ensures old(now) <= now <= old(now) + drift && t == now
    {
      var d: real := *;
      if 0.0 <= d <= drift {
        now := now + d;
      }
      t := now;
    }

    /** `asyncio.sleep`: it may oversleep. */
    method Sleep(wait: real)
      requires wait >= 0.0
      modifies this
      ensures now >= old(now) + wait
    {
      var over: real := *;
      now := now + wait + MaxReal(0.0, over);
    }
  }

  datatype Outcome = Granted | TimedOut | Slept

  class TokenBucket {
    const config: Config
    ghost const born: real
    var tokens: real
    var lastRefill: real
    ghost var log: seq<Event>
    ghost var grants: nat

    ghost predicate Valid()
      reads this
    {
      && config.Valid()
      && History(config, born, log)
      && Replay(config, born, log) == Bucket(tokens, lastRefill)
      && grants == Takes(log)
    }

    constructor (capacity: nat, refillRate: real, clock: Clock)
      requires capacity > 0 && refillRate > 0.0 && clock.drift >= 0.0
      modifies clock
      ensures Valid() && config == Config(capacity, refillRate) && log == [] && fresh(this)
      ensures lastRefill == clock.now && tokens == capacity as real
    {
      config := Config(capacity, refillRate);
      tokens := capacity as real;
      var now := clock.Monotonic();
      lastRefill, born := now, now;
      log, grants := [], 0;
    }

    method Refill(clock: Clock)
      requires Valid() && lastRefill <= clock.now && clock.drift >= 0.0
      modifies `tokens, `lastRefill, clock
      ensures old(clock.now) <= clock.now <= old(clock.now) + clock.drift
      ensures Bucket(tokens, lastRefill) == Refilled(config, old(Bucket(tokens, lastRefill)), clock.now)
      ensures lastRefill == clock.now
    {
      var now := clock.Monotonic();
      var elapsed := now - lastRefill;
      if elapsed > 0.0 {
        tokens := MinReal(config.capacity as real, tokens + Accrued(config.rate, elapsed));
        lastRefill := now;
      }
    }

    /** One stretch without `await`: refill, then take a token if there is one. */
    method TryTake(clock: Clock) returns (taken: bool)
      requires Valid() && lastRefill <= clock.now && clock.drift >= 0.0
      modifies this, clock
      ensures Valid() && lastRefill == clock.now
      ensures old(clock.now) <= clock.now <= old(clock.now) + clock.drift
      ensures |log| == |old(log)| + 1 && log[..|old(log)|] == old(log)
      ensures log[|old(log)|] == Event(clock.now, taken)
      ensures !taken ==> tokens < 1.0
      ensures !taken ==> Bucket(tokens, lastRefill) == Refilled(config, old(Bucket(tokens, lastRefill)), clock.now)
      ensures grants == old(grants) + if taken then 1 else 0
    {
      Refill(clock);
      taken := tokens >= 1.0;
      if taken {
        tokens := tokens - 1.0;
        grants := grants + 1;
      }
      log := log + [Event(clock.now, taken)];
      assert log[..|log| - 1] == old(log);
    }

    /** `asyncio.sleep`; unless alone, other acquirers use the bucket meanwhile. */
    method Pause(wait: real, clock: Clock, alone: bool)
      requires Valid() && lastRefill <= clock.now && clock.drift >= 0.0 && wait >= 0.0
      modifies this, clock
      ensures Valid() && lastRefill <= clock.now && old(clock.now) + wait <= clock.now
      ensures old(log) <= log && grants >= old(grants)
      ensures alone ==> grants == old(grants) && tokens == old(tokens) && lastRefill == old(lastRefill)
    {
      clock.Sleep(wait);
      if alone {
        return;
      }
      var n: nat := *;
      while n > 0
        invariant Valid() && lastRefill <= clock.now && old(clock.now) + wait <= clock.now
        invariant old(log) <= log && grants >= old(grants)
      {
        var _ := TryTake(clock);
        n := n - 1;
      }
    }

    /**
      One pass of the waiting loop: a refused pass sleeps unless the deadline has gone by.
      `refillAt` and `at` are the two clock readings of the pass.
     */
    method Round(deadline: real, clock: Clock, alone: bool)
      returns (outcome: Outcome, ghost refillAt: real, ghost at: real)
      requires Valid() && lastRefill <= clock.now && clock.drift >= 0.0
      modifies this, clock
      ensures Valid() && lastRefill <= clock.now && old(log) <= log
      ensures old(clock.now) <= refillAt <= old(clock.now) + clock.drift && refillAt <= clock.now
      ensures outcome != Granted ==> Refilled(config, old(Bucket(tokens, lastRefill)), refillAt).tokens < 1.0
      ensures outcome != Granted ==> refillAt <= at <= refillAt + clock.drift && at <= clock.now
      ensures outcome == TimedOut <==> outcome != Granted && deadline <= at
      ensures outcome == Slept ==> at + MinReal(1.0 / config.rate, deadline - at) <= clock.now
      ensures grants >= old(grants) + if outcome == Granted then 1 else 0
      ensures alone ==> grants == old(grants) + if outcome == Granted then 1 else 0
      ensures alone && outcome != Granted ==>
                Bucket(tokens, lastRefill) == Refilled(config, old(Bucket(tokens, lastRefill)), refillAt)
    {
      var taken := TryTake(clock);
      refillAt, at := clock.now, clock.now;
      if taken {
        return Granted, refillAt, at;
      }
      var now := clock.Monotonic();
      at := now;
      var remaining := deadline - now;
      if remaining <= 0.0 {
        return TimedOut, refillAt, at;
      }
      var gap := 1.0 / config.rate;
      assert gap > 0.0;
      Pause(MinReal(gap, remaining), clock, alone);
      outcome := Slept;
    }

    /**
      The waiting loop of the source.  `alone` says that nobody else uses the bucket meanwhile.
      The result is `false` where the source raises `RateLimitTimeout`.
     */
    method Acquire(timeout: real, clock: Clock, alone: bool) returns (granted: bool, ghost sleeps: nat)
      requires Valid() && lastRefill <= clock.now && clock.drift >= 0.0
      modifies this, clock
      ensures Valid() && lastRefill <= clock.now && old(clock.now) <= clock.now && old(log) <= log
      ensures granted ==> grants > old(grants)
      ensures alone ==> grants == old(grants) + if granted then 1 else 0
      // `sleeps` is at most ceil(timeout * rate)
      ensures if timeout <= 0.0 then sleeps == 0 else sleeps as real < Accrued(config.rate, timeout) + 1.0
      ensures alone && LongEnough(config, timeout, clock.drift) ==> granted && sleeps <= 1
    {
      sleeps := 0;
      if timeout <= 0.0 {
        assert 1.0 / config.rate > 0.0;
        granted := TryTake(clock);
        return;
      }
      var first := clock.Monotonic();
      var deadline := first + timeout;
      ghost var since, gap := lastRefill, 1.0 / config.rate;
      ghost var most, enough := Accrued(config.rate, timeout), LongEnough(config, timeout, clock.drift);
      ReadyStart(config, born, log);
      assert gap > 0.0 && Times(gap, 0.0) == 0.0 && most >= 0.0;
      while true
        invariant Valid() && lastRefill <= clock.now && first <= clock.now
        invariant old(log) <= log && grants >= old(grants)
        invariant alone ==> grants == old(grants)
        invariant alone ==> Waiting(config, since, gap, enough, sleeps, Bucket(tokens, lastRefill), clock.now)
        invariant sleeps == 0 ==> clock.now == first
        invariant sleeps as real < most + 1.0
        invariant deadline <= clock.now || first + Times(gap, sleeps as real) <= clock.now
        decreases most.Floor + 2 - sleeps
      {
        ghost var before, began := Bucket(tokens, lastRefill), clock.now;
        var outcome, refillAt, at := Round(deadline, clock, alone);
        if outcome == Granted {
          return true, sleeps;
        }
        if alone {
          RefusedAlone(config, since, first, gap, timeout, clock.drift, enough, sleeps, before, began, refillAt, at);
        }
        if outcome == TimedOut {
          return false, sleeps;
        }
        FullSleeps(config.rate, gap, sleeps, timeout);
        sleeps := sleeps + 1;
      }
    }
  }

  /** The timeouts with which a lone acquirer is always served. */
  predicate LongEnough(c: Config, timeout: real, drift: real)
    requires c.Valid()
  {
    timeout >= 1.0 / c.rate && (timeout > 2.0 * drift || timeout >= 1.0 / c.rate + drift)
  }

  // ----- a lone acquirer, as a sequence of refused passes -----

  /** The two clock readings of a pass that begins with the clock at `start`. */
  datatype Pass = Pass(start: real, refillAt: real, at: real)

  /** The bucket `b` after the refills of the first `n` passes. */
  function AfterPasses(c: Config, b: Bucket, passes: seq<Pass>, n: nat): Bucket
    requires n <= |passes|
  {
    if n == 0 then b else Refilled(c, AfterPasses(c, b, passes, n - 1), passes[n - 1].refillAt)
  }

  /** Each reading comes at most `drift` after the last one, and the refill leaves no whole token. */
  predicate Refuses(c: Config, b: Bucket, drift: real, pass: Pass)
  {
    && pass.start <= pass.refillAt <= pass.start + drift && pass.refillAt <= pass.at <= pass.refillAt + drift
    && Refilled(c, b, pass.refillAt).tokens < 1.0
  }

  /** After a refusal before the deadline the next pass follows a sleep of one gap, or up to the deadline. */
  predicate SleepsBetween(c: Config, deadline: real, pass: Pass, next: Pass)
    requires c.Valid()
  {
    pass.at < deadline && pass.at + MinReal(1.0 / c.rate, deadline - pass.at) <= next.start
  }

  ghost predicate AllRefused(c: Config, b: Bucket, first: real, timeout: real, drift: real, passes: seq<Pass>)
    requires c.Valid()
  {
    && (passes != [] ==> passes[0].start == first)
    && (forall i | 0 <= i < |passes| :: Refuses(c, AfterPasses(c, b, passes, i), drift, passes[i]))
    && (forall i | 0 < i < |passes| :: SleepsBetween(c, first + timeout, passes[i - 1], passes[i]))
  }

  /** The acquirer that starts at `first` is refused until its deadline has passed. */
  ghost predicate TimesOut(c: Config, b: Bucket, first: real, timeout: real, drift: real, passes: seq<Pass>)
    requires c.Valid()
  {
    && AllRefused(c, b, first, timeout, drift, passes)
    && passes != [] && first + timeout <= passes[|passes| - 1].at
  }

  /** The bucket of some history times out an acquirer that has it to itself from `first` on. */
  ghost predicate LoneTimeout(c: Config, timeout: real, drift: real,
                              born: real, log: seq<Event>, first: real, passes: seq<Pass>)
    requires c.Valid()
  {
    && History(c, born, log) && Replay(c, born, log).lastRefill <= first
    && TimesOut(c, Replay(c, born, log), first, timeout, drift, passes)
  }

  /** With a long enough timeout only the first pass can be refused, and that before the deadline. */
  lemma {:induction false} ServedInTwo(c: Config, b: Bucket, first: real, timeout: real, drift: real,
                                       passes: seq<Pass>, n: nat)
    requires c.Valid() && ReadyBy(c, b.lastRefill, b) && b.lastRefill <= first && drift >= 0.0
    requires LongEnough(c, timeout, drift) && AllRefused(c, b, first, timeout, drift, passes) && n <= |passes|
    ensures n <= 1 && ReadyBy(c, b.lastRefill, AfterPasses(c, b, passes, n))
    ensures n == 1 ==> first <= passes[0].at < first + timeout
    ensures n == 1 ==> AfterPasses(c, b, passes, 1).lastRefill == passes[0].refillAt
  {
    if n > 0 {
      ServedInTwo(c, b, first, timeout, drift, passes, n - 1);
      var gap, before, pass := 1.0 / c.rate, AfterPasses(c, b, passes, n - 1), passes[n - 1];
      assert Refuses(c, before, drift, pass);
      if n == 2 {
        assert SleepsBetween(c, first + timeout, passes[0], pass);
      }
      RefusedAlone(c, b.lastRefill, first, gap, timeout, drift, true, n - 1, before, pass.start,
                   pass.refillAt, pass.at);
      RefillAt(c, before, pass.refillAt);
    }
  }

  /** `k` tokens taken from a new bucket at once. */
  lemma {:induction false} Drained(c: Config, born: real, k: nat) returns (log: seq<Event>)
    requires c.Valid() && k <= c.capacity
    ensures History(c, born, log) && Replay(c, born, log) == Bucket((c.capacity - k) as real, born)
  {
    log := [];
    if k > 0 {
      var shorter := Drained(c, born, k - 1);
      log := shorter + [Event(born, true)];
      assert log[..|log| - 1] == shorter;
      TokensBounded(c, born, shorter);
    }
  }

  lemma EmptyRefilled(c: Config, since: real, at: real)
    requires c.Valid() && since <= at < since + 1.0 / c.rate
    ensures Refilled(c, Bucket(0.0, since), at).tokens < 1.0
    ensures Refilled(c, Bucket(0.0, since), at) == Bucket(Refilled(c, Bucket(0.0, since), at).tokens, at)
  {
    GapNotFull(c.rate, at - since);
  }

  /** On an empty bucket: refused once for good, or after its only sleep, or while the clock runs past the deadline. */
  lemma EmptyTimesOut(c: Config, since: real, timeout: real, drift: real) returns (passes: seq<Pass>)
    requires c.Valid() && drift >= 0.0 && !LongEnough(c, timeout, drift)
    ensures TimesOut(c, Bucket(0.0, since), since, timeout, drift, passes)
  {
    var b, gap, deadline := Bucket(0.0, since), 1.0 / c.rate, since + timeout;
    assert gap > 0.0;
    EmptyRefilled(c, since, since);
    if timeout <= 0.0 {
      passes := [Pass(since, since, since)];
    } else if timeout < gap {
      passes := [Pass(since, since, since), Pass(deadline, deadline, deadline)];
      EmptyRefilled(c, since, deadline);
      assert Refilled(c, b, since) == b;
      assert AfterPasses(c, b, passes, 1) == b;
    } else {
      var at := MaxReal(since, deadline - drift);
      EmptyRefilled(c, since, at);
      passes := [Pass(since, at, deadline)];
    }
  }

  /** Exactly which timeouts can run out on an acquirer that has the bucket to itself. */
  lemma LoneTimeoutIff(c: Config, timeout: real, drift: real)
    requires c.Valid() && drift >= 0.0
    ensures (exists born, log, first, passes :: LoneTimeout(c, timeout, drift, born, log, first, passes))
            <==> !LongEnough(c, timeout, drift)
  {
    if LongEnough(c, timeout, drift) {
      forall born, log, first, passes
        ensures !LoneTimeout(c, timeout, drift, born, log, first, passes)
      {
        if LoneTimeout(c, timeout, drift, born, log, first, passes) {
          ReadyStart(c, born, log);
          ServedInTwo(c, Replay(c, born, log), first, timeout, drift, passes, |passes|);
        }
      }
    } else {
      var log := Drained(c, 0.0, c.capacity);
      var passes := EmptyTimesOut(c, 0.0, timeout, drift);
      assert LoneTimeout(c, timeout, drift, 0.0, log, 0.0, passes);
    }
  }

  lemma GapNotFull(rate: real, d: real)
    requires rate > 0.0 && d < 1.0 / rate
    ensures Accrued(rate, d) < 1.0
  {
    ScaleUp(rate, d, 1.0 / rate);
    assert rate * (1.0 / rate) == 1.0;
  }

  /** With nobody taking, the bucket holds what accrued since `since`, or is full. */
  ghost predicate ReadyBy(c: Config, since: real, b: Bucket)
  {
    since <= b.lastRefill && b.tokens >= MinReal(c.capacity as real, Accrued(c.rate, b.lastRefill - since))
  }

  lemma ReadyStart(c: Config, born: real, log: seq<Event>)
    requires c.Valid() && History(c, born, log)
    ensures var b := Replay(c, born, log); ReadyBy(c, b.lastRefill, b)
  {
    TokensBounded(c, born, log);
    assert Accrued(c.rate, 0.0) == 0.0;
  }

  lemma ReadyKept(c: Config, since: real, b: Bucket, now: real)
    requires c.Valid() && ReadyBy(c, since, b) && b.lastRefill <= now
    ensures ReadyBy(c, since, Refilled(c, b, now))
  {
    AccruedNonNegative(c.rate, now - b.lastRefill);
    AccruedNonNegative(c.rate, b.lastRefill - since);
    AccruedSplit(c.rate, since, b.lastRefill, now);
  }

  lemma ReadySoon(c: Config, since: real, b: Bucket)
    requires c.Valid() && ReadyBy(c, since, b) && b.tokens < 1.0
    ensures b.lastRefill - since < 1.0 / c.rate
  {
    var d := b.lastRefill - since;
    assert Accrued(c.rate, d) < 1.0;
    LessThanGap(c.rate, d);
  }

  /** The state of a lone acquirer at the head of its loop. */
  ghost predicate Waiting(c: Config, since: real, gap: real, enough: bool,
                          sleeps: nat, b: Bucket, now: real)
  {
    && ReadyBy(c, since, b)
    && (enough ==> sleeps <= 1 && (sleeps == 1 ==> since + gap <= now))
  }

  lemma RefusedAlone(c: Config, since: real, first: real, gap: real, timeout: real, drift: real, enough: bool,
                     sleeps: nat, b: Bucket, now: real, refillAt: real, at: real)
    requires c.Valid() && gap == 1.0 / c.rate && enough == LongEnough(c, timeout, drift)
    requires Waiting(c, since, gap, enough, sleeps, b, now)
    requires since <= first <= now && (sleeps == 0 ==> now == first)
    requires b.lastRefill <= now <= refillAt <= at && refillAt <= now + drift && at <= refillAt + drift
    requires Refilled(c, b, refillAt).tokens < 1.0
    ensures ReadyBy(c, since, Refilled(c, b, refillAt))
    ensures enough ==> sleeps == 0 && at < first + timeout && gap <= timeout
  {
    ReadyKept(c, since, b, refillAt);
    RefillAt(c, b, refillAt);
    ReadySoon(c, since, Refilled(c, b, refillAt));
  }

  lemma RefillAt(c: Config, b: Bucket, now: real)
    requires b.lastRefill <= now
    ensures Refilled(c, b, now).lastRefill == now
  {
  }

  lemma LessThanGap(rate: real, d: real)
    requires rate > 0.0 && Accrued(rate, d) < 1.0
    ensures d < 1.0 / rate
  {
    assert d == (rate * d) / rate;
  }

  /** Before the deadline every sleep was a full one, so there were few of them. */
  lemma FullSleeps(rate: real, gap: real, sleeps: nat, timeout: real)
    requires rate > 0.0 && gap == 1.0 / rate
    ensures Times(gap, sleeps as real + 1.0) == Times(gap, sleeps as real) + gap
    ensures Times(gap, sleeps as real) < timeout ==> sleeps as real < Accrued(rate, timeout)
  {
    assert gap * (sleeps as real + 1.0) == gap * (sleeps as real) + gap;
    if gap * (sleeps as real) < timeout {
      ScaleUp(rate, gap * (sleeps as real), timeout);
      assert rate * (gap * (sleeps as real)) == (rate * gap) * (sleeps as real);
      assert rate * gap == 1.0;
    }
  }

  lemma ScaleUp(rate: real, a: real, b: real)
    requires rate > 0.0 && a < b
    ensures rate * a < rate * b
  {
    assert rate * (b - a) > 0.0;
  }

  function Takes(log: seq<Event>): nat
  {
    if log == [] then 0 else Takes(log[..|log| - 1]) + if log[|log| - 1].taken then 1 else 0
  }
}
