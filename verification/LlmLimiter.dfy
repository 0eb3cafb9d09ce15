/**
  The permits of the LLM rate limiter (backend/matrix/agent/llm_rate_limiter.py) and the retry
  loop that runs while one is held (backend/matrix/agent/_services.py).

  A token timeout passes through two release statements, so it gives back two permits for the
  one it took.  The laws below are about the code as it is, with the token buckets of the models.
 */
module LlmLimiter {
  import opened Prelude
  import T = TokenBuckets

  /** How waiting for the semaphore ends. */
  datatype SlotWait = Obtained | SlotTimeout | Cancelled

  /** How waiting for a model token ends. */
  datatype TokenWait = Granted | TimedOut | Interrupted

  datatype Acquired = Held | RateLimitTimeout | OtherError

  function AcquireEnds(slot: SlotWait, wait: TokenWait): Acquired
  {
    if slot == SlotTimeout || (slot == Obtained && wait == TimedOut) then RateLimitTimeout
    else if slot == Obtained && wait == Granted then Held
    else OtherError
  }

  /** Only a token timeout gives back more than was taken. */
  function PermitsGained(slot: SlotWait, wait: TokenWait): int
  {
    if slot != Obtained || wait == Interrupted then 0 else if wait == Granted then -1 else 1
  }

  class LLMRateLimiter {
    /** The value of the semaphore. */
    var permits: nat

    constructor (n: nat)
      ensures permits == n
    {
      permits := n;
    }

    /** A timeout of either wait is reported as one; any other exception goes through. */
    method Acquire(slot: SlotWait, wait: TokenWait) returns (r: Acquired)
      requires slot == Obtained ==> permits > 0
      modifies this
      ensures r == AcquireEnds(slot, wait)
      ensures permits == old(permits) + PermitsGained(slot, wait)
      ensures r == Held <==> slot == Obtained && wait == Granted
      ensures r == RateLimitTimeout <==> slot == SlotTimeout || (slot == Obtained && wait == TimedOut)
      ensures permits == old(permits) + if slot != Obtained || wait == Interrupted then 0
                                        else if wait == Granted then -1 else 1
    {
      if slot != Obtained {
        return if slot == SlotTimeout then RateLimitTimeout else OtherError;
      }
      permits := permits - 1;
      r := Held;
      if wait == TimedOut {
        permits := permits + 1;
        r := RateLimitTimeout;
      } else if wait == Interrupted {
        r := OtherError;
      }
      if r != Held {
        permits := permits + 1;
      }
    }

    method Release()
      modifies this
      ensures permits == old(permits) + 1
    {
      permits := permits + 1;
    }
  }

  // ----- the retry loop -----

  datatype Reply = Text(text: string) | LlmError(message: string) | OtherException(message: string)

  datatype Completion = Returned(text: string) | Raised(message: string) | NotAdmitted(why: Acquired)

  function Backoff(attempt: nat): real
  {
    if attempt <= 1 then 1.0 else if attempt == 2 then 3.0 else 9.0
  }

  /** A delay within ten percent of the backoff for its attempt. */
  predicate DelayOk(attempt: nat, delay: real)
  {
    0.9 * Backoff(attempt) <= delay <= 1.1 * Backoff(attempt)
  }

  /** After the first attempt about one second, after the second about three, after any later one about nine. */
  lemma DelaysExactly(attempt: nat, delay: real)
    requires attempt >= 1
    ensures DelayOk(attempt, delay) <==>
            if attempt == 1 then 0.9 <= delay <= 1.1
            else if attempt == 2 then 2.7 <= delay <= 3.3
            else 8.1 <= delay <= 9.9
  {
  }

  /** `replies(i)` is what the model answers to attempt `i`, `jitter(i)` the random factor after it. */
  method LlmComplete(rate: LLMRateLimiter?, retries: int, replies: nat -> Reply, jitter: nat -> real,
                     slot: SlotWait, wait: TokenWait)
    returns (r: Completion, attempts: nat, delays: seq<real>)
    requires rate != null && slot == Obtained ==> rate.permits > 0
    requires forall i :: -0.1 <= jitter(i) <= 0.1
    modifies rate
    // the one permit taken is given back on success and on failure alike
    ensures rate != null && !r.NotAdmitted? ==> rate.permits == old(rate.permits)
    ensures r.NotAdmitted? <==> rate != null && AcquireEnds(slot, wait) != Held
    ensures r.NotAdmitted? ==> r.why == AcquireEnds(slot, wait) && attempts == 0
    ensures r.NotAdmitted? ==> rate.permits == old(rate.permits) + PermitsGained(slot, wait)
    ensures !r.NotAdmitted? ==> 1 <= attempts <= Max(1, retries)
    ensures forall i | 1 <= i < attempts :: replies(i).LlmError?
    ensures match r
            case Returned(text) => replies(attempts) == Text(text)
            case Raised(message) => replies(attempts) == OtherException(message)
                                    || (replies(attempts) == LlmError(message) && attempts == Max(1, retries))
            case NotAdmitted(_) => true
    ensures |delays| == Max(0, attempts - 1) && forall i | 0 <= i < |delays| :: DelayOk(i + 1, delays[i])
  {
    attempts, delays := 0, [];
    var total := Max(1, retries);
    if rate != null {
      var acquired := rate.Acquire(slot, wait);
      if acquired != Held {
        return NotAdmitted(acquired), 0, [];
      }
    }
    r := Raised("");
    var attempt := 1;
    while attempt <= total
      invariant 1 <= attempt <= total && attempts == attempt - 1 == |delays|
      invariant forall i | 1 <= i < attempt :: replies(i).LlmError?
      invariant rate != null ==> rate.permits == old(rate.permits) - 1
      invariant forall i | 0 <= i < |delays| :: DelayOk(i + 1, delays[i])
      decreases total - attempt
    {
      attempts := attempt;
      var reply := replies(attempt);
      if reply.Text? {
        r := Returned(reply.text);
        break;
      }
      r := Raised(reply.message);
      if reply.OtherException? || attempt >= total {
        break;
      }
      var delay := MaxReal(0.0, Backoff(attempt) * (1.0 + jitter(attempt)));
      delays := delays + [delay];
      attempt := attempt + 1;
    }
    if rate != null {
      rate.Release();
    }
  }

  // ----- all calls together -----

  /** The settings of the limiter, and how far the clock moves between two readings with no `await` between. */
  datatype Limits = Limits(permits: nat, config: T.Config, timeout: real, drift: real)
  {
    predicate Valid() { config.Valid() && drift >= 0.0 }
  }

  /** A call that holds a permit and sleeps until its bucket may have a token. */
  datatype Sleeper = Sleeper(model: string, deadline: real, wake: real)

  /** `held` calls are talking to the model; buckets are made on first use. */
  datatype State = State(permits: int, buckets: map<string, T.Bucket>, waiting: map<nat, Sleeper>, held: set<nat>,
                         timeouts: nat, now: real)

  /**
    `Enter` runs without a pause from the semaphore to the end of the first pass, `Retry` is a
    later pass; a pass grants a token, goes to sleep or times out.
   */
  datatype Step =
    | Tick(to: real)
    | Enter(id: nat, model: string, pass: T.Pass)
    | Retry(id: nat, pass: T.Pass)
    | WaitFails(id: nat)
    | Finish(id: nat)

  function BucketOf(l: Limits, s: State, model: string): T.Bucket
  {
    if model in s.buckets then s.buckets[model] else T.Bucket(l.config.capacity as real, s.now)
  }

  /** The clock readings of a pass follow each other closely. */
  predicate PassOk(l: Limits, pass: T.Pass)
  {
    pass.start <= pass.refillAt <= pass.start + l.drift && pass.refillAt <= pass.at <= pass.refillAt + l.drift
  }

  predicate Enabled(l: Limits, s: State, a: Step)
  {
    match a
    case Tick(to) => s.now <= to
    case Enter(id, _, pass) =>
      s.permits > 0 && id !in s.waiting && id !in s.held && s.now <= pass.start <= s.now + l.drift && PassOk(l, pass)
    case Retry(id, pass) =>
      id in s.waiting && s.now <= pass.start && s.waiting[id].wake <= pass.start && PassOk(l, pass)
    case WaitFails(id) => id in s.waiting
    case Finish(id) => id in s.held
  }

  /** How a pass ends, and the bucket it leaves. */
  datatype PassEnd = Grants(left: T.Bucket) | Sleeps(left: T.Bucket, wake: real) | TimesOut(left: T.Bucket)

  function EndOf(l: Limits, b: T.Bucket, deadline: real, pass: T.Pass): PassEnd
    requires l.Valid()
  {
    var r := T.Refilled(l.config, b, pass.refillAt);
    if r.tokens >= 1.0 then Grants(r.(tokens := r.tokens - 1.0))
    else if pass.at < deadline then Sleeps(r, pass.at + MinReal(1.0 / l.config.rate, deadline - pass.at))
    else TimesOut(r)
  }

  /** Call `id`, whose permit is out, after a pass with that end at `at`. */
  function Settled(s: State, id: nat, model: string, deadline: real, end: PassEnd, at: real): State
  {
    var t := s.(now := at, buckets := s.buckets[model := end.left]);
    match end
    case Grants(_) => t.(held := s.held + {id})
    case Sleeps(_, wake) => t.(waiting := s.waiting[id := Sleeper(model, deadline, wake)])
    case TimesOut(_) => t.(permits := s.permits + 2, timeouts := s.timeouts + 1)
  }

  function Passed(l: Limits, s: State, id: nat, model: string, deadline: real, pass: T.Pass): State
    requires l.Valid()
  {
    Settled(s, id, model, deadline, EndOf(l, BucketOf(l, s, model), deadline, pass), pass.at)
  }

  function Apply(l: Limits, s: State, a: Step): State
    requires l.Valid() && Enabled(l, s, a)
  {
    match a
    case Tick(to) => s.(now := to)
    case Enter(id, model, pass) =>
      Passed(l, s.(permits := s.permits - 1), id, model, pass.start + l.timeout, pass)
    case Retry(id, pass) =>
      var w := s.waiting[id];
      Passed(l, s.(waiting := s.waiting - {id}), id, w.model, w.deadline, pass)
    case WaitFails(id) => s.(permits := s.permits + 1, waiting := s.waiting - {id})
    case Finish(id) => s.(permits := s.permits + 1, held := s.held - {id})
  }

  predicate Next(l: Limits, s: State, a: Step, s': State)
    requires l.Valid()
  {
    Enabled(l, s, a) && s' == Apply(l, s, a)
  }

  /** A run that starts with all permits and no call. */
  ghost predicate IsRun(l: Limits, states: seq<State>, steps: seq<Step>)
    requires l.Valid()
  {
    && |states| == |steps| + 1 && states[0] == State(l.permits, map[], map[], {}, 0, states[0].now)
    && forall i | 0 <= i < |steps| :: Next(l, states[i], steps[i], states[i + 1])
  }

  function Total(s: State): int { s.permits + |s.waiting| + |s.held| }

  /** No call waits and talks at once, and each token timeout has added a permit. */
  ghost predicate InBalance(l: Limits, s: State)
  {
    && s.permits >= 0 && Total(s) == l.permits + s.timeouts
    && (forall id | id in s.waiting :: id !in s.held)
  }

  /** All permits but one are accounted for, and call `id` is not among the calls. */
  ghost predicate OneOut(l: Limits, s: State, id: nat)
  {
    && s.permits >= 0 && Total(s) == l.permits + s.timeouts - 1 && id !in s.waiting && id !in s.held
    && (forall i | i in s.waiting :: i !in s.held)
  }

  /** Whatever comes of a pass, the books balance again. */
  lemma SettledBalances(l: Limits, s: State, id: nat, model: string, deadline: real, end: PassEnd, at: real)
    requires OneOut(l, s, id)
    ensures InBalance(l, Settled(s, id, model, deadline, end, at))
  {
  }

  lemma OneFewer<K, V>(m: map<K, V>, k: K)
    requires k in m
    ensures |m - {k}| == |m| - 1
  {
    assert (m - {k})[k := m[k]] == m;
  }

  lemma PassedBalances(l: Limits, s: State, id: nat, model: string, deadline: real, pass: T.Pass)
    requires l.Valid() && OneOut(l, s, id)
    ensures InBalance(l, Passed(l, s, id, model, deadline, pass))
  {
    SettledBalances(l, s, id, model, deadline, EndOf(l, BucketOf(l, s, model), deadline, pass), pass.at);
  }

  lemma EnterBalances(l: Limits, s: State, a: Step)
    requires l.Valid() && Enabled(l, s, a) && InBalance(l, s) && a.Enter?
    ensures InBalance(l, Apply(l, s, a))
  {
    assert OneOut(l, s.(permits := s.permits - 1), a.id);
    PassedBalances(l, s.(permits := s.permits - 1), a.id, a.model, a.pass.start + l.timeout, a.pass);
  }

  lemma RetryBalances(l: Limits, s: State, a: Step)
    requires l.Valid() && Enabled(l, s, a) && InBalance(l, s) && a.Retry?
    ensures InBalance(l, Apply(l, s, a))
  {
    var w := s.waiting[a.id];
    PassedBalances(l, s.(waiting := s.waiting - {a.id}), a.id, w.model, w.deadline, a.pass);
  }

  lemma LeaveBalances(l: Limits, s: State, a: Step)
    requires l.Valid() && Enabled(l, s, a) && InBalance(l, s) && !a.Enter? && !a.Retry?
    ensures InBalance(l, Apply(l, s, a))
  {
    if a.WaitFails? {
      OneFewer(s.waiting, a.id);
    }
  }

  lemma BalanceStep(l: Limits, s: State, a: Step)
    requires l.Valid() && Enabled(l, s, a) && InBalance(l, s)
    ensures InBalance(l, Apply(l, s, a))
  {
    if a.Enter? {
      EnterBalances(l, s, a);
    } else if a.Retry? {
      RetryBalances(l, s, a);
    } else {
      LeaveBalances(l, s, a);
    }
  }

  lemma {:induction false} RunInBalance(l: Limits, states: seq<State>, steps: seq<Step>, i: nat)
    requires l.Valid() && IsRun(l, states, steps) && i <= |steps|
    ensures InBalance(l, states[i])
  {
    if i > 0 {
      RunInBalance(l, states, steps, i - 1);
      assert Next(l, states[i - 1], steps[i - 1], states[i]);
      BalanceStep(l, states[i - 1], steps[i - 1]);
    }
  }

  /** The exact law: every token timeout so far has added one permit for good. */
  lemma PermitLaw(l: Limits, states: seq<State>, steps: seq<Step>, i: nat)
    requires l.Valid() && IsRun(l, states, steps) && i <= |steps|
    ensures states[i].permits >= 0
    ensures Total(states[i]) == l.permits + states[i].timeouts
    ensures |states[i].held| <= l.permits + states[i].timeouts
  {
    RunInBalance(l, states, steps, i);
  }

  // ----- one call among the others -----

  predicate OwnStep(a: Step, id: nat)
  {
    (a.Enter? || a.Retry? || a.WaitFails?) && a.id == id
  }

  /** What the steps `i` up to `j` that call `id` itself takes add to the permits. */
  function OwnGain(states: seq<State>, steps: seq<Step>, id: nat, i: nat, j: nat): int
    requires i <= j <= |steps| && |states| == |steps| + 1
    decreases j
  {
    if i == j then 0
    else
      OwnGain(states, steps, id, i, j - 1)
      + OwnChange(states[j - 1], steps[j - 1], states[j], id)
  }

  /** How the wait for a token ends, seen from the step that ended it and the state it left. */
  function WaitEnd(a: Step, id: nat, s: State): TokenWait
  {
    if a == WaitFails(id) then Interrupted else if id in s.held then Granted else TimedOut
  }

  /** While the call waits one permit is out; then its steps have gained what `Acquire` says they do. */
  function GainedBy(a: Step, id: nat, s: State): int
  {
    if id in s.waiting then -1 else PermitsGained(Obtained, WaitEnd(a, id, s))
  }

  /** A call that has stopped waiting timed out exactly if a token timeout was counted. */
  predicate EndsRight(s: State, a: Step, t: State, id: nat)
  {
    id !in t.waiting ==> (WaitEnd(a, id, t) == TimedOut <==> t.timeouts == s.timeouts + 1)
  }

  lemma SettledGains(s: State, id: nat, model: string, deadline: real, end: PassEnd, at: real, a: Step)
    requires id !in s.waiting && id !in s.held && a != WaitFails(id)
    ensures var t := Settled(s, id, model, deadline, end, at);
            t.permits - s.permits - 1 == GainedBy(a, id, t) && EndsRight(s, a, t, id)
  {
  }

  lemma RetryGains(l: Limits, s: State, a: Step, t: State)
    requires l.Valid() && Next(l, s, a, t) && a.Retry? && a.id !in s.held
    ensures t.permits - s.permits - 1 == GainedBy(a, a.id, t) && EndsRight(s, a, t, a.id)
  {
    var w, s' := s.waiting[a.id], s.(waiting := s.waiting - {a.id});
    SettledGains(s', a.id, w.model, w.deadline, EndOf(l, BucketOf(l, s', w.model), w.deadline, a.pass), a.pass.at, a);
  }

  lemma FailGains(l: Limits, s: State, a: Step, t: State)
    requires l.Valid() && Next(l, s, a, t) && a.WaitFails?
    ensures t.permits - s.permits - 1 == GainedBy(a, a.id, t) && EndsRight(s, a, t, a.id)
  {
  }

  /** No other call ends the wait. */
  lemma OthersKeepWaiting(l: Limits, s: State, a: Step, t: State, id: nat)
    requires l.Valid() && Next(l, s, a, t) && id in s.waiting && !OwnStep(a, id)
    ensures id in t.waiting
  {
  }

  function OwnChange(s: State, a: Step, t: State, id: nat): int
  {
    if OwnStep(a, id) then t.permits - s.permits else 0
  }

  lemma WaitingGains(l: Limits, s: State, a: Step, t: State, id: nat)
    requires l.Valid() && Next(l, s, a, t) && id in s.waiting && id !in s.held
    ensures OwnChange(s, a, t, id) - 1 == GainedBy(a, id, t) && EndsRight(s, a, t, id)
  {
    if !OwnStep(a, id) {
      OthersKeepWaiting(l, s, a, t, id);
    } else if a.Retry? {
      RetryGains(l, s, a, t);
    } else if a.WaitFails? {
      FailGains(l, s, a, t);
    }
  }

  lemma StepTaken(l: Limits, states: seq<State>, steps: seq<Step>, i: nat)
    requires l.Valid() && IsRun(l, states, steps) && i < |steps|
    ensures Next(l, states[i], steps[i], states[i + 1])
    ensures forall id | id in states[i].waiting :: id !in states[i].held
  {
    RunInBalance(l, states, steps, i);
  }

  /**
    Whatever the other calls do meanwhile, the steps of a call that gets its permit at step `i`
    and waits until step `j - 1` change the permits exactly as `Acquire` does.
   */
  lemma {:induction false} CallGains(l: Limits, states: seq<State>, steps: seq<Step>, id: nat, i: nat, j: nat)
    requires l.Valid() && IsRun(l, states, steps) && i < j <= |steps| && steps[i].Enter? && steps[i].id == id
    requires forall k | i < k < j :: id in states[k].waiting
    ensures OwnGain(states, steps, id, i, j) == GainedBy(steps[j - 1], id, states[j])
    ensures EndsRight(states[j - 1], steps[j - 1], states[j], id)
    decreases j
  {
    StepTaken(l, states, steps, j - 1);
    if j == i + 1 {
      assert OwnGain(states, steps, id, i, i) == 0;
    } else {
      CallGains(l, states, steps, id, i, j - 1);
      WaitingGains(l, states[j - 1], steps[j - 1], states[j], id);
    }
  }

  // ----- which settings let a token wait time out -----

  /**
    With two permits other calls can take every token a sleeping call waits for; with one permit a
    call has its bucket to itself.
   */
  predicate CanTimeOut(l: Limits)
    requires l.Valid()
  {
    l.permits >= 2 || (l.permits == 1 && !T.LongEnough(l.config, l.timeout, l.drift))
  }

  /** A sleeping call finds a token when it wakes. */
  ghost predicate WillServe(l: Limits, b: T.Bucket, wake: real)
  {
    T.Refilled(l.config, b, wake).tokens >= 1.0
  }

  lemma ServedLater(l: Limits, b: T.Bucket, wake: real, at: real)
    requires l.Valid() && WillServe(l, b, wake) && wake <= at
    ensures T.Refilled(l.config, b, at).tokens >= 1.0
  {
    AccruedSplit(l.config.rate, b.lastRefill, wake, at);
    AccruedNonNegative(l.config.rate, at - wake);
    if at - b.lastRefill > 0.0 {
      AccruedNonNegative(l.config.rate, at - b.lastRefill);
    }
  }

  /** A first pass that is refused on an undisturbed bucket ends before the deadline, with a token in sight. */
  lemma FirstPassRefused(l: Limits, b: T.Bucket, pass: T.Pass)
    requires l.Valid() && T.LongEnough(l.config, l.timeout, l.drift)
    requires b.tokens >= 0.0 && b.lastRefill <= pass.start && PassOk(l, pass)
    requires T.Refilled(l.config, b, pass.refillAt).tokens < 1.0
    ensures var r, deadline := T.Refilled(l.config, b, pass.refillAt), pass.start + l.timeout;
            && pass.at < deadline && r.tokens >= 0.0 && r.lastRefill <= pass.at
            && WillServe(l, r, pass.at + MinReal(1.0 / l.config.rate, deadline - pass.at))
  {
    var c, since, gap := l.config, b.lastRefill, 1.0 / l.config.rate;
    var r, deadline := T.Refilled(c, b, pass.refillAt), pass.start + l.timeout;
    assert Accrued(c.rate, 0.0) == 0.0;
    AccruedNonNegative(c.rate, pass.refillAt - since);
    T.RefusedAlone(c, since, pass.start, gap, l.timeout, l.drift, true, 0, b, pass.start, pass.refillAt, pass.at);
    T.RefillAt(c, b, pass.refillAt);
    assert gap > 0.0;
    var wake := pass.at + MinReal(gap, deadline - pass.at);
    assert wake >= since + gap;
    T.ReadyKept(c, since, r, wake);
    T.RefillAt(c, r, wake);
    OneToken(c.rate, wake - since);
  }

  lemma OneToken(rate: real, d: real)
    requires rate > 0.0 && d >= 1.0 / rate
    ensures Accrued(rate, d) >= 1.0
  {
    assert rate * (1.0 / rate) == 1.0;
    assert rate * (d - 1.0 / rate) >= 0.0;
  }

  ghost predicate BucketSane(l: Limits, s: State, model: string)
  {
    model in s.buckets ==> s.buckets[model].tokens >= 0.0 && s.buckets[model].lastRefill <= s.now
  }

  ghost predicate SleeperServed(l: Limits, s: State, id: nat)
  {
    id in s.waiting ==>
      s.waiting[id].model in s.buckets && WillServe(l, s.buckets[s.waiting[id].model], s.waiting[id].wake)
  }

  /** No token wait has timed out, and none is about to. */
  ghost predicate Unhurried(l: Limits, s: State)
  {
    && InBalance(l, s) && s.timeouts == 0
    && (forall model :: BucketSane(l, s, model))
    && (forall id :: SleeperServed(l, s, id))
  }

  /** With one permit and nobody over it, a call that enters or retries is alone. */
  lemma AloneWithPermit(l: Limits, s: State)
    requires InBalance(l, s) && s.timeouts == 0 && l.permits == 1
    ensures s.permits > 0 ==> s.waiting == map[]
    ensures forall id | id in s.waiting :: s.waiting - {id} == map[]
  {
    forall id | id in s.waiting
      ensures s.waiting - {id} == map[]
    {
      OneFewer(s.waiting, id);
    }
  }

  /** A pass that does not time out, taken while nobody else waits; `out` is `s` with the permit out. */
  lemma SettledUnhurried(l: Limits, s: State, out: State, id: nat, model: string, deadline: real, end: PassEnd,
                         at: real)
    requires Unhurried(l, s) && out.buckets == s.buckets && out.timeouts == s.timeouts && out.now == s.now
    requires out.waiting == map[] && s.now <= at
    requires !end.TimesOut? && end.left.tokens >= 0.0 && end.left.lastRefill <= at
    requires end.Sleeps? ==> WillServe(l, end.left, end.wake)
    requires InBalance(l, Settled(out, id, model, deadline, end, at))
    ensures Unhurried(l, Settled(out, id, model, deadline, end, at))
  {
    var t := Settled(out, id, model, deadline, end, at);
    forall other: string
      ensures BucketSane(l, t, other)
    {
      assert BucketSane(l, s, other);
    }
  }

  /** The first pass of a call that has its bucket to itself. */
  lemma FirstPassEnds(l: Limits, b: T.Bucket, pass: T.Pass)
    requires l.Valid() && T.LongEnough(l.config, l.timeout, l.drift)
    requires b.tokens >= 0.0 && b.lastRefill <= pass.start && PassOk(l, pass)
    ensures var end := EndOf(l, b, pass.start + l.timeout, pass);
            && !end.TimesOut? && end.left.tokens >= 0.0 && end.left.lastRefill <= pass.at
            && (end.Sleeps? ==> WillServe(l, end.left, end.wake))
  {
    T.RefillAt(l.config, b, pass.refillAt);
    if T.Refilled(l.config, b, pass.refillAt).tokens < 1.0 {
      FirstPassRefused(l, b, pass);
    }
  }

  lemma UnhurriedEnter(l: Limits, s: State, a: Step)
    requires l.Valid() && l.permits == 1 && T.LongEnough(l.config, l.timeout, l.drift)
    requires Enabled(l, s, a) && a.Enter? && Unhurried(l, s)
    ensures Unhurried(l, Apply(l, s, a))
  {
    var b, deadline, out := BucketOf(l, s, a.model), a.pass.start + l.timeout, s.(permits := s.permits - 1);
    EnterBalances(l, s, a);
    AloneWithPermit(l, s);
    assert BucketSane(l, s, a.model);
    FirstPassEnds(l, b, a.pass);
    var end := EndOf(l, b, deadline, a.pass);
    assert Apply(l, s, a) == Settled(out, a.id, a.model, deadline, end, a.pass.at);
    SettledUnhurried(l, s, out, a.id, a.model, deadline, end, a.pass.at);
  }

  lemma UnhurriedRetry(l: Limits, s: State, a: Step)
    requires l.Valid() && l.permits == 1 && Enabled(l, s, a) && a.Retry? && Unhurried(l, s)
    ensures Unhurried(l, Apply(l, s, a))
  {
    var w, out := s.waiting[a.id], s.(waiting := s.waiting - {a.id});
    RetryBalances(l, s, a);
    AloneWithPermit(l, s);
    assert SleeperServed(l, s, a.id) && BucketSane(l, s, w.model);
    ServedLater(l, s.buckets[w.model], w.wake, a.pass.refillAt);
    T.RefillAt(l.config, s.buckets[w.model], a.pass.refillAt);
    SettledUnhurried(l, s, out, a.id, w.model, w.deadline, EndOf(l, s.buckets[w.model], w.deadline, a.pass), a.pass.at);
  }

  lemma UnhurriedLeave(l: Limits, s: State, a: Step)
    requires l.Valid() && Enabled(l, s, a) && !a.Enter? && !a.Retry? && Unhurried(l, s)
    ensures Unhurried(l, Apply(l, s, a))
  {
    var t := Apply(l, s, a);
    LeaveBalances(l, s, a);
    forall model: string
      ensures BucketSane(l, t, model)
    {
      assert BucketSane(l, s, model);
    }
    forall id: nat
      ensures SleeperServed(l, t, id)
    {
      assert SleeperServed(l, s, id);
    }
  }

  lemma UnhurriedStep(l: Limits, s: State, a: Step)
    requires l.Valid() && !CanTimeOut(l) && Enabled(l, s, a) && Unhurried(l, s)
    ensures Unhurried(l, Apply(l, s, a))
  {
    if a.Enter? {
      UnhurriedEnter(l, s, a);
    } else if a.Retry? {
      OneFewer(s.waiting, a.id);
      UnhurriedRetry(l, s, a);
    } else {
      UnhurriedLeave(l, s, a);
    }
  }

  /** Where a token wait cannot time out, none does. */
  lemma {:induction false} NeverTimesOut(l: Limits, states: seq<State>, steps: seq<Step>, i: nat)
    requires l.Valid() && !CanTimeOut(l) && IsRun(l, states, steps) && i <= |steps|
    ensures Unhurried(l, states[i])
  {
    if i > 0 {
      NeverTimesOut(l, states, steps, i - 1);
      assert Next(l, states[i - 1], steps[i - 1], states[i]);
      UnhurriedStep(l, states[i - 1], steps[i - 1]);
    }
  }

  // ----- and how far the limit rises where it can -----

  lemma Extend(l: Limits, states: seq<State>, steps: seq<Step>, a: Step)
    returns (states': seq<State>, steps': seq<Step>)
    requires l.Valid() && IsRun(l, states, steps) && Enabled(l, states[|steps|], a)
    ensures IsRun(l, states', steps') && states'[|steps'|] == Apply(l, states[|steps|], a)
  {
    states', steps' := states + [Apply(l, states[|steps|], a)], steps + [a];
    forall i | 0 <= i < |steps'|
      ensures Next(l, states'[i], steps'[i], states'[i + 1])
    {
      if i < |steps| {
        assert Next(l, states[i], steps[i], states[i + 1]);
      }
    }
  }

  /** The state with these permits and calls, the model's bucket holding `tokens` at the last reading. */
  ghost predicate Stands(s: State, model: string, permits: int, waiting: map<nat, Sleeper>, held: set<nat>,
                         timeouts: nat, tokens: real)
  {
    && s.permits == permits && s.waiting == waiting && s.held == held && s.timeouts == timeouts
    && model in s.buckets && s.buckets[model] == T.Bucket(tokens, s.now)
  }

  /** The clock stands still through a pass. */
  function Instant(now: real): T.Pass { T.Pass(now, now, now) }

  /** A call comes and goes at once, and takes a token with it. */
  lemma InAndOut(l: Limits, states: seq<State>, steps: seq<Step>, id: nat, model: string, tokens: real)
    returns (states': seq<State>, steps': seq<Step>)
    requires l.Valid() && IsRun(l, states, steps) && tokens >= 1.0
    requires var s := states[|steps|];
             && s.permits > 0 && id !in s.waiting && id !in s.held
             && Stands(s, model, s.permits, s.waiting, s.held, s.timeouts, tokens)
    ensures IsRun(l, states', steps') && states'[|steps'|].now == states[|steps|].now
    ensures var s := states[|steps|];
            Stands(states'[|steps'|], model, s.permits, s.waiting, s.held, s.timeouts, tokens - 1.0)
  {
    var s := states[|steps|];
    states', steps' := Extend(l, states, steps, Enter(id, model, Instant(s.now)));
    states', steps' := Extend(l, states', steps', Finish(id));
  }

  lemma {:induction false} DrainRun(l: Limits, states: seq<State>, steps: seq<Step>, model: string, k: nat)
    returns (states': seq<State>, steps': seq<Step>)
    requires l.Valid() && IsRun(l, states, steps) && 0 < states[|steps|].permits
    requires var s := states[|steps|]; Stands(s, model, s.permits, map[], {}, s.timeouts, k as real)
    ensures IsRun(l, states', steps') && states'[|steps'|].now == states[|steps|].now
    ensures var s := states[|steps|]; Stands(states'[|steps'|], model, s.permits, map[], {}, s.timeouts, 0.0)
    decreases k
  {
    states', steps' := states, steps;
    if k > 0 {
      states', steps' := InAndOut(l, states, steps, 0, model, k as real);
      states', steps' := DrainRun(l, states', steps', model, k - 1);
    }
  }

  /** Nobody is about, and the model's bucket, if it is there, is in order. */
  ghost predicate Idle(l: Limits, s: State, model: string, timeouts: nat)
  {
    && s.permits == l.permits + timeouts && s.waiting == map[] && s.held == {} && s.timeouts == timeouts
    && BucketSane(l, s, model)
  }

  lemma FilledUp(c: T.Config, b: T.Bucket, at: real)
    requires c.Valid() && b.tokens >= 0.0 && b.lastRefill + c.capacity as real / c.rate <= at
    ensures T.Refilled(c, b, at) == T.Bucket(c.capacity as real, at)
  {
    var full := c.capacity as real / c.rate;
    assert full > 0.0 && c.rate * full == c.capacity as real;
    assert c.rate * (at - b.lastRefill - full) >= 0.0;
    assert Accrued(c.rate, at - b.lastRefill) >= c.capacity as real;
  }

  /** A call that comes after a long pause finds the bucket full; after it the bucket lacks one token. */
  lemma FullRun(l: Limits, states: seq<State>, steps: seq<Step>, model: string, timeouts: nat)
    returns (states': seq<State>, steps': seq<Step>)
    requires l.Valid() && l.permits >= 1 && IsRun(l, states, steps) && Idle(l, states[|steps|], model, timeouts)
    ensures IsRun(l, states', steps')
    ensures Stands(states'[|steps'|], model, l.permits + timeouts, map[], {}, timeouts, (l.config.capacity - 1) as real)
  {
    var s := states[|steps|];
    var later := s.now + l.config.capacity as real / l.config.rate;
    assert l.config.capacity as real / l.config.rate > 0.0;
    states', steps' := Extend(l, states, steps, Tick(later));
    var t := states'[|steps'|];
    if model in s.buckets {
      FilledUp(l.config, s.buckets[model], later);
    }
    assert T.Refilled(l.config, BucketOf(l, t, model), later) == T.Bucket(l.config.capacity as real, later);
    states', steps' := Extend(l, states', steps', Enter(0, model, Instant(later)));
    states', steps' := Extend(l, states', steps', Finish(0));
  }

  lemma EmptyRun(l: Limits, states: seq<State>, steps: seq<Step>, model: string, timeouts: nat)
    returns (states': seq<State>, steps': seq<Step>)
    requires l.Valid() && l.permits >= 1 && IsRun(l, states, steps) && Idle(l, states[|steps|], model, timeouts)
    ensures IsRun(l, states', steps')
    ensures Stands(states'[|steps'|], model, l.permits + timeouts, map[], {}, timeouts, 0.0)
  {
    states', steps' := FullRun(l, states, steps, model, timeouts);
    states', steps' := DrainRun(l, states', steps', model, l.config.capacity - 1);
  }

  /** A refused pass of the only call, on a bucket that was empty at `since`. */
  lemma EmptyPass(l: Limits, since: real, deadline: real, pass: T.Pass)
    requires l.Valid() && since <= pass.refillAt < since + 1.0 / l.config.rate
    ensures var end := EndOf(l, T.Bucket(0.0, since), deadline, pass);
            && end.left.tokens >= 0.0 && end.left.lastRefill == pass.refillAt
            && (pass.at >= deadline ==> end.TimesOut?)
            && (pass.at < deadline ==>
                  end.Sleeps? && end.wake == pass.at + MinReal(1.0 / l.config.rate, deadline - pass.at))
  {
    T.EmptyRefilled(l.config, since, pass.refillAt);
    AccruedNonNegative(l.config.rate, pass.refillAt - since);
  }

  /** Call 0 finds the bucket empty and goes to sleep. */
  lemma SleepRun(l: Limits, states: seq<State>, steps: seq<Step>, model: string)
    returns (states': seq<State>, steps': seq<Step>)
    requires l.Valid() && l.timeout > 0.0 && IsRun(l, states, steps) && states[|steps|].permits > 0
    requires var s := states[|steps|]; Stands(s, model, s.permits, map[], {}, s.timeouts, 0.0)
    ensures IsRun(l, states', steps') && states'[|steps'|].now == states[|steps|].now
    ensures var s, deadline := states[|steps|], states[|steps|].now + l.timeout;
            var wake := s.now + MinReal(1.0 / l.config.rate, l.timeout);
            Stands(states'[|steps'|], model, s.permits - 1, map[0 := Sleeper(model, deadline, wake)], {},
                   s.timeouts, 0.0)
  {
    var s := states[|steps|];
    assert 1.0 / l.config.rate > 0.0;
    EmptyPass(l, s.now, s.now + l.timeout, Instant(s.now));
    assert T.Refilled(l.config, s.buckets[model], s.now) == s.buckets[model];
    states', steps' := Extend(l, states, steps, Enter(0, model, Instant(s.now)));
  }

  /** The sleeper wakes at its deadline to a bucket that has less than a token. */
  lemma LateRun(l: Limits, states: seq<State>, steps: seq<Step>, model: string, timeouts: nat, since: real)
    returns (states': seq<State>, steps': seq<Step>)
    requires l.Valid() && IsRun(l, states, steps)
    requires var s, deadline := states[|steps|], states[|steps|].now;
             && s.permits == l.permits + timeouts - 1 && s.held == {} && s.timeouts == timeouts
             && s.waiting == map[0 := Sleeper(model, deadline, deadline)]
             && model in s.buckets && s.buckets[model] == T.Bucket(0.0, since)
             && since <= deadline < since + 1.0 / l.config.rate
    ensures IsRun(l, states', steps') && Idle(l, states'[|steps'|], model, timeouts + 1)
  {
    var s := states[|steps|];
    EmptyPass(l, since, s.now, Instant(s.now));
    assert s.waiting - {0} == map[];
    states', steps' := Extend(l, states, steps, Retry(0, Instant(s.now)));
  }

  /** A lone call that times out because its timeout is not long enough. */
  lemma LoneTimeoutRun(l: Limits, states: seq<State>, steps: seq<Step>, model: string, timeouts: nat)
    returns (states': seq<State>, steps': seq<Step>)
    requires l.Valid() && l.permits >= 1 && !T.LongEnough(l.config, l.timeout, l.drift)
    requires IsRun(l, states, steps) && Idle(l, states[|steps|], model, timeouts)
    ensures IsRun(l, states', steps') && Idle(l, states'[|steps'|], model, timeouts + 1)
  {
    states', steps' := EmptyRun(l, states, steps, model, timeouts);
    var s, gap := states'[|steps'|], 1.0 / l.config.rate;
    var deadline := s.now + l.timeout;
    assert gap > 0.0;
    if 0.0 < l.timeout < gap {
      states', steps' := SleepRun(l, states', steps', model);
      states', steps' := Extend(l, states', steps', Tick(deadline));
      states', steps' := LateRun(l, states', steps', model, timeouts, s.now);
    } else {
      var at := if l.timeout <= 0.0 then s.now else MaxReal(s.now, deadline - l.drift);
      var pass := T.Pass(s.now, at, MaxReal(at, deadline));
      EmptyPass(l, s.now, deadline, pass);
      states', steps' := Extend(l, states', steps', Enter(0, model, pass));
    }
  }

  /** The sleeper wakes to a whole token, and another call takes it first. */
  lemma StarvedOnce(l: Limits, states: seq<State>, steps: seq<Step>, model: string, timeouts: nat, deadline: real)
    returns (states': seq<State>, steps': seq<Step>)
    requires l.Valid() && l.permits >= 2 && IsRun(l, states, steps)
    requires var s, gap := states[|steps|], 1.0 / l.config.rate;
             && Stands(s, model, l.permits + timeouts - 1, map[0 := Sleeper(model, deadline, s.now + gap)], {},
                       timeouts, 0.0)
             && s.now + gap <= deadline
    ensures IsRun(l, states', steps') && states'[|steps'|].now == states[|steps|].now + 1.0 / l.config.rate
    ensures var s, gap := states[|steps|], 1.0 / l.config.rate;
            Stands(states'[|steps'|], model, l.permits + timeouts - 1,
                   map[0 := Sleeper(model, deadline, s.now + gap)], {}, timeouts, 0.0)
  {
    var s, gap := states[|steps|], 1.0 / l.config.rate;
    assert gap > 0.0 && Accrued(l.config.rate, gap) == 1.0;
    states', steps' := Extend(l, states, steps, Tick(s.now + gap));
    var t := states'[|steps'|];
    assert T.Refilled(l.config, t.buckets[model], t.now) == T.Bucket(1.0, t.now);
    states', steps' := Extend(l, states', steps', Enter(1, model, Instant(t.now)));
    states', steps' := Extend(l, states', steps', Finish(1));
  }

  /** So it goes on until the deadline. */
  lemma {:induction false} StarvedRun(l: Limits, states: seq<State>, steps: seq<Step>, model: string, timeouts: nat,
                                      deadline: real)
    returns (states': seq<State>, steps': seq<Step>)
    requires l.Valid() && l.permits >= 2 && IsRun(l, states, steps)
    requires var s, gap := states[|steps|], 1.0 / l.config.rate;
             var wake := s.now + MinReal(gap, deadline - s.now);
             && Stands(s, model, l.permits + timeouts - 1, map[0 := Sleeper(model, deadline, wake)], {}, timeouts, 0.0)
             && s.now < deadline
    ensures IsRun(l, states', steps') && Idle(l, states'[|steps'|], model, timeouts + 1)
    decreases Accrued(l.config.rate, deadline - states[|steps|].now).Floor
  {
    var s, gap := states[|steps|], 1.0 / l.config.rate;
    assert gap > 0.0 && Accrued(l.config.rate, gap) == 1.0;
    if deadline - s.now < gap {
      states', steps' := Extend(l, states, steps, Tick(deadline));
      states', steps' := LateRun(l, states', steps', model, timeouts, s.now);
    } else {
      states', steps' := StarvedOnce(l, states, steps, model, timeouts, deadline);
      var t := states'[|steps'|];
      AccruedSplit(l.config.rate, s.now, t.now, deadline);
      AccruedNonNegative(l.config.rate, deadline - t.now);
      EmptyPass(l, t.now, deadline, Instant(t.now));
      assert t.waiting - {0} == map[] && T.Refilled(l.config, t.buckets[model], t.now) == t.buckets[model];
      states', steps' := Extend(l, states', steps', Retry(0, Instant(t.now)));
      if t.now < deadline {
        states', steps' := StarvedRun(l, states', steps', model, timeouts, deadline);
      }
    }
  }

  lemma OneTimeoutRun(l: Limits, states: seq<State>, steps: seq<Step>, model: string, timeouts: nat)
    returns (states': seq<State>, steps': seq<Step>)
    requires l.Valid() && CanTimeOut(l) && IsRun(l, states, steps) && Idle(l, states[|steps|], model, timeouts)
    ensures IsRun(l, states', steps') && Idle(l, states'[|steps'|], model, timeouts + 1)
  {
    if T.LongEnough(l.config, l.timeout, l.drift) {
      assert 1.0 / l.config.rate > 0.0;
      states', steps' := EmptyRun(l, states, steps, model, timeouts);
      var deadline := states'[|steps'|].now + l.timeout;
      states', steps' := SleepRun(l, states', steps', model);
      states', steps' := StarvedRun(l, states', steps', model, timeouts, deadline);
    } else {
      states', steps' := LoneTimeoutRun(l, states, steps, model, timeouts);
    }
  }

  /** `t` calls that time out one after the other, all on one model. */
  lemma {:induction false} TimeoutsRun(l: Limits, model: string, t: nat) returns (states: seq<State>, steps: seq<Step>)
    requires l.Valid() && CanTimeOut(l)
    ensures IsRun(l, states, steps) && Idle(l, states[|steps|], model, t)
  {
    if t == 0 {
      states, steps := [State(l.permits, map[], map[], {}, 0, 0.0)], [];
    } else {
      states, steps := TimeoutsRun(l, model, t - 1);
      states, steps := OneTimeoutRun(l, states, steps, model, t - 1);
    }
  }

  function Ids(k: nat): (r: set<nat>)
    ensures |r| == k && forall x | x in r :: x < k
  {
    if k == 0 then {} else Ids(k - 1) + {k - 1}
  }

  /** `k` calls talk to the model, after `t` timeouts. */
  ghost predicate Talking(l: Limits, s: State, model: string, t: nat, k: nat)
  {
    && s.permits == l.permits + t - k && s.waiting == map[] && s.held == Ids(k) && s.timeouts == t
    && BucketSane(l, s, model)
  }

  /** One more call comes when the bucket has a token again. */
  lemma AdmittedRun(l: Limits, states: seq<State>, steps: seq<Step>, model: string, t: nat, k: nat)
    returns (states': seq<State>, steps': seq<Step>)
    requires l.Valid() && IsRun(l, states, steps) && Talking(l, states[|steps|], model, t, k) && k < l.permits + t
    ensures IsRun(l, states', steps') && Talking(l, states'[|steps'|], model, t, k + 1)
  {
    var s, gap := states[|steps|], 1.0 / l.config.rate;
    assert gap > 0.0;
    states', steps' := Extend(l, states, steps, Tick(s.now + gap));
    var later := states'[|steps'|];
    var b := BucketOf(l, later, model);
    if model in s.buckets {
      OneToken(l.config.rate, later.now - b.lastRefill);
      T.RefillAt(l.config, b, later.now);
    }
    assert T.Refilled(l.config, b, later.now).tokens >= 1.0;
    states', steps' := Extend(l, states', steps', Enter(k, model, Instant(later.now)));
  }

  lemma {:induction false} TalkingRun(l: Limits, model: string, t: nat, k: nat)
    returns (states: seq<State>, steps: seq<Step>)
    requires l.Valid() && CanTimeOut(l) && k <= l.permits + t
    ensures IsRun(l, states, steps) && Talking(l, states[|steps|], model, t, k)
  {
    if k == 0 {
      states, steps := TimeoutsRun(l, model, t);
    } else {
      states, steps := TalkingRun(l, model, t, k - 1);
      states, steps := AdmittedRun(l, states, steps, model, t, k - 1);
    }
  }

  /** The bound is met on any one model: after `t` token timeouts, `t` calls too many talk to it at once. */
  lemma LimitRaisedByTimeouts(l: Limits, model: string, t: nat) returns (states: seq<State>, steps: seq<Step>)
    requires l.Valid() && CanTimeOut(l)
    ensures IsRun(l, states, steps)
    ensures states[|steps|].timeouts == t && |states[|steps|].held| == l.permits + t
  {
    states, steps := TalkingRun(l, model, t, l.permits + t);
  }

  /** The intended law along a run: every permit is free or in use, so no more calls talk at once than intended. */
  ghost predicate KeepsPermits(l: Limits, states: seq<State>)
  {
    forall i | 0 <= i < |states| :: Total(states[i]) == l.permits
  }

  ghost predicate Loses(l: Limits, states: seq<State>, steps: seq<Step>)
    requires l.Valid()
  {
    IsRun(l, states, steps) && !KeepsPermits(l, states)
  }

  /** Exactly which settings keep the intended law in every run. */
  lemma IntendedLawIff(l: Limits)
    requires l.Valid()
    ensures (exists states, steps :: Loses(l, states, steps)) <==> CanTimeOut(l)
  {
    if states, steps :| Loses(l, states, steps) {
      var i :| 0 <= i < |states| && Total(states[i]) != l.permits;
      PermitLaw(l, states, steps, i);
      if !CanTimeOut(l) {
        NeverTimesOut(l, states, steps, i);
      }
    }
    if CanTimeOut(l) {
      var states, steps := LimitRaisedByTimeouts(l, "", 1);
      PermitLaw(l, states, steps, |steps|);
      assert Total(states[|steps|]) != l.permits;
      assert Loses(l, states, steps);
    }
  }
}
