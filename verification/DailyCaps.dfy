/**
  Daily caps of the rate limiter (backend/matrix/scheduler/rate_limiter.py).

  The active window, the circuit breaker, the token bucket and the runner answer through
  parameters.  Every count is kept per day, scope, key and kind of action.
 */
module DailyCaps {
  import opened Prelude

  datatype Scope = Device | Account

  datatype Kind = Publish | Interaction | Other

  datatype Counter = Counter(day: int, scope: Scope, key: string, kind: Kind)

  type Counts = map<Counter, nat>

  datatype Task = Task(device: string, account: string, action: string)

  datatype Caps = Caps(devicePublish: nat, deviceInteract: nat, accountPublish: nat, accountInteract: nat)

  const INTERACT_ACTIONS: set<string> :=
    {"device_interact", "device_like", "device_comment", "device_collect", "device_follow"}

  const UNCLASSIFIED_CAP: nat := 1000000000

  function KindOf(action: string): Kind
  {
    if action == "device_publish" then Publish
    else if action in INTERACT_ACTIONS then Interaction
    else Other
  }

  function CapOf(caps: Caps, scope: Scope, kind: Kind): nat
  {
    match (scope, kind)
    case (Device, Publish) => caps.devicePublish
    case (Device, Interaction) => caps.deviceInteract
    case (Account, Publish) => caps.accountPublish
    case (Account, Interaction) => caps.accountInteract
    case (_, Other) => UNCLASSIFIED_CAP
  }

  function CapFor(caps: Caps, c: Counter): nat { CapOf(caps, c.scope, c.kind) }

  function CounterOf(task: Task, scope: Scope, day: int): Counter
  {
    Counter(day, scope, if scope == Device then task.device else task.account, KindOf(task.action))
  }

  function Used(counts: Counts, c: Counter): nat { if c in counts then counts[c] else 0 }

  function Added(counts: Counts, c: Counter): Counts { counts[c := Used(counts, c) + 1] }

  function RecordedBoth(counts: Counts, task: Task, day: int): Counts
  {
    Added(Added(counts, CounterOf(task, Device, day)), CounterOf(task, Account, day))
  }

  datatype Reason =
    | OutOfActiveWindow | CircuitOpen | DailyCap(scope: Scope, kind: Kind)
    | RateLimitTimeout | RunnerError | RunnerReturnedFalse

  datatype Decision = Ok | Refused(reason: Reason)

  datatype Runner = ReturnsTrue | ReturnsFalse | Raises

  datatype Env = Env(inWindow: bool, circuitOpen: bool, tokenGranted: bool, runner: Runner)

  /** The gates of `throttle` in their order, then the runner. */
  function Answer(caps: Caps, counts: Counts, task: Task, day: int, env: Env): Decision
  {
    if !env.inWindow then Refused(OutOfActiveWindow)
    else if env.circuitOpen then Refused(CircuitOpen)
    else if !Below(caps, counts, task, Device, day) then Refused(DailyCap(Device, KindOf(task.action)))
    else if !Below(caps, counts, task, Account, day) then Refused(DailyCap(Account, KindOf(task.action)))
    else if !env.tokenGranted then Refused(RateLimitTimeout)
    else
      match env.runner
      case ReturnsTrue => Ok
      case ReturnsFalse => Refused(RunnerReturnedFalse)
      case Raises => Refused(RunnerError)
  }

  /** Which gate answers: the first, in the order window, breaker, caps, tokens, that does not let the task pass. */
  lemma AnswerExactly(caps: Caps, counts: Counts, task: Task, day: int, env: Env)
    ensures var d := Answer(caps, counts, task, day, env);
            var gated := !env.inWindow || env.circuitOpen;
            var capped := exists scope: Scope :: !Below(caps, counts, task, scope, day);
            && (d == Refused(OutOfActiveWindow) <==> !env.inWindow)
            && (d == Refused(CircuitOpen) <==> env.inWindow && env.circuitOpen)
            && (d.Refused? && d.reason.DailyCap? <==> !gated && capped)
            && (d == Refused(RateLimitTimeout) <==> !gated && !capped && !env.tokenGranted)
            && (d == Refused(RunnerError) <==> !gated && !capped && env.tokenGranted && env.runner == Raises)
            && (d == Refused(RunnerReturnedFalse) <==>
                !gated && !capped && env.tokenGranted && env.runner == ReturnsFalse)
            && (d == Ok <==> !gated && !capped && env.tokenGranted && env.runner == ReturnsTrue)
  {
    assert (exists scope: Scope :: !Below(caps, counts, task, scope, day)) <==>
           !Below(caps, counts, task, Device, day) || !Below(caps, counts, task, Account, day);
  }

  ghost predicate WithinCaps(caps: Caps, counts: Counts)
  {
    forall c: Counter :: Used(counts, c) <= CapFor(caps, c)
  }

  ghost predicate UnusedAfter(counts: Counts, day: int)
  {
    forall c: Counter | c.day > day :: Used(counts, c) == 0
  }

  predicate Below(caps: Caps, counts: Counts, task: Task, scope: Scope, day: int)
  {
    var c := CounterOf(task, scope, day);
    Used(counts, c) < CapFor(caps, c)
  }

  /** Publishing is of one kind, the five interactions of another, and everything else is as good as free. */
  lemma KindsExactly(action: string)
    ensures KindOf(action) == Publish <==> action == "device_publish"
    ensures KindOf(action) == Interaction <==>
              action in {"device_interact", "device_like", "device_comment", "device_collect", "device_follow"}
  {
    var publish := "device_publish";
    assert publish[7] == 'p';
    assert forall a | a in INTERACT_ACTIONS :: a[7] != 'p';
  }

  /** Which count is held against which cap. */
  lemma BelowExactly(caps: Caps, counts: Counts, task: Task, day: int)
    ensures var device, account := Counter(day, Device, task.device, KindOf(task.action)),
                                   Counter(day, Account, task.account, KindOf(task.action));
            match KindOf(task.action)
            case Publish =>
              && (Below(caps, counts, task, Device, day) <==> Used(counts, device) < caps.devicePublish)
              && (Below(caps, counts, task, Account, day) <==> Used(counts, account) < caps.accountPublish)
            case Interaction =>
              && (Below(caps, counts, task, Device, day) <==> Used(counts, device) < caps.deviceInteract)
              && (Below(caps, counts, task, Account, day) <==> Used(counts, account) < caps.accountInteract)
            case Other =>
              && (Below(caps, counts, task, Device, day) <==> Used(counts, device) < 1000000000)
              && (Below(caps, counts, task, Account, day) <==> Used(counts, account) < 1000000000)
  {
  }

  /** A record adds one to the count of the device and of the account on that day, and to no other. */
  lemma RecordedExactly(counts: Counts, task: Task, day: int, c: Counter)
    ensures Used(RecordedBoth(counts, task, day), c) == Used(counts, c)
            + if c == Counter(day, Device, task.device, KindOf(task.action))
                 || c == Counter(day, Account, task.account, KindOf(task.action)) then 1 else 0
  {
  }

  lemma RecordKeepsCaps(caps: Caps, counts: Counts, task: Task, checkDay: int, recordDay: int)
    requires checkDay <= recordDay && WithinCaps(caps, counts) && UnusedAfter(counts, checkDay)
    requires forall scope: Scope :: Below(caps, counts, task, scope, checkDay)
    ensures WithinCaps(caps, RecordedBoth(counts, task, recordDay))
    ensures UnusedAfter(RecordedBoth(counts, task, recordDay), recordDay)
  {
    var device, account := CounterOf(task, Device, recordDay), CounterOf(task, Account, recordDay);
    var after := RecordedBoth(counts, task, recordDay);
    assert Below(caps, counts, task, Device, checkDay) && Below(caps, counts, task, Account, checkDay);
    forall c: Counter
      ensures Used(after, c) == Used(counts, c) + if c == device || c == account then 1 else 0
      ensures Used(after, c) <= CapFor(caps, c)
    {
    }
  }

  class InMemoryDailyCounter {
    var counts: Counts

    constructor ()
      ensures counts == map[]
    {
      counts := map[];
    }

    method Get(c: Counter) returns (n: nat)
      ensures n == Used(counts, c)
    {
      n := if c in counts then counts[c] else 0;
    }

    method Add(c: Counter) returns (n: nat)
      modifies this
      ensures counts == Added(old(counts), c) && n == Used(counts, c)
    {
      n := (if c in counts then counts[c] else 0) + 1;
      counts := counts[c := n];
    }
  }

  class RateLimiter {
    const caps: Caps
    const daily: InMemoryDailyCounter
    /** Failures handed to the breaker. */
    var failures: nat

    constructor (caps: Caps, daily: InMemoryDailyCounter)
      ensures this.caps == caps && this.daily == daily && failures == 0
    {
      this.caps, this.daily, failures := caps, daily, 0;
    }

    method CheckDaily(task: Task, day: int) returns (d: Decision)
      ensures d.Ok? <==> forall scope: Scope :: Below(caps, daily.counts, task, scope, day)
      ensures d.Refused? ==> d.reason.DailyCap? && d.reason.kind == KindOf(task.action)
      ensures d.Refused? ==> !Below(caps, daily.counts, task, d.reason.scope, day)
      ensures d.Refused? && d.reason.scope == Account ==> Below(caps, daily.counts, task, Device, day)
    {
      var scopes := [Device, Account];
      for i := 0 to |scopes|
        invariant forall j | 0 <= j < i :: Below(caps, daily.counts, task, scopes[j], day)
      {
        var used := daily.Get(CounterOf(task, scopes[i], day));
        if used >= CapOf(caps, scopes[i], KindOf(task.action)) {
          assert !Below(caps, daily.counts, task, scopes[i], day);
          assert i == 1 ==> Below(caps, daily.counts, task, scopes[0], day);
          return Refused(DailyCap(scopes[i], KindOf(task.action)));
        }
      }
      assert scopes[0] == Device && scopes[1] == Account;
      d := Ok;
    }

    method Record(task: Task, day: int)
      modifies daily
      ensures daily.counts == RecordedBoth(old(daily.counts), task, day)
    {
      var _ := daily.Add(CounterOf(task, Device, day));
      var _ := daily.Add(CounterOf(task, Account, day));
    }

    method Throttle(task: Task, day: int, env: Env) returns (d: Decision)
      ensures d.Ok? <==> env.inWindow && !env.circuitOpen && env.tokenGranted
                         && forall scope: Scope :: Below(caps, daily.counts, task, scope, day)
      ensures d.Refused? ==> d == Answer(caps, daily.counts, task, day, env)
      ensures d != Refused(RunnerError) && d != Refused(RunnerReturnedFalse)
    {
      if !env.inWindow {
        return Refused(OutOfActiveWindow);
      }
      if env.circuitOpen {
        return Refused(CircuitOpen);
      }
      d := CheckDaily(task, day);
      if d.Refused? {
        return;
      }
      if !env.tokenGranted {
        return Refused(RateLimitTimeout);
      }
      d := Ok;
    }

    /**
      One call after another, on a calendar that never goes back, keeps every count of both
      scopes within its cap, even when a day ends between the check and the record.
     */
    method Execute(task: Task, checkDay: int, recordDay: int, env: Env) returns (d: Decision)
      requires checkDay <= recordDay && WithinCaps(caps, daily.counts) && UnusedAfter(daily.counts, checkDay)
      modifies this, daily
      ensures WithinCaps(caps, daily.counts) && UnusedAfter(daily.counts, recordDay)
      ensures daily.counts == if d.Ok? then RecordedBoth(old(daily.counts), task, recordDay) else old(daily.counts)
      ensures d == Answer(caps, old(daily.counts), task, checkDay, env)
      ensures failures == old(failures) +
                if d == Refused(RunnerError) || d == Refused(RunnerReturnedFalse) then 1 else 0
    {
      d := Throttle(task, checkDay, env);
      if d.Refused? {
        return;
      }
      if env.runner == Raises {
        failures := failures + 1;
        return Refused(RunnerError);
      }
      if env.runner == ReturnsTrue {
        RecordKeepsCaps(caps, daily.counts, task, checkDay, recordDay);
        Record(task, recordDay);
        return Ok;
      }
      failures := failures + 1;
      d := Refused(RunnerReturnedFalse);
    }
  }

  // ----- callers that overlap, on one day -----

  /** How far a call has come: its check is two reads, its record two writes, with pauses between. */
  datatype Stage = PassedDevice | Running | RecordedDevice

  datatype Flight = Flight(task: Task, stage: Stage)

  datatype State = State(counts: Counts, flights: map<nat, Flight>)

  datatype Step =
    | CheckDevice(id: nat, task: Task)
    | CheckAccount(id: nat)
    | GiveUp(id: nat)
    | RecordDevice(id: nat)
    | RecordAccount(id: nat)

  ghost predicate Next(caps: Caps, day: int, s: State, a: Step, s': State)
  {
    match a
    case CheckDevice(id, task) =>
      id !in s.flights && Below(caps, s.counts, task, Device, day)
      && s' == s.(flights := s.flights[id := Flight(task, PassedDevice)])
    case CheckAccount(id) =>
      id in s.flights && s.flights[id].stage == PassedDevice
      && s' == s.(flights := if Below(caps, s.counts, s.flights[id].task, Account, day)
                             then s.flights[id := Flight(s.flights[id].task, Running)] else s.flights - {id})
    case GiveUp(id) =>
      id in s.flights && s.flights[id].stage == Running && s' == s.(flights := s.flights - {id})
    case RecordDevice(id) =>
      id in s.flights && s.flights[id].stage == Running
      && s' == State(Added(s.counts, CounterOf(s.flights[id].task, Device, day)),
                     s.flights[id := Flight(s.flights[id].task, RecordedDevice)])
    case RecordAccount(id) =>
      id in s.flights && s.flights[id].stage == RecordedDevice
      && s' == State(Added(s.counts, CounterOf(s.flights[id].task, Account, day)), s.flights - {id})
  }

  // ----- a call that no other interrupts -----

  ghost predicate Path(caps: Caps, day: int, s: State, steps: seq<Step>, t: State)
  {
    if steps == [] then t == s
    else
      var last := |steps| - 1;
      exists mid :: Path(caps, day, s, steps[..last], mid) && Next(caps, day, mid, steps[last], t)
  }

  lemma OneMore(caps: Caps, day: int, s: State, steps: seq<Step>, mid: State, a: Step, t: State)
    requires Path(caps, day, s, steps, mid) && Next(caps, day, mid, a, t)
    ensures Path(caps, day, s, steps + [a], t)
  {
    assert (steps + [a])[..|steps|] == steps;
  }

  /** The steps of a call that is answered with `d`. */
  function CallSteps(id: nat, task: Task, d: Decision): seq<Step>
  {
    var checked := [CheckDevice(id, task), CheckAccount(id)];
    match d
    case Ok => checked + [RecordDevice(id)] + [RecordAccount(id)]
    case Refused(DailyCap(scope, _)) => if scope == Account then checked else []
    case Refused(OutOfActiveWindow) => []
    case Refused(CircuitOpen) => []
    case Refused(_) => checked + [GiveUp(id)]
  }

  function Landed(s: State, task: Task, day: int, d: Decision): State
  {
    if d.Ok? then s.(counts := RecordedBoth(s.counts, task, day)) else s
  }

  lemma CheckIsPath(caps: Caps, day: int, s: State, id: nat, task: Task)
    requires id !in s.flights && Below(caps, s.counts, task, Device, day)
    ensures var running := s.(flights := s.flights[id := Flight(task, Running)]);
            Path(caps, day, s, [CheckDevice(id, task), CheckAccount(id)],
                 if Below(caps, s.counts, task, Account, day) then running else s)
  {
    var passed := s.(flights := s.flights[id := Flight(task, PassedDevice)]);
    var end := if Below(caps, s.counts, task, Account, day)
               then s.(flights := s.flights[id := Flight(task, Running)]) else s;
    Overwritten(s.flights, id, Flight(task, PassedDevice), Flight(task, Running));
    OneMore(caps, day, s, [], s, CheckDevice(id, task), passed);
    OneMore(caps, day, s, [CheckDevice(id, task)], passed, CheckAccount(id), end);
    assert [] + [CheckDevice(id, task)] == [CheckDevice(id, task)];
    assert [CheckDevice(id, task)] + [CheckAccount(id)] == [CheckDevice(id, task), CheckAccount(id)];
  }

  lemma RecordIsPath(caps: Caps, day: int, s: State, steps: seq<Step>, mid: State, id: nat, task: Task)
    requires id !in s.flights && mid == s.(flights := s.flights[id := Flight(task, Running)])
    requires Path(caps, day, s, steps, mid)
    ensures Path(caps, day, s, steps + [RecordDevice(id)] + [RecordAccount(id)], Landed(s, task, day, Ok))
  {
    var half := State(Added(s.counts, CounterOf(task, Device, day)),
                      mid.flights[id := Flight(task, RecordedDevice)]);
    Overwritten(s.flights, id, Flight(task, Running), Flight(task, RecordedDevice));
    Overwritten(s.flights, id, Flight(task, RecordedDevice), Flight(task, RecordedDevice));
    OneMore(caps, day, s, steps, mid, RecordDevice(id), half);
    OneMore(caps, day, s, steps + [RecordDevice(id)], half, RecordAccount(id), Landed(s, task, day, Ok));
  }

  /** One call of `Execute` is a path of the protocol, whoever else is in flight and however it is answered. */
  lemma CallIsPath(caps: Caps, day: int, s: State, id: nat, task: Task, env: Env)
    requires id !in s.flights
    ensures var d := Answer(caps, s.counts, task, day, env);
            Path(caps, day, s, CallSteps(id, task, d), Landed(s, task, day, d))
  {
    var d, checked := Answer(caps, s.counts, task, day, env), [CheckDevice(id, task), CheckAccount(id)];
    if CallSteps(id, task, d) != [] {
      CheckIsPath(caps, day, s, id, task);
      var running := s.(flights := s.flights[id := Flight(task, Running)]);
      if d.Ok? {
        RecordIsPath(caps, day, s, checked, running, id, task);
      } else if !d.reason.DailyCap? {
        Overwritten(s.flights, id, Flight(task, Running), Flight(task, Running));
        OneMore(caps, day, s, checked, running, GiveUp(id), s);
      }
    }
  }

  /** The flight was admitted by counter `c` and has not yet been recorded there. */
  predicate Holds(f: Flight, c: Counter)
  {
    c == CounterOf(f.task, c.scope, c.day) &&
    match c.scope
    case Device => f.stage == PassedDevice || f.stage == Running
    case Account => f.stage == Running || f.stage == RecordedDevice
  }

  function Holders(s: State, c: Counter): set<nat>
  {
    set id | id in s.flights && Holds(s.flights[id], c)
  }

  predicate HeldBy(s: State, id: nat, c: Counter)
  {
    id in s.flights && Holds(s.flights[id], c)
  }

  lemma HoldersWithout(s: State, id: nat, c: Counter)
    ensures var others := Holders(s.(flights := s.flights - {id}), c);
            |Holders(s, c)| == |others| + if HeldBy(s, id, c) then 1 else 0
  {
    var rest := s.(flights := s.flights - {id});
    forall x ensures x in Holders(rest, c) <==> x in Holders(s, c) && x != id {
      assert x in rest.flights ==> rest.flights[x] == s.flights[x];
    }
    assert Holders(rest, c) == Holders(s, c) - {id};
  }

  lemma HoldersChange(s: State, s': State, id: nat, c: Counter)
    requires s.flights - {id} == s'.flights - {id}
    ensures |Holders(s', c)| - (if HeldBy(s', id, c) then 1 else 0)
         == |Holders(s, c)| - (if HeldBy(s, id, c) then 1 else 0)
  {
    HoldersWithout(s, id, c);
    HoldersWithout(s', id, c);
    assert Holders(s.(flights := s.flights - {id}), c) == Holders(s'.(flights := s'.flights - {id}), c);
  }

  /** Each step admits at most one flight to `c`, and only below the cap; recording keeps the sum. */
  lemma StepSum(caps: Caps, day: int, s: State, a: Step, s': State, c: Counter)
    requires Next(caps, day, s, a, s') && c.day == day
    ensures Used(s'.counts, c) + |Holders(s', c)| <= Used(s.counts, c) + |Holders(s, c)|
            || (Used(s'.counts, c) == Used(s.counts, c) < CapFor(caps, c))
  {
    HoldersChange(s, s', a.id, c);
  }

  /** At most `m` admitted calls are unrecorded on counter `c`, throughout the run. */
  ghost predicate IsRun(caps: Caps, day: int, c: Counter, m: nat, states: seq<State>, steps: seq<Step>)
  {
    && |states| == |steps| + 1
    && states[0] == State(map[], map[])
    && (forall i | 0 <= i < |steps| :: Next(caps, day, states[i], steps[i], states[i + 1]))
    && (forall i | 0 <= i < |states| :: |Holders(states[i], c)| <= m)
  }

  /** Overlapping callers exceed a cap by at most the number of them in flight less one. */
  lemma {:induction false} CapExceededByOverlapOnly(
    caps: Caps, day: int, c: Counter, m: nat, states: seq<State>, steps: seq<Step>, n: nat)
    requires IsRun(caps, day, c, m, states, steps) && c.day == day && 1 <= m && n <= |steps|
    ensures Used(states[n].counts, c) + |Holders(states[n], c)| <= CapFor(caps, c) + m - 1
    ensures CapFor(caps, c) == 0 ==> Used(states[n].counts, c) + |Holders(states[n], c)| == 0
  {
    if n > 0 {
      CapExceededByOverlapOnly(caps, day, c, m, states, steps, n - 1);
      assert Next(caps, day, states[n - 1], steps[n - 1], states[n]);
      StepSum(caps, day, states[n - 1], steps[n - 1], states[n], c);
      assert |Holders(states[n], c)| <= m;
    }
  }

  // ----- how far a cap is exceeded -----

  function OtherScope(scope: Scope): Scope { if scope == Device then Account else Device }

  function ActionOf(kind: Kind): string
  {
    match kind
    case Publish => "device_publish"
    case Interaction => "device_like"
    case Other => "other"
  }

  /** The `i`-th call: it counts on `c` and, in the other scope, on a key of its own. */
  function TaskOf(c: Counter, i: nat): Task
  {
    var own := seq(i, _ => 'a');
    if c.scope == Device then Task(c.key, own, ActionOf(c.kind)) else Task(own, c.key, ActionOf(c.kind))
  }

  function OwnCounter(c: Counter, i: nat): Counter { CounterOf(TaskOf(c, i), OtherScope(c.scope), c.day) }

  lemma CountersOfTask(c: Counter, i: nat, j: nat)
    ensures CounterOf(TaskOf(c, i), c.scope, c.day) == c
    ensures OwnCounter(c, i) != c && OwnCounter(c, i).kind == c.kind
    ensures i != j ==> OwnCounter(c, i) != OwnCounter(c, j)
  {
    assert |seq(i, _ => 'a')| == i && |seq(j, _ => 'a')| == j;
  }

  /** Both caps that a call on `c` meets admit at least one. */
  predicate CapsOpen(caps: Caps, c: Counter)
  {
    CapFor(caps, c) >= 1 && CapOf(caps, OtherScope(c.scope), c.kind) >= 1
  }

  /** Calls `lo` up to `hi` run, `c` stands at `used`, and no later call has been counted. */
  ghost predicate InFlight(s: State, c: Counter, used: nat, lo: nat, hi: nat)
  {
    && lo <= hi && Used(s.counts, c) == used
    && |s.flights| == hi - lo
    && (forall id :: id in s.flights <==> lo <= id < hi)
    && (forall id | lo <= id < hi :: s.flights[id] == Flight(TaskOf(c, id), Running))
    && (forall id | hi <= id :: Used(s.counts, OwnCounter(c, id)) == 0)
  }

  lemma HoldersFly(s: State, c: Counter)
    ensures |Holders(s, c)| <= |s.flights|
  {
    Subset(Holders(s, c), s.flights.Keys);
    assert |s.flights.Keys| == |s.flights|;
  }

  lemma Extend(caps: Caps, c: Counter, m: nat, states: seq<State>, steps: seq<Step>, a: Step, t: State)
    returns (states': seq<State>, steps': seq<Step>)
    requires IsRun(caps, c.day, c, m, states, steps) && Next(caps, c.day, states[|steps|], a, t) && |t.flights| <= m
    ensures IsRun(caps, c.day, c, m, states', steps') && states'[|steps'|] == t
  {
    states', steps' := states + [t], steps + [a];
    HoldersFly(t, c);
    forall i | 0 <= i < |steps'|
      ensures Next(caps, c.day, states'[i], steps'[i], states'[i + 1])
    {
      if i < |steps| {
        assert Next(caps, c.day, states[i], steps[i], states[i + 1]);
      }
    }
    forall i | 0 <= i < |states'|
      ensures |Holders(states'[i], c)| <= m
    {
      if i < |states| {
        assert |Holders(states[i], c)| <= m;
      }
    }
  }

  lemma AdmitState(caps: Caps, s: State, c: Counter, used: nat, lo: nat, hi: nat, mid: State, t: State)
    requires CapsOpen(caps, c) && InFlight(s, c, used, lo, hi) && used < CapFor(caps, c)
    requires mid == s.(flights := s.flights[hi := Flight(TaskOf(c, hi), PassedDevice)])
    requires t == s.(flights := s.flights[hi := Flight(TaskOf(c, hi), Running)])
    ensures Next(caps, c.day, s, CheckDevice(hi, TaskOf(c, hi)), mid) && Next(caps, c.day, mid, CheckAccount(hi), t)
    ensures |mid.flights| == |t.flights| == hi + 1 - lo
  {
    CountersOfTask(c, hi, hi);
    assert hi !in s.flights;
    assert Used(s.counts, OwnCounter(c, hi)) == 0;
    Overwritten(s.flights, hi, Flight(TaskOf(c, hi), PassedDevice), Flight(TaskOf(c, hi), Running));
  }

  /** One more call passes its check. */
  lemma AdmitOne(caps: Caps, c: Counter, m: nat, states: seq<State>, steps: seq<Step>, used: nat, lo: nat, hi: nat)
    returns (states': seq<State>, steps': seq<Step>)
    requires IsRun(caps, c.day, c, m, states, steps) && InFlight(states[|steps|], c, used, lo, hi)
    requires CapsOpen(caps, c) && used < CapFor(caps, c) && hi - lo < m
    ensures IsRun(caps, c.day, c, m, states', steps') && InFlight(states'[|steps'|], c, used, lo, hi + 1)
  {
    var s := states[|steps|];
    var mid := s.(flights := s.flights[hi := Flight(TaskOf(c, hi), PassedDevice)]);
    var t := s.(flights := s.flights[hi := Flight(TaskOf(c, hi), Running)]);
    AdmitState(caps, s, c, used, lo, hi, mid, t);
    states', steps' := Extend(caps, c, m, states, steps, CheckDevice(hi, TaskOf(c, hi)), mid);
    states', steps' := Extend(caps, c, m, states', steps', CheckAccount(hi), t);
  }

  lemma RecordState(caps: Caps, s: State, c: Counter, used: nat, lo: nat, hi: nat, mid: State, t: State)
    requires InFlight(s, c, used, lo, hi) && lo < hi
    requires mid == State(Added(s.counts, CounterOf(TaskOf(c, lo), Device, c.day)),
                          s.flights[lo := Flight(TaskOf(c, lo), RecordedDevice)])
    requires t == State(Added(mid.counts, CounterOf(TaskOf(c, lo), Account, c.day)), mid.flights - {lo})
    ensures Next(caps, c.day, s, RecordDevice(lo), mid) && Next(caps, c.day, mid, RecordAccount(lo), t)
    ensures InFlight(t, c, used + 1, lo + 1, hi) && |mid.flights| == hi - lo
  {
    assert lo in s.flights;
    assert t.flights[lo := mid.flights[lo]] == mid.flights;
    CountersOfTask(c, lo, lo);
    forall id | hi <= id
      ensures Used(t.counts, OwnCounter(c, id)) == 0
    {
      CountersOfTask(c, id, lo);
      assert Used(s.counts, OwnCounter(c, id)) == 0;
    }
  }

  /** The call that has run longest is counted. */
  lemma RecordOne(caps: Caps, c: Counter, m: nat, states: seq<State>, steps: seq<Step>, used: nat, lo: nat, hi: nat)
    returns (states': seq<State>, steps': seq<Step>)
    requires IsRun(caps, c.day, c, m, states, steps) && InFlight(states[|steps|], c, used, lo, hi)
    requires lo < hi <= lo + m
    ensures IsRun(caps, c.day, c, m, states', steps') && InFlight(states'[|steps'|], c, used + 1, lo + 1, hi)
  {
    var s := states[|steps|];
    var mid := State(Added(s.counts, CounterOf(TaskOf(c, lo), Device, c.day)),
                     s.flights[lo := Flight(TaskOf(c, lo), RecordedDevice)]);
    var t := State(Added(mid.counts, CounterOf(TaskOf(c, lo), Account, c.day)), mid.flights - {lo});
    RecordState(caps, s, c, used, lo, hi, mid, t);
    states', steps' := Extend(caps, c, m, states, steps, RecordDevice(lo), mid);
    states', steps' := Extend(caps, c, m, states', steps', RecordAccount(lo), t);
  }

  /** `k` calls, one after the other. */
  lemma {:induction false} Sequential(caps: Caps, c: Counter, m: nat, k: nat)
    returns (states: seq<State>, steps: seq<Step>)
    requires CapsOpen(caps, c) && m >= 1 && k <= CapFor(caps, c)
    ensures IsRun(caps, c.day, c, m, states, steps) && InFlight(states[|steps|], c, k, k, k)
  {
    if k == 0 {
      states, steps := [State(map[], map[])], [];
      HoldersFly(states[0], c);
    } else {
      states, steps := Sequential(caps, c, m, k - 1);
      states, steps := AdmitOne(caps, c, m, states, steps, k - 1, k - 1, k - 1);
      states, steps := RecordOne(caps, c, m, states, steps, k - 1, k - 1, k);
    }
  }

  /** Just below the cap `j` calls pass their checks before any of them is counted. */
  lemma {:induction false} Together(caps: Caps, c: Counter, m: nat, j: nat)
    returns (states: seq<State>, steps: seq<Step>)
    requires CapsOpen(caps, c) && m >= 1 && j <= m
    ensures var below := CapFor(caps, c) - 1;
            IsRun(caps, c.day, c, m, states, steps) && InFlight(states[|steps|], c, below, below, below + j)
  {
    var below := CapFor(caps, c) - 1;
    if j == 0 {
      states, steps := Sequential(caps, c, m, below);
    } else {
      states, steps := Together(caps, c, m, j - 1);
      states, steps := AdmitOne(caps, c, m, states, steps, below, below, below + j - 1);
    }
  }

  lemma {:induction false} Counted(caps: Caps, c: Counter, m: nat, j: nat)
    returns (states: seq<State>, steps: seq<Step>)
    requires CapsOpen(caps, c) && m >= 1 && j <= m
    ensures var below := CapFor(caps, c) - 1;
            && IsRun(caps, c.day, c, m, states, steps)
            && InFlight(states[|steps|], c, below + j, below + j, below + m)
  {
    var below := CapFor(caps, c) - 1;
    if j == 0 {
      states, steps := Together(caps, c, m, m);
    } else {
      states, steps := Counted(caps, c, m, j - 1);
      states, steps := RecordOne(caps, c, m, states, steps, below + j - 1, below + j - 1, below + m);
    }
  }

  /** The bound is met: `m` overlapping callers bring a counter to its cap and `m - 1` beyond it. */
  lemma CapExceededByOverlap(caps: Caps, c: Counter, m: nat) returns (states: seq<State>, steps: seq<Step>)
    requires CapsOpen(caps, c) && m >= 1
    ensures IsRun(caps, c.day, c, m, states, steps)
    ensures Used(states[|steps|].counts, c) == CapFor(caps, c) + m - 1
  {
    states, steps := Counted(caps, c, m, m);
  }

  ghost predicate Exceeds(caps: Caps, c: Counter, m: nat, states: seq<State>, steps: seq<Step>)
  {
    IsRun(caps, c.day, c, m, states, steps) && Used(states[|steps|].counts, c) > CapFor(caps, c)
  }

  /** A closed cap in the other scope stops every call on `c` before it is counted. */
  ghost predicate Idle(s: State, c: Counter)
  {
    && Used(s.counts, c) == 0
    && forall id | id in s.flights && KindOf(s.flights[id].task.action) == c.kind ::
         c.scope == Device && s.flights[id].stage == PassedDevice
  }

  lemma {:induction false} NeverCounted(caps: Caps, c: Counter, m: nat, states: seq<State>, steps: seq<Step>, n: nat)
    requires CapOf(caps, OtherScope(c.scope), c.kind) == 0
    requires IsRun(caps, c.day, c, m, states, steps) && n <= |steps|
    ensures Idle(states[n], c)
  {
    if n > 0 {
      NeverCounted(caps, c, m, states, steps, n - 1);
      assert Next(caps, c.day, states[n - 1], steps[n - 1], states[n]);
    }
  }

  /** A cap can be exceeded exactly if callers can overlap and neither cap they meet is closed. */
  lemma CapExceededIff(caps: Caps, c: Counter, m: nat)
    ensures (exists states, steps :: Exceeds(caps, c, m, states, steps)) <==> m >= 2 && CapsOpen(caps, c)
  {
    if states, steps :| Exceeds(caps, c, m, states, steps) {
      CapExceededByOverlapOnly(caps, c.day, c, Max(1, m), states, steps, |steps|);
      if CapOf(caps, OtherScope(c.scope), c.kind) == 0 {
        NeverCounted(caps, c, m, states, steps, |steps|);
      }
    }
    if m >= 2 && CapsOpen(caps, c) {
      var states, steps := CapExceededByOverlap(caps, c, m);
      assert Exceeds(caps, c, m, states, steps);
    }
  }
}
