/**
  Circuit breakers per device (backend/matrix/scheduler/circuit_breaker.py) and the executor
  that consults them before, and feeds them after, every device call
  (backend/matrix/scheduler/db_task_executor.py).
 */
module DeviceBreakers {
  import opened Prelude
  import opened CircuitBreakers

  /** A device id may be missing. */
  type DeviceId = Option<string>

  /** One bucket for each device; a missing id and an empty one share theirs. */
  predicate Shared(d: DeviceId, e: DeviceId)
  {
    d == e || (d in {None, Some("")} && e in {None, Some("")})
  }

  /** The name of the bucket in the source's dictionary. */
  function Key(device: DeviceId): string
  {
    if device.Some? then device.value else ""
  }

  lemma KeyShared(d: DeviceId, e: DeviceId)
    ensures Key(d) == Key(e) <==> Shared(d, e)
  {
  }

  datatype Entry = Entry(device: DeviceId, failure: Failure)

  /** The failures of one device among the first `n` entries of the common history. */
  function Project(log: seq<Entry>, n: nat, device: DeviceId): seq<Failure>
    requires n <= |log|
  {
    if n == 0 then []
    else if Shared(log[n - 1].device, device) then Project(log, n - 1, device) + [log[n - 1].failure]
    else Project(log, n - 1, device)
  }

  function Own(log: seq<Entry>, device: DeviceId): seq<Failure> { Project(log, |log|, device) }

  /** The device's own failures put its breaker in a cool-off at `t`. */
  ghost predicate OpenFor(c: Config, log: seq<Entry>, device: DeviceId, t: real)
  {
    var own := Own(log, device);
    OpenAt(c, own, |own|, t)
  }

  predicate FollowsAll(log: seq<Entry>, now: real)
  {
    0.0 <= now && forall i | 0 <= i < |log| :: log[i].failure.end <= now
  }

  lemma {:induction false} ProjectFollows(log: seq<Entry>, n: nat, device: DeviceId, now: real)
    requires n <= |log| && FollowsAll(log, now)
    ensures Follows(Project(log, n, device), now)
  {
    if n > 0 {
      ProjectFollows(log, n - 1, device, now);
    }
  }

  lemma {:induction false} ProjectPrefix(log: seq<Entry>, e: Entry, n: nat, device: DeviceId)
    requires n <= |log|
    ensures Project(log + [e], n, device) == Project(log, n, device)
  {
    if n > 0 {
      ProjectPrefix(log, e, n - 1, device);
    }
  }

  /** One more entry concerns its own device and no other. */
  lemma OwnExtend(log: seq<Entry>, e: Entry)
    ensures forall d: DeviceId ::
              Own(log + [e], d) == if Shared(e.device, d) then Own(log, d) + [e.failure] else Own(log, d)
  {
    forall d: DeviceId {
      ProjectPrefix(log, e, |log|, d);
    }
  }

  lemma OwnByKey(log: seq<Entry>, e: Entry)
    ensures forall d: DeviceId ::
              Own(log + [e], d) == if Key(e.device) == Key(d) then Own(log, d) + [e.failure] else Own(log, d)
  {
    OwnExtend(log, e);
    forall d: DeviceId {
      KeyShared(e.device, d);
    }
  }

  lemma {:induction false} SharedProject(log: seq<Entry>, n: nat, d: DeviceId, e: DeviceId)
    requires n <= |log| && Shared(d, e)
    ensures Project(log, n, d) == Project(log, n, e)
  {
    if n > 0 {
      SharedProject(log, n - 1, d, e);
    }
  }

  /**
    A failure of one device changes nothing for another: neither when it is in a cool-off, which
    decides `IsOpen` and the wait of `RetryAfter`, nor whether a failure of its own opens its breaker.
   */
  lemma OthersUnaffected(c: Config, log: seq<Entry>, d: DeviceId, f: Failure, e: DeviceId, t: real, own: Failure)
    requires d != e && !(d in {None, Some("")} && e in {None, Some("")})
    ensures OpenFor(c, log + [Entry(d, f)], e, t) <==> OpenFor(c, log, e, t)
    ensures EdgeAtEnd(c, Own(log + [Entry(d, f)] + [Entry(e, own)], e))
            <==> EdgeAtEnd(c, Own(log + [Entry(e, own)], e))
  {
    OwnExtend(log, Entry(d, f));
    OwnExtend(log, Entry(e, own));
    OwnExtend(log + [Entry(d, f)], Entry(e, own));
  }

  /** A missing id and an empty one are one device. */
  lemma BlankIdsShare(c: Config, log: seq<Entry>, t: real)
    ensures Own(log, None) == Own(log, Some("")) && (OpenFor(c, log, None, t) <==> OpenFor(c, log, Some(""), t))
  {
    SharedProject(log, |log|, None, Some(""));
  }

  class PerDeviceCircuitBreaker {
    const config: Config
    var buckets: map<string, CircuitBreaker>
    ghost var log: seq<Entry>

    ghost predicate Valid()
      reads this, buckets.Values
    {
      && config.Valid()
      && (forall k | k in buckets ::
            buckets[k].Valid() && buckets[k].config == config)
      && (forall d: DeviceId :: Own(log, d) == if Key(d) in buckets then buckets[Key(d)].log else [])
      && (forall j, k | j in buckets && k in buckets && j != k :: buckets[j] != buckets[k])
    }

    constructor (config: Config)
      requires config.Valid()
      ensures Valid() && this.config == config && log == [] && buckets == map[]
    {
      this.config := config;
      buckets, log := map[], [];
    }

    method Bucket(key: string) returns (bucket: CircuitBreaker)
      requires Valid()
      modifies `buckets
      ensures Valid() && key in buckets && bucket == buckets[key]
      ensures fresh(buckets.Values - old(buckets.Values))
    {
      if key in buckets {
        return buckets[key];
      }
      bucket := new CircuitBreaker(config);
      buckets := buckets[key := bucket];
    }

    method IsOpen(device: DeviceId, now: real) returns (open: bool)
      requires Valid() && FollowsAll(log, now)
      modifies `buckets
      ensures Valid() && fresh(buckets.Values - old(buckets.Values))
      ensures open <==> OpenFor(config, log, device, now)
    {
      var bucket := Bucket(Key(device));
      ProjectFollows(log, |log|, device, now);
      open := bucket.IsOpen(now);
    }

    method RetryAfter(device: DeviceId, now: real) returns (wait: real)
      requires Valid() && FollowsAll(log, now)
      modifies `buckets
      ensures Valid() && fresh(buckets.Values - old(buckets.Values))
      ensures 0.0 <= wait && !OpenFor(config, log, device, now + wait)
      ensures forall t | now <= t < now + wait :: OpenFor(config, log, device, t)
    {
      var bucket := Bucket(Key(device));
      ProjectFollows(log, |log|, device, now);
      wait := bucket.RetryAfter(now);
    }

    method Feed(device: DeviceId, now: real, end: real) returns (edge: bool)
      requires Valid() && FollowsAll(log, now) && now <= end && Key(device) in buckets
      modifies `log, buckets[Key(device)]
      ensures Valid() && log == old(log) + [Entry(device, Failure(now, end))]
      ensures edge == EdgeAtEnd(config, Own(log, device))
    {
      ghost var before := log;
      ProjectFollows(log, |log|, device, now);
      OwnByKey(log, Entry(device, Failure(now, end)));
      var bucket := buckets[Key(device)];
      assert bucket.log == Own(before, device);
      edge := bucket.RecordFailure(now, end);
      log := log + [Entry(device, Failure(now, end))];
      forall d: DeviceId
        ensures Own(log, d) == if Key(d) in buckets then buckets[Key(d)].log else []
      {
        if Key(d) in buckets && Key(d) != Key(device) {
          assert buckets[Key(d)] != bucket;
          assert buckets[Key(d)].log == Own(before, d);
        }
      }
    }

    /** What a lone breaker fed with this device's failures alone would answer. */
    method RecordFailure(device: DeviceId, now: real, end: real) returns (edge: bool)
      requires Valid() && FollowsAll(log, now) && now <= end
      modifies this, buckets.Values
      ensures Valid() && fresh(buckets.Values - old(buckets.Values))
      ensures log == old(log) + [Entry(device, Failure(now, end))]
      ensures edge == EdgeAtEnd(config, Own(log, device))
    {
      var _ := Bucket(Key(device));
      edge := Feed(device, now, end);
    }
  }

  // ----- the executor -----

  datatype Task = Task(device: DeviceId, action: string)

  /** What the device adapter does when it is called. */
  datatype Adapter = Ok | NotOk | Raised

  datatype Alert = CircuitOpenAlert(device: DeviceId) | ExecutorException(device: DeviceId)

  datatype Result = Done(ok: bool) | CircuitOpen(retryAfter: real)

  const INTERACT_ACTIONS: set<string> :=
    {"device_like", "device_comment", "device_collect", "device_follow", "device_interact"}

  /** The circuit-open alerts for one device among the first `n`. */
  function AlertCount(alerts: seq<Alert>, n: nat, device: DeviceId): nat
    requires n <= |alerts|
  {
    if n == 0 then 0
    else
      var a := alerts[n - 1];
      AlertCount(alerts, n - 1, device) + if a.CircuitOpenAlert? && Shared(a.device, device) then 1 else 0
  }

  function AlertsFor(alerts: seq<Alert>, device: DeviceId): nat { AlertCount(alerts, |alerts|, device) }

  lemma {:induction false} AlertCountPrefix(alerts: seq<Alert>, a: Alert, n: nat, device: DeviceId)
    requires n <= |alerts|
    ensures AlertCount(alerts + [a], n, device) == AlertCount(alerts, n, device)
  {
    if n > 0 {
      AlertCountPrefix(alerts, a, n - 1, device);
    }
  }

  lemma AlertAppend(alerts: seq<Alert>, a: Alert)
    ensures forall d: DeviceId :: AlertsFor(alerts + [a], d) ==
              AlertsFor(alerts, d) + if a.CircuitOpenAlert? && Shared(a.device, d) then 1 else 0
  {
    forall d: DeviceId {
      AlertCountPrefix(alerts, a, |alerts|, d);
    }
  }

  function Openings(c: Config, log: seq<Entry>, device: DeviceId): nat
  {
    Edges(c, Own(log, device), |Own(log, device)|)
  }

  /** One alert per opening of each device, and none otherwise. */
  ghost predicate AlertsMatch(c: Config, alerts: seq<Alert>, log: seq<Entry>)
  {
    forall d: DeviceId :: AlertsFor(alerts, d) == Openings(c, log, d)
  }

  /** The alerts of a call whose failure opened a breaker, or whose adapter raised. */
  function Alerted(alerts: seq<Alert>, device: DeviceId, tripped: bool, raised: bool): seq<Alert>
  {
    var more := if tripped then alerts + [CircuitOpenAlert(device)] else alerts;
    if raised then more + [ExecutorException(device)] else more
  }

  lemma OpeningsAfter(c: Config, log: seq<Entry>, e: Entry, d: DeviceId)
    ensures Openings(c, log + [e], d) ==
            Openings(c, log, d) + if Shared(e.device, d) && EdgeAtEnd(c, Own(log + [e], e.device)) then 1 else 0
  {
    OwnExtend(log, e);
    if Shared(e.device, d) {
      SharedProject(log + [e], |log + [e]|, e.device, d);
      ReplayPrefix(c, Own(log, d), [e.failure], |Own(log, d)|);
    }
  }

  /** Alerting exactly at an opening keeps alerts and openings in step. */
  lemma AlertsStillMatch(c: Config, alerts: seq<Alert>, log: seq<Entry>, e: Entry)
    requires AlertsMatch(c, alerts, log)
    ensures AlertsMatch(c, if EdgeAtEnd(c, Own(log + [e], e.device)) then alerts + [CircuitOpenAlert(e.device)]
                           else alerts, log + [e])
  {
    AlertAppend(alerts, CircuitOpenAlert(e.device));
    forall d: DeviceId {
      OpeningsAfter(c, log, e, d);
    }
  }

  class DeviceTaskExecutor {
    const breaker: PerDeviceCircuitBreaker
    const hasInteractor: bool
    var alerts: seq<Alert>

    ghost predicate Valid()
      reads this, breaker, breaker.buckets.Values
    {
      breaker.Valid() && AlertsMatch(breaker.config, alerts, breaker.log)
    }

    constructor (breaker: PerDeviceCircuitBreaker, hasInteractor: bool)
      requires breaker.Valid() && breaker.log == []
      ensures Valid() && this.breaker == breaker && this.hasInteractor == hasInteractor && alerts == []
    {
      this.breaker, this.hasInteractor := breaker, hasInteractor;
      alerts := [];
    }

    /** The dispatch on the action; a collector that raises is caught inside its handler. */
    function Outcome(action: string, adapter: Adapter): Adapter
    {
      if action == "device_publish" then adapter
      else if action == "device_collect_metrics" then (if adapter == Raised then NotOk else adapter)
      else if action in INTERACT_ACTIONS then (if hasInteractor then adapter else NotOk)
      else NotOk
    }

    /** Some adapter is called for the action. */
    predicate Handled(action: string)
    {
      || action == "device_publish" || action == "device_collect_metrics"
      || (hasInteractor
          && action in {"device_like", "device_comment", "device_collect", "device_follow", "device_interact"})
    }

    method RecordFailure(task: Task, now: real, end: real)
      requires Valid() && FollowsAll(breaker.log, now) && now <= end
      modifies this, breaker, breaker.buckets.Values
      ensures Valid() && fresh(breaker.buckets.Values - old(breaker.buckets.Values))
      ensures breaker.log == old(breaker.log) + [Entry(task.device, Failure(now, end))]
      ensures alerts == Alerted(old(alerts), task.device,
                                EdgeAtEnd(breaker.config, Own(breaker.log, task.device)), false)
    {
      ghost var before := breaker.log;
      var edge := breaker.RecordFailure(task.device, now, end);
      AlertsStillMatch(breaker.config, alerts, before, Entry(task.device, Failure(now, end)));
      if edge {
        alerts := alerts + [CircuitOpenAlert(task.device)];
      }
    }

    /** After the device call: a failure is recorded, and an adapter that raised is reported. */
    method Settle(task: Task, outcome: Adapter, failed: real, end: real) returns (ok: bool)
      requires Valid() && FollowsAll(breaker.log, failed) && failed <= end
      modifies this, breaker, breaker.buckets.Values
      ensures Valid() && fresh(breaker.buckets.Values - old(breaker.buckets.Values))
      ensures ok == (outcome == Ok)
      ensures breaker.log == old(breaker.log) + if ok then [] else [Entry(task.device, Failure(failed, end))]
      ensures alerts == Alerted(old(alerts), task.device,
                                !ok && EdgeAtEnd(breaker.config, Own(breaker.log, task.device)), outcome == Raised)
    {
      ok := outcome == Ok;
      if !ok {
        RecordFailure(task, failed, end);
      }
      if outcome == Raised {
        AlertAppend(alerts, ExecutorException(task.device));
        alerts := alerts + [ExecutorException(task.device)];
      }
    }

    /** The wait that `CircuitOpen` carries, if the device is in a cool-off. */
    method Gate(task: Task, asked: real, waited: real) returns (wait: Option<real>)
      requires Valid() && FollowsAll(breaker.log, asked) && asked <= waited
      modifies breaker`buckets
      ensures Valid() && fresh(breaker.buckets.Values - old(breaker.buckets.Values))
      ensures wait.Some? <==> OpenFor(breaker.config, breaker.log, task.device, asked)
      ensures wait.Some? ==> 0.0 <= wait.value
      ensures wait.Some? ==> !OpenFor(breaker.config, breaker.log, task.device, waited + wait.value)
    {
      ghost var log := breaker.log;
      assert AlertsMatch(breaker.config, alerts, log);
      var open := breaker.IsOpen(task.device, asked);
      assert breaker.log == log;
      if !open {
        return None;
      }
      var w := breaker.RetryAfter(task.device, waited);
      assert breaker.log == log;
      wait := Some(w);
    }

    /**
      One call, from its gate to its settling, that no other call interrupts; calls that interrupt
      each other are modelled below.

      `asked` and `waited` are the clock at `is_open` and `retry_after`, `failed` and `end` the
      two readings of a recorded failure.
     */
    method Execute(task: Task, adapter: Adapter, asked: real, waited: real, failed: real, end: real)
      returns (r: Result)
      requires Valid() && FollowsAll(breaker.log, asked) && asked <= waited && asked <= failed <= end
      modifies this, breaker, breaker.buckets.Values
      ensures Valid() && fresh(breaker.buckets.Values - old(breaker.buckets.Values))
      ensures r.CircuitOpen? <==> OpenFor(breaker.config, old(breaker.log), task.device, asked)
      ensures r.CircuitOpen? ==> breaker.log == old(breaker.log) && alerts == old(alerts)
      ensures r.CircuitOpen? ==> 0.0 <= r.retryAfter
      ensures r.CircuitOpen? ==> !OpenFor(breaker.config, old(breaker.log), task.device, waited + r.retryAfter)
      ensures r.Done? ==> (r.ok <==> adapter == Ok && Handled(task.action))
      ensures r.Done? ==> breaker.log == old(breaker.log) +
                          if r.ok then [] else [Entry(task.device, Failure(failed, end))]
      ensures r.Done? ==> alerts == Alerted(
                old(alerts), task.device, !r.ok && EdgeAtEnd(breaker.config, Own(breaker.log, task.device)),
                adapter == Raised && Handled(task.action) && task.action != "device_collect_metrics")
    {
      var wait := Gate(task, asked, waited);
      if wait.Some? {
        return CircuitOpen(wait.value);
      }
      var ok := Settle(task, Outcome(task.action, adapter), failed, end);
      r := Done(ok);
    }
  }

  /** With a cool-off longer than the window, `threshold` failures of a device stand behind each of its alerts. */
  lemma AlertsPerDevice(e: DeviceTaskExecutor, device: DeviceId)
    requires e.Valid() && e.breaker.config.coolOff > e.breaker.config.window
    ensures AlertsFor(e.alerts, device) * e.breaker.config.threshold <= |Own(e.breaker.log, device)|
  {
    AlertsBoundedIff(e.breaker.config);
    assert Ordered(Own(e.breaker.log, device));
    assert AlertsFor(e.alerts, device) == Openings(e.breaker.config, e.breaker.log, device);
  }

  // ----- calls that overlap -----

  /** A call that has passed its gate, or that has opened a breaker and is about to alert. */
  datatype Stage = AtDevice(device: DeviceId) | Alerting(device: DeviceId)

  datatype World = World(log: seq<Entry>, alerts: seq<Alert>, calls: map<nat, Stage>)

  /** A call runs without a pause up to the device, from the device's answer to the alert, and after it. */
  datatype Step =
    | Pass(id: nat, device: DeviceId, asked: real)
    | Return(id: nat, ok: bool, failed: real, end: real)
    | SendAlert(id: nat)

  ghost predicate Enabled(s: World, a: Step)
  {
    match a
    case Pass(id, _, asked) => id !in s.calls && FollowsAll(s.log, asked)
    case Return(id, _, failed, end) =>
      id in s.calls && s.calls[id].AtDevice? && FollowsAll(s.log, failed) && failed <= end
    case SendAlert(id) => id in s.calls && s.calls[id].Alerting?
  }

  ghost function Apply(c: Config, s: World, a: Step): World
    requires Enabled(s, a)
  {
    match a
    case Pass(id, device, asked) =>
      if OpenFor(c, s.log, device, asked) then s else s.(calls := s.calls[id := AtDevice(device)])
    case Return(id, ok, failed, end) =>
      if ok then s.(calls := s.calls - {id})
      else
        var device := s.calls[id].device;
        var log := s.log + [Entry(device, Failure(failed, end))];
        if EdgeAtEnd(c, Own(log, device)) then s.(log := log, calls := s.calls[id := Alerting(device)])
        else s.(log := log, calls := s.calls - {id})
    case SendAlert(id) =>
      s.(alerts := s.alerts + [CircuitOpenAlert(s.calls[id].device)], calls := s.calls - {id})
  }

  ghost predicate IsRun(c: Config, states: seq<World>, steps: seq<Step>)
  {
    && |states| == |steps| + 1 && states[0] == World([], [], map[])
    && forall i | 0 <= i < |steps| :: Enabled(states[i], steps[i]) && states[i + 1] == Apply(c, states[i], steps[i])
  }

  /** The call is about to alert for the device. */
  predicate AlertsSoon(stage: Stage, device: DeviceId)
  {
    stage.Alerting? && Shared(stage.device, device)
  }

  /**
    A call that no other interrupts is a path of these steps: to the device, back with a failure, and
    to its alert.  It leaves the history and the alerts as `Execute` does.
   */
  lemma CallIsPath(c: Config, s: World, id: nat, device: DeviceId, asked: real, ok: bool, failed: real, end: real)
    returns (states: seq<World>, steps: seq<Step>)
    requires id !in s.calls && FollowsAll(s.log, asked) && asked <= failed <= end
    ensures |states| == |steps| + 1 && states[0] == s
    ensures forall i | 0 <= i < |steps| ::
              Enabled(states[i], steps[i]) && states[i + 1] == Apply(c, states[i], steps[i])
    ensures var t, failure := states[|steps|], Entry(device, Failure(failed, end));
            && t.calls == s.calls
            && (OpenFor(c, s.log, device, asked) || ok ==> t == s)
            && (!OpenFor(c, s.log, device, asked) && !ok ==>
                  && t.log == s.log + [failure]
                  && t.alerts == Alerted(s.alerts, device, EdgeAtEnd(c, Own(t.log, device)), false))
  {
    var pass, back := Pass(id, device, asked), Return(id, ok, failed, end);
    var passed := Apply(c, s, pass);
    if OpenFor(c, s.log, device, asked) {
      return [s, passed], [pass];
    }
    Overwritten(s.calls, id, AtDevice(device), Alerting(device));
    var returned := Apply(c, passed, back);
    if id in returned.calls {
      Overwritten(s.calls, id, Alerting(device), Alerting(device));
      return [s, passed, returned, Apply(c, returned, SendAlert(id))], [pass, back, SendAlert(id)];
    }
    return [s, passed, returned], [pass, back];
  }

  function AlertingFor(s: World, device: DeviceId): set<nat>
  {
    set id | id in s.calls && AlertsSoon(s.calls[id], device)
  }

  /** Every opening of the device has been alerted, or a call is about to. */
  ghost predicate AlertsDue(c: Config, s: World, device: DeviceId)
  {
    AlertsFor(s.alerts, device) + |AlertingFor(s, device)| == Openings(c, s.log, device)
  }

  lemma AlertingWithout(s: World, id: nat, device: DeviceId)
    requires id in s.calls
    ensures |AlertingFor(s.(calls := s.calls - {id}), device)|
            == |AlertingFor(s, device)| - if AlertsSoon(s.calls[id], device) then 1 else 0
  {
    var rest := s.(calls := s.calls - {id});
    forall x
      ensures x in AlertingFor(rest, device) <==> x in AlertingFor(s, device) && x != id
    {
      assert x in rest.calls ==> rest.calls[x] == s.calls[x];
    }
    assert AlertingFor(rest, device) == AlertingFor(s, device) - {id};
  }

  lemma AlertingWith(s: World, id: nat, stage: Stage, device: DeviceId)
    requires id in s.calls ==> s.calls[id].AtDevice?
    ensures |AlertingFor(s.(calls := s.calls[id := stage]), device)|
            == |AlertingFor(s, device)| + if AlertsSoon(stage, device) then 1 else 0
  {
    var more := s.(calls := s.calls[id := stage]);
    assert id !in AlertingFor(s, device);
    if AlertsSoon(stage, device) {
      assert AlertingFor(more, device) == AlertingFor(s, device) + {id};
    } else {
      assert AlertingFor(more, device) == AlertingFor(s, device);
    }
  }

  lemma SameAlerting(s: World, t: World, device: DeviceId)
    requires s.calls == t.calls
    ensures AlertingFor(s, device) == AlertingFor(t, device)
  {
  }

  lemma FailureStep(c: Config, s: World, id: nat, failing: DeviceId, f: Failure, d: DeviceId)
    requires id in s.calls && s.calls[id].AtDevice? && AlertsDue(c, s, d)
    ensures var log := s.log + [Entry(failing, f)];
            var t := if EdgeAtEnd(c, Own(log, failing)) then s.(log := log, calls := s.calls[id := Alerting(failing)])
                     else s.(log := log, calls := s.calls - {id});
            AlertsDue(c, t, d)
  {
    OpeningsAfter(c, s.log, Entry(failing, f), d);
    var log := s.log + [Entry(failing, f)];
    var with, without := s.(calls := s.calls[id := Alerting(failing)]), s.(calls := s.calls - {id});
    AlertingWith(s, id, Alerting(failing), d);
    AlertingWithout(s, id, d);
    SameAlerting(with, with.(log := log), d);
    SameAlerting(without, without.(log := log), d);
  }

  lemma AlertStep(c: Config, s: World, id: nat, d: DeviceId)
    requires id in s.calls && s.calls[id].Alerting? && AlertsDue(c, s, d)
    ensures AlertsDue(c, s.(alerts := s.alerts + [CircuitOpenAlert(s.calls[id].device)], calls := s.calls - {id}), d)
  {
    var without := s.(calls := s.calls - {id});
    AlertingWithout(s, id, d);
    AlertAppend(s.alerts, CircuitOpenAlert(s.calls[id].device));
    SameAlerting(without, without.(alerts := s.alerts + [CircuitOpenAlert(s.calls[id].device)]), d);
  }

  lemma AlertsDueStep(c: Config, s: World, a: Step, d: DeviceId)
    requires Enabled(s, a) && AlertsDue(c, s, d)
    ensures AlertsDue(c, Apply(c, s, a), d)
  {
    match a
    case Pass(id, device, _) => AlertingWith(s, id, AtDevice(device), d);
    case Return(id, ok, failed, end) =>
      AlertingWithout(s, id, d);
      FailureStep(c, s, id, s.calls[id].device, Failure(failed, end), d);
    case SendAlert(id) => AlertStep(c, s, id, d);
  }

  /** However calls overlap, each device's openings are its alerts and the alerts under way. */
  lemma {:induction false} OneAlertPerOpening(c: Config, states: seq<World>, steps: seq<Step>, device: DeviceId, n: nat)
    requires IsRun(c, states, steps) && n <= |steps|
    ensures AlertsFor(states[n].alerts, device) + |AlertingFor(states[n], device)| == Openings(c, states[n].log, device)
  {
    if n > 0 {
      OneAlertPerOpening(c, states, steps, device, n - 1);
      AlertsDueStep(c, states[n - 1], steps[n - 1], device);
    }
  }

  lemma {:induction false} OverlapOrdered(c: Config, states: seq<World>, steps: seq<Step>, device: DeviceId, n: nat)
    requires IsRun(c, states, steps) && n <= |steps|
    ensures Ordered(Own(states[n].log, device))
  {
    if n > 0 {
      var s, a := states[n - 1], steps[n - 1];
      OverlapOrdered(c, states, steps, device, n - 1);
      if a.Return? && !a.ok {
        var e := Entry(s.calls[a.id].device, Failure(a.failed, a.end));
        OwnExtend(s.log, e);
        ProjectFollows(s.log, |s.log|, device, a.failed);
        assert Own(states[n].log, device) == Own(s.log + [e], device);
      }
    }
  }

  /** So `threshold` failures of a device stand behind each of its alerts, whatever overlaps. */
  lemma OverlappingAlertsPaidFor(c: Config, states: seq<World>, steps: seq<Step>, device: DeviceId, n: nat)
    requires c.Valid() && c.coolOff > c.window && IsRun(c, states, steps) && n <= |steps|
    ensures AlertsFor(states[n].alerts, device) * c.threshold <= |Own(states[n].log, device)|
  {
    var own := Own(states[n].log, device);
    OneAlertPerOpening(c, states, steps, device, n);
    OverlapOrdered(c, states, steps, device, n);
    AlertsBoundedIff(c);
    assert Edges(c, own, |own|) * c.threshold <= |own|;
    Fewer(AlertsFor(states[n].alerts, device), Edges(c, own, |own|), c.threshold);
  }

  lemma Fewer(a: nat, b: nat, f: nat)
    requires a <= b
    ensures a * f <= b * f
  {
    assert (b - a) * f >= 0;
  }
}
