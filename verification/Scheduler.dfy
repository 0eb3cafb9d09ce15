/**
  The scheduler's loop (backend/matrix/scheduler/scheduler.py): one turn of it, undisturbed and
  with its dispatches one after the other, is a path of the protocol of TaskProtocol.

  An executor call is a parameter: how it ends and how long it takes.
 */
module Schedulers {
  import opened Prelude
  import opened TaskTable
  import opened TaskProtocol

  datatype Call = Call(outcome: Outcome, took: real)

  ghost predicate CallOk(c: Call) { c.took >= 0.0 && (c.outcome.CircuitOpen? ==> c.outcome.retryAfter >= 0.0) }

  /** Where the first `n` steps lead from `s`, if they can be taken. */
  ghost function After(p: Params, s: State, steps: seq<Step>, n: nat): Option<State>
    requires n <= |steps|
  {
    if n == 0 then Some(s)
    else
      var mid := After(p, s, steps, n - 1);
      if mid.Some? && Enabled(p, mid.value, steps[n - 1]) then Some(Apply(p, mid.value, steps[n - 1])) else None
  }

  /** The steps lead from `s` to `t`. */
  ghost predicate Path(p: Params, s: State, steps: seq<Step>, t: State)
  {
    After(p, s, steps, |steps|) == Some(t)
  }

  lemma {:induction false} AfterPrefix(p: Params, s: State, steps: seq<Step>, more: seq<Step>, n: nat)
    requires n <= |steps|
    ensures After(p, s, steps + more, n) == After(p, s, steps, n)
  {
    if n > 0 {
      AfterPrefix(p, s, steps, more, n - 1);
    }
  }

  lemma OneMore(p: Params, s: State, steps: seq<Step>, t: State, a: Step, u: State)
    requires Path(p, s, steps, t) && Next(p, t, a, u)
    ensures Path(p, s, steps + [a], u)
  {
    AfterPrefix(p, s, steps, [a], |steps|);
  }

  lemma {:induction false} PathOnward(p: Params, s: State, steps: seq<Step>, t: State, more: seq<Step>, n: nat)
    requires Path(p, s, steps, t) && n <= |more|
    ensures After(p, s, steps + more, |steps| + n) == After(p, t, more, n)
  {
    if n == 0 {
      AfterPrefix(p, s, steps, more, |steps|);
    } else {
      PathOnward(p, s, steps, t, more, n - 1);
    }
  }

  lemma PathsJoin(p: Params, s: State, steps: seq<Step>, t: State, more: seq<Step>, u: State)
    requires Path(p, s, steps, t) && Path(p, t, more, u)
    ensures Path(p, s, steps + more, u)
  {
    PathOnward(p, s, steps, t, more, |more|);
  }

  /** A path keeps the invariant of the protocol. */
  lemma {:induction false} PathKeepsInv(p: Params, s: State, steps: seq<Step>, n: nat)
    requires n <= |steps| && After(p, s, steps, n).Some? && Inv(s)
    ensures Inv(After(p, s, steps, n).value)
  {
    if n > 0 {
      PathKeepsInv(p, s, steps, n - 1);
      InvStep(p, After(p, s, steps, n - 1).value, steps[n - 1], After(p, s, steps, n).value);
    }
  }

  datatype Loaded = Loaded(id: TaskId, attempts: nat, action: string)

  /** The steps of one dispatch. */
  function DispatchSteps(task: Loaded, call: Call, now: real): seq<Step>
  {
    if task.action == PUBLISH then [SkipPublish(task.id)]
    else [MarkRunning(task.id), CallExecutor(task.id), Tick(now + call.took), Finish(task.id, call.outcome)]
  }

  /** The state after one dispatch. */
  function Dispatched(s: State, task: Loaded, call: Call): State
    requires task.id in s.rows
  {
    if task.action == PUBLISH then Drop(s, task.id)
    else
      var later := s.now + call.took;
      State(s.rows[task.id := Finished(Marked(s.rows[task.id], task.attempts, s.now), call.outcome, later)],
            s.batch - {task.id}, s.claims, later)
  }

  lemma ExecutionIsPath(p: Params, s: State, task: Loaded, call: Call)
    requires task.id in s.rows && task.id in s.batch && CallOk(call) && task.action != PUBLISH
    requires s.batch[task.id] == Queued(task.attempts, task.action)
    ensures Path(p, s, DispatchSteps(task, call, s.now), Dispatched(s, task, call))
  {
    var id := task.id;
    var row := Marked(s.rows[id], task.attempts, s.now);
    var marked := Put(s, id, row).(batch := s.batch[id := MarkedRunning]);
    var called := marked.(batch := marked.batch[id := Executing]);
    var later := called.(now := s.now + call.took);
    var end := Finished(row, call.outcome, later.now);
    var s1 := [] + [MarkRunning(id)];
    var s2 := s1 + [CallExecutor(id)];
    var s3 := s2 + [Tick(later.now)];
    Overwritten(s.rows, id, row, end);
    Overwritten(s.batch, id, MarkedRunning, Executing);
    Overwritten(s.batch, id, Executing, Executing);
    OneMore(p, s, [], s, MarkRunning(id), marked);
    OneMore(p, s, s1, marked, CallExecutor(id), called);
    OneMore(p, s, s2, called, Tick(later.now), later);
    OneMore(p, s, s3, later, Finish(id, call.outcome), Dispatched(s, task, call));
    assert s3 + [Finish(id, call.outcome)] == DispatchSteps(task, call, s.now);
  }

  lemma DispatchIsPath(p: Params, s: State, task: Loaded, call: Call)
    requires task.id in s.rows && task.id in s.batch && CallOk(call)
    requires s.batch[task.id] == Queued(task.attempts, task.action)
    ensures Path(p, s, DispatchSteps(task, call, s.now), Dispatched(s, task, call))
  {
    if task.action == PUBLISH {
      OneMore(p, s, [], s, SkipPublish(task.id), Drop(s, task.id));
      assert [] + [SkipPublish(task.id)] == DispatchSteps(task, call, s.now);
    } else {
      ExecutionIsPath(p, s, task, call);
    }
  }

  /** The clock after the first `n` dispatches. */
  function TimeAfter(ready: seq<Loaded>, calls: nat -> Call, now: real, n: nat): real
    requires n <= |ready|
  {
    if n == 0 then now
    else TimeAfter(ready, calls, now, n - 1) + if ready[n - 1].action == PUBLISH then 0.0 else calls(n - 1).took
  }

  /** The steps of the first `n` dispatches, one after the other. */
  function AllSteps(ready: seq<Loaded>, calls: nat -> Call, now: real, n: nat): seq<Step>
    requires n <= |ready|
  {
    if n == 0 then []
    else AllSteps(ready, calls, now, n - 1)
         + DispatchSteps(ready[n - 1], calls(n - 1), TimeAfter(ready, calls, now, n - 1))
  }

  /** The loaded tasks that are not the phones' are executed, and nothing else is. */
  lemma {:induction false} ExecutedExactly(ready: seq<Loaded>, calls: nat -> Call, now: real, n: nat, id: TaskId)
    requires n <= |ready|
    ensures CallExecutor(id) in AllSteps(ready, calls, now, n)
            <==> exists i :: 0 <= i < n && ready[i].id == id && ready[i].action != PUBLISH
    ensures Sweep !in AllSteps(ready, calls, now, n)
  {
    if n > 0 {
      ExecutedExactly(ready, calls, now, n - 1, id);
    }
  }

  /** What the loop still has to dispatch: the tasks from the `i`-th on, as they were loaded. */
  ghost predicate Waiting(ready: seq<Loaded>, i: nat, s: State)
  {
    && (forall id :: id in s.batch <==> exists k :: i <= k < |ready| && ready[k].id == id)
    && (forall k | i <= k < |ready| :: WaitsIn(ready[k], s))
  }

  ghost predicate WaitsIn(task: Loaded, s: State)
  {
    task.id in s.rows && task.id in s.batch && s.batch[task.id] == Queued(task.attempts, task.action)
  }

  ghost predicate DistinctTasks(ready: seq<Loaded>)
  {
    forall i, j | 0 <= i < j < |ready| :: ready[i].id != ready[j].id
  }

  /** `ready` are the loaded rows, as they were when they were loaded. */
  ghost predicate Snapshots(ready: seq<Loaded>, rows: Table, ids: seq<TaskId>)
  {
    && |ready| == |ids|
    && forall i | 0 <= i < |ids| ::
         ids[i] in rows && ready[i] == Loaded(ids[i], rows[ids[i]].attempts, rows[ids[i]].action)
  }

  /** The loop has made the first `n` dispatches. */
  ghost predicate DispatchedSoFar(p: Params, start: State, ready: seq<Loaded>, calls: nat -> Call, n: nat, s: State)
    requires n <= |ready|
  {
    && Waiting(ready, n, s) && Path(p, start, AllSteps(ready, calls, start.now, n), s)
    && s.now == TimeAfter(ready, calls, start.now, n)
  }

  lemma DispatchNext(p: Params, start: State, ready: seq<Loaded>, calls: nat -> Call, n: nat, s: State)
    requires n < |ready| && DistinctTasks(ready) && CallOk(calls(n)) && DispatchedSoFar(p, start, ready, calls, n, s)
    ensures ready[n].id in s.rows && DispatchedSoFar(p, start, ready, calls, n + 1, Dispatched(s, ready[n], calls(n)))
  {
    var t := Dispatched(s, ready[n], calls(n));
    DispatchIsPath(p, s, ready[n], calls(n));
    PathsJoin(p, start, AllSteps(ready, calls, start.now, n), s, DispatchSteps(ready[n], calls(n), s.now), t);
  }

  /** A sweep or none, one load and the dispatches. */
  lemma TurnIsPath(p: Params, start: State, first: seq<Step>, swept: State, ids: seq<TaskId>, loaded: State,
                   more: seq<Step>, end: State)
    requires Path(p, start, first, swept)
    requires Next(p, swept, TaskProtocol.Load(ids), loaded) && Path(p, loaded, more, end)
    ensures Path(p, start, first + [TaskProtocol.Load(ids)] + more, end)
  {
    OneMore(p, start, first, swept, TaskProtocol.Load(ids), loaded);
    PathsJoin(p, start, first + [TaskProtocol.Load(ids)], loaded, more, end);
  }

  /** The steps that a turn takes when it loads `ids`. */
  ghost predicate TurnSteps(rows: Table, now: real, limit: nat, ids: seq<TaskId>, ready: seq<Loaded>,
                            calls: nat -> Call, swept: bool, steps: seq<Step>)
  {
    && IsBatch(rows, now, limit, ids) && Snapshots(ready, rows, ids)
    && steps == (if swept then [Sweep] else []) + [TaskProtocol.Load(ids)] + AllSteps(ready, calls, now, |ready|)
  }

  class Scheduler {
    const store: TaskStore
    const params: Params
    const sweepInterval: real
    var now: real
    var lastSweep: real
    /** When the loop has swept. */
    ghost var sweeps: seq<real>

    /** Two sweeps are at least `sweepInterval` apart. */
    ghost predicate Valid()
      reads this
    {
      && (forall i | 0 <= i < |sweeps| - 1 :: sweeps[i + 1] - sweeps[i] >= sweepInterval)
      && (sweeps != [] ==> sweeps[|sweeps| - 1] == lastSweep)
    }

    constructor (store: TaskStore, params: Params, sweepInterval: real, now: real)
      ensures Valid() && this.store == store && this.params == params && this.sweepInterval == sweepInterval
      ensures this.now == now && lastSweep == 0.0
    {
      this.store, this.params, this.sweepInterval := store, params, sweepInterval;
      this.now, lastSweep, sweeps := now, 0.0, [];
    }

    ghost function At(batch: map<TaskId, Stage>, claims: set<(DeviceId, TaskId)>): State
      reads this, store
    {
      State(store.rows, batch, claims, now)
    }

    /** How the row of a dispatched task stands after its executor call. */
    predicate ClosedAs(task: Loaded, call: Call)
      reads this, store
      requires task.id in store.rows
    {
      var t := store.rows[task.id];
      && t.attempts == task.attempts + 1 && t.updatedAt == now
      && (t.status == Success <==> call.outcome == ReturnedTrue)
      && (t.status == Failed <==> call.outcome == ReturnedFalse || call.outcome == RaisedError)
      && (t.status == Pending <==> call.outcome.CircuitOpen?)
      && (call.outcome == ReturnedFalse ==> t.lastError == Some("EXECUTOR_FALSE"))
      && (call.outcome == RaisedError ==> t.lastError == Some("EXECUTOR_RAISED"))
      && (call.outcome.CircuitOpen? ==> t.scheduledAt == now + call.outcome.retryAfter)
      && (t.status != Pending ==> t.executedAt == Some(now))
    }

    /** A publish task is left to the phones; any other is marked, executed and closed or put back. */
    method Dispatch(task: Loaded, call: Call, ghost batch: map<TaskId, Stage>, ghost claims: set<(DeviceId, TaskId)>)
      requires task.id in store.rows
      modifies store, `now
      ensures At(batch - {task.id}, claims) == Dispatched(old(At(batch, claims)), task, call)
      ensures task.action == "device_publish" ==> store.rows == old(store.rows) && now == old(now)
      ensures task.action != "device_publish" ==> now == old(now) + call.took && ClosedAs(task, call)
      ensures store.rows.Keys == old(store.rows).Keys
      ensures forall id | id in store.rows && id != task.id :: store.rows[id] == old(store.rows)[id]
    {
      if task.action == PUBLISH {
        return;
      }
      store.MarkRunning(task.id, task.attempts, now);
      now := now + call.took;
      match call.outcome {
        case CircuitOpen(retryAfter) =>
          store.MarkPending(task.id, now + retryAfter, now);
        case RaisedError =>
          store.MarkFailed(task.id, "EXECUTOR_RAISED", now);
        case ReturnedTrue =>
          store.MarkSuccess(task.id, now);
        case ReturnedFalse =>
          store.MarkFailed(task.id, "EXECUTOR_FALSE", now);
      }
    }

    method SweepIfDue(loopTime: real) returns (swept: bool)
      requires Valid()
      modifies store, `lastSweep, `sweeps
      ensures Valid() && swept == (loopTime - old(lastSweep) >= sweepInterval)
      ensures store.rows == if swept then SweptTable(old(store.rows), now, params.staleAfter, params.maxAttempts)
                            else old(store.rows)
      ensures lastSweep == if swept then loopTime else old(lastSweep)
    {
      swept := loopTime - lastSweep >= sweepInterval;
      if swept {
        lastSweep := loopTime;
        sweeps := sweeps + [loopTime];
        var reclaimed := store.ReclaimStaleRunning(now, params.staleAfter, params.maxAttempts);
      }
    }

    method Load(ghost claims: set<(DeviceId, TaskId)>) returns (ready: seq<Loaded>, ghost ids: seq<TaskId>)
      ensures IsBatch(store.rows, now, params.batchSize, ids) && DistinctTasks(ready)
      ensures Snapshots(ready, store.rows, ids)
      ensures Waiting(ready, 0, At(LoadedBatch(store.rows, ids), claims))
    {
      var found := store.LoadPending(now, params.batchSize);
      ids := found;
      ready := seq(|found|, i requires 0 <= i < |found| && found[i] in store.rows reads store =>
                   Loaded(found[i], store.rows[found[i]].attempts, store.rows[found[i]].action));
    }

    /** The whole batch, task by task. */
    method DispatchAll(ready: seq<Loaded>, calls: nat -> Call, ghost batch: map<TaskId, Stage>,
                       ghost claims: set<(DeviceId, TaskId)>)
      returns (ghost steps: seq<Step>)
      requires DistinctTasks(ready) && Waiting(ready, 0, At(batch, claims)) && forall k :: CallOk(calls(k))
      modifies store, `now
      ensures Path(params, old(At(batch, claims)), steps, At(map[], claims))
      ensures steps == AllSteps(ready, calls, old(now), |ready|)
    {
      ghost var start, left := At(batch, claims), batch;
      for i := 0 to |ready|
        invariant DispatchedSoFar(params, start, ready, calls, i, At(left, claims))
      {
        DispatchNext(params, start, ready, calls, i, At(left, claims));
        Dispatch(ready[i], calls(i), left, claims);
        left := left - {ready[i].id};
      }
      assert left == map[];
      steps := AllSteps(ready, calls, old(now), |ready|);
    }

    /** The table as the turn loads from it. */
    function RowsLoaded(loopTime: real): Table
      reads this, store
    {
      if loopTime - lastSweep >= sweepInterval then SweptTable(store.rows, now, params.staleAfter, params.maxAttempts)
      else store.rows
    }

    /**
      One turn of the loop: a sweep if one is due, one batch, and the dispatch of each task in it.
      It is a path of the protocol that starts and ends with an empty batch.
     */
    method Turn(loopTime: real, calls: nat -> Call, ghost claims: set<(DeviceId, TaskId)>)
      returns (swept: bool, ghost ids: seq<TaskId>, ghost ready: seq<Loaded>, ghost steps: seq<Step>)
      requires Valid() && forall k :: CallOk(calls(k))
      modifies this, store
      ensures Valid()
      ensures Path(params, old(At(map[], claims)), steps, At(map[], claims))
      ensures swept == (loopTime - old(lastSweep) >= sweepInterval)
      ensures TurnSteps(old(RowsLoaded(loopTime)), old(now), params.batchSize, ids, ready, calls, swept, steps)
    {
      ghost var start := At(map[], claims);
      swept := SweepIfDue(loopTime);
      ghost var first, before := if swept then [Sweep] else [], At(map[], claims);
      var loaded;
      loaded, ids := Load(claims);
      ready := loaded;
      ghost var s := At(LoadedBatch(store.rows, ids), claims);
      ghost var more := DispatchAll(loaded, calls, LoadedBatch(store.rows, ids), claims);
      TurnIsPath(params, start, first, before, ids, s, more, At(map[], claims));
      steps := first + [TaskProtocol.Load(ids)] + more;
      assert start == old(At(map[], claims));
    }
  }

  /** A turn executes exactly the tasks of its batch that are not the phones'. */
  lemma ExecutedIffLoaded(rows: Table, now: real, limit: nat, ids: seq<TaskId>, ready: seq<Loaded>,
                          calls: nat -> Call, swept: bool, steps: seq<Step>, id: TaskId)
    requires TurnSteps(rows, now, limit, ids, ready, calls, swept, steps) && id in rows
    ensures CallExecutor(id) in steps <==> id in ids && rows[id].action != PUBLISH
  {
    ExecutedExactly(ready, calls, now, |ready|, id);
    if id in ids && rows[id].action != PUBLISH {
      var i :| 0 <= i < |ids| && ids[i] == id;
      assert ready[i].id == id && ready[i].action != PUBLISH;
    }
  }

  /** In some turn from here the task is executed. */
  ghost predicate MayExecute(rows: Table, now: real, limit: nat, calls: nat -> Call, swept: bool, id: TaskId)
  {
    exists ids, ready, steps ::
      TurnSteps(rows, now, limit, ids, ready, calls, swept, steps) && CallExecutor(id) in steps
  }

  /** In every turn from here it is. */
  ghost predicate MustExecute(rows: Table, now: real, limit: nat, calls: nat -> Call, swept: bool, id: TaskId)
  {
    forall ids, ready, steps | TurnSteps(rows, now, limit, ids, ready, calls, swept, steps) :: CallExecutor(id) in steps
  }

  function SnapshotsOf(rows: Table, ids: seq<TaskId>): (r: seq<Loaded>)
    requires forall id | id in ids :: id in rows
  {
    seq(|ids|, i requires 0 <= i < |ids| => Loaded(ids[i], rows[ids[i]].attempts, rows[ids[i]].action))
  }

  lemma SomeTurn(rows: Table, now: real, limit: nat, ids: seq<TaskId>, calls: nat -> Call, swept: bool)
    returns (ready: seq<Loaded>, steps: seq<Step>)
    requires IsBatch(rows, now, limit, ids)
    ensures TurnSteps(rows, now, limit, ids, ready, calls, swept, steps)
  {
    forall id | id in ids
      ensures id in rows
    {
      var i :| 0 <= i < |ids| && ids[i] == id;
      assert ids[i] in DueIds(rows, now);
    }
    ready := SnapshotsOf(rows, ids);
    steps := (if swept then [Sweep] else []) + [TaskProtocol.Load(ids)] + AllSteps(ready, calls, now, |ready|);
  }

  /**
    A due task of the scheduler can be executed in a turn exactly if fewer rows than the batch
    holds are due strictly earlier, and must be exactly if fewer are due no later.  Publish rows
    count, though the scheduler passes them over: a batch of unclaimed ones holds up what is later.
   */
  lemma ExecutedWithinBatch(rows: Table, now: real, limit: nat, calls: nat -> Call, swept: bool, id: TaskId)
    requires id in DueIds(rows, now) && rows[id].action != PUBLISH
    ensures MayExecute(rows, now, limit, calls, swept, id) <==> |Earlier(rows, now, id)| < limit
    ensures MustExecute(rows, now, limit, calls, swept, id) <==> |NotLater(rows, now, id)| < limit
  {
    LoadedIff(rows, now, limit, id);
    if ids :| IsBatch(rows, now, limit, ids) && id in ids {
      var ready, steps := SomeTurn(rows, now, limit, ids, calls, swept);
      ExecutedIffLoaded(rows, now, limit, ids, ready, calls, swept, steps, id);
    }
    if ids :| IsBatch(rows, now, limit, ids) && id !in ids {
      var ready, steps := SomeTurn(rows, now, limit, ids, calls, swept);
      ExecutedIffLoaded(rows, now, limit, ids, ready, calls, swept, steps, id);
    }
    forall ids, ready, steps | TurnSteps(rows, now, limit, ids, ready, calls, swept, steps)
      ensures CallExecutor(id) in steps <==> id in ids
    {
      ExecutedIffLoaded(rows, now, limit, ids, ready, calls, swept, steps, id);
    }
  }

  /** Enough publish rows that no phone claims keep a later task from being executed. */
  lemma PublishRowsStarve(rows: Table, now: real, limit: nat, calls: nat -> Call, swept: bool,
                          unclaimed: set<TaskId>, id: TaskId)
    requires id in DueIds(rows, now) && rows[id].action != PUBLISH && |unclaimed| >= limit
    requires forall p | p in unclaimed ::
               p in rows && rows[p].action == PUBLISH && Due(rows[p], now) && rows[p].scheduledAt < rows[id].scheduledAt
    ensures !MayExecute(rows, now, limit, calls, swept, id)
  {
    Subset(unclaimed, Earlier(rows, now, id));
    ExecutedWithinBatch(rows, now, limit, calls, swept, id);
  }
}
