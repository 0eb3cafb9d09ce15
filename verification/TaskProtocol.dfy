/**
  Everyone who writes the `tasks` table, as one transition system: the scheduler
  (backend/matrix/scheduler/scheduler.py), the phones (backend/matrix/device/api.py) and the
  sweep.  One step is one database transaction or one executor call.

  There is one scheduler.  Its loop sweeps and loads only between batches, so those two steps
  need an empty batch.  A phone reports only tasks it has claimed.
 */
module TaskProtocol {
  import opened Prelude
  import opened TaskTable

  datatype Params = Params(maxAttempts: int, staleAfter: real, batchSize: nat)

  /** How a call of the executor ends; the last two raise. */
  datatype Outcome = ReturnedTrue | ReturnedFalse | RaisedError | CircuitOpen(retryAfter: real)

  /** Where a loaded task is in `_dispatch`. */
  datatype Stage = Queued(seenAttempts: nat, action: string) | MarkedRunning | Executing

  datatype State = State(rows: Table, batch: map<TaskId, Stage>, claims: set<(DeviceId, TaskId)>, now: real)

  datatype Step =
    | Tick(to: real)
    | Insert(newId: TaskId, device: DeviceId, action: string, note: Option<NoteId>, scheduledAt: real)
    | Sweep
    | Load(ids: seq<TaskId>)
    | SkipPublish(id: TaskId)
    | MarkRunning(id: TaskId)
    | CallExecutor(id: TaskId)
    | Finish(id: TaskId, outcome: Outcome)
    | WriterRaises(id: TaskId)
    | Restart
    | Claim(device: DeviceId, locked: set<TaskId>, got: Option<TaskId>)
    | Complete(device: DeviceId, id: TaskId, ok: bool, code: Option<string>)

  function Finished(t: Task, outcome: Outcome, now: real): Task
  {
    match outcome
    case ReturnedTrue => TaskTable.Succeeded(t, now)
    case ReturnedFalse => FailedWith(t, "EXECUTOR_FALSE", now)
    case RaisedError => FailedWith(t, "EXECUTOR_RAISED", now)
    case CircuitOpen(retryAfter) => Rescheduled(t, now + retryAfter, now)
  }

  function Put(s: State, id: TaskId, t: Task): State
  {
    s.(rows := s.rows[id := t])
  }

  function Drop(s: State, id: TaskId): State
  {
    s.(batch := s.batch - {id})
  }

  /** The step can happen in this state. */
  ghost predicate Enabled(p: Params, s: State, a: Step)
  {
    match a
    case Tick(to) => s.now <= to
    case Insert(id, _, _, _, _) => id !in s.rows
    case Sweep => s.batch == map[]
    case Load(ids) => s.batch == map[] && IsBatch(s.rows, s.now, p.batchSize, ids)
    case SkipPublish(id) => id in s.batch && s.batch[id].Queued? && s.batch[id].action == PUBLISH
    case MarkRunning(id) => id in s.rows && id in s.batch && s.batch[id].Queued? && s.batch[id].action != PUBLISH
    case CallExecutor(id) => id in s.batch && s.batch[id].MarkedRunning?
    case Finish(id, outcome) => id in s.rows && id in s.batch && s.batch[id].Executing?
                                && (outcome.CircuitOpen? ==> 0.0 <= outcome.retryAfter)
    case WriterRaises(id) => id in s.batch
    case Restart => true
    case Claim(device, locked, got) => IsClaim(s.rows, device, locked, s.now, got)
    case Complete(device, id, _, _) => (device, id) in s.claims
  }

  function LoadedBatch(rows: Table, ids: seq<TaskId>): map<TaskId, Stage>
  {
    map id | id in ids && id in rows :: Queued(rows[id].attempts, rows[id].action)
  }

  ghost function Apply(p: Params, s: State, a: Step): State
    requires Enabled(p, s, a)
  {
    match a
    case Tick(to) => s.(now := to)
    case Insert(id, device, action, note, at) => Put(s, id, NewTask(device, action, note, at, s.now))
    case Sweep => s.(rows := SweptTable(s.rows, s.now, p.staleAfter, p.maxAttempts))
    case Load(ids) => s.(batch := LoadedBatch(s.rows, ids))
    case SkipPublish(id) => Drop(s, id)
    case MarkRunning(id) =>
      Put(s, id, Marked(s.rows[id], s.batch[id].seenAttempts, s.now)).(batch := s.batch[id := MarkedRunning])
    case CallExecutor(id) => s.(batch := s.batch[id := Executing])
    case Finish(id, outcome) => Drop(Put(s, id, Finished(s.rows[id], outcome, s.now)), id)
    case WriterRaises(id) => Drop(s, id)
    case Restart => s.(batch := map[])
    case Claim(device, _, got) =>
      if got.None? then s
      else Put(s, got.value, Claimed(s.rows[got.value], s.now)).(claims := s.claims + {(device, got.value)})
    case Complete(device, id, ok, code) =>
      if CompletionOf(s.rows, device, id).Completed? then Put(s, id, Reported(s.rows[id], ok, code, s.now)) else s
  }

  ghost predicate Next(p: Params, s: State, a: Step, s': State)
  {
    Enabled(p, s, a) && s' == Apply(p, s, a)
  }

  // ----- what every state satisfies -----

  predicate StageOk(t: Task, stage: Stage)
  {
    match stage
    case Queued(seen, action) => action == t.action && (action != PUBLISH ==> t.status == Pending && t.attempts == seen)
    case MarkedRunning => t.action != PUBLISH && t.status == Running
    case Executing => t.action != PUBLISH && t.status == Running
  }

  ghost predicate Inv(s: State)
  {
    && s.batch.Keys <= s.rows.Keys
    && (forall id | id in s.batch :: StageOk(s.rows[id], s.batch[id]))
    && (forall c | c in s.claims :: c.1 in s.rows && s.rows[c.1].action == PUBLISH)
  }

  lemma InvStep(p: Params, s: State, a: Step, s': State)
    requires Inv(s) && Next(p, s, a, s')
    ensures Inv(s')
  {
  }

  predicate EntersRunning(s: State, s': State, id: TaskId)
  {
    && id in s'.rows && s'.rows[id].status == Running
    && !(id in s.rows && s.rows[id].status == Running)
  }

  /** Rows stay; a finished row is frozen; the action, the device and the order of counts are kept. */
  lemma StepKeepsRows(p: Params, s: State, a: Step, s': State, id: TaskId)
    requires Inv(s) && Next(p, s, a, s') && id in s.rows
    ensures id in s'.rows && s'.rows[id].action == s.rows[id].action && s'.rows[id].device == s.rows[id].device
    ensures s.rows[id].status == Success || s.rows[id].status == Failed ==> s'.rows[id] == s.rows[id]
  {
  }

  /** A publish task starts running only when a phone claims it, any other only when the scheduler marks it. */
  lemma WhoStarts(p: Params, s: State, a: Step, s': State, id: TaskId)
    requires Inv(s) && Next(p, s, a, s')
    ensures EntersRunning(s, s', id) <==>
            if id in s.rows && s.rows[id].action == PUBLISH then a.Claim? && a.got == Some(id)
            else a == MarkRunning(id)
    ensures EntersRunning(s, s', id) ==>
            id in s.rows && s.rows[id].status == Pending && s'.rows[id].attempts == s.rows[id].attempts + 1
  {
  }

  /** What a step makes of a row of the scheduler that is not finished yet. */
  lemma SchedulerCloses(p: Params, s: State, a: Step, s': State, id: TaskId)
    requires Inv(s) && Next(p, s, a, s') && id in s.rows && s.rows[id].action != "device_publish"
    requires s.rows[id].status != Success && s.rows[id].status != Failed
    ensures s'.rows[id].status == Success <==> a == Finish(id, ReturnedTrue)
    ensures s'.rows[id].status == Failed <==>
            || a == Finish(id, ReturnedFalse) || a == Finish(id, RaisedError)
            || (a == Sweep && GoneStale(p, s, id) && s.rows[id].attempts >= p.maxAttempts)
    ensures s.rows[id].status == Running && s'.rows[id].status == Pending <==>
            || (a.Finish? && a.id == id && a.outcome.CircuitOpen?)
            || (a == Sweep && GoneStale(p, s, id) && s.rows[id].attempts < p.maxAttempts)
    ensures a == Finish(id, ReturnedFalse) ==> s'.rows[id].lastError == Some("EXECUTOR_FALSE")
    ensures a == Finish(id, RaisedError) ==> s'.rows[id].lastError == Some("EXECUTOR_RAISED")
    ensures a.Finish? && a.id == id && a.outcome.CircuitOpen? ==>
              s'.rows[id].scheduledAt == s.now + a.outcome.retryAfter
    ensures a.Finish? ==> s'.rows[id].attempts == s.rows[id].attempts
  {
  }

  /** What a step makes of a publish row that is not finished yet. */
  lemma PhoneCloses(p: Params, s: State, a: Step, s': State, id: TaskId)
    requires Inv(s) && Next(p, s, a, s') && id in s.rows && s.rows[id].action == "device_publish"
    requires s.rows[id].status != Success && s.rows[id].status != Failed
    ensures s'.rows[id].status == Success <==> HandedIn(s, a, id) && a.ok
    ensures s'.rows[id].status == Failed <==>
            || (HandedIn(s, a, id) && !a.ok)
            || (a == Sweep && GoneStale(p, s, id) && s.rows[id].attempts >= p.maxAttempts)
    ensures HandedIn(s, a, id) && !a.ok ==>
              s'.rows[id].lastError == if a.code == None || a.code == Some("") then Some("UNKNOWN") else a.code
  {
  }

  /** A phone that is handed a task can report on it, as long as it runs. */
  lemma ClaimedCanReport(p: Params, s: State, device: DeviceId, locked: set<TaskId>, id: TaskId, s': State,
                         ok: bool, code: Option<string>, s'': State)
    requires Inv(s) && Next(p, s, Claim(device, locked, Some(id)), s')
    requires s''.claims == s'.claims && id in s''.rows
    requires s''.rows[id].device == device && s''.rows[id].status == Running
    ensures s'.rows[id].device == device && s'.rows[id].status == Running
    ensures Enabled(p, s'', Complete(device, id, ok, code))
    ensures Apply(p, s'', Complete(device, id, ok, code)).rows[id].status == if ok then Success else Failed
  {
  }

  /** A running row that nobody has touched for too long. */
  predicate GoneStale(p: Params, s: State, id: TaskId)
    requires id in s.rows
  {
    s.rows[id].status == Running && s.rows[id].updatedAt < s.now - p.staleAfter
  }

  /** The phone of the row's device reports on it while it runs. */
  predicate HandedIn(s: State, a: Step, id: TaskId)
    requires id in s.rows
  {
    a.Complete? && a.id == id && a.device == s.rows[id].device && s.rows[id].status == Running
  }

  // ----- whole runs -----

  /** A run from the empty table: `states[i + 1]` follows from `states[i]` by `steps[i]`. */
  ghost predicate IsRun(p: Params, states: seq<State>, steps: seq<Step>)
  {
    && |states| == |steps| + 1
    && states[0].rows == map[] && states[0].batch == map[] && states[0].claims == {}
    && forall i | 0 <= i < |steps| :: Next(p, states[i], steps[i], states[i + 1])
  }

  /** How often task `id` entered `running` in the first `n` steps. */
  function Entries(states: seq<State>, id: TaskId, n: nat): nat
    requires n < |states|
  {
    if n == 0 then 0 else Entries(states, id, n - 1) + if EntersRunning(states[n - 1], states[n], id) then 1 else 0
  }

  /** How often a phone was handed task `id`. */
  function Claims(steps: seq<Step>, id: TaskId, n: nat): nat
    requires n <= |steps|
  {
    if n == 0 then 0
    else Claims(steps, id, n - 1) + if steps[n - 1].Claim? && steps[n - 1].got == Some(id) then 1 else 0
  }

  function ExecutorCalls(steps: seq<Step>, id: TaskId, n: nat): nat
    requires n <= |steps|
  {
    if n == 0 then 0 else ExecutorCalls(steps, id, n - 1) + if steps[n - 1] == CallExecutor(id) then 1 else 0
  }

  /** How often task `id` was put back because its device was in a cool-off. */
  function CircuitReschedules(steps: seq<Step>, id: TaskId, n: nat): nat
    requires n <= |steps|
  {
    if n == 0 then 0
    else
      var a := steps[n - 1];
      CircuitReschedules(steps, id, n - 1) + if a.Finish? && a.id == id && a.outcome.CircuitOpen? then 1 else 0
  }

  /** The numbers kept on one task: entries, phone claims, executor calls, circuit-open reschedules. */
  datatype Ledger = Ledger(entries: nat, claims: nat, calls: nat, reschedules: nat)

  function LedgerAt(states: seq<State>, steps: seq<Step>, id: TaskId, n: nat): Ledger
    requires n <= |steps| && |states| == |steps| + 1
  {
    Ledger(Entries(states, id, n), Claims(steps, id, n), ExecutorCalls(steps, id, n), CircuitReschedules(steps, id, n))
  }

  function Allowance(p: Params): int { Max(1, p.maxAttempts) }

  /** What the row, the batch and the history of one task say about each other. */
  predicate Balanced(p: Params, s: State, id: TaskId, l: Ledger)
  {
    if id !in s.rows then l == Ledger(0, 0, 0, 0)
    else
      var t := s.rows[id];
      && t.attempts == l.entries
      && (if t.action == PUBLISH then l.claims == l.entries && l.calls == 0 && l.reschedules == 0 else l.claims == 0)
      && l.calls + (if id in s.batch && s.batch[id].MarkedRunning? then 1 else 0) <= l.entries
      && t.attempts <= Allowance(p) + l.reschedules
      && (t.status == Pending ==> t.attempts < Allowance(p) + l.reschedules)
  }

  function LedgerAfter(l: Ledger, s: State, a: Step, s': State, id: TaskId): Ledger
  {
    Ledger(l.entries + (if EntersRunning(s, s', id) then 1 else 0),
           l.claims + (if a.Claim? && a.got == Some(id) then 1 else 0),
           l.calls + (if a == CallExecutor(id) then 1 else 0),
           l.reschedules + if a.Finish? && a.id == id && a.outcome.CircuitOpen? then 1 else 0)
  }

  lemma BalancedStep(p: Params, s: State, a: Step, s': State, id: TaskId, l: Ledger)
    requires Inv(s) && Next(p, s, a, s') && Balanced(p, s, id, l)
    ensures Balanced(p, s', id, LedgerAfter(l, s, a, s', id))
  {
    WhoStarts(p, s, a, s', id);
  }

  lemma {:induction false} RunBalanced(p: Params, states: seq<State>, steps: seq<Step>, id: TaskId, n: nat)
    requires IsRun(p, states, steps) && n <= |steps|
    ensures Inv(states[n]) && Balanced(p, states[n], id, LedgerAt(states, steps, id, n))
  {
    if n > 0 {
      RunBalanced(p, states, steps, id, n - 1);
      assert Next(p, states[n - 1], steps[n - 1], states[n]);
      InvStep(p, states[n - 1], steps[n - 1], states[n]);
      BalancedStep(p, states[n - 1], steps[n - 1], states[n], id, LedgerAt(states, steps, id, n - 1));
    }
  }

  /** `attempts` is exactly the number of entries into `running`, in every run, at every moment. */
  lemma AttemptsCountEntries(p: Params, states: seq<State>, steps: seq<Step>, id: TaskId, n: nat)
    requires IsRun(p, states, steps) && n <= |steps| && id in states[n].rows
    ensures states[n].rows[id].attempts == Entries(states, id, n)
    ensures ExecutorCalls(steps, id, n) <= states[n].rows[id].attempts
  {
    RunBalanced(p, states, steps, id, n);
  }

  /** Only circuit-open reschedules let a task run more often than its allowance. */
  lemma AttemptsBounded(p: Params, states: seq<State>, steps: seq<Step>, id: TaskId, n: nat)
    requires IsRun(p, states, steps) && n <= |steps| && id in states[n].rows
    ensures states[n].rows[id].attempts <= Max(1, p.maxAttempts) + CircuitReschedules(steps, id, n)
  {
    RunBalanced(p, states, steps, id, n);
  }

  // ----- how far the attempts can go -----

  /** A run that can be taken one step further. */
  lemma Extend(p: Params, states: seq<State>, steps: seq<Step>, a: Step, id: TaskId)
    returns (states': seq<State>, steps': seq<Step>)
    requires IsRun(p, states, steps) && Enabled(p, states[|steps|], a)
    ensures IsRun(p, states', steps') && states'[|steps'|] == Apply(p, states[|steps|], a)
    ensures CircuitReschedules(steps', id, |steps'|) == CircuitReschedules(steps, id, |steps|)
            + if a.Finish? && a.id == id && a.outcome.CircuitOpen? then 1 else 0
  {
    states', steps' := states + [Apply(p, states[|steps|], a)], steps + [a];
    forall i | 0 <= i < |steps'|
      ensures Next(p, states'[i], steps'[i], states'[i + 1])
    {
      if i < |steps| {
        assert Next(p, states[i], steps[i], states[i + 1]);
      }
    }
    ReschedulesPrefix(steps, a, id, |steps|);
  }

  lemma {:induction false} ReschedulesPrefix(steps: seq<Step>, a: Step, id: TaskId, n: nat)
    requires n <= |steps|
    ensures CircuitReschedules(steps + [a], id, n) == CircuitReschedules(steps, id, n)
  {
    if n > 0 {
      ReschedulesPrefix(steps, a, id, n - 1);
    }
  }

  const LONE: TaskId := 0
  const LIKE: string := "device_like"

  /** The table holds one task for the scheduler, with `attempts` behind it; nothing else goes on. */
  ghost predicate LoneRow(s: State, attempts: nat)
  {
    && s.rows.Keys == {LONE} && s.claims == {}
    && s.rows[LONE].action == LIKE && s.rows[LONE].attempts == attempts
  }

  ghost predicate LoneDue(s: State, attempts: nat)
  {
    LoneRow(s, attempts) && s.batch == map[] && Due(s.rows[LONE], s.now)
  }

  ghost predicate LoneMarked(s: State, attempts: nat)
  {
    && LoneRow(s, attempts) && s.batch == map[LONE := MarkedRunning]
    && s.rows[LONE].status == Running && s.rows[LONE].updatedAt == s.now
  }

  lemma LoneInserted(p: Params) returns (states: seq<State>, steps: seq<Step>)
    ensures IsRun(p, states, steps) && LoneDue(states[|steps|], 0) && CircuitReschedules(steps, LONE, |steps|) == 0
  {
    states, steps := [State(map[], map[], {}, 0.0)], [];
    states, steps := Extend(p, states, steps, Insert(LONE, 0, LIKE, None, 0.0), LONE);
  }

  lemma LoneBatch(p: Params, s: State, attempts: nat)
    requires p.batchSize >= 1 && LoneDue(s, attempts)
    ensures Enabled(p, s, Load([LONE]))
    ensures LoadedBatch(s.rows, [LONE]) == map[LONE := Queued(attempts, LIKE)]
  {
    assert DueIds(s.rows, s.now) == {LONE};
  }

  /** The lone task is loaded and marked. */
  lemma LoneStarted(p: Params, states: seq<State>, steps: seq<Step>, attempts: nat)
    returns (states': seq<State>, steps': seq<Step>)
    requires p.batchSize >= 1 && IsRun(p, states, steps) && LoneDue(states[|steps|], attempts)
    ensures IsRun(p, states', steps') && LoneMarked(states'[|steps'|], attempts + 1)
    ensures CircuitReschedules(steps', LONE, |steps'|) == CircuitReschedules(steps, LONE, |steps|)
  {
    LoneBatch(p, states[|steps|], attempts);
    states', steps' := Extend(p, states, steps, Load([LONE]), LONE);
    states', steps' := Extend(p, states', steps', MarkRunning(LONE), LONE);
  }

  /** The scheduler restarts, the row goes stale and the sweep requeues it: one attempt is used up. */
  lemma LoneSwept(p: Params, states: seq<State>, steps: seq<Step>, attempts: nat)
    returns (states': seq<State>, steps': seq<Step>)
    requires p.batchSize >= 1 && IsRun(p, states, steps) && LoneDue(states[|steps|], attempts)
    requires attempts + 1 < p.maxAttempts
    ensures IsRun(p, states', steps') && LoneDue(states'[|steps'|], attempts + 1)
    ensures CircuitReschedules(steps', LONE, |steps'|) == CircuitReschedules(steps, LONE, |steps|)
  {
    states', steps' := LoneStarted(p, states, steps, attempts);
    var s := states'[|steps'|];
    states', steps' := Extend(p, states', steps', Restart, LONE);
    states', steps' := Extend(p, states', steps', Tick(s.now + MaxReal(0.0, p.staleAfter) + 1.0), LONE);
    states', steps' := Extend(p, states', steps', Sweep, LONE);
  }

  /** The executor refuses the task for a cool-off: one reschedule, and one attempt all the same. */
  lemma LoneRescheduled(p: Params, states: seq<State>, steps: seq<Step>, attempts: nat)
    returns (states': seq<State>, steps': seq<Step>)
    requires p.batchSize >= 1 && IsRun(p, states, steps) && LoneDue(states[|steps|], attempts)
    ensures IsRun(p, states', steps') && LoneDue(states'[|steps'|], attempts + 1)
    ensures CircuitReschedules(steps', LONE, |steps'|) == CircuitReschedules(steps, LONE, |steps|) + 1
  {
    states', steps' := LoneStarted(p, states, steps, attempts);
    states', steps' := Extend(p, states', steps', CallExecutor(LONE), LONE);
    states', steps' := Extend(p, states', steps', Finish(LONE, CircuitOpen(0.0)), LONE);
  }

  lemma {:induction false} LoneSweptTo(p: Params, attempts: nat) returns (states: seq<State>, steps: seq<Step>)
    requires p.batchSize >= 1 && attempts < Allowance(p)
    ensures IsRun(p, states, steps) && LoneDue(states[|steps|], attempts)
    ensures CircuitReschedules(steps, LONE, |steps|) == 0
  {
    if attempts == 0 {
      states, steps := LoneInserted(p);
    } else {
      states, steps := LoneSweptTo(p, attempts - 1);
      states, steps := LoneSwept(p, states, steps, attempts - 1);
    }
  }

  lemma {:induction false} LoneRescheduledTo(p: Params, r: nat) returns (states: seq<State>, steps: seq<Step>)
    requires p.batchSize >= 1
    ensures IsRun(p, states, steps) && LoneDue(states[|steps|], Allowance(p) - 1 + r)
    ensures CircuitReschedules(steps, LONE, |steps|) == r
  {
    if r == 0 {
      states, steps := LoneSweptTo(p, Allowance(p) - 1);
    } else {
      states, steps := LoneRescheduledTo(p, r - 1);
      states, steps := LoneRescheduled(p, states, steps, Allowance(p) - 1 + (r - 1));
    }
  }

  /** The bound is met: `r` reschedules let a task run its allowance and `r` times more. */
  lemma AttemptsReached(p: Params, r: nat) returns (states: seq<State>, steps: seq<Step>)
    requires p.batchSize >= 1
    ensures IsRun(p, states, steps) && LONE in states[|steps|].rows
    ensures CircuitReschedules(steps, LONE, |steps|) == r
    ensures states[|steps|].rows[LONE].attempts == Max(1, p.maxAttempts) + r
  {
    states, steps := LoneRescheduledTo(p, r);
    states, steps := LoneStarted(p, states, steps, Allowance(p) - 1 + r);
  }

  /** A run with `r` circuit-open reschedules of a task, after which its attempts have passed the allowance. */
  ghost predicate Passed(p: Params, r: nat, states: seq<State>, steps: seq<Step>, id: TaskId)
  {
    && IsRun(p, states, steps) && CircuitReschedules(steps, id, |steps|) == r
    && id in states[|steps|].rows && states[|steps|].rows[id].attempts > Max(1, p.maxAttempts)
  }

  /** The attempts of a task can pass the allowance exactly if it was rescheduled for a cool-off. */
  lemma PassesAllowanceIff(p: Params, r: nat)
    requires p.batchSize >= 1
    ensures (exists states, steps, id :: Passed(p, r, states, steps, id)) <==> r >= 1
  {
    if states, steps, id :| Passed(p, r, states, steps, id) {
      AttemptsBounded(p, states, steps, id, |steps|);
    }
    if r >= 1 {
      var states, steps := AttemptsReached(p, r);
      assert Passed(p, r, states, steps, LONE);
    }
  }

  /** No publish task is handed to phones more than `maxAttempts` times, and the executor never sees it. */
  lemma PublishHandedOutBounded(p: Params, states: seq<State>, steps: seq<Step>, id: TaskId, n: nat)
    requires IsRun(p, states, steps) && n <= |steps| && id in states[n].rows && states[n].rows[id].action == PUBLISH
    ensures Claims(steps, id, n) == states[n].rows[id].attempts <= Max(1, p.maxAttempts)
    ensures ExecutorCalls(steps, id, n) == 0
  {
    RunBalanced(p, states, steps, id, n);
  }

  /** Once finished, a row never changes again; until then it keeps its action and device. */
  lemma {:induction false} FinishedForever(p: Params, states: seq<State>, steps: seq<Step>, id: TaskId, m: nat, n: nat)
    requires IsRun(p, states, steps) && m <= n <= |steps| && id in states[m].rows
    ensures id in states[n].rows && states[n].rows[id].action == states[m].rows[id].action
    ensures states[m].rows[id].status == Success || states[m].rows[id].status == Failed ==>
              states[n].rows[id] == states[m].rows[id]
    decreases n
  {
    if m < n {
      FinishedForever(p, states, steps, id, m, n - 1);
      RunBalanced(p, states, steps, id, n - 1);
      assert Next(p, states[n - 1], steps[n - 1], states[n]);
      StepKeepsRows(p, states[n - 1], steps[n - 1], states[n], id);
    }
  }

  /** In every run a task of the scheduler succeeds exactly when its executor call returns true. */
  lemma SucceedsIff(p: Params, states: seq<State>, steps: seq<Step>, id: TaskId, i: nat)
    requires IsRun(p, states, steps) && i < |steps| && id in states[i].rows
    requires states[i].rows[id].action != "device_publish" && states[i].rows[id].status != Success
    ensures id in states[i + 1].rows
    ensures states[i + 1].rows[id].status == Success <==> steps[i] == Finish(id, ReturnedTrue)
  {
    StepTaken(p, states, steps, i);
    StepKeepsRows(p, states[i], steps[i], states[i + 1], id);
    if states[i].rows[id].status != Failed {
      SchedulerCloses(p, states[i], steps[i], states[i + 1], id);
    }
  }

  /** In every run, publish tasks are started by phones alone and all others by the scheduler alone. */
  lemma StartedByItsOwner(p: Params, states: seq<State>, steps: seq<Step>, id: TaskId, i: nat)
    requires IsRun(p, states, steps) && i < |steps| && EntersRunning(states[i], states[i + 1], id)
    ensures id in states[i].rows && states[i].rows[id].status == Pending
    ensures if states[i].rows[id].action == PUBLISH then steps[i].Claim? && steps[i].got == Some(id)
            else steps[i] == MarkRunning(id)
  {
    RunBalanced(p, states, steps, id, i);
    WhoStarts(p, states[i], steps[i], states[i + 1], id);
  }

  // ----- how publish rows hold up the scheduler's tasks -----

  /** The task waits behind at least a batch of pending publish rows that are scheduled earlier. */
  ghost predicate HeldUp(p: Params, s: State, ahead: set<TaskId>, id: TaskId)
  {
    && id in s.rows && s.rows[id].action != PUBLISH && s.rows[id].status == Pending && id !in s.batch
    && |ahead| >= p.batchSize
    && (forall w | w in ahead :: w in s.rows && s.rows[w].action == PUBLISH
                                 && s.rows[w].scheduledAt < s.rows[id].scheduledAt)
    && AllPending(s, ahead)
  }

  ghost predicate AllPending(s: State, ahead: set<TaskId>)
  {
    forall w | w in ahead :: w in s.rows && s.rows[w].status == Pending
  }

  /** A pending row that a step leaves pending is left as it is, unless the scheduler had it. */
  lemma PendingKept(p: Params, s: State, a: Step, s': State, id: TaskId)
    requires Inv(s) && Next(p, s, a, s') && id in s.rows && s.rows[id].status == Pending && id in s'.rows
    ensures s.rows[id].action == PUBLISH && s'.rows[id].status == Pending ==> s'.rows[id] == s.rows[id]
    ensures s.rows[id].action != PUBLISH && id !in s.batch ==> s'.rows[id] == s.rows[id]
  {
  }

  /** No batch has room for the task. */
  lemma NotLoaded(p: Params, s: State, ahead: set<TaskId>, id: TaskId, ids: seq<TaskId>)
    requires HeldUp(p, s, ahead, id) && IsBatch(s.rows, s.now, p.batchSize, ids)
    ensures id !in ids
  {
    if id in ids {
      var i :| 0 <= i < |ids| && ids[i] == id;
      assert ids[i] in DueIds(s.rows, s.now);
      LoadedThenRoom(s.rows, s.now, p.batchSize, ids, id);
      Subset(ahead, Earlier(s.rows, s.now, id));
    }
  }

  lemma HeldUpStep(p: Params, s: State, a: Step, s': State, ahead: set<TaskId>, id: TaskId)
    requires Inv(s) && Next(p, s, a, s') && HeldUp(p, s, ahead, id) && AllPending(s', ahead)
    ensures HeldUp(p, s', ahead, id) && s'.rows[id] == s.rows[id] && a != CallExecutor(id)
  {
    if a.Load? {
      NotLoaded(p, s, ahead, id, a.ids);
    }
    StepKeepsRows(p, s, a, s', id);
    PendingKept(p, s, a, s', id);
    forall w | w in ahead
      ensures s'.rows[w] == s.rows[w]
    {
      PendingKept(p, s, a, s', w);
    }
  }

  lemma StepTaken(p: Params, states: seq<State>, steps: seq<Step>, i: nat)
    requires IsRun(p, states, steps) && i < |steps|
    ensures Inv(states[i]) && Next(p, states[i], steps[i], states[i + 1])
  {
    RunBalanced(p, states, steps, 0, i);
  }

  /**
    As long as a batch of earlier publish rows stays unclaimed, a task behind them is not touched
    and never executed, however many sweeps, batches and ticks go by.
   */
  lemma {:induction false} StarvedWhileUnclaimed(p: Params, states: seq<State>, steps: seq<Step>,
                                                 ahead: set<TaskId>, id: TaskId, m: nat, n: nat)
    requires IsRun(p, states, steps) && m <= n <= |steps|
    requires HeldUp(p, states[m], ahead, id) && forall i | m <= i <= n :: AllPending(states[i], ahead)
    ensures HeldUp(p, states[n], ahead, id) && states[n].rows[id] == states[m].rows[id]
    ensures ExecutorCalls(steps, id, n) == ExecutorCalls(steps, id, m)
    decreases n
  {
    if m < n {
      StarvedWhileUnclaimed(p, states, steps, ahead, id, m, n - 1);
      StepTaken(p, states, steps, n - 1);
      HeldUpStep(p, states[n - 1], steps[n - 1], states[n], ahead, id);
    }
  }

  /** Right after a sweep no running row is stale, and the batch the scheduler loads next holds only pending rows. */
  lemma SweepThenLoad(p: Params, s: State, s': State, ids: seq<TaskId>, s'': State)
    requires Inv(s) && Next(p, s, Sweep, s') && Next(p, s', Load(ids), s'')
    ensures StaleIds(s'.rows, s'.now - p.staleAfter) == {}
    ensures forall id | id in StaleIds(s.rows, s.now - p.staleAfter) ::
              s'.rows[id].status == if s.rows[id].attempts >= p.maxAttempts then Failed else Pending
    ensures s''.batch.Keys <= DueIds(s'.rows, s'.now)
  {
  }
}
