/**
  The `tasks` table and the transactions on it: the scheduler's loader and status writer
  (backend/matrix/scheduler/db.py) and the phone's claim and complete
  (backend/matrix/device/api.py).
 */
module TaskTable {
  import opened Prelude

  type TaskId = nat
  type DeviceId = nat

  datatype Status = Pending | Running | Success | Failed

  type NoteId = nat

  /** `note` is the note id of the payload, if it is a well-formed one. */
  datatype Task = Task(device: DeviceId, action: string, note: Option<NoteId>, status: Status, attempts: nat,
                       scheduledAt: real, updatedAt: real, executedAt: Option<real>, lastError: Option<string>)

  type Table = map<TaskId, Task>

  const PUBLISH: string := "device_publish"

  // ----- what each transaction does to a row -----

  function NewTask(device: DeviceId, action: string, note: Option<NoteId>, scheduledAt: real, now: real): Task
  {
    Task(device, action, note, Pending, 0, scheduledAt, now, None, None)
  }

  /** `mark_running` writes the count it read when the batch was loaded, plus one. */
  function Marked(t: Task, seenAttempts: nat, now: real): Task
  {
    t.(status := Running, attempts := seenAttempts + 1, updatedAt := now)
  }

  function Succeeded(t: Task, now: real): Task
  {
    t.(status := Success, executedAt := Some(now), updatedAt := now)
  }

  function FailedWith(t: Task, code: string, now: real): Task
  {
    t.(status := Failed, executedAt := Some(now), lastError := Some(code), updatedAt := now)
  }

  function Rescheduled(t: Task, at: real, now: real): Task
  {
    t.(status := Pending, scheduledAt := at, updatedAt := now)
  }

  function Claimed(t: Task, now: real): Task
  {
    t.(status := Running, attempts := t.attempts + 1, executedAt := Some(now), updatedAt := now)
  }

  function OutOfAttempts(t: Task, now: real): Task
  {
    t.(status := Failed, lastError := Some("STALE_RUNNING"), updatedAt := now)
  }

  /** A running row that nobody has touched since `cutoff`. */
  predicate Stale(t: Task, cutoff: real)
  {
    t.status == Running && t.updatedAt < cutoff
  }

  function Swept(t: Task, now: real, staleAfter: real, maxAttempts: int): Task
  {
    if !Stale(t, now - staleAfter) then t
    else if t.attempts >= maxAttempts then OutOfAttempts(t, now)
    else Rescheduled(t, now, now)
  }

  function SweptTable(rows: Table, now: real, staleAfter: real, maxAttempts: int): Table
  {
    map id | id in rows :: Swept(rows[id], now, staleAfter, maxAttempts)
  }

  function StaleIds(rows: Table, cutoff: real): set<TaskId>
  {
    set id | id in rows && Stale(rows[id], cutoff)
  }

  function Exhausted(rows: Table, cutoff: real, maxAttempts: int): set<TaskId>
  {
    set id | id in rows && Stale(rows[id], cutoff) && rows[id].attempts >= maxAttempts
  }

  function Retriable(rows: Table, cutoff: real, maxAttempts: int): set<TaskId>
  {
    set id | id in rows && Stale(rows[id], cutoff) && rows[id].attempts < maxAttempts
  }

  /** The bulk updates: `UPDATE tasks SET ... WHERE id IN ids`. */
  function FailAll(rows: Table, ids: set<TaskId>, now: real): Table
  {
    map id | id in rows :: if id in ids then OutOfAttempts(rows[id], now) else rows[id]
  }

  function RequeueAll(rows: Table, ids: set<TaskId>, now: real): Table
  {
    map id | id in rows :: if id in ids then Rescheduled(rows[id], now, now) else rows[id]
  }

  /** First the rows out of attempts, then the others: together one pass over the stale rows. */
  lemma SweepInTwo(rows: Table, now: real, staleAfter: real, maxAttempts: int)
    ensures var cutoff := now - staleAfter;
            var mid := FailAll(rows, Exhausted(rows, cutoff, maxAttempts), now);
            var requeued := Retriable(mid, cutoff, maxAttempts);
            && RequeueAll(mid, requeued, now) == SweptTable(rows, now, staleAfter, maxAttempts)
            && |Exhausted(rows, cutoff, maxAttempts)| + |requeued| == |StaleIds(rows, cutoff)|
  {
    var cutoff := now - staleAfter;
    var exhausted := Exhausted(rows, cutoff, maxAttempts);
    var mid := FailAll(rows, exhausted, now);
    var requeued := Retriable(mid, cutoff, maxAttempts);
    assert requeued == Retriable(rows, cutoff, maxAttempts);
    assert StaleIds(rows, cutoff) == exhausted + requeued && exhausted !! requeued;
  }

  // ----- what each query returns -----

  predicate Due(t: Task, now: real)
  {
    t.status == Pending && t.scheduledAt <= now
  }

  function DueIds(rows: Table, now: real): set<TaskId>
  {
    set id | id in rows && Due(rows[id], now)
  }

  /** `load_pending`: the earliest due rows, in order, at most `limit` of them. */
  ghost predicate IsBatch(rows: Table, now: real, limit: nat, ids: seq<TaskId>)
  {
    && (forall i | 0 <= i < |ids| :: ids[i] in DueIds(rows, now))
    && (forall i, j | 0 <= i < j < |ids| ::
          ids[i] != ids[j] && rows[ids[i]].scheduledAt <= rows[ids[j]].scheduledAt)
    && |ids| == Min(limit, |DueIds(rows, now)|)
    && (forall id, i | id in DueIds(rows, now) && id !in ids && 0 <= i < |ids| ::
          rows[ids[i]].scheduledAt <= rows[id].scheduledAt)
  }

  function Claimable(rows: Table, device: DeviceId, locked: set<TaskId>, now: real): set<TaskId>
  {
    set id | id in rows && id !in locked && rows[id].device == device
             && rows[id].action == PUBLISH && Due(rows[id], now)
  }

  predicate Earliest(rows: Table, ids: set<TaskId>, id: TaskId)
    requires ids <= rows.Keys
  {
    id in ids && forall other | other in ids :: rows[id].scheduledAt <= rows[other].scheduledAt
  }

  /** The claim picks an earliest claimable row, and nothing only if there is none. */
  predicate IsClaim(rows: Table, device: DeviceId, locked: set<TaskId>, now: real, got: Option<TaskId>)
  {
    var ids := Claimable(rows, device, locked, now);
    if got.None? then ids == {} else Earliest(rows, ids, got.value)
  }

  lemma {:induction false} EarliestExists(rows: Table, ids: set<TaskId>) returns (id: TaskId)
    requires ids <= rows.Keys && ids != {}
    ensures Earliest(rows, ids, id)
  {
    id :| id in ids;
    if ids != {id} {
      var other := EarliestExists(rows, ids - {id});
      if rows[other].scheduledAt < rows[id].scheduledAt {
        id := other;
      }
    }
  }

  /** The loop state of `LoadPending`: `ids` are the earliest of `due`, `rest` the others. */
  ghost predicate LoadedSoFar(rows: Table, due: set<TaskId>, rest: set<TaskId>, ids: seq<TaskId>)
  {
    && rest <= due <= rows.Keys && |ids| + |rest| == |due|
    && (forall id | id in due :: id in rest <==> id !in ids)
    && (forall i | 0 <= i < |ids| :: ids[i] in due)
    && (forall i, j | 0 <= i < j < |ids| ::
          ids[i] != ids[j] && rows[ids[i]].scheduledAt <= rows[ids[j]].scheduledAt)
    && (forall id, i | id in rest && 0 <= i < |ids| :: rows[ids[i]].scheduledAt <= rows[id].scheduledAt)
  }

  lemma LoadOne(rows: Table, due: set<TaskId>, rest: set<TaskId>, ids: seq<TaskId>, id: TaskId)
    requires LoadedSoFar(rows, due, rest, ids) && Earliest(rows, rest, id)
    ensures LoadedSoFar(rows, due, rest - {id}, ids + [id])
  {
    assert id !in ids;
  }

  // ----- which due rows are loaded -----

  /** The due rows that are scheduled strictly earlier. */
  function Earlier(rows: Table, now: real, id: TaskId): set<TaskId>
    requires id in rows
  {
    set other | other in rows && Due(rows[other], now) && rows[other].scheduledAt < rows[id].scheduledAt
  }

  /** The other due rows that are not scheduled later. */
  function NotLater(rows: Table, now: real, id: TaskId): set<TaskId>
    requires id in rows
  {
    set other | other in rows && other != id && Due(rows[other], now) && rows[other].scheduledAt <= rows[id].scheduledAt
  }

  function SetOf(ids: seq<TaskId>): set<TaskId> { set id | id in ids }

  lemma {:induction false} SetOfSize(ids: seq<TaskId>)
    requires Distinct(ids)
    ensures |SetOf(ids)| == |ids|
  {
    if ids != [] {
      var rest, last := ids[..|ids| - 1], ids[|ids| - 1];
      SetOfSize(rest);
      assert ids == rest + [last];
      assert SetOf(ids) == SetOf(rest) + {last};
    }
  }

  lemma BatchSet(rows: Table, now: real, limit: nat, ids: seq<TaskId>)
    requires IsBatch(rows, now, limit, ids)
    ensures |SetOf(ids)| == |ids| && SetOf(ids) <= DueIds(rows, now)
  {
    SetOfSize(ids);
  }

  /** A loaded row has all strictly earlier due rows beside it. */
  lemma LoadedThenRoom(rows: Table, now: real, limit: nat, ids: seq<TaskId>, id: TaskId)
    requires IsBatch(rows, now, limit, ids) && id in ids && id in rows
    ensures |Earlier(rows, now, id)| < limit
  {
    BatchSet(rows, now, limit, ids);
    var i :| 0 <= i < |ids| && ids[i] == id;
    forall other | other in Earlier(rows, now, id)
      ensures other in ids
    {
      assert other in DueIds(rows, now);
    }
    Subset(Earlier(rows, now, id) + {id}, SetOf(ids));
  }

  /** A due row that is not loaded has been crowded out by rows that are not later. */
  lemma NotLoadedThenCrowded(rows: Table, now: real, limit: nat, ids: seq<TaskId>, id: TaskId)
    requires IsBatch(rows, now, limit, ids) && id !in ids && id in DueIds(rows, now)
    ensures |NotLater(rows, now, id)| >= limit
  {
    BatchSet(rows, now, limit, ids);
    Subset(SetOf(ids), DueIds(rows, now));
    forall other | other in SetOf(ids)
      ensures other in NotLater(rows, now, id)
    {
      var i :| 0 <= i < |ids| && ids[i] == other;
      assert rows[ids[i]].scheduledAt <= rows[id].scheduledAt;
    }
    Subset(SetOf(ids), NotLater(rows, now, id));
  }

  /** A batch chosen so that `id` comes first, or last, among the rows of its time. */
  lemma {:induction false} Favoured(rows: Table, due: set<TaskId>, k: nat, id: TaskId, first: bool)
    returns (ids: seq<TaskId>, rest: set<TaskId>)
    requires due <= rows.Keys && k <= |due| && id in due
    ensures LoadedSoFar(rows, due, rest, ids) && |ids| == k
    ensures first && id in rest ==> forall x | x in ids :: rows[x].scheduledAt < rows[id].scheduledAt
    ensures !first && id in ids ==> forall x | x in rest :: rows[id].scheduledAt < rows[x].scheduledAt
  {
    if k == 0 {
      ids, rest := [], due;
    } else {
      ids, rest := Favoured(rows, due, k - 1, id, first);
      var next := EarliestExists(rows, rest);
      if first && id in rest && rows[id].scheduledAt <= rows[next].scheduledAt {
        next := id;
      } else if !first && next == id {
        var other :| other in rest && rows[other].scheduledAt <= rows[id].scheduledAt
                     && (other != id || forall x | x in rest - {id} :: rows[id].scheduledAt < rows[x].scheduledAt);
        next := other;
      }
      LoadOne(rows, due, rest, ids, next);
      ids, rest := ids + [next], rest - {next};
    }
  }

  /** Some batch that `load_pending` may return. */
  lemma FavouredBatch(rows: Table, now: real, limit: nat, id: TaskId, first: bool) returns (ids: seq<TaskId>)
    requires id in DueIds(rows, now)
    ensures IsBatch(rows, now, limit, ids)
    ensures first && id !in ids ==> forall x | x in ids :: rows[x].scheduledAt < rows[id].scheduledAt
    ensures !first && id in ids ==> NotLater(rows, now, id) <= SetOf(ids)
  {
    var due := DueIds(rows, now);
    var rest;
    ids, rest := Favoured(rows, due, Min(limit, |due|), id, first);
  }

  /** Exactly when a due row can be in the next batch, and exactly when it must be. */
  lemma LoadedIff(rows: Table, now: real, limit: nat, id: TaskId)
    requires id in DueIds(rows, now)
    ensures (exists ids :: IsBatch(rows, now, limit, ids) && id in ids) <==> |Earlier(rows, now, id)| < limit
    ensures (forall ids | IsBatch(rows, now, limit, ids) :: id in ids) <==> |NotLater(rows, now, id)| < limit
  {
    var ids := FavouredBatch(rows, now, limit, id, true);
    var others := FavouredBatch(rows, now, limit, id, false);
    BatchSet(rows, now, limit, ids);
    BatchSet(rows, now, limit, others);
    if id !in ids {
      Subset(SetOf(ids), DueIds(rows, now));
      Subset(SetOf(ids), Earlier(rows, now, id));
    }
    if id in others {
      Subset(NotLater(rows, now, id) + {id}, SetOf(others));
    }
    forall batch | IsBatch(rows, now, limit, batch)
      ensures id in batch ==> |Earlier(rows, now, id)| < limit
      ensures id !in batch ==> |NotLater(rows, now, id)| >= limit
    {
      if id in batch {
        LoadedThenRoom(rows, now, limit, batch, id);
      } else {
        NotLoadedThenCrowded(rows, now, limit, batch, id);
      }
    }
  }

  datatype Completion = NotFound | Conflict(status: Status) | Completed

  function CompletionOf(rows: Table, device: DeviceId, id: TaskId): Completion
  {
    if id !in rows || rows[id].device != device then NotFound
    else if rows[id].status != Running then Conflict(rows[id].status)
    else Completed
  }

  function Reported(t: Task, ok: bool, code: Option<string>, now: real): Task
  {
    if ok then Succeeded(t, now)
    else FailedWith(t, if code.Some? && code.value != "" then code.value else "UNKNOWN", now)
  }

  /** What a reported publication writes on its note. */
  datatype Note = Note(published: bool, platformNoteId: Option<string>, platformUrl: Option<string>,
                       publishedAt: Option<real>)

  class TaskStore {
    var rows: Table
    var notes: map<NoteId, Note>

    constructor (notes: map<NoteId, Note>)
      ensures rows == map[] && this.notes == notes
    {
      rows, this.notes := map[], notes;
    }

    method Insert(id: TaskId, device: DeviceId, action: string, note: Option<NoteId>, scheduledAt: real, now: real)
      requires id !in rows
      modifies `rows
      ensures rows == old(rows)[id := NewTask(device, action, note, scheduledAt, now)]
      ensures rows[id] == Task(device, action, note, Pending, 0, scheduledAt, now, None, None)
    {
      rows := rows[id := Task(device, action, note, Pending, 0, scheduledAt, now, None, None)];
    }

    method LoadPending(now: real, limit: nat) returns (ids: seq<TaskId>)
      ensures IsBatch(rows, now, limit, ids)
      ensures forall id | id in ids :: id in rows && rows[id].status == Pending && rows[id].scheduledAt <= now
      ensures forall i, j | 0 <= i < j < |ids| ::
                ids[i] != ids[j] && rows[ids[i]].scheduledAt <= rows[ids[j]].scheduledAt
      ensures |ids| <= limit
      ensures forall id | id in rows && id !in ids && rows[id].status == Pending && rows[id].scheduledAt <= now ::
                |ids| == limit && forall other | other in ids :: rows[other].scheduledAt <= rows[id].scheduledAt
    {
      ids := [];
      var due := DueIds(rows, now);
      var rest := due;
      while |ids| < limit && rest != {}
        invariant |ids| <= limit && LoadedSoFar(rows, due, rest, ids)
      {
        var id := PickEarliest(rest);
        LoadOne(rows, due, rest, ids, id);
        ids := ids + [id];
        rest := rest - {id};
      }
    }

    method PickEarliest(ids: set<TaskId>) returns (id: TaskId)
      requires ids <= rows.Keys && ids != {}
      ensures id in ids && Earliest(rows, ids, id)
    {
      ghost var first := EarliestExists(rows, ids);
      id :| id in ids && Earliest(rows, ids, id);
    }

    /** The two bulk updates of the sweep; the second cannot see the rows the first one failed. */
    method ReclaimStaleRunning(now: real, staleAfter: real, maxAttempts: int) returns (reclaimed: nat)
      modifies `rows
      ensures rows == SweptTable(old(rows), now, staleAfter, maxAttempts)
      ensures reclaimed == |set id | id in old(rows) && old(rows)[id].status == Running
                                     && old(rows)[id].updatedAt < now - staleAfter|
      ensures rows.Keys == old(rows).Keys
      ensures forall id | id in rows ::
                var t := old(rows)[id];
                if t.status != Running || t.updatedAt >= now - staleAfter then rows[id] == t
                else if t.attempts < maxAttempts then
                  rows[id] == t.(status := Pending, scheduledAt := now, updatedAt := now)
                else rows[id] == t.(status := Failed, lastError := Some("STALE_RUNNING"), updatedAt := now)
    {
      var cutoff := now - staleAfter;
      SweepInTwo(rows, now, staleAfter, maxAttempts);
      var failed := Exhausted(rows, cutoff, maxAttempts);
      rows := FailAll(rows, failed, now);
      var requeued := Retriable(rows, cutoff, maxAttempts);
      rows := RequeueAll(rows, requeued, now);
      reclaimed := |failed| + |requeued|;
      assert StaleIds(old(rows), cutoff)
             == set id | id in old(rows) && old(rows)[id].status == Running && old(rows)[id].updatedAt < cutoff;
    }

    method MarkRunning(id: TaskId, seenAttempts: nat, now: real)
      requires id in rows
      modifies `rows
      ensures rows == old(rows)[id := Marked(old(rows)[id], seenAttempts, now)]
      ensures rows[id] == old(rows)[id].(status := Running, attempts := seenAttempts + 1, updatedAt := now)
    {
      rows := rows[id := rows[id].(status := Running, attempts := seenAttempts + 1, updatedAt := now)];
    }

    method MarkSuccess(id: TaskId, now: real)
      requires id in rows
      modifies `rows
      ensures rows == old(rows)[id := Succeeded(old(rows)[id], now)]
      ensures rows[id] == old(rows)[id].(status := Success, executedAt := Some(now), updatedAt := now)
    {
      rows := rows[id := rows[id].(status := Success, executedAt := Some(now), updatedAt := now)];
    }

    method MarkFailed(id: TaskId, code: string, now: real)
      requires id in rows
      modifies `rows
      ensures rows == old(rows)[id := FailedWith(old(rows)[id], code, now)]
      ensures rows[id] == old(rows)[id].(status := Failed, executedAt := Some(now), lastError := Some(code),
                                               updatedAt := now)
    {
      rows := rows[id := rows[id].(status := Failed, executedAt := Some(now), lastError := Some(code),
                                   updatedAt := now)];
    }

    method MarkPending(id: TaskId, at: real, now: real)
      requires id in rows
      modifies `rows
      ensures rows == old(rows)[id := Rescheduled(old(rows)[id], at, now)]
      ensures rows[id] == old(rows)[id].(status := Pending, scheduledAt := at, updatedAt := now)
    {
      rows := rows[id := rows[id].(status := Pending, scheduledAt := at, updatedAt := now)];
    }

    /** The row may be handed to a phone. */
    predicate Offered(t: Task, device: DeviceId, now: real)
    {
      t.device == device && t.action == "device_publish" && t.status == Pending && t.scheduledAt <= now
    }

    /** `locked` are the rows other transactions hold: `FOR UPDATE SKIP LOCKED` passes them over. */
    method ClaimNext(device: DeviceId, locked: set<TaskId>, now: real) returns (got: Option<TaskId>)
      modifies `rows
      ensures IsClaim(old(rows), device, locked, now, got)
      ensures rows == if got.None? then old(rows) else old(rows)[got.value := Claimed(old(rows)[got.value], now)]
      ensures got.Some? ==> got.value in old(rows) && Offered(old(rows)[got.value], device, now) && got.value !in locked
      ensures got.Some? ==> rows[got.value] == old(rows)[got.value].(
                              status := Running, attempts := old(rows)[got.value].attempts + 1,
                              executedAt := Some(now), updatedAt := now)
      ensures forall id | id in old(rows) && Offered(old(rows)[id], device, now) && id !in locked ::
                got.Some? && old(rows)[got.value].scheduledAt <= old(rows)[id].scheduledAt
    {
      var ids := Claimable(rows, device, locked, now);
      assert forall id | id in rows && Offered(rows[id], device, now) && id !in locked :: id in ids;
      if ids == {} {
        return None;
      }
      var id := PickEarliest(ids);
      rows := rows[id := rows[id].(status := Running, attempts := rows[id].attempts + 1,
                                   executedAt := Some(now), updatedAt := now)];
      got := Some(id);
    }

    /** A reported publication is written on its note too. */
    method Complete(device: DeviceId, id: TaskId, ok: bool, code: Option<string>,
                    platformNoteId: Option<string>, platformUrl: Option<string>, now: real)
      returns (r: Completion)
      modifies this
      ensures r == CompletionOf(old(rows), device, id)
      ensures rows == if r.Completed? then old(rows)[id := Reported(old(rows)[id], ok, code, now)] else old(rows)
      ensures r.NotFound? <==> id !in old(rows) || old(rows)[id].device != device
      ensures r.Completed? <==> id in old(rows) && old(rows)[id].device == device && old(rows)[id].status == Running
      ensures r.Conflict? ==> r.status == old(rows)[id].status
      ensures r.Completed? && ok ==> rows[id] == old(rows)[id].(
                                       status := Success, executedAt := Some(now), updatedAt := now)
      ensures r.Completed? && !ok ==> rows[id] == old(rows)[id].(
                status := Failed, executedAt := Some(now), updatedAt := now,
                lastError := if code == None || code == Some("") then Some("UNKNOWN") else code)
      ensures !r.Completed? ==> notes == old(notes)
      ensures r.Completed? ==>
        var task := old(rows)[id];
        notes == if ok && task.action == "device_publish" && task.note.Some? && task.note.value in old(notes)
                 then old(notes)[task.note.value := Note(true, platformNoteId, platformUrl, Some(now))]
                 else old(notes)
    {
      if id !in rows || rows[id].device != device {
        return NotFound;
      }
      var task := rows[id];
      if task.status != Running {
        return Conflict(task.status);
      }
      task := task.(status := if ok then Success else Failed, executedAt := Some(now), updatedAt := now);
      if !ok {
        task := task.(lastError := Some(if code.Some? && code.value != "" then code.value else "UNKNOWN"));
      }
      rows := rows[id := task];
      if ok && task.action == PUBLISH {
        if task.note.Some? && task.note.value in notes {
          notes := notes[task.note.value := Note(true, platformNoteId, platformUrl, Some(now))];
        }
      }
      r := Completed;
    }
  }

  /** A sweep leaves no stale running row behind and touches nothing else. */
  lemma SweepLeavesNoStale(rows: Table, now: real, staleAfter: real, maxAttempts: int)
    ensures StaleIds(SweptTable(rows, now, staleAfter, maxAttempts), now - staleAfter) == {}
    ensures forall id | id in rows && id !in StaleIds(rows, now - staleAfter) ::
              SweptTable(rows, now, staleAfter, maxAttempts)[id] == rows[id]
  {
  }
}
