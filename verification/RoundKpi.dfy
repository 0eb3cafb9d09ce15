/**
  How the KPI of a round is gathered (backend/matrix/agent/orchestrator.py).

  Times are in seconds.  A query without an order returns rows in the order of the table, which is
  any order; `runs` holds the runs of one goal.
 */
module RoundKpis {
  import opened Prelude
  import opened Kpi

  datatype Note = Note(id: nat, runId: Option<nat>, published: bool, createdAt: real,
                       scheduledCollectAt: Option<real>, collectedAt: Option<real>)

  datatype Metric = Metric(noteId: nat, ts: real, counts: Totals)

  /** An active account and the device it lives on. */
  datatype Candidate = Candidate(account: nat, device: nat)

  /** Who publishes, when, and in which style. */
  datatype Slot = Slot(candidate: Candidate, scheduledAt: real, style: nat)

  /** `slot` and `payloadNote` are those of the payload, the note id if it is a well-formed one. */
  datatype Run = Run(id: nat, round: nat, running: bool, slot: Option<Slot>, payloadNote: Option<nat>,
                     startedAt: real, endedAt: Option<real>)

  datatype Db = Db(runs: seq<Run>, notes: seq<Note>, metrics: seq<Metric>)

  datatype RoundKpi = RoundKpi(totals: Totals, notesCount: nat, perNote: seq<NoteMetrics>,
                               dimensions: Option<Dimensions>)

  const WINDOW := 300.0

  /** The identifier is the primary key of the table. */
  ghost predicate UniqueIds(notes: seq<Note>)
  {
    forall i, j | 0 <= i < j < |notes| :: notes[i].id != notes[j].id
  }

  function RoundRuns(runs: seq<Run>, round: nat, n: nat): seq<Run>
    requires n <= |runs|
  {
    if n == 0 then []
    else RoundRuns(runs, round, n - 1) + if runs[n - 1].round == round then [runs[n - 1]] else []
  }

  // ----- which note a run stands for -----

  function ByRun(notes: seq<Note>, run: nat, n: nat): Option<Note>
    requires n <= |notes|
  {
    if n == 0 then None
    else
      var earlier := ByRun(notes, run, n - 1);
      if earlier.Some? then earlier else if notes[n - 1].runId == Some(run) then Some(notes[n - 1]) else None
  }

  function ById(notes: seq<Note>, id: nat, n: nat): Option<Note>
    requires n <= |notes|
  {
    if n == 0 then None else if notes[n - 1].id == id then Some(notes[n - 1]) else ById(notes, id, n - 1)
  }

  predicate InWindow(note: Note, run: Run)
  {
    run.startedAt - WINDOW <= note.createdAt
    <= (if run.endedAt.Some? then run.endedAt.value else run.startedAt) + WINDOW
  }

  /** The note created last within the window of the run. */
  function Newest(notes: seq<Note>, run: Run, n: nat): Option<Note>
    requires n <= |notes|
  {
    if n == 0 then None
    else
      var earlier := Newest(notes, run, n - 1);
      if InWindow(notes[n - 1], run) && (earlier.None? || earlier.value.createdAt < notes[n - 1].createdAt)
      then Some(notes[n - 1]) else earlier
  }

  /** For a run that wrote no note: the one its payload names, else the newest of its time. */
  function Fallback(notes: seq<Note>, run: Run): Option<Note>
  {
    var named := if run.payloadNote.Some? then ById(notes, run.payloadNote.value, |notes|) else None;
    if named.Some? then named else Newest(notes, run, |notes|)
  }

  /** The note written by the run, else what it falls back to. */
  function Resolve(notes: seq<Note>, run: Run): Option<Note>
  {
    var written := ByRun(notes, run.id, |notes|);
    if written.Some? then written else Fallback(notes, run)
  }

  ghost predicate InTable(note: Note, notes: seq<Note>)
  {
    exists i :: 0 <= i < |notes| && notes[i] == note
  }

  lemma {:induction false} FoundInTable(notes: seq<Note>, run: Run, id: nat, n: nat)
    requires n <= |notes|
    ensures ByRun(notes, id, n).Some? ==> InTable(ByRun(notes, id, n).value, notes)
    ensures ById(notes, id, n).Some? ==> InTable(ById(notes, id, n).value, notes)
    ensures Newest(notes, run, n).Some? ==> InTable(Newest(notes, run, n).value, notes)
  {
    if n > 0 {
      FoundInTable(notes, run, id, n - 1);
      assert InTable(notes[n - 1], notes);
    }
  }

  lemma ResolvedInTable(notes: seq<Note>, run: Run)
    requires Resolve(notes, run).Some?
    ensures InTable(Resolve(notes, run).value, notes)
  {
    FoundInTable(notes, run, run.id, |notes|);
    if run.payloadNote.Some? {
      FoundInTable(notes, run, run.payloadNote.value, |notes|);
    }
  }

  /** The distinct notes of the first `n` runs. */
  function NoteIds(notes: seq<Note>, runs: seq<Run>, n: nat): set<nat>
    requires n <= |runs|
  {
    if n == 0 then {}
    else
      var note := Resolve(notes, runs[n - 1]);
      NoteIds(notes, runs, n - 1) + if note.Some? then {note.value.id} else {}
  }

  ghost predicate Stands(notes: seq<Note>, run: Run, id: nat)
  {
    Resolve(notes, run).Some? && Resolve(notes, run).value.id == id
  }

  lemma {:induction false} NoteIdsAre(notes: seq<Note>, runs: seq<Run>, n: nat, id: nat)
    requires n <= |runs|
    ensures id in NoteIds(notes, runs, n) <==> exists i :: 0 <= i < n && Stands(notes, runs[i], id)
  {
    if n > 0 {
      NoteIdsAre(notes, runs, n - 1, id);
      assert Stands(notes, runs[n - 1], id) <==> id in NoteIds(notes, [runs[n - 1]], 1);
    }
  }

  /** Neither the order of the runs nor their repetition matters. */
  lemma SameRunsSameNotes(notes: seq<Note>, runs: seq<Run>, others: seq<Run>)
    requires forall r :: r in runs <==> r in others
    ensures NoteIds(notes, runs, |runs|) == NoteIds(notes, others, |others|)
  {
    forall id
      ensures id in NoteIds(notes, runs, |runs|) <==> id in NoteIds(notes, others, |others|)
    {
      NoteIdsAre(notes, runs, |runs|, id);
      NoteIdsAre(notes, others, |others|, id);
      if i :| 0 <= i < |runs| && Stands(notes, runs[i], id) {
        assert runs[i] in others;
        var j :| 0 <= j < |others| && others[j] == runs[i];
        assert Stands(notes, others[j], id);
      }
      if j :| 0 <= j < |others| && Stands(notes, others[j], id) {
        assert others[j] in runs;
        var i :| 0 <= i < |runs| && runs[i] == others[j];
        assert Stands(notes, runs[i], id);
      }
    }
  }

  // ----- whether the counted notes are those of the runs -----

  /** The note was written by one of the runs. */
  predicate WrittenBy(runs: seq<Run>, note: Note)
  {
    note.runId.Some? && exists r | 0 <= r < |runs| :: runs[r].id == note.runId.value
  }

  ghost function OwnIds(notes: seq<Note>, runs: seq<Run>): set<nat>
  {
    set i | 0 <= i < |notes| && WrittenBy(runs, notes[i]) :: notes[i].id
  }

  predicate WroteNone(notes: seq<Note>, run: Run)
  {
    forall i | 0 <= i < |notes| :: notes[i].runId != Some(run.id)
  }

  /** No other note of its run stands before it in the table. */
  predicate FirstOfItsRun(notes: seq<Note>, i: nat)
    requires i < |notes|
  {
    forall j | 0 <= j < i :: notes[j].runId != notes[i].runId
  }

  /** No note of the table created in the five minutes around the run is created later. */
  predicate NewestAround(notes: seq<Note>, run: Run, i: nat)
    requires i < |notes|
  {
    var from, to := run.startedAt - 300.0, (if run.endedAt.Some? then run.endedAt.value else run.startedAt) + 300.0;
    && from <= notes[i].createdAt <= to
    && forall j | 0 <= j < |notes| && from <= notes[j].createdAt <= to ::
         notes[j].createdAt < notes[i].createdAt || (notes[j].createdAt == notes[i].createdAt && i <= j)
  }

  /** The run wrote no note, and its payload names this one, or none of the table and this is the newest around it. */
  predicate FallsBackTo(notes: seq<Note>, run: Run, i: nat)
    requires i < |notes|
  {
    && WroteNone(notes, run)
    && (|| run.payloadNote == Some(notes[i].id)
        || ((forall j | 0 <= j < |notes| :: run.payloadNote != Some(notes[j].id)) && NewestAround(notes, run, i)))
  }

  /**
    No run without a note falls back to a note from outside, and every note of the runs is the
    first of its own run or made up for by a run that falls back to it.
   */
  ghost predicate StaysInside(notes: seq<Note>, runs: seq<Run>)
  {
    && (forall r, i | 0 <= r < |runs| && 0 <= i < |notes| && FallsBackTo(notes, runs[r], i) ::
          WrittenBy(runs, notes[i]))
    && (forall i | 0 <= i < |notes| && WrittenBy(runs, notes[i]) ::
          FirstOfItsRun(notes, i) || exists r :: 0 <= r < |runs| && FallsBackTo(notes, runs[r], i))
  }

  lemma {:induction false} ByRunIsFirst(notes: seq<Note>, run: nat, n: nat)
    requires n <= |notes|
    ensures var found := ByRun(notes, run, n);
            if found.None? then forall i | 0 <= i < n :: notes[i].runId != Some(run)
            else exists i :: 0 <= i < n && notes[i] == found.value && notes[i].runId == Some(run)
                             && FirstOfItsRun(notes, i)
  {
    if n > 0 {
      ByRunIsFirst(notes, run, n - 1);
    }
  }

  lemma {:induction false} ByIdFinds(notes: seq<Note>, id: nat, n: nat)
    requires n <= |notes|
    ensures var found := ById(notes, id, n);
            if found.None? then forall i | 0 <= i < n :: notes[i].id != id
            else exists i :: 0 <= i < n && notes[i] == found.value && notes[i].id == id
  {
    if n > 0 {
      ByIdFinds(notes, id, n - 1);
    }
  }

  lemma {:induction false} NewestFinds(notes: seq<Note>, run: Run, n: nat)
    requires n <= |notes|
    ensures var found := Newest(notes, run, n);
            if found.None? then forall i | 0 <= i < n :: !InWindow(notes[i], run)
            else exists i :: 0 <= i < n && notes[i] == found.value && NewestAround(notes[..n], run, i)
  {
    if n > 0 {
      NewestFinds(notes, run, n - 1);
      var earlier := Newest(notes, run, n - 1);
      if earlier.None? {
        if InWindow(notes[n - 1], run) {
          assert NewestAround(notes[..n], run, n - 1);
        }
      } else {
        var i :| 0 <= i < n - 1 && notes[i] == earlier.value && NewestAround(notes[..n - 1], run, i);
        assert forall j | 0 <= j < n - 1 :: notes[..n][j] == notes[..n - 1][j];
        if InWindow(notes[n - 1], run) && notes[i].createdAt < notes[n - 1].createdAt {
          assert NewestAround(notes[..n], run, n - 1);
        } else {
          assert NewestAround(notes[..n], run, i);
        }
      }
    }
  }

  lemma NewestIff(notes: seq<Note>, run: Run, i: nat)
    requires UniqueIds(notes) && i < |notes|
    ensures Newest(notes, run, |notes|) == Some(notes[i]) <==> NewestAround(notes, run, i)
  {
    NewestFinds(notes, run, |notes|);
    assert notes[..|notes|] == notes;
    if NewestAround(notes, run, i) {
      assert InWindow(notes[i], run);
      var k :| 0 <= k < |notes| && Newest(notes, run, |notes|) == Some(notes[k]) && NewestAround(notes, run, k);
      assert k == i;
    }
  }

  /** A run that wrote no note falls back as the table says. */
  lemma FallsBackIff(notes: seq<Note>, run: Run, i: nat)
    requires UniqueIds(notes) && i < |notes| && WroteNone(notes, run)
    ensures Fallback(notes, run) == Some(notes[i]) <==> FallsBackTo(notes, run, i)
  {
    NewestIff(notes, run, i);
    if run.payloadNote.Some? {
      ByIdFinds(notes, run.payloadNote.value, |notes|);
    }
  }

  /**
    A run stands for the first note it wrote.  If it wrote none, it stands for the note its payload
    names, and if there is none of that id, for the newest one created within five minutes of it;
    of several created at once, the first.
   */
  lemma StandsFor(notes: seq<Note>, run: Run, i: nat)
    requires UniqueIds(notes) && i < |notes|
    ensures var from := run.startedAt - 300.0;
            var to := (if run.endedAt.Some? then run.endedAt.value else run.startedAt) + 300.0;
            Stands(notes, run, notes[i].id) <==>
            || (notes[i].runId == Some(run.id) && forall j | 0 <= j < i :: notes[j].runId != Some(run.id))
            || (&& (forall j | 0 <= j < |notes| :: notes[j].runId != Some(run.id))
                && (|| run.payloadNote == Some(notes[i].id)
                    || (&& (forall j | 0 <= j < |notes| :: run.payloadNote != Some(notes[j].id))
                        && from <= notes[i].createdAt <= to
                        && forall j | 0 <= j < |notes| && from <= notes[j].createdAt <= to ::
                             || notes[j].createdAt < notes[i].createdAt
                             || (notes[j].createdAt == notes[i].createdAt && i <= j))))
  {
    StandsShort(notes, run, i);
  }

  /** The same in short. */
  lemma StandsShort(notes: seq<Note>, run: Run, i: nat)
    requires UniqueIds(notes) && i < |notes|
    ensures Stands(notes, run, notes[i].id) <==>
            (notes[i].runId == Some(run.id) && FirstOfItsRun(notes, i)) || FallsBackTo(notes, run, i)
  {
    ByRunIsFirst(notes, run.id, |notes|);
    var found := Resolve(notes, run);
    if WroteNone(notes, run) {
      FallsBackIff(notes, run, i);
    }
    if found.Some? {
      ResolvedInTable(notes, run);
      var k :| 0 <= k < |notes| && notes[k] == found.value;
      assert Stands(notes, run, notes[i].id) <==> k == i;
      if ByRun(notes, run.id, |notes|).Some? {
        var first :| 0 <= first < |notes| && notes[first] == found.value && FirstOfItsRun(notes, first);
        assert first == k;
        assert notes[i].runId == Some(run.id) && FirstOfItsRun(notes, i) ==> i == k;
      }
    }
  }

  /** The counted notes of the table, by what the table holds. */
  lemma CountedIff(notes: seq<Note>, runs: seq<Run>, i: nat)
    requires UniqueIds(notes) && i < |notes|
    ensures notes[i].id in NoteIds(notes, runs, |runs|) <==>
            || (WrittenBy(runs, notes[i]) && FirstOfItsRun(notes, i))
            || exists r :: 0 <= r < |runs| && FallsBackTo(notes, runs[r], i)
  {
    NoteIdsAre(notes, runs, |runs|, notes[i].id);
    forall r | 0 <= r < |runs|
      ensures Stands(notes, runs[r], notes[i].id) <==>
              (notes[i].runId == Some(runs[r].id) && FirstOfItsRun(notes, i)) || FallsBackTo(notes, runs[r], i)
    {
      StandsShort(notes, runs[r], i);
    }
  }

  lemma OwnIdsAre(notes: seq<Note>, runs: seq<Run>, i: nat)
    requires UniqueIds(notes) && i < |notes|
    ensures notes[i].id in OwnIds(notes, runs) <==> WrittenBy(runs, notes[i])
  {
  }

  /** A counted note stands in the table. */
  lemma CountedInTable(notes: seq<Note>, runs: seq<Run>, id: nat)
    requires id in NoteIds(notes, runs, |runs|)
    ensures exists i :: 0 <= i < |notes| && notes[i].id == id
  {
    NoteIdsAre(notes, runs, |runs|, id);
    var r :| 0 <= r < |runs| && Stands(notes, runs[r], id);
    ResolvedInTable(notes, runs[r]);
  }

  /** The counted notes are exactly those the runs wrote if and only if the fallbacks stay inside. */
  lemma CountsOwnIff(notes: seq<Note>, runs: seq<Run>)
    requires UniqueIds(notes)
    ensures NoteIds(notes, runs, |runs|) == OwnIds(notes, runs) <==> StaysInside(notes, runs)
  {
    forall i | 0 <= i < |notes|
      ensures notes[i].id in NoteIds(notes, runs, |runs|) <==>
              || (WrittenBy(runs, notes[i]) && FirstOfItsRun(notes, i))
              || exists r :: 0 <= r < |runs| && FallsBackTo(notes, runs[r], i)
      ensures notes[i].id in OwnIds(notes, runs) <==> WrittenBy(runs, notes[i])
    {
      CountedIff(notes, runs, i);
      OwnIdsAre(notes, runs, i);
    }
    if StaysInside(notes, runs) {
      forall id
        ensures id in NoteIds(notes, runs, |runs|) <==> id in OwnIds(notes, runs)
      {
        if id in NoteIds(notes, runs, |runs|) {
          CountedInTable(notes, runs, id);
        }
      }
    }
  }

  // ----- the latest metrics, summed over notes -----

  function Latest(metrics: seq<Metric>, note: nat, n: nat): Option<Metric>
    requires n <= |metrics|
  {
    if n == 0 then None
    else
      var earlier := Latest(metrics, note, n - 1);
      if metrics[n - 1].noteId == note && (earlier.None? || earlier.value.ts < metrics[n - 1].ts)
      then Some(metrics[n - 1]) else earlier
  }

  lemma {:induction false} LatestIsLatest(metrics: seq<Metric>, note: nat, n: nat)
    requires n <= |metrics|
    ensures var l := Latest(metrics, note, n);
            && (l.Some? <==> exists i :: 0 <= i < n && metrics[i].noteId == note)
            && (l.Some? ==> l.value in metrics[..n] && l.value.noteId == note)
            && (l.Some? ==> forall i | 0 <= i < n && metrics[i].noteId == note :: metrics[i].ts <= l.value.ts)
  {
    if n > 0 {
      LatestIsLatest(metrics, note, n - 1);
      assert metrics[..n] == metrics[..n - 1] + [metrics[n - 1]];
    }
  }

  function CountsOf(metrics: seq<Metric>, note: nat): Totals
  {
    var l := Latest(metrics, note, |metrics|);
    if l.Some? then l.value.counts else ZERO
  }

  /** The latest counters of the notes of `ids`, summed along the note table. */
  function TotalOver(db: Db, ids: set<nat>, n: nat): Totals
    requires n <= |db.notes|
  {
    if n == 0 then ZERO
    else
      var before := TotalOver(db, ids, n - 1);
      if db.notes[n - 1].id in ids then before.Plus(CountsOf(db.metrics, db.notes[n - 1].id)) else before
  }

  /** A note counted for the first time adds its counters, wherever it stands in the table. */
  lemma {:induction false} OneMoreNote(db: Db, ids: set<nat>, id: nat, n: nat)
    requires n <= |db.notes| && UniqueIds(db.notes) && id !in ids
    ensures TotalOver(db, ids + {id}, n)
            == if exists i :: 0 <= i < n && db.notes[i].id == id
               then TotalOver(db, ids, n).Plus(CountsOf(db.metrics, id)) else TotalOver(db, ids, n)
  {
    if n > 0 {
      OneMoreNote(db, ids, id, n - 1);
      assert forall i | 0 <= i < n - 1 :: db.notes[i].id != db.notes[n - 1].id;
    }
  }

  ghost predicate HasRow(rows: seq<NoteMetrics>, id: nat)
  {
    exists i :: 0 <= i < |rows| && rows[i].noteId == id
  }

  /** One row for each note that has a metric, with its latest counters. */
  ghost predicate RowsRight(db: Db, ids: set<nat>, rows: seq<NoteMetrics>)
  {
    && (forall i, j | 0 <= i < j < |rows| :: rows[i].noteId != rows[j].noteId)
    && (forall id :: HasRow(rows, id) <==> id in ids && Latest(db.metrics, id, |db.metrics|).Some?)
    && (forall i | 0 <= i < |rows| :: rows[i].counts == CountsOf(db.metrics, rows[i].noteId))
  }

  /** The row of a note holds its latest metric; a note without a metric has no row. */
  lemma RowsAreLatest(db: Db, ids: set<nat>, rows: seq<NoteMetrics>, id: nat)
    requires RowsRight(db, ids, rows)
    ensures (exists i :: 0 <= i < |rows| && rows[i].noteId == id)
            <==> id in ids && exists m :: 0 <= m < |db.metrics| && db.metrics[m].noteId == id
    ensures forall i | 0 <= i < |rows| && rows[i].noteId == id ::
              exists m :: 0 <= m < |db.metrics| && db.metrics[m].noteId == id && db.metrics[m].counts == rows[i].counts
                          && forall o | 0 <= o < |db.metrics| && db.metrics[o].noteId == id ::
                               db.metrics[o].ts <= db.metrics[m].ts
  {
    LatestIsLatest(db.metrics, id, |db.metrics|);
    assert HasRow(rows, id) <==> exists i :: 0 <= i < |rows| && rows[i].noteId == id;
    var l := Latest(db.metrics, id, |db.metrics|);
    if l.Some? {
      assert db.metrics[..|db.metrics|] == db.metrics;
      var m :| 0 <= m < |db.metrics| && db.metrics[m] == l.value;
    }
  }

  lemma RowAdded(db: Db, ids: set<nat>, rows: seq<NoteMetrics>, id: nat)
    requires RowsRight(db, ids, rows) && id !in ids
    ensures var l := Latest(db.metrics, id, |db.metrics|);
            RowsRight(db, ids + {id}, if l.Some? then rows + [NoteMetrics(id, l.value.counts)] else rows)
  {
    var l := Latest(db.metrics, id, |db.metrics|);
    if l.Some? {
      var more := rows + [NoteMetrics(id, l.value.counts)];
      assert !HasRow(rows, id);
      assert more[|rows|].noteId == id;
      forall other
        ensures HasRow(more, other) <==> HasRow(rows, other) || other == id
      {
        if i :| 0 <= i < |rows| && rows[i].noteId == other {
          assert more[i].noteId == other;
        }
      }
    }
  }

  lemma {:induction false} FlatPrefix(rows: seq<NoteMetrics>, row: NoteMetrics, n: nat)
    requires n <= |rows|
    ensures Flat(rows + [row], n) == Flat(rows, n)
  {
    if n > 0 {
      FlatPrefix(rows, row, n - 1);
    }
  }

  lemma {:induction false} TotalOfNone(db: Db, n: nat)
    requires n <= |db.notes|
    ensures TotalOver(db, {}, n) == ZERO
  {
    if n > 0 {
      TotalOfNone(db, n - 1);
    }
  }

  /** The rows and totals are those of the notes `ids`. */
  ghost predicate KpiOver(db: Db, ids: set<nat>, totals: Totals, rows: seq<NoteMetrics>)
  {
    && totals == TotalOver(db, ids, |db.notes|)
    && totals == Flat(rows, |rows|)
    && RowsRight(db, ids, rows)
  }

  lemma NoteCounted(db: Db, ids: set<nat>, totals: Totals, rows: seq<NoteMetrics>, note: Note)
    requires UniqueIds(db.notes) && KpiOver(db, ids, totals, rows)
    requires InTable(note, db.notes) && note.id !in ids
    ensures var l := Latest(db.metrics, note.id, |db.metrics|);
            if l.Some? then
              KpiOver(db, ids + {note.id}, totals.Plus(l.value.counts), rows + [NoteMetrics(note.id, l.value.counts)])
            else KpiOver(db, ids + {note.id}, totals, rows)
  {
    var l := Latest(db.metrics, note.id, |db.metrics|);
    OneMoreNote(db, ids, note.id, |db.notes|);
    RowAdded(db, ids, rows, note.id);
    if l.Some? {
      FlatPrefix(rows, NoteMetrics(note.id, l.value.counts), |rows|);
    }
  }

  /** The dimensions carry the totals. */
  ghost predicate Carries(d: Option<Dimensions>, totals: Totals, rows: seq<NoteMetrics>)
  {
    && d.Some? && d.value.engagement == totals && d.value.views == totals.views && d.value.notes == |rows|
    && d.value.total == totals.Engagement() && d.value.conversion == Rate(totals.follows, totals.views)
    && d.value.likeRate == Rate(totals.likes, totals.views)
    && d.value.engageRate == Rate(totals.Engagement(), totals.views)
    && |d.value.perNote| == |rows| && forall i | 0 <= i < |rows| :: d.value.perNote[i] == PerNoteRow(rows[i])
  }

  lemma OwnDimensions(rows: seq<NoteMetrics>)
    ensures Carries(Some(ComputeDimKpi(rows)), Flat(rows, |rows|), rows)
  {
    DimensionsAreFlat(rows);
  }

  /** What was gathered over `runs`. */
  ghost predicate IsRoundKpi(db: Db, runs: seq<Run>, kpi: RoundKpi)
  {
    var ids := NoteIds(db.notes, runs, |runs|);
    && KpiOver(db, ids, kpi.totals, kpi.perNote)
    && kpi.notesCount == |ids|
    && Carries(kpi.dimensions, kpi.totals, kpi.perNote)
  }

  lemma {:induction false} RowsExist(db: Db, runs: seq<Run>, n: nat) returns (totals: Totals, rows: seq<NoteMetrics>)
    requires UniqueIds(db.notes) && n <= |runs|
    ensures KpiOver(db, NoteIds(db.notes, runs, n), totals, rows)
  {
    if n == 0 {
      TotalOfNone(db, |db.notes|);
      totals, rows := ZERO, [];
    } else {
      totals, rows := RowsExist(db, runs, n - 1);
      var seen, note := NoteIds(db.notes, runs, n - 1), Resolve(db.notes, runs[n - 1]);
      if note.None? || note.value.id in seen {
        assert NoteIds(db.notes, runs, n) == seen;
      } else {
        ResolvedInTable(db.notes, runs[n - 1]);
        NoteCounted(db, seen, totals, rows, note.value);
        var metric := Latest(db.metrics, note.value.id, |db.metrics|);
        if metric.Some? {
          totals, rows := totals.Plus(metric.value.counts), rows + [NoteMetrics(note.value.id, metric.value.counts)];
        }
      }
    }
  }

  /** Every table can be gathered over. */
  lemma GatheringExists(db: Db, runs: seq<Run>) returns (kpi: RoundKpi)
    requires UniqueIds(db.notes)
    ensures IsRoundKpi(db, runs, kpi)
  {
    var totals, rows := RowsExist(db, runs, |runs|);
    OwnDimensions(rows);
    kpi := RoundKpi(totals, |NoteIds(db.notes, runs, |runs|)|, rows, Some(ComputeDimKpi(rows)));
  }

  method GatherRoundKpi(db: Db, round: nat) returns (kpi: RoundKpi)
    requires UniqueIds(db.notes)
    ensures IsRoundKpi(db, RoundRuns(db.runs, round, |db.runs|), kpi)
  {
    var runs := RoundRuns(db.runs, round, |db.runs|);
    var totals, notesCount := ZERO, 0;
    var perNote: seq<NoteMetrics> := [];
    var seen: set<nat> := {};
    TotalOfNone(db, |db.notes|);
    for i := 0 to |runs|
      invariant seen == NoteIds(db.notes, runs, i) && notesCount == |seen|
      invariant KpiOver(db, seen, totals, perNote)
    {
      var note := Resolve(db.notes, runs[i]);
      if note.Some? && note.value.id !in seen {
        ResolvedInTable(db.notes, runs[i]);
        NoteCounted(db, seen, totals, perNote, note.value);
        seen := seen + {note.value.id};
        notesCount := notesCount + 1;
        var metric := Latest(db.metrics, note.value.id, |db.metrics|);
        if metric.Some? {
          totals := totals.Plus(metric.value.counts);
          perNote := perNote + [NoteMetrics(note.value.id, metric.value.counts)];
        }
      }
    }
    var dimensions := ComputeDimKpi(perNote);
    OwnDimensions(perNote);
    kpi := RoundKpi(totals, notesCount, perNote, Some(dimensions));
  }

  /** The totals depend on which runs there are, not on their order or repetition. */
  lemma OrderDoesNotMatter(db: Db, runs: seq<Run>, others: seq<Run>, kpi: RoundKpi, other: RoundKpi)
    requires forall r :: r in runs <==> r in others
    requires IsRoundKpi(db, runs, kpi) && IsRoundKpi(db, others, other)
    ensures kpi.totals == other.totals && kpi.notesCount == other.notesCount
  {
    SameRunsSameNotes(db.notes, runs, others);
  }
}
