/**
  The goal orchestrator: a phase machine over rounds (backend/matrix/agent/orchestrator.py).

  One call of `AdvanceGoal` is one database transaction.  Between two calls the world may do
  anything to the runs, notes and metrics, and time does not go back.
 */
module Orchestrators {
  import opened Prelude
  import opened Kpi
  import opened RoundKpis

  datatype Phase = Pending | Preparing | Executing | Monitoring | Summarizing | Deciding | Done

  datatype Status = Active | Achieved | Failed

  datatype Goal = Goal(phase: Phase, currentRound: nat, maxRounds: int, status: Status, hasBusiness: bool,
                       deadline: Option<real>, targetLikes: Option<int>, notesPerRound: Option<int>)

  datatype RoundRow = RoundRow(number: nat, kpi: Option<RoundKpi>, notesCreated: nat,
                               totalViews: int, totalLikes: int, ended: bool)

  const NOTES_PER_ROUND := 3
  const MAX_ROUND_FANOUT := 20
  const STAGGER := 900.0
  const STYLES := 8
  const LIKES_TARGET := 500
  const COLLECT_GRACE := 21600.0

  // ----- preparing a round -----

  /** A missing or zero setting counts as the default; a negative one asks for no notes. */
  function CountTarget(goal: Goal): (n: nat)
    ensures goal.notesPerRound == None || goal.notesPerRound == Some(0) ==> n == 3
    ensures forall k | goal.notesPerRound == Some(k) && k < 0 :: n == 0
    ensures forall k | goal.notesPerRound == Some(k) && 1 <= k <= 20 :: n == k
    ensures forall k | goal.notesPerRound == Some(k) && k > 20 :: n == 20
  {
    var n := if goal.notesPerRound.Some? && goal.notesPerRound.value != 0 then goal.notesPerRound.value
             else NOTES_PER_ROUND;
    Min(Max(n, 0), MAX_ROUND_FANOUT)
  }

  /**
    The slot allocator: the number of active candidates, if they can be counted, and the candidates
    in the order in which they are drawn.
   */
  datatype Services =
    Services(active: Option<int>, candidates: seq<Candidate>, base: real, inWindow: real -> bool)
  {
    /** The first candidates, staggered and in rotating styles; `None` when a slot falls out of the active hours. */
    function Allocate(n: nat): (r: Option<seq<Slot>>)
      ensures r.None? <==> exists i | 0 <= i < Min(|candidates|, n) :: !inWindow(TimeOf(i))
      ensures r.Some? ==> |r.value| == Min(|candidates|, n)
      ensures r.Some? ==> forall i | 0 <= i < |r.value| ::
                            && r.value[i].candidate == candidates[i] && inWindow(r.value[i].scheduledAt)
                            && r.value[i].scheduledAt == TimeOf(i) && r.value[i].style == i % STYLES
    {
      var m := Min(|candidates|, n);
      if exists i | 0 <= i < m :: !inWindow(TimeOf(i)) then None
      else Some(seq(m, i requires 0 <= i < m => Slot(candidates[i], TimeOf(i), i % STYLES)))
    }

    function TimeOf(i: int): real { base + STAGGER * i as real }
  }

  /** Two slots of a round lie a whole number of staggers apart; only every eighth has the same style. */
  lemma SlotsApart(services: Services, n: nat, i: nat, j: nat)
    requires services.Allocate(n).Some? && i < j < |services.Allocate(n).value|
    ensures var slots := services.Allocate(n).value;
            && slots[j].scheduledAt - slots[i].scheduledAt == STAGGER * (j - i) as real
            && (slots[i].style == slots[j].style <==> (j - i) % STYLES == 0)
  {
    assert STAGGER * j as real - STAGGER * i as real == STAGGER * (j - i) as real;
  }

  /** No slots where the source falls back: no allocator, no business, no count, none active, out of hours. */
  function AllocateRoundSlots(goal: Goal, services: Option<Services>): seq<Slot>
  {
    if services.None? || !goal.hasBusiness || services.value.active.None? then []
    else
      var n := Min(Min(CountTarget(goal), services.value.active.value), MAX_ROUND_FANOUT);
      if n <= 0 then []
      else
        var slots := services.value.Allocate(n);
        if slots.Some? then slots.value else []
  }

  /** One run for each slot, or as many as the goal asks for without one. */
  function RunsToCreate(goal: Goal, services: Option<Services>): seq<Option<Slot>>
  {
    var slots := AllocateRoundSlots(goal, services);
    if slots != [] then seq(|slots|, i requires 0 <= i < |slots| => Some(slots[i]))
    else seq(CountTarget(goal), _ => None)
  }

  /**
    A round opens at most 20 runs and never more than the goal asks for.  It opens none only if
    the goal asks for a negative number: without slots the runs are opened without one.
   */
  lemma FanoutBounded(goal: Goal, services: Option<Services>)
    ensures |RunsToCreate(goal, services)| <= CountTarget(goal) <= 20
    ensures |RunsToCreate(goal, services)| == 0
            <==> goal.notesPerRound.Some? && goal.notesPerRound.value < 0
  {
  }

  /** Each account is joined with its one device. */
  ghost predicate DistinctAccounts(candidates: seq<Candidate>)
  {
    forall i, j | 0 <= i < j < |candidates| :: candidates[i].account != candidates[j].account
  }

  /** No account is given two runs of a round, and two runs with slots never start at the same time. */
  lemma SlotsDiffer(goal: Goal, services: Option<Services>, i: nat, j: nat)
    requires services.Some? ==> DistinctAccounts(services.value.candidates)
    requires i < j < |RunsToCreate(goal, services)|
    ensures var runs := RunsToCreate(goal, services);
            && (runs[i].Some? <==> runs[j].Some?)
            && (runs[i].Some? ==> runs[i].value.candidate.account != runs[j].value.candidate.account)
            && (runs[i].Some? ==> runs[i].value.scheduledAt + STAGGER <= runs[j].value.scheduledAt)
  {
  }

  /** Slots can be had: an allocator, a business, candidates that are counted, and all times within the hours. */
  ghost predicate SlotsAvailable(goal: Goal, services: Option<Services>)
  {
    && services.Some? && goal.hasBusiness && services.value.active.Some? && services.value.active.value > 0
    && services.value.candidates != [] && CountTarget(goal) > 0
    && forall i | 0 <= i < |services.value.candidates| && i < services.value.active.value && i < CountTarget(goal) ::
         StartsInHours(services.value, i)
  }

  predicate StartsInHours(s: Services, i: int) { s.inWindow(s.base + 900.0 * i as real) }

  /**
    With slots to be had, the runs are as many as are asked for, active and drawn, and the i-th has
    the i-th candidate, starts i quarters of an hour after the first and takes the next of eight
    styles.  Otherwise there are as many as the goal asks for, without slots.
   */
  lemma RunsOpened(goal: Goal, services: Option<Services>)
    ensures var runs, asked := RunsToCreate(goal, services), CountTarget(goal);
            if SlotsAvailable(goal, services) then
              var s := services.value;
              && |runs| == Min(Min(asked, s.active.value), |s.candidates|)
              && forall i | 0 <= i < |runs| ::
                   runs[i] == Some(Slot(s.candidates[i], s.base + 900.0 * i as real, i % 8))
            else |runs| == asked && forall i | 0 <= i < |runs| :: runs[i] == None
  {
    if services.Some? && services.value.active.Some? {
      AllocatesIff(services.value, Min(Min(CountTarget(goal), services.value.active.value), MAX_ROUND_FANOUT));
    }
  }

  lemma AllocatesIff(s: Services, n: int)
    ensures n >= 0 ==>
              var r := s.Allocate(n);
              && (r.Some? <==> forall i | 0 <= i < |s.candidates| && i < n :: StartsInHours(s, i))
              && (r.Some? ==> |r.value| == Min(|s.candidates|, n))
              && (r.Some? ==> forall i | 0 <= i < |r.value| ::
                                r.value[i] == Slot(s.candidates[i], s.base + 900.0 * i as real, i % 8))
  {
    forall i: int
      ensures s.inWindow(s.TimeOf(i)) <==> StartsInHours(s, i)
    {
    }
  }

  // ----- one run a device -----

  ghost predicate DistinctDevices(candidates: seq<Candidate>)
  {
    forall i, j | 0 <= i < j < |candidates| :: candidates[i].device != candidates[j].device
  }

  /** No two slots of the round lie on one device. */
  ghost predicate OneEach(slots: seq<Slot>)
  {
    forall i, j | 0 <= i < j < |slots| :: slots[i].candidate.device != slots[j].candidate.device
  }

  /** The slots of a round when the candidates are drawn in this order. */
  function SlotsOf(goal: Goal, services: Services, drawn: seq<Candidate>): seq<Slot>
  {
    AllocateRoundSlots(goal, Some(services.(candidates := drawn)))
  }

  /** How many slots there are does not depend on the order, and they go to the first that are drawn. */
  lemma SlotsOfDraw(goal: Goal, services: Services, rows: seq<Candidate>, drawn: seq<Candidate>)
    requires |drawn| == |rows|
    ensures |SlotsOf(goal, services, drawn)| == |SlotsOf(goal, services, rows)| <= |rows|
    ensures var slots := SlotsOf(goal, services, drawn);
            forall i | 0 <= i < |slots| :: slots[i].candidate == drawn[i]
  {
    var a, b := services.(candidates := rows), services.(candidates := drawn);
    assert forall i :: a.TimeOf(i) == b.TimeOf(i);
  }

  lemma {:induction false} TwiceIn(s: seq<Candidate>, x: Candidate)
    requires multiset(s)[x] >= 2
    ensures exists i, j :: 0 <= i < j < |s| && s[i] == x && s[j] == x
  {
    var last := |s| - 1;
    assert s == s[..last] + [s[last]];
    if s[last] == x {
      assert x in s[..last];
      var i :| 0 <= i < last && s[i] == x;
      assert s[i] == x && s[last] == x;
    } else {
      TwiceIn(s[..last], x);
    }
  }

  lemma DrawnDistinct(rows: seq<Candidate>, drawn: seq<Candidate>)
    requires multiset(drawn) == multiset(rows) && DistinctDevices(rows)
    ensures DistinctDevices(drawn)
  {
    forall i, j | 0 <= i < j < |drawn|
      ensures drawn[i].device != drawn[j].device
    {
      var x, y := drawn[i], drawn[j];
      assert drawn == drawn[..i] + [x] + drawn[i + 1..j] + [y] + drawn[j + 1..];
      if x == y {
        TwiceIn(rows, x);
      } else {
        assert x in multiset(rows) && y in multiset(rows);
      }
    }
  }

  /** Two candidates on one device can be drawn first. */
  lemma SharedFirst(rows: seq<Candidate>, i: nat, j: nat) returns (drawn: seq<Candidate>)
    requires i < j < |rows|
    ensures multiset(drawn) == multiset(rows) && |drawn| == |rows|
    ensures drawn[0] == rows[i] && drawn[1] == rows[j]
  {
    drawn := [rows[i], rows[j]] + rows[..i] + rows[i + 1..j] + rows[j + 1..];
    assert rows == rows[..i] + [rows[i]] + rows[i + 1..j] + [rows[j]] + rows[j + 1..];
  }

  /**
    Whatever the order in which the candidates are drawn, no device gets two runs of a round if and
    only if there is at most one slot or no device has two active accounts.
   */
  lemma OneRunPerDeviceIff(goal: Goal, services: Services, rows: seq<Candidate>)
    ensures (forall drawn | multiset(drawn) == multiset(rows) :: OneEach(SlotsOf(goal, services, drawn)))
            <==> |SlotsOf(goal, services, rows)| <= 1 || DistinctDevices(rows)
  {
    if |SlotsOf(goal, services, rows)| > 1 && !DistinctDevices(rows) {
      var i, j :| 0 <= i < j < |rows| && rows[i].device == rows[j].device;
      var drawn := SharedFirst(rows, i, j);
      SlotsOfDraw(goal, services, rows, drawn);
      assert !OneEach(SlotsOf(goal, services, drawn));
    } else {
      forall drawn | multiset(drawn) == multiset(rows)
        ensures OneEach(SlotsOf(goal, services, drawn))
      {
        assert |drawn| == |multiset(drawn)|;
        SlotsOfDraw(goal, services, rows, drawn);
        if DistinctDevices(rows) {
          DrawnDistinct(rows, drawn);
        }
      }
    }
  }

  function NewRuns(first: nat, round: nat, slots: seq<Option<Slot>>, n: nat, now: real): (r: seq<Run>)
    requires n <= |slots|
    ensures |r| == n
  {
    if n == 0 then []
    else NewRuns(first, round, slots, n - 1, now) + [Run(first + n - 1, round, true, slots[n - 1], None, now, None)]
  }

  lemma {:induction false} NewRunsAre(first: nat, round: nat, slots: seq<Option<Slot>>, n: nat, now: real, i: nat)
    requires i < n <= |slots|
    ensures NewRuns(first, round, slots, n, now)[i] == Run(first + i, round, true, slots[i], None, now, None)
  {
    if i < n - 1 {
      NewRunsAre(first, round, slots, n - 1, now, i);
    }
  }

  // ----- waiting -----

  function RunningIn(runs: seq<Run>, round: nat, n: nat): nat
    requires n <= |runs|
  {
    if n == 0 then 0
    else RunningIn(runs, round, n - 1) + if runs[n - 1].round == round && runs[n - 1].running then 1 else 0
  }

  predicate RunsDone(db: Db, round: nat) { RunningIn(db.runs, round, |db.runs|) == 0 }

  predicate OfRound(runs: seq<Run>, round: nat, note: Note)
  {
    note.runId.Some? && exists i | 0 <= i < |runs| :: runs[i].round == round && runs[i].id == note.runId.value
  }

  /** A published note of the round whose numbers may still come. */
  predicate Awaited(db: Db, round: nat, now: real, note: Note)
  {
    && OfRound(db.runs, round, note) && note.published && note.collectedAt.None?
    && note.scheduledCollectAt.Some? && note.scheduledCollectAt.value > now - COLLECT_GRACE
  }

  function AwaitedCount(db: Db, round: nat, now: real, n: nat): nat
    requires n <= |db.notes|
  {
    if n == 0 then 0
    else AwaitedCount(db, round, now, n - 1) + if Awaited(db, round, now, db.notes[n - 1]) then 1 else 0
  }

  predicate CollectDone(db: Db, round: nat, now: real)
  {
    RoundRuns(db.runs, round, |db.runs|) == [] || AwaitedCount(db, round, now, |db.notes|) == 0
  }

  lemma {:induction false} RunningInIs(runs: seq<Run>, round: nat, n: nat)
    requires n <= |runs|
    ensures RunningIn(runs, round, n) == 0 <==> forall i | 0 <= i < n && runs[i].round == round :: !runs[i].running
  {
    if n > 0 {
      RunningInIs(runs, round, n - 1);
    }
  }

  /** A run of an older round that is still running does not hold the current one. */
  lemma RunsDoneExactly(db: Db, round: nat)
    ensures RunsDone(db, round) <==> forall i | 0 <= i < |db.runs| && db.runs[i].round == round :: !db.runs[i].running
  {
    RunningInIs(db.runs, round, |db.runs|);
  }

  lemma {:induction false} AwaitedCountIs(db: Db, round: nat, now: real, n: nat)
    requires n <= |db.notes|
    ensures AwaitedCount(db, round, now, n) == 0 <==> forall i | 0 <= i < n :: !Awaited(db, round, now, db.notes[i])
  {
    if n > 0 {
      AwaitedCountIs(db, round, now, n - 1);
    }
  }

  lemma {:induction false} NoRunsOfRound(runs: seq<Run>, round: nat, n: nat)
    requires n <= |runs|
    ensures RoundRuns(runs, round, n) == [] <==> forall i | 0 <= i < n :: runs[i].round != round
  {
    if n > 0 {
      NoRunsOfRound(runs, round, n - 1);
    }
  }

  /** The wait ends exactly when every published note of the round is collected, unscheduled, or six hours late. */
  lemma CollectDoneExactly(db: Db, round: nat, now: real)
    ensures CollectDone(db, round, now) <==>
            forall i, r | 0 <= i < |db.notes| && 0 <= r < |db.runs| && db.notes[i].published
                          && db.runs[r].round == round && db.notes[i].runId == Some(db.runs[r].id) ::
              || db.notes[i].collectedAt.Some?
              || db.notes[i].scheduledCollectAt.None?
              || now >= db.notes[i].scheduledCollectAt.value + 21600.0
  {
    NoRunsOfRound(db.runs, round, |db.runs|);
    AwaitedCountIs(db, round, now, |db.notes|);
    forall i | 0 <= i < |db.notes|
      ensures Awaited(db, round, now, db.notes[i]) <==>
              && OfRound(db.runs, round, db.notes[i]) && db.notes[i].published
              && db.notes[i].collectedAt.None? && db.notes[i].scheduledCollectAt.Some?
              && now < db.notes[i].scheduledCollectAt.value + 21600.0
      ensures OfRound(db.runs, round, db.notes[i]) <==> exists r ::
                0 <= r < |db.runs| && db.runs[r].round == round && db.notes[i].runId == Some(db.runs[r].id)
    {
    }
  }

  // ----- the row of a round -----

  function RowIndex(rounds: seq<RoundRow>, number: nat, n: nat): (r: Option<nat>)
    requires n <= |rounds|
    ensures r.Some? ==> r.value < n && rounds[r.value].number == number
    ensures r.Some? ==> forall i | 0 <= i < r.value :: rounds[i].number != number
    ensures r.None? ==> forall i | 0 <= i < n :: rounds[i].number != number
  {
    if n == 0 then None
    else
      var earlier := RowIndex(rounds, number, n - 1);
      if earlier.Some? then earlier else if rounds[n - 1].number == number then Some(n - 1) else None
  }

  /** A round without a row is not written. */
  function Written(rounds: seq<RoundRow>, number: nat, kpi: RoundKpi): seq<RoundRow>
  {
    var i := RowIndex(rounds, number, |rounds|);
    if i.None? then rounds
    else rounds[i.value := rounds[i.value].(kpi := Some(kpi), notesCreated := kpi.notesCount,
                                            totalViews := kpi.totals.views, totalLikes := kpi.totals.likes,
                                            ended := true)]
  }

  function Loaded(rounds: seq<RoundRow>, number: nat): Option<RoundKpi>
  {
    var i := RowIndex(rounds, number, |rounds|);
    if i.None? then None else rounds[i.value].kpi
  }

  /** What is written for a round is what is loaded for it, and other rounds are left alone. */
  lemma WrittenIsLoaded(rounds: seq<RoundRow>, number: nat, kpi: RoundKpi, other: nat)
    requires exists i :: 0 <= i < |rounds| && rounds[i].number == number
    ensures Loaded(Written(rounds, number, kpi), number) == Some(kpi)
    ensures other != number ==> Loaded(Written(rounds, number, kpi), other) == Loaded(rounds, other)
  {
    SameNumbersSameRow(rounds, Written(rounds, number, kpi), number, |rounds|);
    SameNumbersSameRow(rounds, Written(rounds, number, kpi), other, |rounds|);
  }

  lemma {:induction false} SameNumbersSameRow(rounds: seq<RoundRow>, others: seq<RoundRow>, number: nat, n: nat)
    requires n <= |rounds| == |others| && forall i | 0 <= i < |rounds| :: rounds[i].number == others[i].number
    ensures RowIndex(rounds, number, n) == RowIndex(others, number, n)
  {
    if n > 0 {
      SameNumbersSameRow(rounds, others, number, n - 1);
    }
  }

  // ----- deciding -----

  function Target(goal: Goal): int
  {
    if goal.targetLikes.Some? && goal.targetLikes.value != 0 then goal.targetLikes.value else LIKES_TARGET
  }

  function LikesOf(kpi: Option<RoundKpi>): int { if kpi.Some? then kpi.value.totals.likes else 0 }

  /** By the dimensions where the stored KPI has them, by the likes where it does not. */
  predicate KpiMet(goal: Goal, kpi: Option<RoundKpi>)
  {
    if kpi.Some? && kpi.value.dimensions.Some? then
      !Kpi.ShouldContinue(kpi.value.dimensions.value, Target(goal), 0, 0)
    else LikesOf(kpi) >= Target(goal)
  }

  datatype Decision = Decision(goOn: bool, kpiMet: bool)

  function Decide(goal: Goal, kpi: Option<RoundKpi>, now: real): Decision
  {
    var met := KpiMet(goal, kpi);
    if goal.deadline.Some? && now >= goal.deadline.value then Decision(false, met)
    else if met then Decision(false, true)
    else if goal.currentRound >= goal.maxRounds then Decision(false, false)
    else Decision(true, false)
  }

  /** The stored dimensions carry the stored totals. */
  ghost predicate Sound(kpi: Option<RoundKpi>)
  {
    kpi.Some? && kpi.value.dimensions.Some? ==> kpi.value.dimensions.value.engagement == kpi.value.totals
  }

  /** Both tests read the likes; a goal goes on exactly if nothing stops it. */
  lemma DecidesExactly(goal: Goal, kpi: Option<RoundKpi>, now: real)
    requires Sound(kpi)
    ensures var d, likes := Decide(goal, kpi, now), if kpi.Some? then kpi.value.totals.likes else 0;
            && (forall t | goal.targetLikes == Some(t) && t != 0 :: d.kpiMet <==> likes >= t)
            && (goal.targetLikes == None || goal.targetLikes == Some(0) ==> (d.kpiMet <==> likes >= 500))
            && (d.goOn <==> && !(goal.deadline.Some? && now >= goal.deadline.value)
                            && !d.kpiMet && goal.currentRound < goal.maxRounds)
  {
    if kpi.Some? && kpi.value.dimensions.Some? {
      DefaultsLookAtLikes(kpi.value.dimensions.value, Target(goal));
    }
  }

  // ----- the machine -----

  datatype State = State(goal: Goal, rounds: seq<RoundRow>, db: Db, nextRun: nat, now: real)

  /** `kpi` is what a call gathers, if it gathers. */
  datatype Step =
    | Advance(services: Option<Services>, kpi: RoundKpi)
    | World(db: Db, nextRun: nat, now: real)

  function Moved(s: State, phase: Phase): State { s.(goal := s.goal.(phase := phase)) }

  function Prepared(s: State, services: Option<Services>): State
  {
    var slots, round := RunsToCreate(s.goal, services), s.goal.currentRound;
    Moved(s, Executing).(rounds := s.rounds + [RoundRow(round, None, 0, 0, 0, false)],
                         db := s.db.(runs := s.db.runs + NewRuns(s.nextRun, round, slots, |slots|, s.now)),
                         nextRun := s.nextRun + |slots|)
  }

  function Decided(s: State): State
  {
    var d := Decide(s.goal, Loaded(s.rounds, s.goal.currentRound), s.now);
    if d.goOn then s.(goal := s.goal.(phase := Preparing, currentRound := s.goal.currentRound + 1))
    else s.(goal := s.goal.(phase := Done, status := if d.kpiMet then Achieved else Failed))
  }

  /** One call of `AdvanceGoal`. */
  function Advanced(s: State, services: Option<Services>, kpi: RoundKpi): State
  {
    var round := s.goal.currentRound;
    match s.goal.phase
    case Pending => Moved(s, Preparing)
    case Preparing => Prepared(s, services)
    case Executing => if RunsDone(s.db, round) then Moved(s, Monitoring) else s
    case Monitoring =>
      if CollectDone(s.db, round, s.now) then Moved(s, Summarizing).(rounds := Written(s.rounds, round, kpi)) else s
    case Summarizing => Moved(s, Deciding)
    case Deciding => Decided(s)
    case Done => s
  }

  /** A call on a goal that is preparing opens the round: its row, and its runs, each running and of this round. */
  lemma OpensRound(s: State, services: Option<Services>, kpi: RoundKpi)
    requires s.goal.phase == Preparing
    ensures var t, slots := Advanced(s, services, kpi), RunsToCreate(s.goal, services);
            && t.goal == s.goal.(phase := Executing) && t.nextRun == s.nextRun + |slots|
            && t.rounds == s.rounds + [RoundRow(s.goal.currentRound, None, 0, 0, 0, false)]
            && t.db.notes == s.db.notes && t.db.metrics == s.db.metrics
            && |t.db.runs| == |s.db.runs| + |slots| && s.db.runs <= t.db.runs
            && forall i | 0 <= i < |slots| ::
                 t.db.runs[|s.db.runs| + i]
                 == Run(s.nextRun + i, s.goal.currentRound, true, slots[i], None, s.now, None)
  {
    var slots := RunsToCreate(s.goal, services);
    forall i | 0 <= i < |slots|
      ensures NewRuns(s.nextRun, s.goal.currentRound, slots, |slots|, s.now)[i]
              == Run(s.nextRun + i, s.goal.currentRound, true, slots[i], None, s.now, None)
    {
      NewRunsAre(s.nextRun, s.goal.currentRound, slots, |slots|, s.now, i);
    }
  }

  ghost predicate Gathers(s: State)
  {
    s.goal.phase == Monitoring && CollectDone(s.db, s.goal.currentRound, s.now)
  }

  function RunsNow(s: State): seq<Run> { RoundRuns(s.db.runs, s.goal.currentRound, |s.db.runs|) }

  ghost predicate Next(s: State, step: Step, t: State)
  {
    match step
    case Advance(services, kpi) =>
      (Gathers(s) ==> IsRoundKpi(s.db, RunsNow(s), kpi)) && t == Advanced(s, services, kpi)
    case World(db, nextRun, now) =>
      now >= s.now && UniqueIds(db.notes) && t == s.(db := db, nextRun := nextRun, now := now)
  }

  ghost predicate Initial(s: State)
  {
    && s.goal.phase == Pending && s.goal.status == Active && s.goal.currentRound == 1 && s.goal.maxRounds >= 1
    && s.rounds == [] && UniqueIds(s.db.notes)
  }

  // ----- what every step keeps -----

  /** The round counter is in range, and the round table holds exactly the rounds opened so far. */
  ghost predicate Bookkept(g: Goal, rounds: seq<RoundRow>)
  {
    && 1 <= g.currentRound <= g.maxRounds
    && |rounds| == (if g.phase == Pending || g.phase == Preparing then g.currentRound - 1 else g.currentRound)
    && (forall i | 0 <= i < |rounds| :: rounds[i].number == i + 1)
    && (g.phase == Pending ==> g.currentRound == 1)
  }

  /** A round has its KPI once it has been monitored, and not before. */
  ghost predicate Measured(g: Goal, rounds: seq<RoundRow>)
  {
    forall i | 0 <= i < |rounds| ::
      && Sound(rounds[i].kpi)
      && (rounds[i].kpi.Some? <==> i + 1 < g.currentRound || g.phase in {Summarizing, Deciding, Done})
  }

  ghost predicate Inv(s: State)
  {
    && UniqueIds(s.db.notes)
    && Bookkept(s.goal, s.rounds)
    && Measured(s.goal, s.rounds)
    && (s.goal.phase != Done ==> s.goal.status == Active)
    && (s.goal.phase == Done ==>
          s.goal.status
          == if LikesOf(Loaded(s.rounds, s.goal.currentRound)) >= Target(s.goal) then Achieved else Failed)
  }

  lemma LastRow(g: Goal, rounds: seq<RoundRow>)
    requires Bookkept(g, rounds) && g.phase != Pending && g.phase != Preparing
    ensures RowIndex(rounds, g.currentRound, |rounds|) == Some(g.currentRound - 1)
  {
    RowAt(rounds, g.currentRound, |rounds|);
  }

  lemma {:induction false} RowAt(rounds: seq<RoundRow>, number: nat, n: nat)
    requires n <= |rounds| && forall i | 0 <= i < |rounds| :: rounds[i].number == i + 1
    ensures RowIndex(rounds, number, n) == if 1 <= number <= n then Some(number - 1) else None
  {
    if n > 0 {
      RowAt(rounds, number, n - 1);
    }
  }

  lemma PreparedKeeps(s: State, services: Option<Services>)
    requires Inv(s) && s.goal.phase == Preparing
    ensures Inv(Prepared(s, services))
  {
  }

  lemma WrittenKeeps(s: State, kpi: RoundKpi)
    requires Inv(s) && Gathers(s) && IsRoundKpi(s.db, RunsNow(s), kpi)
    ensures Inv(Moved(s, Summarizing).(rounds := Written(s.rounds, s.goal.currentRound, kpi)))
  {
    LastRow(s.goal, s.rounds);
  }

  lemma DecidedKeeps(s: State)
    requires Inv(s) && s.goal.phase == Deciding
    ensures Inv(Decided(s))
  {
    LastRow(s.goal, s.rounds);
    DecidesExactly(s.goal, Loaded(s.rounds, s.goal.currentRound), s.now);
  }

  lemma InvStep(s: State, step: Step, t: State)
    requires Inv(s) && Next(s, step, t)
    ensures Inv(t)
  {
    if step.Advance? {
      match s.goal.phase
      case Preparing => PreparedKeeps(s, step.services);
      case Monitoring =>
        if Gathers(s) {
          WrittenKeeps(s, step.kpi);
        }
      case Deciding => DecidedKeeps(s);
      case _ =>
    }
  }

  // ----- whole runs -----

  ghost predicate Linked(states: seq<State>, steps: seq<Step>)
  {
    && |states| == |steps| + 1
    && forall i | 0 <= i < |steps| :: Next(states[i], steps[i], states[i + 1])
  }

  ghost predicate IsRun(states: seq<State>, steps: seq<Step>)
  {
    Linked(states, steps) && Initial(states[0])
  }

  function Glued(states: seq<State>, more: seq<State>): seq<State>
    requires |more| > 0
  {
    states + more[1..]
  }

  /** A run goes on where another stretch of calls begins. */
  lemma Joined(states: seq<State>, steps: seq<Step>, more: seq<State>, last: seq<Step>)
    requires Linked(states, steps) && Linked(more, last) && states[|steps|] == more[0]
    ensures Linked(Glued(states, more), steps + last)
    ensures Glued(states, more)[0] == states[0] && Glued(states, more)[|steps| + |last|] == more[|last|]
  {
    forall i | 0 <= i < |steps| + |last|
      ensures Next(Glued(states, more)[i], (steps + last)[i], Glued(states, more)[i + 1])
    {
      if i < |steps| {
        assert Next(states[i], steps[i], states[i + 1]);
      } else {
        assert Next(more[i - |steps|], last[i - |steps|], more[i - |steps| + 1]);
      }
    }
  }

  lemma {:induction false} InvAlways(states: seq<State>, steps: seq<Step>, n: nat)
    requires IsRun(states, steps) && n < |states|
    ensures Inv(states[n])
  {
    if n > 0 {
      InvAlways(states, steps, n - 1);
      InvStep(states[n - 1], steps[n - 1], states[n]);
    }
  }

  /** How often the phase has changed within the first `n` steps. */
  function PhaseChanges(states: seq<State>, n: nat): nat
    requires n < |states|
  {
    if n == 0 then 0
    else PhaseChanges(states, n - 1) + if states[n].goal.phase != states[n - 1].goal.phase then 1 else 0
  }

  function PhaseIndex(phase: Phase): nat
  {
    match phase
    case Pending => 0
    case Preparing => 1
    case Executing => 2
    case Monitoring => 3
    case Summarizing => 4
    case Deciding => 5
    case Done => 6
  }

  function Progress(g: Goal): int { 5 * (g.currentRound - 1) + PhaseIndex(g.phase) }

  lemma ProgressStep(s: State, step: Step, t: State)
    requires Inv(s) && Next(s, step, t)
    ensures Progress(t.goal) == Progress(s.goal) + if t.goal.phase != s.goal.phase then 1 else 0
  {
  }

  /** The phase changes made so far are exactly those that lead to the current phase and round. */
  lemma {:induction false} PhaseChangesExactly(states: seq<State>, steps: seq<Step>, n: nat)
    requires IsRun(states, steps) && n < |states|
    ensures PhaseChanges(states, n) == Progress(states[n].goal)
  {
    if n > 0 {
      PhaseChangesExactly(states, steps, n - 1);
      InvAlways(states, steps, n - 1);
      ProgressStep(states[n - 1], steps[n - 1], states[n]);
    }
  }

  predicate SameTerms(g: Goal, h: Goal)
  {
    && g.maxRounds == h.maxRounds && g.deadline == h.deadline && g.targetLikes == h.targetLikes
    && g.notesPerRound == h.notesPerRound && g.hasBusiness == h.hasBusiness
  }

  lemma TermsStep(s: State, step: Step, t: State)
    requires Next(s, step, t)
    ensures SameTerms(s.goal, t.goal)
  {
  }

  lemma {:induction false} TermsKept(states: seq<State>, steps: seq<Step>, n: nat)
    requires IsRun(states, steps) && n < |states|
    ensures SameTerms(states[0].goal, states[n].goal)
  {
    if n > 0 {
      TermsKept(states, steps, n - 1);
      TermsStep(states[n - 1], steps[n - 1], states[n]);
    }
  }

  /**
    A goal of R rounds changes phase at most 5R + 1 times, is done after that many changes, and
    a goal done in round r has changed phase exactly 5r + 1 times.
   */
  lemma DoneWithin(states: seq<State>, steps: seq<Step>, n: nat)
    requires IsRun(states, steps) && n < |states|
    ensures var changes, g := PhaseChanges(states, n), states[n].goal;
            && changes <= 5 * states[0].goal.maxRounds + 1
            && (changes == 5 * states[0].goal.maxRounds + 1 ==> g.phase == Done)
            && (g.phase == Done <==> changes == 5 * g.currentRound + 1)
  {
    PhaseChangesExactly(states, steps, n);
    TermsKept(states, steps, n);
    InvAlways(states, steps, n);
  }

  /** A call changes the phase unless the goal is done or waits, for a run or for a note's numbers. */
  lemma StandsStillExactly(s: State, services: Option<Services>, kpi: RoundKpi)
    ensures Advanced(s, services, kpi).goal.phase == s.goal.phase <==>
            || s.goal.phase == Done
            || (s.goal.phase == Executing && exists i ::
                  0 <= i < |s.db.runs| && s.db.runs[i].round == s.goal.currentRound && s.db.runs[i].running)
            || (s.goal.phase == Monitoring && exists i ::
                  0 <= i < |s.db.notes| && Awaited(s.db, s.goal.currentRound, s.now, s.db.notes[i]))
    ensures Advanced(s, services, kpi).goal.phase == s.goal.phase ==> Advanced(s, services, kpi) == s
  {
    RunsDoneExactly(s.db, s.goal.currentRound);
    AwaitedCountIs(s.db, s.goal.currentRound, s.now, |s.db.notes|);
    NoRunsOfRound(s.db.runs, s.goal.currentRound, |s.db.runs|);
  }

  // ----- what a goal ends with -----

  /** The KPI stored for the current round is what its own monitoring call gathered. */
  ghost predicate GatheredAt(states: seq<State>, steps: seq<Step>, i: nat, n: nat)
    requires |states| == |steps| + 1 && i < n < |states|
  {
    && steps[i].Advance? && Gathers(states[i])
    && states[i].goal.currentRound == states[n].goal.currentRound
    && IsRoundKpi(states[i].db, RunsNow(states[i]), steps[i].kpi)
    && Loaded(states[n].rounds, states[n].goal.currentRound) == Some(steps[i].kpi)
  }

  /** A goal comes to its last three phases by gathering, and keeps what it gathered in them. */
  lemma CameByGathering(s: State, step: Step, t: State)
    requires Next(s, step, t) && t.goal.phase in {Summarizing, Deciding, Done}
    ensures t.goal.currentRound == s.goal.currentRound
    ensures if s.goal.phase == Monitoring then
              step.Advance? && Gathers(s) && t.rounds == Written(s.rounds, s.goal.currentRound, step.kpi)
            else s.goal.phase in {Summarizing, Deciding, Done} && t.rounds == s.rounds
  {
  }

  lemma {:induction false} LastKpiGathered(states: seq<State>, steps: seq<Step>, n: nat) returns (i: nat)
    requires IsRun(states, steps) && n < |states| && states[n].goal.phase in {Summarizing, Deciding, Done}
    ensures i < n && GatheredAt(states, steps, i, n)
  {
    assert n > 0;
    assert Next(states[n - 1], steps[n - 1], states[n]);
    CameByGathering(states[n - 1], steps[n - 1], states[n]);
    if states[n - 1].goal.phase == Monitoring {
      i := n - 1;
      InvAlways(states, steps, n - 1);
    } else {
      i := LastKpiGathered(states, steps, n - 1);
    }
  }

  /** The notes that the runs of the current round stand for. */
  function ResolvedIds(s: State): set<nat> { NoteIds(s.db.notes, RunsNow(s), |RunsNow(s)|) }

  /**
    A goal ends achieved exactly if the latest likes of the distinct notes that the runs of its last
    round resolve to, as they stood when that round was monitored, sum up to the target.
   */
  lemma AchievedExactly(states: seq<State>, steps: seq<Step>, n: nat) returns (i: nat)
    requires IsRun(states, steps) && n < |states| && states[n].goal.phase == Done
    ensures i < n && Gathers(states[i]) && states[i].goal.currentRound == states[n].goal.currentRound
    ensures UniqueIds(states[i].db.notes)
    ensures states[n].goal.status == Achieved || states[n].goal.status == Failed
    ensures var db, ids, target := states[i].db, ResolvedIds(states[i]), states[0].goal.targetLikes;
            var likes := TotalOver(db, ids, |db.notes|).likes;
            && (forall t | target == Some(t) && t != 0 :: states[n].goal.status == Achieved <==> likes >= t)
            && (target == None || target == Some(0) ==> (states[n].goal.status == Achieved <==> likes >= 500))
  {
    i := LastKpiGathered(states, steps, n);
    InvAlways(states, steps, i);
    InvAlways(states, steps, n);
    TermsKept(states, steps, n);
  }

  /** The notes of the current round: those that a run of the round wrote. */
  ghost function RoundIds(s: State): set<nat>
  {
    set i | 0 <= i < |s.db.notes| && OfRound(s.db.runs, s.goal.currentRound, s.db.notes[i]) :: s.db.notes[i].id
  }

  lemma {:induction false} RoundRunsAre(runs: seq<Run>, round: nat, n: nat, run: Run)
    requires n <= |runs|
    ensures run in RoundRuns(runs, round, n) <==> exists i :: 0 <= i < n && runs[i] == run && run.round == round
  {
    if n > 0 {
      RoundRunsAre(runs, round, n - 1, run);
    }
  }

  /** A note is of the round exactly if one of the runs of the round wrote it. */
  lemma OfRoundIff(runs: seq<Run>, round: nat, note: Note)
    ensures OfRound(runs, round, note) <==> WrittenBy(RoundRuns(runs, round, |runs|), note)
  {
    var own := RoundRuns(runs, round, |runs|);
    if OfRound(runs, round, note) {
      var i :| 0 <= i < |runs| && runs[i].round == round && runs[i].id == note.runId.value;
      RoundRunsAre(runs, round, |runs|, runs[i]);
      var r :| 0 <= r < |own| && own[r] == runs[i];
    }
    if WrittenBy(own, note) {
      var r :| 0 <= r < |own| && own[r].id == note.runId.value;
      RoundRunsAre(runs, round, |runs|, own[r]);
    }
  }

  /** The notes counted are exactly the notes of the round if and only if the fallbacks stay inside it. */
  lemma CountsRoundIff(s: State)
    requires UniqueIds(s.db.notes)
    ensures ResolvedIds(s) == RoundIds(s) <==> StaysInside(s.db.notes, RunsNow(s))
  {
    forall i | 0 <= i < |s.db.notes|
      ensures OfRound(s.db.runs, s.goal.currentRound, s.db.notes[i]) <==> WrittenBy(RunsNow(s), s.db.notes[i])
    {
      OfRoundIff(s.db.runs, s.goal.currentRound, s.db.notes[i]);
    }
    assert RoundIds(s) == OwnIds(s.db.notes, RunsNow(s));
    CountsOwnIff(s.db.notes, RunsNow(s));
  }

  /** When the fallbacks stay inside the round, a goal is achieved by its own notes alone. */
  lemma AchievedByOwnNotes(states: seq<State>, steps: seq<Step>, n: nat) returns (i: nat)
    requires IsRun(states, steps) && n < |states| && states[n].goal.phase == Done
    ensures i < n && Gathers(states[i]) && states[i].goal.currentRound == states[n].goal.currentRound
    ensures var db, ids, target := states[i].db, RoundIds(states[i]), states[0].goal.targetLikes;
            var likes := TotalOver(db, ids, |db.notes|).likes;
            StaysInside(db.notes, RunsNow(states[i])) ==>
              && (forall t | target == Some(t) && t != 0 :: states[n].goal.status == Achieved <==> likes >= t)
              && (target == None || target == Some(0) ==> (states[n].goal.status == Achieved <==> likes >= 500))
  {
    i := AchievedExactly(states, steps, n);
    CountsRoundIff(states[i]);
  }

  // ----- a goal achieved by a note that none of its runs wrote -----

  /** A run that wrote nothing, and a note of some other run from the same five minutes. */
  const IDLE_RUN := Run(0, 1, false, None, None, 0.0, Some(10.0))
  const STRANGER := Note(7, Some(99), true, 5.0, None, None)
  const LIKED := Totals(0, LIKES_TARGET, 0, 0, 0)
  const STRANGER_DB := Db([IDLE_RUN], [STRANGER], [Metric(7, 5.0, LIKED)])

  lemma StrangerResolved()
    ensures Resolve(STRANGER_DB.notes, IDLE_RUN) == Some(STRANGER)
    ensures NoteIds(STRANGER_DB.notes, [IDLE_RUN], 1) == {7}
  {
    var notes := STRANGER_DB.notes;
    assert ByRun(notes, 0, 0) == None && Newest(notes, IDLE_RUN, 0) == None;
    assert NoteIds(notes, [IDLE_RUN], 0) == {};
  }

  lemma StrangerLiked()
    ensures TotalOver(STRANGER_DB, {7}, 1) == LIKED
  {
    var metrics := STRANGER_DB.metrics;
    assert Latest(metrics, 7, 0) == None;
    assert Latest(metrics, 7, 1) == Some(metrics[0]);
    assert TotalOver(STRANGER_DB, {7}, 0) == ZERO;
  }

  /** At no moment is there a note of the current round. */
  ghost predicate NoneWritten(states: seq<State>)
  {
    forall i, k | 0 <= i < |states| && 0 <= k < |states[i].db.notes| ::
      !OfRound(states[i].db.runs, states[i].goal.currentRound, states[i].db.notes[k])
  }

  const ONE_ROUND := Goal(Pending, 1, 1, Active, false, None, None, Some(1))
  const OPENED := State(ONE_ROUND, [], Db([], [], []), 0, 0.0)

  /** The round opens one run, which ends while the other run writes its note. */
  lemma StrangerArrives(kpi: RoundKpi) returns (states: seq<State>, steps: seq<Step>)
    ensures |steps| == 3 && Linked(states, steps) && states[0] == OPENED
    ensures NoneWritten(states)
    ensures var s := states[3];
            && s.goal == ONE_ROUND.(phase := Executing) && s.db == STRANGER_DB
            && s.rounds == [RoundRow(1, None, 0, 0, 0, false)]
  {
    var call := Advance(None, kpi);
    var preparing := Advanced(OPENED, None, kpi);
    var executing := Advanced(preparing, None, kpi);
    states := [OPENED, preparing, executing, executing.(db := STRANGER_DB, now := 10.0)];
    steps := [call, call, World(STRANGER_DB, executing.nextRun, 10.0)];
  }

  /** Its run has ended, and no note of the round is waited for, as there is none. */
  lemma StrangerAwaits(now: real)
    ensures RunsDone(STRANGER_DB, 1) && CollectDone(STRANGER_DB, 1, now)
    ensures RoundRuns(STRANGER_DB.runs, 1, 1) == [IDLE_RUN]
    ensures !OfRound(STRANGER_DB.runs, 1, STRANGER)
  {
    assert RunningIn(STRANGER_DB.runs, 1, 0) == 0;
    assert AwaitedCount(STRANGER_DB, 1, now, 0) == 0;
    assert RoundRuns(STRANGER_DB.runs, 1, 0) == [];
  }

  /** Two calls measure the round. */
  lemma StrangerMeasured(s: State, kpi: RoundKpi) returns (states: seq<State>, steps: seq<Step>)
    requires s.goal == ONE_ROUND.(phase := Executing) && s.db == STRANGER_DB
    requires s.rounds == [RoundRow(1, None, 0, 0, 0, false)]
    requires IsRoundKpi(STRANGER_DB, [IDLE_RUN], kpi)
    ensures |steps| == 2 && Linked(states, steps) && states[0] == s
    ensures NoneWritten(states)
    ensures states[2].goal == ONE_ROUND.(phase := Summarizing) && states[2].db == STRANGER_DB
    ensures Loaded(states[2].rounds, 1) == Some(kpi)
  {
    StrangerAwaits(s.now);
    var monitoring := Moved(s, Monitoring);
    assert Next(s, Advance(None, kpi), monitoring);
    assert s.rounds[0].number == 1;
    WrittenIsLoaded(s.rounds, 1, kpi, 0);
    states := [s, monitoring, Advanced(monitoring, None, kpi)];
    steps := [Advance(None, kpi), Advance(None, kpi)];
  }

  /** Two more decide it. */
  lemma StrangerDecides(s: State, kpi: RoundKpi) returns (states: seq<State>, steps: seq<Step>)
    requires s.goal == ONE_ROUND.(phase := Summarizing) && s.db == STRANGER_DB
    requires Loaded(s.rounds, 1) == Some(kpi) && Sound(Some(kpi)) && kpi.totals.likes == LIKES_TARGET
    ensures |steps| == 2 && Linked(states, steps) && states[0] == s
    ensures NoneWritten(states)
    ensures states[2].goal.phase == Done && states[2].goal.status == Achieved
  {
    var deciding := Moved(s, Deciding);
    DecidesExactly(deciding.goal, Some(kpi), deciding.now);
    states := [s, deciding, Decided(deciding)];
    steps := [Advance(None, kpi), Advance(None, kpi)];
  }

  lemma StrangerLikes(kpi: RoundKpi)
    requires IsRoundKpi(STRANGER_DB, [IDLE_RUN], kpi)
    ensures Sound(Some(kpi)) && kpi.totals.likes == LIKES_TARGET
  {
    StrangerResolved();
    StrangerLiked();
  }

  /** So a goal can end achieved although no run of it ever wrote a note. */
  lemma AchievedByStranger() returns (states: seq<State>, steps: seq<Step>)
    ensures IsRun(states, steps) && states[|steps|].goal.phase == Done && states[|steps|].goal.status == Achieved
    ensures NoneWritten(states)
  {
    var kpi := GatheringExists(STRANGER_DB, [IDLE_RUN]);
    StrangerLikes(kpi);
    var before, first := StrangerArrives(kpi);
    var measured, middle := StrangerMeasured(before[3], kpi);
    var decided, last := StrangerDecides(measured[2], kpi);
    Joined(measured, middle, decided, last);
    Joined(before, first, Glued(measured, decided), middle + last);
    states, steps := Glued(before, Glued(measured, decided)), first + (middle + last);
  }

  /** The row of a round is never rewritten once the round has its KPI. */
  lemma MeasuredRowsKept(s: State, step: Step, t: State, j: nat)
    requires Inv(s) && Next(s, step, t) && j < |s.rounds| && s.rounds[j].kpi.Some?
    ensures j < |t.rounds| && t.rounds[j] == s.rounds[j]
  {
    if Gathers(s) {
      LastRow(s.goal, s.rounds);
    }
  }

  // ----- the code -----

  class GoalOrchestrator {
    var goal: Goal
    var rounds: seq<RoundRow>
    var db: Db
    var nextRun: nat

    constructor (goal: Goal, db: Db, nextRun: nat)
      ensures this.goal == goal && this.db == db && this.nextRun == nextRun && rounds == []
    {
      this.goal, this.db, this.nextRun, rounds := goal, db, nextRun, [];
    }

    function At(now: real): State
      reads this
    {
      State(goal, rounds, db, nextRun, now)
    }

    method SetPhase(phase: Phase)
      modifies `goal
      ensures goal == old(goal).(phase := phase)
    {
      goal := goal.(phase := phase);
    }

    method AddRun(round: nat, slot: Option<Slot>, now: real)
      modifies `db, `nextRun
      ensures db == old(db).(runs := old(db).runs + [Run(old(nextRun), round, true, slot, None, now, None)])
      ensures nextRun == old(nextRun) + 1
    {
      db := db.(runs := db.runs + [Run(nextRun, round, true, slot, None, now, None)]);
      nextRun := nextRun + 1;
    }

    /** One run a slot, or as many as the goal asks for without one, and one row of the round. */
    method PrepareRound(services: Option<Services>, now: real) returns (created: nat)
      modifies `db, `nextRun, `rounds
      ensures var slots := RunsToCreate(goal, services);
              && created == |slots|
              && db == old(db).(runs := old(db).runs + NewRuns(old(nextRun), goal.currentRound, slots, created, now))
              && forall i | 0 <= i < created ::
                   db.runs[|old(db).runs| + i]
                   == Run(old(nextRun) + i, goal.currentRound, true, slots[i], None, now, None)
      ensures nextRun == old(nextRun) + created
      ensures rounds == old(rounds) + [RoundRow(goal.currentRound, None, 0, 0, 0, false)]
    {
      ghost var plan := RunsToCreate(goal, services);
      var slots := AllocateRoundSlots(goal, services);
      created := 0;
      if slots != [] {
        for i := 0 to |slots|
          invariant created == i && nextRun == old(nextRun) + i && rounds == old(rounds)
          invariant db == old(db).(runs := old(db).runs + NewRuns(old(nextRun), goal.currentRound, plan, i, now))
        {
          AddRun(goal.currentRound, Some(slots[i]), now);
          created := created + 1;
        }
      } else {
        for i := 0 to CountTarget(goal)
          invariant created == i && nextRun == old(nextRun) + i && rounds == old(rounds)
          invariant db == old(db).(runs := old(db).runs + NewRuns(old(nextRun), goal.currentRound, plan, i, now))
        {
          AddRun(goal.currentRound, None, now);
          created := created + 1;
        }
      }
      rounds := rounds + [RoundRow(goal.currentRound, None, 0, 0, 0, false)];
      forall i | 0 <= i < created
        ensures db.runs[|old(db).runs| + i]
                == Run(old(nextRun) + i, goal.currentRound, true, plan[i], None, now, None)
      {
        NewRunsAre(old(nextRun), goal.currentRound, plan, created, now, i);
      }
    }

    method WriteRoundKpi(kpi: RoundKpi)
      modifies `rounds
      ensures rounds == Written(old(rounds), goal.currentRound, kpi) && |rounds| == |old(rounds)|
      ensures forall i | 0 <= i < |rounds| ::
                if rounds[i].number == goal.currentRound
                   && forall j | 0 <= j < i :: old(rounds)[j].number != goal.currentRound
                then rounds[i] == RoundRow(old(rounds)[i].number, Some(kpi), kpi.notesCount, kpi.totals.views,
                                           kpi.totals.likes, true)
                else rounds[i] == old(rounds)[i]
    {
      var i := RowIndex(rounds, goal.currentRound, |rounds|);
      if i.None? {
        return;
      }
      var row := rounds[i.value];
      row := row.(kpi := Some(kpi), notesCreated := kpi.notesCount);
      row := row.(totalViews := kpi.totals.views, totalLikes := kpi.totals.likes, ended := true);
      rounds := rounds[i.value := row];
    }

    method StoreRoundKpi(kpi: RoundKpi, ghost now: real)
      modifies `goal, `rounds
      ensures At(now) == Moved(old(At(now)), Summarizing).(rounds := Written(old(rounds), old(goal).currentRound, kpi))
    {
      WriteRoundKpi(kpi);
      SetPhase(Summarizing);
    }

    method Monitor(now: real) returns (ghost kpi: RoundKpi)
      requires goal.phase == Monitoring && UniqueIds(db.notes)
      modifies `goal, `rounds
      ensures Gathers(old(At(now))) ==> IsRoundKpi(db, RunsNow(old(At(now))), kpi)
      ensures At(now) == Advanced(old(At(now)), None, kpi)
    {
      kpi := RoundKpi(ZERO, 0, [], None);
      if CollectDone(db, goal.currentRound, now) {
        var gathered := GatherRoundKpi(db, goal.currentRound);
        assert IsRoundKpi(db, RunsNow(old(At(now))), gathered);
        kpi := gathered;
        StoreRoundKpi(gathered, now);
      }
    }

    method Conclude(now: real)
      requires goal.phase == Deciding
      modifies `goal
      ensures At(now) == Decided(old(At(now)))
    {
      var d := Decide(goal, Loaded(rounds, goal.currentRound), now);
      if d.goOn {
        goal := goal.(currentRound := goal.currentRound + 1);
        SetPhase(Preparing);
      } else {
        SetPhase(Done);
        goal := goal.(status := if d.kpiMet then Achieved else Failed);
      }
    }

    /** One call is one step of the machine; a goal that is done is left as it is. */
    method AdvanceGoal(services: Option<Services>, now: real) returns (moved: bool, ghost kpi: RoundKpi)
      requires UniqueIds(db.notes)
      modifies this
      ensures Next(old(At(now)), Advance(services, kpi), At(now))
      ensures moved <==> goal.phase != old(goal).phase
      ensures FanoutKept(old(At(now)), At(now))
    {
      kpi := RoundKpi(ZERO, 0, [], None);
      var before := goal.phase;
      match before {
        case Pending =>
          SetPhase(Preparing);
        case Preparing =>
          FanoutBounded(goal, services);
          var created := PrepareRound(services, now);
          SetPhase(Executing);
        case Executing =>
          if RunsDone(db, goal.currentRound) {
            SetPhase(Monitoring);
          }
        case Monitoring =>
          kpi := Monitor(now);
        case Summarizing =>
          SetPhase(Deciding);
        case Deciding =>
          Conclude(now);
        case Done =>
      }
      moved := goal.phase != before;
    }
  }

  /** A call opens at most 20 runs, and only while it prepares a round. */
  ghost predicate FanoutKept(s: State, t: State)
  {
    && |s.db.runs| <= |t.db.runs| <= |s.db.runs| + MAX_ROUND_FANOUT
    && (s.goal.phase != Preparing ==> t.db.runs == s.db.runs)
  }
}
