/** The three KPI dimensions of a round (backend/matrix/agent/kpi.py). */
module Kpi {

  /** The counters of a metric, summed note by note. */
  datatype Totals = Totals(views: int, likes: int, collects: int, comments: int, follows: int)
  {
    function Plus(other: Totals): Totals
    {
      Totals(views + other.views, likes + other.likes, collects + other.collects,
             comments + other.comments, follows + other.follows)
    }

    function Engagement(): int { likes + collects + comments + follows }
  }

  const ZERO := Totals(0, 0, 0, 0, 0)

  /** One note as it is handed to `ComputeDimKpi`. */
  datatype NoteMetrics = NoteMetrics(noteId: nat, counts: Totals)

  /** A rate, kept as its fraction: it is zero when there are no views. */
  datatype Rate = Rate(part: int, views: int)
  {
    function Value(): real { if views > 0 then part as real / views as real else 0.0 }
  }

  datatype NoteRow = NoteRow(noteId: nat, counts: Totals, likeRate: Rate, engageRate: Rate)

  datatype Dimensions = Dimensions(views: int, notes: nat, engagement: Totals, total: int,
                                   conversion: Rate, likeRate: Rate, engageRate: Rate, perNote: seq<NoteRow>)

  function PerNoteRow(m: NoteMetrics): NoteRow
  {
    var c := m.counts;
    NoteRow(m.noteId, c, Rate(c.likes, c.views), Rate(c.Engagement(), c.views))
  }

  function PerNoteRows(metrics: seq<NoteMetrics>, n: nat): (r: seq<NoteRow>)
    requires n <= |metrics|
    ensures |r| == n && RowsFor(r, metrics)
    ensures forall i | 0 <= i < n :: r[i] == PerNoteRow(metrics[i])
  {
    if n == 0 then [] else PerNoteRows(metrics, n - 1) + [PerNoteRow(metrics[n - 1])]
  }

  ghost predicate RowsFor(rows: seq<NoteRow>, metrics: seq<NoteMetrics>)
  {
    && |rows| <= |metrics|
    && forall i | 0 <= i < |rows| :: rows[i].counts == metrics[i].counts
  }

  datatype Counter = Views | Likes | Collects | Comments | Follows
  {
    function Of(c: Totals): int
    {
      match this
      case Views => c.views
      case Likes => c.likes
      case Collects => c.collects
      case Comments => c.comments
      case Follows => c.follows
    }
  }

  /** One counter of the rows, summed: each dimension is summed on its own. */
  function Column(rows: seq<NoteRow>, counter: Counter, n: nat): int
    requires n <= |rows|
  {
    if n == 0 then 0 else Column(rows, counter, n - 1) + counter.Of(rows[n - 1].counts)
  }

  function Columns(rows: seq<NoteRow>): Totals
  {
    Totals(Column(rows, Views, |rows|), Column(rows, Likes, |rows|), Column(rows, Collects, |rows|),
           Column(rows, Comments, |rows|), Column(rows, Follows, |rows|))
  }

  function ComputeDimKpi(metrics: seq<NoteMetrics>): Dimensions
  {
    var rows := PerNoteRows(metrics, |metrics|);
    var t := Columns(rows);
    Dimensions(t.views, |rows|, t, t.Engagement(), Rate(t.follows, t.views), Rate(t.likes, t.views),
               Rate(t.Engagement(), t.views), rows)
  }

  /** The counters of the first `n` notes, summed as one record. */
  function Flat(metrics: seq<NoteMetrics>, n: nat): Totals
    requires n <= |metrics|
  {
    if n == 0 then ZERO else Flat(metrics, n - 1).Plus(metrics[n - 1].counts)
  }

  lemma {:induction false} ColumnIsFlat(rows: seq<NoteRow>, metrics: seq<NoteMetrics>, counter: Counter, n: nat)
    requires RowsFor(rows, metrics) && n <= |rows|
    ensures Column(rows, counter, n) == counter.Of(Flat(metrics, n))
  {
    if n > 0 {
      ColumnIsFlat(rows, metrics, counter, n - 1);
      assert rows[n - 1].counts == metrics[n - 1].counts;
    }
  }

  lemma ColumnsAreFlat(rows: seq<NoteRow>, metrics: seq<NoteMetrics>)
    requires RowsFor(rows, metrics)
    ensures Columns(rows) == Flat(metrics, |rows|)
  {
    ColumnIsFlat(rows, metrics, Views, |rows|);
    ColumnIsFlat(rows, metrics, Likes, |rows|);
    ColumnIsFlat(rows, metrics, Collects, |rows|);
    ColumnIsFlat(rows, metrics, Comments, |rows|);
    ColumnIsFlat(rows, metrics, Follows, |rows|);
  }

  /** The dimensions carry the flat totals of the notes, and their sum. */
  lemma DimensionsAreFlat(metrics: seq<NoteMetrics>)
    ensures ComputeDimKpi(metrics).engagement == Flat(metrics, |metrics|)
    ensures ComputeDimKpi(metrics).views == Flat(metrics, |metrics|).views
    ensures var t := Flat(metrics, |metrics|);
            ComputeDimKpi(metrics).total == t.likes + t.collects + t.comments + t.follows
    ensures ComputeDimKpi(metrics).notes == |metrics|
  {
    ColumnsAreFlat(PerNoteRows(metrics, |metrics|), metrics);
  }

  function EngagementSum(rows: seq<NoteRow>, n: nat): int
    requires n <= |rows|
  {
    if n == 0 then 0 else EngagementSum(rows, n - 1) + rows[n - 1].counts.Engagement()
  }

  lemma {:induction false} EngagementByNote(rows: seq<NoteRow>, metrics: seq<NoteMetrics>, n: nat)
    requires RowsFor(rows, metrics) && n <= |rows|
    ensures var t := Flat(metrics, n); EngagementSum(rows, n) == t.likes + t.collects + t.comments + t.follows
  {
    if n > 0 {
      EngagementByNote(rows, metrics, n - 1);
    }
  }

  /** Whether to go on: false as soon as one dimension meets its threshold; a zero threshold is off. */
  function ShouldContinue(d: Dimensions, targetLikes: int, minViews: int, minEngagement: int): bool
  {
    if d.engagement.likes >= targetLikes then false
    else if minViews != 0 && d.views >= minViews then false
    else if minEngagement != 0 && d.total >= minEngagement then false
    else true
  }

  /** The dimensions go on exactly as long as no threshold that is set is met. */
  lemma GoesOnExactly(d: Dimensions, targetLikes: int, minViews: int, minEngagement: int)
    ensures ShouldContinue(d, targetLikes, minViews, minEngagement) <==>
            && d.engagement.likes < targetLikes
            && (minViews == 0 || d.views < minViews)
            && (minEngagement == 0 || d.total < minEngagement)
  {
  }

  /** With the default thresholds the dimensions decide by the likes alone. */
  lemma DefaultsLookAtLikes(d: Dimensions, targetLikes: int)
    ensures ShouldContinue(d, targetLikes, 0, 0) <==> d.engagement.likes < targetLikes
  {
  }

  /** A rate times the views is what it is the rate of; without views it is zero. */
  lemma RateMeans(r: Rate)
    ensures if r.views > 0 then r.Value() * r.views as real == r.part as real else r.Value() == 0.0
  {
  }

  /** The rates of a round are those of its totals, and the rates of a note are those of its own counters. */
  lemma RatesOfRound(metrics: seq<NoteMetrics>, i: nat)
    requires i < |metrics|
    ensures var d, flat, own := ComputeDimKpi(metrics), Flat(metrics, |metrics|), metrics[i].counts;
            && d.conversion == Rate(flat.follows, flat.views)
            && d.likeRate == Rate(flat.likes, flat.views)
            && d.engageRate == Rate(flat.likes + flat.collects + flat.comments + flat.follows, flat.views)
            && d.perNote[i].noteId == metrics[i].noteId && d.perNote[i].counts == own
            && d.perNote[i].likeRate == Rate(own.likes, own.views)
            && d.perNote[i].engageRate == Rate(own.likes + own.collects + own.comments + own.follows, own.views)
  {
    DimensionsAreFlat(metrics);
  }
}
