/**
  Reciprocal rank fusion of the two retrievers (backend/matrix/kb/retrieval.py).

  Scores are reals.  A chunk identifier is a number: the source compares identifiers as strings of
  one fixed width, which orders them as numbers.
 */
module RankFusion {
  import opened Prelude

  /** The columns of a hit that are carried along. */
  datatype Payload = Payload(docId: nat, docType: string, docTitle: Option<string>, text: string,
                             metadata: map<string, string>)

  datatype Hit = Hit(chunkId: nat, chunkIndex: int, payload: Payload, distance: real)

  datatype ChunkResult = ChunkResult(chunkId: nat, chunkIndex: int, payload: Payload,
                                     score: real, sources: seq<string>)

  /** One hit as it is added to the scoreboard. */
  datatype Entry = Entry(hit: Hit, source: string, contribution: real)

  // ----- what a scoreboard of `n` entries holds -----

  /** The contributions of all entries for one chunk. */
  function Score(entries: seq<Entry>, n: nat, id: nat): real
    requires n <= |entries|
  {
    if n == 0 then 0.0
    else Score(entries, n - 1, id)
         + if entries[n - 1].hit.chunkId == id then entries[n - 1].contribution else 0.0
  }

  /** The chunks found, each once, in the order in which they are found first. */
  function IdsOf(entries: seq<Entry>, n: nat): seq<nat>
    requires n <= |entries|
  {
    if n == 0 then []
    else
      var before := IdsOf(entries, n - 1);
      before + if entries[n - 1].hit.chunkId in before then [] else [entries[n - 1].hit.chunkId]
  }

  function First(entries: seq<Entry>, n: nat, id: nat): Hit
    requires n <= |entries| && id in IdsOf(entries, n)
  {
    if id in IdsOf(entries, n - 1) then First(entries, n - 1, id) else entries[n - 1].hit
  }

  function Sources(entries: seq<Entry>, n: nat, id: nat): seq<string>
    requires n <= |entries|
  {
    if n == 0 then []
    else
      var before := Sources(entries, n - 1, id);
      before + if entries[n - 1].hit.chunkId == id && entries[n - 1].source !in before
               then [entries[n - 1].source] else []
  }

  function ResultOf(entries: seq<Entry>, n: nat, id: nat): ChunkResult
    requires n <= |entries| && id in IdsOf(entries, n)
  {
    var hit := First(entries, n, id);
    ChunkResult(id, hit.chunkIndex, hit.payload, Score(entries, n, id), Sources(entries, n, id))
  }

  lemma {:induction false} EntriesPrefix(entries: seq<Entry>, more: seq<Entry>, n: nat, id: nat)
    requires n <= |entries|
    ensures Score(entries + more, n, id) == Score(entries, n, id)
    ensures IdsOf(entries + more, n) == IdsOf(entries, n)
    ensures Sources(entries + more, n, id) == Sources(entries, n, id)
    ensures id in IdsOf(entries, n) ==> First(entries + more, n, id) == First(entries, n, id)
  {
    if n > 0 {
      EntriesPrefix(entries, more, n - 1, id);
    }
  }

  lemma {:induction false} IdsDistinct(entries: seq<Entry>, n: nat)
    requires n <= |entries|
    ensures Distinct(IdsOf(entries, n))
    ensures forall id :: id in IdsOf(entries, n) <==> exists i :: 0 <= i < n && entries[i].hit.chunkId == id
  {
    if n > 0 {
      IdsDistinct(entries, n - 1);
    }
  }

  lemma {:induction false} NotFound(entries: seq<Entry>, n: nat, id: nat)
    requires n <= |entries| && id !in IdsOf(entries, n)
    ensures Score(entries, n, id) == 0.0 && Sources(entries, n, id) == []
  {
    if n > 0 {
      NotFound(entries, n - 1, id);
    }
  }

  lemma AddScore(entries: seq<Entry>, e: Entry, id: nat)
    ensures Score(entries + [e], |entries| + 1, id)
            == Score(entries, |entries|, id) + if e.hit.chunkId == id then e.contribution else 0.0
  {
    EntriesPrefix(entries, [e], |entries|, id);
  }

  lemma AddIds(entries: seq<Entry>, e: Entry)
    ensures var before := IdsOf(entries, |entries|);
            IdsOf(entries + [e], |entries| + 1)
            == before + if e.hit.chunkId in before then [] else [e.hit.chunkId]
  {
    EntriesPrefix(entries, [e], |entries|, e.hit.chunkId);
  }

  lemma AddSources(entries: seq<Entry>, e: Entry, id: nat)
    ensures var before := Sources(entries, |entries|, id);
            Sources(entries + [e], |entries| + 1, id)
            == before + if e.hit.chunkId == id && e.source !in before then [e.source] else []
  {
    EntriesPrefix(entries, [e], |entries|, id);
  }

  lemma AddFirst(entries: seq<Entry>, e: Entry, id: nat)
    requires id in IdsOf(entries + [e], |entries| + 1)
    ensures First(entries + [e], |entries| + 1, id)
            == if id in IdsOf(entries, |entries|) then First(entries, |entries|, id) else e.hit
  {
    EntriesPrefix(entries, [e], |entries|, id);
  }

  lemma FoundAgain(entries: seq<Entry>, e: Entry)
    requires e.hit.chunkId in IdsOf(entries, |entries|)
    ensures IdsOf(entries + [e], |entries| + 1) == IdsOf(entries, |entries|)
    ensures var cr := ResultOf(entries, |entries|, e.hit.chunkId);
            var sources := if e.source !in cr.sources then cr.sources + [e.source] else cr.sources;
            ResultOf(entries + [e], |entries| + 1, e.hit.chunkId)
            == cr.(score := cr.score + e.contribution, sources := sources)
  {
    AddIds(entries, e);
    AddScore(entries, e, e.hit.chunkId);
    AddSources(entries, e, e.hit.chunkId);
    AddFirst(entries, e, e.hit.chunkId);
  }

  lemma FoundFirst(entries: seq<Entry>, e: Entry)
    requires e.hit.chunkId !in IdsOf(entries, |entries|)
    ensures IdsOf(entries + [e], |entries| + 1) == IdsOf(entries, |entries|) + [e.hit.chunkId]
    ensures ResultOf(entries + [e], |entries| + 1, e.hit.chunkId)
            == ChunkResult(e.hit.chunkId, e.hit.chunkIndex, e.hit.payload, e.contribution, [e.source])
  {
    AddIds(entries, e);
    AddScore(entries, e, e.hit.chunkId);
    AddSources(entries, e, e.hit.chunkId);
    AddFirst(entries, e, e.hit.chunkId);
    NotFound(entries, |entries|, e.hit.chunkId);
  }

  // ----- the scoreboard -----

  class Scoreboard {
    /** The dictionary of the source: its keys in insertion order, and its values. */
    var order: seq<nat>
    var cells: map<nat, ChunkResult>
    ghost var added: seq<Entry>

    ghost predicate CellOk(id: nat, board: map<nat, ChunkResult>, entries: seq<Entry>)
    {
      if id in IdsOf(entries, |entries|) then id in board && board[id] == ResultOf(entries, |entries|, id)
      else id !in board
    }

    ghost predicate Valid()
      reads this
    {
      && order == IdsOf(added, |added|)
      && forall id :: CellOk(id, cells, added)
    }

    constructor ()
      ensures Valid() && added == []
    {
      order, cells, added := [], map[], [];
    }

    lemma OtherCell(board: map<nat, ChunkResult>, entries: seq<Entry>, e: Entry, cell: ChunkResult, id: nat)
      requires CellOk(id, board, entries) && id != e.hit.chunkId
      ensures CellOk(id, board[e.hit.chunkId := cell], entries + [e])
    {
      EntriesPrefix(entries, [e], |entries|, id);
    }

    method Add(hit: Hit, source: string, contribution: real)
      requires Valid()
      modifies this
      ensures Valid() && added == old(added) + [Entry(hit, source, contribution)]
    {
      var id := hit.chunkId;
      ghost var e := Entry(hit, source, contribution);
      assert CellOk(id, cells, added);
      if id !in cells {
        FoundFirst(added, e);
        cells := cells[id := ChunkResult(id, hit.chunkIndex, hit.payload, contribution, [source])];
        order := order + [id];
      } else {
        FoundAgain(added, e);
        var cr := cells[id];
        var sources := if source !in cr.sources then cr.sources + [source] else cr.sources;
        cells := cells[id := cr.(score := cr.score + contribution, sources := sources)];
      }
      added := added + [e];
      forall other: nat | other != id
        ensures CellOk(other, cells, added)
      {
        OtherCell(old(cells), old(added), e, cells[id], other);
      }
    }

    /** The values of the dictionary, in insertion order. */
    method Merged() returns (merged: seq<ChunkResult>)
      requires Valid()
      ensures merged == ResultsOf(added)
    {
      forall i | 0 <= i < |order|
        ensures order[i] in cells && cells[order[i]] == ResultOf(added, |added|, order[i])
      {
        assert CellOk(order[i], cells, added) && order[i] in order;
      }
      merged := seq(|order|, i requires 0 <= i < |order| && order[i] in cells reads this => cells[order[i]]);
    }
  }

  function ResultsOf(entries: seq<Entry>): seq<ChunkResult>
  {
    var ids := IdsOf(entries, |entries|);
    seq(|ids|, i requires 0 <= i < |ids| => ResultOf(entries, |entries|, ids[i]))
  }

  // ----- the sort -----

  /** The sort key compares by score downwards, then by chunk index, then by identifier. */
  predicate Before(a: ChunkResult, b: ChunkResult)
  {
    a.score > b.score
    || (a.score == b.score
        && (a.chunkIndex < b.chunkIndex || (a.chunkIndex == b.chunkIndex && a.chunkId < b.chunkId)))
  }

  function Insert(x: ChunkResult, s: seq<ChunkResult>): (r: seq<ChunkResult>)
    ensures |r| == |s| + 1
  {
    if s == [] || Before(x, s[0]) then [x] + s else [s[0]] + Insert(x, s[1..])
  }

  function Sorted(s: seq<ChunkResult>, n: nat): (r: seq<ChunkResult>)
    requires n <= |s|
    ensures |r| == n
  {
    if n == 0 then [] else Insert(s[n - 1], Sorted(s, n - 1))
  }

  ghost predicate InOrder(s: seq<ChunkResult>)
  {
    forall i, j | 0 <= i < j < |s| :: Before(s[i], s[j])
  }

  lemma {:induction false} InsertHolds(x: ChunkResult, s: seq<ChunkResult>, y: ChunkResult)
    ensures y in Insert(x, s) <==> y == x || y in s
  {
    if s != [] && !Before(x, s[0]) {
      InsertHolds(x, s[1..], y);
      assert s == [s[0]] + s[1..];
    }
  }

  lemma {:induction false} InsertInOrder(x: ChunkResult, s: seq<ChunkResult>)
    requires InOrder(s) && forall y | y in s :: y.chunkId != x.chunkId
    ensures InOrder(Insert(x, s))
  {
    if s != [] && !Before(x, s[0]) {
      var rest := Insert(x, s[1..]);
      InsertInOrder(x, s[1..]);
      forall j | 0 <= j < |rest|
        ensures Before(s[0], rest[j])
      {
        InsertHolds(x, s[1..], rest[j]);
        assert rest[j] in rest;
      }
    }
  }

  lemma {:induction false} SortedRight(s: seq<ChunkResult>, n: nat)
    requires n <= |s| && forall i, j | 0 <= i < j < |s| :: s[i].chunkId != s[j].chunkId
    ensures InOrder(Sorted(s, n))
    ensures forall i, j | 0 <= i < j < n ::
              var a, b := Sorted(s, n)[i], Sorted(s, n)[j];
              || a.score > b.score
              || (a.score == b.score && a.chunkIndex < b.chunkIndex)
              || (a.score == b.score && a.chunkIndex == b.chunkIndex && a.chunkId < b.chunkId)
    ensures forall y :: y in Sorted(s, n) <==> y in s[..n]
  {
    if n > 0 {
      SortedRight(s, n - 1);
      assert s[..n] == s[..n - 1] + [s[n - 1]];
      forall y
        ensures y in Sorted(s, n) <==> y in s[..n]
      {
        InsertHolds(s[n - 1], Sorted(s, n - 1), y);
      }
      InsertInOrder(s[n - 1], Sorted(s, n - 1));
    }
  }

  // ----- the fusion -----

  function Contribution(k: nat, rank: nat): real
    requires k > 0
  {
    1.0 / (k + rank) as real
  }

  /** The first `n` hits of a retriever, ranked from 1. */
  function Ranked(hits: seq<Hit>, source: string, k: nat, n: nat): (r: seq<Entry>)
    requires n <= |hits| && k > 0
    ensures |r| == n
  {
    if n == 0 then [] else Ranked(hits, source, k, n - 1) + [Entry(hits[n - 1], source, Contribution(k, n))]
  }

  function Entries(vector: seq<Hit>, keyword: seq<Hit>, k: nat): seq<Entry>
    requires k > 0
  {
    Ranked(vector, "vector", k, |vector|) + Ranked(keyword, "keyword", k, |keyword|)
  }

  /** Every chunk found, once, best first. */
  function Ranking(vector: seq<Hit>, keyword: seq<Hit>, k: nat): seq<ChunkResult>
    requires k > 0
  {
    var all := ResultsOf(Entries(vector, keyword, k));
    Sorted(all, |all|)
  }

  function Fused(vector: seq<Hit>, keyword: seq<Hit>, k: nat, topK: int): seq<ChunkResult>
    requires k > 0
  {
    Cut(Ranking(vector, keyword, k), topK)
  }

  function Cut(all: seq<ChunkResult>, topK: int): seq<ChunkResult>
  {
    if topK <= 0 then [] else all[..Min(topK, |all|)]
  }

  method RrfFuse(vector: seq<Hit>, keyword: seq<Hit>, k: nat, topK: int) returns (r: seq<ChunkResult>)
    requires k > 0
    ensures r == Fused(vector, keyword, k, topK)
  {
    if topK <= 0 {
      return [];
    }
    var board := new Scoreboard();
    for i := 0 to |vector|
      invariant board.Valid() && fresh(board)
      invariant board.added == Ranked(vector, "vector", k, i)
    {
      board.Add(vector[i], "vector", Contribution(k, i + 1));
    }
    ghost var first := board.added;
    for i := 0 to |keyword|
      invariant board.Valid() && fresh(board)
      invariant board.added == first + Ranked(keyword, "keyword", k, i)
    {
      board.Add(keyword[i], "keyword", Contribution(k, i + 1));
    }
    var merged := board.Merged();
    merged := Sorted(merged, |merged|);
    r := merged[..Min(topK, |merged|)];
  }

  // ----- what the fusion promises -----

  /** The contributions of one retriever's first `n` hits to one chunk. */
  function ListScore(hits: seq<Hit>, id: nat, k: nat, n: nat): real
    requires n <= |hits| && k > 0
  {
    if n == 0 then 0.0
    else ListScore(hits, id, k, n - 1) + if hits[n - 1].chunkId == id then 1.0 / (k + n) as real else 0.0
  }

  /** The chunk is among the first `n` hits. */
  ghost predicate FoundIn(hits: seq<Hit>, n: nat, id: nat)
    requires n <= |hits|
  {
    exists i :: 0 <= i < n && hits[i].chunkId == id
  }

  ghost predicate Found(hits: seq<Hit>, id: nat) { FoundIn(hits, |hits|, id) }

  lemma {:induction false} RankedAt(hits: seq<Hit>, source: string, k: nat, n: nat, i: nat)
    requires i < n <= |hits| && k > 0
    ensures Ranked(hits, source, k, n)[i] == Entry(hits[i], source, Contribution(k, i + 1))
  {
    if i < n - 1 {
      RankedAt(hits, source, k, n - 1, i);
    }
  }

  lemma {:induction false} ScoreSplit(p: seq<Entry>, s: seq<Entry>, n: nat, id: nat)
    requires n <= |s|
    ensures Score(p + s, |p| + n, id) == Score(p, |p|, id) + Score(s, n, id)
  {
    if n == 0 {
      EntriesPrefix(p, s, |p|, id);
    } else {
      ScoreSplit(p, s, n - 1, id);
    }
  }

  lemma {:induction false} RankedScore(hits: seq<Hit>, source: string, k: nat, m: nat, n: nat, id: nat)
    requires n <= m <= |hits| && k > 0
    ensures Score(Ranked(hits, source, k, m), n, id) == ListScore(hits, id, k, n)
  {
    if n > 0 {
      RankedScore(hits, source, k, m, n - 1, id);
      RankedAt(hits, source, k, m, n - 1);
    }
  }

  /** A chunk's score is the sum of 1 / (k + rank) over all its occurrences in both lists. */
  lemma ScoreIsSum(vector: seq<Hit>, keyword: seq<Hit>, k: nat, id: nat)
    requires k > 0
    ensures var e := Entries(vector, keyword, k);
            Score(e, |e|, id) == ListScore(vector, id, k, |vector|) + ListScore(keyword, id, k, |keyword|)
  {
    var p, s := Ranked(vector, "vector", k, |vector|), Ranked(keyword, "keyword", k, |keyword|);
    ScoreSplit(p, s, |s|, id);
    RankedScore(vector, "vector", k, |vector|, |vector|, id);
    RankedScore(keyword, "keyword", k, |keyword|, |keyword|, id);
  }

  lemma EntryAt(vector: seq<Hit>, keyword: seq<Hit>, k: nat, i: nat)
    requires k > 0 && i < |Entries(vector, keyword, k)|
    ensures var e := Entries(vector, keyword, k)[i];
            if i < |vector| then e.hit == vector[i] && e.source == "vector"
            else e.hit == keyword[i - |vector|] && e.source == "keyword"
  {
    if i < |vector| {
      RankedAt(vector, "vector", k, |vector|, i);
    } else {
      RankedAt(keyword, "keyword", k, |keyword|, i - |vector|);
    }
  }

  /** The chunks ranked are those that some retriever found. */
  lemma IdsAreFound(vector: seq<Hit>, keyword: seq<Hit>, k: nat, id: nat)
    requires k > 0
    ensures var e := Entries(vector, keyword, k);
            id in IdsOf(e, |e|) <==> Found(vector, id) || Found(keyword, id)
  {
    var e := Entries(vector, keyword, k);
    IdsDistinct(e, |e|);
    if id in IdsOf(e, |e|) {
      var i :| 0 <= i < |e| && e[i].hit.chunkId == id;
      EntryAt(vector, keyword, k, i);
    }
    if Found(vector, id) {
      var i :| 0 <= i < |vector| && vector[i].chunkId == id;
      EntryAt(vector, keyword, k, i);
      assert e[i].hit.chunkId == id;
    }
    if Found(keyword, id) {
      var i :| 0 <= i < |keyword| && keyword[i].chunkId == id;
      EntryAt(vector, keyword, k, |vector| + i);
      assert e[|vector| + i].hit.chunkId == id;
    }
  }

  /** What the fusion returns for a chunk that was found. */
  function ResultFor(vector: seq<Hit>, keyword: seq<Hit>, k: nat, id: nat): ChunkResult
    requires k > 0 && id in IdsOf(Entries(vector, keyword, k), |Entries(vector, keyword, k)|)
  {
    ResultOf(Entries(vector, keyword, k), |Entries(vector, keyword, k)|, id)
  }

  function Candidates(vector: seq<Hit>, keyword: seq<Hit>, k: nat): seq<nat>
    requires k > 0
  {
    IdsOf(Entries(vector, keyword, k), |Entries(vector, keyword, k)|)
  }

  lemma RankingRight(vector: seq<Hit>, keyword: seq<Hit>, k: nat)
    requires k > 0
    ensures InOrder(Ranking(vector, keyword, k))
    ensures Distinct(Candidates(vector, keyword, k))
    ensures |Ranking(vector, keyword, k)| == |Candidates(vector, keyword, k)|
    ensures forall x | x in Ranking(vector, keyword, k) ::
              x.chunkId in Candidates(vector, keyword, k) && x == ResultFor(vector, keyword, k, x.chunkId)
    ensures forall id | id in Candidates(vector, keyword, k) ::
              ResultFor(vector, keyword, k, id) in Ranking(vector, keyword, k)
  {
    var e := Entries(vector, keyword, k);
    var all := ResultsOf(e);
    IdsDistinct(e, |e|);
    SortedRight(all, |all|);
    assert all[..|all|] == all;
    forall id | id in Candidates(vector, keyword, k)
      ensures ResultFor(vector, keyword, k, id) in all
    {
      var i :| 0 <= i < |all| && IdsOf(e, |e|)[i] == id;
      assert all[i] == ResultFor(vector, keyword, k, id);
    }
  }

  /** A ranked chunk that is left out comes after every chunk returned. */
  lemma LeftOutIsLater(vector: seq<Hit>, keyword: seq<Hit>, k: nat, topK: int, left: ChunkResult, i: nat)
    requires k > 0 && i < |Fused(vector, keyword, k, topK)| && InOrder(Ranking(vector, keyword, k))
    requires left in Ranking(vector, keyword, k) && left !in Fused(vector, keyword, k, topK)
    ensures Before(Fused(vector, keyword, k, topK)[i], left)
  {
    var r, all := Fused(vector, keyword, k, topK), Ranking(vector, keyword, k);
    var rest := all[|r|..];
    assert all == r + rest;
    var j :| 0 <= j < |rest| && rest[j] == left;
    assert Before(all[i], all[|r| + j]);
  }

  /**
    The result is the exact top of the ranking: distinct chunks in strict order, as many as asked
    for or found, each as scored over both lists, and none left out that precedes one returned.
   */
  lemma TopKExact(vector: seq<Hit>, keyword: seq<Hit>, k: nat, topK: int)
    requires k > 0
    ensures var r, ids := Fused(vector, keyword, k, topK), Candidates(vector, keyword, k);
            && InOrder(r) && Distinct(ids)
            && |r| == Max(0, Min(topK, |ids|))
            && (forall x | x in r :: x.chunkId in ids && x == ResultFor(vector, keyword, k, x.chunkId))
            && (forall id, i | id in ids && ResultFor(vector, keyword, k, id) !in r && 0 <= i < |r| ::
                  Before(r[i], ResultFor(vector, keyword, k, id)))
  {
    RankingRight(vector, keyword, k);
    var r := Fused(vector, keyword, k, topK);
    forall x | x in r
      ensures x in Ranking(vector, keyword, k)
    {
    }
    forall id, i | id in Candidates(vector, keyword, k) && ResultFor(vector, keyword, k, id) !in r && 0 <= i < |r|
      ensures Before(r[i], ResultFor(vector, keyword, k, id))
    {
      LeftOutIsLater(vector, keyword, k, topK, ResultFor(vector, keyword, k, id), i);
    }
  }

  /** The results stand in descending order of score, ties by ascending index, then by ascending identifier. */
  lemma FusedInOrder(vector: seq<Hit>, keyword: seq<Hit>, k: nat, topK: int, i: nat, j: nat)
    requires k > 0 && i < j < |Fused(vector, keyword, k, topK)|
    ensures var a, b := Fused(vector, keyword, k, topK)[i], Fused(vector, keyword, k, topK)[j];
            || a.score > b.score
            || (a.score == b.score && a.chunkIndex < b.chunkIndex)
            || (a.score == b.score && a.chunkIndex == b.chunkIndex && a.chunkId < b.chunkId)
  {
    TopKExact(vector, keyword, k, topK);
    assert Before(Fused(vector, keyword, k, topK)[i], Fused(vector, keyword, k, topK)[j]);
  }

  /**
    A chunk that some retriever found is left out only if as many as asked for are returned, and
    then each of them comes before it: by score, then by the index of the first hit, then by identifier.
   */
  lemma LeftOutExactly(vector: seq<Hit>, keyword: seq<Hit>, k: nat, topK: int, id: nat)
    requires k > 0 && FoundByAny(vector, keyword, id)
    requires forall x | x in Fused(vector, keyword, k, topK) :: x.chunkId != id
    ensures |Fused(vector, keyword, k, topK)| == Max(0, topK)
    ensures var score, index := BothScore(vector, keyword, k, id), FirstIndex(vector, keyword, id);
            forall x | x in Fused(vector, keyword, k, topK) ::
              || x.score > score
              || (x.score == score && x.chunkIndex < index)
              || (x.score == score && x.chunkIndex == index && x.chunkId < id)
  {
    TopKExact(vector, keyword, k, topK);
    ResultIs(vector, keyword, k, id);
    var r, left := Fused(vector, keyword, k, topK), ResultFor(vector, keyword, k, id);
    assert left.chunkId == id;
    RankingRight(vector, keyword, k);
    forall x | x in r
      ensures Before(x, left)
    {
      var i :| 0 <= i < |r| && r[i] == x;
      assert left !in r;
    }
  }

  /** Each result is that of one chunk: found, with its score over both lists and the fields of its first hit. */
  lemma ReturnedExactly(vector: seq<Hit>, keyword: seq<Hit>, k: nat, topK: int, x: ChunkResult)
    requires k > 0 && x in Fused(vector, keyword, k, topK)
    ensures FoundByAny(vector, keyword, x.chunkId)
    ensures x.score == BothScore(vector, keyword, k, x.chunkId)
    ensures var hits := vector + keyword;
            exists i :: 0 <= i < |hits| && hits[i].chunkId == x.chunkId
                        && x.chunkIndex == hits[i].chunkIndex && x.payload == hits[i].payload
                        && forall j | 0 <= j < i :: hits[j].chunkId != x.chunkId
    ensures x.sources == (if Found(vector, x.chunkId) then ["vector"] else [])
                         + if Found(keyword, x.chunkId) then ["keyword"] else []
  {
    TopKExact(vector, keyword, k, topK);
    ResultIs(vector, keyword, k, x.chunkId);
    SourcesNameFinders(vector, keyword, k, x.chunkId);
    FirstIsFirstHit(vector, keyword, k, |vector| + |keyword|, x.chunkId);
    FirstHitAt(vector + keyword, |vector + keyword|, x.chunkId);
  }

  lemma {:induction false} FirstHitAt(hits: seq<Hit>, n: nat, id: nat)
    requires n <= |hits| && FoundIn(hits, n, id)
    ensures exists i :: 0 <= i < n && hits[i] == FirstHit(hits, n, id) && hits[i].chunkId == id
                        && forall j | 0 <= j < i :: hits[j].chunkId != id
  {
    if FoundIn(hits, n - 1, id) {
      FirstHitAt(hits, n - 1, id);
    } else {
      assert hits[n - 1].chunkId == id;
    }
  }

  /** With distinct hits the score is 1 / (k + rank) of the one place in each list that holds the chunk. */
  lemma ScoreByPlaces(vector: seq<Hit>, keyword: seq<Hit>, k: nat, topK: int, x: ChunkResult, p: nat, q: nat)
    requires k > 0 && DistinctHits(vector) && DistinctHits(keyword) && x in Fused(vector, keyword, k, topK)
    requires if Found(vector, x.chunkId) then p < |vector| && vector[p].chunkId == x.chunkId else true
    requires if Found(keyword, x.chunkId) then q < |keyword| && keyword[q].chunkId == x.chunkId else true
    ensures x.score == (if Found(vector, x.chunkId) then 1.0 / (k + p + 1) as real else 0.0)
                       + if Found(keyword, x.chunkId) then 1.0 / (k + q + 1) as real else 0.0
  {
    ReturnedExactly(vector, keyword, k, topK, x);
    if Found(vector, x.chunkId) {
      ListScoreAt(vector, x.chunkId, k, |vector|, p);
    } else {
      ListScoreNone(vector, x.chunkId, k, |vector|);
    }
    if Found(keyword, x.chunkId) {
      ListScoreAt(keyword, x.chunkId, k, |keyword|, q);
    } else {
      ListScoreNone(keyword, x.chunkId, k, |keyword|);
    }
  }

  // ----- a chunk that both retrievers find -----

  ghost predicate DistinctHits(hits: seq<Hit>)
  {
    forall i, j | 0 <= i < j < |hits| :: hits[i].chunkId != hits[j].chunkId
  }

  lemma {:induction false} ListScoreNone(hits: seq<Hit>, id: nat, k: nat, n: nat)
    requires n <= |hits| && k > 0 && forall i | 0 <= i < n :: hits[i].chunkId != id
    ensures ListScore(hits, id, k, n) == 0.0
  {
    if n > 0 {
      ListScoreNone(hits, id, k, n - 1);
    }
  }

  lemma {:induction false} ListScoreAt(hits: seq<Hit>, id: nat, k: nat, n: nat, p: nat)
    requires p < n <= |hits| && k > 0 && DistinctHits(hits) && hits[p].chunkId == id
    ensures ListScore(hits, id, k, n) == Contribution(k, p + 1)
  {
    if p == n - 1 {
      ListScoreNone(hits, id, k, n - 1);
    } else {
      ListScoreAt(hits, id, k, n - 1, p);
    }
  }

  lemma InverseFalls(x: real, y: real)
    requires 0.0 < x <= y
    ensures 1.0 / x >= 1.0 / y > 0.0
  {
  }

  lemma ContributionFalls(k: nat, a: nat, b: nat)
    requires k > 0 && a <= b
    ensures Contribution(k, a) >= Contribution(k, b) > 0.0
  {
    InverseFalls((k + a) as real, (k + b) as real);
  }

  /** Two inverses against a third, multiplied out. */
  lemma TwoInverses(x: real, y: real, z: real)
    requires x > 0.0 && y > 0.0 && z > 0.0
    ensures 1.0 / x + 1.0 / y > 1.0 / z <==> x * y < z * (x + y)
  {
    var p, q, r := 1.0 / x, 1.0 / y, 1.0 / z;
    var xy := x * y;
    assert p * x == 1.0 && q * y == 1.0 && r * z == 1.0;
    assert p * xy == y && q * xy == x;
    assert (p + q) * xy == x + y;
    assert (r * xy) * z == xy;
  }

  /** What one list gives a chunk that it holds, or does not hold. */
  lemma ListScoreWithin(hits: seq<Hit>, id: nat, k: nat)
    requires k > 0 && DistinctHits(hits)
    ensures var s := ListScore(hits, id, k, |hits|);
            if Found(hits, id) then Contribution(k, |hits|) <= s <= Contribution(k, 1) else s == 0.0
  {
    if Found(hits, id) {
      var p :| 0 <= p < |hits| && hits[p].chunkId == id;
      ListScoreAt(hits, id, k, |hits|, p);
      ContributionFalls(k, p + 1, |hits|);
      ContributionFalls(k, 1, p + 1);
    } else {
      ListScoreNone(hits, id, k, |hits|);
    }
  }

  /**
    The lengths of the two lists for which being found last by both outweighs being found first by
    one: two last places give more than a first one.
   */
  predicate BothOutweigh(k: nat, m: nat, n: nat)
  {
    (k + m) * (k + n) < (k + 1) * (2 * k + m + n)
  }

  /** Lists of one hit are short enough: they hold no other chunk. */
  lemma TinyLists(k: nat, m: nat, n: nat)
    requires k > 0 && (m <= 1 || n <= 1)
    ensures BothOutweigh(k, m, n)
  {
    if m == 1 {
      assert (k + 1) * (2 * k + 1 + n) == (k + 1) * (k + n) + (k + 1) * (k + 1);
    } else if n == 1 {
      assert (k + 1) * (2 * k + m + 1) == (k + 1) * (k + m) + (k + 1) * (k + 1);
    } else if m == 0 {
      assert (k + 1) * (2 * k + n) == k * (k + n) + k * k + 2 * k + n;
    } else {
      assert (k + 1) * (2 * k + m) == k * (k + m) + k * k + 2 * k + m;
    }
  }

  /** `a` is found by both retrievers, `b` by exactly one. */
  ghost predicate BothAndOne(vector: seq<Hit>, keyword: seq<Hit>, a: nat, b: nat)
  {
    Found(vector, a) && Found(keyword, a) && (Found(vector, b) <==> !Found(keyword, b))
  }

  ghost predicate Outranks(vector: seq<Hit>, keyword: seq<Hit>, k: nat, a: nat, b: nat)
    requires k > 0
  {
    && a in Candidates(vector, keyword, k) && b in Candidates(vector, keyword, k)
    && Before(ResultFor(vector, keyword, k, a), ResultFor(vector, keyword, k, b))
  }

  lemma LastPlaces(k: nat, m: nat, n: nat)
    requires k > 0
    ensures Contribution(k, m) + Contribution(k, n) > Contribution(k, 1)
            <==> (k + m) * (k + n) < (k + 1) * (2 * k + m + n)
  {
    TwoInverses((k + m) as real, (k + n) as real, (k + 1) as real);
    assert (k + m) as real * (k + n) as real == ((k + m) * (k + n)) as real;
    assert (k + 1) as real * ((k + m) as real + (k + n) as real) == ((k + 1) * (2 * k + m + n)) as real;
  }

  /** A list whose only hit is `a` puts it first and does not hold `b`. */
  lemma OnlyHit(hits: seq<Hit>, k: nat, a: nat, b: nat)
    requires k > 0 && |hits| <= 1 && Found(hits, a) && a != b
    ensures ListScore(hits, a, k, |hits|) == Contribution(k, 1) && !Found(hits, b)
  {
    ListScoreAt(hits, a, k, 1, 0);
  }

  lemma ScoresCompared(vector: seq<Hit>, keyword: seq<Hit>, k: nat, a: nat, b: nat)
    requires k > 0 && DistinctHits(vector) && DistinctHits(keyword)
    requires BothOutweigh(k, |vector|, |keyword|) && BothAndOne(vector, keyword, a, b)
    ensures ListScore(vector, a, k, |vector|) + ListScore(keyword, a, k, |keyword|)
            > ListScore(vector, b, k, |vector|) + ListScore(keyword, b, k, |keyword|)
  {
    ListScoreWithin(vector, a, k);
    ListScoreWithin(keyword, a, k);
    ListScoreWithin(vector, b, k);
    ListScoreWithin(keyword, b, k);
    ContributionFalls(k, 1, |vector|);
    ContributionFalls(k, 1, |keyword|);
    if |vector| <= 1 {
      OnlyHit(vector, k, a, b);
    } else if |keyword| <= 1 {
      OnlyHit(keyword, k, a, b);
    } else {
      LastPlaces(k, |vector|, |keyword|);
    }
  }

  /** In distinct lists of such lengths, found by both ranks above found by one. */
  lemma BothAbove(vector: seq<Hit>, keyword: seq<Hit>, k: nat, a: nat, b: nat)
    requires k > 0 && DistinctHits(vector) && DistinctHits(keyword)
    requires BothOutweigh(k, |vector|, |keyword|) && BothAndOne(vector, keyword, a, b)
    ensures Outranks(vector, keyword, k, a, b)
  {
    IdsAreFound(vector, keyword, k, a);
    IdsAreFound(vector, keyword, k, b);
    ScoreIsSum(vector, keyword, k, a);
    ScoreIsSum(vector, keyword, k, b);
    ScoresCompared(vector, keyword, k, a, b);
  }

  /** So it is returned whenever the other is, and earlier. */
  lemma BothReturnedFirst(vector: seq<Hit>, keyword: seq<Hit>, k: nat, topK: int, a: nat, b: nat, j: nat)
    requires k > 0 && DistinctHits(vector) && DistinctHits(keyword)
    requires BothOutweigh(k, |vector|, |keyword|) && BothAndOne(vector, keyword, a, b)
    requires j < |Fused(vector, keyword, k, topK)| && Fused(vector, keyword, k, topK)[j].chunkId == b
    ensures exists i :: 0 <= i < j && Fused(vector, keyword, k, topK)[i].chunkId == a
  {
    var r := Fused(vector, keyword, k, topK);
    BothAbove(vector, keyword, k, a, b);
    TopKExact(vector, keyword, k, topK);
    assert r[j] in r && r[j] == ResultFor(vector, keyword, k, b);
    assert ResultFor(vector, keyword, k, a) in r;
    var i :| 0 <= i < |r| && r[i] == ResultFor(vector, keyword, k, a);
    assert !Before(r[j], r[i]);
    assert i < j;
  }

  /** Two lists of up to `k + 1` hits have such lengths. */
  lemma ShortLists(k: nat, m: nat, n: nat)
    requires k > 0 && m <= k + 1 && n <= k + 1
    ensures BothOutweigh(k, m, n)
  {
  }

  const NO_PAYLOAD := Payload(0, "", None, "", map[])

  /** Lists of `m` and `n` hits that share their last hit, chunk `m + n`, and nothing else. */
  function LastShared(first: nat, size: nat, shared: nat): (r: seq<Hit>)
    requires first + size <= shared + 1
    ensures |r| == size
  {
    seq(size, i requires 0 <= i < size =>
              Hit(if i == size - 1 then shared else first + i, if i == size - 1 then 1 else 0, NO_PAYLOAD, 0.0))
  }

  lemma SharedLast(first: nat, size: nat, shared: nat)
    requires first + size <= shared + 1 && size >= 2
    ensures DistinctHits(LastShared(first, size, shared))
    ensures forall id: nat ::
              Found(LastShared(first, size, shared), id) <==> first <= id < first + size - 1 || id == shared
  {
    var hits := LastShared(first, size, shared);
    forall id: nat
      ensures Found(hits, id) <==> first <= id < first + size - 1 || id == shared
    {
      if first <= id < first + size - 1 {
        assert hits[id - first].chunkId == id;
      }
      if id == shared {
        assert hits[size - 1].chunkId == id;
      }
    }
  }

  /** With any other lengths, a chunk found last by both can rank below a chunk found first by one. */
  lemma BothCanLose(k: nat, m: nat, n: nat) returns (vector: seq<Hit>, keyword: seq<Hit>, a: nat, b: nat)
    requires k > 0 && !BothOutweigh(k, m, n)
    ensures DistinctHits(vector) && DistinctHits(keyword) && |vector| == m && |keyword| == n
    ensures BothAndOne(vector, keyword, a, b) && Outranks(vector, keyword, k, b, a)
  {
    if m <= 1 || n <= 1 {
      TinyLists(k, m, n);
    }
    a, b := m + n, 0;
    vector, keyword := LastShared(0, m, a), LastShared(m, n, a);
    SharedLast(0, m, a);
    SharedLast(m, n, a);
    assert vector[m - 1].chunkId == a && keyword[n - 1].chunkId == a && vector[0].chunkId == b;
    ListScoreAt(vector, a, k, m, m - 1);
    ListScoreAt(keyword, a, k, n, n - 1);
    ListScoreAt(vector, b, k, m, 0);
    ListScoreNone(keyword, b, k, n);
    ScoreIsSum(vector, keyword, k, a);
    ScoreIsSum(vector, keyword, k, b);
    LastPlaces(k, m, n);
    IdsAreFound(vector, keyword, k, a);
    IdsAreFound(vector, keyword, k, b);
    IndexOfHit(vector, keyword, k, a, 1);
    IndexOfHit(vector, keyword, k, b, 0);
  }

  /** In all distinct lists of `m` and `n` hits, found by both ranks above found by one. */
  ghost predicate BothAlwaysAbove(k: nat, m: nat, n: nat)
    requires k > 0
  {
    forall vector, keyword, a, b |
      && DistinctHits(vector) && DistinctHits(keyword) && |vector| == m && |keyword| == n
      && BothAndOne(vector, keyword, a, b) ::
      Outranks(vector, keyword, k, a, b)
  }

  /** Exactly for which lengths of the two lists that holds. */
  lemma BothAlwaysAboveIff(k: nat, m: nat, n: nat)
    requires k > 0
    ensures BothAlwaysAbove(k, m, n) <==> BothOutweigh(k, m, n)
  {
    if BothOutweigh(k, m, n) {
      forall vector, keyword, a, b |
        && DistinctHits(vector) && DistinctHits(keyword) && |vector| == m && |keyword| == n
        && BothAndOne(vector, keyword, a, b)
        ensures Outranks(vector, keyword, k, a, b)
      {
        BothAbove(vector, keyword, k, a, b);
      }
    } else {
      var vector, keyword, a, b := BothCanLose(k, m, n);
      assert !Outranks(vector, keyword, k, a, b);
    }
  }

  /** A chunk's index is that of its hits, when they agree. */
  lemma IndexOfHit(vector: seq<Hit>, keyword: seq<Hit>, k: nat, id: nat, index: int)
    requires k > 0 && id in Candidates(vector, keyword, k)
    requires forall h | h in vector || h in keyword :: h.chunkId == id ==> h.chunkIndex == index
    ensures ResultFor(vector, keyword, k, id).chunkIndex == index
  {
    var e := Entries(vector, keyword, k);
    var i := FirstAt(e, |e|, id);
    EntryAt(vector, keyword, k, i);
    assert e[i].hit in vector || e[i].hit in keyword;
  }

  lemma {:induction false} FirstAt(entries: seq<Entry>, n: nat, id: nat) returns (i: nat)
    requires n <= |entries| && id in IdsOf(entries, n)
    ensures i < n && First(entries, n, id) == entries[i].hit && entries[i].hit.chunkId == id
  {
    if id in IdsOf(entries, n - 1) {
      i := FirstAt(entries, n - 1, id);
    } else {
      i := n - 1;
    }
  }

  // ----- swapping the two lists -----

  /** The first of the first `n` hits on a chunk. */
  ghost function FirstHit(hits: seq<Hit>, n: nat, id: nat): Hit
    requires n <= |hits| && FoundIn(hits, n, id)
  {
    if FoundIn(hits, n - 1, id) then FirstHit(hits, n - 1, id) else hits[n - 1]
  }

  lemma {:induction false} FirstIsFirstHit(vector: seq<Hit>, keyword: seq<Hit>, k: nat, n: nat, id: nat)
    requires k > 0 && n <= |vector| + |keyword|
    ensures var e, hits := Entries(vector, keyword, k), vector + keyword;
            && (id in IdsOf(e, n) <==> FoundIn(hits, n, id))
            && (FoundIn(hits, n, id) ==> First(e, n, id) == FirstHit(hits, n, id))
  {
    if n > 0 {
      FirstIsFirstHit(vector, keyword, k, n - 1, id);
      FoundStep(vector + keyword, n, id);
      EntryAt(vector, keyword, k, n - 1);
    }
  }

  lemma FoundStep(hits: seq<Hit>, n: nat, id: nat)
    requires 0 < n <= |hits|
    ensures FoundIn(hits, n, id) <==> FoundIn(hits, n - 1, id) || hits[n - 1].chunkId == id
  {
  }

  ghost predicate FoundByAny(vector: seq<Hit>, keyword: seq<Hit>, id: nat) { Found(vector + keyword, id) }

  /** The chunk index of the first hit on a chunk, the hits of `vector` first. */
  ghost function FirstIndex(vector: seq<Hit>, keyword: seq<Hit>, id: nat): int
    requires FoundByAny(vector, keyword, id)
  {
    FirstHit(vector + keyword, |vector + keyword|, id).chunkIndex
  }

  function BothScore(vector: seq<Hit>, keyword: seq<Hit>, k: nat, id: nat): real
    requires k > 0
  {
    ListScore(vector, id, k, |vector|) + ListScore(keyword, id, k, |keyword|)
  }

  lemma ResultIs(vector: seq<Hit>, keyword: seq<Hit>, k: nat, id: nat)
    requires k > 0
    ensures id in Candidates(vector, keyword, k) <==> FoundByAny(vector, keyword, id)
    ensures FoundByAny(vector, keyword, id) ==>
              && ResultFor(vector, keyword, k, id).score == BothScore(vector, keyword, k, id)
              && ResultFor(vector, keyword, k, id).chunkIndex == FirstIndex(vector, keyword, id)
              && ResultFor(vector, keyword, k, id).chunkId == id
  {
    FirstIsFirstHit(vector, keyword, k, |vector| + |keyword|, id);
    ScoreIsSum(vector, keyword, k, id);
  }

  lemma SwapFound(vector: seq<Hit>, keyword: seq<Hit>, id: nat)
    requires FoundByAny(vector, keyword, id)
    ensures FoundByAny(keyword, vector, id)
  {
    var both, swapped := vector + keyword, keyword + vector;
    var i :| 0 <= i < |both| && both[i].chunkId == id;
    if i < |vector| {
      assert swapped[|keyword| + i] == both[i];
    } else {
      assert swapped[i - |vector|] == both[i];
    }
  }

  /** The first hits on two chunks of equal score stand in the same order either way. */
  ghost predicate TieAgrees(vector: seq<Hit>, keyword: seq<Hit>, k: nat, a: nat, b: nat)
    requires k > 0
    requires FoundByAny(vector, keyword, a) && FoundByAny(vector, keyword, b)
    requires FoundByAny(keyword, vector, a) && FoundByAny(keyword, vector, b)
  {
    a < b && BothScore(vector, keyword, k, a) == BothScore(vector, keyword, k, b) ==>
      (FirstIndex(vector, keyword, a) <= FirstIndex(vector, keyword, b)
       <==> FirstIndex(keyword, vector, a) <= FirstIndex(keyword, vector, b))
  }

  ghost predicate TiesAgree(vector: seq<Hit>, keyword: seq<Hit>, k: nat)
    requires k > 0
  {
    forall a, b |
      && FoundByAny(vector, keyword, a) && FoundByAny(vector, keyword, b)
      && FoundByAny(keyword, vector, a) && FoundByAny(keyword, vector, b) ::
      TieAgrees(vector, keyword, k, a, b)
  }

  /** One pair of chunks is ordered alike either way exactly if their tie agrees. */
  lemma PairAgrees(vector: seq<Hit>, keyword: seq<Hit>, k: nat, a: nat, b: nat)
    requires k > 0 && a < b
    requires FoundByAny(vector, keyword, a) && FoundByAny(vector, keyword, b)
    requires FoundByAny(keyword, vector, a) && FoundByAny(keyword, vector, b)
    ensures a in Candidates(vector, keyword, k) && b in Candidates(vector, keyword, k)
    ensures a in Candidates(keyword, vector, k) && b in Candidates(keyword, vector, k)
    ensures var x, y := ResultFor(vector, keyword, k, a), ResultFor(vector, keyword, k, b);
            var x', y' := ResultFor(keyword, vector, k, a), ResultFor(keyword, vector, k, b);
            && (TieAgrees(vector, keyword, k, a, b) <==> (Before(x, y) <==> Before(x', y')))
            && (Before(x, y) <==> !Before(y, x)) && (Before(x', y') <==> !Before(y', x'))
  {
    ResultIs(vector, keyword, k, a);
    ResultIs(vector, keyword, k, b);
    ResultIs(keyword, vector, k, a);
    ResultIs(keyword, vector, k, b);
  }

  /** A sequence without repetitions is no longer than one that holds all its elements. */
  lemma {:induction false} FitsIn(s: seq<nat>, t: seq<nat>)
    requires Distinct(s) && forall x | x in s :: x in t
    ensures |s| <= |t|
    decreases |s|
  {
    if s != [] {
      var x, rest := s[|s| - 1], s[..|s| - 1];
      assert x in s && x in t;
      var i :| 0 <= i < |t| && t[i] == x;
      forall y | y in rest
        ensures y in t[..i] + t[i + 1..]
      {
        assert y in s && y != x;
        var j :| 0 <= j < |t| && t[j] == y;
        assert y in t[..i] || y in t[i + 1..];
      }
      FitsIn(rest, t[..i] + t[i + 1..]);
    }
  }

  lemma SwapCount(vector: seq<Hit>, keyword: seq<Hit>, k: nat)
    requires k > 0
    ensures |Candidates(vector, keyword, k)| == |Candidates(keyword, vector, k)|
  {
    var e, f := Entries(vector, keyword, k), Entries(keyword, vector, k);
    IdsDistinct(e, |e|);
    IdsDistinct(f, |f|);
    forall id
      ensures id in Candidates(vector, keyword, k) <==> id in Candidates(keyword, vector, k)
    {
      IdsAreFound(vector, keyword, k, id);
      IdsAreFound(keyword, vector, k, id);
    }
    FitsIn(Candidates(vector, keyword, k), Candidates(keyword, vector, k));
    FitsIn(Candidates(keyword, vector, k), Candidates(vector, keyword, k));
  }

  /** Where a ranked chunk stands when the lists are swapped. */
  lemma SwapFinds(vector: seq<Hit>, keyword: seq<Hit>, k: nat, i: nat) returns (j: nat)
    requires k > 0 && i < |Ranking(vector, keyword, k)|
    ensures var id := Ranking(vector, keyword, k)[i].chunkId;
            && FoundByAny(vector, keyword, id) && FoundByAny(keyword, vector, id)
            && id in Candidates(vector, keyword, k) && id in Candidates(keyword, vector, k)
            && Ranking(vector, keyword, k)[i] == ResultFor(vector, keyword, k, id)
            && j < |Ranking(keyword, vector, k)|
            && Ranking(keyword, vector, k)[j] == ResultFor(keyword, vector, k, id)
            && Ranking(keyword, vector, k)[j].chunkId == id
  {
    RankingRight(vector, keyword, k);
    RankingRight(keyword, vector, k);
    var x := Ranking(vector, keyword, k)[i];
    assert x in Ranking(vector, keyword, k);
    ResultIs(vector, keyword, k, x.chunkId);
    SwapFound(vector, keyword, x.chunkId);
    ResultIs(keyword, vector, k, x.chunkId);
    var y := ResultFor(keyword, vector, k, x.chunkId);
    assert y in Ranking(keyword, vector, k);
    j :| 0 <= j < |Ranking(keyword, vector, k)| && Ranking(keyword, vector, k)[j] == y;
  }

  ghost predicate SameIds(s: seq<ChunkResult>, t: seq<ChunkResult>)
  {
    |s| == |t| && forall i | 0 <= i < |s| :: s[i].chunkId == t[i].chunkId
  }

  /** A chunk is ranked once. */
  lemma RankedOnce(vector: seq<Hit>, keyword: seq<Hit>, k: nat, i: nat, j: nat)
    requires k > 0 && i < |Ranking(vector, keyword, k)| && j < |Ranking(vector, keyword, k)|
    requires Ranking(vector, keyword, k)[i].chunkId == Ranking(vector, keyword, k)[j].chunkId
    ensures i == j
  {
    RankingRight(vector, keyword, k);
    var s := Ranking(vector, keyword, k);
    assert s[i] in s && s[j] in s;
    assert s[i] == s[j];
  }

  /** Two chunks that change places when the lists are swapped do so against `PairAgrees`. */
  lemma NoSwap(vector: seq<Hit>, keyword: seq<Hit>, k: nat, i: nat, h: nat, j: nat)
    requires k > 0 && TiesAgree(vector, keyword, k) && |Ranking(vector, keyword, k)| == |Ranking(keyword, vector, k)|
    requires i <= h < |Ranking(vector, keyword, k)| && i <= j < |Ranking(vector, keyword, k)|
    requires var s, t := Ranking(vector, keyword, k), Ranking(keyword, vector, k);
             t[j].chunkId == s[i].chunkId && s[h].chunkId == t[i].chunkId
    ensures Ranking(vector, keyword, k)[i].chunkId == Ranking(keyword, vector, k)[i].chunkId
  {
    var s, t := Ranking(vector, keyword, k), Ranking(keyword, vector, k);
    RankingRight(vector, keyword, k);
    RankingRight(keyword, vector, k);
    var j' := SwapFinds(vector, keyword, k, i);
    var i' := SwapFinds(vector, keyword, k, h);
    RankedOnce(keyword, vector, k, j, j');
    RankedOnce(keyword, vector, k, i, i');
    var a, b := s[i].chunkId, s[h].chunkId;
    if a < b {
      assert TieAgrees(vector, keyword, k, a, b);
      PairAgrees(vector, keyword, k, a, b);
    } else if b < a {
      assert TieAgrees(vector, keyword, k, b, a);
      PairAgrees(vector, keyword, k, b, a);
    }
  }

  lemma {:induction false} SwapOrder(vector: seq<Hit>, keyword: seq<Hit>, k: nat, n: nat)
    requires k > 0 && TiesAgree(vector, keyword, k) && |Ranking(vector, keyword, k)| == |Ranking(keyword, vector, k)|
    requires n <= |Ranking(vector, keyword, k)|
    ensures forall i | 0 <= i < n :: Ranking(vector, keyword, k)[i].chunkId == Ranking(keyword, vector, k)[i].chunkId
  {
    if n > 0 {
      SwapOrder(vector, keyword, k, n - 1);
      var i := n - 1;
      var j := SwapFinds(vector, keyword, k, i);
      var h := SwapFinds(keyword, vector, k, i);
      if j < i {
        RankedOnce(vector, keyword, k, j, i);
      } else if h < i {
        RankedOnce(keyword, vector, k, h, i);
      } else {
        NoSwap(vector, keyword, k, i, h, j);
      }
    }
  }

  /** Every cut of the ranking keeps its chunks, and their order, when the lists are swapped. */
  ghost predicate SwapKeepsIds(vector: seq<Hit>, keyword: seq<Hit>, k: nat)
    requires k > 0
  {
    forall topK :: SameIds(Fused(vector, keyword, k, topK), Fused(keyword, vector, k, topK))
  }

  lemma SameLength(vector: seq<Hit>, keyword: seq<Hit>, k: nat)
    requires k > 0
    ensures |Ranking(vector, keyword, k)| == |Ranking(keyword, vector, k)|
  {
    RankingRight(vector, keyword, k);
    RankingRight(keyword, vector, k);
    SwapCount(vector, keyword, k);
  }

  lemma RankingsSameIds(vector: seq<Hit>, keyword: seq<Hit>, k: nat)
    requires k > 0
    ensures SwapKeepsIds(vector, keyword, k) <==> SameIds(Ranking(vector, keyword, k), Ranking(keyword, vector, k))
  {
    var s, t := Ranking(vector, keyword, k), Ranking(keyword, vector, k);
    SameLength(vector, keyword, k);
    forall topK: int
      ensures SameIds(s, t) ==> SameIds(Fused(vector, keyword, k, topK), Fused(keyword, vector, k, topK))
    {
    }
    assert Fused(vector, keyword, k, |s|) == s && Fused(keyword, vector, k, |s|) == t;
  }

  lemma Placed(vector: seq<Hit>, keyword: seq<Hit>, k: nat, id: nat) returns (i: nat)
    requires k > 0 && id in Candidates(vector, keyword, k)
    ensures i < |Ranking(vector, keyword, k)|
    ensures Ranking(vector, keyword, k)[i] == ResultFor(vector, keyword, k, id)
  {
    RankingRight(vector, keyword, k);
    assert ResultFor(vector, keyword, k, id) in Ranking(vector, keyword, k);
    i :| 0 <= i < |Ranking(vector, keyword, k)|
         && Ranking(vector, keyword, k)[i] == ResultFor(vector, keyword, k, id);
  }

  lemma OrderAt(vector: seq<Hit>, keyword: seq<Hit>, k: nat, i: nat, j: nat)
    requires k > 0 && i < |Ranking(vector, keyword, k)| && j < |Ranking(vector, keyword, k)| && i != j
    ensures Before(Ranking(vector, keyword, k)[i], Ranking(vector, keyword, k)[j]) <==> i < j
  {
    RankingRight(vector, keyword, k);
    var s := Ranking(vector, keyword, k);
    if i < j {
      assert Before(s[i], s[j]);
    } else {
      assert Before(s[j], s[i]);
    }
  }

  /** A tie that disagrees changes the order. */
  lemma SwapReorders(vector: seq<Hit>, keyword: seq<Hit>, k: nat, a: nat, b: nat)
    requires k > 0 && a < b && SameIds(Ranking(vector, keyword, k), Ranking(keyword, vector, k))
    requires FoundByAny(vector, keyword, a) && FoundByAny(vector, keyword, b)
    requires FoundByAny(keyword, vector, a) && FoundByAny(keyword, vector, b)
    ensures TieAgrees(vector, keyword, k, a, b)
  {
    PairAgrees(vector, keyword, k, a, b);
    var i := Placed(vector, keyword, k, a);
    var j := Placed(vector, keyword, k, b);
    var h := Placed(keyword, vector, k, a);
    var l := Placed(keyword, vector, k, b);
    RankedOnce(keyword, vector, k, i, h);
    RankedOnce(keyword, vector, k, j, l);
    OrderAt(vector, keyword, k, i, j);
    OrderAt(keyword, vector, k, i, j);
  }

  /** Swapping the two retrievers keeps the chunks and their order exactly if all ties agree. */
  lemma SwapKeepsIdsIff(vector: seq<Hit>, keyword: seq<Hit>, k: nat)
    requires k > 0
    ensures SwapKeepsIds(vector, keyword, k) <==> TiesAgree(vector, keyword, k)
  {
    RankingsSameIds(vector, keyword, k);
    if SwapKeepsIds(vector, keyword, k) {
      forall a, b |
        && FoundByAny(vector, keyword, a) && FoundByAny(vector, keyword, b)
        && FoundByAny(keyword, vector, a) && FoundByAny(keyword, vector, b)
        ensures TieAgrees(vector, keyword, k, a, b)
      {
        if a < b {
          SwapReorders(vector, keyword, k, a, b);
        }
      }
    }
    if TiesAgree(vector, keyword, k) {
      SameLength(vector, keyword, k);
      SwapOrder(vector, keyword, k, |Ranking(vector, keyword, k)|);
    }
  }

  lemma {:induction false} FirstHitIn(hits: seq<Hit>, n: nat, id: nat)
    requires n <= |hits| && FoundIn(hits, n, id)
    ensures FirstHit(hits, n, id) in hits && FirstHit(hits, n, id).chunkId == id
  {
    if FoundIn(hits, n - 1, id) {
      FirstHitIn(hits, n - 1, id);
    }
  }

  /** Hits on one chunk carry one index, as they do when both are read off the same row. */
  ghost predicate OneIndex(hits: seq<Hit>)
  {
    forall h, other | h in hits && other in hits && h.chunkId == other.chunkId :: h.chunkIndex == other.chunkIndex
  }

  lemma OneIndexSwapped(vector: seq<Hit>, keyword: seq<Hit>, id: nat)
    requires OneIndex(vector + keyword) && FoundByAny(vector, keyword, id) && FoundByAny(keyword, vector, id)
    ensures FirstIndex(vector, keyword, id) == FirstIndex(keyword, vector, id)
  {
    var both, swapped := vector + keyword, keyword + vector;
    FirstHitIn(both, |both|, id);
    FirstHitIn(swapped, |swapped|, id);
    var other := FirstHit(swapped, |swapped|, id);
    assert other in vector || other in keyword;
    assert other in both;
  }

  /** Then swapping the two retrievers changes neither which chunks are returned nor their order. */
  lemma OneIndexKeepsIds(vector: seq<Hit>, keyword: seq<Hit>, k: nat)
    requires k > 0 && OneIndex(vector + keyword)
    ensures SwapKeepsIds(vector, keyword, k)
  {
    forall a, b |
      && FoundByAny(vector, keyword, a) && FoundByAny(vector, keyword, b)
      && FoundByAny(keyword, vector, a) && FoundByAny(keyword, vector, b)
      ensures TieAgrees(vector, keyword, k, a, b)
    {
      OneIndexSwapped(vector, keyword, a);
      OneIndexSwapped(vector, keyword, b);
    }
    SwapKeepsIdsIff(vector, keyword, k);
  }

  /** Hits that disagree on the index of a chunk can change the order. */
  lemma SwapCanReorder(k: nat) returns (vector: seq<Hit>, keyword: seq<Hit>)
    requires k > 0
    ensures !SwapKeepsIds(vector, keyword, k)
  {
    vector := [Hit(0, 0, NO_PAYLOAD, 0.0), Hit(1, 1, NO_PAYLOAD, 0.0)];
    keyword := [Hit(1, 0, NO_PAYLOAD, 0.0), Hit(0, 1, NO_PAYLOAD, 0.0)];
    FirstOfTwo(vector, keyword);
    FirstOfTwo(keyword, vector);
    assert !TieAgrees(vector, keyword, k, 0, 1) by {
      ListScoreAt(vector, 0, k, 2, 0);
      ListScoreAt(vector, 1, k, 2, 1);
      ListScoreAt(keyword, 0, k, 2, 1);
      ListScoreAt(keyword, 1, k, 2, 0);
    }
    SwapKeepsIdsIff(vector, keyword, k);
  }

  lemma FirstOfTwo(vector: seq<Hit>, keyword: seq<Hit>)
    requires |vector| == |keyword| == 2 && vector[0].chunkId != vector[1].chunkId
    requires keyword[0].chunkId == vector[1].chunkId && keyword[1].chunkId == vector[0].chunkId
    ensures FoundByAny(vector, keyword, vector[0].chunkId) && FoundByAny(vector, keyword, vector[1].chunkId)
    ensures FirstIndex(vector, keyword, vector[0].chunkId) == vector[0].chunkIndex
    ensures FirstIndex(vector, keyword, vector[1].chunkId) == vector[1].chunkIndex
  {
    var both := vector + keyword;
    assert both[0] == vector[0] && both[1] == vector[1] && both[2] == keyword[0] && both[3] == keyword[1];
    assert FoundIn(both, 1, vector[0].chunkId);
    assert FoundIn(both, 2, vector[1].chunkId) && !FoundIn(both, 1, vector[1].chunkId);
    FirstStays(both, 1, 4, vector[0].chunkId);
    FirstStays(both, 2, 4, vector[1].chunkId);
  }

  lemma {:induction false} FirstStays(hits: seq<Hit>, m: nat, n: nat, id: nat)
    requires m <= n <= |hits| && FoundIn(hits, m, id)
    ensures FoundIn(hits, n, id) && FirstHit(hits, n, id) == FirstHit(hits, m, id)
    decreases n
  {
    if m < n {
      FirstStays(hits, m, n - 1, id);
    }
  }

  // ----- the sources -----

  lemma AddRanked(before: seq<Entry>, hits: seq<Hit>, source: string, k: nat, n: nat, id: nat)
    requires 0 < n <= |hits| && k > 0
    ensures var shorter, longer := before + Ranked(hits, source, k, n - 1), before + Ranked(hits, source, k, n);
            var s := Sources(shorter, |shorter|, id);
            Sources(longer, |longer|, id)
            == s + if hits[n - 1].chunkId == id && source !in s then [source] else []
  {
    var shorter := before + Ranked(hits, source, k, n - 1);
    var last := Entry(hits[n - 1], source, Contribution(k, n));
    assert before + Ranked(hits, source, k, n) == shorter + [last];
    AddSources(shorter, last, id);
  }

  lemma {:induction false} RankedSources(hits: seq<Hit>, source: string, k: nat, before: seq<Entry>, n: nat, id: nat)
    requires n <= |hits| && k > 0 && source !in Sources(before, |before|, id)
    ensures var e := before + Ranked(hits, source, k, n);
            Sources(e, |e|, id) == Sources(before, |before|, id) + if FoundIn(hits, n, id) then [source] else []
  {
    if n == 0 {
      assert before + Ranked(hits, source, k, 0) == before;
    } else {
      RankedSources(hits, source, k, before, n - 1, id);
      AddRanked(before, hits, source, k, n, id);
      FoundStep(hits, n, id);
    }
  }

  /** The sources of a chunk name exactly the retrievers that found it. */
  lemma SourcesNameFinders(vector: seq<Hit>, keyword: seq<Hit>, k: nat, id: nat)
    requires k > 0 && id in Candidates(vector, keyword, k)
    ensures ResultFor(vector, keyword, k, id).sources
            == (if Found(vector, id) then ["vector"] else []) + if Found(keyword, id) then ["keyword"] else []
  {
    var p := Ranked(vector, "vector", k, |vector|);
    assert [] + p == p;
    RankedSources(vector, "vector", k, [], |vector|, id);
    assert "vector" != "keyword" by { assert "vector"[0] != "keyword"[0]; }
    RankedSources(keyword, "keyword", k, p, |keyword|, id);
  }
}
