/**
  The knowledge-base store (backend/matrix/kb/store.py): documents and the chunk rows that index them.

  Row identifiers are random and unused, so a chunk row is its columns alone; a document's
  identifier is a parameter that is not yet in use.
 */
module KbStores {
  import opened Prelude
  import opened Chunking
  import opened EmbeddingCache

  const KB_TYPES: set<string> :=
    {"brand", "persona", "rule", "topic", "history", "template", "product", "strategy_card", "image_asset"}

  datatype Document = Document(
    kind: string, content: string, title: Option<string>, refId: Option<nat>, metadata: map<string, string>,
    version: nat, embedding: Vec, isPublished: bool, deleted: bool)

  datatype ChunkRow = ChunkRow(docId: nat, chunkIndex: nat, text: string, tokenCount: nat, embedding: Vec)

  /** What `UpdateDocument` may change; `None` leaves a field as it is. */
  datatype Edit = Edit(content: Option<string>, title: Option<string>, metadata: Option<map<string, string>>,
                       refId: Option<nat>, isPublished: Option<bool>)

  datatype Outcome = Done | ValueError | LookupError

  function Given<T>(change: Option<T>, current: T): T { if change.Some? then change.value else current }

  // ----- the mean vector -----

  /** The sum of the `i`-th components of the first `n` vectors; a short vector adds nothing. */
  function ColumnSum(vectors: seq<Vec>, i: nat, n: nat): real
    requires n <= |vectors|
  {
    if n == 0 then 0.0
    else ColumnSum(vectors, i, n - 1) + if i < |vectors[n - 1]| then vectors[n - 1][i] else 0.0
  }

  function Mean(vectors: seq<Vec>): Vec
  {
    if vectors == [] then []
    else seq(|vectors[0]|, i requires 0 <= i < |vectors[0]| => ColumnSum(vectors, i, |vectors|) / |vectors| as real)
  }

  /** `None` where the source raises `IndexError`: a vector is longer than the first one. */
  method MeanVector(vectors: seq<Vec>) returns (mean: Option<Vec>)
    ensures mean.None? <==> vectors != [] && vectors[0] != [] && exists v | v in vectors :: |v| > |vectors[0]|
    ensures mean.Some? ==> mean.value == Mean(vectors)
  {
    if vectors == [] || vectors[0] == [] {
      return Some([]);
    }
    var dim := |vectors[0]|;
    var sums := new real[dim](_ => 0.0);
    for n := 0 to |vectors|
      invariant forall k | 0 <= k < n :: |vectors[k]| <= dim
      invariant forall i | 0 <= i < dim :: sums[i] == ColumnSum(vectors, i, n)
    {
      var v := vectors[n];
      if |v| > dim {
        assert v in vectors;
        return None;
      }
      for i := 0 to |v|
        invariant forall k | 0 <= k < i :: sums[k] == ColumnSum(vectors, k, n) + v[k]
        invariant forall k | i <= k < dim :: sums[k] == ColumnSum(vectors, k, n)
      {
        sums[i] := sums[i] + v[i];
      }
    }
    mean := Some(seq(dim, i requires 0 <= i < dim reads sums => sums[i] / |vectors| as real));
    assert mean.value == Mean(vectors);
  }

  lemma {:induction false} ColumnWithin(vectors: seq<Vec>, i: nat, n: nat, lo: real, hi: real)
    requires n <= |vectors|
    requires forall v | v in vectors :: i < |v| && lo <= v[i] <= hi
    ensures Times(n as real, lo) <= ColumnSum(vectors, i, n) <= Times(n as real, hi)
  {
    if n > 0 {
      ColumnWithin(vectors, i, n - 1, lo, hi);
      assert vectors[n - 1] in vectors;
    }
  }

  lemma DividedBack(n: real, x: real, sum: real)
    requires n > 0.0
    ensures sum <= Times(n, x) ==> sum / n <= x
    ensures sum >= Times(n, x) ==> sum / n >= x
  {
    assert Times(n, sum / n) == sum;
    if sum / n > x {
      assert Times(n, sum / n - x) > 0.0;
    }
    if sum / n < x {
      assert Times(n, x - sum / n) > 0.0;
    }
  }

  /** The mean of one vector is that vector. */
  lemma MeanOfOne(v: Vec)
    ensures Mean([v]) == v
  {
    forall i | 0 <= i < |v|
      ensures ColumnSum([v], i, 1) == v[i]
    {
      assert ColumnSum([v], i, 0) == 0.0;
    }
  }

  lemma {:induction false} ColumnPrefix(vectors: seq<Vec>, v: Vec, i: nat, n: nat)
    requires n <= |vectors|
    ensures ColumnSum(vectors + [v], i, n) == ColumnSum(vectors, i, n)
  {
    if n > 0 {
      ColumnPrefix(vectors, v, i, n - 1);
    }
  }

  /** One more vector counts as much as each of the others; where it is too short, as zero. */
  lemma MeanOfMore(vectors: seq<Vec>, v: Vec, i: nat)
    requires vectors != [] && i < |vectors[0]|
    ensures |Mean(vectors + [v])| == |Mean(vectors)| == |vectors[0]|
    ensures Mean(vectors + [v])[i] * (|vectors| + 1) as real
            == Mean(vectors)[i] * |vectors| as real + if i < |v| then v[i] else 0.0
  {
    ColumnPrefix(vectors, v, i, |vectors|);
    assert (vectors + [v])[0] == vectors[0];
    var sum, more := ColumnSum(vectors, i, |vectors|), ColumnSum(vectors + [v], i, |vectors| + 1);
    assert sum / |vectors| as real * |vectors| as real == sum;
    assert more / (|vectors| + 1) as real * (|vectors| + 1) as real == more;
  }

  /** Each component of the mean lies between the extremes of that component. */
  lemma MeanWithin(vectors: seq<Vec>, i: nat, lo: real, hi: real)
    requires vectors != [] && forall v | v in vectors :: i < |v| && lo <= v[i] <= hi
    ensures i < |Mean(vectors)| && lo <= Mean(vectors)[i] <= hi
  {
    assert vectors[0] in vectors;
    ColumnWithin(vectors, i, |vectors|, lo, hi);
    DividedBack(|vectors| as real, lo, ColumnSum(vectors, i, |vectors|));
    DividedBack(|vectors| as real, hi, ColumnSum(vectors, i, |vectors|));
  }

  // ----- the chunk table -----

  /** The rows of one document among the first `n`, in table order. */
  function RowsOf(rows: seq<ChunkRow>, id: nat, n: nat): seq<ChunkRow>
    requires n <= |rows|
  {
    if n == 0 then []
    else RowsOf(rows, id, n - 1) + if rows[n - 1].docId == id then [rows[n - 1]] else []
  }

  function Own(table: seq<ChunkRow>, id: nat): seq<ChunkRow> { RowsOf(table, id, |table|) }

  /** The table without the rows of one document. */
  function Deleted(rows: seq<ChunkRow>, id: nat, n: nat): seq<ChunkRow>
    requires n <= |rows|
  {
    if n == 0 then []
    else Deleted(rows, id, n - 1) + if rows[n - 1].docId == id then [] else [rows[n - 1]]
  }

  lemma {:induction false} RowsOfPrefix(rows: seq<ChunkRow>, more: seq<ChunkRow>, id: nat, n: nat)
    requires n <= |rows|
    ensures RowsOf(rows + more, id, n) == RowsOf(rows, id, n)
  {
    if n > 0 {
      RowsOfPrefix(rows, more, id, n - 1);
    }
  }

  lemma RowsOfAdd(rows: seq<ChunkRow>, row: ChunkRow, id: nat)
    ensures Own(rows + [row], id) == Own(rows, id) + if row.docId == id then [row] else []
  {
    RowsOfPrefix(rows, [row], id, |rows|);
  }

  lemma {:induction false} DeletedRows(rows: seq<ChunkRow>, id: nat, n: nat, other: nat)
    requires n <= |rows|
    ensures var left := Deleted(rows, id, n);
            Own(left, other) == if other == id then [] else RowsOf(rows, other, n)
  {
    if n > 0 {
      DeletedRows(rows, id, n - 1, other);
      var left := Deleted(rows, id, n - 1);
      if rows[n - 1].docId != id {
        RowsOfAdd(left, rows[n - 1], other);
      } else {
        assert left + [] == left;
      }
    }
  }

  function RowFor(id: nat, chunk: Chunk, vector: Vec): ChunkRow
  {
    ChunkRow(id, chunk.index, chunk.text, chunk.tokenCount, vector)
  }

  class KbStore {
    const chunker: Chunker
    const embedder: EmbeddingService
    const dimension: nat
    var docs: map<nat, Document>
    var rows: seq<ChunkRow>
    /** How often each document has been updated. */
    ghost var updates: map<nat, nat>

    constructor (chunker: Chunker, embedder: EmbeddingService, dimension: nat)
      requires chunker.Valid() && embedder.Valid()
      requires forall text: string :: |embedder.client.embed(text, embedder.defaultModel)| == dimension
      ensures Valid() && docs == map[] && this.chunker == chunker && this.embedder == embedder
    {
      this.chunker, this.embedder, this.dimension := chunker, embedder, dimension;
      docs, rows, updates := map[], [], map[];
    }

    function Vector(text: string): Vec { embedder.client.embed(text, embedder.defaultModel) }

    /** The chunks that index a text: its split, or one empty chunk when there is none. */
    function ContentChunks(content: string): seq<Chunk>
      requires chunker.Valid()
    {
      var chunks := chunker.Chunks(content);
      if chunks == [] then [Chunk(content, 0, 0)] else chunks
    }

    function IndexRows(id: nat, chunks: seq<Chunk>, n: nat): seq<ChunkRow>
      requires n <= |chunks|
    {
      if n == 0 then []
      else IndexRows(id, chunks, n - 1) + [RowFor(id, chunks[n - 1], Vector(chunks[n - 1].text))]
    }

    function Vectors(chunks: seq<Chunk>): seq<Vec>
    {
      seq(|chunks|, k requires 0 <= k < |chunks| => Vector(chunks[k].text))
    }

    /** A document's rows, vector and version are what its content and history make them. */
    ghost predicate Consistent(id: nat, doc: Document, own: seq<ChunkRow>, updated: nat)
      requires chunker.Valid()
    {
      && own == IndexRows(id, ContentChunks(doc.content), |ContentChunks(doc.content)|)
      && doc.embedding == Mean(Vectors(ContentChunks(doc.content)))
      && doc.version == 1 + updated
    }

    ghost predicate Fine(id: nat, documents: map<nat, Document>, table: seq<ChunkRow>, updated: map<nat, nat>)
      requires chunker.Valid()
    {
      if id in documents then id in updated && Consistent(id, documents[id], Own(table, id), updated[id])
      else id !in updated && Own(table, id) == []
    }

    /** Every document is consistent, and no row is left without one. */
    ghost predicate TableOk(documents: map<nat, Document>, table: seq<ChunkRow>, updated: map<nat, nat>)
      requires chunker.Valid()
    {
      forall id :: Fine(id, documents, table, updated)
    }

    ghost predicate Ready()
      reads embedder
    {
      && chunker.Valid() && embedder.Valid()
      && (forall text: string :: |Vector(text)| == dimension)
    }

    ghost predicate Valid()
      reads this, embedder
    {
      Ready() && TableOk(docs, rows, updates)
    }

    ghost predicate OthersKept(before: seq<ChunkRow>, after: seq<ChunkRow>, id: nat)
    {
      forall other | other != id :: Own(after, other) == Own(before, other)
    }

    lemma OneReplaced(documents: map<nat, Document>, table: seq<ChunkRow>, updated: map<nat, nat>,
                      id: nat, doc: Document, after: seq<ChunkRow>, count: nat)
      requires chunker.Valid() && TableOk(documents, table, updated)
      requires Consistent(id, doc, Own(after, id), count) && OthersKept(table, after, id)
      ensures TableOk(documents[id := doc], after, updated[id := count])
    {
      var documents', updated' := documents[id := doc], updated[id := count];
      forall other: nat
        ensures Fine(other, documents', after, updated')
      {
        assert Fine(other, documents, table, updated);
        assert other == id || Own(after, other) == Own(table, other);
      }
    }

    lemma {:induction false} IndexRowsAt(id: nat, chunks: seq<Chunk>, n: nat)
      requires n <= |chunks|
      ensures |IndexRows(id, chunks, n)| == n
      ensures forall k | 0 <= k < n :: IndexRows(id, chunks, n)[k] == RowFor(id, chunks[k], Vector(chunks[k].text))
    {
      if n > 0 {
        IndexRowsAt(id, chunks, n - 1);
      }
    }

    /**
      A document has one row for each chunk of its content, or one for an empty content, with the
      indices 0, 1, 2, ... in order and the vector that the embedder has for the chunk's text.
     */
    lemma RowsNumbered(id: nat, k: nat)
      requires Valid() && id in docs && k < |Own(rows, id)|
      ensures var own, content := Own(rows, id), docs[id].content;
              var chunks := if chunker.Chunks(content) == [] then [Chunk(content, 0, 0)] else chunker.Chunks(content);
              && |own| == |chunks|
              && own[k] == ChunkRow(id, k, chunks[k].text, chunks[k].tokenCount,
                                    embedder.client.embed(chunks[k].text, embedder.defaultModel))
    {
      var chunks := ContentChunks(docs[id].content);
      assert Fine(id, docs, rows, updates);
      IndexRowsAt(id, chunks, |chunks|);
    }

    method EmbedChunks(chunks: seq<Chunk>) returns (vectors: seq<Vec>)
      requires embedder.Valid()
      modifies embedder, embedder.client
      ensures embedder.Valid() && vectors == Vectors(chunks)
    {
      var texts := seq(|chunks|, k requires 0 <= k < |chunks| => chunks[k].text);
      vectors := embedder.EmbedBatch(texts, None);
      assert forall k | 0 <= k < |chunks| :: vectors[k] == Vector(texts[k]);
    }

    lemma {:induction false} Written(table: seq<ChunkRow>, id: nat, chunks: seq<Chunk>, n: nat, other: nat)
      requires n <= |chunks|
      ensures var t := table + IndexRows(id, chunks, n);
              Own(t, other)
              == Own(table, other) + if other == id then IndexRows(id, chunks, n) else []
    {
      var before := table + IndexRows(id, chunks, n);
      if n == 0 {
        assert before == table;
      } else {
        var shorter, row := IndexRows(id, chunks, n - 1), RowFor(id, chunks[n - 1], Vector(chunks[n - 1].text));
        Written(table, id, chunks, n - 1, other);
        assert before == (table + shorter) + [row];
        RowsOfAdd(table + shorter, row, other);
      }
    }

    method WriteChunks(id: nat, chunks: seq<Chunk>, vectors: seq<Vec>)
      requires vectors == Vectors(chunks)
      modifies `rows
      ensures rows == old(rows) + IndexRows(id, chunks, |chunks|)
    {
      for k := 0 to |chunks|
        invariant rows == old(rows) + IndexRows(id, chunks, k)
      {
        rows := rows + [RowFor(id, chunks[k], vectors[k])];
      }
    }

    method SplitContent(content: string) returns (chunks: seq<Chunk>)
      requires chunker.Valid()
      ensures chunks == ContentChunks(content)
    {
      chunks := chunker.Split(content);
      if chunks == [] {
        chunks := [Chunk(content, 0, 0)];
      }
    }

    /** All vectors have the embedder's dimension, so the mean exists. */
    method DocumentVector(vectors: seq<Vec>, ghost chunks: seq<Chunk>) returns (mean: Vec)
      requires vectors == Vectors(chunks) && forall text: string :: |Vector(text)| == dimension
      ensures mean == Mean(vectors)
    {
      assert forall k | 0 <= k < |vectors| :: |vectors[k]| == |Vector(chunks[k].text)| == dimension;
      var m := MeanVector(vectors);
      mean := m.value;
    }

    /** A document's own rows are those of `chunks`, and nobody else's have changed. */
    ghost predicate Rewritten(before: seq<ChunkRow>, after: seq<ChunkRow>, id: nat, chunks: seq<Chunk>)
    {
      Own(after, id) == IndexRows(id, chunks, |chunks|) && OthersKept(before, after, id)
    }

    lemma RewrittenBy(before: seq<ChunkRow>, kept: seq<ChunkRow>, id: nat, chunks: seq<Chunk>)
      requires kept == Deleted(before, id, |before|) || (kept == before && Own(before, id) == [])
      ensures Rewritten(before, kept + IndexRows(id, chunks, |chunks|), id, chunks)
    {
      forall other: nat
        ensures Own(kept, other) == if other == id then [] else Own(before, other)
        ensures var t := kept + IndexRows(id, chunks, |chunks|);
                Own(t, other)
                == Own(kept, other) + if other == id then IndexRows(id, chunks, |chunks|) else []
      {
        if kept == Deleted(before, id, |before|) {
          DeletedRows(before, id, |before|, other);
        }
        Written(kept, id, chunks, |chunks|, other);
      }
    }

    method CreateDocument(id: nat, kind: string, content: string, refId: Option<nat>, title: Option<string>,
                          metadata: map<string, string>, isPublished: bool)
      returns (outcome: Outcome)
      requires Valid() && id !in docs
      modifies `docs, `rows, `updates, embedder, embedder.client
      ensures Valid() && (outcome == ValueError || outcome == Done)
      ensures outcome == Done <==> content != "" && kind in {"brand", "persona", "rule", "topic", "history", "template",
                                                             "product", "strategy_card", "image_asset"}
      ensures outcome == ValueError ==> unchanged(this) && unchanged(embedder) && unchanged(embedder.client)
      ensures outcome == Done ==> updates == old(updates)[id := 0]
      ensures outcome == Done ==> Rewritten(old(rows), rows, id, ContentChunks(content))
      ensures outcome == Done ==>
        docs == old(docs)[id := Document(kind, content, title, refId, metadata, 1,
                                         Mean(Vectors(ContentChunks(content))), isPublished, false)]
    {
      if kind !in KB_TYPES || content == "" {
        return ValueError;
      }
      assert Fine(id, docs, rows, updates);
      var chunks := SplitContent(content);
      var vectors := EmbedChunks(chunks);
      var vector := DocumentVector(vectors, chunks);
      docs := docs[id := Document(kind, content, title, refId, metadata, 1, vector, isPublished, false)];
      updates := updates[id := 0];
      WriteChunks(id, chunks, vectors);
      RewrittenBy(old(rows), old(rows), id, chunks);
      assert Consistent(id, docs[id], Own(rows, id), 0);
      OneReplaced(old(docs), old(rows), old(updates), id, docs[id], rows, 0);
      outcome := Done;
    }

    /** The document whose content has changed is split and embedded again. */
    method ReplaceChunks(id: nat)
      requires Ready() && id in docs
      modifies `docs, `rows, embedder, embedder.client
      ensures Ready()
      ensures docs == old(docs)[id := Reindexed(old(docs)[id])]
      ensures Rewritten(old(rows), rows, id, ContentChunks(old(docs)[id].content))
    {
      rows := Deleted(rows, id, |rows|);
      ghost var kept := rows;
      var doc := docs[id];
      var chunks := SplitContent(doc.content);
      var vectors := EmbedChunks(chunks);
      WriteChunks(id, chunks, vectors);
      RewrittenBy(old(rows), kept, id, chunks);
      var vector := DocumentVector(vectors, chunks);
      docs := docs[id := doc.(embedding := vector)];
    }

    /** A document with the vector its content calls for. */
    function Reindexed(doc: Document): Document
      requires chunker.Valid()
    {
      doc.(embedding := Mean(Vectors(ContentChunks(doc.content))))
    }

    /** The document after an edit, its index aside. */
    static function Edited(doc: Document, edit: Edit): Document
    {
      doc.(content := Given(edit.content, doc.content),
           title := if edit.title.Some? then edit.title else doc.title,
           metadata := Given(edit.metadata, doc.metadata),
           refId := if edit.refId.Some? then edit.refId else doc.refId,
           isPublished := Given(edit.isPublished, doc.isPublished),
           version := doc.version + 1)
    }

    /** An edit changes the fields it gives and no other, and is one more version. */
    static lemma EditedExactly(was: Document, edit: Edit)
      ensures var doc := Edited(was, edit);
              && doc.content == (if edit.content.Some? then edit.content.value else was.content)
              && doc.title == (if edit.title.Some? then edit.title else was.title)
              && doc.metadata == (if edit.metadata.Some? then edit.metadata.value else was.metadata)
              && doc.refId == (if edit.refId.Some? then edit.refId else was.refId)
              && doc.isPublished == (if edit.isPublished.Some? then edit.isPublished.value else was.isPublished)
              && doc.version == was.version + 1
              && doc.kind == was.kind && doc.deleted == was.deleted && doc.embedding == was.embedding
    {
    }

    /** An edit that leaves the content as it is leaves the rows as they are. */
    method UpdateDocument(id: nat, edit: Edit) returns (outcome: Outcome)
      requires Valid()
      modifies `docs, `rows, `updates, embedder, embedder.client
      ensures Valid() && outcome == if id in old(docs) && !old(docs)[id].deleted then Done else LookupError
      ensures outcome == LookupError ==> unchanged(this) && unchanged(embedder) && unchanged(embedder.client)
      ensures outcome == Done ==>
        && id in old(updates) && updates == old(updates)[id := old(updates)[id] + 1]
        && docs == old(docs)[id := Reindexed(Edited(old(docs)[id], edit))]
        && Rewritten(old(rows), rows, id, ContentChunks(docs[id].content))
      ensures outcome == Done && docs[id].content == old(docs)[id].content ==> rows == old(rows) && unchanged(embedder)
    {
      if id !in docs || docs[id].deleted {
        return LookupError;
      }
      assert Fine(id, docs, rows, updates);
      var contentChanged := edit.content.Some? && edit.content.value != docs[id].content;
      docs := docs[id := Edited(docs[id], edit)];
      updates := updates[id := updates[id] + 1];
      if contentChanged {
        ReplaceChunks(id);
      }
      assert Consistent(id, docs[id], Own(rows, id), updates[id]);
      assert docs == old(docs)[id := docs[id]] && updates == old(updates)[id := updates[id]];
      OneReplaced(old(docs), old(rows), old(updates), id, docs[id], rows, updates[id]);
      outcome := Done;
    }

    /** The rows of a deleted document stay in the table. */
    method SoftDelete(id: nat) returns (deleted: bool)
      requires Valid()
      modifies `docs
      ensures Valid() && deleted == (id in old(docs) && !old(docs)[id].deleted)
      ensures docs == if deleted then old(docs)[id := old(docs)[id].(deleted := true, isPublished := false)]
                      else old(docs)
    {
      if id !in docs || docs[id].deleted {
        return false;
      }
      assert Fine(id, docs, rows, updates);
      docs := docs[id := docs[id].(deleted := true, isPublished := false)];
      assert updates == updates[id := updates[id]];
      OneReplaced(old(docs), rows, updates, id, docs[id], rows, updates[id]);
      deleted := true;
    }
  }
}
