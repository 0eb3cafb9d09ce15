/**
  The embedding service with its LRU cache (backend/matrix/kb/embedding.py).

  The text hash is taken to be injective, so a cache key is the text itself with the model.
  The embedder is an unknown function; the client answers every text of a request.
 */
module EmbeddingCache {
  import opened Prelude
  import opened Recency

  type Vec = seq<real>

  datatype Key = Key(text: string, model: string)

  class EmbeddingClient {
    const embed: (string, string) -> Vec
    /** The requests made so far. */
    ghost var calls: seq<seq<string>>

    constructor (embed: (string, string) -> Vec)
      ensures this.embed == embed && calls == []
    {
      this.embed := embed;
      calls := [];
    }

    method Embed(texts: seq<string>, model: string) returns (vectors: seq<Vec>)
      modifies this
      ensures |vectors| == |texts| && forall i | 0 <= i < |texts| :: vectors[i] == embed(texts[i], model)
      ensures calls == old(calls) + [texts]
    {
      vectors := seq(|texts|, i requires 0 <= i < |texts| => embed(texts[i], model));
      calls := calls + [texts];
    }
  }

  /** The texts among the first `n` that the cache cannot answer, with their positions. */
  function Misses(texts: seq<string>, model: string, cached: set<Key>, n: nat): seq<(nat, string)>
    requires n <= |texts|
  {
    if n == 0 then []
    else if Key(texts[n - 1], model) in cached then Misses(texts, model, cached, n - 1)
    else Misses(texts, model, cached, n - 1) + [(n - 1, texts[n - 1])]
  }

  /** The cache hits among the first `n` texts, in order. */
  function Hits(texts: seq<string>, model: string, cached: set<Key>, n: nat): seq<Key>
    requires n <= |texts|
  {
    if n == 0 then []
    else
      var key := Key(texts[n - 1], model);
      Hits(texts, model, cached, n - 1) + if key in cached then [key] else []
  }

  /** The keys of the first `n` misses, in order. */
  function KeysOf(misses: seq<(nat, string)>, model: string, n: nat): seq<Key>
    requires n <= |misses|
  {
    if n == 0 then [] else KeysOf(misses, model, n - 1) + [Key(misses[n - 1].1, model)]
  }

  function TextsOf(misses: seq<(nat, string)>): (r: seq<string>)
    ensures |r| == |misses| && forall i | 0 <= i < |r| :: r[i] == misses[i].1
  {
    seq(|misses|, i requires 0 <= i < |misses| => misses[i].1)
  }

  lemma {:induction false} MissesAre(texts: seq<string>, model: string, cached: set<Key>, n: nat)
    requires n <= |texts|
    ensures var m := Misses(texts, model, cached, n);
            && (forall j | 0 <= j < |m| :: m[j].0 < n && m[j].1 == texts[m[j].0] && Key(m[j].1, model) !in cached)
            && (forall i, j | 0 <= i < j < |m| :: m[i].0 < m[j].0)
            && (forall i | 0 <= i < n && Key(texts[i], model) !in cached :: (i, texts[i]) in m)
  {
    if n > 0 {
      MissesAre(texts, model, cached, n - 1);
    }
  }

  /** Consecutive requests cover `texts`: full ones of `size`, and a last one of what is left. */
  function Batches(texts: seq<string>, size: nat, start: nat): seq<seq<string>>
    requires size > 0 && start <= |texts|
    decreases |texts| - start
  {
    if start == |texts| then []
    else
      var end := Min(start + size, |texts|);
      [texts[start..end]] + Batches(texts, size, end)
  }

  function Concat(parts: seq<seq<string>>): seq<string>
  {
    if parts == [] then [] else parts[0] + Concat(parts[1..])
  }

  /** The requests are the misses in order, in ceil(misses / size) pieces of at most `size`. */
  lemma {:induction false} BatchesCover(texts: seq<string>, size: nat, start: nat)
    requires size > 0 && start <= |texts|
    ensures var b := Batches(texts, size, start);
            && Concat(b) == texts[start..]
            && (forall i | 0 <= i < |b| :: 0 < |b[i]| <= size)
            && (if start == |texts| then b == [] else (|b| - 1) * size < |texts| - start <= |b| * size)
    decreases |texts| - start
  {
    if start < |texts| {
      var end := Min(start + size, |texts|);
      BatchesCover(texts, size, end);
      var b := Batches(texts, size, start);
      assert b[1..] == Batches(texts, size, end);
      assert texts[start..] == texts[start..end] + texts[end..];
    }
  }

  /** The requests made and those still to be made for the misses from `start` on. */
  function AllCalls(calls: seq<seq<string>>, misses: seq<(nat, string)>, size: nat, start: nat): seq<seq<string>>
    requires size > 0 && start <= |misses|
  {
    calls + Batches(TextsOf(misses), size, start)
  }

  /** One more request leaves the later ones to be made. */
  lemma CallsStep(calls: seq<seq<string>>, misses: seq<(nat, string)>, size: nat, start: nat, end: nat)
    requires size > 0 && start < |misses| && end == Min(start + size, |misses|)
    ensures AllCalls(calls + [TextsOf(misses[start..end])], misses, size, end) == AllCalls(calls, misses, size, start)
  {
    var rest := Batches(TextsOf(misses), size, end);
    var batch := TextsOf(misses[start..end]);
    assert batch == TextsOf(misses)[start..end];
    assert (calls + [batch]) + rest == calls + ([batch] + rest);
  }

  /** The answers that are present, in order. */
  function Present(results: seq<Option<Vec>>, n: nat): seq<Vec>
    requires n <= |results|
  {
    if n == 0 then []
    else Present(results, n - 1) + if results[n - 1].Some? then [results[n - 1].value] else []
  }

  lemma {:induction false} AllPresent(results: seq<Option<Vec>>, n: nat)
    requires n <= |results| && forall i | 0 <= i < n :: results[i].Some?
    ensures |Present(results, n)| == n
    ensures forall i | 0 <= i < n :: Present(results, n)[i] == results[i].value
  {
    if n > 0 {
      AllPresent(results, n - 1);
    }
  }

  /** Every answer given so far is the embedder's. */
  ghost predicate Right(results: seq<Option<Vec>>, texts: seq<string>, model: string,
                        embed: (string, string) -> Vec)
  {
    && |results| == |texts|
    && forall i | 0 <= i < |results| :: results[i].Some? ==> results[i].value == embed(texts[i], model)
  }

  /** What the cache could answer is answered, and so are the first `done` misses. */
  ghost predicate Answered(results: seq<Option<Vec>>, texts: seq<string>, model: string, cached: set<Key>,
                           misses: seq<(nat, string)>, done: nat)
  {
    && |results| == |texts| && done <= |misses|
    && (forall i | 0 <= i < |results| && Key(texts[i], model) in cached :: results[i].Some?)
    && (forall q | 0 <= q < done :: misses[q].0 < |results| && results[misses[q].0].Some?)
  }

  /** The first `n` texts are looked up: hits are answered by the embedder's vectors, misses are not. */
  ghost predicate Looked(results: seq<Option<Vec>>, texts: seq<string>, model: string, cached: set<Key>,
                         embed: (string, string) -> Vec, n: nat)
  {
    && |results| == |texts|
    && forall i | 0 <= i < |results| ::
         results[i] == if i < n && Key(texts[i], model) in cached then Some(embed(texts[i], model)) else None
  }

  /** The history once the first `n` texts are looked up. */
  function AfterHits(before: seq<Key>, texts: seq<string>, model: string, cached: set<Key>, n: nat): seq<Key>
    requires n <= |texts|
  {
    before + Hits(texts, model, cached, n)
  }

  lemma AfterHitsStep(before: seq<Key>, texts: seq<string>, model: string, cached: set<Key>, n: nat)
    requires n < |texts|
    ensures var key := Key(texts[n], model);
            AfterHits(before, texts, model, cached, n + 1)
            == AfterHits(before, texts, model, cached, n) + if key in cached then [key] else []
  {
  }

  lemma AnsweredAll(results: seq<Option<Vec>>, texts: seq<string>, model: string, cached: set<Key>,
                    misses: seq<(nat, string)>, embed: (string, string) -> Vec)
    requires misses == Misses(texts, model, cached, |texts|)
    requires Answered(results, texts, model, cached, misses, |misses|) && Right(results, texts, model, embed)
    ensures |Present(results, |results|)| == |texts|
    ensures forall i | 0 <= i < |texts| :: Present(results, |results|)[i] == embed(texts[i], model)
  {
    MissesAre(texts, model, cached, |texts|);
    forall i | 0 <= i < |texts|
      ensures results[i].Some?
    {
      if Key(texts[i], model) !in cached {
        assert (i, texts[i]) in misses;
        var q :| 0 <= q < |misses| && misses[q] == (i, texts[i]);
        assert results[misses[q].0].Some?;
      }
    }
    AllPresent(results, |results|);
  }

  lemma AnswerOne(results: seq<Option<Vec>>, texts: seq<string>, model: string, cached: set<Key>,
                  misses: seq<(nat, string)>, done: nat, embed: (string, string) -> Vec)
    requires misses == Misses(texts, model, cached, |texts|) && done < |misses|
    requires Answered(results, texts, model, cached, misses, done) && Right(results, texts, model, embed)
    ensures misses[done].0 < |results|
    ensures var r := results[misses[done].0 := Some(embed(misses[done].1, model))];
            Answered(r, texts, model, cached, misses, done + 1) && Right(r, texts, model, embed)
  {
    MissesAre(texts, model, cached, |texts|);
  }

  /** What putting the first `n` of these adds to the history: a cache of no capacity is never touched. */
  function Puts(misses: seq<(nat, string)>, model: string, n: nat, cap: nat): seq<Key>
    requires n <= |misses|
  {
    if cap == 0 then [] else KeysOf(misses, model, n)
  }

  lemma PutsStep(misses: seq<(nat, string)>, model: string, n: nat, cap: nat)
    requires n < |misses|
    ensures Puts(misses, model, n + 1, cap)
            == Puts(misses, model, n, cap) + if cap == 0 then [] else [Key(misses[n].1, model)]
  {
  }

  lemma {:induction false} KeysOfSlice(misses: seq<(nat, string)>, model: string, start: nat, end: nat, n: nat)
    requires start <= end <= |misses| && n <= end - start
    ensures KeysOf(misses, model, start + n) == KeysOf(misses, model, start) + KeysOf(misses[start..end], model, n)
  {
    if n > 0 {
      KeysOfSlice(misses, model, start, end, n - 1);
    }
  }

  /** The history once the first `n` misses are put. */
  function AfterPuts(before: seq<Key>, misses: seq<(nat, string)>, model: string, n: nat, cap: nat): seq<Key>
    requires n <= |misses|
  {
    before + Puts(misses, model, n, cap)
  }

  /** Batch by batch the misses are put in their order. */
  lemma AfterPutsJoin(before: seq<Key>, misses: seq<(nat, string)>, model: string, start: nat, end: nat, cap: nat)
    requires start <= end <= |misses|
    ensures AfterPuts(before, misses, model, end, cap)
            == AfterPuts(before, misses, model, start, cap) + Puts(misses[start..end], model, end - start, cap)
  {
    KeysOfSlice(misses, model, start, end, end - start);
    Assoc(before, Puts(misses, model, start, cap), Puts(misses[start..end], model, end - start, cap));
  }

  /** The dictionary holds the embedder's vector of every listed key, and nothing else. */
  ghost predicate Mirrors(order: seq<Key>, values: map<Key, Vec>, embed: (string, string) -> Vec)
  {
    && (forall k :: k in values <==> k in order)
    && (forall k | k in values :: values[k] == embed(k.text, k.model))
  }

  lemma MirrorsPut(order: seq<Key>, values: map<Key, Vec>, embed: (string, string) -> Vec, key: Key)
    requires Mirrors(order, values, embed)
    ensures Mirrors(order + [key], values[key := embed(key.text, key.model)], embed)
  {
  }

  lemma MirrorsPop(order: seq<Key>, values: map<Key, Vec>, embed: (string, string) -> Vec)
    requires Mirrors(order, values, embed) && order != []
    requires forall x :: x in order[1..] <==> x in order && x != order[0]
    ensures Mirrors(order[1..], values - {order[0]}, embed)
  {
  }

  /**
    A call of `embed_batch` that has looked up its texts: the first `start` misses are answered,
    and `vectors` is the client's answer to the next batch once it has come.
   */
  datatype Job = Job(texts: seq<string>, model: string, misses: seq<(nat, string)>, results: seq<Option<Vec>>,
                     start: nat, vectors: Option<seq<Vec>>)

  /** The stretches of a call between two pauses, and a clearing of the cache. */
  datatype Event = Begin(texts: seq<string>, model: Option<string>) | Ask(job: nat) | Take(job: nat) | Clear

  class EmbeddingService {
    const client: EmbeddingClient
    const defaultModel: string
    const batchSize: nat
    const capacity: nat
    /** The ordered dictionary: its keys from least to most recently used, and its values. */
    var order: seq<Key>
    var values: map<Key, Vec>
    /** Every hit and every put since the cache was last cleared. */
    ghost var touched: seq<Key>

    ghost predicate Valid()
      reads this
    {
      && batchSize > 0
      && order == MostRecent(touched, capacity)
      && Mirrors(order, values, client.embed)
    }

    /** `None` where the source raises `ValueError`. */
    static method Create(client: EmbeddingClient, defaultModel: string, batchSize: int, cacheSize: int)
      returns (r: EmbeddingService?)
      ensures r == null <==> batchSize <= 0 || cacheSize < 0
      ensures r != null ==> fresh(r) && r.Valid() && r.client == client && r.defaultModel == defaultModel
      ensures r != null ==> r.batchSize == batchSize && r.capacity == cacheSize && r.touched == []
    {
      if batchSize <= 0 || cacheSize < 0 {
        return null;
      }
      r := new EmbeddingService(client, defaultModel, batchSize, cacheSize);
    }

    constructor (client: EmbeddingClient, defaultModel: string, batchSize: nat, capacity: nat)
      requires batchSize > 0
      ensures Valid() && touched == []
      ensures this.client == client && this.defaultModel == defaultModel
      ensures this.batchSize == batchSize && this.capacity == capacity
    {
      this.client, this.defaultModel := client, defaultModel;
      this.batchSize, this.capacity := batchSize, capacity;
      order, values, touched := [], map[], [];
    }

    method ClearCache()
      requires Valid()
      modifies `order, `values, `touched
      ensures Valid() && order == [] && touched == []
    {
      order, values, touched := [], map[], [];
    }

    method CacheGet(key: Key) returns (value: Option<Vec>)
      requires Valid()
      modifies `order, `touched
      ensures Valid() && value == if key in values then Some(client.embed(key.text, key.model)) else None
      ensures touched == old(touched) + if key in values then [key] else []
    {
      if capacity == 0 || key !in values {
        return None;
      }
      HitListed(touched, capacity, key);
      order := ToEnd(order, key);
      touched := touched + [key];
      value := Some(values[key]);
    }

    method CachePut(key: Key, value: Vec)
      requires Valid() && value == client.embed(key.text, key.model)
      modifies `order, `values, `touched
      ensures Valid() && touched == old(touched) + if capacity == 0 then [] else [key]
    {
      if capacity == 0 {
        return;
      }
      if key in values {
        HitListed(touched, capacity, key);
        order, values := ToEnd(order, key), values[key := value];
      } else {
        PutNew(touched, capacity, key);
        MirrorsPut(order, values, client.embed, key);
        order, values := order + [key], values[key := value];
        if |order| > capacity {
          MirrorsPop(order, values, client.embed);
          order, values := order[1..], values - {order[0]};
        }
      }
      touched := touched + [key];
    }

    /** One lookup: a hit is answered and touched, a miss is listed. */
    method LookOne(texts: seq<string>, model: string, i: nat, given: seq<Option<Vec>>,
                   listed: seq<(nat, string)>, ghost before: seq<Key>)
      returns (results: seq<Option<Vec>>, misses: seq<(nat, string)>)
      requires Valid() && i < |texts| && listed == Misses(texts, model, values.Keys, i)
      requires touched == AfterHits(before, texts, model, values.Keys, i)
      requires Looked(given, texts, model, values.Keys, client.embed, i)
      modifies `order, `touched
      ensures Valid() && misses == Misses(texts, model, values.Keys, i + 1)
      ensures touched == AfterHits(before, texts, model, values.Keys, i + 1)
      ensures Looked(results, texts, model, values.Keys, client.embed, i + 1)
    {
      results, misses := given, listed;
      AfterHitsStep(before, texts, model, values.Keys, i);
      var value := CacheGet(Key(texts[i], model));
      if value.Some? {
        results := results[i := value];
      } else {
        misses := misses + [(i, texts[i])];
      }
    }

    /** The lookups of one call. */
    method Lookup(texts: seq<string>, model: string)
      returns (results: seq<Option<Vec>>, misses: seq<(nat, string)>)
      requires Valid()
      modifies `order, `touched
      ensures Valid() && misses == Misses(texts, model, values.Keys, |texts|)
      ensures touched == AfterHits(old(touched), texts, model, values.Keys, |texts|)
      ensures Looked(results, texts, model, values.Keys, client.embed, |texts|)
    {
      results := seq(|texts|, _ => None);
      misses := [];
      for i := 0 to |texts|
        invariant Valid() && misses == Misses(texts, model, values.Keys, i)
        invariant touched == AfterHits(old(touched), texts, model, values.Keys, i)
        invariant Looked(results, texts, model, values.Keys, client.embed, i)
      {
        results, misses := LookOne(texts, model, i, results, misses, old(touched));
      }
    }

    /** One put: the vector answers the miss. */
    method StoreOne(vector: Vec, model: string, given: seq<Option<Vec>>, miss: (nat, string),
                    ghost texts: seq<string>, ghost cached: set<Key>,
                    ghost misses: seq<(nat, string)>, ghost done: nat)
      returns (results: seq<Option<Vec>>)
      requires Valid() && misses == Misses(texts, model, cached, |texts|) && done < |misses|
      requires miss == misses[done] && vector == client.embed(miss.1, model)
      requires Right(given, texts, model, client.embed) && Answered(given, texts, model, cached, misses, done)
      modifies `order, `values, `touched
      ensures Valid() && Right(results, texts, model, client.embed)
      ensures Answered(results, texts, model, cached, misses, done + 1)
      ensures touched == old(touched) + if capacity == 0 then [] else [Key(miss.1, model)]
    {
      AnswerOne(given, texts, model, cached, misses, done, client.embed);
      results := given[miss.0 := Some(vector)];
      CachePut(Key(miss.1, model), vector);
    }

    /** The puts of one request: its vectors are the answers to the misses from `start`. */
    method Store(batch: seq<(nat, string)>, vectors: seq<Vec>, model: string, given: seq<Option<Vec>>,
                 ghost texts: seq<string>, ghost cached: set<Key>, ghost misses: seq<(nat, string)>, ghost start: nat)
      returns (results: seq<Option<Vec>>)
      requires Valid() && misses == Misses(texts, model, cached, |texts|)
      requires start + |batch| <= |misses| && batch == misses[start..start + |batch|]
      requires |vectors| == |batch|
      requires forall i | 0 <= i < |batch| :: vectors[i] == client.embed(batch[i].1, model)
      requires Right(given, texts, model, client.embed) && Answered(given, texts, model, cached, misses, start)
      modifies `order, `values, `touched
      ensures Valid() && Right(results, texts, model, client.embed)
      ensures Answered(results, texts, model, cached, misses, start + |batch|)
      ensures touched == old(touched) + Puts(batch, model, |batch|, capacity)
    {
      results := given;
      for j := 0 to |batch|
        invariant Valid() && Right(results, texts, model, client.embed)
        invariant Answered(results, texts, model, cached, misses, start + j)
        invariant touched == old(touched) + Puts(batch, model, j, capacity)
      {
        PutsStep(batch, model, j, capacity);
        results := StoreOne(vectors[j], model, results, batch[j], texts, cached, misses, start + j);
      }
    }

    // ----- a call between its pauses -----

    /** Nothing here speaks of the cache as it is now: other calls cannot spoil a job. */
    ghost predicate JobOk(job: Job, cached: set<Key>)
    {
      && job.misses == Misses(job.texts, job.model, cached, |job.texts|) && job.start <= |job.misses|
      && Right(job.results, job.texts, job.model, client.embed)
      && Answered(job.results, job.texts, job.model, cached, job.misses, job.start)
      && (job.vectors.Some? ==> AnswersBatch(job.vectors.value, NextBatch(job), job.model))
    }

    ghost predicate AnswersBatch(vectors: seq<Vec>, batch: seq<(nat, string)>, model: string)
    {
      |vectors| == |batch| && forall i | 0 <= i < |batch| :: vectors[i] == client.embed(batch[i].1, model)
    }

    function End(job: Job): nat { Min(job.start + batchSize, |job.misses|) }

    function NextBatch(job: Job): seq<(nat, string)>
      requires job.start <= |job.misses|
    {
      job.misses[job.start..End(job)]
    }

    function UseModel(model: Option<string>): string
    {
      if model.Some? && model.value != "" then model.value else defaultModel
    }

    /** Up to the first request. */
    method BeginJob(texts: seq<string>, model: Option<string>) returns (job: Job)
      requires Valid()
      modifies `order, `touched
      ensures Valid() && JobOk(job, values.Keys)
      ensures job.texts == texts && job.model == UseModel(model) && job.start == 0 && job.vectors.None?
      ensures touched == AfterHits(old(touched), texts, UseModel(model), values.Keys, |texts|)
    {
      var results, misses := Lookup(texts, UseModel(model));
      job := Job(texts, UseModel(model), misses, results, 0, None);
    }

    /** The request for the next batch, and its answer. */
    method AskNext(job: Job, ghost cached: set<Key>) returns (next: Job)
      requires Valid() && JobOk(job, cached) && job.start < |job.misses|
      modifies client
      ensures JobOk(next, cached) && next.vectors.Some? && next == job.(vectors := next.vectors)
      ensures client.calls == old(client.calls) + [TextsOf(NextBatch(job))]
    {
      var vectors := client.Embed(TextsOf(NextBatch(job)), job.model);
      next := job.(vectors := Some(vectors));
    }

    /** From the answer up to the next pause. */
    method TakeBatch(job: Job, ghost cached: set<Key>) returns (next: Job)
      requires Valid() && JobOk(job, cached) && job.vectors.Some?
      modifies `order, `values, `touched
      ensures Valid() && JobOk(next, cached)
      ensures next == job.(start := End(job), vectors := None, results := next.results)
      ensures touched == old(touched) + Puts(NextBatch(job), job.model, |NextBatch(job)|, capacity)
    {
      var results := Store(NextBatch(job), job.vectors.value, job.model, job.results,
                           job.texts, cached, job.misses, job.start);
      next := job.(start := End(job), vectors := None, results := results);
    }

    /** One request and its puts, with no other call between. */
    method Exchange(job: Job, ghost cached: set<Key>) returns (next: Job)
      requires Valid() && JobOk(job, cached) && job.start < |job.misses|
      modifies `order, `values, `touched, client
      ensures Valid() && JobOk(next, cached) && next.start == End(job) && SameCall(next, job)
      ensures touched == old(touched) + Puts(NextBatch(job), job.model, |NextBatch(job)|, capacity)
      ensures client.calls == old(client.calls) + [TextsOf(NextBatch(job))]
    {
      next := AskNext(job, cached);
      next := TakeBatch(next, cached);
    }

    predicate SameCall(job: Job, other: Job)
    {
      job.texts == other.texts && job.model == other.model && job.misses == other.misses
    }

    /** From `before` and with `total` requests to make in all, the first batches of `job` have brought us here. */
    ghost predicate FetchedSoFar(job: Job, before: seq<Key>, total: seq<seq<string>>,
                                 history: seq<Key>, calls: seq<seq<string>>)
      requires batchSize > 0 && job.start <= |job.misses|
    {
      && history == AfterPuts(before, job.misses, job.model, job.start, capacity)
      && AllCalls(calls, job.misses, batchSize, job.start) == total
    }

    lemma FetchedMore(job: Job, before: seq<Key>, total: seq<seq<string>>, history: seq<Key>, calls: seq<seq<string>>,
                      next: Job)
      requires batchSize > 0 && job.start < |job.misses| && SameCall(next, job) && next.start == End(job)
      requires FetchedSoFar(job, before, total, history, calls)
      ensures FetchedSoFar(next, before, total, history + Puts(NextBatch(job), job.model, |NextBatch(job)|, capacity),
                           calls + [TextsOf(NextBatch(job))])
    {
      CallsStep(calls, job.misses, batchSize, job.start, End(job));
      AfterPutsJoin(before, job.misses, job.model, job.start, End(job), capacity);
    }

    /** The requests of one call, in batches, with their puts, when no other call comes between. */
    method Fetch(begun: Job, ghost cached: set<Key>) returns (job: Job)
      requires Valid() && JobOk(begun, cached) && begun.start == 0
      modifies `order, `values, `touched, client
      ensures Valid() && JobOk(job, cached) && SameCall(job, begun) && job.start == |job.misses|
      ensures touched == AfterPuts(old(touched), begun.misses, begun.model, |begun.misses|, capacity)
      ensures client.calls == old(client.calls) + Batches(TextsOf(begun.misses), batchSize, 0)
    {
      ghost var total, before := AllCalls(client.calls, begun.misses, batchSize, 0), touched;
      job := begun;
      while job.start < |job.misses|
        invariant Valid() && JobOk(job, cached) && SameCall(job, begun)
        invariant FetchedSoFar(job, before, total, touched, client.calls)
        decreases |job.misses| - job.start
      {
        ghost var last, history, calls := job, touched, client.calls;
        job := Exchange(job, cached);
        FetchedMore(last, before, total, history, calls, job);
      }
    }

    /** The finished call returns the embedder's vectors, text by text. */
    ghost predicate AnswersRight(job: Job)
    {
      var vectors := Present(job.results, |job.results|);
      && |vectors| == |job.texts|
      && forall i | 0 <= i < |job.texts| :: vectors[i] == client.embed(job.texts[i], job.model)
    }

    lemma FinishedRight(job: Job, cached: set<Key>)
      requires JobOk(job, cached) && job.start == |job.misses|
      ensures AnswersRight(job)
    {
      AnsweredAll(job.results, job.texts, job.model, cached, job.misses, client.embed);
    }

    /**
      The answers are the embedder's, text by text, whatever the cache holds or evicts meanwhile;
      the client is asked for the misses alone, in order and in batches.
     */
    method EmbedBatch(texts: seq<string>, model: Option<string>) returns (vectors: seq<Vec>)
      requires Valid()
      modifies `order, `values, `touched, client
      ensures Valid()
      ensures var misses := Misses(texts, UseModel(model), old(values.Keys), |texts|);
              && |vectors| == |texts|
              && (forall i | 0 <= i < |texts| ::
                    vectors[i] == client.embed(texts[i], if model == None || model == Some("") then defaultModel
                                                         else model.value))
              && client.calls == old(client.calls) + Batches(TextsOf(misses), batchSize, 0)
              && touched == AfterPuts(AfterHits(old(touched), texts, UseModel(model), old(values.Keys), |texts|),
                                      misses, UseModel(model), |misses|, capacity)
    {
      if texts == [] {
        return [];
      }
      ghost var cached := values.Keys;
      var job := BeginJob(texts, model);
      if job.misses != [] {
        job := Fetch(job, cached);
      }
      FinishedRight(job, cached);
      vectors := Present(job.results, |job.results|);
    }

    // ----- calls that overlap -----

    /** The calls begun by the first `n` events, with the texts and the model they ask for. */
    function Begun(events: seq<Event>, n: nat): seq<(seq<string>, string)>
      requires n <= |events|
    {
      if n == 0 then []
      else Begun(events, n - 1) + Begins(events[n - 1])
    }

    function Begins(event: Event): seq<(seq<string>, string)>
    {
      if event.Begin? then [(event.texts, UseModel(event.model))] else []
    }

    /** The jobs are those begun, and each is right so far. */
    ghost predicate JobsOk(jobs: seq<Job>, cached: seq<set<Key>>, begun: seq<(seq<string>, string)>)
    {
      && |jobs| == |cached| == |begun|
      && (forall j | 0 <= j < |jobs| :: JobOk(jobs[j], cached[j]))
      && (forall j | 0 <= j < |jobs| :: (jobs[j].texts, jobs[j].model) == begun[j])
    }

    predicate CanAsk(job: Job) { job.start < |job.misses| && job.vectors.None? }

    /** A call moves on when its event is possible, and no other call does. */
    predicate Happened(event: Event, jobs: seq<Job>, jobs': seq<Job>)
    {
      match event
      case Begin(_, _) => |jobs'| == |jobs| + 1 && jobs'[..|jobs|] == jobs && jobs'[|jobs|].start == 0
      case Ask(j) =>
        if j < |jobs| && jobs[j].start < |jobs[j].misses| && jobs[j].vectors.None? then
          && |jobs'| == |jobs| && jobs'[j].vectors.Some?
          && jobs' == jobs[j := jobs[j].(vectors := jobs'[j].vectors)]
        else jobs' == jobs
      case Take(j) =>
        if j < |jobs| && jobs[j].vectors.Some? then
          && |jobs'| == |jobs| && jobs'[j].start == End(jobs[j]) && jobs'[j].vectors.None?
          && jobs' == jobs[j := jobs'[j]]
        else jobs' == jobs
      case Clear => jobs' == jobs
    }

    /** One stretch of some call, or a clearing; an event that is not possible now does nothing. */
    method Happen(event: Event, jobs: seq<Job>, ghost cached: seq<set<Key>>, ghost begun: seq<(seq<string>, string)>)
      returns (jobs': seq<Job>, ghost cached': seq<set<Key>>)
      requires Valid() && JobsOk(jobs, cached, begun)
      modifies `order, `values, `touched, client
      ensures Valid()
      ensures JobsOk(jobs', cached', begun + Begins(event)) && Happened(event, jobs, jobs')
    {
      jobs', cached' := jobs, cached;
      match event {
        case Begin(texts, model) =>
          var job := BeginJob(texts, model);
          jobs', cached' := jobs + [job], cached + [values.Keys];
        case Ask(j) =>
          if j < |jobs| && CanAsk(jobs[j]) {
            var job := AskNext(jobs[j], cached[j]);
            jobs' := jobs[j := job];
          }
        case Take(j) =>
          if j < |jobs| && jobs[j].vectors.Some? {
            var job := TakeBatch(jobs[j], cached[j]);
            jobs' := jobs[j := job];
          }
        case Clear =>
          ClearCache();
      }
    }

    /**
      Calls that overlap on one cache in any way: the cache stays the most recently touched keys
      with the embedder's vectors, and every call that has come to its end answers as if alone.
     */
    method Overlap(events: seq<Event>) returns (jobs: seq<Job>)
      requires Valid()
      modifies `order, `values, `touched, client
      ensures Valid()
      ensures |jobs| == |Begun(events, |events|)|
      ensures forall j | 0 <= j < |jobs| :: (jobs[j].texts, jobs[j].model) == Begun(events, |events|)[j]
      ensures forall j | 0 <= j < |jobs| :: Right(jobs[j].results, jobs[j].texts, jobs[j].model, client.embed)
      ensures forall j | 0 <= j < |jobs| && jobs[j].start == |jobs[j].misses| :: AnswersRight(jobs[j])
    {
      jobs := [];
      ghost var cached: seq<set<Key>> := [];
      for i := 0 to |events|
        invariant Valid() && JobsOk(jobs, cached, Begun(events, i))
      {
        jobs, cached := Happen(events[i], jobs, cached, Begun(events, i));
      }
      forall j | 0 <= j < |jobs| && jobs[j].start == |jobs[j].misses|
        ensures AnswersRight(jobs[j])
      {
        FinishedRight(jobs[j], cached[j]);
      }
    }

    method EmbedOne(text: string, model: Option<string>) returns (vector: Vec)
      requires Valid()
      modifies `order, `values, `touched, client
      ensures Valid()
      ensures vector == client.embed(text, if model == None || model == Some("") then defaultModel else model.value)
    {
      var vectors := EmbedBatch([text], model);
      vector := vectors[0];
    }
  }
}
