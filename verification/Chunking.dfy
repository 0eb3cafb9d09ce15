/**
  The overlapping token splitter (backend/matrix/kb/chunker.py).

  The tokenizer is a parameter: nothing is known about `encode` and `decode`.  What the
  splitter promises is therefore stated on token sequences.
 */
module Chunking {
  import opened Prelude

  type Token = nat

  datatype Chunk = Chunk(text: string, tokenCount: nat, index: nat)

  /** The slices of a token sequence: each next slice starts `size - overlap` tokens later. */
  function Slices(tokens: seq<Token>, size: nat, overlap: nat): (r: seq<seq<Token>>)
    requires overlap < size
    ensures r != []
    decreases |tokens|
  {
    if |tokens| <= size then [tokens]
    else [tokens[..size]] + Slices(tokens[size - overlap..], size, overlap)
  }

  datatype Chunker = Chunker(chunkSize: nat, overlap: nat,
                             encode: string -> seq<Token>, decode: seq<Token> -> string)
  {
    predicate Valid() { overlap < chunkSize }

    /** Rejects the configurations for which the source raises `ValueError`. */
    static function Create(chunkSize: int, overlap: int,
                           encode: string -> seq<Token>, decode: seq<Token> -> string): (r: Option<Chunker>)
      ensures r.Some? <==> 0 <= overlap < chunkSize
      ensures r.Some? ==> r.value.Valid() && r.value.chunkSize == chunkSize && r.value.overlap == overlap
    {
      if chunkSize <= 0 || overlap < 0 || overlap >= chunkSize then None
      else Some(Chunker(chunkSize, overlap, encode, decode))
    }

    /** What `Split` returns; the knowledge-base index is specified with it. */
    function Chunks(text: string): (r: seq<Chunk>)
      requires Valid()
    {
      var tokens := encode(text);
      if text == "" then []
      else if |tokens| <= chunkSize then [Chunk(text, |tokens|, 0)]
      else ChunksOf(Slices(tokens, chunkSize, overlap))
    }

    function ChunksOf(slices: seq<seq<Token>>): (r: seq<Chunk>)
    {
      seq(|slices|, k requires 0 <= k < |slices| => Chunk(decode(slices[k]), |slices[k]|, k))
    }

    lemma ChunksOfAppend(slices: seq<seq<Token>>, s: seq<Token>)
      ensures ChunksOf(slices + [s]) == ChunksOf(slices) + [Chunk(decode(s), |s|, |slices|)]
    {
    }

    method Split(text: string) returns (chunks: seq<Chunk>)
      requires Valid()
      ensures chunks == Chunks(text)
    {
      if text == "" {
        return [];
      }
      var tokens := encode(text);
      if |tokens| <= chunkSize {
        return [Chunk(text, |tokens|, 0)];
      }
      var step := chunkSize - overlap;
      chunks := [];
      var idx, start := 0, 0;
      ghost var slices: seq<seq<Token>> := [];
      ghost var whole := Slices(tokens, chunkSize, overlap);
      assert tokens[0..] == tokens;
      while start < |tokens|
        invariant 0 <= start < |tokens| && idx == |slices|
        invariant chunks == ChunksOf(slices)
        invariant whole == slices + Slices(tokens[start..], chunkSize, overlap)
        decreases |tokens| - start
      {
        var end := Min(start + chunkSize, |tokens|);
        var sub := tokens[start..end];
        ChunksOfAppend(slices, sub);
        Advance(slices, tokens, chunkSize, overlap, start);
        chunks := chunks + [Chunk(decode(sub), |sub|, idx)];
        idx := idx + 1;
        slices := slices + [sub];
        if end == |tokens| {
          break;
        }
        start := start + step;
      }
    }
  }

  /** One slice plus the least number of steps that reach the end. */
  lemma {:induction false} SliceCount(tokens: seq<Token>, size: nat, overlap: nat)
    requires overlap < size < |tokens|
    ensures var steps := |Slices(tokens, size, overlap)| - 1;
            (steps - 1) * (size - overlap) < |tokens| - size <= steps * (size - overlap)
    decreases |tokens|
  {
    var rest := tokens[size - overlap..];
    if |rest| > size {
      SliceCount(rest, size, overlap);
      var steps := |Slices(rest, size, overlap)|;
      assert steps * (size - overlap) == (steps - 1) * (size - overlap) + (size - overlap);
      assert (steps - 1) * (size - overlap) == (steps - 2) * (size - overlap) + (size - overlap);
    }
  }

  lemma NextSlice(tokens: seq<Token>, size: nat, overlap: nat, start: nat)
    requires overlap < size && start <= |tokens|
    ensures var end := Min(start + size, |tokens|);
            Slices(tokens[start..], size, overlap) ==
            if end == |tokens| then [tokens[start..end]]
            else [tokens[start..end]] + Slices(tokens[start + size - overlap..], size, overlap)
  {
    var rest := tokens[start..];
    if |rest| > size {
      assert rest[..size] == tokens[start..start + size];
      assert rest[size - overlap..] == tokens[start + size - overlap..];
    } else {
      assert rest == tokens[start..|tokens|];
    }
  }

  lemma Advance(before: seq<seq<Token>>, tokens: seq<Token>, size: nat, overlap: nat, start: nat)
    requires overlap < size && start <= |tokens|
    ensures var end := Min(start + size, |tokens|);
            before + Slices(tokens[start..], size, overlap) ==
            (before + [tokens[start..end]]) +
            if end == |tokens| then [] else Slices(tokens[start + size - overlap..], size, overlap)
  {
    NextSlice(tokens, size, overlap, start);
  }

  /** All slices but the last are full; the last is longer than the overlap. */
  lemma {:induction false} SliceLength(tokens: seq<Token>, size: nat, overlap: nat, k: nat)
    requires overlap < size && overlap < |tokens| && k < |Slices(tokens, size, overlap)|
    ensures var s := Slices(tokens, size, overlap);
            if k < |s| - 1 then |s[k]| == size else overlap < |s[k]| <= size
    decreases |tokens|
  {
    if k > 0 {
      SliceLength(tokens[size - overlap..], size, overlap, k - 1);
    }
  }

  /** Where each slice lies in the input. */
  lemma {:induction false} SliceAt(tokens: seq<Token>, size: nat, overlap: nat, start: nat, k: nat)
    requires overlap < size && start + overlap < |tokens| && k < |Slices(tokens[start..], size, overlap)|
    ensures var from := start + k * (size - overlap);
            from + overlap < |tokens| &&
            Slices(tokens[start..], size, overlap)[k] == tokens[from..Min(from + size, |tokens|)]
    decreases k
  {
    NextSlice(tokens, size, overlap, start);
    if k > 0 {
      SliceAt(tokens, size, overlap, start + size - overlap, k - 1);
      assert k * (size - overlap) == (k - 1) * (size - overlap) + (size - overlap);
    }
  }

  lemma SliceExtent(tokens: seq<Token>, size: nat, overlap: nat, k: nat)
    requires overlap < size < |tokens| && k < |Slices(tokens, size, overlap)|
    ensures var s := Slices(tokens, size, overlap);
            var from := k * (size - overlap);
            && from + |s[k]| <= |tokens|
            && s[k] == tokens[from..from + |s[k]|]
            && if k < |s| - 1 then |s[k]| == size else overlap < |s[k]| <= size
  {
    assert tokens[0..] == tokens;
    MulNat(k, size - overlap);
    SliceLength(tokens, size, overlap, k);
    SliceAt(tokens, size, overlap, 0, k);
  }

  /** Each slice without its first `overlap` tokens, joined. */
  function Tails(slices: seq<seq<Token>>, overlap: nat): seq<Token>
    requires forall s | s in slices :: overlap <= |s|
  {
    if slices == [] then [] else slices[0][overlap..] + Tails(slices[1..], overlap)
  }

  lemma {:induction false} TailsRejoin(tokens: seq<Token>, size: nat, overlap: nat)
    requires overlap < size && overlap <= |tokens|
    ensures forall s | s in Slices(tokens, size, overlap) :: overlap <= |s|
    ensures Tails(Slices(tokens, size, overlap), overlap) == tokens[overlap..]
    decreases |tokens|
  {
    var s := Slices(tokens, size, overlap);
    if |tokens| > size {
      TailsRejoin(tokens[size - overlap..], size, overlap);
      assert s[1..] == Slices(tokens[size - overlap..], size, overlap);
      assert tokens[..size][overlap..] + tokens[size - overlap..][overlap..] == tokens[overlap..];
    }
  }

  /** The splitter loses nothing: dropping the overlaps gives the input back. */
  lemma SplitInvertible(tokens: seq<Token>, size: nat, overlap: nat)
    requires overlap < size < |tokens|
    ensures var s := Slices(tokens, size, overlap);
            && (forall t | t in s[1..] :: overlap <= |t|)
            && s[0] + Tails(s[1..], overlap) == tokens
  {
    var s, rest := Slices(tokens, size, overlap), tokens[size - overlap..];
    assert s[1..] == Slices(rest, size, overlap);
    TailsRejoin(rest, size, overlap);
    assert rest[overlap..] == tokens[size..];
  }

  /** The same, read off the chunks that `Split` returns for a long text. */
  lemma ChunksInvertible(c: Chunker, text: string)
    requires c.Valid() && text != "" && |c.encode(text)| > c.chunkSize
    ensures var s := Slices(c.encode(text), c.chunkSize, c.overlap);
            && c.Chunks(text) == c.ChunksOf(s)
            && (forall t | t in s[1..] :: c.overlap <= |t|)
            && s[0] + Tails(s[1..], c.overlap) == c.encode(text)
  {
    SplitInvertible(c.encode(text), c.chunkSize, c.overlap);
  }

  /** An empty text has no chunk; a text that fits is one chunk, as it is. */
  lemma ShortShape(c: Chunker, text: string)
    requires c.Valid() && |c.encode(text)| <= c.chunkSize
    ensures c.Chunks(text) == if text == "" then [] else [Chunk(text, |c.encode(text)|, 0)]
  {
  }

  lemma ChunkShape(c: Chunker, text: string, k: nat)
    requires c.Valid() && text != "" && |c.encode(text)| > c.chunkSize && k < |c.Chunks(text)|
    ensures var tokens := c.encode(text);
            var chunk := c.Chunks(text)[k];
            var from := k * (c.chunkSize - c.overlap);
            && chunk.index == k
            && from + chunk.tokenCount <= |tokens|
            && chunk.text == c.decode(tokens[from..from + chunk.tokenCount])
            && if k < |c.Chunks(text)| - 1 then chunk.tokenCount == c.chunkSize
               else c.overlap < chunk.tokenCount <= c.chunkSize
  {
    SliceExtent(c.encode(text), c.chunkSize, c.overlap, k);
  }
}
