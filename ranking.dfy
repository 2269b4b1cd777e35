/** Exhaustive similarity search: the scan of every stored vector, the stable sort by
    descending score and the `[:top_k]` prefix. */
module Ranking {
  import opened RagTypes

  /** The score of every stored vector against the query vector, in storage order. */
  function Scores(sim: (Vec, Vec) -> real, query: Vec, embeddings: seq<Vec>): seq<real>
  {
    seq(|embeddings|, i requires 0 <= i < |embeddings| => sim(query, embeddings[i]))
  }

  /** Index `a` is ranked ahead of index `b`: a higher score, or an equal score and the
      smaller index (the stable order of a descending sort). */
  predicate Before(scores: seq<real>, a: nat, b: nat)
    requires a < |scores| && b < |scores|
  {
    scores[a] > scores[b] || (scores[a] == scores[b] && a < b)
  }

  ghost predicate InRange(r: seq<nat>, lo: nat, hi: nat)
  {
    forall j :: 0 <= j < |r| ==> lo <= r[j] < hi
  }

  /** Every index of `r` is ranked ahead of every later one. */
  ghost predicate Ordered(scores: seq<real>, r: seq<nat>)
  {
    forall p, q :: 0 <= p < q < |r| ==> r[p] < |scores| && r[q] < |scores| && Before(scores, r[p], r[q])
  }

  /** Inserts index `i` in front of the first entry whose score does not exceed its own. */
  function InsertIndex(scores: seq<real>, i: nat, r: seq<nat>): (r': seq<nat>)
    requires i < |scores| && InRange(r, 0, |scores|)
    ensures |r'| == |r| + 1
    ensures forall x :: x in r' <==> x == i || x in r
    decreases |r|
  {
    if r == [] || scores[r[0]] <= scores[i] then [i] + r
    else [r[0]] + InsertIndex(scores, i, r[1..])
  }

  /** Putting `x` in front of an ordered ranking whose every entry it beats keeps it ordered. */
  lemma OrderedCons(scores: seq<real>, x: nat, t: seq<nat>)
    requires x < |scores| && Ordered(scores, t)
    requires forall q :: 0 <= q < |t| ==> t[q] < |scores| && Before(scores, x, t[q])
    ensures Ordered(scores, [x] + t)
  {
    var r := [x] + t;
    forall p, q | 0 <= p < q < |r|
      ensures r[p] < |scores| && r[q] < |scores| && Before(scores, r[p], r[q])
    {
      assert r[q] == t[q - 1];
      if p > 0 {
        assert r[p] == t[p - 1];
      }
    }
  }

  lemma {:induction false} InsertIndexOrdered(scores: seq<real>, i: nat, r: seq<nat>)
    requires i < |scores| && InRange(r, i + 1, |scores|) && Ordered(scores, r)
    ensures Ordered(scores, InsertIndex(scores, i, r))
    decreases |r|
  {
    if r == [] || scores[r[0]] <= scores[i] {
      forall q | 0 <= q < |r| ensures r[q] < |scores| && Before(scores, i, r[q]) {
        if q > 0 {
          assert Before(scores, r[0], r[q]);
        }
      }
      OrderedCons(scores, i, r);
    } else {
      InsertIndexOrdered(scores, i, r[1..]);
      var tail := InsertIndex(scores, i, r[1..]);
      assert InsertIndex(scores, i, r) == [r[0]] + tail;
      forall q | 0 <= q < |tail| ensures tail[q] < |scores| && Before(scores, r[0], tail[q]) {
        var x := tail[q];
        assert x in tail;
        if x != i {
          assert x in r[1..];
          var k :| 0 <= k < |r[1..]| && r[1..][k] == x;
          assert r[k + 1] == x;
          assert Before(scores, r[0], r[k + 1]);
        }
      }
      OrderedCons(scores, r[0], tail);
    }
  }

  /** The ranking of the indices `lo .. |scores| - 1`: each exactly once, ordered by
      `Before`. This is insertion sort run from the back, which keeps equal scores in
      ascending index order. */
  function RankFrom(scores: seq<real>, lo: nat): (r: seq<nat>)
    requires lo <= |scores|
    ensures |r| == |scores| - lo
    ensures InRange(r, lo, |scores|)
    ensures forall x :: x in r <==> lo <= x < |scores|
    ensures Ordered(scores, r)
    decreases |scores| - lo
  {
    if lo == |scores| then []
    else
      var tail := RankFrom(scores, lo + 1);
      InsertIndexOrdered(scores, lo, tail);
      var r := InsertIndex(scores, lo, tail);
      assert forall j :: 0 <= j < |r| ==> r[j] in r;
      r
  }

  /** The ranking of all stored indices. */
  function Ranking(scores: seq<real>): seq<nat>
  {
    RankFrom(scores, 0)
  }

  /** The search hits for the indices of `r`, in the order of `r`. */
  function ItemsAt(chunks: seq<Chunk>, scores: seq<real>, r: seq<nat>): seq<ScoredChunk>
    requires |scores| <= |chunks| && InRange(r, 0, |scores|)
  {
    seq(|r|, j requires 0 <= j < |r| => ScoredChunk(chunks[r[j]], scores[r[j]]))
  }

  /** The `similarities` list as the scan loop leaves it, from index `lo` on. */
  function Scanned(chunks: seq<Chunk>, scores: seq<real>, lo: nat): seq<ScoredChunk>
    requires |scores| <= |chunks| && lo <= |scores|
  {
    seq(|scores| - lo, j requires 0 <= j < |scores| - lo => ScoredChunk(chunks[lo + j], scores[lo + j]))
  }

  /** One step of `list.sort(key=similarity, reverse=True)`: `x` goes in front of the
      first element whose similarity does not exceed its own. */
  function InsertBySimilarity(x: ScoredChunk, s: seq<ScoredChunk>): seq<ScoredChunk>
    decreases |s|
  {
    if s == [] || s[0].similarity <= x.similarity then [x] + s
    else [s[0]] + InsertBySimilarity(x, s[1..])
  }

  /** Python's stable `list.sort(key=lambda x: x["similarity"], reverse=True)`. */
  function SortBySimilarityDesc(s: seq<ScoredChunk>): seq<ScoredChunk>
    decreases |s|
  {
    if s == [] then [] else InsertBySimilarity(s[0], SortBySimilarityDesc(s[1..]))
  }

  lemma {:induction false} InsertItemsAt(chunks: seq<Chunk>, scores: seq<real>, i: nat, r: seq<nat>)
    requires |scores| <= |chunks| && i < |scores| && InRange(r, 0, |scores|)
    ensures InRange(InsertIndex(scores, i, r), 0, |scores|)
    ensures InsertBySimilarity(ScoredChunk(chunks[i], scores[i]), ItemsAt(chunks, scores, r))
         == ItemsAt(chunks, scores, InsertIndex(scores, i, r))
    decreases |r|
  {
    var r' := InsertIndex(scores, i, r);
    assert forall j :: 0 <= j < |r'| ==> r'[j] in r';
    var items := ItemsAt(chunks, scores, r);
    if r != [] && scores[r[0]] > scores[i] {
      InsertItemsAt(chunks, scores, i, r[1..]);
      assert items[1..] == ItemsAt(chunks, scores, r[1..]);
    }
  }

  /** Sorting the scanned list is the same as listing the hits in ranking order. */
  lemma {:induction false} SortScanned(chunks: seq<Chunk>, scores: seq<real>, lo: nat)
    requires |scores| <= |chunks| && lo <= |scores|
    ensures SortBySimilarityDesc(Scanned(chunks, scores, lo)) == ItemsAt(chunks, scores, RankFrom(scores, lo))
    decreases |scores| - lo
  {
    var s := Scanned(chunks, scores, lo);
    if lo < |scores| {
      SortScanned(chunks, scores, lo + 1);
      assert s[1..] == Scanned(chunks, scores, lo + 1);
      InsertItemsAt(chunks, scores, lo, RankFrom(scores, lo + 1));
    }
  }

  /** Python's `s[:k]`: a negative `k` counts from the end. */
  function PrefixSlice<T>(s: seq<T>, k: int): seq<T>
  {
    if k >= 0 then s[..Min(k, |s|)] else s[..Max(0, |s| + k)]
  }

  /** The first `top_k` hits of the ranked list. */
  function TopK(chunks: seq<Chunk>, scores: seq<real>, k: int): seq<ScoredChunk>
    requires |scores| <= |chunks|
  {
    PrefixSlice(ItemsAt(chunks, scores, Ranking(scores)), k)
  }

  /** What `retrieve_relevant_chunks` returns or raises, given the embedding response for
      the query. */
  function Retrieval(chunks: seq<Chunk>, embeddings: seq<Vec>, queryVectors: seq<Vec>,
                     sim: (Vec, Vec) -> real, k: int): Result<seq<ScoredChunk>>
  {
    if |queryVectors| == 0 then Err(NoQueryEmbedding)
    else if |chunks| < |embeddings| then Err(ChunkIndexOutOfRange(|chunks|))
    else Ok(TopK(chunks, Scores(sim, queryVectors[0], embeddings), k))
  }

  // Properties of the search.

  /** A non-negative `top_k` gives `min(top_k, n)` hits; a negative one drops that many
      from the end. An empty index gives no hits. */
  lemma TopKLength(chunks: seq<Chunk>, scores: seq<real>, k: int)
    requires |scores| <= |chunks|
    ensures k >= 0 ==> |TopK(chunks, scores, k)| == Min(k, |scores|)
    ensures k < 0 ==> |TopK(chunks, scores, k)| == Max(0, |scores| + k)
    ensures |scores| == 0 ==> TopK(chunks, scores, k) == []
  {
  }

  /** Hit `j` is chunk `R[j]` paired with the score of vector `R[j]`, where `R` is the
      ranking; the ranking lists distinct indices. */
  lemma TopKCoupling(chunks: seq<Chunk>, scores: seq<real>, k: int)
    requires |scores| <= |chunks|
    ensures |TopK(chunks, scores, k)| <= |Ranking(scores)|
    ensures forall j :: 0 <= j < |TopK(chunks, scores, k)| ==>
      Ranking(scores)[j] < |scores| &&
      TopK(chunks, scores, k)[j] == ScoredChunk(chunks[Ranking(scores)[j]], scores[Ranking(scores)[j]])
    ensures forall p, q :: 0 <= p < q < |Ranking(scores)| ==> Ranking(scores)[p] != Ranking(scores)[q]
  {
    var r := Ranking(scores);
    forall p, q | 0 <= p < q < |r| ensures r[p] != r[q] {
      assert Before(scores, r[p], r[q]);
    }
  }

  /** Hits come in non-increasing score order, and hits with equal scores come in
      ascending index order. */
  lemma TopKOrder(chunks: seq<Chunk>, scores: seq<real>, k: int)
    requires |scores| <= |chunks|
    ensures forall p, q :: 0 <= p < q < |TopK(chunks, scores, k)| ==>
      TopK(chunks, scores, k)[p].similarity >= TopK(chunks, scores, k)[q].similarity
    ensures forall p, q ::
      (0 <= p < q < |TopK(chunks, scores, k)| &&
       TopK(chunks, scores, k)[p].similarity == TopK(chunks, scores, k)[q].similarity) ==>
      Ranking(scores)[p] < Ranking(scores)[q]
  {
    var r := Ranking(scores);
    var t := TopK(chunks, scores, k);
    forall p, q | 0 <= p < q < |t|
      ensures t[p].similarity >= t[q].similarity
      ensures t[p].similarity == t[q].similarity ==> r[p] < r[q]
    {
      assert Before(scores, r[p], r[q]);
    }
  }

  /** No omitted vector scores higher than a returned one. */
  lemma TopKMaximal(chunks: seq<Chunk>, scores: seq<real>, k: int)
    requires |scores| <= |chunks|
    ensures |TopK(chunks, scores, k)| <= |Ranking(scores)|
    ensures forall i, j ::
      (0 <= i < |scores| && 0 <= j < |TopK(chunks, scores, k)| &&
       i !in Ranking(scores)[..|TopK(chunks, scores, k)|]) ==>
      scores[i] <= TopK(chunks, scores, k)[j].similarity
  {
    var r := Ranking(scores);
    var t := TopK(chunks, scores, k);
    forall i, j | 0 <= i < |scores| && 0 <= j < |t| && i !in r[..|t|]
      ensures scores[i] <= t[j].similarity
    {
      forall q' | 0 <= q' < |t| ensures r[q'] != i {
        assert r[..|t|][q'] == r[q'];
      }
      assert i in r;
      var q :| 0 <= q < |r| && r[q] == i;
      assert Before(scores, r[j], r[q]);
    }
  }

  /** A small ranking example: query `[1, 0]` against `[1, 0]`, `[0, 1]` and `[0.9, 0.1]`
      gives cosine scores 1, 0 and about 0.994, so the top two are the first and the third
      vector, in that order. */
  lemma RankingExample()
    ensures Ranking([1.0, 0.0, 0.994]) == [0, 2, 1]
  {
    var s := [1.0, 0.0, 0.994];
    assert RankFrom(s, 3) == [];
    assert RankFrom(s, 2) == [2];
    assert RankFrom(s, 1) == [2, 1];
  }

  /** Three equal scores keep their original order. */
  lemma TieExample()
    ensures Ranking([0.5, 0.5, 0.5]) == [0, 1, 2]
  {
    var s := [0.5, 0.5, 0.5];
    assert RankFrom(s, 3) == [];
    assert RankFrom(s, 2) == [2];
    assert RankFrom(s, 1) == [1, 2];
  }
}
