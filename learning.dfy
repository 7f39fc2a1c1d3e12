/** The behaviour scorer and the hybrid ranker (src/services/learning_service.py). */
module Learning {
  import opened Models
  import opened Sorting

  /** Weighted sum of a product's behavioural counters. There is no clamping:
      bounces can drive the score below zero. */
  function BehaviorScore(p: Product): real
  {
    p.clickCount as real * 0.5 +
    p.cartCount as real * 1.2 +
    p.purchaseCount as real * 3.0 +
    p.totalDwellTime * 0.02 -
    p.bounceCount as real * 0.5
  }

  /** The similarity of a product: its entry in the map, or 0 when it has none. */
  function SimilarityOf(similarity: map<ProductId, real>, id: ProductId): real
  {
    if id in similarity then similarity[id] else 0.0
  }

  /** One result record: every product field (the counters included) is carried
      by `product`; the three scores are the ranking signals. The human-readable
      explanation string is not modelled. */
  datatype RankedResult = RankedResult(
    product: Product,
    similarityScore: real,
    behaviorScore: real,
    finalScore: real)

  function FinalScore(r: RankedResult): real { r.finalScore }

  function ProductOf(r: RankedResult): Product { r.product }

  /** A record whose signals are those of its product under `similarity`, and
      whose final score fuses them with weights 0.7 and 0.3. */
  predicate Explains(r: RankedResult, similarity: map<ProductId, real>) {
    && r.similarityScore == SimilarityOf(similarity, r.product.id)
    && r.behaviorScore == BehaviorScore(r.product)
    && r.finalScore == r.similarityScore * 0.7 + r.behaviorScore * 0.3
  }

  function MakeRecord(p: Product, similarity: map<ProductId, real>): RankedResult
  {
    var sim := SimilarityOf(similarity, p.id);
    var behavior := BehaviorScore(p);
    RankedResult(p, sim, behavior, sim * 0.7 + behavior * 0.3)
  }

  /** The unsorted records, one per product, in input order. */
  function Records(products: seq<Product>, similarity: map<ProductId, real>): (rs: seq<RankedResult>)
    ensures |rs| == |products|
    ensures forall i :: 0 <= i < |products| ==> rs[i].product == products[i] && Explains(rs[i], similarity)
  {
    if products == [] then []
    else Records(products[..|products| - 1], similarity) + [MakeRecord(products[|products| - 1], similarity)]
  }

  /** What `apply_behavioral_ranking` returns: the records sorted by final score,
      descending, equal scores in input order. */
  function Ranking(products: seq<Product>, similarity: map<ProductId, real>): seq<RankedResult>
  {
    SortDesc(Records(products, similarity), FinalScore)
  }

  method ApplyBehavioralRanking(products: seq<Product>, similarity: map<ProductId, real>)
    returns (ranked: seq<RankedResult>)
    ensures ranked == Ranking(products, similarity)
    ensures |ranked| == |products|
    ensures SortedDesc(ranked, FinalScore)
    ensures multiset(Project(ranked, ProductOf)) == multiset(products)
    ensures forall r :: r in ranked ==> Explains(r, similarity)
  {
    var rankedResults: seq<RankedResult> := [];
    for i := 0 to |products|
      invariant rankedResults == Records(products[..i], similarity)
    {
      assert products[..i + 1][..i] == products[..i];
      rankedResults := rankedResults + [MakeRecord(products[i], similarity)];
    }
    assert products[..|products|] == products;
    ranked := SortDesc(rankedResults, FinalScore);
    RankingProperties(products, similarity);
  }

  /** The records, read back as products, are exactly the input. */
  lemma {:induction false} RecordsProducts(products: seq<Product>, similarity: map<ProductId, real>)
    ensures Project(Records(products, similarity), ProductOf) == products
  {
  }

  /** The ranked output is sorted by final score, non-increasing, holds exactly
      one record per input product (a permutation of the input), and every record
      carries the similarity and behaviour values its final score was fused from. */
  lemma RankingProperties(products: seq<Product>, similarity: map<ProductId, real>)
    ensures |Ranking(products, similarity)| == |products|
    ensures SortedDesc(Ranking(products, similarity), FinalScore)
    ensures multiset(Project(Ranking(products, similarity), ProductOf)) == multiset(products)
    ensures forall r :: r in Ranking(products, similarity) ==> Explains(r, similarity)
  {
    var rs := Records(products, similarity);
    SortDescSorted(rs, FinalScore);
    SortDescPermutation(rs, FinalScore);
    SortDescProject(rs, FinalScore, ProductOf);
    RecordsProducts(products, similarity);
    forall r | r in Ranking(products, similarity) ensures Explains(r, similarity) {
      assert r in multiset(rs);
    }
  }

  /** Records with equal final scores keep the order of their products in the
      input (Python's sort is stable, also with `reverse=True`). */
  lemma RankingStable(products: seq<Product>, similarity: map<ProductId, real>, score: real)
    ensures WithKey(Ranking(products, similarity), FinalScore, score)
         == WithKey(Records(products, similarity), FinalScore, score)
  {
    SortDescStable(Records(products, similarity), FinalScore, score);
  }

  /** A product without any recorded interaction scores exactly zero. */
  lemma NoHistoryScoresZero(p: Product)
    requires NoHistory(p)
    ensures BehaviorScore(p) == 0.0
  {
  }

  /** Each additional interaction moves the score by its fixed weight. */
  lemma CounterWeights(p: Product)
    ensures BehaviorScore(p.(clickCount := p.clickCount + 1)) == BehaviorScore(p) + 0.5
    ensures BehaviorScore(p.(cartCount := p.cartCount + 1)) == BehaviorScore(p) + 1.2
    ensures BehaviorScore(p.(purchaseCount := p.purchaseCount + 1)) == BehaviorScore(p) + 3.0
    ensures BehaviorScore(p.(bounceCount := p.bounceCount + 1)) == BehaviorScore(p) - 0.5
  {
  }

  /** Dwell time counts 0.02 per second, for any amount, negative amounts included. */
  lemma DwellWeight(p: Product, seconds: real)
    ensures BehaviorScore(p.(totalDwellTime := p.totalDwellTime + seconds)) == BehaviorScore(p) + 0.02 * seconds
  {
  }

  /** The score is non-decreasing in clicks, cart adds, purchases and dwell time
      and non-increasing in bounces; the descriptive fields do not matter. */
  lemma ScoreMonotone(p: Product, q: Product)
    requires q.clickCount >= p.clickCount && q.cartCount >= p.cartCount
    requires q.purchaseCount >= p.purchaseCount && q.totalDwellTime >= p.totalDwellTime
    requires q.bounceCount <= p.bounceCount
    ensures BehaviorScore(q) >= BehaviorScore(p)
  {
  }

  /** Without clamping, a product whose only history is one bounce scores -0.5. */
  lemma ScoreCanBeNegative(p: Product)
    requires NoHistory(p.(bounceCount := 0)) && p.bounceCount == 1
    ensures BehaviorScore(p) == -0.5
  {
  }

  /** The fused score of each product, in terms of the similarity map entry
      (0 when the map has none) and the behaviour score. */
  lemma FusionWeights(p: Product, similarity: map<ProductId, real>)
    ensures p.id in similarity ==> MakeRecord(p, similarity).finalScore == similarity[p.id] * 0.7 + BehaviorScore(p) * 0.3
    ensures p.id !in similarity ==> MakeRecord(p, similarity).finalScore == BehaviorScore(p) * 0.3
  {
  }
}
