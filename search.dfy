/** The filter-and-rank part of `SearchService.search`
    (src/services/search_service.py): the vector hits and the product table are
    inputs; embedding and the vector search itself are not modelled. */
module Search {
  import opened Models
  import opened Sorting
  import opened Subsequences
  import opened Learning

  /** One vector hit: the point id (the product id) and its similarity. */
  datatype VectorHit = VectorHit(id: ProductId, score: real)

  function HitId(h: VectorHit): ProductId { h.id }

  /** The optional filters; `None` is a parameter left at its default. */
  datatype Filters = Filters(
    category: Option<string>,
    priceMin: Option<real>,
    priceMax: Option<real>,
    ratingMin: Option<real>)

  /** Python truthiness of an optional string: present and non-empty. */
  predicate TruthyText(o: Option<string>) { o.Some? && o.value != "" }

  /** Python truthiness of an optional number: present and non-zero. */
  predicate TruthyNumber(o: Option<real>) { o.Some? && o.value != 0.0 }

  /** The product survives all four `continue` tests of the filter loop. */
  predicate Passes(p: Product, f: Filters) {
    && !(TruthyText(f.category) && p.category != f.category.value)
    && !(TruthyNumber(f.priceMin) && p.price < f.priceMin.value)
    && !(TruthyNumber(f.priceMax) && p.price > f.priceMax.value)
    && !(TruthyNumber(f.ratingMin) && p.rating < f.ratingMin.value)
  }

  function PassesAll(f: Filters): Product -> bool { (p: Product) => Passes(p, f) }

  function IdIn(ids: seq<ProductId>): Product -> bool { (p: Product) => p.id in ids }

  /** `{str(hit.id): hit.score for hit in hits}`: a later hit for the same id wins. */
  function SimilarityMap(hits: seq<VectorHit>): map<ProductId, real>
  {
    if hits == [] then map[]
    else SimilarityMap(hits[..|hits| - 1])[hits[|hits| - 1].id := hits[|hits| - 1].score]
  }

  /** `select(Product).where(Product.id.in_(ids))`: the stored products with
      one of the ids, in the order the table yields them. */
  function Fetch(table: seq<Product>, ids: seq<ProductId>): seq<Product>
  {
    Keep(table, IdIn(ids))
  }

  /** What the filter loop keeps. */
  function Filtered(products: seq<Product>, f: Filters): seq<Product>
  {
    Keep(products, PassesAll(f))
  }

  /** STEP 4: the loop that appends every product passing the filters. */
  method FilterProducts(products: seq<Product>, f: Filters) returns (filtered: seq<Product>)
    ensures filtered == Filtered(products, f)
    ensures forall p :: p in filtered <==> p in products && Passes(p, f)
    ensures IsSubsequence(filtered, products)
  {
    filtered := [];
    for i := 0 to |products|
      invariant filtered == Keep(products[..i], PassesAll(f))
    {
      assert products[..i + 1][..i] == products[..i];
      var p := products[i];
      if TruthyText(f.category) && p.category != f.category.value {
        continue;
      }
      if TruthyNumber(f.priceMin) && p.price < f.priceMin.value {
        continue;
      }
      if TruthyNumber(f.priceMax) && p.price > f.priceMax.value {
        continue;
      }
      if TruthyNumber(f.ratingMin) && p.rating < f.ratingMin.value {
        continue;
      }
      filtered := filtered + [p];
    }
    assert products[..|products|] == products;
    KeepMembers(products, PassesAll(f));
    KeepIsSubsequence(products, PassesAll(f));
  }

  /** What steps 2 to 5 return for the given hits, table and filters. */
  function SearchResults(hits: seq<VectorHit>, table: seq<Product>, f: Filters): seq<RankedResult>
  {
    var candidateIds := Project(hits, HitId);
    if candidateIds == [] then []
    else Ranking(Filtered(Fetch(table, candidateIds), f), SimilarityMap(hits))
  }

  /** Steps 2 to 5 of the search: no hits give no results; otherwise the
      candidates found in the table are filtered and ranked. */
  method Search(hits: seq<VectorHit>, table: seq<Product>, f: Filters) returns (ranked: seq<RankedResult>)
    ensures ranked == SearchResults(hits, table, f)
    ensures hits == [] ==> ranked == []
    ensures SortedDesc(ranked, FinalScore)
    ensures forall r :: r in ranked ==>
      && r.product in table
      && r.product.id in Project(hits, HitId)
      && Passes(r.product, f)
      && Explains(r, SimilarityMap(hits))
  {
    var candidateIds := Project(hits, HitId);
    var similarityMap := SimilarityMap(hits);
    if candidateIds == [] {
      return [];
    }
    var products := Fetch(table, candidateIds);
    var filtered := FilterProducts(products, f);
    ranked := ApplyBehavioralRanking(filtered, similarityMap);
    ResultsComeFromCandidates(hits, table, f);
  }

  /** Every result is a stored product whose id was a candidate and which passes
      the filters; candidates missing from the table are dropped. Every product
      that is stored, is a candidate and passes the filters is ranked, once per
      occurrence in the table. */
  lemma ResultsComeFromCandidates(hits: seq<VectorHit>, table: seq<Product>, f: Filters)
    requires hits != []
    ensures var ranked := SearchResults(hits, table, f);
      && multiset(Project(ranked, ProductOf)) == multiset(Filtered(Fetch(table, Project(hits, HitId)), f))
      && forall r :: r in ranked ==>
           r.product in table && r.product.id in Project(hits, HitId) && Passes(r.product, f)
  {
    var ids := Project(hits, HitId);
    var fetched := Fetch(table, ids);
    var filtered := Filtered(fetched, f);
    var ranked := SearchResults(hits, table, f);
    KeepMembers(table, IdIn(ids));
    KeepMembers(fetched, PassesAll(f));
    RankingProperties(filtered, SimilarityMap(hits));
    forall r | r in ranked
      ensures r.product in table && r.product.id in ids && Passes(r.product, f)
    {
      var k :| 0 <= k < |ranked| && ranked[k] == r;
      assert Project(ranked, ProductOf)[k] == r.product;
      assert r.product in multiset(filtered);
    }
  }

  /** No hits from the vector index: the result is empty. */
  lemma NoHitsNoResults(table: seq<Product>, f: Filters)
    ensures SearchResults([], table, f) == []
  {
  }

  /** The filters, stated as guarantees on every product the loop keeps. */
  lemma FilterGuarantees(products: seq<Product>, f: Filters, p: Product)
    requires p in Filtered(products, f)
    ensures p in products
    ensures TruthyText(f.category) ==> p.category == f.category.value
    ensures TruthyNumber(f.priceMin) ==> p.price >= f.priceMin.value
    ensures TruthyNumber(f.priceMax) ==> p.price <= f.priceMax.value
    ensures TruthyNumber(f.ratingMin) ==> p.rating >= f.ratingMin.value
  {
    KeepMembers(products, PassesAll(f));
  }

  /** Falsy filter values (absent, empty text, zero) constrain nothing: every
      product is kept, in order. */
  lemma FalsyFiltersKeepAll(products: seq<Product>, f: Filters)
    requires !TruthyText(f.category) && !TruthyNumber(f.priceMin)
    requires !TruthyNumber(f.priceMax) && !TruthyNumber(f.ratingMin)
    ensures Filtered(products, f) == products
  {
    KeepAll(products, PassesAll(f));
  }

  /** With both price bounds set and the minimum above the maximum, no product
      passes, so the search returns nothing. */
  lemma InvertedPriceRange(hits: seq<VectorHit>, table: seq<Product>, f: Filters)
    requires TruthyNumber(f.priceMin) && TruthyNumber(f.priceMax)
    requires f.priceMin.value > f.priceMax.value
    ensures SearchResults(hits, table, f) == []
  {
    var fetched := Fetch(table, Project(hits, HitId));
    KeepNone(fetched, PassesAll(f));
  }

  /** The similarity map has exactly the candidate ids as keys, and each maps to
      the score of its last hit. */
  lemma {:induction false} SimilarityMapEntries(hits: seq<VectorHit>, i: int)
    requires 0 <= i < |hits|
    requires forall j :: i < j < |hits| ==> hits[j].id != hits[i].id
    ensures hits[i].id in SimilarityMap(hits)
    ensures SimilarityMap(hits)[hits[i].id] == hits[i].score
  {
    if i < |hits| - 1 {
      SimilarityMapEntries(hits[..|hits| - 1], i);
    }
  }

  lemma {:induction false} SimilarityMapKeys(hits: seq<VectorHit>)
    ensures SimilarityMap(hits).Keys == set h | h in hits :: h.id
  {
    if hits != [] {
      SimilarityMapKeys(hits[..|hits| - 1]);
      assert hits == hits[..|hits| - 1] + [hits[|hits| - 1]];
    }
  }

  /** Two hits X (0.9) and Y (0.4), X with behaviour score 4.2 and Y with none,
      no filters: X ranks first with 0.9 * 0.7 + 4.2 * 0.3 = 1.89, then Y with
      0.4 * 0.7 = 0.28, whichever of the two orders the table yields them in. */
  lemma TwoHitScenario(x: Product, y: Product)
    requires x.id == "X" && y.id == "Y"
    requires BehaviorScore(x) == 4.2 && NoHistory(y)
    ensures forall table :: table == [y, x] || table == [x, y] ==>
      var r := SearchResults([VectorHit("X", 0.9), VectorHit("Y", 0.4)], table,
                             Filters(None, None, None, None));
      |r| == 2 && r[0].product == x && r[0].finalScore == 1.89
      && r[1].product == y && r[1].finalScore == 0.28
  {
    var hits := [VectorHit("X", 0.9), VectorHit("Y", 0.4)];
    var f := Filters(None, None, None, None);
    assert Project(hits, HitId) == ["X", "Y"];
    TwoHitCandidates(x, y, f);
    TwoHitSimilarity(hits);
    var sim := SimilarityMap(hits);
    var rx, ry := MakeRecord(x, sim), MakeRecord(y, sim);
    assert rx.finalScore == 1.89 && ry.finalScore == 0.28;
    assert Records([y, x], sim) == [ry, rx] by {
      assert [y, x][..1] == [y];
    }
    assert Records([x, y], sim) == [rx, ry] by {
      assert [x, y][..1] == [x];
    }
    TwoRecordOrder(rx, ry);
  }

  lemma TwoHitCandidates(x: Product, y: Product, f: Filters)
    requires x.id == "X" && y.id == "Y" && f == Filters(None, None, None, None)
    ensures Filtered(Fetch([y, x], ["X", "Y"]), f) == [y, x]
    ensures Filtered(Fetch([x, y], ["X", "Y"]), f) == [x, y]
  {
    var ids := ["X", "Y"];
    assert IdIn(ids)(x) && IdIn(ids)(y);
    assert [y, x][..1] == [y] && [y][..0] == [];
    assert [x, y][..1] == [x] && [x][..0] == [];
    assert Keep([y], IdIn(ids)) == [y];
    assert Keep([x], IdIn(ids)) == [x];
    FalsyFiltersKeepAll([y, x], f);
    FalsyFiltersKeepAll([x, y], f);
  }

  lemma TwoHitSimilarity(hits: seq<VectorHit>)
    requires hits == [VectorHit("X", 0.9), VectorHit("Y", 0.4)]
    ensures SimilarityMap(hits) == map["X" := 0.9, "Y" := 0.4]
  {
    assert hits[..1] == [VectorHit("X", 0.9)] && hits[..1][..0] == [];
    assert SimilarityMap(hits[..1]) == map["X" := 0.9];
  }

  lemma TwoRecordOrder(rx: RankedResult, ry: RankedResult)
    requires rx.finalScore > ry.finalScore
    ensures SortDesc([ry, rx], FinalScore) == [rx, ry]
    ensures SortDesc([rx, ry], FinalScore) == [rx, ry]
  {
    assert [rx, ry][1..] == [ry] && [ry][1..] == [];
    assert SortDesc([ry], FinalScore) == [ry];
    assert [ry, rx][1..] == [rx] && [rx][1..] == [];
    assert SortDesc([rx], FinalScore) == [rx];
    assert FinalScore(ry) < FinalScore(rx);
    assert Insert(ry, [rx], FinalScore) == [rx] + Insert(ry, [], FinalScore);
  }
}
