/** The keyword + vector merge of `SemanticService.search`
    (src/services/semantic_service.py). The keyword query and the vector search
    are inputs; the merge keeps one entry per product id, in the insertion order
    of a Python dict, then sorts by score and truncates. */
module Semantic {
  import opened Models
  import opened Sorting

  /** The payload stored with each vector point. */
  datatype Payload = Payload(productId: ProductId, title: string, description: string,
                             category: string, price: real)

  /** One vector search result. */
  datatype ScoredPoint = ScoredPoint(payload: Payload, score: real)

  /** The uniform result record both searches are converted to. */
  datatype Entry = Entry(productId: ProductId, title: string, description: string,
                         category: string, price: real, score: real)

  /** The base score of a keyword match. */
  const KeywordScore: real := 0.5

  function KeywordEntry(p: Product): Entry
  {
    Entry(p.id, p.title, p.description, p.category, p.price, KeywordScore)
  }

  function VectorEntry(r: ScoredPoint): Entry
  {
    Entry(r.payload.productId, r.payload.title, r.payload.description,
          r.payload.category, r.payload.price, r.score)
  }

  function EntryId(e: Entry): ProductId { e.productId }

  function Score(e: Entry): real { e.score }

  function Ids(es: seq<Entry>): seq<ProductId> { Project(es, EntryId) }

  /** The ids occurring in `es`. */
  function IdSet(es: seq<Entry>): set<ProductId> { set e | e in es :: e.productId }

  predicate HasId(es: seq<Entry>, id: ProductId) {
    id in Ids(es)
  }

  /** The position of `id` in `ids`, or -1 when it does not occur. */
  function IndexOf(ids: seq<ProductId>, id: ProductId): (k: int)
    ensures -1 <= k < |ids|
    ensures k >= 0 ==> ids[k] == id
    ensures k < 0 <==> id !in ids
  {
    if ids == [] then -1
    else if ids[|ids| - 1] == id then |ids| - 1
    else IndexOf(ids[..|ids| - 1], id)
  }

  /** Where the dict keeps the entry for `id`, or -1 when it has none. */
  function Find(d: seq<Entry>, id: ProductId): int
  {
    IndexOf(Ids(d), id)
  }

  /** `d[e["product_id"]] = e`: replace in place, or append a new key. */
  function Put(d: seq<Entry>, e: Entry): seq<Entry>
  {
    var k := Find(d, e.productId);
    if k >= 0 then d[k := e] else d + [e]
  }

  /** `{item["product_id"]: item for item in es}` */
  function FromItems(es: seq<Entry>): seq<Entry>
  {
    if es == [] then [] else Put(FromItems(es[..|es| - 1]), es[|es| - 1])
  }

  /** One step of the merge loop: add the score to the entry with the same id,
      or insert the vector entry as it is. */
  function Boost(d: seq<Entry>, v: Entry): seq<Entry>
  {
    var k := Find(d, v.productId);
    if k >= 0 then d[k := d[k].(score := d[k].score + v.score)] else d + [v]
  }

  /** The dict after the merge loop has seen the vector entries `vec`. */
  function Combined(kw: seq<Entry>, vec: seq<Entry>): seq<Entry>
  {
    if vec == [] then FromItems(kw) else Boost(Combined(kw, vec[..|vec| - 1]), vec[|vec| - 1])
  }

  /** Python's `s[:limit]`, negative limits included. */
  function PrefixSlice<T>(s: seq<T>, limit: int): (r: seq<T>)
    ensures limit >= 0 ==> |r| == if limit < |s| then limit else |s|
    ensures limit < 0 ==> |r| == if |s| + limit > 0 then |s| + limit else 0
    ensures r == s[..|r|]
  {
    if limit >= 0 then (if limit < |s| then s[..limit] else s)
    else (if |s| + limit > 0 then s[..|s| + limit] else [])
  }

  /** What the merge, the sort and `final_results[:limit]` give for the given
      query results. Only a non-negative `limit` reaches this step: a negative
      one makes the vector search and the SQL `LIMIT` raise first. */
  function SemanticResults(keywordProducts: seq<Product>, points: seq<ScoredPoint>, limit: int): seq<Entry>
  {
    var combined := Combined(Project(keywordProducts, KeywordEntry), Project(points, VectorEntry));
    PrefixSlice(SortDesc(combined, Score), limit)
  }

  /** The merge loop over the formatted vector results. */
  method Combine(keywordResults: seq<Entry>, vectorResults: seq<Entry>) returns (combined: seq<Entry>)
    ensures combined == Combined(keywordResults, vectorResults)
    ensures Distinct(Ids(combined))
    ensures forall e :: e in combined ==> e == Merged(keywordResults, vectorResults, e.productId)
  {
    combined := FromItems(keywordResults);
    for i := 0 to |vectorResults|
      invariant combined == Combined(keywordResults, vectorResults[..i])
    {
      CombinedStep(keywordResults, vectorResults, i);
      var v := vectorResults[i];
      var k := IndexOf(Ids(combined), v.productId);
      BoostAt(combined, v, k);
      if k >= 0 {
        combined := combined[k := combined[k].(score := combined[k].score + v.score)];
      } else {
        combined := combined + [v];
      }
    }
    assert vectorResults[..|vectorResults|] == vectorResults;
    CombinedEntries(keywordResults, vectorResults);
  }

  /** `Boost` at the position the membership test found. */
  lemma BoostAt(d: seq<Entry>, v: Entry, k: int)
    requires k == IndexOf(Ids(d), v.productId)
    ensures 0 <= k ==> k < |d| && Boost(d, v) == d[k := d[k].(score := d[k].score + v.score)]
    ensures k < 0 ==> Boost(d, v) == d + [v]
  {
  }

  /** One more vector entry is one more `Boost`. */
  lemma CombinedStep(kw: seq<Entry>, vec: seq<Entry>, i: int)
    requires 0 <= i < |vec|
    ensures Combined(kw, vec[..i + 1]) == Boost(Combined(kw, vec[..i]), vec[i])
  {
    assert vec[..i + 1][..i] == vec[..i];
  }

  /** `SemanticService.search` on the results of its two queries: `None` when
      the queries raise on a negative `limit`, else the formatted results merged,
      sorted and truncated. */
  method Search(keywordProducts: seq<Product>, points: seq<ScoredPoint>, limit: int) returns (results: Option<seq<Entry>>)
    ensures results.None? <==> limit < 0
    ensures results.Some? ==> results.value == SemanticResults(keywordProducts, points, limit)
    ensures results.Some? ==> SortedDesc(results.value, Score) && Distinct(Ids(results.value))
    ensures results.Some? ==>
      multiset(results.value) <= multiset(Combined(Project(keywordProducts, KeywordEntry), Project(points, VectorEntry)))
    ensures results.Some? ==> forall e, e' ::
      (e in results.value && e' in Combined(Project(keywordProducts, KeywordEntry), Project(points, VectorEntry))
       && e' !in results.value)
      ==> e'.score <= e.score
    ensures results.Some? ==>
      |results.value| == Min(limit, |IdSet(Project(keywordProducts, KeywordEntry)) + IdSet(Project(points, VectorEntry))|)
  {
    if limit < 0 {
      return None;
    }
    var keywordResults := Project(keywordProducts, KeywordEntry);
    var vectorResults := Project(points, VectorEntry);
    var combined := Combine(keywordResults, vectorResults);
    var finalResults := SortDesc(combined, Score);
    results := Some(PrefixSlice(finalResults, limit));
    SemanticProperties(keywordProducts, points, limit);
  }

  function Min(a: int, b: int): int { if a < b then a else b }

  // ----- what the merged entry for an id is -----

  /** The last entry of `es` with the given id (a later dict item wins). */
  function LastWith(es: seq<Entry>, id: ProductId): (e: Entry)
    requires HasId(es, id)
    ensures e in es && e.productId == id
  {
    var n := |es| - 1;
    if es[n].productId == id then es[n] else LastWith(es[..n], id)
  }

  /** The first entry of `es` with the given id (the one the loop inserts). */
  function FirstWith(es: seq<Entry>, id: ProductId): (e: Entry)
    requires HasId(es, id)
    ensures e in es && e.productId == id
  {
    var n := |es| - 1;
    if HasId(es[..n], id) then FirstWith(es[..n], id) else es[n]
  }

  /** The sum of the scores of the entries of `es` with the given id. */
  function SumScores(es: seq<Entry>, id: ProductId): real
  {
    if es == [] then 0.0
    else SumScores(es[..|es| - 1], id) + (if es[|es| - 1].productId == id then es[|es| - 1].score else 0.0)
  }

  /** The entry the merge produces for `id`: the fields of the (last) keyword
      record when there is one, else those of the first vector record; the
      score is the keyword score (if any) plus every vector score for `id`. */
  function Merged(kw: seq<Entry>, vec: seq<Entry>, id: ProductId): Entry
  {
    if HasId(kw, id) then LastWith(kw, id).(score := LastWith(kw, id).score + SumScores(vec, id))
    else if HasId(vec, id) then FirstWith(vec, id).(score := SumScores(vec, id))
    else Entry(id, "", "", "", 0.0, 0.0)
  }

  // ----- proofs -----

  lemma IdsAppend(d: seq<Entry>, e: Entry)
    ensures Ids(d + [e]) == Ids(d) + [e.productId]
  {
  }

  lemma IdsUpdate(d: seq<Entry>, k: int, e: Entry)
    requires 0 <= k < |d| && e.productId == d[k].productId
    ensures Ids(d[k := e]) == Ids(d)
  {
  }

  /** In a repetition-free id list, the index found is the only one holding the id. */
  lemma IndexOfUnique(ids: seq<ProductId>, j: int)
    requires Distinct(ids) && 0 <= j < |ids|
    ensures IndexOf(ids, ids[j]) == j
  {
  }

  lemma {:induction false} AppendDistinct(ids: seq<ProductId>, id: ProductId)
    requires Distinct(ids) && id !in ids
    ensures Distinct(ids + [id])
  {
  }

  lemma {:induction false} SumScoresAbsent(es: seq<Entry>, id: ProductId)
    requires !HasId(es, id)
    ensures SumScores(es, id) == 0.0
  {
    if es != [] {
      SumScoresAbsent(es[..|es| - 1], id);
    }
  }

  /** Splitting off the last entry of a list splits off its id. */
  lemma IdsSplit(es: seq<Entry>)
    requires es != []
    ensures Ids(es) == Ids(es[..|es| - 1]) + [es[|es| - 1].productId]
  {
    assert es == es[..|es| - 1] + [es[|es| - 1]];
    IdsAppend(es[..|es| - 1], es[|es| - 1]);
  }

  /** The ids after one `Put` or `Boost` step: unchanged if the key was there,
      else extended by the new one; still without repetitions. */
  lemma StepIds(d: seq<Entry>, e: Entry, boost: bool)
    requires Distinct(Ids(d))
    ensures var d' := if boost then Boost(d, e) else Put(d, e);
      && Distinct(Ids(d'))
      && (if HasId(d, e.productId) then Ids(d') == Ids(d) else Ids(d') == Ids(d) + [e.productId])
  {
    var k := Find(d, e.productId);
    if k >= 0 {
      IdsUpdate(d, k, e);
      IdsUpdate(d, k, d[k].(score := d[k].score + e.score));
    } else {
      IdsAppend(d, e);
      AppendDistinct(Ids(d), e.productId);
    }
  }

  /** The dict built from items has exactly their ids, each once. */
  lemma {:induction false} FromItemsIds(es: seq<Entry>)
    ensures Distinct(Ids(FromItems(es)))
    ensures forall id :: HasId(FromItems(es), id) <==> HasId(es, id)
  {
    if es != [] {
      var n := |es| - 1;
      FromItemsIds(es[..n]);
      StepIds(FromItems(es[..n]), es[n], false);
      IdsSplit(es);
      forall id ensures HasId(FromItems(es), id) <==> HasId(es, id) {
        assert HasId(es[..n], id) <==> HasId(FromItems(es[..n]), id);
      }
    }
  }

  /** The entry the dict built from items holds for an id is the last item with it. */
  lemma {:induction false} FromItemsLookup(es: seq<Entry>, id: ProductId)
    requires HasId(es, id)
    ensures HasId(FromItems(es), id)
    ensures FromItems(es)[Find(FromItems(es), id)] == LastWith(es, id)
  {
    FromItemsIds(es);
    var n := |es| - 1;
    var d := FromItems(es[..n]);
    FromItemsIds(es[..n]);
    StepIds(d, es[n], false);
    IdsSplit(es);
    if id != es[n].productId {
      FromItemsLookup(es[..n], id);
    }
  }

  /** The merge holds exactly the ids of both lists, each once. */
  lemma {:induction false} CombinedIds(kw: seq<Entry>, vec: seq<Entry>)
    ensures Distinct(Ids(Combined(kw, vec)))
    ensures forall id :: HasId(Combined(kw, vec), id) <==> HasId(kw, id) || HasId(vec, id)
  {
    if vec == [] {
      FromItemsIds(kw);
    } else {
      var n := |vec| - 1;
      var d := Combined(kw, vec[..n]);
      assert Combined(kw, vec) == Boost(d, vec[n]);
      CombinedIds(kw, vec[..n]);
      StepIds(d, vec[n], true);
      IdsSplit(vec);
      forall id ensures HasId(Boost(d, vec[n]), id) <==> HasId(kw, id) || HasId(vec, id) {
        assert HasId(d, id) <==> HasId(kw, id) || HasId(vec[..n], id);
        assert HasId(vec, id) <==> HasId(vec[..n], id) || id == vec[n].productId;
      }
    }
  }

  /** Where one `Boost` step leaves the entry for an id. */
  lemma BoostLookup(d: seq<Entry>, v: Entry, id: ProductId)
    requires Distinct(Ids(d))
    requires HasId(d, id) || id == v.productId
    ensures HasId(Boost(d, v), id)
    ensures Boost(d, v)[Find(Boost(d, v), id)] ==
      if id != v.productId then d[Find(d, id)]
      else if HasId(d, id) then d[Find(d, id)].(score := d[Find(d, id)].score + v.score)
      else v
  {
    StepIds(d, v, true);
    var d' := Boost(d, v);
    if !HasId(d, v.productId) {
      assert Ids(d')[|d|] == v.productId;
      IndexOfUnique(Ids(d'), |d|);
      if id != v.productId {
        var k := Find(d, id);
        assert Ids(d')[k] == id;
        IndexOfUnique(Ids(d'), k);
      }
    }
  }

  /** How `Merged` changes when one more vector entry is seen. */
  lemma MergedStep(kw: seq<Entry>, vec: seq<Entry>, id: ProductId)
    requires vec != []
    ensures var init, v := vec[..|vec| - 1], vec[|vec| - 1];
      Merged(kw, vec, id) ==
        if id != v.productId then Merged(kw, init, id)
        else if HasId(kw, id) || HasId(init, id)
        then Merged(kw, init, id).(score := Merged(kw, init, id).score + v.score)
        else v
  {
    var init, v := vec[..|vec| - 1], vec[|vec| - 1];
    IdsSplit(vec);
    if id == v.productId && !HasId(kw, id) && !HasId(init, id) {
      SumScoresAbsent(init, id);
    }
  }

  /** The entry the merge holds for an id of either list is `Merged`. */
  lemma {:induction false} CombinedLookup(kw: seq<Entry>, vec: seq<Entry>, id: ProductId)
    requires HasId(kw, id) || HasId(vec, id)
    ensures HasId(Combined(kw, vec), id)
    ensures Combined(kw, vec)[Find(Combined(kw, vec), id)] == Merged(kw, vec, id)
  {
    if vec == [] {
      FromItemsLookup(kw, id);
    } else {
      var n := |vec| - 1;
      var init, v := vec[..n], vec[n];
      var d := Combined(kw, init);
      CombinedIds(kw, init);
      IdsSplit(vec);
      MergedStep(kw, vec, id);
      if HasId(kw, id) || HasId(init, id) {
        CombinedLookup(kw, init, id);
      }
      BoostLookup(d, v, id);
    }
  }

  /** Every entry of the merged dict is the `Merged` entry for its id. */
  lemma CombinedEntries(kw: seq<Entry>, vec: seq<Entry>)
    ensures Distinct(Ids(Combined(kw, vec)))
    ensures forall e :: e in Combined(kw, vec) ==> e == Merged(kw, vec, e.productId)
  {
    var d := Combined(kw, vec);
    CombinedIds(kw, vec);
    forall e | e in d ensures e == Merged(kw, vec, e.productId) {
      var j :| 0 <= j < |d| && d[j] == e;
      assert Ids(d)[j] == e.productId;
      IndexOfUnique(Ids(d), j);
      CombinedLookup(kw, vec, e.productId);
    }
  }

  /** A repetition-free id list has as many elements as ids. */
  lemma {:induction false} DistinctCard(es: seq<Entry>)
    requires Distinct(Ids(es))
    ensures |IdSet(es)| == |es|
  {
    if es != [] {
      var n := |es| - 1;
      var init := es[..n];
      var id := es[n].productId;
      assert Ids(init) == Ids(es)[..n];
      DistinctCard(init);
      assert IdSet(es) == IdSet(init) + {id} by {
        assert es == init + [es[n]];
      }
      assert id !in Ids(init) by {
        forall i | 0 <= i < n ensures Ids(init)[i] != id {
          assert Ids(es)[n] == id;
        }
      }
      IdSetHasId(init);
    }
  }

  lemma {:induction false} IdSetHasId(es: seq<Entry>)
    ensures forall id :: id in IdSet(es) <==> HasId(es, id)
  {
    forall id ensures id in IdSet(es) <==> HasId(es, id) {
      if HasId(es, id) {
        var i :| 0 <= i < |es| && Ids(es)[i] == id;
        assert es[i] in es;
      }
      if id in IdSet(es) {
        var e :| e in es && e.productId == id;
        var i :| 0 <= i < |es| && es[i] == e;
        assert Ids(es)[i] == id;
      }
    }
  }

  /** The merged dict has one entry per distinct id across both lists. */
  lemma CombinedSize(kw: seq<Entry>, vec: seq<Entry>)
    ensures |Combined(kw, vec)| == |IdSet(kw) + IdSet(vec)|
  {
    var d := Combined(kw, vec);
    CombinedIds(kw, vec);
    DistinctCard(d);
    IdSetHasId(d);
    IdSetHasId(kw);
    IdSetHasId(vec);
    assert IdSet(d) == IdSet(kw) + IdSet(vec);
  }

  /** The output is sorted by score, non-increasing, holds each id at most
      once, every entry is the merged entry for its id, and for a non-negative
      limit its length is the limit or the number of distinct ids, whichever is
      smaller. */
  lemma SemanticProperties(keywordProducts: seq<Product>, points: seq<ScoredPoint>, limit: int)
    ensures var r := SemanticResults(keywordProducts, points, limit);
      var kw, vec := Project(keywordProducts, KeywordEntry), Project(points, VectorEntry);
      && SortedDesc(r, Score)
      && Distinct(Ids(r))
      && (forall e :: e in r ==> e == Merged(kw, vec, e.productId))
      && multiset(r) <= multiset(Combined(kw, vec))
      && (forall e, e' :: e in r && e' in Combined(kw, vec) && e' !in r ==> e'.score <= e.score)
      && (limit >= 0 ==> |r| == Min(limit, |IdSet(kw) + IdSet(vec)|))
  {
    var kw, vec := Project(keywordProducts, KeywordEntry), Project(points, VectorEntry);
    var combined := Combined(kw, vec);
    var sorted := SortDesc(combined, Score);
    var r := PrefixSlice(sorted, limit);
    assert SortedDesc(sorted, Score) by {
      SortDescSorted(combined, Score);
    }
    assert multiset(sorted) == multiset(combined) by {
      SortDescPermutation(combined, Score);
    }
    assert SortedDesc(r, Score) && Distinct(Ids(r)) && forall e :: e in r ==> e in sorted by {
      CombinedIds(kw, vec);
      SortDescDistinct(combined, Score, EntryId);
      PrefixKeeps(sorted, limit);
    }
    assert forall e :: e in r ==> e == Merged(kw, vec, e.productId) by {
      CombinedEntries(kw, vec);
      forall e | e in r ensures e == Merged(kw, vec, e.productId) {
        assert e in multiset(combined);
      }
    }
    assert multiset(r) <= multiset(combined)
        && forall e, e' :: e in r && e' in combined && e' !in r ==> e'.score <= e.score by {
      PrefixTop(sorted, limit);
      forall e' | e' in combined ensures e' in sorted {
        assert e' in multiset(sorted);
      }
    }
    assert limit >= 0 ==> |r| == Min(limit, |IdSet(kw) + IdSet(vec)|) by {
      CombinedSize(kw, vec);
    }
  }

  /** The slice keeps the top of a sorted list: its elements come from the
      list, and every element left out scores no higher than every one kept. */
  lemma PrefixTop(s: seq<Entry>, limit: int)
    requires SortedDesc(s, Score)
    ensures var r := PrefixSlice(s, limit);
      && multiset(r) <= multiset(s)
      && forall e, e' :: e in r && e' in s && e' !in r ==> e'.score <= e.score
  {
    var r := PrefixSlice(s, limit);
    var n := |r|;
    assert s == r + s[n..];
    forall k | 0 <= k < n ensures s[k] in r {
      assert r[k] == s[k];
    }
    forall e, e' | e in r && e' in s && e' !in r ensures e'.score <= e.score {
      var i :| 0 <= i < n && r[i] == e;
      var j :| 0 <= j < |s| && s[j] == e';
      assert n <= j;
      assert Score(s[i]) >= Score(s[j]);
    }
  }

  /** A prefix of a sorted, repetition-free list is sorted and repetition-free. */
  lemma PrefixKeeps(s: seq<Entry>, limit: int)
    requires SortedDesc(s, Score) && Distinct(Ids(s))
    ensures var r := PrefixSlice(s, limit);
      SortedDesc(r, Score) && Distinct(Ids(r)) && forall e :: e in r ==> e in s
  {
    var r := PrefixSlice(s, limit);
    forall i, j | 0 <= i < j < |r| ensures Ids(r)[i] != Ids(r)[j] {
      assert Ids(s)[i] != Ids(s)[j];
    }
  }

  /** Every keyword match enters the merge with the base score 0.5. */
  lemma KeywordBase(keywordProducts: seq<Product>)
    ensures forall e :: e in Project(keywordProducts, KeywordEntry) ==> e.score == 0.5
  {
  }

  lemma {:induction false} SumScoresSingle(es: seq<Entry>, j: int)
    requires 0 <= j < |es|
    requires forall i :: 0 <= i < |es| && i != j ==> es[i].productId != es[j].productId
    ensures SumScores(es, es[j].productId) == es[j].score
  {
    var n := |es| - 1;
    if j == n {
      SumScoresAbsent(es[..n], es[j].productId);
    } else {
      SumScoresSingle(es[..n], j);
    }
  }

  /** An id matched once by the keyword query and returned once by the vector
      search ends with 0.5 plus the vector score; only the score changes, the
      other fields are the keyword record's. */
  lemma KeywordAndVector(keywordProducts: seq<Product>, points: seq<ScoredPoint>, i: int, j: int)
    requires 0 <= i < |keywordProducts| && 0 <= j < |points|
    requires points[j].payload.productId == keywordProducts[i].id
    requires forall m :: 0 <= m < |keywordProducts| && m != i ==> keywordProducts[m].id != keywordProducts[i].id
    requires forall m :: 0 <= m < |points| && m != j ==> points[m].payload.productId != points[j].payload.productId
    ensures Merged(Project(keywordProducts, KeywordEntry), Project(points, VectorEntry), keywordProducts[i].id)
         == KeywordEntry(keywordProducts[i]).(score := 0.5 + points[j].score)
  {
    var kw, vec := Project(keywordProducts, KeywordEntry), Project(points, VectorEntry);
    var id := keywordProducts[i].id;
    assert kw[i] == KeywordEntry(keywordProducts[i]);
    assert Ids(kw)[i] == id;
    forall m | 0 <= m < |kw| && m != i ensures kw[m].productId != kw[i].productId {
      assert kw[m] == KeywordEntry(keywordProducts[m]);
    }
    forall m | 0 <= m < |vec| && m != j ensures vec[m].productId != vec[j].productId {
      assert vec[m] == VectorEntry(points[m]) && vec[j] == VectorEntry(points[j]);
    }
    LastWithSingle(kw, i);
    SumScoresSingle(vec, j);
  }

  /** An id returned once by the vector search and not matched by the keyword
      query keeps its vector score and payload fields. */
  lemma VectorOnly(keywordProducts: seq<Product>, points: seq<ScoredPoint>, j: int)
    requires 0 <= j < |points|
    requires forall m :: 0 <= m < |keywordProducts| ==> keywordProducts[m].id != points[j].payload.productId
    requires forall m :: 0 <= m < |points| && m != j ==> points[m].payload.productId != points[j].payload.productId
    ensures Merged(Project(keywordProducts, KeywordEntry), Project(points, VectorEntry), points[j].payload.productId)
         == VectorEntry(points[j])
  {
    var kw, vec := Project(keywordProducts, KeywordEntry), Project(points, VectorEntry);
    assert vec[j].productId == points[j].payload.productId;
    assert !HasId(kw, points[j].payload.productId);
    FirstWithSingle(vec, j);
    SumScoresSingle(vec, j);
  }

  lemma {:induction false} LastWithSingle(es: seq<Entry>, j: int)
    requires 0 <= j < |es|
    requires forall i :: 0 <= i < |es| && i != j ==> es[i].productId != es[j].productId
    ensures LastWith(es, es[j].productId) == es[j]
  {
    var n := |es| - 1;
    if j != n {
      assert es[..n][j] == es[j];
      LastWithSingle(es[..n], j);
    }
  }

  lemma {:induction false} FirstWithSingle(es: seq<Entry>, j: int)
    requires 0 <= j < |es|
    requires forall i :: 0 <= i < |es| && i != j ==> es[i].productId != es[j].productId
    ensures FirstWith(es, es[j].productId) == es[j]
  {
    var n := |es| - 1;
    if j != n {
      assert es[..n][j] == es[j];
      FirstWithSingle(es[..n], j);
    }
  }
}
