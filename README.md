# Behavioural ranking core of search-engine-demo, in Dafny

This project models the part of the product search demo that turns user
interactions into ranking signals and uses them at query time:

- **Behaviour scorer** (`Learning.BehaviorScore`): a product's click, cart,
  purchase, dwell and bounce counters weighted 0.5, 1.2, 3.0, 0.02 and -0.5.
- **Hybrid ranker** (`Learning.ApplyBehavioralRanking`): each product's vector
  similarity (0 when the hit map has none) is fused with its behaviour score as
  `0.7 * sim + 0.3 * behavior`. One record is built per product, and the records
  are sorted by final score, descending and stably.
- **Event worker** (`EventProcessor`): a `Database` object holds the product
  table (a map from id to product) and the raw event rows. `ProcessEvent`
  stores the raw row, then bumps the one counter the event kind selects on the
  product the event names. `ProcessBatch` and `EventWorker` apply stream reads
  in order and move `last_id` to the last processed entry, starting from `"0-0"`.
- **Search filter step** (`Search`): no vector hits gives no results.
  Otherwise the candidates are fetched from the table by id. The category,
  price and rating filters use Python truthiness, and the survivors go to the
  ranker.
- **Keyword + vector merge** (`Semantic`): keyword matches enter with score
  0.5. A vector hit for an id already present adds its score to that entry;
  a new id is inserted as it is. The dict is sorted by score and cut to `limit`.
  A negative `limit` makes the two queries raise before the merge, and the
  model's `Search` returns `None` for it.

Python's `list.sort(key=..., reverse=True)` and `sorted(...)` are modelled by
`Sorting.SortDesc`, a stable insertion sort. It is proved sorted, a permutation
of its input, and stable: for each key value, the elements with that key keep
their input order.

Scores are Dafny `real`s and counters unbounded `int`s; the range of the
stored SQL columns is not modelled (see "## Left out").

Where the intended design and the code disagree, the model follows the code:
- The counter update does not deduplicate events: two click events for the
  same product add 2 (`EventProcessor.ReplayCountsTwice`). What stops a
  replayed entry is only the primary key of the raw event table, whose failing
  insert is not modelled (see "## Left out").
- Dwell seconds are added as given, negative values included.
- An event naming a product that is not stored changes nothing. No zero
  aggregate is created.
- The cursor is only the in-memory `last_id`. It starts at `"0-0"`, so every
  run of the worker reads the stream from its beginning again.
- The search neither over-fetches from the vector index nor breaks ties by
  similarity or id. It does not truncate its result to `limit`.
- The event route puts `dwell_time` at the top level of the event. The worker
  reads `metadata.seconds`, so a dwell event from the route adds nothing
  (`EventProcessor.RouteDwellAddsNothing`).

## Model

| member | source | states |
|---|---|---|
| `Learning.NoHistoryScoresZero` | src/services/learning_service.py:9-15 | a product with all counters 0 and dwell 0.0 scores exactly 0 |
| `Learning.CounterWeights` | src/services/learning_service.py:10-14 | one more click, cart add, purchase or bounce moves the score by exactly +0.5, +1.2, +3.0 or -0.5 |
| `Learning.DwellWeight` | src/services/learning_service.py:13 | each dwell second adds 0.02, for any amount, negative amounts included |
| `Learning.ScoreMonotone` | src/services/learning_service.py:9-15 | the score is non-decreasing in clicks, cart adds, purchases and dwell, and non-increasing in bounces |
| `Learning.ScoreCanBeNegative` | src/services/learning_service.py:14 | there is no clamping: a product whose only history is one bounce scores -0.5 |
| `Learning.FusionWeights` | src/services/learning_service.py:27-32 | final score = 0.7 * the map entry for the product id + 0.3 * behaviour, or 0.3 * behaviour when the id has no entry |
| `Learning.Records` | src/services/learning_service.py:26-57 | one record per product, in input order, each carrying its product and the similarity and behaviour values fused into its final score |
| `Learning.ApplyBehavioralRanking` | src/services/learning_service.py:18-62 | the loop builds the records, then sorts them; the result has one record per product (a permutation of the input), is sorted by final score non-increasing, and each record explains its final score |
| `Learning.RankingProperties` | src/services/learning_service.py:24-62 | same length as the input, sorted non-increasing, its products are a permutation of the input, and each record's similarity and behaviour scores are those fused into its final score |
| `Learning.RankingStable` | src/services/learning_service.py:60 | records with equal final scores keep their input order |
| `Sorting.SortDescSorted` | src/services/learning_service.py:60 | the sort leaves the sequence non-increasing in the key |
| `Sorting.SortDescPermutation` | src/services/learning_service.py:60 | the sort is a permutation of its input |
| `Sorting.SortDescStable` | src/services/learning_service.py:60 | for every key value, the elements carrying it are in input order in the output |
| `Sorting.SortDescDistinct` | src/services/semantic_service.py:68-72 | sorting keeps a repetition-free projection (the product ids) repetition-free |
| `EventProcessor.Database.ProcessEvent` | src/workers/event_processor.py:31-68 | appends exactly one raw event row, and the product table becomes `ApplyEvent` of the old one |
| `EventProcessor.DispatchTable` | src/workers/event_processor.py:46-66 | for an event naming a stored product: click, add_to_cart, purchase and bounce each add 1 to their own counter only, and dwell adds `metadata.seconds` (0 if absent) to the dwell total only; no other product changes |
| `EventProcessor.NoCounterChange` | src/workers/event_processor.py:46-51 | an absent or empty product id, an id with no stored product, or a kind without a counter (e.g. `search`) leaves the product table unchanged |
| `EventProcessor.EventScoreDelta` | src/workers/event_processor.py:52-66 | an event moves the named product's behaviour score by its kind's weight (+0.5, +1.2, +3.0, +0.02 per dwell second, -0.5) |
| `EventProcessor.ProcessBatch` | src/workers/event_processor.py:90-96 | the entries of one read are applied in stream order, each adds its raw row, and `last_id` ends at the last entry's id |
| `EventProcessor.EventWorker` | src/workers/event_processor.py:78-96 | from cursor "0-0", successive reads (empty ones skipped) are applied as one concatenated batch, and the cursor ends at the last entry read |
| `EventProcessor.BatchAppend` | src/workers/event_processor.py:91-96 | applying two batches in turn is applying their concatenation |
| `EventProcessor.BatchKeepsProducts` | src/workers/event_processor.py:46-66 | events never add or remove products |
| `EventProcessor.BatchTotals` | src/workers/event_processor.py:52-66 | after a batch, each stored product's counters grew by exactly the number of matching events (its dwell total by their seconds), and its other fields are unchanged |
| `EventProcessor.ReplayCountsTwice` | src/workers/event_processor.py:52-53 | the counter update has no dedupe of its own: applying a click to the product table twice raises the click count by 2 |
| `EventProcessor.FreshProductScenario` | src/workers/event_processor.py:52-63 | click, click, purchase and a 10-second dwell, each with its own event id, on a freshly inserted product give behaviour score 4.2 |
| `EventProcessor.RouteDwellAddsNothing` | src/workers/event_processor.py:61-63 | a dwell event shaped as the HTTP route queues it (dwell_time at top level, no metadata) leaves the product table unchanged |
| `Search.FilterProducts` | src/services/search_service.py:71-81 | keeps exactly the products that pass every truthy filter, as an order-preserving subsequence of its input |
| `Search.Search` | src/services/search_service.py:56-89 | no hits give an empty result; otherwise every result is a stored candidate that passes the filters and carries its fused scores, and the result is sorted by final score |
| `Search.ResultsComeFromCandidates` | src/services/search_service.py:66-87 | the ranked products are a permutation of the fetched and filtered products; only stored products whose id is a candidate appear, so candidates missing from the table are dropped |
| `Search.NoHitsNoResults` | src/services/search_service.py:63-64 | no vector hits give the empty list |
| `Search.FilterGuarantees` | src/services/search_service.py:73-80 | with a truthy filter, every kept product has that category, a price within the truthy bounds, and at least the minimum rating |
| `Search.FalsyFiltersKeepAll` | src/services/search_service.py:73-80 | falsy filter values (absent, "", 0) impose nothing: every product is kept, in order |
| `Search.InvertedPriceRange` | src/services/search_service.py:75-78 | with both price bounds truthy and the minimum above the maximum, the search returns nothing |
| `Search.SimilarityMapEntries` | src/services/search_service.py:61 | each hit id maps to the score of its last hit |
| `Search.SimilarityMapKeys` | src/services/search_service.py:60-61 | the similarity map's keys are exactly the hit ids |
| `Search.TwoHitScenario` | src/services/search_service.py:60-87 | hits X 0.9 (behaviour 4.2) and Y 0.4 (no history) rank X first with 1.89, then Y with 0.28, for either order of the two rows in the table |
| `Subsequences.KeepMembers` | src/services/search_service.py:71-81 | a product is kept exactly when it is in the input and passes the test |
| `Subsequences.KeepIsSubsequence` | src/services/search_service.py:71-81 | what is kept is an order-preserving subsequence of the input |
| `Semantic.KeywordBase` | src/services/semantic_service.py:33-43 | every keyword match enters the merge with score 0.5 |
| `Semantic.FromItemsLookup` | src/services/semantic_service.py:59 | the dict built from the keyword records holds, for each id, the last record with that id |
| `Semantic.Combine` | src/services/semantic_service.py:59-65 | the merge loop yields one entry per id, each equal to the merged entry for its id |
| `Semantic.CombinedIds` | src/services/semantic_service.py:59-65 | the merged dict holds exactly the ids of both lists, each at most once |
| `Semantic.CombinedLookup` | src/services/semantic_service.py:59-65 | for each id, the entry has the keyword record's fields if there is one, else the first vector record's, and the keyword score plus every vector score for that id |
| `Semantic.CombinedEntries` | src/services/semantic_service.py:59-65 | every entry of the merged dict is the merged entry for its id |
| `Semantic.CombinedSize` | src/services/semantic_service.py:59-65 | the merged dict has as many entries as there are distinct ids across both lists |
| `Semantic.KeywordAndVector` | src/services/semantic_service.py:59-63 | an id matched once by keyword and once by vector ends with score 0.5 + the vector score; only the score changes, the other fields are the keyword record's |
| `Semantic.VectorOnly` | src/services/semantic_service.py:46-65 | a vector-only id keeps its vector score and payload fields |
| `Semantic.PrefixSlice` | src/services/semantic_service.py:74 | `s[:limit]` is a prefix of length min(limit, len) for limit >= 0, and drops -limit elements from the end for limit < 0 |
| `Semantic.SemanticProperties` | src/services/semantic_service.py:59-74 | the output is sorted by score non-increasing, has each id at most once, holds the merged entry for each id, is drawn from the merged dict (multiset inclusion), keeps the top: every merged entry left out scores no higher than every entry kept, and has length min(limit, distinct ids) for limit >= 0 |
| `Semantic.Search` | src/services/semantic_service.py:14-74 | a negative limit fails (the queries at lines 19 and 28 raise); otherwise formatting, merge, sort and slice give sorted output, unique ids, entries drawn from the merged dict, the top-scoring ones kept, and length min(limit, distinct ids) |

## Left out

- Redis stream I/O (`xread`, `xadd`, the 5-second block, `asyncio.sleep`) and JSON decoding: the worker takes each read as a sequence of decoded entries.
- Database sessions, `db.add`, the per-event `commit`, transactions and their failures: the product table is a map and the event table a sequence.
- The `id IN (...)` query: the fetched rows come in the order the table sequence gives them, since SQL specifies no order.
- Embedding generation, the Qdrant search and the keyword `ILIKE` query with its `limit`: vector hits and keyword matches are inputs.
- The explanation string with `round(x, 3)`: floating-point formatting is not modelled, and the record carries no explanation field.
- Floating-point arithmetic: scores, prices, ratings and dwell totals are exact reals.
- Nullable columns (`description`, `category`, `price`, `rating`, and the counters `click_count`, `cart_count`, `purchase_count`, `total_dwell_time`, `bounce_count`): they are modelled as always present, so the `TypeError` a missing price or rating raises in the filter, and the one `+= 1` raises on a NULL counter, are not modelled.
- The range of the SQL `Integer` counter columns: a counter past it fails the commit; the model's counters are unbounded.
- EventProcessor.Database.ProcessEvent: the constraints of `user_events` are not modelled. These are the primary key `id` and the non-null `event_type`. A row that repeats a stored id (a replayed stream entry), or has no id or no event type, fails to insert. For an event that names a product, the select on line 49 flushes the insert and raises before any counter update. For any other event, the commit on line 68 raises. The model appends every raw row and applies every counter update.
- EventProcessor.ProcessBatch: the exception a failed insert raises is not modelled. Uncaught, it ends the batch at that entry. The model applies every entry.
- EventProcessor.EventWorker: the exception a failed insert raises is not modelled. Uncaught, it stops the worker at the first failing entry, such as a replayed one. The model reads on.
- Search.Search: the table is a sequence of rows, and the `products` primary key (distinct ids) is not assumed of it. Every property proved holds for any sequence, so a table that repeats an id yields one record per row.
- A non-numeric `metadata.seconds`: the model's metadata maps names to numbers, so the `TypeError` a string such as "10" raises when added to the dwell total, and the 1 or 0 a boolean adds, are not modelled.
- An event without `event_type`: the model's event type is a required field. In the program the row's non-null column fails the insert first (see the `ProcessEvent` line above), so the `KeyError` on line 52 is never reached.
- Metadata present but null: a dwell event with it raises `AttributeError` on line 62, which is not modelled.
- Timestamps, UUID generation, the HTTP routes and settings. The route's event shape appears only in `EventProcessor.RouteEvent`.
- The in-place list sort: `.sort` and `sorted` are modelled by a function on sequences, not by an array algorithm.
- Concurrency between the worker and searches.
