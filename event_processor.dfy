/** The event worker (src/workers/event_processor.py): each event from the
    stream is stored as a raw event row and, when it names a stored product,
    bumps one of that product's behavioural counters. */
module EventProcessor {
  import opened Models
  import opened Learning

  /** `if product_id:` with the id `pid`: present and not the empty string. */
  predicate Names(e: EventData, pid: ProductId) {
    e.productId == Some(pid) && pid != ""
  }

  /** `event_data.get("metadata", {}).get("seconds", 0)`, added as given. */
  function DwellSeconds(e: EventData): real
  {
    match e.metadata
    case None => 0.0
    case Some(m) => if "seconds" in m then m["seconds"] else 0.0
  }

  /** The counter update that the event kind selects; other kinds change nothing. */
  function Bump(p: Product, e: EventData): Product
  {
    if e.eventType == ClickKind then p.(clickCount := p.clickCount + 1)
    else if e.eventType == AddToCartKind then p.(cartCount := p.cartCount + 1)
    else if e.eventType == PurchaseKind then p.(purchaseCount := p.purchaseCount + 1)
    else if e.eventType == DwellKind then p.(totalDwellTime := p.totalDwellTime + DwellSeconds(e))
    else if e.eventType == BounceKind then p.(bounceCount := p.bounceCount + 1)
    else p
  }

  /** The product table after one event. */
  function ApplyEvent(products: map<ProductId, Product>, e: EventData): map<ProductId, Product>
  {
    match e.productId
    case Some(pid) =>
      if pid != "" && pid in products then products[pid := Bump(products[pid], e)] else products
    case None => products
  }

  /** The raw event row stored for every event. */
  function RawEvent(e: EventData): UserEvent
  {
    UserEvent(e.id, e.userId, e.sessionId, e.eventType, e.query, e.productId, e.metadata)
  }

  /** Every stored product sits under its own id. This only records the
      `products` primary key; no operation here depends on it. */
  ghost predicate KeyedById(products: map<ProductId, Product>) {
    forall pid :: pid in products ==> products[pid].id == pid
  }

  /** The database state the worker writes to. */
  class Database {
    var products: map<ProductId, Product>
    var events: seq<UserEvent>

    ghost predicate Valid()
      reads this
    {
      KeyedById(products)
    }

    constructor (catalog: map<ProductId, Product>)
      requires KeyedById(catalog)
      ensures Valid()
      ensures products == catalog && events == []
    {
      products := catalog;
      events := [];
    }

    /** `process_event`: store the raw event, then update the named product's counters. */
    method ProcessEvent(data: EventData)
      requires Valid()
      modifies this
      ensures Valid()
      ensures events == old(events) + [RawEvent(data)]
      ensures products == ApplyEvent(old(products), data)
    {
      events := events + [RawEvent(data)];
      if data.productId.Some? && data.productId.value != "" {
        var pid := data.productId.value;
        if pid in products {
          var product := products[pid];
          if data.eventType == ClickKind {
            product := product.(clickCount := product.clickCount + 1);
          } else if data.eventType == AddToCartKind {
            product := product.(cartCount := product.cartCount + 1);
          } else if data.eventType == PurchaseKind {
            product := product.(purchaseCount := product.purchaseCount + 1);
          } else if data.eventType == DwellKind {
            product := product.(totalDwellTime := product.totalDwellTime + DwellSeconds(data));
          } else if data.eventType == BounceKind {
            product := product.(bounceCount := product.bounceCount + 1);
          }
          products := products[pid := product];
        }
      }
    }
  }

  /** One stream entry: its stream id and its decoded payload. */
  datatype StreamEntry = StreamEntry(entryId: string, data: EventData)

  /** The cursor the worker starts from: the beginning of the stream. */
  const InitialCursor := "0-0"

  /** The product table after a batch, applied in stream order. */
  function ApplyBatch(products: map<ProductId, Product>, batch: seq<StreamEntry>): map<ProductId, Product>
  {
    if batch == [] then products
    else ApplyEvent(ApplyBatch(products, batch[..|batch| - 1]), batch[|batch| - 1].data)
  }

  /** The raw event rows a batch adds, one per entry, in stream order. */
  function RawEvents(batch: seq<StreamEntry>): (rows: seq<UserEvent>)
    ensures |rows| == |batch|
    ensures forall i :: 0 <= i < |batch| ==> rows[i] == RawEvent(batch[i].data)
  {
    if batch == [] then [] else RawEvents(batch[..|batch| - 1]) + [RawEvent(batch[|batch| - 1].data)]
  }

  /** `last_id` after a batch: the id of its last entry, or unchanged if it is empty. */
  function CursorAfter(lastId: string, batch: seq<StreamEntry>): string
  {
    if batch == [] then lastId else batch[|batch| - 1].entryId
  }

  /** The entries of successive reads, concatenated. */
  function Flatten(polls: seq<seq<StreamEntry>>): seq<StreamEntry>
  {
    if polls == [] then [] else Flatten(polls[..|polls| - 1]) + polls[|polls| - 1]
  }

  /** The body of the worker loop for one non-empty read: each entry in order,
      moving `last_id` to every processed entry. */
  method ProcessBatch(db: Database, lastId: string, entries: seq<StreamEntry>) returns (newLastId: string)
    requires db.Valid()
    modifies db
    ensures db.Valid()
    ensures db.products == ApplyBatch(old(db.products), entries)
    ensures db.events == old(db.events) + RawEvents(entries)
    ensures newLastId == CursorAfter(lastId, entries)
  {
    newLastId := lastId;
    for i := 0 to |entries|
      invariant db.Valid()
      invariant db.products == ApplyBatch(old(db.products), entries[..i])
      invariant db.events == old(db.events) + RawEvents(entries[..i])
      invariant newLastId == CursorAfter(lastId, entries[..i])
    {
      assert entries[..i + 1][..i] == entries[..i];
      db.ProcessEvent(entries[i].data);
      newLastId := entries[i].entryId;
    }
    assert entries[..|entries|] == entries;
  }

  /** The worker loop over a finite run of reads (an empty read is a timeout),
      starting from the beginning of the stream. */
  method EventWorker(db: Database, polls: seq<seq<StreamEntry>>) returns (lastId: string)
    requires db.Valid()
    modifies db
    ensures db.Valid()
    ensures db.products == ApplyBatch(old(db.products), Flatten(polls))
    ensures db.events == old(db.events) + RawEvents(Flatten(polls))
    ensures lastId == CursorAfter(InitialCursor, Flatten(polls))
  {
    lastId := InitialCursor;
    for k := 0 to |polls|
      invariant db.Valid()
      invariant db.products == ApplyBatch(old(db.products), Flatten(polls[..k]))
      invariant db.events == old(db.events) + RawEvents(Flatten(polls[..k]))
      invariant lastId == CursorAfter(InitialCursor, Flatten(polls[..k]))
    {
      assert polls[..k + 1][..k] == polls[..k];
      var done := Flatten(polls[..k]);
      assert Flatten(polls[..k + 1]) == done + polls[k];
      BatchAppend(old(db.products), done, polls[k]);
      RawEventsAppend(done, polls[k]);
      CursorAppend(InitialCursor, done, polls[k]);
      if polls[k] != [] {
        lastId := ProcessBatch(db, lastId, polls[k]);
      }
    }
    assert polls[..|polls|] == polls;
  }

  /** Applying two batches one after the other is applying their concatenation. */
  lemma {:induction false} BatchAppend(products: map<ProductId, Product>, a: seq<StreamEntry>, b: seq<StreamEntry>)
    ensures ApplyBatch(products, a + b) == ApplyBatch(ApplyBatch(products, a), b)
  {
    if b == [] {
      assert a + b == a;
    } else {
      BatchAppend(products, a, b[..|b| - 1]);
      assert (a + b)[..|a + b| - 1] == a + b[..|b| - 1];
    }
  }

  lemma {:induction false} RawEventsAppend(a: seq<StreamEntry>, b: seq<StreamEntry>)
    ensures RawEvents(a + b) == RawEvents(a) + RawEvents(b)
  {
  }

  lemma {:induction false} CursorAppend(lastId: string, a: seq<StreamEntry>, b: seq<StreamEntry>)
    ensures CursorAfter(lastId, a + b) == CursorAfter(CursorAfter(lastId, a), b)
  {
  }

  /** The dispatch table: an event naming a stored product changes exactly the
      counter its kind selects, by one (dwell: by the metadata seconds, as given),
      and leaves every other product and counter alone. */
  lemma DispatchTable(products: map<ProductId, Product>, e: EventData, pid: ProductId)
    requires Names(e, pid) && pid in products
    ensures e.eventType == ClickKind ==>
      ApplyEvent(products, e) == products[pid := products[pid].(clickCount := products[pid].clickCount + 1)]
    ensures e.eventType == AddToCartKind ==>
      ApplyEvent(products, e) == products[pid := products[pid].(cartCount := products[pid].cartCount + 1)]
    ensures e.eventType == PurchaseKind ==>
      ApplyEvent(products, e) == products[pid := products[pid].(purchaseCount := products[pid].purchaseCount + 1)]
    ensures e.eventType == BounceKind ==>
      ApplyEvent(products, e) == products[pid := products[pid].(bounceCount := products[pid].bounceCount + 1)]
    ensures e.eventType == DwellKind ==>
      ApplyEvent(products, e) == products[pid := products[pid].(totalDwellTime := products[pid].totalDwellTime + DwellSeconds(e))]
  {
  }

  /** Without a product id, with an empty one, or with one naming no stored
      product, no counter changes; nor for a kind without a counter, such as `search`. */
  lemma NoCounterChange(products: map<ProductId, Product>, e: EventData)
    requires e.productId == None || e.productId == Some("") || e.productId.value !in products
             || e.eventType !in {ClickKind, AddToCartKind, PurchaseKind, DwellKind, BounceKind}
    ensures ApplyEvent(products, e) == products
  {
  }

  /** How much an event raises the behaviour score of the product it names. */
  function ScoreWeight(e: EventData): real
  {
    if e.eventType == ClickKind then 0.5
    else if e.eventType == AddToCartKind then 1.2
    else if e.eventType == PurchaseKind then 3.0
    else if e.eventType == DwellKind then 0.02 * DwellSeconds(e)
    else if e.eventType == BounceKind then -0.5
    else 0.0
  }

  /** Each event moves the named product's behaviour score by its weight. */
  lemma EventScoreDelta(products: map<ProductId, Product>, e: EventData, pid: ProductId)
    requires Names(e, pid) && pid in products
    ensures pid in ApplyEvent(products, e)
    ensures BehaviorScore(ApplyEvent(products, e)[pid]) == BehaviorScore(products[pid]) + ScoreWeight(e)
  {
    CounterWeights(products[pid]);
    DwellWeight(products[pid], DwellSeconds(e));
  }

  /** How many entries of a batch are events of `kind` naming `pid`. */
  function CountKind(batch: seq<StreamEntry>, pid: ProductId, kind: string): nat
  {
    if batch == [] then 0
    else CountKind(batch[..|batch| - 1], pid, kind)
         + (if Names(batch[|batch| - 1].data, pid) && batch[|batch| - 1].data.eventType == kind then 1 else 0)
  }

  /** The dwell seconds that the dwell events of a batch naming `pid` carry. */
  function DwellTotal(batch: seq<StreamEntry>, pid: ProductId): real
  {
    if batch == [] then 0.0
    else DwellTotal(batch[..|batch| - 1], pid)
         + (if Names(batch[|batch| - 1].data, pid) && batch[|batch| - 1].data.eventType == DwellKind
            then DwellSeconds(batch[|batch| - 1].data) else 0.0)
  }

  /** A batch never adds or removes products. */
  lemma {:induction false} BatchKeepsProducts(products: map<ProductId, Product>, batch: seq<StreamEntry>)
    ensures ApplyBatch(products, batch).Keys == products.Keys
  {
    if batch != [] {
      BatchKeepsProducts(products, batch[..|batch| - 1]);
    }
  }

  /** After a batch, each stored product's counters have grown by exactly the
      number of matching events in it (dwell: by their seconds), and its other
      fields are unchanged. Nothing is deduplicated: a repeated event counts twice. */
  lemma {:induction false} BatchTotals(products: map<ProductId, Product>, batch: seq<StreamEntry>, pid: ProductId)
    requires pid in products
    ensures pid in ApplyBatch(products, batch)
    ensures ApplyBatch(products, batch)[pid] == products[pid].(
      clickCount := products[pid].clickCount + CountKind(batch, pid, ClickKind),
      cartCount := products[pid].cartCount + CountKind(batch, pid, AddToCartKind),
      purchaseCount := products[pid].purchaseCount + CountKind(batch, pid, PurchaseKind),
      totalDwellTime := products[pid].totalDwellTime + DwellTotal(batch, pid),
      bounceCount := products[pid].bounceCount + CountKind(batch, pid, BounceKind))
  {
    if batch != [] {
      var prefix := batch[..|batch| - 1];
      BatchTotals(products, prefix, pid);
      BatchKeepsProducts(products, prefix);
    }
  }

  /** Replaying a click increments the click counter twice. */
  lemma ReplayCountsTwice(products: map<ProductId, Product>, entry: StreamEntry, pid: ProductId)
    requires Names(entry.data, pid) && entry.data.eventType == ClickKind && pid in products
    ensures pid in ApplyBatch(products, [entry, entry])
    ensures ApplyBatch(products, [entry, entry])[pid].clickCount == products[pid].clickCount + 2
  {
    BatchTotals(products, [entry, entry], pid);
    assert [entry, entry][..1] == [entry] && [entry][..0] == [];
    assert CountKind([entry], pid, ClickKind) == 1;
  }

  /** Two clicks, a purchase and a ten-second dwell on a freshly inserted
      product give a behaviour score of 0.5 * 2 + 3.0 + 0.02 * 10 = 4.2. Each
      event carries its own id, as the route assigns one per event. */
  lemma FreshProductScenario(pid: ProductId, title: string, description: string, category: string,
                             price: real, rating: real, id1: string, id2: string, id3: string, id4: string,
                             entry1: string, entry2: string, entry3: string, entry4: string)
    requires pid != ""
    requires id1 != id2 && id1 != id3 && id1 != id4 && id2 != id3 && id2 != id4 && id3 != id4
    ensures var x := NewProduct(pid, title, description, category, price, rating);
            var click := EventData(None, None, None, ClickKind, None, Some(pid), None);
            var batch := [StreamEntry(entry1, click.(id := Some(id1))),
                          StreamEntry(entry2, click.(id := Some(id2))),
                          StreamEntry(entry3, click.(id := Some(id3), eventType := PurchaseKind)),
                          StreamEntry(entry4, click.(id := Some(id4), eventType := DwellKind,
                                                     metadata := Some(map["seconds" := 10.0])))];
            pid in ApplyBatch(map[pid := x], batch) &&
            BehaviorScore(ApplyBatch(map[pid := x], batch)[pid]) == 4.2
  {
    var x := NewProduct(pid, title, description, category, price, rating);
    var click := EventData(None, None, None, ClickKind, None, Some(pid), None);
    var c1, c2 := click.(id := Some(id1)), click.(id := Some(id2));
    var purchase := click.(id := Some(id3), eventType := PurchaseKind);
    var stay := click.(id := Some(id4), eventType := DwellKind, metadata := Some(map["seconds" := 10.0]));
    var e1, e2, e3, e4 := StreamEntry(entry1, c1), StreamEntry(entry2, c2),
                          StreamEntry(entry3, purchase), StreamEntry(entry4, stay);
    var m := map[pid := x];
    assert [e1, e2, e3, e4][..3] == [e1, e2, e3] && [e1, e2, e3][..2] == [e1, e2];
    assert [e1, e2][..1] == [e1] && [e1][..0] == [];
    var m1 := ApplyEvent(m, c1);
    var m2 := ApplyEvent(m1, c2);
    var m3 := ApplyEvent(m2, purchase);
    var m4 := ApplyEvent(m3, stay);
    assert ApplyBatch(m, [e1]) == m1;
    assert ApplyBatch(m, [e1, e2]) == m2;
    assert ApplyBatch(m, [e1, e2, e3]) == m3;
    assert ApplyBatch(m, [e1, e2, e3, e4]) == m4;
    assert DwellSeconds(stay) == 10.0;
    assert m4[pid] == x.(clickCount := 2, purchaseCount := 1, totalDwellTime := 10.0);
  }

  /** An event as the HTTP route queues it: `event_type`, `product_id`,
      `dwell_time` and a fresh `id`, with no `metadata` key. */
  function RouteEvent(eventType: string, productId: ProductId, dwellTime: Option<real>, id: string): EventData
  {
    EventData(Some(id), None, None, eventType, None, Some(productId), None)
  }

  /** The route puts dwell time at the top level while the worker reads
      `metadata.seconds`, so a dwell event from the route adds nothing. */
  lemma RouteDwellAddsNothing(products: map<ProductId, Product>, productId: ProductId, dwellTime: Option<real>, id: string)
    ensures ApplyEvent(products, RouteEvent(DwellKind, productId, dwellTime, id)) == products
  {
    var e := RouteEvent(DwellKind, productId, dwellTime, id);
    if productId != "" && productId in products {
      assert Bump(products[productId], e) == products[productId];
    }
  }
}
