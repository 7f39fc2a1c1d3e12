/** Records shared by the services: the product row (with its behavioural
    counters), the event kinds, the decoded event payload and the raw event row. */
module Models {

  datatype Option<+T> = None | Some(value: T)

  type ProductId = string

  /** One row of the `products` table. The five counters at the end are the
      behavioural aggregate that the event worker updates and the ranker reads. */
  datatype Product = Product(
    id: ProductId,
    title: string,
    description: string,
    category: string,
    price: real,
    rating: real,
    attributes: map<string, string>,
    clickCount: int,
    cartCount: int,
    purchaseCount: int,
    totalDwellTime: real,
    bounceCount: int)

  /** A product as inserted, with every behavioural column at its default. */
  function NewProduct(id: ProductId, title: string, description: string, category: string,
                      price: real, rating: real): Product
  {
    Product(id, title, description, category, price, rating, map[], 0, 0, 0, 0.0, 0)
  }

  /** The baseline aggregate: no interaction has been recorded yet. */
  predicate NoHistory(p: Product) {
    p.clickCount == 0 && p.cartCount == 0 && p.purchaseCount == 0 &&
    p.totalDwellTime == 0.0 && p.bounceCount == 0
  }

  /** The event kinds, as the strings carried in `event_type`. */
  const SearchKind := "search"
  const ClickKind := "click"
  const AddToCartKind := "add_to_cart"
  const PurchaseKind := "purchase"
  const DwellKind := "dwell"
  const BounceKind := "bounce"

  /** Free-form event metadata; only numeric values matter to the worker. */
  type Metadata = map<string, real>

  /** An event as decoded from the stream. A `None` field is a key that is
      absent from the JSON object. */
  datatype EventData = EventData(
    id: Option<string>,
    userId: Option<string>,
    sessionId: Option<string>,
    eventType: string,
    query: Option<string>,
    productId: Option<ProductId>,
    metadata: Option<Metadata>)

  /** One row of the `user_events` table. */
  datatype UserEvent = UserEvent(
    id: Option<string>,
    userId: Option<string>,
    sessionId: Option<string>,
    eventType: string,
    query: Option<string>,
    productId: Option<ProductId>,
    eventData: Option<Metadata>)
}
