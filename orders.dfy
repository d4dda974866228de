/** Values shared by the order service and its storefront: the order payload that the
    storefront posts, the HTTP handler validates, the broker relays and the store persists. */
module Orders {

  datatype Option<+T> = None | Some(value: T)

  /** Monetary amounts are carried through unchanged by this core (never computed on by
      the back end), so they are modelled as an opaque integer value. */
  type Money = int

  /** One line of an order: `{product_id, quantity, price}`. */
  datatype Item = Item(productId: int, quantity: int, price: Money)

  /** The JSON body of `POST /api/orders` and of a broker event. `items` is `None` when the
      field is absent (or null) in the JSON. */
  datatype OrderData = OrderData(
    customerName: string,
    customerEmail: string,
    totalAmount: Money,
    items: Option<seq<Item>>)

  /** The handler's validation: `items` is present and non-empty. */
  predicate HasItems(d: OrderData)
  {
    d.items.Some? && |d.items.value| > 0
  }
}
