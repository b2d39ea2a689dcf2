/** The records of internal/model: orders, products and order requests.

    Money is an integer number of the currency's smallest unit; the source
    holds it in a float64 (and the store in a decimal(10,2) column).  A
    timestamp is an integer, with 0 standing for Go's zero `time.Time`. */
module Model {

  datatype Order = Order(
    id: string,
    productId: string,
    totalPrice: int,
    status: string,
    createdAt: int)

  datatype Product = Product(
    id: string,
    name: string,
    price: int,
    qty: int,
    createdAt: string)

  datatype CreateOrderRequest = CreateOrderRequest(productId: string, quantity: int)

  /** A Go `[]model.Order`, which may be nil as well as empty: the read path
      caches a list only when it is not nil, and JSON writes nil as `null`. */
  datatype OrderList = NilList | List(items: seq<Order>)

  /** The only status the order service ever gives an order. */
  const Pending := "pending"
}
