/** The order orchestrator (`orderService`).

    The four dependencies of the Go struct — the order repository, the
    product client, the Redis client and the RabbitMQ publisher — are stood
    in for by the fields of `OrderService`: the store's rows, the cache's
    entries, the log of events the broker accepted, and a log of every call
    made to a dependency, in order.  Whether each dependency call succeeds is
    an argument of the method that makes it, as the mocks of the unit tests
    decide it. */
module OrderService {
  import opened Results
  import opened Model
  import opened Codec
  import ProductService

  const FetchFailed := "failed to fetch product: "
  const CacheKeyPrefix := "orders:product:"
  const Exchange := "amq.topic"
  const OrderCreatedKey := "order.created"

  /** A `time.Duration` counts nanoseconds. */
  const Second: int := 1_000_000_000
  const Minute: int := 60 * Second
  const OrdersCacheTtl: int := 10 * Minute

  /** `fmt.Sprintf("orders:product:%s", productID)`: the fixed prefix, then
      the product ID. */
  function CacheKey(productId: string): (k: string)
    ensures |k| == |CacheKeyPrefix| + |productId|
    ensures k[..|CacheKeyPrefix|] == CacheKeyPrefix && k[|CacheKeyPrefix|..] == productId
  {
    CacheKeyPrefix + productId
  }

  /** `product.Price * float64(req.Quantity)`: one unit costs the price, no
      unit costs nothing, and more units never cost less than one. */
  function TotalPrice(price: int, quantity: int): (t: int)
    ensures quantity == 0 ==> t == 0
    ensures quantity == 1 ==> t == price
    ensures price >= 0 && quantity >= 1 ==> t >= price
  {
    price * quantity
  }


  /** A Redis value together with the expiry it was written with. */
  datatype CacheEntry = CacheEntry(value: string, ttl: int)

  /** A message handed to the broker. */
  datatype Event = Event(exchange: string, routingKey: string, body: string)

  /** A call to one of the dependencies, as the mocks record it. */
  datatype Call =
    | GetProduct(productId: string)
    | CreateRow(order: Order)
    | QueryRows(productId: string)
    | CacheGet(key: string)
    | CacheSet(key: string, value: string, ttl: int)
    | Publish(event: Event)

  /** What the repository's `Create` does with the record it is handed: it
      fails, or it stores the record after changing it in place (the real
      store stamps the creation time, the unit test's mock sets the id). */
  datatype StoreWrite = WriteFailed(err: Error) | Written(stamp: Order -> Order)

  function OrderCreated(o: Order): Event
  {
    Event(Exchange, OrderCreatedKey, EncodeOrder(o))
  }

  /** What the read path takes from the cache: `Get` answers only when Redis
      is reachable and holds the key, and the value counts only if it
      decodes as an order list. */
  function CachedOrders(cache: map<string, CacheEntry>, key: string, reachable: bool): Option<OrderList>
  {
    if reachable && key in cache then DecodeList(cache[key].value) else None
  }

  class OrderService {
    var rows: seq<Order>
    var cache: map<string, CacheEntry>
    var published: seq<Event>
    var calls: seq<Call>

    /** Every event the broker accepted announces an order that is in the
        store: nothing is announced that was not persisted. */
    ghost predicate Valid()
      reads this
    {
      forall e :: e in published ==> exists o :: o in rows && e == OrderCreated(o)
    }

    /** `NewOrderService`, over a store and a cache in a given state. */
    constructor (initialRows: seq<Order>, initialCache: map<string, CacheEntry>)
      ensures Valid()
      ensures rows == initialRows && cache == initialCache
      ensures published == [] && calls == []
    {
      rows := initialRows;
      cache := initialCache;
      published := [];
      calls := [];
    }

    /** Looks the product up, prices the order, stores it and announces it.
        The lookup and the store write are hard failures; the announcement
        is best-effort.  The cache is never touched. */
    method CreateOrder(req: CreateOrderRequest, lookup: Result<Product>, newId: string,
                       write: StoreWrite, publishOk: bool)
      returns (r: Result<Order>)
      requires Valid()
      modifies this
      ensures Valid()
      ensures cache == old(cache)
      ensures lookup.Failure? ==>
        && r == Failure(Text(FetchFailed + lookup.error.Message()))
        && rows == old(rows) && published == old(published)
        && calls == old(calls) + [GetProduct(req.productId)]
      ensures lookup.Success? ==>
        var handed := Order(newId, req.productId, lookup.value.price * req.quantity, Pending, 0);
        && (write.WriteFailed? ==>
              && r == Failure(write.err)
              && rows == old(rows) && published == old(published)
              && calls == old(calls) + [GetProduct(req.productId), CreateRow(handed)])
        && (write.Written? ==>
              var stored := write.stamp(handed);
              && r == Success(stored)
              && rows == old(rows) + [stored]
              && calls == old(calls) + [GetProduct(req.productId), CreateRow(handed),
                                        Publish(OrderCreated(stored))]
              && published == old(published) + (if publishOk then [OrderCreated(stored)] else []))
    {
      calls := calls + [GetProduct(req.productId)];
      if lookup.Failure? {
        r := Failure(Text(FetchFailed + lookup.error.Message()));
        return;
      }
      var product := lookup.value;
      var totalPrice := TotalPrice(product.price, req.quantity);
      var newOrder := Order(newId, req.productId, totalPrice, Pending, 0);
      calls := calls + [CreateRow(newOrder)];
      match write {
        case WriteFailed(e) =>
          r := Failure(e);
          return;
        case Written(stamp) =>
          newOrder := stamp(newOrder);
          rows := rows + [newOrder];
      }
      var event := Event(Exchange, OrderCreatedKey, EncodeOrder(newOrder));
      calls := calls + [Publish(event)];
      if publishOk {
        assert newOrder in rows && event == OrderCreated(newOrder);
        published := published + [event];
      }
      r := Success(newOrder);
    }

    /** Read-through cache: a cached list that decodes is returned as it is;
        otherwise the store answers, and a non-nil answer is written back
        for ten minutes, best-effort. */
    method GetOrdersByProductID(productId: string, cacheReachable: bool,
                                query: Result<OrderList>, setOk: bool)
      returns (r: Result<OrderList>)
      requires Valid()
      modifies this
      ensures Valid()
      ensures rows == old(rows) && published == old(published)
      ensures var key := CacheKey(productId);
        var hit := CachedOrders(old(cache), key, cacheReachable);
        && (hit.Some? ==>
              r == Success(hit.value) && cache == old(cache)
              && calls == old(calls) + [CacheGet(key)])
        && (hit.None? && query.Success? && query.value.List? ==>
              var data := EncodeList(query.value);
              && r == query
              && calls == old(calls) + [CacheGet(key), QueryRows(productId),
                                        CacheSet(key, data, OrdersCacheTtl)]
              && cache == (if setOk then old(cache)[key := CacheEntry(data, OrdersCacheTtl)]
                           else old(cache)))
        && (hit.None? && !(query.Success? && query.value.List?) ==>
              r == query && cache == old(cache)
              && calls == old(calls) + [CacheGet(key), QueryRows(productId)])
    {
      var key := CacheKey(productId);
      calls := calls + [CacheGet(key)];
      if cacheReachable && key in cache {
        var cached := DecodeList(cache[key].value);
        if cached.Some? {
          r := Success(cached.value);
          return;
        }
      }
      calls := calls + [QueryRows(productId)];
      if query.Failure? {
        r := Failure(query.error);
        return;
      }
      var orders := query.value;
      if orders.List? {
        var data := EncodeList(orders);
        calls := calls + [CacheSet(key, data, OrdersCacheTtl)];
        if setOk {
          cache := cache[key := CacheEntry(data, OrdersCacheTtl)];
        }
      }
      r := Success(orders);
    }
  }

  /** Distinct products are cached under distinct keys. */
  lemma CacheKeyInjective(id1: string, id2: string)
    requires CacheKey(id1) == CacheKey(id2)
    ensures id1 == id2
  {
    assert CacheKey(id1)[|CacheKeyPrefix|..] == id1;
    assert CacheKey(id2)[|CacheKeyPrefix|..] == id2;
  }

  /** What the read path writes back it reads back: after a successful
      write of a list, a reachable cache serves exactly that list. */
  lemma CachedOrdersAfterWrite(cache: map<string, CacheEntry>, key: string, l: OrderList)
    ensures CachedOrders(cache[key := CacheEntry(EncodeList(l), OrdersCacheTtl)], key, true) == Some(l)
  {
    ListRoundTrip(l);
  }

  /** An entry that does not decode is no hit: the read path treats it
      exactly like a missing key. */
  lemma CorruptEntryIsAMiss(cache: map<string, CacheEntry>, key: string, reachable: bool)
    requires key in cache && DecodeList(cache[key].value).None?
    ensures CachedOrders(cache, key, reachable) == CachedOrders(cache - {key}, key, reachable)
  {
  }

  /** What a consumer of the broker sees: in a valid state every accepted
      event went to `amq.topic` with key `order.created`, and its body
      decodes to an order that is in the store. */
  lemma PublishedBodiesAreStoredOrders(svc: OrderService)
    requires svc.Valid()
    ensures forall e :: e in svc.published ==>
      && e.exchange == Exchange && e.routingKey == OrderCreatedKey
      && DecodeOrder(e.body).Some? && DecodeOrder(e.body).value in svc.rows
  {
    forall e | e in svc.published
      ensures DecodeOrder(e.body).Some? && DecodeOrder(e.body).value in svc.rows
    {
      var o :| o in svc.rows && e == OrderCreated(o);
      OrderBodyRoundTrip(o);
    }
  }
}
