/** The orchestrator's unit tests and the behaviours its design promises,
    played against `OrderService` from a fresh store and cache.  Each method
    drives the orchestrator the way a test does and states, in its
    postconditions, what the test asserts. */
module OrderScenarios {
  import opened Results
  import opened Model
  import opened Codec
  import opened OrderService
  import ProductService

  /** `TestOrderService_CreateOrder_Success`: a product (prod-123 in the
      test) at 1000, quantity 2, a store that sets the id (order-456 in the
      test).  The order comes back priced 2000 and pending, with the store's
      id — and it does so whether or not the broker accepts the event. */
  method CreateOrderSucceeds(productId: string, generatedId: string, storeId: string, publishOk: bool)
    returns (r: Result<Order>, events: seq<Event>, trace: seq<Call>)
    ensures r == Success(Order(storeId, productId, 2000, Pending, 0))
    ensures events == if publishOk then [OrderCreated(r.value)] else []
    ensures |trace| == 3 && trace[0] == GetProduct(productId) && trace[1].CreateRow?
    ensures trace[2] == Publish(Event("amq.topic", "order.created", EncodeOrder(r.value)))
  {
    var svc := new OrderService([], map[]);
    var req := CreateOrderRequest(productId, 2);
    var product := Product(productId, "", 1000, 0, "");
    r := svc.CreateOrder(req, Success(product), generatedId, Written((o: Order) => o.(id := storeId)), publishOk);
    events := svc.published;
    trace := svc.calls;
  }

  /** `TestOrderService_CreateOrder_ProductNotFound`, with the product
      service answering 404 and, as in the test, no quantity given (0): the
      error names the product, and neither the store nor the broker is
      called. */
  method CreateOrderForUnknownProduct(c: ProductService.ProductServiceClient, productId: string,
                                      readFile: string -> ProductService.FileRead,
                                      get: string -> ProductService.HttpOutcome,
                                      parse: string -> Result<Product>)
    returns (r: Result<Order>, trace: seq<Call>, rowsAfter: seq<Order>, events: seq<Event>)
    requires !c.mockProduct
    requires get(ProductService.ProductUrl(c.baseUrl, productId)).Response?
    requires get(ProductService.ProductUrl(c.baseUrl, productId)).statusCode == ProductService.StatusNotFound
    ensures r.Failure?
    ensures r.error.Message() == "failed to fetch product: product with id " + productId + " not found"
    ensures trace == [GetProduct(productId)]
    ensures rowsAfter == [] && events == []
  {
    var lookup := ProductService.GetProductByID(c, productId, readFile, get, parse);
    ProductService.NotFoundNamesTheProduct(c, productId, readFile, get, parse);
    var svc := new OrderService([], map[]);
    r := svc.CreateOrder(CreateOrderRequest(productId, 0), lookup, "generated-id", Written(o => o), true);
    FetchFailedText(lookup.error.Message(), productId);
    trace := svc.calls;
    rowsAfter := svc.rows;
    events := svc.published;
  }

  /** A store that rejects the write: its error is the answer, nothing is
      stored and nothing is announced, though the lookup succeeded. */
  method CreateOrderWhenStoreFails(req: CreateOrderRequest, product: Product, newId: string,
                                   err: Error, publishOk: bool)
    returns (r: Result<Order>, trace: seq<Call>, rowsAfter: seq<Order>, events: seq<Event>)
    ensures r == Failure(err)
    ensures |trace| == 2 && trace[0] == GetProduct(req.productId) && trace[1].CreateRow?
    ensures rowsAfter == [] && events == []
  {
    var svc := new OrderService([], map[]);
    r := svc.CreateOrder(req, Success(product), newId, WriteFailed(err), publishOk);
    trace := svc.calls;
    rowsAfter := svc.rows;
    events := svc.published;
  }

  /** A miss reads the store and caches its answer for ten minutes; the next
      read is served from the cache, without a store query, and gives the
      same list (the second store answer is never looked at). */
  method SecondReadServedFromCache(productId: string, stored: seq<Order>)
    returns (first: Result<OrderList>, second: Result<OrderList>, trace: seq<Call>)
    ensures first == Success(List(stored)) && second == first
    ensures var key := "orders:product:" + productId;
      trace == [CacheGet(key), QueryRows(productId),
                CacheSet(key, EncodeList(List(stored)), 600_000_000_000), CacheGet(key)]
  {
    var svc := new OrderService([], map[]);
    var key := CacheKey(productId);
    var data := EncodeList(List(stored));
    first := svc.GetOrdersByProductID(productId, true, Success(List(stored)), true);
    assert svc.cache == map[][key := CacheEntry(data, OrdersCacheTtl)];
    CachedOrdersAfterWrite(map[], key, List(stored));
    second := svc.GetOrdersByProductID(productId, true, Failure(Text("store is down")), true);
    trace := svc.calls;
  }

  /** A cached value that is not an order list is passed over: the store
      answers, and its answer replaces the entry. */
  method CorruptEntryFallsBackToStore(productId: string, stored: seq<Order>)
    returns (r: Result<OrderList>, cacheAfter: map<string, CacheEntry>)
    ensures r == Success(List(stored))
    ensures var key := CacheKey(productId);
      key in cacheAfter && DecodeList(cacheAfter[key].value) == Some(List(stored))
  {
    var key := CacheKey(productId);
    var svc := new OrderService([], map[key := CacheEntry("{not a list", OrdersCacheTtl)]);
    assert DecodeList("{not a list") == None;
    r := svc.GetOrdersByProductID(productId, true, Success(List(stored)), true);
    cacheAfter := svc.cache;
    ListRoundTrip(List(stored));
  }

  /** The cache is not invalidated when an order is created: a read after
      the creation still sees the list cached before it, without the new
      order, although the store holds it. */
  method ReadAfterCreateIsStale(productId: string, cached: seq<Order>, product: Product, newId: string)
    returns (before: Result<OrderList>, after: Result<OrderList>, created: Order, rowsAfter: seq<Order>)
    requires forall o :: o in cached ==> o.id != newId
    ensures before == Success(List(cached)) && after == before
    ensures rowsAfter == [created] && created.productId == productId
    ensures created !in after.value.items
  {
    var svc := new OrderService([], map[]);
    before := svc.GetOrdersByProductID(productId, true, Success(List(cached)), true);
    var made := svc.CreateOrder(CreateOrderRequest(productId, 1), Success(product), newId, Written(o => o), true);
    created := made.value;
    CachedOrdersAfterWrite(map[], CacheKey(productId), List(cached));
    after := svc.GetOrdersByProductID(productId, true, Success(List(svc.rows)), true);
    rowsAfter := svc.rows;
  }

  /** The text of a failed lookup, written out. */
  lemma FetchFailedText(cause: string, productId: string)
    requires cause == "product with id " + productId + " not found"
    ensures FetchFailed + cause == "failed to fetch product: product with id " + productId + " not found"
  {
  }
}
