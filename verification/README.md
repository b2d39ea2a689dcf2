# Order service core, modelled in Dafny

This project models the business core of `ms-order-service`, a small Go
microservice that takes orders for products and lists the orders of a
product. It covers two pieces:

* the **order orchestrator** `orderService`;
  * `CreateOrder` looks the product up, prices the order, stores it and
    announces it on the message broker;
  * `GetOrdersByProductID` is a read-through cache in front of the order
    store;
* the **product lookup** `productServiceClient.GetProductByID`. It either
  reads a fixture file (mock mode) or asks the product service over HTTP,
  and then sorts the outcome into a product or an error.

Files:

* `results.dfy` holds `Option`, `Result` and `Error`.
  * An `Error` is either a plain text (`errors.New`, `fmt.Errorf` without
    `%w`) or a prefix wrapping a cause (`fmt.Errorf` with `%w`).
  * `Message()` is the Go `Error()` text, and `Unwrap()` gives the wrapped
    cause.
* `decimal.dfy` holds the `%d` rendering of integers and its parser.
* `model.dfy` holds the records `Order`, `Product` and `CreateOrderRequest`.
  * A `[]model.Order` is an `OrderList`, which keeps Go's distinction
    between a nil slice and an empty one.
* `codec.dfy` is a concrete JSON text format for orders and order lists.
  * It has round-trip proofs, and it refuses text that is not a list.
  * It stands in for `encoding/json` where the orchestrator writes JSON to
    the cache or the broker, and reads it back.
* `product_service.dfy` is the product lookup, written as a pure function.
  * The file read, the HTTP answer and the product decoder are its
    parameters.
* `order_service.dfy` is the orchestrator, written as the class
  `OrderService`. Its fields stand in for the dependencies:
  * `rows`: the order store;
  * `cache`: the Redis entries, each with its TTL;
  * `published`: the events the broker accepted;
  * `calls`: every dependency call, in order.

  Whether each dependency call succeeds is an argument of the method,
  just as the unit tests' mocks decide it.
* `scenarios.dfy` plays the unit tests and a few designed behaviours
  against a fresh `OrderService`.

The invariant `OrderService.Valid()` says that every event the broker
accepted announces an order that is in the store. Both methods preserve it.

Known behaviour of the code, stated as proved properties:

* The create path never invalidates the cache. An order created after a list
  was cached is missing from reads until the entry expires
  (`ReadAfterCreateIsStale`).
* Any status other than 200 or 404 is an error, including 201 and every
  other 2xx (`UnexpectedStatusIsError`).

## Model

| member | source | states |
|---|---|---|
| Decimal.NatToDecimal | internal/service/product_service.go:62 | `%d` of a natural number is a non-empty run of digits, one digit exactly when the number is below 10, and it starts with `0` only for zero, which is written `0` |
| Decimal.ParseIntOfDecimal | internal/service/order_service.go:80 | the decimal text of any integer, followed by anything that is not a digit, reads back as that integer and leaves that rest |
| Decimal.DecimalInjective | internal/service/product_service.go:62 | distinct status codes are rendered as distinct texts |
| Decimal.ParseIntCanonical | internal/service/order_service.go:80 | whatever the number reader accepts is the `%d` text of its value followed by a non-digit, so `07` is refused, as JSON refuses it; `-0`, fractions and exponents, which JSON allows, are refused here too (see Left out) |
| Codec.StringRoundTrip | internal/service/order_service.go:61 | a string written as a JSON literal, with `"` and `\` escaped, reads back as itself, and reading stops right after its closing quote |
| Codec.OrderRoundTrip | internal/service/order_service.go:61 | an order's JSON object reads back as the same order, followed by whatever came after it |
| Codec.OrderCanonical | internal/service/order_service.go:61 | whatever is read as an order is exactly that order's written text (`EncodeOrder`), followed by the unread rest: the order's text has one reading and only it is read |
| Codec.OrderBodyRoundTrip | internal/service/order_service.go:61-62 | the body of an `order.created` event decodes to exactly the order that was published |
| Codec.ItemsRoundTrip | internal/service/order_service.go:91 | the items of a non-empty order list read back as the same orders, in the same order |
| Codec.ItemsCanonical | internal/service/order_service.go:91 | whatever is read as the items of a list is a non-empty sequence of orders whose written items (`EncodeItems`) are exactly the text read |
| Codec.ListRoundTrip | internal/service/order_service.go:80-92 | a nil list, an empty list and a non-empty list each decode back to themselves after being written |
| Codec.DecodeList | internal/service/order_service.go:80 | a list that is read from a text is one whose written form (`EncodeList`, order_service.go:91) is that text; with `ListRoundTrip` the written form of a list decodes back to it |
| Codec.EncodeListInjective | internal/service/order_service.go:91 | distinct order lists are written as distinct cache values |
| Codec.OnlyWrittenListsDecode | internal/service/order_service.go:80 | a text decodes as an order list exactly when it is the written form of some list; every other text is refused |
| Codec.TrailingTextRefused | internal/service/order_service.go:80 | a written list followed by any further text is not an order list |
| ProductService.GetProductByID | internal/service/product_service.go:31-76 | a product is returned exactly when a document was obtained (the fixture in mock mode, a fully read 200 body in live mode) and it decodes; the product is what the document decodes to |
| ProductService.MockModeIgnoresRequest | internal/service/product_service.go:32-46 | in mock mode the answer depends only on what reading `product-response.json` gives: neither on the product ID, nor on the network, nor on any other file |
| ProductService.MockReadFailure | internal/service/product_service.go:35-38 | a failed fixture read is an error whose text is "failed to read mock product file: " followed by the cause, and which wraps the cause |
| ProductService.MockParseFailure | internal/service/product_service.go:40-43 | a fixture that does not decode is an error whose text is "failed to parse mock product JSON: " followed by the decoder's error, and which wraps it |
| ProductService.MockFailuresDistinct | internal/service/product_service.go:35-43 | the two mock-mode errors always have different texts, whatever their causes |
| ProductService.ProductUrl | internal/service/product_service.go:48 | the URL is the base URL, then `/products/`, then the product ID, each at its fixed place; `ProductUrlInjective` follows from it |
| ProductService.ProductUrlInjective | internal/service/product_service.go:48 | distinct product IDs are fetched from distinct URLs |
| ProductService.LiveModeAsksOnlyProductUrl | internal/service/product_service.go:48-53 | in live mode only `<baseURL>/products/<productID>` is requested: two networks that answer that URL alike give the same result, whatever the file system holds |
| ProductService.TransportErrorPassesThrough | internal/service/product_service.go:50-53 | a transport error is returned unchanged |
| ProductService.NotFoundNamesTheProduct | internal/service/product_service.go:56-58 | status 404 is a failure, a plain error wrapping nothing, with the text "product with id <productID> not found", whatever the body holds |
| ProductService.UnexpectedStatusIsError | internal/service/product_service.go:60-63 | any status other than 200 and 404 is a failure, a plain error wrapping nothing, with the text "failed to get product: status <code>, body: <body>" |
| ProductService.OkStatusDecodesBody | internal/service/product_service.go:65-75 | for status 200, a failed body read is returned as it is; otherwise the decoder's verdict on the body is the answer |
| OrderService.OrderService.constructor | internal/service/order_service.go:31-38 | a new service over a given store and cache has published nothing, made no call and satisfies the invariant |
| OrderService.OrderService.CreateOrder | internal/service/order_service.go:40-70 | a failed lookup gives "failed to fetch product: " + cause with no write or publish; otherwise the order handed to the store is (new ID, request product, price × quantity, pending); a failed write gives the store's error with no publish; a successful write returns and stores the record as the store left it, and publishes it exactly once to `amq.topic`/`order.created` whether or not the broker accepts; the cache is never touched (cases listed below) |
| OrderService.OrderService.GetOrdersByProductID | internal/service/order_service.go:72-96 | a hit that decodes is returned with no store query and no cache write; otherwise exactly one store query, whose error or list is returned unchanged; a non-nil list is written back once under the same key with a 10-minute TTL, and a failed write is ignored; store and published events are unchanged (cases listed below) |
| OrderService.CacheKey | internal/service/order_service.go:74 | the key is `orders:product:` followed by the product ID, and nothing else; `CacheKeyInjective` follows from it |
| OrderService.TotalPrice | internal/service/order_service.go:46 | no unit costs nothing, one unit costs the price, and at a non-negative price more units never cost less than one |
| OrderService.CacheKeyInjective | internal/service/order_service.go:74 | distinct products are cached under distinct keys |
| OrderService.PublishedBodiesAreStoredOrders | internal/service/order_service.go:55-66 | in a valid state every accepted event went to `amq.topic` with key `order.created`, and its body decodes to an order that is in the store |
| OrderService.CachedOrdersAfterWrite | internal/service/order_service.go:90-92 | after a successful write-back, a reachable cache serves exactly the list that was written |
| OrderService.CorruptEntryIsAMiss | internal/service/order_service.go:76-84 | an entry that does not decode is treated exactly as a missing key |
| OrderScenarios.CreateOrderSucceeds | internal/service/order_service_test.go:86-126 | the success test: price 1000 and quantity 2 give an order priced 2000, pending, with the ID the store set; it is published to `amq.topic` with key `order.created`, whether or not the broker accepts it |
| OrderScenarios.CreateOrderForUnknownProduct | internal/service/order_service_test.go:128-154 | the not-found test: a live lookup answered with 404 makes CreateOrder fail with "failed to fetch product: product with id <id> not found"; only the product client is called, and nothing is stored or published |
| OrderScenarios.CreateOrderWhenStoreFails | internal/service/order_service.go:55-58 | a store that rejects the write gives exactly its error; nothing is stored, published or sent to the broker |
| OrderScenarios.SecondReadServedFromCache | internal/service/order_service.go:72-96 | a miss queries the store and caches its answer for 10 minutes; the next read is served from the cache without a store query and gives the same list |
| OrderScenarios.CorruptEntryFallsBackToStore | internal/service/order_service.go:76-92 | an undecodable entry is passed over; the store answers, and its answer replaces the entry |
| OrderScenarios.ReadAfterCreateIsStale | internal/service/order_service.go:40-96 | creating an order does not invalidate the cache, so a later read still gives the list cached before, without the new order |

`OrderService.OrderService.CreateOrder` states each case outright. In every
case it keeps the invariant and leaves the cache unchanged.

* **Lookup fails.** The result is the error "failed to fetch product: "
  followed by the cause. The call log gains only the product lookup.
  Nothing is stored or published.
* **Lookup succeeds.** The order handed to the store has:
  * the generated ID;
  * the request's product ID;
  * total price = price × quantity;
  * status `pending`;
  * the zero creation time.

  Then one of two things happens:
  * **Write fails.** The store's error is the result. The call log gains
    only the lookup and the write. Nothing is stored or published.
  * **Write succeeds.** The result is the record as the store left it,
    and that record is also appended to the rows. The call log gains, in
    order, the lookup, the write and one publish of
    (`amq.topic`, `order.created`, the record's JSON). The event joins
    `published` only if the broker accepted it. Either way the order is
    returned.

`OrderService.OrderService.GetOrdersByProductID` also states each case. In
every case it keeps the invariant and leaves the store and the published
events unchanged.

* **Hit.** Redis is reachable, holds the key `orders:product:<id>`, and
  the value decodes. The decoded list is returned. Only the cache read is
  logged, and the cache is not written.
* **Miss, and the store returns a non-nil list.** The list is returned.
  The call log gains the read, one query and one `Set`, with the encoded
  list and a TTL of 10 minutes. The entry changes only if the `Set`
  succeeded.
* **Miss, and the store returns an error or a nil list.** That answer is
  returned. The call log gains the read and one query. The cache is not
  written.

## Left out

- The gin handler, request binding and validation, process start-up and
  configuration loading are transport and environment code. They are not
  part of this model.
- OrderService.OrderService.CreateOrder: does not require `quantity >= 1`.
  * The handler's binding enforces that bound, not the service.
  * The service computes the price for any quantity.
  * The not-found unit test calls it with quantity 0.
- The RabbitMQ publisher and consumers are modelled only as a log plus a
  success flag. The consumers' goroutines and channels are concurrency.
- The Redis client is modelled as a map of entries with TTLs.
  * Expiry needs a clock, and no operation removes a key between calls.
    A key that has expired can only be expressed as `cacheReachable =
    false` on that call. That is the same branch Go takes on `redis.Nil`
    and on an unreachable Redis.
  * `Del` is never called by the core.
- The gorm repository's filtering and its `created_at desc` ordering are
  done by the database. What the store returns for a query is an input.
  A write either fails or stores the record, after applying the change the
  store makes to it (gorm stamps the creation time; the test's mock sets
  the ID).
- Float arithmetic: prices are integers in the currency's smallest unit,
  and float64 rounding is not modelled.
- Timestamps are integers, with 0 standing for Go's zero `time.Time`.
  JSON writes a time as text, which is not modelled.
- UUID generation is an input (`newId`). Logging, `fmt.Println` and
  `log.Printf` are left out.
- The JSON text format in `codec.dfy` is a concrete stand-in for
  `encoding/json`.
  * It writes one canonical form: no whitespace, fields in declaration
    order, only `"` and `\` escaped, and the creation time as a number.
  * It accepts only that form (`OnlyWrittenListsDecode`). A number with a
    leading zero, such as `07`, is refused, as `encoding/json` refuses it.
  * JSON that `encoding/json` would accept in other layouts is refused
    here, so the model counts such a cache entry as a miss. This covers
    white space, another field order, other escapes, unknown fields,
    fractions and exponents in numbers, and `-0` for zero.
  * Conversely, the writer emits control characters inside a string raw,
    where Go writes `\n` or `\u00XX`, and the reader accepts them raw,
    where `encoding/json` refuses them. In this model a "corrupt" cache
    entry means "not written by this writer", not "not JSON".
- ProductService.GetProductByID: `json.Unmarshal` of a product is a
  parameter (`parse`), so the model proves nothing about how a product
  document is decoded.
- OrderScenarios.CreateOrderSucceeds: the test's IDs `prod-123` and
  `order-456` are parameters, and the scenario is proved for every product
  ID and every ID the store sets.
- OrderScenarios.CreateOrderForUnknownProduct: the unit test's mock returns
  "product not found" from the client. The scenario instead drives the
  real lookup to its 404 branch, which gives a more specific text with the
  same "failed to fetch product: " prefix.
- The HTTP client's `defer resp.Body.Close()` is resource management and is
  left out.
