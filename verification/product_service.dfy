/** The product lookup client (`productServiceClient.GetProductByID`).

    The client is fixed at construction: a base URL and the mock-mode flag.
    What the outside world answers is given as parameters: `readFile` is what
    `os.ReadFile` returns for each file name, `get` is what an HTTP GET of
    each URL returns, and `parse` is the JSON decoder for a product
    document. */
module ProductService {
  import opened Results
  import opened Decimal
  import opened Model

  const StatusOK := 200
  const StatusNotFound := 404

  /** The file read in mock mode. */
  const MockProductFile := "product-response.json"

  const MockReadFailed := "failed to read mock product file: "
  const MockParseFailed := "failed to parse mock product JSON: "

  datatype ProductServiceClient = ProductServiceClient(baseUrl: string, mockProduct: bool)

  /** What `os.ReadFile` returns. */
  datatype FileRead = ReadFailed(err: Error) | ReadOk(data: string)

  /** What `io.ReadAll(resp.Body)` returns: the bytes it read, and the error
      that stopped it, if any. */
  datatype BodyRead = BodyRead(data: string, err: Option<Error>)

  /** What `http.Client.Get` returns: a transport error, or a response. */
  datatype HttpOutcome = TransportFailed(err: Error) | Response(statusCode: int, body: BodyRead)

  /** `fmt.Sprintf("%s/products/%s", baseURL, productID)`. */
  function ProductUrl(baseUrl: string, productId: string): (u: string)
    ensures |u| == |baseUrl| + 10 + |productId|
    ensures u[..|baseUrl|] == baseUrl
    ensures u[|baseUrl|..|baseUrl| + 10] == "/products/"
    ensures u[|baseUrl| + 10..] == productId
  {
    baseUrl + "/products/" + productId
  }

  function NotFoundError(productId: string): Error
  {
    Text("product with id " + productId + " not found")
  }

  function StatusError(statusCode: int, body: string): Error
  {
    Text("failed to get product: status " + IntToDecimal(statusCode) + ", body: " + body)
  }

  /** The text the client accepts as a product document, if it gets one:
      the fixture in mock mode, the completely read body of a 200 response in
      live mode. */
  function ProductDocument(c: ProductServiceClient, productId: string, readFile: string -> FileRead,
                           get: string -> HttpOutcome): Option<string>
  {
    if c.mockProduct then
      var file := readFile(MockProductFile);
      if file.ReadOk? then Some(file.data) else None
    else
      var resp := get(ProductUrl(c.baseUrl, productId));
      if resp.Response? && resp.statusCode == StatusOK && resp.body.err.None?
      then Some(resp.body.data) else None
  }

  /** A product is returned exactly when a product document was obtained and
      decodes, and it is what the document decodes to. */
  function GetProductByID(c: ProductServiceClient, productId: string, readFile: string -> FileRead,
                          get: string -> HttpOutcome, parse: string -> Result<Product>)
    : (r: Result<Product>)
    ensures var doc := ProductDocument(c, productId, readFile, get);
      r.Success? <==> doc.Some? && parse(doc.value).Success?
    ensures var doc := ProductDocument(c, productId, readFile, get);
      r.Success? ==> r == parse(doc.value)
  {
    if c.mockProduct then
      match readFile(MockProductFile)
      case ReadFailed(e) => Failure(Wrap(MockReadFailed, e))
      case ReadOk(data) =>
        match parse(data)
        case Failure(e) => Failure(Wrap(MockParseFailed, e))
        case Success(p) => Success(p)
    else
      match get(ProductUrl(c.baseUrl, productId))
      case TransportFailed(e) => Failure(e)
      case Response(status, body) =>
        if status == StatusNotFound then Failure(NotFoundError(productId))
        else if status != StatusOK then Failure(StatusError(status, body.data))
        else if body.err.Some? then Failure(body.err.value)
        else parse(body.data)
  }

  // ---------------------------------------------------------------------
  // Mock mode

  /** In mock mode the answer depends only on the content of the fixture
      file: neither on the product asked for, nor on the network, nor on any
      other file. */
  lemma MockModeIgnoresRequest(c: ProductServiceClient, id1: string, id2: string,
                               readFile1: string -> FileRead, readFile2: string -> FileRead,
                               get1: string -> HttpOutcome, get2: string -> HttpOutcome,
                               parse: string -> Result<Product>)
    requires c.mockProduct
    requires readFile1(MockProductFile) == readFile2(MockProductFile)
    ensures GetProductByID(c, id1, readFile1, get1, parse) == GetProductByID(c, id2, readFile2, get2, parse)
  {
  }

  /** A failed read of the fixture is a hard error wrapping the cause. */
  lemma MockReadFailure(c: ProductServiceClient, productId: string, cause: Error,
                        readFile: string -> FileRead, get: string -> HttpOutcome,
                        parse: string -> Result<Product>)
    requires c.mockProduct && readFile(MockProductFile) == ReadFailed(cause)
    ensures var r := GetProductByID(c, productId, readFile, get, parse);
      r.Failure? && r.error.Unwrap() == Some(cause)
      && r.error.Message() == MockReadFailed + cause.Message()
  {
  }

  /** A fixture that does not decode is a hard error wrapping the cause. */
  lemma MockParseFailure(c: ProductServiceClient, productId: string, data: string,
                         readFile: string -> FileRead, get: string -> HttpOutcome,
                         parse: string -> Result<Product>)
    requires c.mockProduct && readFile(MockProductFile) == ReadOk(data) && parse(data).Failure?
    ensures var r := GetProductByID(c, productId, readFile, get, parse);
      r.Failure? && r.error.Unwrap() == Some(parse(data).error)
      && r.error.Message() == MockParseFailed + parse(data).error.Message()
  {
  }

  /** The two mock-mode failures can always be told apart by their text,
      whatever their causes say. */
  lemma MockFailuresDistinct(readCause: Error, parseCause: Error)
    ensures Wrap(MockReadFailed, readCause).Message() != Wrap(MockParseFailed, parseCause).Message()
  {
    var m1 := Wrap(MockReadFailed, readCause).Message();
    var m2 := Wrap(MockParseFailed, parseCause).Message();
    assert m1[10] == MockReadFailed[10] == 'r';
    assert m2[10] == MockParseFailed[10] == 'p';
  }

  // ---------------------------------------------------------------------
  // Live mode

  /** Distinct products are fetched from distinct URLs. */
  lemma ProductUrlInjective(baseUrl: string, id1: string, id2: string)
    requires ProductUrl(baseUrl, id1) == ProductUrl(baseUrl, id2)
    ensures id1 == id2
  {
    var n := |baseUrl + "/products/"|;
    assert ProductUrl(baseUrl, id1)[n..] == id1;
    assert ProductUrl(baseUrl, id2)[n..] == id2;
  }

  /** In live mode the only request made is a GET of
      `<baseURL>/products/<productID>`: networks that agree on that URL give
      the same answer, and the file system plays no part. */
  lemma LiveModeAsksOnlyProductUrl(c: ProductServiceClient, productId: string,
                                   readFile1: string -> FileRead, readFile2: string -> FileRead,
                                   get1: string -> HttpOutcome, get2: string -> HttpOutcome,
                                   parse: string -> Result<Product>)
    requires !c.mockProduct
    requires get1(ProductUrl(c.baseUrl, productId)) == get2(ProductUrl(c.baseUrl, productId))
    ensures GetProductByID(c, productId, readFile1, get1, parse)
         == GetProductByID(c, productId, readFile2, get2, parse)
  {
  }

  /** A transport error is returned as it is. */
  lemma TransportErrorPassesThrough(c: ProductServiceClient, productId: string, readFile: string -> FileRead,
                                    get: string -> HttpOutcome, parse: string -> Result<Product>)
    requires !c.mockProduct && get(ProductUrl(c.baseUrl, productId)).TransportFailed?
    ensures GetProductByID(c, productId, readFile, get, parse)
         == Failure(get(ProductUrl(c.baseUrl, productId)).err)
  {
  }

  /** Status 404 is "not found" for that identifier, whatever the body holds
      and even if it would decode. */
  lemma NotFoundNamesTheProduct(c: ProductServiceClient, productId: string, readFile: string -> FileRead,
                                get: string -> HttpOutcome, parse: string -> Result<Product>)
    requires !c.mockProduct
    requires get(ProductUrl(c.baseUrl, productId)).Response?
    requires get(ProductUrl(c.baseUrl, productId)).statusCode == StatusNotFound
    ensures var r := GetProductByID(c, productId, readFile, get, parse);
      r.Failure? && r.error.Unwrap() == None
      && r.error.Message() == "product with id " + productId + " not found"
  {
  }

  /** Any status other than 200 and 404 — 201 and the other 2xx codes
      included — is an error carrying the code and whatever body was read,
      even when reading the body failed. */
  lemma UnexpectedStatusIsError(c: ProductServiceClient, productId: string, readFile: string -> FileRead,
                                get: string -> HttpOutcome, parse: string -> Result<Product>)
    requires !c.mockProduct
    requires get(ProductUrl(c.baseUrl, productId)).Response?
    requires get(ProductUrl(c.baseUrl, productId)).statusCode !in {StatusOK, StatusNotFound}
    ensures var resp := get(ProductUrl(c.baseUrl, productId));
      var r := GetProductByID(c, productId, readFile, get, parse);
      r.Failure? && r.error.Unwrap() == None
      && r.error.Message()
         == "failed to get product: status " + IntToDecimal(resp.statusCode) + ", body: " + resp.body.data
  {
  }

  /** For status 200 a failed body read is returned as it is, and otherwise
      the decoder's verdict on the body is the answer. */
  lemma OkStatusDecodesBody(c: ProductServiceClient, productId: string, readFile: string -> FileRead,
                            get: string -> HttpOutcome, parse: string -> Result<Product>)
    requires !c.mockProduct
    requires get(ProductUrl(c.baseUrl, productId)).Response?
    requires get(ProductUrl(c.baseUrl, productId)).statusCode == StatusOK
    ensures var body := get(ProductUrl(c.baseUrl, productId)).body;
      GetProductByID(c, productId, readFile, get, parse)
      == if body.err.Some? then Failure(body.err.value) else parse(body.data)
  {
  }
}
