/**
 * The product routes as the client sees them: the middleware each route
 * runs first (`authenticate`, `validateProduct`), its handler, and the
 * global error-handling middleware that turns a raised error into a status
 * code and a JSON `{ error }` body.
 */
module Routes {
  import opened JsValues
  import opened Catalog
  import opened Store
  import Listing
  import Search
  import Statistics

  /** The JSON body of a response. */
  datatype Payload =
    | ErrorBody(error: string)
    | ProductBody(product: Product)
    | ListBody(page: Listing.ListPage)
    | SearchBody(products: seq<Product>, query: string)
    | StatsBody(stats: Statistics.Stats)
    | DeletedBody(message: string, deletedProduct: Product)

  datatype Response = Response(status: nat, payload: Payload)

  const UnauthorizedMessage: string := "Unauthorized: Invalid or missing API key"

  const InvalidBodyMessage: string := "Validation Error: Missing or invalid fields"

  const DeletedMessage: string := "Product deleted successfully"

  const InternalMessage: string := "Internal Server Error"

  /** What `authenticate` answers when it stops a request. */
  const Unauthorized: Response := Response(401, ErrorBody(UnauthorizedMessage))

  /** What `validateProduct` answers when it stops a request. */
  const InvalidBody: Response := Response(400, ErrorBody(InvalidBodyMessage))

  /**
   * The global error-handling middleware: NotFound is 404 and Validation is
   * 400, both with the error's own message; anything else is 500 with a
   * generic message.
   */
  function HandleError(e: Failure): (r: Response)
    ensures r.status == 404 <==> e.NotFound?
    ensures r.status == 400 <==> e.Validation?
    ensures r.status == 500 <==> e.Internal?
    ensures r.status in {400, 404, 500}
    ensures r.payload.ErrorBody?
    ensures r.payload.error == if e.Internal? then InternalMessage else e.message
  {
    match e
    case NotFound(message) => Response(404, ErrorBody(message))
    case Validation(message) => Response(400, ErrorBody(message))
    case Internal => Response(500, ErrorBody(InternalMessage))
  }

  /** GET /api/products: always 200, with the page and its pagination data. */
  function GetProducts(ps: seq<Product>, q: Listing.ListQuery): (r: Response)
    ensures r.status == 200 && r.payload == ListBody(Listing.List(ps, q))
    ensures forall p :: p in r.payload.page.products ==> p in ps && Listing.Selected(p, q)
  {
    Response(200, ListBody(Listing.List(ps, q)))
  }

  /**
   * GET /api/products/search: 400 without a query, 500 when a record makes
   * the search throw, otherwise 200 with the matches and the query echoed.
   */
  function SearchProducts(ps: seq<Product>, q: Option<string>): (r: Response)
    ensures r.status == 400 <==> q.None? || q.value == ""
    ensures r.status == 500 <==>
      q.Some? && q.value != "" && exists p :: p in ps && !Search.Searchable(p, ToLowerCase(q.value))
    ensures r.status == 200 <==> Search.SearchProducts(ps, q).Ok?
    ensures r.status == 200 ==>
      r.payload == SearchBody(Search.SearchProducts(ps, q).value, q.value)
  {
    match Search.SearchProducts(ps, q)
    case Ok(found) => Response(200, SearchBody(found, q.value))
    case Err(e) => HandleError(e)
  }

  /** GET /api/products/stats: always 200. */
  method GetStats(ps: seq<Product>) returns (r: Response)
    ensures r.status == 200 && r.payload.StatsBody?
    ensures var s := r.payload.stats;
      && s.totalProducts == |ps|
      && s.inStock == Statistics.InStockCount(ps)
      && s.outOfStock == Statistics.OutOfStockCount(ps)
      && s.inStock + s.outOfStock == |ps|
      && s.categories == Statistics.CategoryCounts(ps)
  {
    var s := Statistics.ComputeStats(ps);
    Statistics.CategoryCountsSpec(ps);
    assert s.categories == Statistics.CategoryCounts(ps);
    r := Response(200, StatsBody(s));
  }

  /** GET /api/products/:id: 200 with the first record with that id, or 404. */
  function GetProduct(ps: seq<Product>, id: string): (r: Response)
    ensures r.status == 200 <==> FindIndex(ps, id) >= 0
    ensures r.status == 200 ==> r.payload == ProductBody(ps[FindIndex(ps, id)])
    ensures r.status != 200 ==> r == Response(404, ErrorBody(NotFoundMessage))
  {
    match FindProduct(ps, id)
    case Ok(p) => Response(200, ProductBody(p))
    case Err(e) => HandleError(e)
  }

  /**
   * POST /api/products: 401 without the right key, 400 for an invalid body,
   * otherwise 201 with the appended record. Only the 201 case changes the
   * store.
   */
  method PostProduct(store: ProductStore, apiKey: Option<string>, body: Body, newId: string)
    returns (r: Response)
    modifies store
    ensures !Authenticate(apiKey) ==> r == Unauthorized
    ensures Authenticate(apiKey) && !ValidateProduct(body) ==> r == InvalidBody
    ensures r.status == 201 <==> Authenticate(apiKey) && ValidateProduct(body)
    ensures r.status == 201 ==>
      && r.payload == ProductBody(NewProduct(newId, body))
      && store.products == old(store.products) + [NewProduct(newId, body)]
    ensures r.status != 201 ==> store.products == old(store.products)
  {
    if !Authenticate(apiKey) {
      return Unauthorized;
    }
    if !ValidateProduct(body) {
      return InvalidBody;
    }
    var created := store.Create(newId, body);
    r := Response(201, ProductBody(created));
  }

  /**
   * PUT /api/products/:id: 401 without the right key, 400 for an invalid body
   * (checked before the id is looked up), 404 for an unknown id, otherwise
   * 200 with the merged record. Only the 200 case changes the store, and
   * then only at the record's index.
   */
  method PutProduct(store: ProductStore, apiKey: Option<string>, id: string, body: Body)
    returns (r: Response)
    modifies store
    ensures !Authenticate(apiKey) ==> r == Unauthorized
    ensures Authenticate(apiKey) && !ValidateProduct(body) ==> r == InvalidBody
    ensures Authenticate(apiKey) && ValidateProduct(body) && FindIndex(old(store.products), id) == -1 ==>
      r == Response(404, ErrorBody(NotFoundMessage))
    ensures r.status == 200 <==>
      Authenticate(apiKey) && ValidateProduct(body) && FindIndex(old(store.products), id) >= 0
    ensures r.status == 200 ==>
      var i := FindIndex(old(store.products), id);
      && store.products == old(store.products)[i := Spread(old(store.products)[i], body)]
      && r.payload == ProductBody(store.products[i])
    ensures r.status != 200 ==> store.products == old(store.products)
  {
    if !Authenticate(apiKey) {
      return Unauthorized;
    }
    if !ValidateProduct(body) {
      return InvalidBody;
    }
    var result := store.Update(id, body);
    match result
    case Ok(updated) =>
      r := Response(200, ProductBody(updated));
    case Err(e) =>
      r := HandleError(e);
  }

  /**
   * DELETE /api/products/:id: 401 without the right key, 404 for an unknown
   * id, otherwise 200 with the removed record. There is no body validation.
   * Only the 200 case changes the store.
   */
  method DeleteProduct(store: ProductStore, apiKey: Option<string>, id: string)
    returns (r: Response)
    modifies store
    ensures !Authenticate(apiKey) ==> r == Unauthorized
    ensures Authenticate(apiKey) && FindIndex(old(store.products), id) == -1 ==>
      r == Response(404, ErrorBody(NotFoundMessage))
    ensures r.status == 200 <==> Authenticate(apiKey) && FindIndex(old(store.products), id) >= 0
    ensures r.status == 200 ==>
      var i := FindIndex(old(store.products), id);
      && store.products == old(store.products)[..i] + old(store.products)[i + 1..]
      && r.payload == DeletedBody(DeletedMessage, old(store.products)[i])
    ensures r.status != 200 ==> store.products == old(store.products)
  {
    if !Authenticate(apiKey) {
      return Unauthorized;
    }
    var result := store.Delete(id);
    match result
    case Ok(deleted) =>
      r := Response(200, DeletedBody(DeletedMessage, deleted));
    case Err(e) =>
      r := HandleError(e);
  }
}
