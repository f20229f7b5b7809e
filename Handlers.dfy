/** The decision logic of the two request handlers (src/simplestore.go:70-116).
    The parsed path id and the bound request body are inputs: `None` is a
    parse or bind failure. Rendering the response is reduced to a status and
    a body value. */
module Handlers {
  import opened Wrappers
  import opened Store

  /** The four HTTP statuses the handlers produce. */
  datatype Status = Ok | NoContent | BadRequest | NotFound

  /** The numeric HTTP code of a status. */
  function Code(s: Status): int
  {
    match s
    case Ok => 200
    case NoContent => 204
    case BadRequest => 400
    case NotFound => 404
  }

  /** The response body: the record as JSON, an `{"error": msg}` object, or
      nothing. */
  datatype Body = ProductJson(product: Product) | ErrorMessage(msg: string) | Empty

  datatype Response = Response(status: Status, body: Body)

  /** What a handler does to the store. */
  datatype Effect = NoChange | Upsert(key: int, value: Product)

  datatype Outcome = Outcome(response: Response, effect: Effect)

  /** The store after an effect: an upsert is the store-level `Update`. */
  function Apply(products: map<int, Product>, e: Effect): map<int, Product>
  {
    match e
    case NoChange => products
    case Upsert(k, v) => products[k := v]
  }

  /** Read handler: a malformed id and an absent record are both 404, a
      present record is 200 with that record. It never changes the store. */
  function GetDecision(id: Option<int>, products: map<int, Product>): (r: Response)
    ensures r.status == NotFound <==> id.None? || id.value !in products
    ensures r.status == Ok <==> id.Some? && id.value in products
    ensures r.status == Ok ==> r.body == ProductJson(products[id.value])
    ensures r.status != Ok ==> r.body.ErrorMessage?
    ensures id.None? ==> r.body == ErrorMessage("Invalid product ID")
    ensures id.Some? && id.value !in products ==> r.body == ErrorMessage("Product not found")
  {
    if id.None? then
      Response(NotFound, ErrorMessage("Invalid product ID"))
    else if id.value !in products then
      Response(NotFound, ErrorMessage("Product not found"))
    else
      Response(Ok, ProductJson(products[id.value]))
  }

  /** Update handler: a malformed id is 400, then a malformed body is 400
      (checked before existence), then an absent record is 404; otherwise
      the body is upserted under the PATH id and the answer is 204. */
  function UpdateDecision(id: Option<int>, body: Option<Product>, products: map<int, Product>): (r: Outcome)
    ensures r.response.status == BadRequest <==> id.None? || body.None?
    ensures r.response.status == NotFound <==> id.Some? && body.Some? && id.value !in products
    ensures r.response.status == NoContent <==> id.Some? && body.Some? && id.value in products
    ensures r.effect != NoChange <==> r.response.status == NoContent
    ensures r.effect != NoChange ==> r.effect == Upsert(id.value, body.value)
    ensures r.response.status == NoContent ==> r.response.body == Empty
    ensures r.response.status != NoContent ==> r.response.body.ErrorMessage?
    ensures id.None? ==> r.response.body == ErrorMessage("Invalid product ID")
    ensures id.Some? && body.None? ==> r.response.body == ErrorMessage("Invalid product details")
    ensures r.response.status == NotFound ==> r.response.body == ErrorMessage("Product not found")
  {
    if id.None? then
      Outcome(Response(BadRequest, ErrorMessage("Invalid product ID")), NoChange)
    else if body.None? then
      Outcome(Response(BadRequest, ErrorMessage("Invalid product details")), NoChange)
    else if id.value !in products then
      Outcome(Response(NotFound, ErrorMessage("Product not found")), NoChange)
    else
      Outcome(Response(NoContent, Empty), Upsert(id.value, body.value))
  }

  /** One request as the router hands it over, after id parsing and body
      binding. */
  datatype Request =
    | GetProduct(id: Option<int>)
    | UpdateDetails(id: Option<int>, body: Option<Product>)

  /** Serving one request: the response and the store afterwards. No request
      adds or removes a key, and only a 204 update changes the store. */
  function Serve(products: map<int, Product>, req: Request): (r: (Response, map<int, Product>))
    ensures r.1.Keys == products.Keys
    ensures r.1 != products ==> req.UpdateDetails? && r.0.status == NoContent
    ensures r.0.status == NoContent ==>
      req.UpdateDetails? && req.id.Some? && req.body.Some? && r.1 == products[req.id.value := req.body.value]
  {
    match req
    case GetProduct(id) => (GetDecision(id, products), products)
    case UpdateDetails(id, body) =>
      var o := UpdateDecision(id, body, products);
      (o.response, Apply(products, o.effect))
  }

  /** The store after serving a sequence of requests one at a time. */
  function Run(products: map<int, Product>, reqs: seq<Request>): map<int, Product>
    decreases |reqs|
  {
    if reqs == [] then products else Run(Serve(products, reqs[0]).1, reqs[1..])
  }

  /** Whether some request in `reqs` is an update whose path id is `k`. */
  predicate TargetsKey(reqs: seq<Request>, k: int)
  {
    exists i :: 0 <= i < |reqs| && reqs[i].UpdateDetails? && reqs[i].id == Some(k)
  }

  /** The public interface never creates nor deletes a product: any sequence
      of requests leaves the set of ids as it was. */
  lemma {:induction false} RunKeepsIds(products: map<int, Product>, reqs: seq<Request>)
    ensures Run(products, reqs).Keys == products.Keys
    decreases |reqs|
  {
    if reqs != [] {
      RunKeepsIds(Serve(products, reqs[0]).1, reqs[1..]);
    }
  }

  /** A record that no request updates by its id keeps its value. */
  lemma {:induction false} RunKeepsUntargeted(products: map<int, Product>, reqs: seq<Request>, k: int)
    requires k in products
    requires !TargetsKey(reqs, k)
    ensures k in Run(products, reqs) && Run(products, reqs)[k] == products[k]
    decreases |reqs|
  {
    if reqs != [] {
      var next := Serve(products, reqs[0]).1;
      assert !TargetsKey(reqs[1..], k) by {
        forall i | 0 <= i < |reqs| - 1 && reqs[1..][i].UpdateDetails?
          ensures reqs[1..][i].id != Some(k)
        {
          assert reqs[1..][i] == reqs[i + 1];
        }
      }
      assert next[k] == products[k] by {
        assert !(reqs[0].UpdateDetails? && reqs[0].id == Some(k));
      }
      RunKeepsUntargeted(next, reqs[1..], k);
    }
  }

  /** After start-up seeding of an empty store, the ids are exactly 1, 200
      and 3000 whatever requests follow; any other id stays unknown, so both
      handlers answer 404 for it once id and body parse. */
  lemma SeededIdsAreFinal(reqs: seq<Request>, k: int, body: Product)
    ensures Run(map[] + SeedCatalogue, reqs).Keys == SeedIds
    ensures k !in SeedIds ==>
      GetDecision(Some(k), Run(map[] + SeedCatalogue, reqs)).status == NotFound &&
      UpdateDecision(Some(k), Some(body), Run(map[] + SeedCatalogue, reqs)).response.status == NotFound
  {
    RunKeepsIds(map[] + SeedCatalogue, reqs);
  }

  /** The deliberate asymmetry: a malformed id is 404 on read, 400 on
      update, whatever the store and the body. */
  lemma MalformedIdAsymmetry(products: map<int, Product>, body: Option<Product>)
    ensures Code(GetDecision(None, products).status) == 404
    ensures Code(UpdateDecision(None, body, products).response.status) == 400
    ensures GetDecision(None, products) == Response(NotFound, ErrorMessage("Invalid product ID"))
    ensures UpdateDecision(None, body, products) == Outcome(Response(BadRequest, ErrorMessage("Invalid product ID")), NoChange)
  {
  }

  /** A malformed body is 400 even for an absent id: the body is checked
      before existence. */
  lemma MalformedBodyBeforeExistence(products: map<int, Product>, k: int)
    requires k !in products
    ensures UpdateDecision(Some(k), None, products) == Outcome(Response(BadRequest, ErrorMessage("Invalid product details")), NoChange)
  {
  }

  /** After a 204 update, a read of the same path id answers 200 with the
      body just sent, stored under the path id even when its own productId
      differs. */
  lemma ReadAfterUpdate(products: map<int, Product>, k: int, p: Product)
    requires UpdateDecision(Some(k), Some(p), products).response.status == NoContent
    ensures GetDecision(Some(k), Serve(products, UpdateDetails(Some(k), Some(p))).1) == Response(Ok, ProductJson(p))
  {
  }

  /** The read handler as the source runs it: parse failure first, then one
      `Get` on the store. */
  method GetProductById(store: ProductStore, id: Option<int>) returns (r: Response)
    ensures r == GetDecision(id, store.products)
  {
    if id.None? {
      return Response(NotFound, ErrorMessage("Invalid product ID"));
    }
    var product, found := store.Get(id.value);
    if !found {
      r := Response(NotFound, ErrorMessage("Product not found"));
    } else {
      r := Response(Ok, ProductJson(product));
    }
  }

  /** The update handler as the source runs it: id, then body, then one
      `Exists`, then one `Update` under the path id. */
  method UpdateProductDetails(store: ProductStore, id: Option<int>, body: Option<Product>) returns (r: Response)
    modifies store
    ensures var o := UpdateDecision(id, body, old(store.products));
      r == o.response && store.products == Apply(old(store.products), o.effect)
  {
    if id.None? {
      return Response(BadRequest, ErrorMessage("Invalid product ID"));
    }
    if body.None? {
      return Response(BadRequest, ErrorMessage("Invalid product details"));
    }
    var found := store.Exists(id.value);
    if !found {
      r := Response(NotFound, ErrorMessage("Product not found"));
    } else {
      store.Update(id.value, body.value);
      r := Response(NoContent, Empty);
    }
  }

  /** Start-up as the program does it (an empty store, then seeding) followed
      by a short session: read id 1, read a malformed id, read and update the
      unknown id 9999, update id 1 and read it back. */
  method SeededSession(details: Product) returns (read1: Response, readBad: Response, read9999: Response,
                                                 update9999: Response, update1: Response, reread1: Response)
    ensures read1 == Response(Ok, ProductJson(Product(1, "sku1", "manufacturer1", 1, 10, 100)))
    ensures readBad.status == NotFound && read9999.status == NotFound
    ensures update9999.status == NotFound
    ensures update1 == Response(NoContent, Empty)
    ensures reread1 == Response(Ok, ProductJson(details))
  {
    var store := new ProductStore();
    store.Seed();
    read1 := GetProductById(store, Some(1));
    readBad := GetProductById(store, None);
    read9999 := GetProductById(store, Some(9999));
    update9999 := UpdateProductDetails(store, Some(9999), Some(details));
    update1 := UpdateProductDetails(store, Some(1), Some(details));
    reread1 := GetProductById(store, Some(1));
  }
}
