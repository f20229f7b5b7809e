# Simple product store, modelled in Dafny

This project models the in-memory product catalogue of a small Go HTTP
service (`src/simplestore.go`). It has two parts.

- **The product store.** `Store.ProductStore` is a class. Its one field,
  `products: map<int, Product>`, maps an integer product id to a six-field
  product record. `Update` (an unconditional upsert), `Get`, `Exists`,
  `Delete` and `Seed` are methods that change or read that field, and each
  states its whole effect: what is returned, what changes, and that every
  other key is left alone.
- **The decision logic of the two request handlers.** `Handlers.GetDecision`
  and `Handlers.UpdateDecision` are pure functions. They take the outcome of
  id parsing and of body binding (an `Option`) and the store's map, and they
  give a status, a body and the effect on the store. The methods
  `Handlers.GetProductById` and `Handlers.UpdateProductDetails` run the same
  steps against a `ProductStore` object, in the source's order: one `Get`;
  or one `Exists` followed by one `Update`. They are proved equal to the
  decision functions. `Handlers.Serve` and `Handlers.Run` serve one request,
  or a sequence of them. The lemmas about traces of requests rest on them.

Statuses are `Ok` (200), `NoContent` (204), `BadRequest` (400) and
`NotFound` (404); `Handlers.Code` gives the numbers. A malformed id gives 404
on read but 400 on update. This asymmetry is stated exactly, in
`Handlers.MalformedIdAsymmetry`.

The id is modelled as any integer that parsed. The code parses it with
`strconv.Atoi`, which accepts a sign, so `-5` is a well-formed id that
reaches the store lookup.

Files: `Wrappers.dfy` (the `Option` type), `Store.dfy` (the record, the seed
records and the store class) and `Handlers.dfy` (the handlers and the
properties of request sequences).

## Model

| member | source | states |
|---|---|---|
| Store.ProductStore.constructor | src/simplestore.go:120-122 | a new store holds no products |
| Store.ProductStore.Update | src/simplestore.go:31-35 | afterwards the key holds the value, whether or not it was present; the key set grows by that key only; every other entry is unchanged |
| Store.ProductStore.Get | src/simplestore.go:37-42 | the flag is true exactly when the key is present; if it is, the stored record is returned; otherwise the zero record is returned; the store is not modified |
| Store.ProductStore.Exists | src/simplestore.go:44-49 | true exactly when the key is present, the same flag `Get` returns; the store is not modified |
| Store.ProductStore.Delete | src/simplestore.go:51-59 | returns whether the key was present beforehand; afterwards the key is absent and the other entries are unchanged; deleting an absent key leaves the store as it was, so a second delete is a no-op |
| Store.ProductStore.Seed | src/simplestore.go:61-65 | three upserts: the store becomes the old store overridden by the three fixed records, and its keys grow by exactly 1, 200 and 3000 |
| Store.SeedEmptyStore | src/simplestore.go:118-123 | seeding an empty store leaves exactly the keys 1, 200 and 3000, holding the literal records (for example 1 → sku1, manufacturer1, category 1, weight 10, other id 100) |
| Handlers.GetDecision | src/simplestore.go:70-89 | 404 exactly when the id is malformed or absent; 200 exactly when the id is present, and then the body is that record; every non-200 answer carries an error message: "Invalid product ID" for a malformed id, "Product not found" for an absent one |
| Handlers.UpdateDecision | src/simplestore.go:92-116 | 400 exactly when the id or the body is malformed; 404 exactly when both parse and the id is absent; 204 exactly when both parse and the id is present, and only then is the store changed, by upserting the body under the path id; every other answer carries an error message: "Invalid product ID", "Invalid product details" or "Product not found" |
| Handlers.Serve | src/simplestore.go:73-113 | serving one request never adds or removes a key; the store changes only through a 204 update, and then the path id maps to the body |
| Handlers.RunKeepsIds | src/simplestore.go:70-116 | any sequence of requests leaves the set of product ids exactly as it was: the handlers create and delete nothing |
| Handlers.RunKeepsUntargeted | src/simplestore.go:106-111 | a record that no update request in the sequence targets by path id keeps its value |
| Handlers.SeededIdsAreFinal | src/simplestore.go:61-65 | after start-up seeding, the ids are exactly 1, 200 and 3000 after any requests; any other id gets 404 on read, and 404 on update once the body parses |
| Handlers.MalformedIdAsymmetry | src/simplestore.go:73-98 | a malformed id is 404 "Invalid product ID" on read and 400 "Invalid product ID" with no store change on update |
| Handlers.MalformedBodyBeforeExistence | src/simplestore.go:101-105 | a malformed body gives 400 with no store change even when the id is absent: the body is checked before existence |
| Handlers.ReadAfterUpdate | src/simplestore.go:106-112 | after a 204 update, a read of the path id gives 200 with the body just sent, keyed by the path id and not by the body's own product id |
| Handlers.GetProductById | src/simplestore.go:70-89 | the handler, run against a store object, answers exactly as `GetDecision` on the store's map |
| Handlers.UpdateProductDetails | src/simplestore.go:92-116 | the handler, run against a store object, answers as `UpdateDecision` and leaves the store as that decision's effect applied to the old store |
| Handlers.SeededSession | src/simplestore.go:118-123 | after start-up, GET 1 gives 200 with the seeded record; a malformed id and id 9999 give 404 on read; an update of 9999 gives 404; an update of 1 gives 204 and a re-read returns the new details |

## Left out

- The `sync.RWMutex` and its lock and unlock calls. Each store operation is modelled as one atomic, single-threaded step, so reader/writer exclusion and snapshot consistency under concurrency are not captured.
- HTTP routing, `c.JSON`/`c.IndentedJSON` rendering and `router.Run`. These are I/O through the gin library. A response is a status plus a body value (the record, an error message, or empty).
- `c.BindJSON` decoding and `strconv.Atoi` parsing. These are foreign calls, and their results are inputs of type `Option<Product>` and `Option<int>`. Which strings parse is not modelled.
- The global `store` variable. The handler methods take an explicit store object; `main`'s wiring is reduced to a new store plus `Seed` (`Store.SeedEmptyStore`, `Handlers.SeededSession`).
- Go's `int` is 64 bits wide. Ids and the integer fields are unbounded `int` here; no operation does arithmetic on them, so no wrap-around can arise.
- `testing/locustfile.py` is a load-testing client with no logic of its own. It is not part of this model.
