/** The in-memory product catalogue: the product record and the store that
    maps integer product ids to records (src/simplestore.go:12-65). */
module Store {

  /** One catalogue entry; the JSON names of the fields are product_id, sku,
      manufacturer, category_id, weight and some_other_id. */
  datatype Product = Product(
    productId: int,
    sku: string,
    manufacturer: string,
    categoryId: int,
    weight: int,
    someOtherId: int)

  /** The zero value of the record, which a lookup of an absent key yields. */
  const ZeroProduct := Product(0, "", "", 0, 0, 0)

  /** The ids written by seeding. */
  const SeedIds: set<int> := {1, 200, 3000}

  /** The three fixed records written by seeding, keyed by their ids. */
  const SeedCatalogue: map<int, Product> := map[
    1 := Product(1, "sku1", "manufacturer1", 1, 10, 100),
    200 := Product(200, "sku2", "manufacturer2", 2, 20, 200),
    3000 := Product(3000, "sku3", "manufacturer3", 3, 30, 300)]

  /** The store. Every operation is a single atomic step on `products`; the
      reader/writer lock that makes this so is not modelled. */
  class ProductStore {
    var products: map<int, Product>

    /** A freshly made store is empty. */
    constructor ()
      ensures products == map[]
    {
      products := map[];
    }

    /** Unconditional upsert: `key` now holds `value`, whether or not it was
        present; no other key is added, removed or changed. */
    method Update(key: int, value: Product)
      modifies this
      ensures key in products && products[key] == value
      ensures products.Keys == old(products).Keys + {key}
      ensures forall k :: k in old(products) && k != key ==> products[k] == old(products)[k]
    {
      products := products[key := value];
    }

    /** Lookup with a presence flag; an absent key yields the zero record. */
    method Get(key: int) returns (val: Product, found: bool)
      ensures found <==> key in products
      ensures found ==> val == products[key]
      ensures !found ==> val == ZeroProduct
    {
      found := key in products;
      val := if found then products[key] else ZeroProduct;
    }

    /** Presence only: the same flag `Get` returns. */
    method Exists(key: int) returns (found: bool)
      ensures found <==> key in products
    {
      found := key in products;
    }

    /** Removes `key` and reports whether it was present. Deleting an absent
        key changes nothing, so a second `Delete(key)` is a no-op. */
    method Delete(key: int) returns (existed: bool)
      modifies this
      ensures existed <==> key in old(products)
      ensures key !in products
      ensures products.Keys == old(products).Keys - {key}
      ensures forall k :: k in products ==> products[k] == old(products)[k]
      ensures !existed ==> products == old(products)
    {
      existed := key in products;
      if existed {
        products := products - {key};
      }
    }

    /** Writes the three fixed records by three upserts: the seeded records
        override whatever those keys held, every other key is left alone. */
    method Seed()
      modifies this
      ensures products == old(products) + SeedCatalogue
      ensures products.Keys == old(products).Keys + SeedIds
    {
      Update(1, Product(1, "sku1", "manufacturer1", 1, 10, 100));
      Update(200, Product(200, "sku2", "manufacturer2", 2, 20, 200));
      Update(3000, Product(3000, "sku3", "manufacturer3", 3, 30, 300));
      ghost var seeded := old(products) + SeedCatalogue;
      assert products.Keys == seeded.Keys == old(products).Keys + SeedIds;
      forall k | k in products
        ensures products[k] == seeded[k]
      {
        if k !in SeedIds {
          assert products[k] == old(products)[k];
        }
      }
    }
  }

  /** Seeding an empty store leaves exactly the keys 1, 200 and 3000 holding
      the three fixed records. */
  method SeedEmptyStore() returns (s: ProductStore)
    ensures s.products.Keys == SeedIds
    ensures s.products[1] == Product(1, "sku1", "manufacturer1", 1, 10, 100)
    ensures s.products[200] == Product(200, "sku2", "manufacturer2", 2, 20, 200)
    ensures s.products[3000] == Product(3000, "sku3", "manufacturer3", 3, 30, 300)
  {
    s := new ProductStore();
    s.Seed();
  }
}
