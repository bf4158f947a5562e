/**
 * The process-wide `products` array and the three route handlers that
 * change it: create (`push`), update (index assignment) and delete
 * (`splice`). Authentication and validation run before these handlers and
 * are composed with them in module Routes.
 */
module Store {
  import opened Catalog

  class ProductStore {
    /** The in-memory product list, in insertion order. */
    var products: seq<Product>

    /** The store as the process starts: the three seed records. */
    constructor ()
      ensures products == Seed()
    {
      products := Seed();
    }

    /**
     * The POST handler: append `{ id: newId, ...body }` and return it.
     * `newId` stands for the value `uuidv4()` produces.
     */
    method Create(newId: string, body: Body) returns (created: Product)
      modifies this
      ensures created == NewProduct(newId, body)
      ensures products == old(products) + [created]
    {
      created := NewProduct(newId, body);
      products := products + [created];
    }

    /**
     * The PUT handler: the first record with id `id` becomes
     * `{...record, ...body}`; every other record stays as it was. Raises
     * NotFound, changing nothing, when no record has that id.
     */
    method Update(id: string, body: Body) returns (r: Result<Product>)
      modifies this
      ensures FindIndex(old(products), id) == -1 ==>
        r == Err(NotFound(NotFoundMessage)) && products == old(products)
      ensures FindIndex(old(products), id) >= 0 ==>
        var i := FindIndex(old(products), id);
        && |products| == |old(products)|
        && products[i] == Spread(old(products)[i], body)
        && (forall j :: 0 <= j < |products| && j != i ==> products[j] == old(products)[j])
        && r == Ok(products[i])
    {
      var i := FindIndex(products, id);
      if i == -1 {
        return Err(NotFound(NotFoundMessage));
      }
      products := products[i := Spread(products[i], body)];
      r := Ok(products[i]);
    }

    /**
     * The DELETE handler: remove the first record with id `id` and return it;
     * the remaining records keep their order. Raises NotFound, changing
     * nothing, when no record has that id.
     */
    method Delete(id: string) returns (r: Result<Product>)
      modifies this
      ensures FindIndex(old(products), id) == -1 ==>
        r == Err(NotFound(NotFoundMessage)) && products == old(products)
      ensures FindIndex(old(products), id) >= 0 ==>
        var i := FindIndex(old(products), id);
        && products == old(products)[..i] + old(products)[i + 1..]
        && r == Ok(old(products)[i])
    {
      var i := FindIndex(products, id);
      if i == -1 {
        return Err(NotFound(NotFoundMessage));
      }
      var deleted := products[i];
      products := products[..i] + products[i + 1..];
      r := Ok(deleted);
    }
  }
}
