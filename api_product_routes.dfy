/**
  The product router of the serverless API (`api/routes/productRoutes.js`). It
  shares list, create and read with the backend router but its update and
  delete check nothing: an update of a missing id creates the record, an update
  may give a product another product's SKU, and a delete always succeeds.
*/
module ApiProductRoutes {
  import opened Common
  import opened Catalog

  /** `PUT /:id`: stamp `updatedAt` on the body and merge it into the node, present or not. */
  function ApiUpdateSpec(m: Table, id: string, u: Product, now: string): (o: Outcome)
    ensures o.reply == Done("Product updated successfully")
    ensures id in o.table && o.table.Keys == m.Keys + {id}
    ensures o.table[id].updatedAt == Some(now)
    ensures id in m ==> o.table[id] == Merge(m[id], u.(updatedAt := Some(now)))
    ensures id !in m ==> o.table[id] == u.(updatedAt := Some(now))
    ensures forall k :: k in m && k != id ==> o.table[k] == m[k]
  {
    var base := if id in m then m[id] else NoFields;
    assert id !in m ==> Merge(NoFields, u.(updatedAt := Some(now))) == u.(updatedAt := Some(now));
    Outcome(Done("Product updated successfully"), m[id := Merge(base, u.(updatedAt := Some(now)))])
  }

  /** An update through this router can give two products the same SKU. */
  lemma ApiUpdateBreaksUniqueness()
    ensures var m := map["a" := NoFields.(sku := Some("A1")), "b" := NoFields.(sku := Some("B1"))];
            SkuUnique(m) && !SkuUnique(ApiUpdateSpec(m, "b", NoFields.(sku := Some("A1")), "t").table)
  {
    var m := map["a" := NoFields.(sku := Some("A1")), "b" := NoFields.(sku := Some("B1"))];
    var t := ApiUpdateSpec(m, "b", NoFields.(sku := Some("A1")), "t").table;
    assert t["a"].sku == t["b"].sku;
  }

  /** `DELETE /:id`: always reports success and removes the key if it is there. */
  function ApiDeleteSpec(m: Table, id: string): (o: Outcome)
    ensures o.reply == Done("Product deleted successfully")
    ensures o.table.Keys == m.Keys - {id}
    ensures forall k :: k in o.table ==> o.table[k] == m[k]
  {
    Outcome(Done("Product deleted successfully"), m - {id})
  }

  /** The serverless API's view of the `products` table. */
  class ApiProductStore {
    var products: Table

    constructor(initial: Table)
      ensures products == initial
    {
      products := initial;
    }

    /** `GET /`: every product in listing order, each with its key as `id` unless it has one. */
    method GetAll(order: seq<string>) returns (r: Reply)
      requires Lists(order, products)
      ensures r.Listed? && r.rows == Rows(products, order, (p: Product) => true)
      ensures |r.rows| == |products|
    {
      var list: seq<Product> := [];
      for i := 0 to |order|
        invariant list == Rows(products, order[..i], (p: Product) => true)
      {
        assert order[..i + 1][..i] == order[..i];
        list := list + [WithId(order[i], products[order[i]])];
      }
      assert order[..|order|] == order;
      RowsAll(products, order);
      ListsCount(order, products);
      r := Listed(list);
    }

    /** `POST /`, the same checks as the backend router. */
    method Create(data: Product, key: string, now: string) returns (r: Reply)
      requires key !in products
      modifies this
      ensures Outcome(r, products) == CreateSpec(old(products), data, key, now)
    {
      if !Truthy(data.name) || !Truthy(data.sku) || !NumTruthy(data.price) {
        return Failed(400, RequiredFields);
      }
      if SkuHolders(products, data.sku.value) != {} {
        return Failed(400, DuplicateSku);
      }
      var product := data.(id := Some(key), createdAt := Some(now), updatedAt := Some(now));
      products := products[key := product];
      r := Created(key, "Product created successfully", product);
    }

    /** `GET /:id`. */
    method Get(id: string) returns (r: Reply)
      ensures r == GetSpec(products, id)
    {
      if id !in products {
        return Missing(404, NotFound);
      }
      r := Found(WithId(id, products[id]));
    }

    /** `PUT /:id`. */
    method Update(id: string, updates: Product, now: string) returns (r: Reply)
      modifies this
      ensures Outcome(r, products) == ApiUpdateSpec(old(products), id, updates, now)
    {
      var body := updates.(updatedAt := Some(now));
      var node := if id in products then products[id] else NoFields;
      products := products[id := Merge(node, body)];
      r := Done("Product updated successfully");
    }

    /** `DELETE /:id`. */
    method Delete(id: string) returns (r: Reply)
      modifies this
      ensures Outcome(r, products) == ApiDeleteSpec(old(products), id)
    {
      products := products - {id};
      r := Done("Product deleted successfully");
    }
  }
}
