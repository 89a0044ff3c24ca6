/**
  The Express product router of the backend server (`/api/products`): list,
  create, read, update, delete, set stock, and the low-stock and category
  listings, over the `products` table held as a map from push key to record.

  Each handler is a method of `ProductStore` that reads and writes the table
  step by step; its contract ties the reply and the new table to a function on
  the old table, and the properties the routes promise (rejections change
  nothing, SKUs stay unique, stock and status move together) are proved about
  those functions.
*/
module BackendProductRoutes {
  import opened Common
  import opened Catalog

  const StockRequired := "Valid stock quantity required"

  /**
    `PUT /:id`: 404 for a missing product, 400 when another product already
    holds the new SKU, otherwise merge the body and stamp `updatedAt`. The SKU
    check runs whenever the body carries an SKU (see `UpdateAsWritten`).
  */
  function UpdateSpec(m: Table, id: string, u: Product, now: string): (o: Outcome)
    ensures id !in m ==> o == Outcome(Failed(404, NotFound), m)
    ensures id in m && u.sku.Some? && !(SkuHolders(m, u.sku.value) <= {id}) ==> o == Outcome(Failed(400, DuplicateSku), m)
    ensures id in m && (u.sku.None? || SkuHolders(m, u.sku.value) <= {id}) ==>
              o == Outcome(Done("Product updated successfully"), m[id := Merge(m[id], u).(updatedAt := Some(now))])
    ensures o.reply.Done? ==> id in m && o.table == m[id := Merge(m[id], u.(updatedAt := Some(now)))]
    ensures o.reply.Done? || o.table == m
    ensures SkuUnique(m) ==> SkuUnique(o.table)
  {
    if id !in m then Outcome(Failed(404, NotFound), m)
    else if u.sku.Some? && !(SkuHolders(m, u.sku.value) <= {id}) then Outcome(Failed(400, DuplicateSku), m)
    else
      var p := Merge(m[id], u.(updatedAt := Some(now)));
      assert SkuUnique(m) ==> SkuUnique(m[id := p]) by {
        if SkuUnique(m) {
          if p.sku.Some? && p.sku != u.sku {
            assert p.sku == m[id].sku;
            assert forall k :: k in SkuHolders(m, p.sku.value) ==> k == id;
          }
          PutKeepsSkuUnique(m, id, p);
        }
      }
      Outcome(Done("Product updated successfully"), m[id := p])
  }

  /** `PUT /:id` as the route is written: the SKU check is guarded by `if (updates.sku)`. */
  function UpdateAsWritten(m: Table, id: string, u: Product, now: string): (o: Outcome)
    ensures u.sku.None? || Truthy(u.sku) ==> o == UpdateSpec(m, id, u, now)
  {
    if id !in m then Outcome(Failed(404, NotFound), m)
    else if Truthy(u.sku) && !(SkuHolders(m, u.sku.value) <= {id}) then Outcome(Failed(400, DuplicateSku), m)
    else Outcome(Done("Product updated successfully"), m[id := Merge(m[id], u.(updatedAt := Some(now)))])
  }

  /**
    Two products may end up sharing an SKU through the route as written: an
    update with `sku: ""` skips the check, and two such updates leave both
    products with SKU "". The corrected route rejects the second update.
  */
  lemma EmptySkuUpdateBreaksUniqueness()
    ensures var m0 := map["a" := NoFields.(sku := Some("A1")), "b" := NoFields.(sku := Some("B1"))];
            var u := NoFields.(sku := Some(""));
            var m1 := UpdateAsWritten(m0, "a", u, "t1").table;
            var m2 := UpdateAsWritten(m1, "b", u, "t2").table;
            SkuUnique(m0) && !SkuUnique(m2)
              && UpdateSpec(UpdateSpec(m0, "a", u, "t1").table, "b", u, "t2").reply == Failed(400, DuplicateSku)
  {
    var m0 := map["a" := NoFields.(sku := Some("A1")), "b" := NoFields.(sku := Some("B1"))];
    var u := NoFields.(sku := Some(""));
    var m1 := UpdateAsWritten(m0, "a", u, "t1").table;
    var m2 := UpdateAsWritten(m1, "b", u, "t2").table;
    assert m2["a"].sku == m2["b"].sku == Some("");
    var c1 := UpdateSpec(m0, "a", u, "t1").table;
    assert c1 == m1;
    assert "a" in SkuHolders(c1, "");
  }

  /** `DELETE /:id`: 404 for a missing product, otherwise remove exactly that key. */
  function DeleteSpec(m: Table, id: string): (o: Outcome)
    ensures id !in m <==> o.reply == Failed(404, NotFound)
    ensures id !in o.table
    ensures forall k :: k in m && k != id ==> k in o.table && o.table[k] == m[k]
    ensures o.table.Keys <= m.Keys
    ensures SkuUnique(m) ==> SkuUnique(o.table)
  {
    if id !in m then Outcome(Failed(404, NotFound), m)
    else Outcome(Done("Product deleted successfully"), m - {id})
  }

  /** The fields `PATCH /:id/stock` writes. */
  function StockFields(stock: int, now: string): Product
  {
    NoFields.(stock := Some(stock), status := Some(StatusForStock(stock)), updatedAt := Some(now))
  }

  /**
    `PATCH /:id/stock`: the stock must be a non-negative number (checked before
    the product is looked up), then stock, status and `updatedAt` are written.
    `None` stands for a body whose `stock` is not a number.
  */
  function PatchStockSpec(m: Table, id: string, stock: Option<int>, now: string): (o: Outcome)
    ensures stock.None? || stock.value < 0 ==> o == Outcome(Failed(400, StockRequired), m)
    ensures stock.Some? && stock.value >= 0 && id !in m ==> o == Outcome(Failed(404, NotFound), m)
    ensures stock.Some? && stock.value >= 0 && id in m ==>
              o == Outcome(StockSet("Stock updated successfully", stock.value, StatusForStock(stock.value)),
                           m[id := m[id].(stock := stock, status := Some(StatusForStock(stock.value)), updatedAt := Some(now))])
    ensures o.reply.StockSet? ==>
              stock.Some? && id in m && o.table.Keys == m.Keys
              && o.reply.stock == stock.value >= 0 && o.reply.status == StatusForStock(stock.value)
              && o.table[id].stock == stock && o.table[id].status == Some(o.reply.status)
              && o.table[id].sku == m[id].sku && o.table[id].name == m[id].name
    ensures o.reply.StockSet? || o.table == m
    ensures forall k :: k in m && k != id ==> k in o.table && o.table[k] == m[k]
  {
    if stock.None? || stock.value < 0 then Outcome(Failed(400, StockRequired), m)
    else if id !in m then Outcome(Failed(404, NotFound), m)
    else
      var s := stock.value;
      Outcome(StockSet("Stock updated successfully", s, StatusForStock(s)), m[id := Merge(m[id], StockFields(s, now))])
  }

  /** A stock update leaves every SKU as it was, so SKUs stay unique. */
  lemma PatchStockKeepsSkuUnique(m: Table, id: string, stock: Option<int>, now: string)
    requires SkuUnique(m)
    ensures SkuUnique(PatchStockSpec(m, id, stock, now).table)
  {
    if stock.Some? && stock.value >= 0 && id in m {
      PutKeepsSkuUnique(m, id, Merge(m[id], StockFields(stock.value, now)));
    }
  }

  /** After a successful stock update the product is out of stock exactly when its status says so. */
  lemma PatchStockCouplesStatus(m: Table, id: string, stock: Option<int>, now: string)
    requires PatchStockSpec(m, id, stock, now).reply.StockSet?
    ensures var p := PatchStockSpec(m, id, stock, now).table[id];
            p.stock.Some? && p.stock.value >= 0
            && (p.status == Some("Out of Stock") <==> p.stock.value == 0)
            && (p.status == Some("Active") <==> p.stock.value > 0)
  {
  }

  /** The backend's view of the `products` table. */
  class ProductStore {
    var products: Table

    constructor(initial: Table)
      ensures products == initial
    {
      products := initial;
    }

    /** `GET /`: every product in listing order, each with its key as `id` unless it has one. */
    method GetAll(order: seq<string>) returns (r: Reply)
      requires Lists(order, products)
      ensures r.Listed? && r.rows == Rows(products, order, (p: Product) => true)
      ensures |r.rows| == |products|
    {
      var list: seq<Product> := [];
      for i := 0 to |order|
        invariant list == Rows(products, order[..i], (p: Product) => true)
      {
        assert order[..i + 1][..i] == order[..i];
        list := list + [WithId(order[i], products[order[i]])];
      }
      assert order[..|order|] == order;
      RowsAll(products, order);
      ListsCount(order, products);
      r := Listed(list);
    }

    /** `POST /`; `key` is the fresh key `push()` hands out and `now` the clock. */
    method Create(data: Product, key: string, now: string) returns (r: Reply)
      requires key !in products
      modifies this
      ensures Outcome(r, products) == CreateSpec(old(products), data, key, now)
    {
      if !Truthy(data.name) || !Truthy(data.sku) || !NumTruthy(data.price) {
        return Failed(400, RequiredFields);
      }
      var existing := SkuHolders(products, data.sku.value);
      if existing != {} {
        return Failed(400, DuplicateSku);
      }
      var product := data.(id := Some(key), createdAt := Some(now), updatedAt := Some(now));
      products := products[key := product];
      r := Created(key, "Product created successfully", product);
    }

    /** `GET /:id`. */
    method Get(id: string) returns (r: Reply)
      ensures r == GetSpec(products, id)
    {
      if id !in products {
        return Missing(404, NotFound);
      }
      r := Found(WithId(id, products[id]));
    }

    /** `PUT /:id`. */
    method Update(id: string, updates: Product, now: string) returns (r: Reply)
      modifies this
      ensures Outcome(r, products) == UpdateSpec(old(products), id, updates, now)
    {
      if id !in products {
        return Failed(404, NotFound);
      }
      if updates.sku.Some? {
        var skuExists := false;
        var holders := SkuHolders(products, updates.sku.value);
        ghost var seen: set<string> := {};
        while holders != {}
          invariant holders + seen == SkuHolders(products, updates.sku.value)
          invariant skuExists <==> exists k :: k in seen && k != id
          decreases holders
        {
          var k :| k in holders;
          if k != id {
            skuExists := true;
          }
          holders, seen := holders - {k}, seen + {k};
        }
        assert skuExists <==> !(SkuHolders(products, updates.sku.value) <= {id});
        if skuExists {
          return Failed(400, DuplicateSku);
        }
      }
      products := products[id := Merge(products[id], updates.(updatedAt := Some(now)))];
      r := Done("Product updated successfully");
    }

    /** `DELETE /:id`. */
    method Delete(id: string) returns (r: Reply)
      modifies this
      ensures Outcome(r, products) == DeleteSpec(old(products), id)
    {
      if id !in products {
        return Failed(404, NotFound);
      }
      products := products - {id};
      r := Done("Product deleted successfully");
    }

    /** `PATCH /:id/stock`. */
    method PatchStock(id: string, stock: Option<int>, now: string) returns (r: Reply)
      modifies this
      ensures Outcome(r, products) == PatchStockSpec(old(products), id, stock, now)
    {
      if stock.None? || stock.value < 0 {
        return Failed(400, StockRequired);
      }
      if id !in products {
        return Failed(404, NotFound);
      }
      var status := if stock.value == 0 then "Out of Stock" else "Active";
      products := products[id := Merge(products[id], NoFields.(stock := stock, status := Some(status), updatedAt := Some(now)))];
      r := StockSet("Stock updated successfully", stock.value, status);
    }

    /** `GET /filter/low-stock`: the products with `stock <= (reorderLevel || 10)` and their count. */
    method LowStockProducts(order: seq<string>) returns (r: Reply)
      requires Lists(order, products)
      ensures r == Counted(Rows(products, order, LowStock), |Rows(products, order, LowStock)|)
    {
      var list: seq<Product> := [];
      for i := 0 to |order|
        invariant list == Rows(products, order[..i], LowStock)
      {
        assert order[..i + 1][..i] == order[..i];
        var product := products[order[i]];
        if product.stock.Some? && product.stock.value <= ReorderThreshold(product) {
          list := list + [WithId(order[i], product)];
        }
      }
      assert order[..|order|] == order;
      r := Counted(list, |list|);
    }

    /** `GET /filter/category/:category`: the products whose category is exactly `category`. */
    method ByCategory(category: string, order: seq<string>) returns (r: Reply)
      requires Lists(order, products)
      ensures r == Counted(Rows(products, order, InCategory(category)), |Rows(products, order, InCategory(category))|)
    {
      var list: seq<Product> := [];
      for i := 0 to |order|
        invariant list == Rows(products, order[..i], InCategory(category))
      {
        assert order[..i + 1][..i] == order[..i];
        var product := products[order[i]];
        if product.category == Some(category) {
          list := list + [WithId(order[i], product)];
        }
      }
      assert order[..|order|] == order;
      r := Counted(list, |list|);
    }
  }
}
