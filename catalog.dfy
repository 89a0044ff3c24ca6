/**
  The product record shared by the two product APIs, the services and the
  dashboard pages, the reply shapes of the product routes, and the operations
  on the `products` table that more than one handler uses: field-wise merge
  (`{...p, ...u}` / Firebase `update`), the `{id: key, ...val}` listing shape,
  the SKU index and the listing filters.
*/
module Catalog {
  import opened Common

  /** A product as stored under `products/<key>`; a field that is absent is `None`. */
  datatype Product = Product(
    id: Option<string>,
    name: Option<string>,
    sku: Option<string>,
    category: Option<string>,
    description: Option<string>,
    price: Option<real>,
    cost: Option<real>,
    stock: Option<int>,
    reorderLevel: Option<int>,
    maxStock: Option<int>,
    status: Option<string>,
    eventId: Option<string>,
    stockByEvent: Option<seq<(string, int)>>,
    createdAt: Option<string>,
    updatedAt: Option<string>)

  /** The empty object `{}`. */
  const NoFields := Product(None, None, None, None, None, None, None, None, None, None, None, None, None, None, None)

  /** One field of `{...a, ...b}`. */
  function Over<T>(a: Option<T>, b: Option<T>): Option<T>
  {
    if b.Some? then b else a
  }

  /** `{...p, ...u}`, which is also what Firebase `update(u)` does to the node `p`. */
  function Merge(p: Product, u: Product): Product
  {
    Product(Over(p.id, u.id), Over(p.name, u.name), Over(p.sku, u.sku), Over(p.category, u.category),
            Over(p.description, u.description), Over(p.price, u.price), Over(p.cost, u.cost),
            Over(p.stock, u.stock), Over(p.reorderLevel, u.reorderLevel), Over(p.maxStock, u.maxStock),
            Over(p.status, u.status), Over(p.eventId, u.eventId), Over(p.stockByEvent, u.stockByEvent),
            Over(p.createdAt, u.createdAt), Over(p.updatedAt, u.updatedAt))
  }

  /** Merging the empty object changes nothing. */
  lemma MergeNoFields(p: Product)
    ensures Merge(p, NoFields) == p
  {
  }

  /** Applying the same update twice is applying it once. */
  lemma MergeIdempotent(p: Product, u: Product)
    ensures Merge(Merge(p, u), u) == Merge(p, u)
  {
  }

  /** Two updates in a row are the update by their merge. */
  lemma MergeCompose(p: Product, u: Product, v: Product)
    ensures Merge(Merge(p, u), v) == Merge(p, Merge(u, v))
  {
  }

  /** `{id: key, ...val}`: the key is the id unless the stored record carries its own. */
  function WithId(key: string, p: Product): (r: Product)
    ensures r.id.Some?
    ensures p.id.None? ==> r.id == Some(key)
    ensures r == p.(id := r.id)
  {
    if p.id.Some? then p else p.(id := Some(key))
  }

  /** JavaScript truthiness of a numeric field: present and not 0. */
  predicate NumTruthy(x: Option<real>) {
    x.Some? && x.value != 0.0
  }

  // ---------------------------------------------------------------- stock rules

  /** `product.reorderLevel || 10`. */
  function ReorderThreshold(p: Product): (t: int)
    ensures p.reorderLevel.Some? && p.reorderLevel.value != 0 ==> t == p.reorderLevel.value
    ensures p.reorderLevel.None? || p.reorderLevel.value == 0 ==> t == 10
  {
    if p.reorderLevel.Some? && p.reorderLevel.value != 0 then p.reorderLevel.value else 10
  }

  /** `product.stock <= (product.reorderLevel || 10)`; `undefined <= n` is false. */
  predicate LowStock(p: Product) {
    p.stock.Some? && p.stock.value <= ReorderThreshold(p)
  }

  /** The status the stock endpoint writes beside a new stock level. */
  function StatusForStock(stock: int): (s: string)
    ensures s == "Out of Stock" <==> stock == 0
    ensures s == "Active" <==> stock != 0
  {
    if stock == 0 then "Out of Stock" else "Active"
  }

  // ---------------------------------------------------------------- the SKU index

  type Table = map<string, Product>

  /** The keys whose product has SKU `sku` (`orderByChild('sku').equalTo(sku)`). */
  function SkuHolders(m: Table, sku: string): set<string>
  {
    set k | k in m && m[k].sku == Some(sku)
  }

  /** No two products share an SKU. */
  predicate SkuUnique(m: Table) {
    forall a, b :: a in m && b in m && a != b && m[a].sku.Some? ==> m[a].sku != m[b].sku
  }

  /**
    Writing `p` under `key` keeps SKUs unique when no other key already holds
    the SKU of `p`.
  */
  lemma PutKeepsSkuUnique(m: Table, key: string, p: Product)
    requires SkuUnique(m)
    requires p.sku.Some? ==> SkuHolders(m, p.sku.value) <= {key}
    ensures SkuUnique(m[key := p])
  {
    var m' := m[key := p];
    forall a, b | a in m' && b in m' && a != b && m'[a].sku.Some?
      ensures m'[a].sku != m'[b].sku
    {
      assert b in m && p.sku.Some? && m[b].sku == p.sku ==> b in SkuHolders(m, p.sku.value);
      assert a in m && p.sku.Some? && m[a].sku == p.sku ==> a in SkuHolders(m, p.sku.value);
    }
  }

  /** In a table with unique SKUs, one that is held is held by one key. */
  lemma SkuHoldersAtMostOne(m: Table, sku: string, k: string)
    requires SkuUnique(m) && k in SkuHolders(m, sku)
    ensures SkuHolders(m, sku) == {k}
  {
  }

  // ---------------------------------------------------------------- listings

  /** The order the database lists its children in: every key once. */
  ghost predicate Lists(order: seq<string>, m: Table) {
    (forall k :: k in order ==> k in m)
    && (forall k :: k in m ==> k in order)
    && (forall i, j :: 0 <= i < j < |order| ==> order[i] != order[j])
  }

  /** A listing visits as many keys as the table has. */
  lemma {:induction false} ListsCount(order: seq<string>, m: Table)
    requires Lists(order, m)
    ensures |order| == |m|
  {
    var ks := set k | k in order;
    assert ks == m.Keys;
    DistinctCard(order);
  }

  /** A sequence without repeats has as many distinct elements as entries. */
  lemma {:induction false} DistinctCard(s: seq<string>)
    requires forall i, j :: 0 <= i < j < |s| ==> s[i] != s[j]
    ensures |set k | k in s| == |s|
  {
    if s != [] {
      var init := s[..|s| - 1];
      DistinctCard(init);
      assert (set k | k in s) == (set k | k in init) + {s[|s| - 1]};
      assert s[|s| - 1] !in init;
    }
  }

  /**
    The listing `snapshot.forEach(c => keep(c.val()) && out.push({id: c.key, ...c.val()}))`:
    every row comes from a listed key whose product passes `keep`, in listing order.
  */
  function Rows(m: Table, order: seq<string>, keep: Product -> bool): (r: seq<Product>)
    requires forall k :: k in order ==> k in m
    ensures |r| <= |order|
    ensures forall x :: x in r ==>
              exists i :: 0 <= i < |order| && keep(m[order[i]]) && x == WithId(order[i], m[order[i]])
  {
    if order == [] then []
    else
      var k := order[|order| - 1];
      var init := Rows(m, order[..|order| - 1], keep);
      if keep(m[k]) then init + [WithId(k, m[k])] else init
  }

  /** Every listed product that passes `keep` is in the listing. */
  lemma {:induction false} RowsComplete(m: Table, order: seq<string>, keep: Product -> bool, i: int)
    requires forall k :: k in order ==> k in m
    requires 0 <= i < |order| && keep(m[order[i]])
    ensures WithId(order[i], m[order[i]]) in Rows(m, order, keep)
  {
    if i < |order| - 1 {
      RowsComplete(m, order[..|order| - 1], keep, i);
    }
  }

  /** Keeping everything lists every key in order. */
  lemma {:induction false} RowsAll(m: Table, order: seq<string>)
    requires forall k :: k in order ==> k in m
    ensures |Rows(m, order, (p: Product) => true)| == |order|
    ensures forall i :: 0 <= i < |order| ==> Rows(m, order, (p: Product) => true)[i] == WithId(order[i], m[order[i]])
  {
    if order != [] {
      RowsAll(m, order[..|order| - 1]);
    }
  }

  function InCategory(category: string): Product -> bool
  {
    (p: Product) => p.category == Some(category)
  }

  // ---------------------------------------------------------------- replies

  /** The JSON bodies the product routes answer with. */
  datatype Reply =
    | Listed(rows: seq<Product>)
    | Counted(matches: seq<Product>, count: nat)
    | Found(product: Product)
    | Created(id: string, message: string, record: Product)
    | Done(message: string)
    | StockSet(message: string, stock: int, status: string)
    | Failed(code: nat, error: string)
    | Missing(code: nat, message: string)  // `{success: false, message}`, the 404 of `GET /:id`

  const RequiredFields := "Name, SKU, and price are required"
  const DuplicateSku := "SKU already exists. Please use a unique SKU."
  const NotFound := "Product not found"

  /** The reply and the table after a handler ran. */
  datatype Outcome = Outcome(reply: Reply, table: Table)

  /** `!name || !sku || !price`. */
  predicate MissingRequired(data: Product) {
    !Truthy(data.name) || !Truthy(data.sku) || !NumTruthy(data.price)
  }

  /** The record `POST /` stores: the body, the new key as id, and both timestamps. */
  function Stamped(data: Product, key: string, now: string): (p: Product)
    ensures p.id == Some(key) && p.createdAt == p.updatedAt == Some(now)
    ensures p.name == data.name && p.sku == data.sku && p.price == data.price && p.stock == data.stock
    ensures p.category == data.category && p.description == data.description && p.cost == data.cost
    ensures p.reorderLevel == data.reorderLevel && p.maxStock == data.maxStock && p.status == data.status
    ensures p.eventId == data.eventId && p.stockByEvent == data.stockByEvent
  {
    data.(id := Some(key), createdAt := Some(now), updatedAt := Some(now))
  }

  /**
    `POST /` in both product APIs: the required fields, then SKU uniqueness, then
    one new record under the fresh key `key` that `push()` hands out.
  */
  function CreateSpec(m: Table, data: Product, key: string, now: string): (o: Outcome)
    ensures MissingRequired(data) ==> o == Outcome(Failed(400, RequiredFields), m)
    ensures !MissingRequired(data) && SkuHolders(m, data.sku.value) != {} ==> o == Outcome(Failed(400, DuplicateSku), m)
    ensures o.reply.Created? ==> o.reply.id == key && o.table == m[key := o.reply.record]
                                 && o.reply.record.createdAt == o.reply.record.updatedAt == Some(now)
    ensures !MissingRequired(data) && SkuHolders(m, data.sku.value) == {} ==>
              o == Outcome(Created(key, "Product created successfully", Stamped(data, key, now)), m[key := Stamped(data, key, now)])
    ensures o.reply.Created? || o.table == m
    ensures key !in m && SkuUnique(m) ==> SkuUnique(o.table)
  {
    if MissingRequired(data) then Outcome(Failed(400, RequiredFields), m)
    else if SkuHolders(m, data.sku.value) != {} then Outcome(Failed(400, DuplicateSku), m)
    else
      var p := Stamped(data, key, now);
      assert key !in m && SkuUnique(m) ==> SkuUnique(m[key := p]) by {
        if key !in m && SkuUnique(m) {
          PutKeepsSkuUnique(m, key, p);
        }
      }
      Outcome(Created(key, "Product created successfully", p), m[key := p])
  }

  /** A create that succeeds adds exactly one key and leaves every other record as it was. */
  lemma CreateAddsOne(m: Table, data: Product, key: string, now: string)
    requires key !in m
    requires CreateSpec(m, data, key, now).reply.Created?
    ensures CreateSpec(m, data, key, now).table.Keys == m.Keys + {key}
    ensures forall k :: k in m ==> CreateSpec(m, data, key, now).table[k] == m[k]
    ensures |CreateSpec(m, data, key, now).table| == |m| + 1
  {
  }

  /** `GET /:id`. */
  function GetSpec(m: Table, id: string): (r: Reply)
    ensures id !in m <==> r == Missing(404, NotFound)
    ensures id in m ==> r.Found? && r.product == WithId(id, m[id])
  {
    if id in m then Found(WithId(id, m[id])) else Missing(404, NotFound)
  }
}
