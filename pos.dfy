/**
  The point-of-sale page (`src/pages/dashboard/POS.tsx`): the catalogue view
  filtered by the selected event, category and search text, with the stock shown
  for the event; and the cart, a list of lines with distinct product ids that
  the page replaces on add, quantity change, removal and checkout, together with
  the discount.
*/
module Pos {
  import opened Common
  import opened Catalog
  import TransactionService

  // ---------------------------------------------------------------- catalogue view

  /** `norm(v)`: `String(v || "").trim().toLowerCase()`. */
  function Norm(v: Option<string>): (r: string)
    ensures !Truthy(v) ==> r == ""
  {
    ToLower(Trim(OrElse(v, "")))
  }

  /** `cand.includes(norm(x))` with `cand = [norm(currentEventId), norm(currentEventName)]`. */
  predicate InCand(x: string, eventId: Option<string>, eventName: Option<string>) {
    ToLower(Trim(x)) == Norm(eventId) || ToLower(Trim(x)) == Norm(eventName)
  }

  /** The first `stockByEvent` entry whose key names the event (`keys.find(...)`). */
  function FirstEventEntry(entries: seq<(string, int)>, eventId: Option<string>, eventName: Option<string>): (r: Option<(string, int)>)
    ensures r.Some? ==> r.value in entries && InCand(r.value.0, eventId, eventName)
    ensures r.None? ==> forall e :: e in entries ==> !InCand(e.0, eventId, eventName)
    ensures entries != [] && InCand(entries[0].0, eventId, eventName) ==> r == Some(entries[0])
    ensures entries != [] && !InCand(entries[0].0, eventId, eventName) ==> r == FirstEventEntry(entries[1..], eventId, eventName)
  {
    if entries == [] then None
    else if InCand(entries[0].0, eventId, eventName) then Some(entries[0])
    else FirstEventEntry(entries[1..], eventId, eventName)
  }

  /** The product's own `eventId` is set and names the selected event. */
  predicate OwnEventMatches(p: Product, eventId: Option<string>, eventName: Option<string>) {
    Truthy(p.eventId) && InCand(p.eventId.value, eventId, eventName)
  }

  /** `idOrNameMatches`. */
  predicate ForEvent(p: Product, eventId: Option<string>, eventName: Option<string>) {
    OwnEventMatches(p, eventId, eventName)
    || (p.stockByEvent.Some? && exists e :: e in p.stockByEvent.value && InCand(e.0, eventId, eventName))
  }

  /** A product passes the three filters; each applies only when its control is set. */
  predicate Shown(p: Product, eventId: Option<string>, eventName: Option<string>, category: string, search: string) {
    (Truthy(eventId) ==> ForEvent(p, eventId, eventName))
    && (category != "All" ==> Contains(ToLower(OrElse(p.category, "")), ToLower(category)))
    && (Trim(search) != "" ==>
          var q := ToLower(search);
          Contains(ToLower(p.name.GetOr("")), q) || Contains(ToLower(p.sku.GetOr("")), q)
          || Contains(ToLower(OrElse(p.category, "")), q))
  }

  /** The stock shown for a product while an event is selected. */
  function EventStock(p: Product, eventId: Option<string>, eventName: Option<string>): (s: int)
    ensures var e := FirstEventEntry(p.stockByEvent.GetOr([]), eventId, eventName);
            e.Some? && e.value.0 != "" ==> s == e.value.1
    ensures var e := FirstEventEntry(p.stockByEvent.GetOr([]), eventId, eventName);
            !(e.Some? && e.value.0 != "") && OwnEventMatches(p, eventId, eventName) ==> s == p.stock.GetOr(0)
    ensures !ForEvent(p, eventId, eventName) ==> s == 0
  {
    var e := FirstEventEntry(p.stockByEvent.GetOr([]), eventId, eventName);
    if e.Some? && e.value.0 != "" then e.value.1
    else if OwnEventMatches(p, eventId, eventName) then p.stock.GetOr(0)
    else 0
  }

  function WithEventStock(ps: seq<Product>, eventId: Option<string>, eventName: Option<string>): (r: seq<Product>)
    ensures |r| == |ps|
    ensures forall i :: 0 <= i < |ps| ==> r[i] == ps[i].(stock := Some(EventStock(ps[i], eventId, eventName)))
  {
    if ps == [] then [] else [ps[0].(stock := Some(EventStock(ps[0], eventId, eventName)))] + WithEventStock(ps[1..], eventId, eventName)
  }

  /** `displayedProducts`. */
  function Displayed(products: seq<Product>, eventId: Option<string>, eventName: Option<string>, category: string, search: string): seq<Product>
  {
    var list := Filter(products, (p: Product) => Shown(p, eventId, eventName, category, search));
    if Truthy(eventId) then WithEventStock(list, eventId, eventName) else list
  }

  /**
    The view lists, in catalogue order, exactly the products that pass the
    filters; with an event selected each carries its event stock.
  */
  lemma DisplayedFacts(products: seq<Product>, eventId: Option<string>, eventName: Option<string>, category: string, search: string)
    ensures var list := Filter(products, (p: Product) => Shown(p, eventId, eventName, category, search));
            SubSeq(list, products)
            && (forall p :: p in products ==> (p in list <==> Shown(p, eventId, eventName, category, search)))
            && (!Truthy(eventId) ==> Displayed(products, eventId, eventName, category, search) == list)
            && (Truthy(eventId) ==>
                  var d := Displayed(products, eventId, eventName, category, search);
                  |d| == |list| && forall i :: 0 <= i < |d| ==> d[i] == list[i].(stock := Some(EventStock(list[i], eventId, eventName))))
  {
    FilterSubSeq(products, (p: Product) => Shown(p, eventId, eventName, category, search));
    FilterMembers(products, (p: Product) => Shown(p, eventId, eventName, category, search));
  }

  /** With no event, category "All" and a blank search, every product is shown as it is. */
  lemma NoFiltersShowsAll(products: seq<Product>, eventName: Option<string>, search: string)
    requires Trim(search) == ""
    ensures Displayed(products, None, eventName, "All", search) == products
  {
    FilterAll(products, (p: Product) => Shown(p, None, eventName, "All", search));
  }

  // ---------------------------------------------------------------- cart

  datatype CartItem = CartItem(id: string, name: string, price: real, stock: int, quantity: int, sku: Option<string>)

  predicate HasLine(cart: seq<CartItem>, id: string) {
    exists i :: 0 <= i < |cart| && cart[i].id == id
  }

  predicate DistinctIds(cart: seq<CartItem>) {
    forall i, j :: 0 <= i < j < |cart| ==> cart[i].id != cart[j].id
  }

  predicate PositiveQuantities(cart: seq<CartItem>) {
    forall i :: 0 <= i < |cart| ==> cart[i].quantity >= 1
  }

  /** `cartItems.reduce((sum, item) => sum + item.price * item.quantity, 0)`. */
  function Subtotal(cart: seq<CartItem>): real
  {
    if cart == [] then 0.0 else cart[0].price * cart[0].quantity as real + Subtotal(cart[1..])
  }

  /** `cartItems.reduce((sum, item) => sum + item.quantity, 0)`. */
  function TotalItems(cart: seq<CartItem>): int
  {
    if cart == [] then 0 else cart[0].quantity + TotalItems(cart[1..])
  }

  /** `Math.max(0, subtotal - discount)`. */
  function Total(subtotal: real, discount: real): (t: real)
    ensures t >= 0.0
    ensures t >= subtotal - discount
    ensures discount >= 0.0 && subtotal >= 0.0 ==> t <= subtotal
  {
    MaxReal(0.0, subtotal - discount)
  }

  /** The discount field: `Number(value || 0)` clamped to `[0, subtotal]`; `None` is NaN, which becomes 0. */
  function ClampDiscount(input: Option<real>, subtotal: real): (d: real)
    ensures d >= 0.0
    ensures subtotal >= 0.0 ==> d <= subtotal
    ensures input.Some? && 0.0 <= input.value <= subtotal ==> d == input.value
    ensures input.None? ==> d == 0.0
  {
    if input.None? then 0.0 else MaxReal(0.0, MinReal(input.value, subtotal))
  }

  /** The line a new product gets. */
  function NewLine(p: Product): CartItem
    requires p.id.Some? && p.name.Some? && p.price.Some?
  {
    CartItem(p.id.value, p.name.value, p.price.value, p.stock.GetOr(0), 1, p.sku)
  }

  /** `cartItems.map(item => item.id === id ? {...item, quantity: item.quantity + 1} : item)`. */
  function Incremented(cart: seq<CartItem>, id: string): (r: seq<CartItem>)
    ensures |r| == |cart|
    ensures forall i :: 0 <= i < |cart| ==>
              r[i] == if cart[i].id == id then cart[i].(quantity := cart[i].quantity + 1) else cart[i]
  {
    if cart == [] then []
    else [if cart[0].id == id then cart[0].(quantity := cart[0].quantity + 1) else cart[0]] + Incremented(cart[1..], id)
  }

  /** The cart after `addToCart(p)`. */
  function Added(cart: seq<CartItem>, p: Product): seq<CartItem>
    requires p.id.Some? && p.name.Some? && p.price.Some?
  {
    if HasLine(cart, p.id.value) then Incremented(cart, p.id.value) else cart + [NewLine(p)]
  }

  /** The line for `id` after a quantity change. */
  function ChangedLine(item: CartItem, change: int): (r: CartItem)
    ensures r.quantity == MaxInt(1, MinInt(item.stock, item.quantity + change))
    ensures r.quantity >= 1
    ensures item.stock >= 1 ==> r.quantity <= item.stock
    ensures r == item.(quantity := r.quantity)
  {
    item.(quantity := MaxInt(1, MinInt(item.stock, item.quantity + change)))
  }

  function Rescaled(cart: seq<CartItem>, id: string, change: int): (r: seq<CartItem>)
    ensures |r| == |cart|
    ensures forall i :: 0 <= i < |cart| ==> r[i] == if cart[i].id == id then ChangedLine(cart[i], change) else cart[i]
  {
    if cart == [] then []
    else [if cart[0].id == id then ChangedLine(cart[0], change) else cart[0]] + Rescaled(cart[1..], id, change)
  }

  /** The cart after `updateQuantity(id, change)`: the map, then `filter(item => item.quantity > 0)`. */
  function Updated(cart: seq<CartItem>, id: string, change: int): seq<CartItem>
  {
    Filter(Rescaled(cart, id, change), (it: CartItem) => it.quantity > 0)
  }

  /** The cart after `removeFromCart(id)`. */
  function Removed(cart: seq<CartItem>, id: string): seq<CartItem>
  {
    Filter(cart, (it: CartItem) => it.id != id)
  }

  // ---------------------------------------------------------------- cart lemmas

  lemma {:induction false} SubtotalAppend(cart: seq<CartItem>, it: CartItem)
    ensures Subtotal(cart + [it]) == Subtotal(cart) + it.price * it.quantity as real
    ensures TotalItems(cart + [it]) == TotalItems(cart) + it.quantity
  {
    if cart != [] {
      assert (cart + [it])[1..] == cart[1..] + [it];
      SubtotalAppend(cart[1..], it);
    }
  }

  /** Raising the quantity of the one line with `id` adds its price once. */
  lemma {:induction false} IncrementedTotals(cart: seq<CartItem>, id: string, k: int)
    requires DistinctIds(cart) && 0 <= k < |cart| && cart[k].id == id
    ensures Subtotal(Incremented(cart, id)) == Subtotal(cart) + cart[k].price
    ensures TotalItems(Incremented(cart, id)) == TotalItems(cart) + 1
  {
    var r := Incremented(cart, id);
    assert r[1..] == Incremented(cart[1..], id);
    if k == 0 {
      IncrementedAbsent(cart[1..], id);
      assert r[0] == cart[0].(quantity := cart[0].quantity + 1);
      OneMoreUnit(cart[0].price, cart[0].quantity);
    } else {
      assert r[0] == cart[0];
      IncrementedTotals(cart[1..], id, k - 1);
    }
  }

  lemma OneMoreUnit(price: real, q: int)
    ensures price * (q + 1) as real == price * q as real + price
  {
  }

  lemma {:induction false} IncrementedAbsent(cart: seq<CartItem>, id: string)
    requires forall i :: 0 <= i < |cart| ==> cart[i].id != id
    ensures Incremented(cart, id) == cart
  {
    if cart != [] {
      IncrementedAbsent(cart[1..], id);
    }
  }

  /**
    `addToCart` raises the subtotal by the product's price and the item count by
    one, whether it adds a line or increments one.
  */
  lemma AddedTotals(cart: seq<CartItem>, p: Product)
    requires p.id.Some? && p.name.Some? && p.price.Some? && DistinctIds(cart)
    ensures Subtotal(Added(cart, p)) == Subtotal(cart) + (if HasLine(cart, p.id.value) then LinePrice(cart, p.id.value) else p.price.value)
    ensures TotalItems(Added(cart, p)) == TotalItems(cart) + 1
  {
    if HasLine(cart, p.id.value) {
      var k :| 0 <= k < |cart| && cart[k].id == p.id.value;
      IncrementedTotals(cart, p.id.value, k);
      LinePriceAt(cart, p.id.value, k);
    } else {
      SubtotalAppend(cart, NewLine(p));
    }
  }

  /** The price on the line with `id`. */
  function LinePrice(cart: seq<CartItem>, id: string): real
  {
    if cart == [] then 0.0 else if cart[0].id == id then cart[0].price else LinePrice(cart[1..], id)
  }

  lemma {:induction false} LinePriceAt(cart: seq<CartItem>, id: string, k: int)
    requires DistinctIds(cart) && 0 <= k < |cart| && cart[k].id == id
    ensures LinePrice(cart, id) == cart[k].price
  {
    if k > 0 {
      LinePriceAt(cart[1..], id, k - 1);
    }
  }

  /** `addToCart` keeps line ids distinct and quantities positive, and grows the cart only for a new product. */
  lemma AddedKeepsShape(cart: seq<CartItem>, p: Product)
    requires p.id.Some? && p.name.Some? && p.price.Some?
    requires DistinctIds(cart) && PositiveQuantities(cart)
    ensures DistinctIds(Added(cart, p)) && PositiveQuantities(Added(cart, p))
    ensures HasLine(Added(cart, p), p.id.value)
    ensures |Added(cart, p)| == |cart| + (if HasLine(cart, p.id.value) then 0 else 1)
    ensures forall i :: 0 <= i < |cart| && cart[i].id != p.id.value ==> Added(cart, p)[i] == cart[i]
  {
    var r := Added(cart, p);
    if !HasLine(cart, p.id.value) {
      assert r[|cart|].id == p.id.value;
    } else {
      var k :| 0 <= k < |cart| && cart[k].id == p.id.value;
      assert r[k].id == p.id.value;
    }
  }

  /**
    With positive quantities the filter after the map drops nothing, so
    `updateQuantity` changes only the line with `id`, to
    `max(1, min(stock, quantity + change))`.
  */
  lemma UpdatedFacts(cart: seq<CartItem>, id: string, change: int)
    requires DistinctIds(cart) && PositiveQuantities(cart)
    ensures Updated(cart, id, change) == Rescaled(cart, id, change)
    ensures DistinctIds(Updated(cart, id, change)) && PositiveQuantities(Updated(cart, id, change))
  {
    var r := Rescaled(cart, id, change);
    FilterAll(r, (it: CartItem) => it.quantity > 0);
  }

  /** Removing keeps every other line in order and leaves no line with `id`. */
  lemma RemovedFacts(cart: seq<CartItem>, id: string)
    requires DistinctIds(cart) && PositiveQuantities(cart)
    ensures !HasLine(Removed(cart, id), id)
    ensures SubSeq(Removed(cart, id), cart)
    ensures forall it :: it in cart ==> (it in Removed(cart, id) <==> it.id != id)
    ensures DistinctIds(Removed(cart, id)) && PositiveQuantities(Removed(cart, id))
  {
    var r := Removed(cart, id);
    FilterSubSeq(cart, (it: CartItem) => it.id != id);
    FilterMembers(cart, (it: CartItem) => it.id != id);
    forall i | 0 <= i < |r| ensures r[i].id != id {
      assert r[i] in r;
    }
    SubSeqDistinct(r, cart);
    forall i | 0 <= i < |r| ensures r[i].quantity >= 1 {
      assert r[i] in r;
    }
  }

  /** A sub-list of a cart with distinct ids has distinct ids. */
  lemma {:induction false} SubSeqDistinct(xs: seq<CartItem>, ys: seq<CartItem>)
    requires SubSeq(xs, ys) && DistinctIds(ys)
    ensures DistinctIds(xs)
    ensures forall x :: x in xs ==> x in ys
    decreases |ys|
  {
    if xs != [] {
      if xs[0] == ys[0] && SubSeq(xs[1..], ys[1..]) {
        SubSeqDistinct(xs[1..], ys[1..]);
        assert xs == [xs[0]] + xs[1..];
        forall j | 0 < j < |xs| ensures xs[0].id != xs[j].id {
          assert xs[j] == xs[1..][j - 1];
          assert xs[j] in ys[1..];
          var k :| 0 <= k < |ys[1..]| && ys[1..][k] == xs[j];
          assert ys[k + 1] == xs[j];
        }
        forall i, j | 0 < i < j < |xs| ensures xs[i].id != xs[j].id {
          assert xs[i] == xs[1..][i - 1] && xs[j] == xs[1..][j - 1];
        }
      } else {
        SubSeqDistinct(xs, ys[1..]);
      }
    }
  }

  // ---------------------------------------------------------------- the page state

  class Register {
    var cart: seq<CartItem>
    var discount: real

    /** A fresh page: empty cart, no discount. */
    constructor()
      ensures cart == [] && discount == 0.0
    {
      cart, discount := [], 0.0;
    }

    /** The cart has one line per product, each with a positive quantity. */
    predicate Valid()
      reads this
    {
      DistinctIds(cart) && PositiveQuantities(cart)
    }

    /** `addToCart(product)`. */
    method AddToCart(product: Product)
      requires product.id.Some? && product.name.Some? && product.price.Some?
      requires Valid()
      modifies this
      ensures Valid()
      ensures cart == Added(old(cart), product) && discount == old(discount)
      ensures Subtotal(cart) == Subtotal(old(cart)) + (if HasLine(old(cart), product.id.value) then LinePrice(old(cart), product.id.value) else product.price.value)
    {
      AddedKeepsShape(cart, product);
      AddedTotals(cart, product);
      if HasLine(cart, product.id.value) {
        cart := Incremented(cart, product.id.value);
      } else {
        cart := cart + [NewLine(product)];
      }
    }

    /** `updateQuantity(id, change)`. */
    method UpdateQuantity(id: string, change: int)
      requires Valid()
      modifies this
      ensures Valid()
      ensures cart == Updated(old(cart), id, change) && discount == old(discount)
      ensures |cart| == |old(cart)|
      ensures forall i :: 0 <= i < |cart| ==>
                cart[i] == if old(cart)[i].id == id then ChangedLine(old(cart)[i], change) else old(cart)[i]
    {
      UpdatedFacts(cart, id, change);
      cart := Filter(Rescaled(cart, id, change), (it: CartItem) => it.quantity > 0);
    }

    /** `removeFromCart(id)`. */
    method RemoveFromCart(id: string)
      requires Valid()
      modifies this
      ensures Valid()
      ensures cart == Removed(old(cart), id) && discount == old(discount)
      ensures !HasLine(cart, id) && SubSeq(cart, old(cart))
    {
      RemovedFacts(cart, id);
      cart := Filter(cart, (it: CartItem) => it.id != id);
    }

    /** The discount input's `onChange`. */
    method SetDiscount(input: Option<real>)
      modifies this
      ensures discount == ClampDiscount(input, Subtotal(cart)) && cart == old(cart)
    {
      var subtotal := Subtotal(cart);
      if input.None? {
        discount := 0.0;
      } else {
        discount := MaxReal(0.0, MinReal(input.value, subtotal));
      }
    }

    /**
      `checkout()`: nothing happens on an empty cart; otherwise the lines become
      the transaction items, and a successful create empties the cart and resets
      the discount. `recorded` is what the transaction service answered.
    */
    method Checkout(eventId: Option<string>, paymentMethod: string, cashier: Option<string>, recorded: bool)
      returns (sent: Option<TransactionService.Transaction>)
      modifies this
      ensures old(cart) == [] ==> sent.None? && cart == old(cart) && discount == old(discount)
      ensures old(cart) != [] ==> sent.Some?
      ensures sent.Some? ==> |sent.value.items| == |old(cart)|
                             && (forall i :: 0 <= i < |old(cart)| ==> sent.value.items[i] == ItemOf(old(cart)[i]))
                             && sent.value.eventId == eventId
                             && sent.value.subtotal == Subtotal(old(cart))
                             && sent.value.total == Total(Subtotal(old(cart)), old(discount))
                             && sent.value.cashier == Some(OrElse(cashier, ""))
      ensures sent.Some? && recorded ==> cart == [] && discount == 0.0
      ensures sent.Some? && !recorded ==> cart == old(cart) && discount == old(discount)
    {
      if |cart| == 0 {
        return None;
      }
      var items := ItemsOf(cart);
      var subtotal := Subtotal(cart);
      sent := Some(TransactionService.Transaction(None, eventId, items, subtotal, Total(subtotal, discount),
                                                  Some(paymentMethod), Some(OrElse(cashier, "")), None));
      if recorded {
        cart := [];
        discount := 0.0;
      }
    }
  }

  /** The transaction item for one cart line. */
  function ItemOf(it: CartItem): TransactionService.Item
  {
    TransactionService.Item(it.id, it.name, it.price, it.quantity, it.sku)
  }

  function ItemsOf(cart: seq<CartItem>): (items: seq<TransactionService.Item>)
    ensures |items| == |cart|
    ensures forall i :: 0 <= i < |cart| ==> items[i] == ItemOf(cart[i])
  {
    if cart == [] then [] else [ItemOf(cart[0])] + ItemsOf(cart[1..])
  }
}
