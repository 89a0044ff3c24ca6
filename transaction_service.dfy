/**
  The checkout service (`src/services/transactionService.ts`): recording a sale
  writes the transaction, then for each line either lowers the product's stock
  through the stock endpoint (no event selected) or lowers its per-event stock,
  and logs one "sale" movement per line. The transactions of one event are read
  back with `TransactionsByEvent`.
*/
module TransactionService {
  import opened Common
  import opened Catalog
  import BackendProductRoutes

  datatype Item = Item(productId: string, name: string, price: real, quantity: int, sku: Option<string>)

  datatype Transaction = Transaction(
    id: Option<string>,
    eventId: Option<string>,
    items: seq<Item>,
    subtotal: real,
    total: real,
    paymentMethod: Option<string>,
    cashier: Option<string>,
    createdAt: Option<string>)

  /** A stock movement logged under a product. */
  datatype Movement = Movement(productId: string, kind: string, qty: int, eventId: Option<string>, note: string)

  datatype CreateReply = CreateReply(success: bool, id: Option<string>, message: string)

  const Recorded := "Transaction recorded"
  const NotRecorded := "Failed to record transaction"

  // ---------------------------------------------------------------- per-line effects

  /** The stock the product has for the sale: `product?.stock ?? 0`. */
  function CurrentStock(m: Table, productId: string): int
  {
    if productId in m && m[productId].stock.Some? then m[productId].stock.value else 0
  }

  /**
    One line without an event: read the stock, write `max(0, stock - quantity)`
    through the stock endpoint (which answers 404 and changes nothing when the
    product is gone).
  */
  function SellFromStock(m: Table, it: Item, now: string): (m': Table)
    ensures m'.Keys == m.Keys
    ensures it.productId in m ==> m'[it.productId].stock == Some(MaxInt(0, CurrentStock(m, it.productId) - it.quantity))
    ensures forall k :: k in m && k != it.productId ==> m'[k] == m[k]
  {
    var next := MaxInt(0, CurrentStock(m, it.productId) - it.quantity);
    BackendProductRoutes.PatchStockSpec(m, it.productId, Some(next), now).table
  }

  /** All lines without an event, in order. */
  function SellAll(m: Table, items: seq<Item>, now: string): (m': Table)
    ensures m'.Keys == m.Keys
  {
    if items == [] then m else SellFromStock(SellAll(m, items[..|items| - 1], now), items[|items| - 1], now)
  }

  /** Selling every line changes no SKU, so SKUs stay unique. */
  lemma {:induction false} SellAllSkuUnique(m: Table, items: seq<Item>, now: string)
    requires SkuUnique(m)
    ensures SkuUnique(SellAll(m, items, now))
  {
    if items != [] {
      var m0 := SellAll(m, items[..|items| - 1], now);
      var it := items[|items| - 1];
      SellAllSkuUnique(m, items[..|items| - 1], now);
      var next := MaxInt(0, CurrentStock(m0, it.productId) - it.quantity);
      BackendProductRoutes.PatchStockKeepsSkuUnique(m0, it.productId, Some(next), now);
    }
  }

  /** A sale never leaves a stock negative, and touches only the products it sells. */
  lemma {:induction false} SellAllStock(m: Table, items: seq<Item>, now: string, k: string)
    requires k in m
    ensures var m' := SellAll(m, items, now);
            (forall i :: 0 <= i < |items| ==> items[i].productId != k) ==> m'[k] == m[k]
    ensures var m' := SellAll(m, items, now);
            (exists i :: 0 <= i < |items| && items[i].productId == k) ==> m'[k].stock.Some? && m'[k].stock.value >= 0
  {
    if items != [] {
      var init := items[..|items| - 1];
      var last := items[|items| - 1];
      var m0 := SellAll(m, init, now);
      SellAllStock(m, init, now, k);
      assert SellAll(m, items, now) == SellFromStock(m0, last, now);
      assert forall i :: 0 <= i < |init| ==> init[i] == items[i];
      if last.productId != k {
        assert SellAll(m, items, now)[k] == m0[k];
        if exists i :: 0 <= i < |items| && items[i].productId == k {
          var i :| 0 <= i < |items| && items[i].productId == k;
          assert init[i].productId == k;
        }
      }
    }
  }

  /** One sale of `qty` from a product with `s >= 0` units leaves `max(0, s - qty)`, never below 0. */
  lemma SellOneLine(m: Table, it: Item, now: string)
    requires it.productId in m
    ensures var s := SellFromStock(m, it, now)[it.productId].stock.value;
            s >= 0 && (it.quantity <= CurrentStock(m, it.productId) ==> s == CurrentStock(m, it.productId) - it.quantity)
            && (it.quantity >= CurrentStock(m, it.productId) ==> s == 0)
  {
  }

  type EventStock = map<(string, string), int>

  /** `updateEventStock(productId, eventId, -quantity)`: the per-event count goes down by the quantity. */
  function SellFromEvent(es: EventStock, it: Item, eventId: string): (es': EventStock)
    ensures es'.Keys == es.Keys + {(it.productId, eventId)}
    ensures es'[(it.productId, eventId)] == (if (it.productId, eventId) in es then es[(it.productId, eventId)] else 0) - it.quantity
    ensures forall k :: k in es && k != (it.productId, eventId) ==> es'[k] == es[k]
  {
    var key := (it.productId, eventId);
    es[key := (if key in es then es[key] else 0) - it.quantity]
  }

  function SellAllFromEvent(es: EventStock, items: seq<Item>, eventId: string): EventStock
  {
    if items == [] then es else SellFromEvent(SellAllFromEvent(es, items[..|items| - 1], eventId), items[|items| - 1], eventId)
  }

  /** The movement logged for one line. */
  function SaleMovement(it: Item, eventId: Option<string>): (mv: Movement)
    ensures mv.kind == "sale" && mv.note == "POS checkout" && mv.qty == it.quantity
    ensures mv.productId == it.productId && mv.eventId == eventId
  {
    Movement(it.productId, "sale", it.quantity, eventId, "POS checkout")
  }

  /** The movements a checkout logs: one per line, in line order. */
  function SaleMovements(items: seq<Item>, eventId: Option<string>): (mvs: seq<Movement>)
    ensures |mvs| == |items|
    ensures forall i :: 0 <= i < |items| ==> mvs[i] == SaleMovement(items[i], eventId)
  {
    if items == [] then [] else SaleMovements(items[..|items| - 1], eventId) + [SaleMovement(items[|items| - 1], eventId)]
  }

  // ---------------------------------------------------------------- per-line outcomes

  /**
    What the calls made for one line answer. `getProductById` and `updateStock`
    catch their own errors (answering `null` and `{success: false}`), so a line
    without an event can only see an unread product or a refused write; the
    per-event call and the movement call are not defined in the product
    service shown and may throw. An outcome that belongs to the other branch
    leaves the line's stock as an answered call does on an event line, and as a
    refused write does on a line without one.
  */
  datatype LineOutcome =
    | Answered          // every call of the line succeeds
    | ProductUnread     // `getProductById` answers null, so the stock is read as 0
    | StockRefused      // `updateStock` answers `{success: false}`, which `create` ignores
    | EventStockThrows  // `updateEventStock` throws before anything changes
    | MovementThrows    // `recordStockMovement` throws, after the stock call

  /** The line's promise rejects, so `Promise.all` rejects and `create` reports failure. */
  predicate Throws(o: LineOutcome)
  {
    o.EventStockThrows? || o.MovementThrows?
  }

  predicate AnyThrows(outcomes: seq<LineOutcome>)
  {
    exists i :: 0 <= i < |outcomes| && Throws(outcomes[i])
  }

  /** A line appended to the outcomes makes the checkout fail exactly when it or an earlier line throws. */
  lemma AnyThrowsSnoc(outcomes: seq<LineOutcome>, o: LineOutcome)
    ensures AnyThrows(outcomes + [o]) <==> AnyThrows(outcomes) || Throws(o)
  {
    assert (outcomes + [o])[|outcomes|] == o;
    if AnyThrows(outcomes) {
      var i :| 0 <= i < |outcomes| && Throws(outcomes[i]);
      assert (outcomes + [o])[i] == outcomes[i];
    }
    if AnyThrows(outcomes + [o]) {
      var i :| 0 <= i < |outcomes| + 1 && Throws((outcomes + [o])[i]);
      if i < |outcomes| {
        assert (outcomes + [o])[i] == outcomes[i];
      }
    }
  }

  /**
    The product table after one line without an event: an unread product is
    taken to hold 0 units, so its stock is written as `max(0, 0 - quantity)`;
    a refused write changes nothing.
  */
  function LineTable(m: Table, it: Item, o: LineOutcome, now: string): (m': Table)
    ensures m'.Keys == m.Keys
    ensures o.StockRefused? || o.EventStockThrows? ==> m' == m
    ensures (o.Answered? || o.MovementThrows?) ==> m' == SellFromStock(m, it, now)
    ensures o.ProductUnread? && it.productId in m ==> m'[it.productId].stock == Some(MaxInt(0, -it.quantity))
    ensures forall k :: k in m && k != it.productId ==> m'[k] == m[k]
  {
    match o
    case ProductUnread => BackendProductRoutes.PatchStockSpec(m, it.productId, Some(MaxInt(0, -it.quantity)), now).table
    case StockRefused => m
    case EventStockThrows => m
    case _ => SellFromStock(m, it, now)
  }

  /** A product whose read failed loses its whole stock to a sale of any non-negative quantity. */
  lemma UnreadProductZeroed(m: Table, it: Item, now: string)
    requires it.productId in m && it.quantity >= 0
    ensures LineTable(m, it, ProductUnread, now)[it.productId].stock == Some(0)
    ensures LineTable(m, it, ProductUnread, now)[it.productId].status == Some("Out of Stock")
  {
    BackendProductRoutes.PatchStockCouplesStatus(m, it.productId, Some(0), now);
  }

  /** The per-event count after one line: unchanged when the per-event call throws. */
  function LineEvents(es: EventStock, it: Item, eventId: string, o: LineOutcome): EventStock
  {
    if o.EventStockThrows? then es else SellFromEvent(es, it, eventId)
  }

  /** The movement one line logs: none when one of its calls throws. */
  function LineLog(it: Item, eventId: Option<string>, o: LineOutcome): seq<Movement>
  {
    if Throws(o) then [] else [SaleMovement(it, eventId)]
  }

  /** All lines without an event, each with its outcome. */
  function SellAllAs(m: Table, items: seq<Item>, outcomes: seq<LineOutcome>, now: string): (m': Table)
    requires |outcomes| == |items|
    ensures m'.Keys == m.Keys
  {
    if items == [] then m
    else LineTable(SellAllAs(m, items[..|items| - 1], outcomes[..|items| - 1], now), items[|items| - 1], outcomes[|items| - 1], now)
  }

  /** All lines with an event, each with its outcome. */
  function SellAllFromEventAs(es: EventStock, items: seq<Item>, outcomes: seq<LineOutcome>, eventId: string): EventStock
    requires |outcomes| == |items|
  {
    if items == [] then es
    else LineEvents(SellAllFromEventAs(es, items[..|items| - 1], outcomes[..|items| - 1], eventId), items[|items| - 1], eventId, outcomes[|items| - 1])
  }

  /** The movements all lines log, each with its outcome. */
  function LogAs(items: seq<Item>, outcomes: seq<LineOutcome>, eventId: Option<string>): seq<Movement>
    requires |outcomes| == |items|
  {
    if items == [] then []
    else LogAs(items[..|items| - 1], outcomes[..|items| - 1], eventId) + LineLog(items[|items| - 1], eventId, outcomes[|items| - 1])
  }

  /** With every call answered, the lines have exactly the sale's intended effects. */
  lemma {:induction false} AnsweredIsSale(m: Table, es: EventStock, items: seq<Item>, outcomes: seq<LineOutcome>,
                                          eventId: Option<string>, now: string)
    requires |outcomes| == |items| && forall i :: 0 <= i < |outcomes| ==> outcomes[i].Answered?
    ensures SellAllAs(m, items, outcomes, now) == SellAll(m, items, now)
    ensures Truthy(eventId) ==> SellAllFromEventAs(es, items, outcomes, eventId.value) == SellAllFromEvent(es, items, eventId.value)
    ensures LogAs(items, outcomes, eventId) == SaleMovements(items, eventId)
  {
    if items != [] {
      var n := |items| - 1;
      AnsweredIsSale(m, es, items[..n], outcomes[..n], eventId, now);
    }
  }

  /** One movement per line exactly when no line throws; never more than one per line. */
  lemma {:induction false} LogAsCount(items: seq<Item>, outcomes: seq<LineOutcome>, eventId: Option<string>)
    requires |outcomes| == |items|
    ensures |LogAs(items, outcomes, eventId)| <= |items|
    ensures |LogAs(items, outcomes, eventId)| == |items| <==> !AnyThrows(outcomes)
    ensures !AnyThrows(outcomes) ==> LogAs(items, outcomes, eventId) == SaleMovements(items, eventId)
  {
    if items != [] {
      var n := |items| - 1;
      LogAsCount(items[..n], outcomes[..n], eventId);
      assert outcomes == outcomes[..n] + [outcomes[n]];
      AnyThrowsSnoc(outcomes[..n], outcomes[n]);
    }
  }

  /** Whatever the calls answer, the lines change no SKU, so SKUs stay unique. */
  lemma {:induction false} SellAllAsSkuUnique(m: Table, items: seq<Item>, outcomes: seq<LineOutcome>, now: string)
    requires |outcomes| == |items| && SkuUnique(m)
    ensures SkuUnique(SellAllAs(m, items, outcomes, now))
  {
    if items != [] {
      var n := |items| - 1;
      var m0 := SellAllAs(m, items[..n], outcomes[..n], now);
      SellAllAsSkuUnique(m, items[..n], outcomes[..n], now);
      var it := items[n];
      match outcomes[n]
      case ProductUnread =>
        BackendProductRoutes.PatchStockKeepsSkuUnique(m0, it.productId, Some(MaxInt(0, -it.quantity)), now);
      case StockRefused =>
      case EventStockThrows =>
      case _ =>
        var next := MaxInt(0, CurrentStock(m0, it.productId) - it.quantity);
        BackendProductRoutes.PatchStockKeepsSkuUnique(m0, it.productId, Some(next), now);
    }
  }

  // ---------------------------------------------------------------- the store

  class TransactionStore {
    var transactions: map<string, Transaction>
    var products: Table
    var eventStock: EventStock
    var movements: seq<Movement>

    constructor(txs: map<string, Transaction>, m: Table, es: EventStock, mvs: seq<Movement>)
      ensures transactions == txs && products == m && eventStock == es && movements == mvs
    {
      transactions, products, eventStock, movements := txs, m, es, mvs;
    }

    /**
      `create(transaction)`: `key` is the fresh push key, `now` the clock,
      `writeFails` says that the first database write throws, in which case
      nothing is written and the failure message is returned, and `outcomes`
      gives what each line's calls answer. The lines run one after another;
      every line takes effect even when another one throws, as the promises
      `Promise.all` waits for are all started, but then failure is reported
      although the transaction is stored.
    */
    method Create(t: Transaction, key: string, now: string, writeFails: bool, outcomes: seq<LineOutcome>)
      returns (r: CreateReply)
      requires key !in transactions && |outcomes| == |t.items|
      modifies this
      ensures writeFails ==> r == CreateReply(false, None, NotRecorded)
                             && transactions == old(transactions) && products == old(products)
                             && eventStock == old(eventStock) && movements == old(movements)
      ensures !writeFails ==> r == if AnyThrows(outcomes) then CreateReply(false, None, NotRecorded)
                                   else CreateReply(true, Some(key), Recorded)
      ensures !writeFails ==> transactions == old(transactions)[key := t.(createdAt := Some(now))]
      ensures !writeFails && Truthy(t.eventId) ==>
                products == old(products) && eventStock == SellAllFromEventAs(old(eventStock), t.items, outcomes, t.eventId.value)
      ensures !writeFails && !Truthy(t.eventId) ==>
                products == SellAllAs(old(products), t.items, outcomes, now) && eventStock == old(eventStock)
      ensures !writeFails ==> movements == old(movements) + LogAs(t.items, outcomes, t.eventId)
    {
      if writeFails {
        return CreateReply(false, None, NotRecorded);
      }
      transactions := transactions[key := t.(createdAt := Some(now))];
      var items := t.items;
      var thrown := false;
      for i := 0 to |items|
        invariant Truthy(t.eventId) ==>
                    products == old(products) && eventStock == SellAllFromEventAs(old(eventStock), items[..i], outcomes[..i], t.eventId.value)
        invariant !Truthy(t.eventId) ==> products == SellAllAs(old(products), items[..i], outcomes[..i], now) && eventStock == old(eventStock)
        invariant movements == old(movements) + LogAs(items[..i], outcomes[..i], t.eventId)
        invariant transactions == old(transactions)[key := t.(createdAt := Some(now))]
        invariant thrown <==> AnyThrows(outcomes[..i])
      {
        assert items[..i + 1][..i] == items[..i];
        assert outcomes[..i + 1][..i] == outcomes[..i];
        SellLine(items[i], t.eventId, now, outcomes[i]);
        assert outcomes[..i + 1] == outcomes[..i] + [outcomes[i]];
        AnyThrowsSnoc(outcomes[..i], outcomes[i]);
        if Throws(outcomes[i]) {
          thrown := true;
        }
      }
      assert items[..|items|] == items;
      assert outcomes[..|items|] == outcomes;
      r := if thrown then CreateReply(false, None, NotRecorded) else CreateReply(true, Some(key), Recorded);
    }

    /** The work for one line: lower the per-event or the product stock, then log the sale. */
    method SellLine(it: Item, eventId: Option<string>, now: string, o: LineOutcome)
      modifies this
      ensures transactions == old(transactions)
      ensures Truthy(eventId) ==> products == old(products) && eventStock == LineEvents(old(eventStock), it, eventId.value, o)
      ensures !Truthy(eventId) ==> products == LineTable(old(products), it, o, now) && eventStock == old(eventStock)
      ensures movements == old(movements) + LineLog(it, eventId, o)
    {
      if Truthy(eventId) {
        eventStock := LineEvents(eventStock, it, eventId.value, o);
      } else {
        products := LineTable(products, it, o, now);
      }
      movements := movements + LineLog(it, eventId, o);
    }
  }

  // ---------------------------------------------------------------- as written

  /** What one `create` call leaves behind. */
  datatype Written = Written(reply: CreateReply, transactions: map<string, Transaction>, products: Table, movements: seq<Movement>)

  /**
    `create` as the service is written: `productService` has no `updateEventStock`
    and no `recordStockMovement`, so the first line with an event throws before
    any stock change, and without an event every line still lowers its stock and
    then throws. The transaction itself is already stored when the error is caught.
  */
  function CreateAsWritten(txs: map<string, Transaction>, m: Table, mvs: seq<Movement>, t: Transaction, key: string, now: string): (w: Written)
    ensures w.transactions == txs[key := t.(createdAt := Some(now))]
    ensures w.movements == mvs
    ensures t.items == [] <==> w.reply.success
  {
    var stored := txs[key := t.(createdAt := Some(now))];
    if t.items == [] then Written(CreateReply(true, Some(key), Recorded), stored, m, mvs)
    else if Truthy(t.eventId) then Written(CreateReply(false, None, NotRecorded), stored, m, mvs)
    else Written(CreateReply(false, None, NotRecorded), stored, SellAll(m, t.items, now), mvs)
  }

  /**
    Every sale with at least one line is reported as not recorded although the
    transaction was stored, and no movement is logged; the service that defines
    the two calls records it and logs one movement per line.
  */
  lemma CheckoutReportedAsFailed(txs: map<string, Transaction>, m: Table, mvs: seq<Movement>, t: Transaction, key: string, now: string)
    requires t.items != [] && key !in txs
    ensures var w := CreateAsWritten(txs, m, mvs, t, key, now);
            !w.reply.success && w.reply.message == NotRecorded && key in w.transactions
            && |w.movements| == |mvs| < |mvs| + |SaleMovements(t.items, t.eventId)|
  {
  }

  // ---------------------------------------------------------------- reading

  /** `{...t, id}`: the key always wins. */
  function TxWithId(key: string, t: Transaction): Transaction
  {
    t.(id := Some(key))
  }

  /** `Object.entries(obj).map(([id, t]) => ({...t, id}))` in entry order. */
  function AllTransactions(txs: map<string, Transaction>, order: seq<string>): (r: seq<Transaction>)
    requires forall k :: k in order ==> k in txs
    ensures |r| == |order|
    ensures forall i :: 0 <= i < |order| ==> r[i] == TxWithId(order[i], txs[order[i]])
  {
    if order == [] then [] else AllTransactions(txs, order[..|order| - 1]) + [TxWithId(order[|order| - 1], txs[order[|order| - 1]])]
  }

  /** `getTransactionsByEvent(eventId)`: the transactions whose `eventId ?? null` is `eventId`. */
  function TransactionsByEvent(txs: map<string, Transaction>, order: seq<string>, eventId: string): (r: seq<Transaction>)
    requires forall k :: k in order ==> k in txs
    ensures SubSeq(r, AllTransactions(txs, order))
    ensures forall t :: t in r ==> t.eventId == Some(eventId) && t.id.Some? && t.id.value in txs
  {
    FilterSubSeq(AllTransactions(txs, order), (t: Transaction) => t.eventId == Some(eventId));
    FilterMembers(AllTransactions(txs, order), (t: Transaction) => t.eventId == Some(eventId));
    Filter(AllTransactions(txs, order), (t: Transaction) => t.eventId == Some(eventId))
  }

  /** A stored transaction of that event is returned. */
  lemma TransactionsByEventComplete(txs: map<string, Transaction>, order: seq<string>, eventId: string, i: int)
    requires forall k :: k in order ==> k in txs
    requires 0 <= i < |order| && txs[order[i]].eventId == Some(eventId)
    ensures TxWithId(order[i], txs[order[i]]) in TransactionsByEvent(txs, order, eventId)
  {
    assert AllTransactions(txs, order)[i] == TxWithId(order[i], txs[order[i]]);
    FilterMembers(AllTransactions(txs, order), (t: Transaction) => t.eventId == Some(eventId));
  }
}
