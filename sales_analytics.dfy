/**
  The sales analytics page (`src/pages/dashboard/SalesAnalytics.tsx`): the
  transactions of the selected event, and three aggregations over them — the
  headline totals, the ten best-selling products by revenue, and units sold per
  clock hour.
*/
module SalesAnalytics {
  import opened Common
  import opened TransactionService

  /** The listener's filter: with an event selected, the transactions whose `eventId ?? null` is it. */
  function Selected(list: seq<Transaction>, currentEventId: Option<string>): (r: seq<Transaction>)
    ensures !Truthy(currentEventId) ==> r == list
    ensures Truthy(currentEventId) ==> forall t :: t in r <==> t in list && t.eventId == currentEventId
    ensures SubSeq(r, list)
  {
    FilterSubSeq(list, (t: Transaction) => t.eventId == currentEventId);
    FilterMembers(list, (t: Transaction) => t.eventId == currentEventId);
    SubSeqRefl(list);
    if Truthy(currentEventId) then Filter(list, (t: Transaction) => t.eventId == currentEventId) else list
  }

  // ---------------------------------------------------------------- totals

  /** Every item of every transaction, in order. */
  function Flatten(txns: seq<Transaction>): seq<Item>
  {
    if txns == [] then [] else Flatten(txns[..|txns| - 1]) + txns[|txns| - 1].items
  }

  /** Units in a list of items. */
  function Units(items: seq<Item>): int
  {
    if items == [] then 0 else Units(items[..|items| - 1]) + items[|items| - 1].quantity
  }

  /** The product ids seen in a list of items. */
  function ProductIds(items: seq<Item>): set<string>
  {
    if items == [] then {} else ProductIds(items[..|items| - 1]) + {items[|items| - 1].productId}
  }

  /** The ids collected are exactly those of the items. */
  lemma {:induction false} ProductIdsMembers(items: seq<Item>, id: string)
    ensures id in ProductIds(items) <==> exists j :: 0 <= j < |items| && items[j].productId == id
  {
    if items != [] {
      var init := items[..|items| - 1];
      ProductIdsMembers(init, id);
      assert forall j :: 0 <= j < |init| ==> init[j] == items[j];
    }
  }

  lemma ItemSnoc(xs: seq<Item>, x: Item)
    ensures Units(xs + [x]) == Units(xs) + x.quantity
    ensures ProductIds(xs + [x]) == ProductIds(xs) + {x.productId}
  {
    assert (xs + [x])[..|xs|] == xs;
  }

  lemma TallySnoc(xs: seq<Item>, x: Item)
    ensures Tally(xs + [x]) == Record(Tally(xs), x)
  {
    assert (xs + [x])[..|xs|] == xs;
  }

  /** `Σ Number(t.total || 0)`. */
  function Amount(txns: seq<Transaction>): real
  {
    if txns == [] then 0.0 else Amount(txns[..|txns| - 1]) + txns[|txns| - 1].total
  }

  /** `totalAmount / totalTransactions`, 0 for no transactions. */
  function Average(txns: seq<Transaction>): (avg: real)
    ensures txns == [] ==> avg == 0.0
    ensures txns != [] ==> avg * |txns| as real == Amount(txns)
  {
    if txns == [] then 0.0 else Amount(txns) / |txns| as real
  }

  /**
    The `totals` memo: units sold, the average transaction and the number of
    distinct product ids, accumulated over every item of every transaction.
  */
  method Totals(txns: seq<Transaction>) returns (itemsSold: int, avgTransaction: real, productsSold: nat)
    ensures itemsSold == Units(Flatten(txns))
    ensures avgTransaction == Average(txns)
    ensures productsSold == |ProductIds(Flatten(txns))|
  {
    var total := 0.0;
    itemsSold := 0;
    var productIds: set<string> := {};
    for i := 0 to |txns|
      invariant total == Amount(txns[..i])
      invariant itemsSold == Units(Flatten(txns[..i]))
      invariant productIds == ProductIds(Flatten(txns[..i]))
    {
      assert txns[..i + 1][..i] == txns[..i];
      itemsSold, productIds := CountItems(itemsSold, productIds, Flatten(txns[..i]), txns[i].items);
      total := total + txns[i].total;
    }
    assert txns[..|txns|] == txns;
    productsSold := |productIds|;
    avgTransaction := if |txns| > 0 then total / |txns| as real else 0.0;
  }

  /** The inner `forEach` of `totals` over one transaction's items. */
  method CountItems(sold0: int, ids0: set<string>, ghost before: seq<Item>, items: seq<Item>)
    returns (sold: int, ids: set<string>)
    requires sold0 == Units(before) && ids0 == ProductIds(before)
    ensures sold == Units(before + items) && ids == ProductIds(before + items)
  {
    sold, ids := sold0, ids0;
    assert before + items[..0] == before;
    for j := 0 to |items|
      invariant sold == Units(before + items[..j])
      invariant ids == ProductIds(before + items[..j])
    {
      assert before + items[..j + 1] == (before + items[..j]) + [items[j]];
      ItemSnoc(before + items[..j], items[j]);
      sold := sold + items[j].quantity;
      ids := ids + {items[j].productId};
    }
    assert items[..|items|] == items;
  }

  // ---------------------------------------------------------------- product sales

  /** One entry of the per-product map. */
  datatype Sale = Sale(id: string, product: string, sales: int, revenue: real)

  /** The index of the entry for `id`, or -1. */
  function IndexOf(tally: seq<Sale>, id: string): (k: int)
    ensures -1 <= k < |tally|
    ensures k >= 0 ==> tally[k].id == id
    ensures k < 0 ==> forall i :: 0 <= i < |tally| ==> tally[i].id != id
  {
    if tally == [] then -1
    else if tally[|tally| - 1].id == id then |tally| - 1
    else IndexOf(tally[..|tally| - 1], id)
  }

  /** One item added to the map: a new entry named `String(it.name || id)`, or the sums raised. */
  function Record(tally: seq<Sale>, it: Item): seq<Sale>
  {
    var k := IndexOf(tally, it.productId);
    var amt := it.price * it.quantity as real;
    if k < 0 then tally + [Sale(it.productId, if it.name != "" then it.name else it.productId, it.quantity, amt)]
    else tally[k := tally[k].(sales := tally[k].sales + it.quantity, revenue := tally[k].revenue + amt)]
  }

  /** `Object.values(map)` after every item is recorded, in first-seen order. */
  function Tally(items: seq<Item>): seq<Sale>
  {
    if items == [] then [] else Record(Tally(items[..|items| - 1]), items[|items| - 1])
  }

  /** Units of `id` in a list of items. */
  function UnitsFor(items: seq<Item>, id: string): int
  {
    if items == [] then 0
    else UnitsFor(items[..|items| - 1], id) + (if items[|items| - 1].productId == id then items[|items| - 1].quantity else 0)
  }

  /** Revenue of `id` in a list of items. */
  function RevenueFor(items: seq<Item>, id: string): real
  {
    if items == [] then 0.0
    else
      var it := items[|items| - 1];
      RevenueFor(items[..|items| - 1], id) + (if it.productId == id then it.price * it.quantity as real else 0.0)
  }

  predicate DistinctSales(tally: seq<Sale>) {
    forall i, j :: 0 <= i < j < |tally| ==> tally[i].id != tally[j].id
  }

  predicate HasSale(tally: seq<Sale>, id: string) {
    exists i :: 0 <= i < |tally| && tally[i].id == id
  }

  /** Recording an item raises the sums of its product's entry, or appends one, and nothing else. */
  lemma RecordFacts(t0: seq<Sale>, it: Item)
    requires DistinctSales(t0)
    ensures var t := Record(t0, it);
            var k := IndexOf(t0, it.productId);
            |t| == |t0| + (if k < 0 then 1 else 0)
            && DistinctSales(t)
            && (forall i :: 0 <= i < |t0| ==> t[i].id == t0[i].id)
            && (k < 0 ==> t[|t0|].id == it.productId && t[|t0|].sales == it.quantity
                          && t[|t0|].revenue == it.price * it.quantity as real)
            && (forall i :: 0 <= i < |t0| ==>
                  t[i].sales == t0[i].sales + (if t0[i].id == it.productId then it.quantity else 0)
                  && t[i].revenue == t0[i].revenue + (if t0[i].id == it.productId then it.price * it.quantity as real else 0.0))
  {
  }

  /** A product that was never sold has no units and no revenue. */
  lemma {:induction false} AbsentSums(items: seq<Item>, id: string)
    requires id !in ProductIds(items)
    ensures UnitsFor(items, id) == 0 && RevenueFor(items, id) == 0.0
  {
    if items != [] {
      var init := items[..|items| - 1];
      assert forall j :: 0 <= j < |init| ==> init[j] == items[j];
      AbsentSums(init, id);
    }
  }

  /** After recording an item the map has an entry for its product, and for every product it had. */
  lemma RecordHasSale(t0: seq<Sale>, it: Item, id: string)
    requires DistinctSales(t0)
    ensures HasSale(Record(t0, it), id) <==> HasSale(t0, id) || id == it.productId
    ensures |Record(t0, it)| == |t0| + (if HasSale(t0, it.productId) then 0 else 1)
  {
    RecordFacts(t0, it);
    var t := Record(t0, it);
    if HasSale(t0, id) {
      var i :| 0 <= i < |t0| && t0[i].id == id;
      assert t[i].id == id;
    }
    if HasSale(t, id) && id != it.productId {
      var i :| 0 <= i < |t| && t[i].id == id;
      assert t0[i].id == id;
    }
    if IndexOf(t0, it.productId) >= 0 {
      assert HasSale(t0, it.productId);
    }
    assert IndexOf(t0, it.productId) < 0 ==> t[|t0|].id == it.productId;
  }

  /** The map has one entry per distinct product id. */
  lemma {:induction false} TallyShape(items: seq<Item>)
    ensures DistinctSales(Tally(items))
    ensures forall id :: HasSale(Tally(items), id) <==> id in ProductIds(items)
  {
    if items != [] {
      var init := items[..|items| - 1];
      var it := items[|items| - 1];
      TallyShape(init);
      RecordFacts(Tally(init), it);
      forall id ensures HasSale(Tally(items), id) <==> id in ProductIds(items) {
        RecordHasSale(Tally(init), it, id);
      }
    }
  }

  /** So it has as many entries as there are distinct ids. */
  lemma {:induction false} TallyCount(items: seq<Item>)
    ensures |Tally(items)| == |ProductIds(items)|
  {
    if items != [] {
      var init := items[..|items| - 1];
      var it := items[|items| - 1];
      TallyCount(init);
      TallyShape(init);
      CountStep(Tally(init), it, ProductIds(init));
    }
  }

  /** Recording an item adds an entry exactly when it adds an id. */
  lemma CountStep(t0: seq<Sale>, it: Item, ids: set<string>)
    requires DistinctSales(t0) && |t0| == |ids|
    requires HasSale(t0, it.productId) <==> it.productId in ids
    ensures |Record(t0, it)| == |ids + {it.productId}|
  {
    RecordHasSale(t0, it, it.productId);
    if it.productId in ids {
      assert ids + {it.productId} == ids;
    }
  }

  /** Each entry holds its product's summed units and revenue. */
  lemma {:induction false} TallySums(items: seq<Item>)
    ensures forall i :: 0 <= i < |Tally(items)| ==>
              Tally(items)[i].sales == UnitsFor(items, Tally(items)[i].id) && Tally(items)[i].revenue == RevenueFor(items, Tally(items)[i].id)
  {
    if items != [] {
      var init := items[..|items| - 1];
      var it := items[|items| - 1];
      TallySums(init);
      TallyShape(init);
      SumsStep(Tally(init), init, it);
      assert items == init + [it];
    }
  }

  /** Recording one more item keeps every entry's sums equal to its product's. */
  lemma SumsStep(t0: seq<Sale>, init: seq<Item>, it: Item)
    requires DistinctSales(t0)
    requires forall id :: HasSale(t0, id) <==> id in ProductIds(init)
    requires forall i :: 0 <= i < |t0| ==> t0[i].sales == UnitsFor(init, t0[i].id) && t0[i].revenue == RevenueFor(init, t0[i].id)
    ensures var t := Record(t0, it);
            forall i :: 0 <= i < |t| ==>
              t[i].sales == UnitsFor(init + [it], t[i].id) && t[i].revenue == RevenueFor(init + [it], t[i].id)
  {
    var t := Record(t0, it);
    RecordFacts(t0, it);
    forall i | 0 <= i < |t| ensures t[i].sales == UnitsFor(init + [it], t[i].id) && t[i].revenue == RevenueFor(init + [it], t[i].id) {
      ForSnoc(init, it, t[i].id);
      if i == |t0| {
        assert !HasSale(t0, it.productId);
        AbsentSums(init, it.productId);
      }
    }
  }

  /** The sums of one more item. */
  lemma ForSnoc(init: seq<Item>, it: Item, id: string)
    ensures UnitsFor(init + [it], id) == UnitsFor(init, id) + (if it.productId == id then it.quantity else 0)
    ensures RevenueFor(init + [it], id) == RevenueFor(init, id) + (if it.productId == id then it.price * it.quantity as real else 0.0)
  {
    assert (init + [it])[..|init|] == init;
  }

  /** Revenue never increases along the list. */
  predicate Descending(s: seq<Sale>) {
    forall i, j :: 0 <= i < j < |s| ==> s[i].revenue >= s[j].revenue
  }

  /** Insert after every entry with at least the same revenue, so equal revenues keep their order. */
  function Insert(s: seq<Sale>, x: Sale): (r: seq<Sale>)
    ensures multiset(r) == multiset(s) + multiset{x}
  {
    if s == [] then [x]
    else if x.revenue > s[0].revenue then [x] + s
    else
      assert s == [s[0]] + s[1..];
      [s[0]] + Insert(s[1..], x)
  }

  lemma {:induction false} InsertDescending(s: seq<Sale>, x: Sale)
    requires Descending(s)
    ensures Descending(Insert(s, x))
  {
    if s != [] && x.revenue <= s[0].revenue {
      InsertDescending(s[1..], x);
      var rest := Insert(s[1..], x);
      forall e | e in rest ensures s[0].revenue >= e.revenue {
        assert e in multiset(rest);
        assert e in s[1..] || e == x;
      }
    }
  }

  /** `arr.sort((a, b) => b.revenue - a.revenue)`, a stable sort. */
  function SortDesc(s: seq<Sale>): (r: seq<Sale>)
    ensures multiset(r) == multiset(s)
  {
    if s == [] then [] else
      assert s == s[..|s| - 1] + [s[|s| - 1]];
      Insert(SortDesc(s[..|s| - 1]), s[|s| - 1])
  }

  /** The sort orders by revenue, highest first. */
  lemma {:induction false} SortDescDescending(s: seq<Sale>)
    ensures Descending(SortDesc(s))
  {
    if s != [] {
      SortDescDescending(s[..|s| - 1]);
      InsertDescending(SortDesc(s[..|s| - 1]), s[|s| - 1]);
    }
  }

  /** `productSalesData`. */
  function ProductSalesData(txns: seq<Transaction>): seq<Sale>
  {
    Take(SortDesc(Tally(Flatten(txns))), 10)
  }

  /** The `productSalesData` memo: build the map item by item, then sort and keep ten. */
  method ProductSales(txns: seq<Transaction>) returns (rows: seq<Sale>)
    ensures rows == ProductSalesData(txns)
  {
    var tally: seq<Sale> := [];
    for i := 0 to |txns|
      invariant tally == Tally(Flatten(txns[..i]))
    {
      assert txns[..i + 1][..i] == txns[..i];
      tally := RecordItems(tally, Flatten(txns[..i]), txns[i].items);
    }
    assert txns[..|txns|] == txns;
    rows := Take(SortDesc(tally), 10);
  }

  /** The inner `forEach` over one transaction's items, adding each to the map. */
  method RecordItems(tally0: seq<Sale>, ghost before: seq<Item>, items: seq<Item>) returns (tally: seq<Sale>)
    requires tally0 == Tally(before)
    ensures tally == Tally(before + items)
  {
    tally := tally0;
    assert before + items[..0] == before;
    for j := 0 to |items|
      invariant tally == Tally(before + items[..j])
    {
      assert before + items[..j + 1] == (before + items[..j]) + [items[j]];
      TallySnoc(before + items[..j], items[j]);
      tally := Record(tally, items[j]);
    }
    assert items[..|items|] == items;
  }

  /** At most ten rows, highest revenue first, one per product. */
  lemma ProductSalesShape(txns: seq<Transaction>)
    ensures var rows := ProductSalesData(txns);
            |rows| == MinInt(10, |ProductIds(Flatten(txns))|)
            && Descending(rows)
            && DistinctSales(rows)
  {
    var all := Tally(Flatten(txns));
    var sorted := SortDesc(all);
    TallyShape(Flatten(txns));
    SortDescDescending(all);
    TallyCount(Flatten(txns));
    assert |sorted| == |all| by {
      assert |multiset(sorted)| == |multiset(all)|;
    }
    forall i, j | 0 <= i < j < |Take(sorted, 10)| ensures Take(sorted, 10)[i].id != Take(sorted, 10)[j].id {
      SortedDistinct(all, sorted, i, j);
    }
  }

  /** Every row holds its product's summed units and price-times-quantity revenue. */
  lemma ProductSalesSums(txns: seq<Transaction>)
    ensures forall r :: r in ProductSalesData(txns) ==>
              r.sales == UnitsFor(Flatten(txns), r.id) && r.revenue == RevenueFor(Flatten(txns), r.id)
  {
    var items := Flatten(txns);
    var all := Tally(items);
    TallySums(items);
    forall r | r in ProductSalesData(txns) ensures r.sales == UnitsFor(items, r.id) && r.revenue == RevenueFor(items, r.id) {
      KeptRow(all, r);
      var i :| 0 <= i < |all| && all[i] == r;
      assert all[i].sales == UnitsFor(items, all[i].id);
    }
  }

  /** A kept row is one of the map's entries. */
  lemma KeptRow(all: seq<Sale>, r: Sale)
    requires r in Take(SortDesc(all), 10)
    ensures r in all
  {
    var sorted := SortDesc(all);
    var j :| 0 <= j < |Take(sorted, 10)| && Take(sorted, 10)[j] == r;
    assert sorted[j] == r;
    assert r in multiset(all);
  }

  /** No product left out of the ten earned more than one kept. */
  lemma ProductSalesTop(txns: seq<Transaction>)
    ensures var rows := ProductSalesData(txns);
            forall e, r :: e in Tally(Flatten(txns)) && e !in rows && r in rows ==> r.revenue >= e.revenue
  {
    var all := Tally(Flatten(txns));
    var sorted := SortDesc(all);
    var rows := Take(sorted, 10);
    SortDescDescending(all);
    forall e, r | e in all && e !in rows && r in rows ensures r.revenue >= e.revenue {
      assert e in multiset(sorted);
      var k :| 0 <= k < |sorted| && sorted[k] == e;
      forall j | 0 <= j < |rows| ensures sorted[j] != e {
        assert sorted[j] == rows[j];
        assert rows[j] in rows;
      }
      var i :| 0 <= i < |rows| && rows[i] == r;
      assert sorted[i] == r;
    }
  }

  /** A reordering of a list with distinct ids has distinct ids. */
  lemma SortedDistinct(all: seq<Sale>, sorted: seq<Sale>, i: int, j: int)
    requires DistinctSales(all) && multiset(sorted) == multiset(all)
    requires 0 <= i < j < |sorted|
    ensures sorted[i].id != sorted[j].id
  {
    assert sorted[i] in multiset(all) && sorted[j] in multiset(all);
    var a :| 0 <= a < |all| && all[a] == sorted[i];
    var b :| 0 <= b < |all| && all[b] == sorted[j];
    DistinctOnce(all, a);
    CountTwo(sorted, i, j);
    assert a != b;
  }

  lemma CountTwo(s: seq<Sale>, i: int, j: int)
    requires 0 <= i < j < |s|
    ensures s[i] == s[j] ==> multiset(s)[s[i]] >= 2
  {
    assert s == s[..i] + [s[i]] + s[i + 1..j] + [s[j]] + s[j + 1..];
  }

  /** An entry of a list with distinct ids occurs once. */
  lemma {:induction false} DistinctOnce(all: seq<Sale>, a: int)
    requires DistinctSales(all) && 0 <= a < |all|
    ensures multiset(all)[all[a]] == 1
  {
    assert all == [all[0]] + all[1..];
    if a == 0 {
      assert all[0] !in all[1..];
    } else {
      DistinctOnce(all[1..], a - 1);
      assert all[0] != all[a];
    }
  }

  // ---------------------------------------------------------------- hourly

  /** `${((h + 11) % 12) + 1}${h < 12 ? "AM" : "PM"}`. */
  function HourLabel(h: int): string
    requires 0 <= h < 24
  {
    NatToString((h + 11) % 12 + 1) + (if h < 12 then "AM" else "PM")
  }

  /** The clock number of an hour is 1..12, and 0 reads 12AM, 12 reads 12PM; the labels are the ones `labelsOrder` lists. */
  lemma HourLabelFacts(h: int)
    requires 0 <= h < 24
    ensures 1 <= (h + 11) % 12 + 1 <= 12
    ensures h == 0 ==> HourLabel(h) == "12AM"
    ensures h == 12 ==> HourLabel(h) == "12PM"
    ensures HourLabel(h) == LabelsOrder[h]
  {
    if h < 4 { LabelsFrom0(h); }
    else if h < 8 { LabelsFrom4(h); }
    else if h < 12 { LabelsFrom8(h); }
    else if h < 16 { LabelsFrom12(h); }
    else if h < 20 { LabelsFrom16(h); }
    else { LabelsFrom20(h); }
  }

  lemma LabelsFrom0(h: int)
    requires 0 <= h < 4
    ensures HourLabel(h) == LabelsOrder[h]
  {
    if h == 0 { assert HourLabel(0) == "12AM"; }
    else if h == 1 { assert HourLabel(1) == "1AM"; }
    else if h == 2 { assert HourLabel(2) == "2AM"; }
    else { assert HourLabel(3) == "3AM"; }
  }

  lemma LabelsFrom4(h: int)
    requires 4 <= h < 8
    ensures HourLabel(h) == LabelsOrder[h]
  {
    if h == 4 { assert HourLabel(4) == "4AM"; }
    else if h == 5 { assert HourLabel(5) == "5AM"; }
    else if h == 6 { assert HourLabel(6) == "6AM"; }
    else { assert HourLabel(7) == "7AM"; }
  }

  lemma LabelsFrom8(h: int)
    requires 8 <= h < 12
    ensures HourLabel(h) == LabelsOrder[h]
  {
    if h == 8 { assert HourLabel(8) == "8AM"; }
    else if h == 9 { assert HourLabel(9) == "9AM"; }
    else if h == 10 { assert HourLabel(10) == "10AM"; }
    else { assert HourLabel(11) == "11AM"; }
  }

  lemma LabelsFrom12(h: int)
    requires 12 <= h < 16
    ensures HourLabel(h) == LabelsOrder[h]
  {
    if h == 12 { assert HourLabel(12) == "12PM"; }
    else if h == 13 { assert HourLabel(13) == "1PM"; }
    else if h == 14 { assert HourLabel(14) == "2PM"; }
    else { assert HourLabel(15) == "3PM"; }
  }

  lemma LabelsFrom16(h: int)
    requires 16 <= h < 20
    ensures HourLabel(h) == LabelsOrder[h]
  {
    if h == 16 { assert HourLabel(16) == "4PM"; }
    else if h == 17 { assert HourLabel(17) == "5PM"; }
    else if h == 18 { assert HourLabel(18) == "6PM"; }
    else { assert HourLabel(19) == "7PM"; }
  }

  lemma LabelsFrom20(h: int)
    requires 20 <= h < 24
    ensures HourLabel(h) == LabelsOrder[h]
  {
    if h == 20 { assert HourLabel(20) == "8PM"; }
    else if h == 21 { assert HourLabel(21) == "9PM"; }
    else if h == 22 { assert HourLabel(22) == "10PM"; }
    else { assert HourLabel(23) == "11PM"; }
  }

  const LabelsOrder: seq<string> := ["12AM", "1AM", "2AM", "3AM", "4AM", "5AM", "6AM", "7AM", "8AM", "9AM", "10AM", "11AM",
                                     "12PM", "1PM", "2PM", "3PM", "4PM", "5PM", "6PM", "7PM", "8PM", "9PM", "10PM", "11PM"]

  predicate ValidHours(txns: seq<Transaction>, hours: seq<int>) {
    |hours| == |txns| && forall i :: 0 <= i < |hours| ==> 0 <= hours[i] < 24
  }

  /** `byHour`: units per tag, each transaction counted under the tag of its hour. */
  function ByHour(txns: seq<Transaction>, hours: seq<int>): map<string, int>
    requires ValidHours(txns, hours)
  {
    if txns == [] then map[]
    else
      var n := |txns| - 1;
      var m := ByHour(txns[..n], hours[..n]);
      var tag := HourLabel(hours[n]);
      m[tag := (if tag in m then m[tag] else 0) + Units(txns[n].items)]
  }

  /** The units of the transactions whose hour is `h`. */
  function UnitsInHour(txns: seq<Transaction>, hours: seq<int>, h: int): int
    requires ValidHours(txns, hours)
  {
    if txns == [] then 0
    else
      var n := |txns| - 1;
      UnitsInHour(txns[..n], hours[..n], h) + (if hours[n] == h then Units(txns[n].items) else 0)
  }

  datatype HourRow = HourRow(hour: string, sales: int)

  function Lookup(m: map<string, int>, k: string): int {
    if k in m then m[k] else 0
  }

  /** `labelsOrder.map(l => ({hour: l, sales: byHour[l] || 0}))`. */
  function ClockRows(m: map<string, int>, labels: seq<string>): (r: seq<HourRow>)
    ensures |r| == |labels|
    ensures forall i :: 0 <= i < |labels| ==> r[i] == HourRow(labels[i], Lookup(m, labels[i]))
  {
    if labels == [] then [] else ClockRows(m, labels[..|labels| - 1]) + [HourRow(labels[|labels| - 1], Lookup(m, labels[|labels| - 1]))]
  }

  predicate Positive(r: HourRow) {
    r.sales > 0
  }

  /** `hourlyData`. */
  function HourlyData(txns: seq<Transaction>, hours: seq<int>): seq<HourRow>
    requires ValidHours(txns, hours)
  {
    Filter(ClockRows(ByHour(txns, hours), LabelsOrder), Positive)
  }

  lemma ByHourSnoc(txns: seq<Transaction>, hours: seq<int>, i: int)
    requires ValidHours(txns, hours) && 0 <= i < |txns|
    ensures ValidHours(txns[..i], hours[..i]) && ValidHours(txns[..i + 1], hours[..i + 1])
    ensures var m := ByHour(txns[..i], hours[..i]);
            var tag := HourLabel(hours[i]);
            ByHour(txns[..i + 1], hours[..i + 1]) == m[tag := (if tag in m then m[tag] else 0) + Units(txns[i].items)]
  {
    assert txns[..i + 1][..i] == txns[..i] && hours[..i + 1][..i] == hours[..i];
  }

  lemma ClockRowsSnoc(m: map<string, int>, k: int)
    requires 0 <= k < |LabelsOrder|
    ensures var row := HourRow(LabelsOrder[k], Lookup(m, LabelsOrder[k]));
            Filter(ClockRows(m, LabelsOrder[..k + 1]), Positive)
            == Filter(ClockRows(m, LabelsOrder[..k]), Positive) + (if row.sales > 0 then [row] else [])
  {
    assert LabelsOrder[..k + 1][..k] == LabelsOrder[..k];
    FilterSnoc(ClockRows(m, LabelsOrder[..k]), HourRow(LabelsOrder[k], Lookup(m, LabelsOrder[k])), Positive);
  }

  /** The `forEach` that fills `byHour`. */
  method HourTotals(txns: seq<Transaction>, hours: seq<int>) returns (byHour: map<string, int>)
    requires ValidHours(txns, hours)
    ensures byHour == ByHour(txns, hours)
  {
    byHour := map[];
    for i := 0 to |txns|
      invariant byHour == ByHour(txns[..i], hours[..i])
    {
      ByHourSnoc(txns, hours, i);
      var tag := HourLabel(hours[i]);
      var units := Units(txns[i].items);
      byHour := byHour[tag := (if tag in byHour then byHour[tag] else 0) + units];
    }
    assert txns[..|txns|] == txns && hours[..|hours|] == hours;
  }

  /**
    The `hourlyData` memo; `hours[i]` is the local hour of transaction `i`
    (`getHours()` of its `createdAt`, or of the current time).
  */
  method Hourly(txns: seq<Transaction>, hours: seq<int>) returns (rows: seq<HourRow>)
    requires ValidHours(txns, hours)
    ensures rows == HourlyData(txns, hours)
  {
    var byHour := HourTotals(txns, hours);
    rows := [];
    for k := 0 to |LabelsOrder|
      invariant rows == Filter(ClockRows(byHour, LabelsOrder[..k]), Positive)
    {
      var row := HourRow(LabelsOrder[k], Lookup(byHour, LabelsOrder[k]));
      ClockRowsSnoc(byHour, k);
      if row.sales > 0 {
        rows := rows + [row];
      }
    }
    assert LabelsOrder[..|LabelsOrder|] == LabelsOrder;
  }

  /** The tag of hour `h` collects exactly the units sold in hour `h`. */
  lemma {:induction false} ByHourCounts(txns: seq<Transaction>, hours: seq<int>, h: int)
    requires ValidHours(txns, hours) && 0 <= h < 24
    ensures Lookup(ByHour(txns, hours), LabelsOrder[h]) == UnitsInHour(txns, hours, h)
  {
    if txns != [] {
      var n := |txns| - 1;
      ByHourCounts(txns[..n], hours[..n], h);
      HourLabelFacts(h);
      HourLabelFacts(hours[n]);
      if hours[n] != h {
        LabelsDistinct(h, hours[n]);
      }
    }
  }

  lemma LabelsDistinct(a: int, b: int)
    requires 0 <= a < 24 && 0 <= b < 24 && a != b
    ensures LabelsOrder[a] != LabelsOrder[b]
  {
  }

  /**
    `hourlyData` lists, in clock order from 12AM, the hours with positive
    units, each with the units sold in that hour.
  */
  lemma HourlyFacts(txns: seq<Transaction>, hours: seq<int>)
    requires ValidHours(txns, hours)
    ensures var rows := HourlyData(txns, hours);
            SubSeq(rows, ClockRows(ByHour(txns, hours), LabelsOrder))
            && (forall r :: r in rows ==> r.sales > 0)
            && (forall h :: 0 <= h < 24 ==>
                  (HourRow(LabelsOrder[h], UnitsInHour(txns, hours, h)) in rows <==> UnitsInHour(txns, hours, h) > 0))
  {
    var clock := ClockRows(ByHour(txns, hours), LabelsOrder);
    FilterSubSeq(clock, Positive);
    FilterMembers(clock, Positive);
    forall h | 0 <= h < 24
      ensures HourRow(LabelsOrder[h], UnitsInHour(txns, hours, h)) in HourlyData(txns, hours) <==> UnitsInHour(txns, hours, h) > 0
    {
      ByHourCounts(txns, hours, h);
      assert clock[h] == HourRow(LabelsOrder[h], UnitsInHour(txns, hours, h));
    }
  }
}
