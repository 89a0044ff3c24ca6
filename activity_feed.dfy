/**
  The dashboard's recent-activity card (`src/components/dashboard/ActivityFeed.tsx`):
  stored stock movements and the lines of stored transactions are merged into
  one list, narrowed to the selected event, ordered newest first and cut to
  twelve rows, each labelled by its kind.
*/
module ActivityFeed {
  import opened Common
  import TransactionService

  /** A movement as the card reads it. */
  datatype FeedMovement = FeedMovement(kind: string, qty: int, eventId: Option<string>, note: Option<string>, timestamp: Option<string>)

  /** `{productId, movement}`. */
  datatype Entry = Entry(productId: string, movement: FeedMovement)

  // ---------------------------------------------------------------- stored movements

  /** The movements of one product, each tagged with the product key. */
  function Tagged(pid: string, mvs: seq<FeedMovement>): (r: seq<Entry>)
    ensures |r| == |mvs|
    ensures forall j :: 0 <= j < |mvs| ==> r[j] == Entry(pid, mvs[j])
  {
    if mvs == [] then [] else Tagged(pid, mvs[..|mvs| - 1]) + [Entry(pid, mvs[|mvs| - 1])]
  }

  /** `stockMovements/<pid>/<key>` flattened in entry order. */
  function Flat(stored: seq<(string, seq<FeedMovement>)>): seq<Entry>
  {
    if stored == [] then [] else Flat(stored[..|stored| - 1]) + Tagged(stored[|stored| - 1].0, stored[|stored| - 1].1)
  }

  /** The number of stored movements. */
  function MovementCount(stored: seq<(string, seq<FeedMovement>)>): nat
  {
    if stored == [] then 0 else MovementCount(stored[..|stored| - 1]) + |stored[|stored| - 1].1|
  }

  /** One entry per stored movement, carrying the key it is stored under. */
  lemma {:induction false} FlatFacts(stored: seq<(string, seq<FeedMovement>)>)
    ensures |Flat(stored)| == MovementCount(stored)
    ensures forall i :: 0 <= i < |Flat(stored)| ==>
              exists k :: 0 <= k < |stored| && Flat(stored)[i].productId == stored[k].0 && Flat(stored)[i].movement in stored[k].1
  {
    if stored != [] {
      var n := |stored| - 1;
      var init := stored[..n];
      FlatFacts(init);
      var f := Flat(stored);
      forall i | 0 <= i < |f|
        ensures exists k :: 0 <= k < |stored| && f[i].productId == stored[k].0 && f[i].movement in stored[k].1
      {
        if i < |Flat(init)| {
          var k :| 0 <= k < |init| && Flat(init)[i].productId == init[k].0 && Flat(init)[i].movement in init[k].1;
          assert stored[k] == init[k];
        } else {
          assert f[i] == Entry(stored[n].0, stored[n].1[i - |Flat(init)|]);
        }
      }
    }
  }

  lemma FlatSnoc(stored: seq<(string, seq<FeedMovement>)>, i: int, j: int)
    requires 0 <= i < |stored| && 0 <= j < |stored[i].1|
    ensures Flat(stored[..i]) + Tagged(stored[i].0, stored[i].1[..j + 1])
            == Flat(stored[..i]) + Tagged(stored[i].0, stored[i].1[..j]) + [Entry(stored[i].0, stored[i].1[j])]
  {
    assert stored[i].1[..j + 1][..j] == stored[i].1[..j];
  }

  /** The first listener: every movement of every product, tagged with its product key. */
  method FlattenStored(stored: seq<(string, seq<FeedMovement>)>) returns (flat: seq<Entry>)
    ensures flat == Flat(stored)
  {
    flat := [];
    for i := 0 to |stored|
      invariant flat == Flat(stored[..i])
    {
      assert stored[..i + 1][..i] == stored[..i];
      var (pid, mvs) := stored[i];
      for j := 0 to |mvs|
        invariant flat == Flat(stored[..i]) + Tagged(pid, mvs[..j])
      {
        FlatSnoc(stored, i, j);
        flat := flat + [Entry(pid, mvs[j])];
      }
      assert mvs[..|mvs|] == mvs;
    }
    assert stored[..|stored|] == stored;
  }

  // ---------------------------------------------------------------- transactions

  /** One line of a transaction as a "sale" movement; the product id falls back to the line's name. */
  function SaleEntry(t: TransactionService.Transaction, it: TransactionService.Item): (e: Entry)
    ensures e.movement.kind == "sale" && e.movement.qty == it.quantity
    ensures e.movement.eventId == t.eventId && e.movement.note == Some("POS checkout")
    ensures e.movement.timestamp == t.createdAt
    ensures e.productId == if it.productId != "" then it.productId else it.name
  {
    Entry(if it.productId != "" then it.productId else it.name,
          FeedMovement("sale", it.quantity, t.eventId, Some("POS checkout"), t.createdAt))
  }

  function LineEntries(t: TransactionService.Transaction, items: seq<TransactionService.Item>): (r: seq<Entry>)
    ensures |r| == |items|
    ensures forall j :: 0 <= j < |items| ==> r[j] == SaleEntry(t, items[j])
  {
    if items == [] then [] else LineEntries(t, items[..|items| - 1]) + [SaleEntry(t, items[|items| - 1])]
  }

  /** Every line of every transaction, in order. */
  function SaleEntries(txs: seq<TransactionService.Transaction>): seq<Entry>
  {
    if txs == [] then [] else SaleEntries(txs[..|txs| - 1]) + LineEntries(txs[|txs| - 1], txs[|txs| - 1].items)
  }

  function LineCount(txs: seq<TransactionService.Transaction>): nat
  {
    if txs == [] then 0 else LineCount(txs[..|txs| - 1]) + |txs[|txs| - 1].items|
  }

  /** One sale entry per transaction line, and each is a "sale". */
  lemma {:induction false} SaleEntriesFacts(txs: seq<TransactionService.Transaction>)
    ensures |SaleEntries(txs)| == LineCount(txs)
    ensures forall e :: e in SaleEntries(txs) ==> e.movement.kind == "sale" && e.movement.note == Some("POS checkout")
  {
    if txs != [] {
      SaleEntriesFacts(txs[..|txs| - 1]);
    }
  }

  lemma SaleEntriesSnoc(txs: seq<TransactionService.Transaction>, i: int, j: int)
    requires 0 <= i < |txs| && 0 <= j < |txs[i].items|
    ensures SaleEntries(txs[..i]) + LineEntries(txs[i], txs[i].items[..j + 1])
            == SaleEntries(txs[..i]) + LineEntries(txs[i], txs[i].items[..j]) + [SaleEntry(txs[i], txs[i].items[j])]
  {
    assert txs[i].items[..j + 1][..j] == txs[i].items[..j];
  }

  /** The second listener. */
  method FromTransactions(txs: seq<TransactionService.Transaction>) returns (list: seq<Entry>)
    ensures list == SaleEntries(txs)
  {
    list := [];
    for i := 0 to |txs|
      invariant list == SaleEntries(txs[..i])
    {
      assert txs[..i + 1][..i] == txs[..i];
      var t := txs[i];
      for j := 0 to |t.items|
        invariant list == SaleEntries(txs[..i]) + LineEntries(t, t.items[..j])
      {
        SaleEntriesSnoc(txs, i, j);
        list := list + [SaleEntry(t, t.items[j])];
      }
      assert t.items[..|t.items|] == t.items;
    }
    assert txs[..|txs|] == txs;
  }

  // ---------------------------------------------------------------- merged

  /** The event filter: with an event selected, that event's movements and those of no event. */
  predicate Visible(x: Entry, currentEventId: Option<string>) {
    !Truthy(currentEventId) || x.movement.eventId == currentEventId || x.movement.eventId.None?
  }

  /** `String(timestamp || "")`. */
  function Stamp(x: Entry): string {
    OrElse(x.movement.timestamp, "")
  }

  /** The entries the event filter keeps, in order. */
  function Kept(all: seq<Entry>, currentEventId: Option<string>): seq<Entry>
  {
    Filter(all, (x: Entry) => Visible(x, currentEventId))
  }

  /** An entry is kept exactly when it is in `all` and passes the event filter. */
  lemma KeptMembers(all: seq<Entry>, currentEventId: Option<string>)
    ensures forall x :: x in Kept(all, currentEventId) <==> x in all && Visible(x, currentEventId)
  {
    FilterMembers(all, (x: Entry) => Visible(x, currentEventId));
  }

  /** The `merged` memo. */
  function MergedSpec(stockItems: seq<Entry>, txnItems: seq<Entry>, currentEventId: Option<string>): seq<Entry>
  {
    Take(SortNewest(Kept(stockItems + txnItems, currentEventId), Stamp), 12)
  }

  /** `merged`: concatenate, filter, sort in place, and keep the first twelve. */
  method Merged(stockItems: seq<Entry>, txnItems: seq<Entry>, currentEventId: Option<string>) returns (merged: seq<Entry>)
    ensures merged == MergedSpec(stockItems, txnItems, currentEventId)
  {
    var all := stockItems + txnItems;
    var filtered := Filter(all, (x: Entry) => Visible(x, currentEventId));
    var sorted: seq<Entry> := [];
    for i := 0 to |filtered|
      invariant sorted == SortNewest(filtered[..i], Stamp)
    {
      SortNewestSnoc(filtered, i, Stamp);
      sorted := InsertNewest(sorted, filtered[i], Stamp);
    }
    assert filtered[..|filtered|] == filtered;
    merged := Take(sorted, 12);
  }

  /** At most twelve rows, newest first, drawn from both sources and passing the event filter. */
  lemma MergedShape(stockItems: seq<Entry>, txnItems: seq<Entry>, currentEventId: Option<string>)
    ensures var m := MergedSpec(stockItems, txnItems, currentEventId);
            |m| == MinInt(12, |Kept(stockItems + txnItems, currentEventId)|)
            && NewestFirst(m, Stamp)
            && forall x :: x in m ==> (x in stockItems || x in txnItems) && Visible(x, currentEventId)
  {
    var kept := Kept(stockItems + txnItems, currentEventId);
    KeptMembers(stockItems + txnItems, currentEventId);
    var sorted := SortNewest(kept, Stamp);
    SortNewestSorted(kept, Stamp);
    assert |sorted| == |kept| by {
      assert |multiset(sorted)| == |multiset(kept)|;
    }
    forall x | x in Take(sorted, 12) ensures (x in stockItems || x in txnItems) && Visible(x, currentEventId) {
      var j :| 0 <= j < |Take(sorted, 12)| && Take(sorted, 12)[j] == x;
      assert sorted[j] == x;
      assert x in multiset(kept);
      assert x in kept;
      assert x in stockItems + txnItems;
    }
  }

  /** A visible entry left out is no newer than any row shown. */
  lemma MergedNewest(stockItems: seq<Entry>, txnItems: seq<Entry>, currentEventId: Option<string>)
    ensures var m := MergedSpec(stockItems, txnItems, currentEventId);
            forall x, y :: x in stockItems + txnItems && Visible(x, currentEventId) && x !in m && y in m ==>
              StrLe(Stamp(x), Stamp(y))
  {
    var kept := Kept(stockItems + txnItems, currentEventId);
    KeptMembers(stockItems + txnItems, currentEventId);
    var sorted := SortNewest(kept, Stamp);
    var m := Take(sorted, 12);
    SortNewestSorted(kept, Stamp);
    forall x, y | x in stockItems + txnItems && Visible(x, currentEventId) && x !in m && y in m
      ensures StrLe(Stamp(x), Stamp(y))
    {
      assert x in multiset(sorted);
      var k :| 0 <= k < |sorted| && sorted[k] == x;
      forall j | 0 <= j < |m| ensures sorted[j] != x {
        assert sorted[j] == m[j];
        assert m[j] in m;
      }
      var i :| 0 <= i < |m| && m[i] == y;
      assert sorted[i] == y;
    }
  }

  /** Without a selected event nothing is filtered out. */
  lemma NoEventKeepsAll(all: seq<Entry>)
    ensures Kept(all, None) == all
  {
    FilterAll(all, (x: Entry) => Visible(x, None));
  }

  // ---------------------------------------------------------------- rows

  /** The row heading: Sale, Alert, or Stock for any other kind. */
  function KindLabel(kind: string): (l: string)
    ensures l == "Sale" <==> kind == "sale"
    ensures l == "Alert" <==> kind == "alert"
    ensures l == "Stock" <==> kind != "sale" && kind != "alert"
  {
    if kind == "sale" then "Sale" else if kind == "alert" then "Alert" else "Stock"
  }
}
