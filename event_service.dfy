/**
  The events client (`src/services/eventService.ts`): reading every event with
  its key as `id`, and choosing the most recently created event that is live or
  upcoming. A failed read is the `fails` flag.
*/
module EventService {
  import opened Common

  datatype EventItem = EventItem(id: Option<string>, name: Option<string>, status: string, createdAt: Option<string>)

  /** `{...e, id}`: the key always wins. */
  function WithKey(key: string, e: EventItem): EventItem
  {
    e.(id := Some(key))
  }

  /** `getAllEvents`: `[]` on a failed read, otherwise every stored event in entry order with its key as `id`. */
  function GetAllEvents(events: map<string, EventItem>, order: seq<string>, fails: bool): (r: seq<EventItem>)
    requires forall k :: k in order ==> k in events
    ensures fails ==> r == []
    ensures !fails ==> |r| == |order| && forall i :: 0 <= i < |order| ==> r[i] == WithKey(order[i], events[order[i]])
  {
    if fails || order == [] then []
    else GetAllEvents(events, order[..|order| - 1], false) + [WithKey(order[|order| - 1], events[order[|order| - 1]])]
  }

  predicate IsActive(e: EventItem) {
    e.status == "Live" || e.status == "Upcoming"
  }

  /** `(e.createdAt || "")`. */
  function Created(e: EventItem): string {
    OrElse(e.createdAt, "")
  }

  /** The head of the active events sorted by `createdAt`, newest first. */
  function MostRecentActive(all: seq<EventItem>): Option<EventItem>
  {
    var active := Filter(all, IsActive);
    if active == [] then None else Some(SortNewest(active, Created)[0])
  }

  /**
    `getMostRecentActiveEvent`: `null` on a failed read; otherwise the active
    events are filtered, sorted in place and the first is returned.
  */
  method GetMostRecentActiveEvent(all: seq<EventItem>, fails: bool) returns (r: Option<EventItem>)
    ensures fails ==> r.None?
    ensures !fails ==> r == MostRecentActive(all)
  {
    if fails {
      return None;
    }
    var active := Filter(all, IsActive);
    if |active| == 0 {
      return None;
    }
    var sorted: seq<EventItem> := [];
    for i := 0 to |active|
      invariant sorted == SortNewest(active[..i], Created)
    {
      SortNewestSnoc(active, i, Created);
      sorted := InsertNewest(sorted, active[i], Created);
    }
    assert active[..|active|] == active;
    assert |sorted| == |active| by {
      assert |multiset(sorted)| == |multiset(active)|;
    }
    r := Some(sorted[0]);
  }

  /**
    There is a result exactly when some event is live or upcoming; it is one of
    them, and none of them was created later.
  */
  lemma MostRecentActiveFacts(all: seq<EventItem>)
    ensures MostRecentActive(all).None? <==> forall e :: e in all ==> !IsActive(e)
    ensures MostRecentActive(all).Some? ==>
              var m := MostRecentActive(all).value;
              m in all && IsActive(m) && forall e :: e in all && IsActive(e) ==> StrLe(Created(e), Created(m))
  {
    var active := Filter(all, IsActive);
    FilterMembers(all, IsActive);
    if active != [] {
      var sorted := SortNewest(active, Created);
      SortNewestSorted(active, Created);
      assert sorted[0] in multiset(active);
      forall e | e in all && IsActive(e) ensures StrLe(Created(e), Created(sorted[0])) {
        assert e in multiset(sorted);
        var k :| 0 <= k < |sorted| && sorted[k] == e;
        if k > 0 {
          assert StrLe(Created(sorted[k]), Created(sorted[0]));
        } else {
          StrLeRefl(Created(e));
        }
      }
    } else {
      assert forall e :: e in all && IsActive(e) ==> e in active;
    }
  }

  /** `createEvent`: the stored record is the input with `createdAt`; a failed write returns `{success: false}`. */
  function CreateEvent(events: map<string, EventItem>, data: EventItem, key: string, now: string, fails: bool): (r: (bool, Option<string>, map<string, EventItem>))
    ensures fails ==> r == (false, None, events)
    ensures !fails ==> r.0 && r.1 == Some(key) && r.2 == events[key := data.(createdAt := Some(now))]
  {
    if fails then (false, None, events) else (true, Some(key), events[key := data.(createdAt := Some(now))])
  }
}
