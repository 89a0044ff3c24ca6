/**
  The selected-event state shared by the dashboard (`src/context/EventContext.tsx`):
  the loaded events, the selected event id, its display name, and the copy of
  the selection kept in local storage under `selectedEventId`.
*/
module EventContext {
  import opened Common
  import opened EventService

  const AllEvents := "All Events"
  const OutsideProvider := "useEventContext must be used within EventProvider"

  /** `events.find(e => e.id === id)`. */
  function Find(events: seq<EventItem>, id: string): (r: Option<EventItem>)
    ensures r.Some? ==> r.value in events && r.value.id == Some(id)
    ensures r.None? ==> forall e :: e in events ==> e.id != Some(id)
    ensures events != [] && events[0].id == Some(id) ==> r == Some(events[0])
  {
    if events == [] then None
    else if events[0].id == Some(id) then Some(events[0])
    else Find(events[1..], id)
  }

  /** `currentEventName`. */
  function EventName(events: seq<EventItem>, currentEventId: Option<string>): (n: string)
    ensures !Truthy(currentEventId) ==> n == AllEvents
    ensures Truthy(currentEventId) && (forall e :: e in events ==> e.id != currentEventId) ==> n == AllEvents
    ensures Truthy(currentEventId) && Find(events, currentEventId.value).Some? ==>
              n == Find(events, currentEventId.value).value.name.GetOr(AllEvents)
  {
    if !Truthy(currentEventId) then AllEvents
    else
      match Find(events, currentEventId.value)
      case None => AllEvents
      case Some(e) => e.name.GetOr(AllEvents)
  }

  /** The provider's state. */
  class EventState {
    var events: seq<EventItem>
    var currentEventId: Option<string>
    /** `localStorage["selectedEventId"]`, `None` when never written. */
    var saved: Option<string>

    constructor(stored: Option<string>)
      ensures events == [] && currentEventId.None? && saved == stored
    {
      events, currentEventId, saved := [], None, stored;
    }

    function CurrentEventName(): string
      reads this
    {
      EventName(events, currentEventId)
    }

    /** `setEvent(eventId)`: select it and store it, `""` for none. */
    method SetEvent(eventId: Option<string>)
      modifies this
      ensures currentEventId == eventId
      ensures saved == Some(eventId.GetOr(""))
      ensures events == old(events)
    {
      currentEventId := eventId;
      saved := Some(eventId.GetOr(""));
    }

    /**
      The start-up effect: load the events, then select the saved id if it is
      non-empty, otherwise the id of the most recent active event, if any.
    */
    method Start(loaded: seq<EventItem>, mostRecentFails: bool)
      modifies this
      ensures events == loaded && saved == old(saved)
      ensures Truthy(old(saved)) ==> currentEventId == old(saved)
      ensures !Truthy(old(saved)) ==>
                var m := if mostRecentFails then None else MostRecentActive(loaded);
                currentEventId == (if m.Some? then m.value.id else None)
    {
      events := loaded;
      var s := OrElse(saved, "");
      if s != "" {
        currentEventId := Some(s);
        return;
      }
      var mostRecent := GetMostRecentActiveEvent(loaded, mostRecentFails);
      currentEventId := if mostRecent.Some? then mostRecent.value.id else None;
    }
  }

  /** A selection just made shows the name of that event when it is loaded. */
  lemma SelectedNameIsEventName(events: seq<EventItem>, i: int)
    requires 0 <= i < |events| && events[i].id.Some? && events[i].id.value != ""
    requires forall j :: 0 <= j < i ==> events[j].id != events[i].id
    ensures EventName(events, events[i].id) == events[i].name.GetOr(AllEvents)
  {
    FindFirst(events, i);
  }

  lemma {:induction false} FindFirst(events: seq<EventItem>, i: int)
    requires 0 <= i < |events| && events[i].id.Some?
    requires forall j :: 0 <= j < i ==> events[j].id != events[i].id
    ensures Find(events, events[i].id.value) == Some(events[i])
  {
    if i > 0 {
      FindFirst(events[1..], i - 1);
    }
  }

  /** What `useEventContext` gives: the state, or the error thrown outside a provider. */
  datatype ContextUse = Provided(state: EventState) | Thrown(message: string)

  function UseEventContext(ctx: Option<EventState>): (r: ContextUse)
    ensures ctx.None? <==> r == Thrown(OutsideProvider)
    ensures ctx.Some? ==> r == Provided(ctx.value)
  {
    if ctx.None? then Thrown(OutsideProvider) else Provided(ctx.value)
  }
}
