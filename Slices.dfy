/** The mobile client's Redux slices, mobile-client/src/store/slices/contentSlice.ts and
    eventsSlice.ts: their initial states and reducers. A slice is an object whose fields
    the reducers assign (Immer's draft), so each is a class. */
module Slices {
  import opened Wrappers

  datatype Content = Content(id: string, userId: string, eventId: string, mediaType: string, caption: string,
                             tags: seq<string>, createdAt: string)

  datatype Location = Location(latitude: real, longitude: real, address: string)

  datatype Event = Event(id: string, name: string, description: string, startDate: string, endDate: string,
                         location: Location, brandId: string)

  class ContentSlice {
    var content: seq<Content>
    var loading: bool

    /** initialState. */
    constructor ()
      ensures content == [] && !loading
    {
      content := [];
      loading := false;
    }

    method SetContent(payload: seq<Content>)
      modifies this
      ensures content == payload && loading == old(loading)
    {
      content := payload;
    }

    /** addContent: `unshift`, so the newest item comes first. */
    method AddContent(payload: Content)
      modifies this
      ensures |content| == |old(content)| + 1
      ensures content[0] == payload && content[1..] == old(content)
      ensures loading == old(loading)
    {
      content := [payload] + content;
    }

    method SetLoading(payload: bool)
      modifies this
      ensures loading == payload && content == old(content)
    {
      loading := payload;
    }
  }

  class EventsSlice {
    var events: seq<Event>
    var currentEvent: Option<Event>
    var loading: bool

    /** initialState. */
    constructor ()
      ensures events == [] && currentEvent == None && !loading
    {
      events := [];
      currentEvent := None;
      loading := false;
    }

    method SetEvents(payload: seq<Event>)
      modifies this
      ensures events == payload && currentEvent == old(currentEvent) && loading == old(loading)
    {
      events := payload;
    }

    method SetCurrentEvent(payload: Event)
      modifies this
      ensures currentEvent == Some(payload) && events == old(events) && loading == old(loading)
    {
      currentEvent := Some(payload);
    }

    method SetLoading(payload: bool)
      modifies this
      ensures loading == payload && events == old(events) && currentEvent == old(currentEvent)
    {
      loading := payload;
    }
  }
}
