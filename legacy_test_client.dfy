/**
 * The older `GATestClient`: three public lists (events, screen views and
 * items) that record the hits received, and `clear`.
 */
module LegacyTestClient {
  import opened Hits

  class GATestClient {
    var events: seq<GAEvent>
    var appViews: seq<GAAppView>
    var items: seq<GAItem>

    constructor ()
      ensures events == [] && appViews == [] && items == []
    {
      events, appViews, items := [], [], [];
    }

    /** `clear`: all three lists become empty. */
    method Clear()
      modifies this
      ensures events == [] && appViews == [] && items == []
    {
      events, appViews, items := [], [], [];
    }

    method Event(data: GAEvent)
      modifies this
      ensures events == old(events) + [data] && appViews == old(appViews) && items == old(items)
    {
      events := events + [data];
    }

    method AppView(data: GAAppView)
      modifies this
      ensures appViews == old(appViews) + [data] && events == old(events) && items == old(items)
    {
      appViews := appViews + [data];
    }

    method Item(data: GAItem)
      modifies this
      ensures items == old(items) + [data] && events == old(events) && appViews == old(appViews)
    {
      items := items + [data];
    }
  }
}
