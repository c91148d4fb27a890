/**
 * `GATestClient` of the struct-based generation: a client that records every
 * hit it receives, one list per kind of hit, and can be emptied with `clear`.
 */
module TestClient {
  import opened Hits

  /** The four lists, as one value. */
  datatype Recordings = Recordings(events: seq<GAEvent>, appViews: seq<GAAppView>,
                                   items: seq<GAItem>, timings: seq<GATiming>)

  const EMPTY: Recordings := Recordings([], [], [], [])

  /** The lists after one more hit: the hit goes at the end of its own list, the others stay. */
  function Record(s: Recordings, h: Hit): Recordings {
    match h
    case EventHit(e) => s.(events := s.events + [e])
    case AppViewHit(a) => s.(appViews := s.appViews + [a])
    case ItemHit(i) => s.(items := s.items + [i])
    case TimingHit(t) => s.(timings := s.timings + [t])
  }

  /** The lists after a run of hits, in call order. */
  function RecordAll(s: Recordings, hits: seq<Hit>): Recordings
    decreases |hits|
  {
    if |hits| == 0 then s else Record(RecordAll(s, hits[..|hits| - 1]), hits[|hits| - 1])
  }

  function EventsOf(hits: seq<Hit>): seq<GAEvent>
    decreases |hits|
  {
    if |hits| == 0 then []
    else EventsOf(hits[..|hits| - 1]) + (if hits[|hits| - 1].EventHit? then [hits[|hits| - 1].event] else [])
  }

  function AppViewsOf(hits: seq<Hit>): seq<GAAppView>
    decreases |hits|
  {
    if |hits| == 0 then []
    else AppViewsOf(hits[..|hits| - 1]) + (if hits[|hits| - 1].AppViewHit? then [hits[|hits| - 1].appView] else [])
  }

  function ItemsOf(hits: seq<Hit>): seq<GAItem>
    decreases |hits|
  {
    if |hits| == 0 then []
    else ItemsOf(hits[..|hits| - 1]) + (if hits[|hits| - 1].ItemHit? then [hits[|hits| - 1].item] else [])
  }

  function TimingsOf(hits: seq<Hit>): seq<GATiming>
    decreases |hits|
  {
    if |hits| == 0 then []
    else TimingsOf(hits[..|hits| - 1]) + (if hits[|hits| - 1].TimingHit? then [hits[|hits| - 1].timing] else [])
  }

  /** How many hits of the run are of each kind. */
  function CountKinds(hits: seq<Hit>): (counts: (nat, nat, nat, nat))
    ensures counts.0 + counts.1 + counts.2 + counts.3 == |hits|
    decreases |hits|
  {
    if |hits| == 0 then (0, 0, 0, 0)
    else
      var c := CountKinds(hits[..|hits| - 1]);
      match hits[|hits| - 1]
      case EventHit(_) => (c.0 + 1, c.1, c.2, c.3)
      case AppViewHit(_) => (c.0, c.1 + 1, c.2, c.3)
      case ItemHit(_) => (c.0, c.1, c.2 + 1, c.3)
      case TimingHit(_) => (c.0, c.1, c.2, c.3 + 1)
  }

  /**
   * After a run of hits each list has gained exactly the hits of its kind, in
   * call order, and nothing else; so its length has grown by their number.
   */
  lemma {:induction false} RecordAllInOrder(s: Recordings, hits: seq<Hit>)
    ensures RecordAll(s, hits).events == s.events + EventsOf(hits)
    ensures RecordAll(s, hits).appViews == s.appViews + AppViewsOf(hits)
    ensures RecordAll(s, hits).items == s.items + ItemsOf(hits)
    ensures RecordAll(s, hits).timings == s.timings + TimingsOf(hits)
    ensures var c := CountKinds(hits);
      && |EventsOf(hits)| == c.0 && |AppViewsOf(hits)| == c.1
      && |ItemsOf(hits)| == c.2 && |TimingsOf(hits)| == c.3
    decreases |hits|
  {
    if |hits| != 0 {
      RecordAllInOrder(s, hits[..|hits| - 1]);
    }
  }

  class GATestClient {
    var events: seq<GAEvent>
    var appViews: seq<GAAppView>
    var items: seq<GAItem>
    var timings: seq<GATiming>

    function Lists(): Recordings
      reads this
    {
      Recordings(events, appViews, items, timings)
    }

    constructor ()
      ensures Lists() == EMPTY
    {
      events, appViews, items, timings := [], [], [], [];
    }

    /** `clear`: all four lists become empty. */
    method Clear()
      modifies this
      ensures Lists() == EMPTY
    {
      events, appViews, items, timings := [], [], [], [];
    }

    method Event(data: GAEvent)
      modifies this
      ensures Lists() == Record(old(Lists()), EventHit(data))
    {
      events := events + [data];
    }

    method AppView(data: GAAppView)
      modifies this
      ensures Lists() == Record(old(Lists()), AppViewHit(data))
    {
      appViews := appViews + [data];
    }

    method Item(data: GAItem)
      modifies this
      ensures Lists() == Record(old(Lists()), ItemHit(data))
    {
      items := items + [data];
    }

    method Timing(data: GATiming)
      modifies this
      ensures Lists() == Record(old(Lists()), TimingHit(data))
    {
      timings := timings + [data];
    }
  }
}
