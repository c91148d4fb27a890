/**
 * `MultiGAClient`: hands every hit to each of its clients in array order.
 * The clients are code this model does not see, so each is named by its
 * position-independent reference and its answer to a hit is a parameter
 * (`respond`); what a method does is the list of calls it makes, in order,
 * and whether it returns or throws. There is no catch: the first client that
 * throws ends the loop.
 */
module MultiClient {
  import opened Common
  import opened Hits

  /** A client in the array. */
  datatype ClientRef = ClientRef(id: nat)

  /** One call `c.Event(data)` (or `AppView`, `Item`, `Timing`, as the hit says). */
  datatype Call = Call(client: ClientRef, hit: Hit)

  /** The calls the loop makes and how it ends. */
  function Dispatch(clients: seq<ClientRef>, h: Hit, respond: (ClientRef, Hit) -> Outcome): (r: (seq<Call>, Outcome))
    ensures |r.0| <= |clients|
    ensures forall i :: 0 <= i < |r.0| ==> r.0[i] == Call(clients[i], h)
    ensures r.1.Pass? <==> forall i :: 0 <= i < |clients| ==> respond(clients[i], h).Pass?
    ensures r.1.Pass? ==> |r.0| == |clients|
    ensures r.1.Fail? ==> && |r.0| > 0
                          && r.1 == respond(clients[|r.0| - 1], h)
                          && forall i :: 0 <= i < |r.0| - 1 ==> respond(clients[i], h).Pass?
    decreases |clients|
  {
    if |clients| == 0 then ([], Pass)
    else
      var o := respond(clients[0], h);
      if o.Fail? then ([Call(clients[0], h)], o)
      else
        var rest := Dispatch(clients[1..], h, respond);
        assert forall i :: 1 <= i < |clients| ==> clients[i] == clients[1..][i - 1];
        ([Call(clients[0], h)] + rest.0, rest.1)
  }

  /** With no clients nothing is called and nothing fails. */
  lemma NoClientsNoCalls(h: Hit, respond: (ClientRef, Hit) -> Outcome)
    ensures Dispatch([], h, respond) == ([], Pass)
  {
  }

  /**
   * When every client returns, each is called exactly once, in array order,
   * with the identical hit.
   */
  lemma AllClientsCalled(clients: seq<ClientRef>, h: Hit, respond: (ClientRef, Hit) -> Outcome)
    requires forall i :: 0 <= i < |clients| ==> respond(clients[i], h).Pass?
    ensures Dispatch(clients, h, respond) == (seq(|clients|, i requires 0 <= i < |clients| => Call(clients[i], h)), Pass)
  {
    var r := Dispatch(clients, h, respond);
    assert r.0 == seq(|clients|, i requires 0 <= i < |clients| => Call(clients[i], h));
  }

  /** A client that throws is the last one called; its exception is the result. */
  lemma StopsAtFirstFailure(clients: seq<ClientRef>, h: Hit, respond: (ClientRef, Hit) -> Outcome, j: nat)
    requires j < |clients| && respond(clients[j], h).Fail?
    requires forall i :: 0 <= i < j ==> respond(clients[i], h).Pass?
    ensures Dispatch(clients, h, respond).0 == seq(j + 1, i requires 0 <= i <= j => Call(clients[i], h))
    ensures Dispatch(clients, h, respond).1 == respond(clients[j], h)
  {
    var r := Dispatch(clients, h, respond);
    assert r.1.Fail?;
    var n := |r.0| - 1;
    assert n >= j;
    assert n <= j;
    assert r.0 == seq(j + 1, i requires 0 <= i <= j => Call(clients[i], h));
  }

  class MultiGAClient {
    const clients: seq<ClientRef>

    constructor (clients: seq<ClientRef>)
      ensures this.clients == clients
    {
      this.clients := clients;
    }

    /** `foreach (var c in clients) c.<method>(data)`. */
    method Send(h: Hit, respond: (ClientRef, Hit) -> Outcome) returns (calls: seq<Call>, r: Outcome)
      ensures (calls, r) == Dispatch(clients, h, respond)
    {
      calls := [];
      var i := 0;
      while i < |clients|
        invariant 0 <= i <= |clients|
        invariant calls == seq(i, j requires 0 <= j < i => Call(clients[j], h))
        invariant forall j :: 0 <= j < i ==> respond(clients[j], h).Pass?
      {
        calls := calls + [Call(clients[i], h)];
        var o := respond(clients[i], h);
        if o.Fail? {
          assert calls == seq(i + 1, j requires 0 <= j <= i => Call(clients[j], h));
          StopsAtFirstFailure(clients, h, respond, i);
          return calls, o;
        }
        i := i + 1;
      }
      AllClientsCalled(clients, h, respond);
      r := Pass;
    }

    method Event(data: GAEvent, respond: (ClientRef, Hit) -> Outcome) returns (calls: seq<Call>, r: Outcome)
      ensures (calls, r) == Dispatch(clients, EventHit(data), respond)
    {
      calls, r := Send(EventHit(data), respond);
    }

    method AppView(data: GAAppView, respond: (ClientRef, Hit) -> Outcome) returns (calls: seq<Call>, r: Outcome)
      ensures (calls, r) == Dispatch(clients, AppViewHit(data), respond)
    {
      calls, r := Send(AppViewHit(data), respond);
    }

    method Item(data: GAItem, respond: (ClientRef, Hit) -> Outcome) returns (calls: seq<Call>, r: Outcome)
      ensures (calls, r) == Dispatch(clients, ItemHit(data), respond)
    {
      calls, r := Send(ItemHit(data), respond);
    }

    method Timing(data: GATiming, respond: (ClientRef, Hit) -> Outcome) returns (calls: seq<Call>, r: Outcome)
      ensures (calls, r) == Dispatch(clients, TimingHit(data), respond)
    {
      calls, r := Send(TimingHit(data), respond);
    }
  }
}
