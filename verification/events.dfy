/**
 * Listener notification. A listener is an object known by its identity; a
 * notification is recorded as a delivery of an event to a listener, so the
 * firing loops return the deliveries they make, in order.
 */
module Events {

  /** An `OAuthListener` registered with a flow or an opener. */
  class Listener {
    constructor()
    {
    }
  }

  datatype Delivery<+E> = Delivery(listener: Listener, event: E)

  /** Every listener gets the event once, in list order. */
  function Broadcast<E>(listeners: seq<Listener>, e: E): (ds: seq<Delivery<E>>)
    ensures |ds| == |listeners|
    ensures forall i :: 0 <= i < |ds| ==> ds[i] == Delivery(listeners[i], e)
  {
    if listeners == [] then [] else [Delivery(listeners[0], e)] + Broadcast(listeners[1..], e)
  }

  /** The `for (OAuthListener li : listeners)` loop that calls every listener. */
  method Fire<E>(listeners: seq<Listener>, e: E) returns (ds: seq<Delivery<E>>)
    ensures ds == Broadcast(listeners, e)
  {
    ds := [];
    for i := 0 to |listeners|
      invariant ds == Broadcast(listeners[..i], e)
    {
      BroadcastAppend(listeners[..i], listeners[i], e);
      assert listeners[..i + 1] == listeners[..i] + [listeners[i]];
      ds := ds + [Delivery(listeners[i], e)];
    }
    assert listeners[..|listeners|] == listeners;
  }

  lemma BroadcastAppend<E>(ls: seq<Listener>, l: Listener, e: E)
    ensures Broadcast(ls + [l], e) == Broadcast(ls, e) + [Delivery(l, e)]
  {
  }

  /** A listener that is not registered receives nothing. */
  lemma {:induction false} NotRegisteredNotNotified<E>(listeners: seq<Listener>, l: Listener, e: E)
    requires l !in listeners
    ensures forall d :: d in Broadcast(listeners, e) ==> d.listener != l
  {
    if listeners != [] {
      NotRegisteredNotNotified(listeners[1..], l, e);
    }
  }
}
