/**
 * The extension that opens the popup (base/OAuthPopupOpenerAbstract.java).
 * It keeps its own listeners; while attached, its flow is stored in the
 * session under the flow's attribute name, the popup is told that name in
 * its `data` parameter, and an internal listener on the flow passes every
 * event on to the opener's listeners.
 */
module PopupOpener {
  import opened Wrappers
  import Seqs
  import Events
  import Scribe
  import opened OAuthFlow
  import opened CallbackHandlers
  import PopupUI

  /**
   * What the opener's listeners receive from the deliveries a flow makes:
   * each delivery to the internal listener becomes one round of its own
   * listeners, in order; deliveries to other listeners add nothing.
   */
  function Relayed<E>(ds: seq<Events.Delivery<E>>, internal: Events.Listener, listeners: seq<Events.Listener>)
    : seq<Events.Delivery<E>>
  {
    if ds == [] then []
    else (if ds[0].listener == internal then Events.Broadcast(listeners, ds[0].event) else [])
         + Relayed(ds[1..], internal, listeners)
  }

  /**
   * While the internal listener is subscribed once, an event the flow fires
   * reaches every listener of the opener once, in their order.
   */
  lemma {:induction false} RelayedOnce<E>(flowListeners: seq<Events.Listener>, internal: Events.Listener,
                                          listeners: seq<Events.Listener>, e: E)
    requires multiset(flowListeners)[internal] == 1
    ensures Relayed(Events.Broadcast(flowListeners, e), internal, listeners) == Events.Broadcast(listeners, e)
  {
    assert flowListeners == [flowListeners[0]] + flowListeners[1..];
    var ds := Events.Broadcast(flowListeners, e);
    assert ds[1..] == Events.Broadcast(flowListeners[1..], e);
    if flowListeners[0] == internal {
      assert multiset(flowListeners[1..])[internal] == 0;
      RelayedNone(flowListeners[1..], internal, listeners, e);
    } else {
      RelayedOnce(flowListeners[1..], internal, listeners, e);
    }
  }

  /** Once the internal listener is unsubscribed, the opener's listeners hear nothing of the flow. */
  lemma {:induction false} RelayedNone<E>(flowListeners: seq<Events.Listener>, internal: Events.Listener,
                                          listeners: seq<Events.Listener>, e: E)
    requires internal !in flowListeners
    ensures Relayed(Events.Broadcast(flowListeners, e), internal, listeners) == []
  {
    if flowListeners != [] {
      var ds := Events.Broadcast(flowListeners, e);
      assert ds[1..] == Events.Broadcast(flowListeners[1..], e);
      RelayedNone(flowListeners[1..], internal, listeners, e);
    }
  }

  class Opener {
    const data: Flow
    var listeners: seq<Events.Listener>
    var dataListener: Option<Events.Listener>
    /** The parameters the popup window is opened with. */
    var parameters: map<string, string>

    constructor(data: Flow)
      ensures this.data == data && listeners == [] && dataListener.None? && parameters == map[]
    {
      this.data := data;
      listeners := [];
      dataListener := None;
      parameters := map[];
    }

    method AddOAuthListener(l: Events.Listener)
      modifies this`listeners
      ensures listeners == old(listeners) + [l]
    {
      listeners := listeners + [l];
    }

    method RemoveOAuthListener(l: Events.Listener)
      modifies this`listeners
      ensures listeners == Seqs.RemoveFirst(old(listeners), l)
    {
      listeners := Seqs.RemoveFirst(listeners, l);
    }

    /**
     * `attach`: the flow goes into the session under its attribute name,
     * the popup's `data` parameter names it, and a new internal listener is
     * subscribed to the flow.
     */
    method Attach(session: VaadinSession)
      modifies this`parameters, this`dataListener, session`attributes, data`listeners
      ensures session.attributes == old(session.attributes)[SessionAttributeName(data.id) := data]
      ensures parameters == old(parameters)[PopupUI.DataParamName := SessionAttributeName(data.id)]
      ensures dataListener.Some? && fresh(dataListener.value)
      ensures data.listeners == old(data.listeners) + [dataListener.value]
    {
      var attr := SessionAttributeName(data.id);
      session.SetAttribute(attr, Some(data));
      parameters := parameters[PopupUI.DataParamName := attr];
      var l := new Events.Listener();
      dataListener := Some(l);
      data.AddListener(l);
    }

    /**
     * `detach`: the internal listener is unsubscribed (nothing is removed
     * if there never was one) and the session attribute is cleared.
     */
    method Detach(session: VaadinSession)
      modifies session`attributes, data`listeners
      ensures dataListener.Some? ==> data.listeners == Seqs.RemoveFirst(old(data.listeners), dataListener.value)
      ensures dataListener.None? ==> data.listeners == old(data.listeners)
      ensures session.attributes == old(session.attributes) - {SessionAttributeName(data.id)}
    {
      if dataListener.Some? {
        data.RemoveListener(dataListener.value);
      }
      session.SetAttribute(SessionAttributeName(data.id), None);
    }

    /** `fireAuthSuccessful`: one task that tells every listener, in order. */
    method FireAuthSuccessful(token: Scribe.Token) returns (ds: seq<Events.Delivery<Event>>)
      ensures ds == Events.Broadcast(listeners, AuthSuccessful(token))
    {
      ds := Events.Fire(listeners, AuthSuccessful(token));
    }

    /** `fireAuthFailed`: one task that tells every listener the reason, in order. */
    method FireAuthFailed(reason: string) returns (ds: seq<Events.Delivery<Event>>)
      ensures ds == Events.Broadcast(listeners, AuthDenied(reason))
    {
      ds := Events.Fire(listeners, AuthDenied(reason));
    }

    /**
     * The internal listener's reaction to one delivery from the flow: a
     * success goes to `fireAuthSuccessful`, a denial to `fireAuthFailed`.
     */
    method Receive(d: Events.Delivery<Event>) returns (ds: seq<Events.Delivery<Event>>)
      requires dataListener == Some(d.listener)
      ensures ds == Relayed([d], d.listener, listeners)
    {
      match d.event
      case AuthSuccessful(token) =>
        ds := FireAuthSuccessful(token);
      case AuthDenied(reason) =>
        ds := FireAuthFailed(reason);
    }
  }
}
