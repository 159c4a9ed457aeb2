/**
 * The opener of the earlier generation (OAuthPopupOpener.java). Besides
 * the attach/detach bookkeeping of the base opener it points the flow's
 * callback at the page it is created on and passes the callback and scope
 * on to the flow's configuration.
 */
module LegacyPopupOpener {
  import opened Wrappers
  import Uris
  import Seqs
  import Events
  import Scribe
  import PopupConfig
  import PopupOpener
  import BaseUI = PopupUI
  import opened LegacyFlow
  import opened LegacyPopupUI

  class Opener {
    const data: Flow
    var listeners: seq<Events.Listener>
    var dataListener: Option<Events.Listener>
    var parameters: map<string, string>

    /** The opener starts with the flow's callback set to the default callback of the page. */
    constructor(data: Flow, location: Uris.Uri)
      modifies data.config`callback
      ensures this.data == data && listeners == [] && dataListener.None? && parameters == map[]
      ensures data.config.callback == Some(PopupConfig.InitialCallbackUrl(location))
    {
      this.data := data;
      listeners := [];
      dataListener := None;
      parameters := map[];
      new;
      SetCallbackToDefault(location);
    }

    method SetCallback(callback: Option<string>)
      modifies data.config`callback
      ensures data.config.callback == callback
    {
      var _ := data.config.SetCallback(callback);
    }

    /** `setCallbackToDefault`: scheme, "://", authority and path of the current page. */
    method SetCallbackToDefault(location: Uris.Uri)
      modifies data.config`callback
      ensures data.config.callback == Some(PopupConfig.InitialCallbackUrl(location))
    {
      SetCallback(Some(PopupConfig.InitialCallbackUrl(location)));
    }

    method SetScope(scope: Option<string>)
      modifies data.config`scope
      ensures data.config.scope == scope
    {
      var _ := data.config.SetScope(scope);
    }

    method AddOAuthListener(l: Events.Listener)
      modifies this`listeners
      ensures listeners == old(listeners) + [l]
    {
      listeners := listeners + [l];
    }

    method RemoveOAuthListener(l: Events.Listener)
      modifies this`listeners
      ensures listeners == Seqs.RemoveFirst(old(listeners), l)
    {
      listeners := Seqs.RemoveFirst(listeners, l);
    }

    /** `attach`: as the base opener's, with this generation's attribute name. */
    method Attach(session: LegacySession)
      modifies this`parameters, this`dataListener, session`attributes, data`listeners
      ensures session.attributes == old(session.attributes)[SessionAttributeName(data.id) := data]
      ensures parameters == old(parameters)[BaseUI.DataParamName := SessionAttributeName(data.id)]
      ensures dataListener.Some? && fresh(dataListener.value)
      ensures data.listeners == old(data.listeners) + [dataListener.value]
    {
      var attr := SessionAttributeName(data.id);
      session.SetAttribute(attr, Some(data));
      parameters := parameters[BaseUI.DataParamName := attr];
      var l := new Events.Listener();
      dataListener := Some(l);
      data.AddListener(l);
    }

    /** `detach`: the internal listener is unsubscribed and the session attribute cleared. */
    method Detach(session: LegacySession)
      modifies session`attributes, data`listeners
      ensures dataListener.Some? ==> data.listeners == Seqs.RemoveFirst(old(data.listeners), dataListener.value)
      ensures dataListener.None? ==> data.listeners == old(data.listeners)
      ensures session.attributes == old(session.attributes) - {SessionAttributeName(data.id)}
    {
      if dataListener.Some? {
        data.RemoveListener(dataListener.value);
      }
      session.SetAttribute(SessionAttributeName(data.id), None);
    }

    method FireAuthSuccessful(token: Scribe.Token, isOAuth20: bool) returns (ds: seq<Events.Delivery<Event>>)
      ensures ds == Events.Broadcast(listeners, AuthSuccessful(token, isOAuth20))
    {
      ds := Events.Fire(listeners, AuthSuccessful(token, isOAuth20));
    }

    method FireAuthFailed(reason: string) returns (ds: seq<Events.Delivery<Event>>)
      ensures ds == Events.Broadcast(listeners, AuthDenied(reason))
    {
      ds := Events.Fire(listeners, AuthDenied(reason));
    }

    /** The internal listener passes what the flow tells it on to the opener's listeners. */
    method Receive(d: Events.Delivery<Event>) returns (ds: seq<Events.Delivery<Event>>)
      requires dataListener == Some(d.listener)
      ensures ds == PopupOpener.Relayed([d], d.listener, listeners)
    {
      match d.event
      case AuthSuccessful(token, isOAuth20) =>
        ds := FireAuthSuccessful(token, isOAuth20);
      case AuthDenied(reason) =>
        ds := FireAuthFailed(reason);
    }
  }
}
