/**
 * The popup window's UI of the earlier generation (OAuthPopupUI.java):
 * the launch of the base UI, with a request token asked for only when the
 * flow is not OAuth 2.0 and the one handler class of that generation.
 */
module LegacyPopupUI {
  import opened Wrappers
  import opened Failures
  import Http
  import Scribe
  import Seqs
  import Sessions
  import BaseUI = PopupUI
  import opened LegacyFlow
  import opened LegacyHandler

  type LegacySession = Sessions.Session<Flow, Handler>

  function Flows(session: LegacySession): set<Flow>
    reads session
  {
    session.attributes.Values
  }

  class PopupUI {
    var callbackHandler: Option<Handler>
    var location: Option<string>

    constructor()
      ensures callbackHandler.None? && location.None?
    {
      callbackHandler := None;
      location := None;
    }

    /**
     * `init`: the flow named by the `data` parameter, a request token for a
     * flow that is not OAuth 2.0 (none otherwise), a fresh handler put first
     * in the session's handlers, then the authorization URL as the page's
     * location. Failures are those of the base UI.
     */
    method Init(session: LegacySession, req: Http.Request) returns (r: Result<(), Failure>)
      requires forall d :: d in Flows(session) ==> d.Valid()
      modifies this, session`handlers, BaseUI.LookedUp(session, req)`service
      ensures session.attributes == old(session.attributes)
      ensures old(BaseUI.LookUp(session, req)).Err? ==>
        r == Err(old(BaseUI.LookUp(session, req)).error)
        && session.handlers == old(session.handlers) && callbackHandler == old(callbackHandler)
        && location == old(location)
      ensures old(BaseUI.LookUp(session, req)).Ok? ==>
        var data := old(BaseUI.LookUp(session, req)).value;
        var token := if data.IsOAuth20() then Ok(None) else old(data.NewRequestToken());
        data.Valid() && data.service == Some(old(data.CurrentService()))
        && (token.Err? ==> r == Err(token.error) && session.handlers == old(session.handlers)
                           && callbackHandler == old(callbackHandler) && location == old(location))
        && (token.Ok? ==>
              var url := old(data.AuthorizationUrlFor(token.value));
              callbackHandler.Some? && fresh(callbackHandler.value)
              && callbackHandler.value.data == data && callbackHandler.value.requestToken == token.value
              && session.handlers == [callbackHandler.value] + old(session.handlers)
              && (url.Err? ==> r == Err(url.error) && location == old(location))
              && (url.Ok? ==> r == Ok(()) && location == Some(url.value)))
    {
      var looked := BaseUI.LookUp(session, req);
      if looked.Err? {
        return Err(looked.error);
      }
      r := Start(session, looked.value);
    }

    /** What `init` does once the flow is found. */
    method Start(session: LegacySession, data: Flow) returns (r: Result<(), Failure>)
      requires data.Valid()
      modifies this`callbackHandler, this`location, session`handlers, data`service
      ensures data.Valid() && data.service == Some(old(data.CurrentService()))
      ensures var token := if data.IsOAuth20() then Ok(None) else old(data.NewRequestToken());
        (token.Err? ==> r == Err(token.error) && session.handlers == old(session.handlers)
                        && callbackHandler == old(callbackHandler) && location == old(location))
        && (token.Ok? ==>
              var url := old(data.AuthorizationUrlFor(token.value));
              callbackHandler.Some? && fresh(callbackHandler.value)
              && callbackHandler.value.data == data && callbackHandler.value.requestToken == token.value
              && session.handlers == [callbackHandler.value] + old(session.handlers)
              && (url.Err? ==> r == Err(url.error) && location == old(location))
              && (url.Ok? ==> r == Ok(()) && location == Some(url.value)))
    {
      var requestToken: Option<Scribe.Token> := None;
      if !data.IsOAuth20() {
        var token := data.CreateNewRequestToken();
        if token.Err? {
          return Err(token.error);
        }
        requestToken := token.value;
      }
      AddCallbackHandler(session, requestToken, data);
      data.AuthorizationUrlForKept(requestToken);
      var url := data.AuthorizationUrl(requestToken);
      if url.Err? {
        return Err(url.error);
      }
      location := Some(url.value);
      r := Ok(());
    }

    method AddCallbackHandler(session: LegacySession, requestToken: Option<Scribe.Token>, data: Flow)
      modifies this`callbackHandler, session`handlers
      ensures callbackHandler.Some? && fresh(callbackHandler.value)
      ensures callbackHandler.value.data == data && callbackHandler.value.requestToken == requestToken
      ensures session.handlers == [callbackHandler.value] + old(session.handlers)
    {
      var h := new Handler(requestToken, data);
      callbackHandler := Some(h);
      session.AddRequestHandler(h);
    }

    /** `removeCallbackHandler`: removes and forgets the handler once; later calls do nothing. */
    method RemoveCallbackHandler(session: LegacySession)
      modifies this`callbackHandler, session`handlers
      ensures callbackHandler.None?
      ensures old(callbackHandler).None? ==> session.handlers == old(session.handlers)
      ensures old(callbackHandler).Some?
              ==> session.handlers == Seqs.RemoveFirst(old(session.handlers), old(callbackHandler).value)
    {
      if callbackHandler.Some? {
        session.RemoveRequestHandler(callbackHandler.value);
        callbackHandler := None;
      }
    }

    /** `detach`: the handler's clean-up is queued again; without a handler, NullPointerException. */
    method Detach(session: LegacySession) returns (r: Result<(), Failure>)
      modifies session`pending
      ensures callbackHandler.None? ==> r == Err(NullPointer) && session.pending == old(session.pending)
      ensures callbackHandler.Some? ==> r == Ok(()) && session.pending == old(session.pending) + [callbackHandler.value]
    {
      if callbackHandler.None? {
        return Err(NullPointer);
      }
      callbackHandler.value.CleanUpSession(session);
      r := Ok(());
    }
  }
}
