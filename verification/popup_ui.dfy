/**
 * The popup window's UI (base/OAuthPopupUIAbstract.java with its 1.0a and
 * 2.0 subclasses). On start it finds the flow whose session attribute the
 * opener named in the `data` parameter, gets a request token (1.0a only),
 * installs a callback handler in the session and sends the browser to the
 * provider's authorization URL.
 */
module PopupUI {
  import opened Wrappers
  import opened Failures
  import Http
  import Scribe
  import Seqs
  import Sessions
  import CallbackInjector
  import opened PopupConfig
  import opened OAuthFlow
  import opened CallbackHandlers

  /** `DATA_PARAM_NAME`. */
  const DataParamName: string := "data"

  const OpenerAdvice: string := "Please use OAuthPopupButton or a subclass to open OAuthPopup."

  function NoDataParameter(): string
  {
    "No URI parameter named \"" + DataParamName + "\".\n" + OpenerAdvice
  }

  function NoSessionAttribute(attr: string): string
  {
    "No session attribute named \"" + attr + "\" found.\n" + OpenerAdvice
  }

  /** The flows stored in the session. */
  function Flows(session: VaadinSession): set<Flow>
    reads session
  {
    session.attributes.Values
  }

  /**
   * The flow `init` works with: a missing `data` parameter and a missing
   * session attribute are both IllegalStateException, each with its own
   * message.
   */
  function LookUp<D, H(==)>(session: Sessions.Session<D, H>, req: Http.Request): (r: Result<D, Failure>)
    reads session
    ensures r.Ok? <==> (Http.Parameter(req, Some(DataParamName)).Some?
                        && Http.Parameter(req, Some(DataParamName)).value in session.attributes)
    ensures r.Ok? ==> r.value == session.attributes[Http.Parameter(req, Some(DataParamName)).value]
    ensures Http.Parameter(req, Some(DataParamName)).None? ==> r == Err(IllegalState(NoDataParameter()))
    ensures Http.Parameter(req, Some(DataParamName)).Some? && r.Err?
            ==> r == Err(IllegalState(NoSessionAttribute(Http.Parameter(req, Some(DataParamName)).value)))
  {
    match Http.Parameter(req, Some(DataParamName))
    case None => Err(IllegalState(NoDataParameter()))
    case Some(attr) =>
      match session.GetAttribute(attr)
      case None => Err(IllegalState(NoSessionAttribute(attr)))
      case Some(data) => Ok(data)
  }

  /** The flow `init` works with, as a set: empty when the look-up fails. */
  function LookedUp<D, H(==)>(session: Sessions.Session<D, H>, req: Http.Request): set<D>
    reads session
  {
    if LookUp(session, req).Ok? then {LookUp(session, req).value} else {}
  }

  /** The configuration the injector of the looked-up flow may write to. */
  function LookedUpState(session: VaadinSession, req: Http.Request): set<Config>
    reads session, LookedUp(session, req), set d | d in LookedUp(session, req) :: d.config
  {
    if LookUp(session, req).Ok? then InjectorFrame(LookUp(session, req).value.config) else {}
  }

  class PopupUI {
    var callbackHandler: Option<CallbackHandler>
    /** The location the page was sent to, if any. */
    var location: Option<string>

    constructor()
      ensures callbackHandler.None? && location.None?
    {
      callbackHandler := None;
      location := None;
    }

    /**
     * `init`. After a failed look-up or request token nothing is
     * installed. Otherwise a fresh handler of the flow's version, holding
     * the request token, is put first in the session's handlers; the
     * authorization URL for that token then becomes the page's location,
     * or its failure is thrown with the handler left in place.
     */
    method Init(session: VaadinSession, req: Http.Request) returns (r: Result<(), Failure>)
      requires forall d :: d in Flows(session) ==> d.Valid()
      modifies this, session`handlers, LookedUp(session, req)`service, LookedUpState(session, req)`state
      ensures session.attributes == old(session.attributes)
      ensures old(LookUp(session, req)).Err? ==>
        r == Err(old(LookUp(session, req)).error)
        && session.handlers == old(session.handlers) && callbackHandler == old(callbackHandler)
        && location == old(location)
      ensures old(LookUp(session, req)).Ok? ==>
        var data := old(LookUp(session, req)).value;
        old(data.config.callbackInjector).Some? && old(data.config.callbackInjector).value.StateInjector? ==>
        var c := old(data.config.callbackInjector).value.config;
        var token := old(data.NewRequestToken());
        c.state == if data.api.Api10a? && token.Ok? && old(data.AuthorizationUrlFor(token.value)).Ok?
                   then Some(CallbackInjector.StateWithPair(old(c.state), old(data.config.callbackParameterName),
                                                            old(data.config.callbackUrl)).value)
                   else old(c.state)
      ensures old(LookUp(session, req)).Ok? ==>
        var data := old(LookUp(session, req)).value;
        var token := old(data.NewRequestToken());
        data.Valid() && data.service == Some(old(data.CurrentService()))
        && (token.Err? ==> r == Err(token.error) && session.handlers == old(session.handlers)
                           && callbackHandler == old(callbackHandler) && location == old(location))
        && (token.Ok? ==>
              var url := old(data.AuthorizationUrlFor(token.value));
              callbackHandler.Some? && fresh(callbackHandler.value)
              && callbackHandler.value.data == data && callbackHandler.value.requestToken == token.value
              && session.handlers == [callbackHandler.value] + old(session.handlers)
              && (url.Err? ==> r == Err(url.error) && location == old(location))
              && (url.Ok? ==> r == Ok(()) && location == url.value))
    {
      var looked := LookUp(session, req);
      if looked.Err? {
        return Err(looked.error);
      }
      r := Start(session, looked.value);
    }

    /** What `init` does once the flow is found. */
    method Start(session: VaadinSession, data: Flow) returns (r: Result<(), Failure>)
      requires data.Valid()
      modifies this`callbackHandler, this`location, session`handlers, data`service, InjectorFrame(data.config)`state
      ensures old(data.config.callbackInjector).Some? && old(data.config.callbackInjector).value.StateInjector? ==>
        var c := old(data.config.callbackInjector).value.config;
        var token := old(data.NewRequestToken());
        c.state == if data.api.Api10a? && token.Ok? && old(data.AuthorizationUrlFor(token.value)).Ok?
                   then Some(CallbackInjector.StateWithPair(old(c.state), old(data.config.callbackParameterName),
                                                            old(data.config.callbackUrl)).value)
                   else old(c.state)
      ensures var token := old(data.NewRequestToken());
        data.Valid() && data.service == Some(old(data.CurrentService()))
        && (token.Err? ==> r == Err(token.error) && session.handlers == old(session.handlers)
                           && callbackHandler == old(callbackHandler) && location == old(location))
        && (token.Ok? ==>
              var url := old(data.AuthorizationUrlFor(token.value));
              callbackHandler.Some? && fresh(callbackHandler.value)
              && callbackHandler.value.data == data && callbackHandler.value.requestToken == token.value
              && session.handlers == [callbackHandler.value] + old(session.handlers)
              && (url.Err? ==> r == Err(url.error) && location == old(location))
              && (url.Ok? ==> r == Ok(()) && location == url.value))
    {
      var token := data.CreateNewRequestToken();
      if token.Err? {
        return Err(token.error);
      }
      AddCallbackHandler(session, token.value, data);
      data.AuthorizationUrlForKept(token.value);
      var url := data.AuthorizationUrl(token.value);
      if url.Err? {
        return Err(url.error);
      }
      location := url.value;
      r := Ok(());
    }

    /** `addCallbackHandler`, with the handler the UI of the flow's version creates. */
    method AddCallbackHandler(session: VaadinSession, requestToken: Option<Scribe.Token>, data: Flow)
      modifies this`callbackHandler, session`handlers
      ensures callbackHandler.Some? && fresh(callbackHandler.value)
      ensures callbackHandler.value.data == data
      ensures callbackHandler.value.requestToken == (if data.api.Api10a? then requestToken else None)
      ensures session.handlers == [callbackHandler.value] + old(session.handlers)
    {
      var h: CallbackHandler;
      if data.api.Api10a? {
        h := new CallbackHandler.ForOAuth10a(requestToken, data);
      } else {
        h := new CallbackHandler.ForOAuth20(data);
      }
      callbackHandler := Some(h);
      session.AddRequestHandler(h);
    }

    /**
     * `removeCallbackHandler`: the installed handler leaves the session and
     * the UI forgets it; with none installed nothing happens, so a second
     * call is harmless.
     */
    method RemoveCallbackHandler(session: VaadinSession)
      modifies this`callbackHandler, session`handlers
      ensures callbackHandler.None?
      ensures old(callbackHandler).None? ==> session.handlers == old(session.handlers)
      ensures old(callbackHandler).Some?
              ==> session.handlers == Seqs.RemoveFirst(old(session.handlers), old(callbackHandler).value)
    {
      if callbackHandler.Some? {
        session.RemoveRequestHandler(callbackHandler.value);
        callbackHandler := None;
      }
    }

    /**
     * `detach`: the handler's clean-up is queued again. With no handler
     * (init failed before installing one, or it was removed) this is a
     * NullPointerException.
     */
    method Detach(session: VaadinSession) returns (r: Result<(), Failure>)
      modifies session`pending
      ensures callbackHandler.None? ==> r == Err(NullPointer) && session.pending == old(session.pending)
      ensures callbackHandler.Some? ==> r == Ok(()) && session.pending == old(session.pending) + [callbackHandler.value]
    {
      if callbackHandler.None? {
        return Err(NullPointer);
      }
      callbackHandler.value.CleanUpSession(session);
      r := Ok(());
    }
  }
}
