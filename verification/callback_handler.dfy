/**
 * The request handler a popup installs in the Vaadin session to catch the
 * provider's redirect (base/OAuthCallbackRequestHandlerAbstract.java, with
 * the 1.0a handler that keeps the request token and the 2.0 handler that
 * passes none). For each request it decides among four outcomes: not for
 * its flow, a verifier, a provider error, or an unspecified denial.
 */
module CallbackHandlers {
  import opened Wrappers
  import opened Failures
  import JavaStrings
  import UrlCodec
  import Uris
  import Http
  import Scribe
  import Events
  import Sessions
  import CallbackInjector
  import opened PopupConfig
  import opened OAuthFlow

  /** The page the popup is left with: it closes itself. */
  const CloseWindowHtml: string :=
    "<!DOCTYPE html><html lang=\"en\"><head><meta charset=\"utf-8\"/>"
    + "<script>window.close();</script></head><body></body></html>"

  const UnspecifiedReason: string := "OAuth failed due to an unspecified reason"

  /** What `URLDecoder.decode` throws on a malformed escape (its message is not modelled). */
  const UndecodableError: Failure := IllegalArgument("URLDecoder: malformed escape")

  datatype Outcome = NotMine | Verified(verifier: string) | Denied(reason: string)

  /**
   * The decision of `handleRequest` once its flow has said whether the
   * request is its callback: the verifier parameter wins; without one, the
   * error parameter (decoded once more) is the reason, or a fixed reason
   * when there is no error either.
   */
  function Decide(forMe: bool, verifierName: Option<string>, errorName: Option<string>, req: Http.Request)
    : (r: Result<Outcome, Failure>)
    ensures !forMe <==> r == Ok(NotMine)
    ensures forMe && Http.Parameter(req, verifierName).Some?
            ==> r == Ok(Verified(Http.Parameter(req, verifierName).value))
    ensures forMe && Http.Parameter(req, verifierName).None? && Http.Parameter(req, errorName).None?
            ==> r == Ok(Denied(UnspecifiedReason))
    ensures forMe && Http.Parameter(req, verifierName).None? && Http.Parameter(req, errorName).Some?
            ==> var decoded := UrlCodec.Decode(Http.Parameter(req, errorName).value);
                (decoded.None? ==> r == Err(UndecodableError))
                && (decoded.Some? ==> r == Ok(Denied(decoded.value)))
    ensures r.Ok? && r.value.Verified? ==> Http.Parameter(req, verifierName) == Some(r.value.verifier)
  {
    if !forMe then Ok(NotMine)
    else
      match Http.Parameter(req, verifierName)
      case Some(v) => Ok(Verified(v))
      case None =>
        match Http.Parameter(req, errorName)
        case None => Ok(Denied(UnspecifiedReason))
        case Some(e) =>
          match UrlCodec.Decode(e)
          case None => Err(UndecodableError)
          case Some(reason) => Ok(Denied(reason))
  }

  /**
   * The whole decision for a flow's handler: the flow's `isCallbackForMe`
   * first (whose failure propagates), then `Decide` with the names its
   * configuration gives.
   */
  function Decision(injector: Option<Injector>, id: string, verifierName: Option<string>, errorName: Option<string>,
                    req: Http.Request): (r: Result<Outcome, Failure>)
    ensures CallbackForMe(injector, id, req).Err? ==> r == Err(CallbackForMe(injector, id, req).error)
    ensures r == Ok(NotMine) <==> CallbackForMe(injector, id, req) == Ok(false)
    ensures CallbackForMe(injector, id, req) == Ok(true) ==> r == Decide(true, verifierName, errorName, req)
  {
    match CallbackForMe(injector, id, req)
    case Err(e) => Err(e)
    case Ok(forMe) => Decide(forMe, verifierName, errorName, req)
  }

  /**
   * When several popups are open, the redirect to the callback flow `n`
   * injected is answered by flow `n`'s handler alone: every other flow's
   * handler declines it (for the URI injectors, given a callback without a
   * `callback_id` of its own).
   */
  lemma OnlyItsOwnHandlerResponds(inj: Injector, callback: string, n: nat, m: nat,
                                  verifierName: Option<string>, errorName: Option<string>)
    requires inj.PathInjector? || inj.QueryInjector?
    requires Uris.Rebuildable(callback)
    requires inj.QueryInjector?
             ==> Http.Lookup(Http.QueryParameters(Uris.Requoted(Uris.Parse(callback).value).query), CallbackIdParameterName).None?
    ensures var r := InjectedCallback(inj, Some(callback), Some(CallbackIdParameterName), Some(JavaStrings.Decimal(n)));
      r.Ok? && r.value.Some? && Uris.Parse(r.value.value).Some?
      && var req := Http.Arrival(Uris.Parse(r.value.value).value);
         (Decision(Some(inj), JavaStrings.Decimal(m), verifierName, errorName, req) == Ok(NotMine) <==> m != n)
  {
    UriCallbackReachesItsFlow(inj, callback, n, m);
  }

  /** The response of the popup window: its content type and what was written to it. */
  class Response {
    var contentType: Option<string>
    var body: string

    constructor()
      ensures contentType.None? && body == []
    {
      contentType := None;
      body := [];
    }
  }

  type VaadinSession = Sessions.Session<Flow, CallbackHandler>

  class CallbackHandler {
    const data: Flow
    /** The 1.0a request token; always `None` for the 2.0 handler. */
    const requestToken: Option<Scribe.Token>

    /** `new OAuth10aCallbackRequestHandlerImpl(requestToken, data)`. */
    constructor ForOAuth10a(requestToken: Option<Scribe.Token>, data: Flow)
      ensures this.data == data && this.requestToken == requestToken
    {
      this.data := data;
      this.requestToken := requestToken;
    }

    /** `new OAuth20CallbackRequestHandlerImpl(data)`. */
    constructor ForOAuth20(data: Flow)
      ensures this.data == data && requestToken.None?
    {
      this.data := data;
      requestToken := None;
    }

    /** The outcome for a request, from the flow's id and its configuration. */
    function RequestOutcome(req: Http.Request): Result<Outcome, Failure>
      reads data.config
    {
      Decision(data.config.callbackInjector, data.id, data.config.verifierParameterName,
               data.config.errorParameterName, req)
    }

    /**
     * `handleRequest`. A request that is not for the flow is declined with
     * no effect. A verifier goes to the flow's `setVerifier` with this
     * handler's request token; an error or its absence to `setDenied`.
     * Either way the popup then gets the close-window page and the handler's
     * removal is queued. A failure propagates and nothing is written.
     */
    method HandleRequest(session: VaadinSession, req: Http.Request, response: Response)
      returns (r: Result<bool, Failure>, ds: seq<Events.Delivery<Event>>)
      requires data.Valid()
      modifies data`accessToken, data`service, response, session`pending
      ensures data.Valid()
      ensures var o := old(RequestOutcome(req));
        var untouched := response.contentType == old(response.contentType) && response.body == old(response.body)
                         && session.pending == old(session.pending) && data.accessToken == old(data.accessToken);
        var finished := response.contentType == Some("text/html") && response.body == old(response.body) + CloseWindowHtml
                        && session.pending == old(session.pending) + [this];
        match o
        case Err(e) => r == Err(e) && ds == [] && untouched && data.service == old(data.service)
        case Ok(NotMine) => r == Ok(false) && ds == [] && untouched && data.service == old(data.service)
        case Ok(Denied(reason)) =>
          r == Ok(true) && ds == Events.Broadcast(data.listeners, AuthDenied(reason)) && finished
          && data.accessToken == old(data.accessToken) && data.service == old(data.service)
        case Ok(Verified(v)) =>
          var ex := Exchange(old(data.CurrentService()), requestToken, v);
          data.service == Some(old(data.CurrentService()))
          && (ex.Ok? ==> r == Ok(true) && ds == Events.Broadcast(data.listeners, AuthSuccessful(ex.value))
                         && data.accessToken == Some(ex.value) && finished)
          && (ex.Err? ==> r == Err(Enriched(data.api, "Getting access token failed.")) && ds == [] && untouched)
    {
      ds := [];
      var forMe := data.IsCallbackForMe(req);
      if forMe.Err? {
        return Err(forMe.error), [];
      }
      if !forMe.value {
        return Ok(false), [];
      }
      var verifier := Http.Parameter(req, data.config.verifierParameterName);
      if verifier.Some? {
        var v := data.SetVerifier(requestToken, verifier.value);
        if v.Err? {
          return Err(v.error), [];
        }
        ds := v.value;
        Finish(session, response);
        return Ok(true), ds;
      }
      var error := Http.Parameter(req, data.config.errorParameterName);
      var reason;
      if error.None? {
        reason := UnspecifiedReason;
      } else {
        var decoded := UrlCodec.Decode(error.value);
        if decoded.None? {
          return Err(UndecodableError), [];
        }
        reason := decoded.value;
      }
      ds := data.SetDenied(reason);
      Finish(session, response);
      r := Ok(true);
    }

    /** `finish`: the close-window page as text/html, then `cleanUpSession`. */
    method Finish(session: VaadinSession, response: Response)
      modifies response, session`pending
      ensures response.contentType == Some("text/html")
      ensures response.body == old(response.body) + CloseWindowHtml
      ensures session.pending == old(session.pending) + [this]
    {
      response.contentType := Some("text/html");
      response.body := response.body + CloseWindowHtml;
      CleanUpSession(session);
    }

    /** `cleanUpSession`: this handler's removal is handed to `session.access`. */
    method CleanUpSession(session: VaadinSession)
      modifies session`pending
      ensures session.pending == old(session.pending) + [this]
    {
      session.AccessRemoveHandler(this);
    }
  }
}
