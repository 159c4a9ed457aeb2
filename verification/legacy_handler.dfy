/**
 * The callback request handler of the earlier generation
 * (OAuthCallbackRequestHandler.java). It claims a request by its path,
 * which must end in `oauthpopupcallback/<id>`, refuses a 1.0a callback
 * whose `oauth_token` is not its request token, and reports a denial with
 * a message of its own built from the first error parameter found.
 */
module LegacyHandler {
  import opened Wrappers
  import opened Failures
  import JavaStrings
  import Http
  import Scribe
  import Events
  import Sessions
  import Uris
  import FixedKeyInjecter
  import LegacyInjector
  import CallbackHandlers
  import LegacyConfig
  import opened LegacyFlow

  /** `CALLBACK_PATH`: the segment before the id in a callback path. */
  const CallbackPath: string := "oauthpopupcallback"

  /**
   * `pathForMe`: the path splits into at least two segments, the one
   * before the last is `oauthpopupcallback` and the last is the id; the
   * very test the fixed-key path injecter's extraction makes.
   */
  function PathForMe(path: Option<string>, id: string): (r: bool)
    ensures r <==> FixedKeyInjecter.ExtractId(FixedKeyInjecter.PathInjecter, Http.Request(path, [])) == Some(id)
  {
    if path.None? then false
    else
      var parts := JavaStrings.Split(path.value, '/');
      if |parts| < 2 then false
      else if CallbackPath != parts[|parts| - 2] then false
      else parts[|parts| - 1] == id
  }

  /**
   * The error parameter names of a flow. The flow class has no such
   * accessor; its configuration has one error parameter name.
   */
  function ErrorParameterNames(c: LegacyConfig.Config): seq<Option<string>>
    reads c
  {
    [c.errorParameterName]
  }

  /** The value of the first of `names` that the request has, if any. */
  function FirstError(req: Http.Request, names: seq<Option<string>>): (r: Option<string>)
    ensures r.Some? <==> exists i :: 0 <= i < |names| && Http.Parameter(req, names[i]).Some?
    ensures r.Some? ==> exists i :: 0 <= i < |names| && Http.Parameter(req, names[i]) == r
                                    && forall j :: 0 <= j < i ==> Http.Parameter(req, names[j]).None?
  {
    if names == [] then None
    else if Http.Parameter(req, names[0]).Some? then Http.Parameter(req, names[0])
    else
      var r := FirstError(req, names[1..]);
      FirstErrorShift(req, names, r);
      r
  }

  /** What is first among the later names is first among all of them when the first name is absent. */
  lemma FirstErrorShift(req: Http.Request, names: seq<Option<string>>, r: Option<string>)
    requires names != [] && Http.Parameter(req, names[0]).None?
    requires r.Some? <==> exists i :: 0 <= i < |names| - 1 && Http.Parameter(req, names[1..][i]).Some?
    requires r.Some? ==> exists i :: 0 <= i < |names| - 1 && Http.Parameter(req, names[1..][i]) == r
                                     && forall j :: 0 <= j < i ==> Http.Parameter(req, names[1..][j]).None?
    ensures r.Some? <==> exists i :: 0 <= i < |names| && Http.Parameter(req, names[i]).Some?
    ensures r.Some? ==> exists i :: 0 <= i < |names| && Http.Parameter(req, names[i]) == r
                                    && forall j :: 0 <= j < i ==> Http.Parameter(req, names[j]).None?
  {
    if r.Some? {
      var i :| 0 <= i < |names| - 1 && Http.Parameter(req, names[1..][i]) == r
               && forall j :: 0 <= j < i ==> Http.Parameter(req, names[1..][j]).None?;
      assert names[i + 1] == names[1..][i];
      forall j | 0 <= j < i + 1
        ensures Http.Parameter(req, names[j]).None?
      {
        if j > 0 {
          assert names[j] == names[1..][j - 1];
        }
      }
    }
    if exists i :: 0 <= i < |names| && Http.Parameter(req, names[i]).Some? {
      var i :| 0 <= i < |names| && Http.Parameter(req, names[i]).Some?;
      assert i > 0 && names[1..][i - 1] == names[i];
    }
  }

  /** The loop over the error names, stopping at the first one present. */
  method FindError(req: Http.Request, names: seq<Option<string>>) returns (error: Option<string>)
    ensures error == FirstError(req, names)
  {
    error := None;
    var i := 0;
    while i < |names|
      invariant 0 <= i <= |names|
      invariant error.None?
      invariant FirstError(req, names) == FirstError(req, names[i..])
    {
      error := Http.Parameter(req, names[i]);
      if error.Some? {
        return;
      }
      assert names[i..][1..] == names[i + 1..];
      i := i + 1;
    }
  }

  const DeniedPrefix: string := "OAuth denied: "

  /** The denial message: fixed without an error, the error after a fixed prefix otherwise. */
  function DenialMessage(error: Option<string>): (m: string)
    ensures error.None? ==> m == "OAuth failed."
    ensures error.Some? ==> DeniedPrefix <= m && m[|DeniedPrefix|..] == error.value
  {
    if error.None? then "OAuth failed." else DeniedPrefix + error.value
  }

  /** A 1.0a callback that names a request token other than the handler's. */
  predicate TokenMismatch(req: Http.Request, requestToken: Option<Scribe.Token>)
  {
    var reqTok := Http.Parameter(req, Some("oauth_token"));
    reqTok.Some? && requestToken.Some? && reqTok.value != requestToken.value.token
  }

  datatype Outcome = NotMine | Verified(verifier: string) | Denied(message: string)

  /** The decision of `handleRequest`. */
  function Decision(req: Http.Request, id: string, requestToken: Option<Scribe.Token>,
                    verifierName: Option<string>, errorNames: seq<Option<string>>): (r: Outcome)
    ensures r.NotMine? <==> !PathForMe(req.pathInfo, id) || TokenMismatch(req, requestToken)
    ensures r.Verified? <==> !r.NotMine? && Http.Parameter(req, verifierName).Some?
    ensures r.Verified? ==> Http.Parameter(req, verifierName) == Some(r.verifier)
    ensures r.Denied? ==> r.message == DenialMessage(FirstError(req, errorNames))
  {
    if !PathForMe(req.pathInfo, id) then NotMine
    else if TokenMismatch(req, requestToken) then NotMine
    else
      match Http.Parameter(req, verifierName)
      case Some(v) => Verified(v)
      case None => Denied(DenialMessage(FirstError(req, errorNames)))
  }

  /**
   * The standard legacy configurations inject the id with the keyed query
   * injecter, as the parameter `callback_id`, but this handler looks for
   * the id in the path, after `oauthpopupcallback`. The redirect to such a
   * flow's callback is declined by the flow's own handler, unless the
   * configured callback's path already ended in `oauthpopupcallback/<id>`.
   */
  lemma QueryInjectedCallbackDeclined(callback: string, n: nat, requestToken: Option<Scribe.Token>,
                                      verifierName: Option<string>, errorNames: seq<Option<string>>)
    requires Uris.Rebuildable(callback)
    requires !PathForMe(Some(Uris.Requoted(Uris.Parse(callback).value).path), JavaStrings.Decimal(n))
    ensures var id := JavaStrings.Decimal(n);
      var r := Injected(LegacyInjector.QueryInjecter, Some(callback), CallbackIdParameterName, Some(id));
      r.Ok? && Uris.Parse(r.value).Some?
      && Decision(Http.Arrival(Uris.Parse(r.value).value), id, requestToken, verifierName, errorNames) == NotMine
  {
    var id := JavaStrings.Decimal(n);
    var u := CallbackInjector.EncodedQueryChanged(Uris.Parse(callback).value, CallbackIdParameterName, id);
    var r := Injected(LegacyInjector.QueryInjecter, Some(callback), CallbackIdParameterName, Some(id));
    assert Uris.Parse(r.value) == Some(u);
    assert Http.Arrival(u).pathInfo == Some(Uris.Requoted(Uris.Parse(callback).value).path);
  }

  /**
   * When several popups are open, the redirect to the path the fixed-key
   * path injecter made for flow `n` is answered by flow `n`'s handler
   * alone, whatever the parameters say, as long as they do not contradict
   * the handler's request token.
   */
  lemma OnlyItsOwnHandlerResponds(path: string, n: nat, m: nat, parameters: seq<(string, string)>,
                                  requestToken: Option<Scribe.Token>, verifierName: Option<string>,
                                  errorNames: seq<Option<string>>)
    requires FixedKeyInjecter.ExtractId(FixedKeyInjecter.PathInjecter, Http.Request(Some(path), []))
             == Some(JavaStrings.Decimal(n))
    requires !TokenMismatch(Http.Request(Some(path), parameters), requestToken)
    ensures Decision(Http.Request(Some(path), parameters), JavaStrings.Decimal(m), requestToken, verifierName, errorNames)
              .NotMine?
            <==> m != n
  {
    if m != n {
      JavaStrings.DecimalInjective(m, n);
    }
  }

  class Handler {
    const requestToken: Option<Scribe.Token>
    const data: Flow

    /** The request token may be null (OAuth 2.0). */
    constructor(requestToken: Option<Scribe.Token>, data: Flow)
      ensures this.requestToken == requestToken && this.data == data
    {
      this.requestToken := requestToken;
      this.data := data;
    }

    function RequestOutcome(req: Http.Request): Outcome
      reads data.config
    {
      Decision(req, data.id, requestToken, data.config.verifierParameterName, ErrorParameterNames(data.config))
    }

    /**
     * `handleRequest`: a request that is not for this handler is declined
     * with no effect. A verifier goes to the flow's `setVerifier` with the
     * handler's request token, otherwise the denial message to `setDenied`;
     * then the popup gets the close-window page and the handler's removal is
     * queued. A failed exchange propagates and nothing is written.
     */
    method HandleRequest(session: Sessions.Session<Flow, Handler>, req: Http.Request,
                         response: CallbackHandlers.Response)
      returns (r: Result<bool, Failure>, ds: seq<Events.Delivery<Event>>)
      requires data.Valid()
      modifies data`accessToken, data`service, response, session`pending
      ensures data.Valid()
      ensures var o := old(RequestOutcome(req));
        var untouched := response.contentType == old(response.contentType) && response.body == old(response.body)
                         && session.pending == old(session.pending) && data.accessToken == old(data.accessToken);
        var finished := response.contentType == Some("text/html")
                        && response.body == old(response.body) + CallbackHandlers.CloseWindowHtml
                        && session.pending == old(session.pending) + [this];
        match o
        case NotMine => r == Ok(false) && ds == [] && untouched && data.service == old(data.service)
        case Denied(message) =>
          r == Ok(true) && ds == Events.Broadcast(data.listeners, AuthDenied(message)) && finished
          && data.accessToken == old(data.accessToken) && data.service == old(data.service)
        case Verified(v) =>
          var ex := OAuthFlow.Exchange(old(data.CurrentService()), requestToken, v);
          data.service == Some(old(data.CurrentService()))
          && (ex.Ok? ==> r == Ok(true) && ds == Events.Broadcast(data.listeners, AuthSuccessful(ex.value, data.IsOAuth20()))
                         && data.accessToken == (if data.IsOAuth10a() then Some(ex.value) else old(data.accessToken))
                         && finished)
          && (ex.Err? ==> r == Err(OAuthFlow.Enriched(data.api, "Getting access token failed.")) && ds == []
                          && untouched)
    {
      ds := [];
      if !PathForMe(req.pathInfo, data.id) {
        return Ok(false), [];
      }
      var reqTok := Http.Parameter(req, Some("oauth_token"));
      if reqTok.Some? && requestToken.Some? && reqTok.value != requestToken.value.token {
        return Ok(false), [];
      }
      var verifier := Http.Parameter(req, data.config.verifierParameterName);
      if verifier.Some? {
        var v := data.SetVerifier(requestToken, verifier.value);
        if v.Err? {
          return Err(v.error), [];
        }
        ds := v.value;
        Finish(session, response);
        return Ok(true), ds;
      }
      var error := FindError(req, ErrorParameterNames(data.config));
      var message := if error.None? then "OAuth failed." else DeniedPrefix + error.value;
      ds := data.SetDenied(message);
      Finish(session, response);
      r := Ok(true);
    }

    /** `finish`: the close-window page as text/html, then `cleanUpSession`. */
    method Finish(session: Sessions.Session<Flow, Handler>, response: CallbackHandlers.Response)
      modifies response, session`pending
      ensures response.contentType == Some("text/html")
      ensures response.body == old(response.body) + CallbackHandlers.CloseWindowHtml
      ensures session.pending == old(session.pending) + [this]
    {
      response.contentType := Some("text/html");
      response.body := response.body + CallbackHandlers.CloseWindowHtml;
      CleanUpSession(session);
    }

    /** `cleanUpSession`: this handler's removal is handed to `session.access`. */
    method CleanUpSession(session: Sessions.Session<Flow, Handler>)
      modifies session`pending
      ensures session.pending == old(session.pending) + [this]
    {
      session.AccessRemoveHandler(this);
    }
  }
}
