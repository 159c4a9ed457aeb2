# vaadin-oauthpopup: the popup OAuth flow, modelled in Dafny

The add-on lets a Vaadin application sign a user in with an OAuth 1.0a or
OAuth 2.0 provider in a popup window. A *flow* (`OAuthDataAbstract`, or the
older `OAuthData`) gets a fresh numeric id. The flow's *callback injector*
writes that id into the callback URL the provider will redirect to. The
opener stores the flow in the Vaadin session under an attribute name that
carries the id, and opens the popup UI with that name as its `data`
parameter. The popup UI looks the flow up, obtains a request token (1.0a
only), installs a *callback request handler* in the session and navigates
to the provider's authorization URL. When the provider redirects back,
every installed handler is asked in turn. Only the handler whose flow finds
its own id in the request answers. It reads the verifier (or the error),
has the flow exchange it for an access token, notifies the flow's
listeners and removes itself from the session.

The model covers both generations of the code:

- the current one in `base/`, `oauth10a/` and `oauth20/`: the config, the
  three injectors (path, query, provider `state`), the flow, the handler,
  the popup UI and the opener;
- the legacy one at the package root: `OAuthPopupConfig`, the keyed
  `OAuthCallbackInjector`, the fixed-key `OAuthCallbackInjecter`,
  `OAuthData`, `OAuthCallbackRequestHandler`, `OAuthPopupUI` and
  `OAuthPopupOpener`;
- the URL building of `buttons/GitHubApi.java`.

Modules and files:

- `Wrappers`, `Failures`: `Option`/`Result` and the Java exceptions as values.
- `JavaStrings`: `String.split` with Java's trailing-empty rule, `endsWith`,
  and the decimal rendering of the id counter.
- `UrlCodec`: `URLEncoder`/`URLDecoder` with UTF-8.
- `Uris`: `java.net.URI` as a record of raw components, with its parser,
  its decoding getters and its five-argument constructor.
- `Http`: a request as its path info plus its parameters in arrival order.
- `Scribe`: the Scribe service builder and services, as a record of options
  and function-valued oracles.
- `Events`, `Seqs`: listeners and their notifications; `List.remove`.
- `Sessions`: the Vaadin session, with its attributes, its request-handler
  list and its queue of `access` tasks.
- `CallbackInjector`, `PopupConfig`, `ConfigFactories`, `OAuthFlow`,
  `CallbackHandlers`, `PopupUI`, `PopupOpener`: the current generation.
- `LegacyInjector`, `FixedKeyInjecter`, `LegacyConfig`, `LegacyFlow`,
  `LegacyHandler`, `LegacyPopupUI`, `LegacyPopupOpener`: the legacy one.
- `GitHub`: the GitHub API's endpoints.

Java objects whose fields change (configs, flows, handlers, UIs, openers,
the session, the response) are Dafny classes, and their setters are methods
with `modifies` frames. Injectors, requests, URIs and Scribe options are
values. A `null` is `None`. A thrown exception is an `Err` that the caller
passes on. Calls into Scribe (request token, access token, authorization
URL) are oracles held by the service value, so each is a fixed function of
its inputs that may fail.

The legacy generation does not compile against the current one as written,
so the model joins the two as follows:

- The legacy flow calls `getCallbackUrl`, `setCallbackUrl` and
  `createScribeServiceBuilder` on its config. These are modelled as the
  legacy config's `callback` field and `asScribeConfig`.
- The legacy flow's `injectParameterToCallback` is the keyed injector of
  `OAuthCallbackInjector.java`.
- The legacy handler's `data.getVerifierParameterName()` is the config's
  verifier name. `data.getErrorParameterNames()` is the one-element list
  holding the config's error name.
- The legacy opener is built from a flow and the page location. Its
  constructor `(apiClass, key, secret)` builds a flow through a constructor
  that does not exist.
- The legacy listener's two-string `authSuccessful` becomes the event
  `AuthSuccessful(token, isOAuth20)` that the legacy flow fires.
- The legacy 2.0 `getAuthorizationUrl()` becomes the service's
  authorization URL with no additional parameters.
- The current popup UI builds a 1.0a handler for a 1.0a API and a 2.0
  handler for a 2.0 API. In the code it is an abstract factory method.
- The current popup UI calls `data.createNewRequestToken()` and
  `data.getAuthorizationUrl(requestToken)` on the abstract flow, which
  declares neither; the 2.0 flow has only a `getAuthorizationUrl()` without
  a token. The model's flow gives no request token for a 2.0 API and
  answers `AuthorizationUrl(requestToken)` by the API's version: the 1.0a
  URL for the token, or the 2.0 URL for the additional parameters.

The URI injectors read the callback's components through `java.net.URI`'s
getters (`getAuthority`, `getPath`, `getQuery`, `getFragment`). These
getters decode every `%XX` run as UTF-8 (`Uris.Decode`). The injectors then
hand the decoded components to the five-argument `URI` constructor, which
quotes what each part may not hold (`Uris.Quote`). The model does the same,
in the code's injection and in the corrected one of "## Findings".
The callback is thus rebuilt from its decoded components
(`Uris.Requoted`) before the id is added. A callback without escapes comes
out unchanged (`Uris.RequotedUnescaped`). One with escapes can change: an
escaped `/` in the path becomes a real one, and an escaped `&` in the query
becomes a separator. The rebuilt string can also read differently
(`http:/%2Fh/x` becomes `http://h/x`), or the constructor can refuse it,
which is the syntax error. The lemmas about injection assume the callback
survives this rebuilding (`Uris.Rebuildable`). The default callback joins
the location's decoded authority and decoded path in the same way.

On two points the code does less than its own design says (see
"## Findings"):

- Injected values are meant to read back verbatim. The query injectors
  percent-encode a value with `URLEncoder` and then hand it to the `URI`
  constructor, which quotes the `%` once more.
- The `state` injector is meant to read the id back from the request.
  Its extraction reads the config and never looks at the request.

Each point has a member that follows the code as written, and a lemma
shows the defect on it. The rest of the model is built on the corrected
definitions, so the flows, handlers and popup UIs show the behaviour the
design intends. "## Left out" names each member built on them. The
corrected query injection differs from the code only in the value's
second quoting, so for the decimal flow ids it is the code's injection
(`CallbackInjector.InjectValueAgrees`).

A third point is about configuration, not code. The standard legacy
configs use the keyed query injector, but the legacy handler only looks for
the id in the path. So a legacy flow's own handler declines the request
arriving on its callback (`LegacyHandler.QueryInjectedCallbackDeclined`).

## Model

| member | source | states |
|---|---|---|
| JavaStrings.SplitAll | oauthpopup/src/main/java/org/vaadin/addon/oauthpopup/base/OAuthCallbackInjector.java:78 | splitting yields at least one piece |
| JavaStrings.SplitAllPieces | oauthpopup/src/main/java/org/vaadin/addon/oauthpopup/base/OAuthCallbackInjector.java:78 | no piece of a split holds the separator |
| JavaStrings.DropTrailingEmpty | oauthpopup/src/main/java/org/vaadin/addon/oauthpopup/base/OAuthCallbackInjector.java:78-79 | Java's split drops exactly the trailing empty pieces, keeps the rest in order, and the last piece kept is non-empty |
| JavaStrings.SplitAllNoSeparator | oauthpopup/src/main/java/org/vaadin/addon/oauthpopup/base/OAuthCallbackInjector.java:78 | a string without the separator splits into itself alone |
| JavaStrings.SplitAllAppend | oauthpopup/src/main/java/org/vaadin/addon/oauthpopup/base/OAuthCallbackInjector.java:78 | splitting `a + d + b` gives the pieces of `a` followed by the pieces of `b` |
| JavaStrings.JoinSplitAll | oauthpopup/src/main/java/org/vaadin/addon/oauthpopup/base/OAuthCallbackInjector.java:78 | joining the pieces with the separator gives back the original string |
| JavaStrings.SplitEndsWithPair | oauthpopup/src/main/java/org/vaadin/addon/oauthpopup/base/OAuthCallbackInjector.java:78-86 | a path ending in `/key/value`, with no slash in the key or the value, splits into pieces whose last two are the key and the value |
| JavaStrings.EndsWith | oauthpopup/src/main/java/org/vaadin/addon/oauthpopup/base/OAuthCallbackInjector.java:60 | `endsWith` holds exactly when the string is something followed by the suffix |
| JavaStrings.Decimal | oauthpopup/src/main/java/org/vaadin/addon/oauthpopup/base/OAuthDataAbstract.java:29-31 | an id is a non-empty string of digits without a leading zero |
| JavaStrings.DecimalRoundTrip | oauthpopup/src/main/java/org/vaadin/addon/oauthpopup/base/OAuthDataAbstract.java:29-31 | reading the decimal string of an id gives the id back |
| JavaStrings.DecimalInjective | oauthpopup/src/main/java/org/vaadin/addon/oauthpopup/base/OAuthDataAbstract.java:29-31 | two different counter values give two different id strings |
| UrlCodec.Encode | oauthpopup/src/main/java/org/vaadin/addon/oauthpopup/base/OAuthCallbackInjector.java:59 | `URLEncoder.encode` output is empty only for empty input, is no shorter than its input, and holds only unreserved characters, `+` and `%XX` escapes |
| UrlCodec.EscapeValue | oauthpopup/src/main/java/org/vaadin/addon/oauthpopup/base/OAuthCallbackRequestHandlerAbstract.java:66-67 | `Integer.parseInt(s, 16)` of the two characters after a `%`: two hex digits give their byte; a leading `+` or `-` with one hex digit is read as a signed number, and a negative value is refused; any other non-hex character makes the escape malformed |
| UrlCodec.DecodeEncode | oauthpopup/src/main/java/org/vaadin/addon/oauthpopup/base/OAuthCallbackInjector.java:129-132 | `URLDecoder.decode(URLEncoder.encode(s))` is `s` for every string (UTF-8) |
| UrlCodec.EncodeUnreserved | oauthpopup/src/main/java/org/vaadin/addon/oauthpopup/base/OAuthCallbackInjector.java:59 | encoding leaves a string of unreserved characters unchanged |
| UrlCodec.DecodePlain | oauthpopup/src/main/java/org/vaadin/addon/oauthpopup/base/OAuthCallbackRequestHandlerAbstract.java:66-67 | decoding leaves a string without `%` and `+` unchanged |
| UrlCodec.Utf8RoundTrip | oauthpopup/src/main/java/org/vaadin/addon/oauthpopup/base/OAuthCallbackInjector.java:59 | the UTF-8 encoding the codec uses decodes back to the original characters |
| Uris.Parse | oauthpopup/src/main/java/org/vaadin/addon/oauthpopup/base/OAuthCallbackInjector.java:57 | `new URI(s)` yields, when it succeeds, a well-formed URI record |
| Uris.ParseShow | oauthpopup/src/main/java/org/vaadin/addon/oauthpopup/base/OAuthCallbackInjector.java:57-62 | parsing the rendered form of a well-formed URI gives the same URI |
| Uris.ShowParse | oauthpopup/src/main/java/org/vaadin/addon/oauthpopup/base/OAuthCallbackInjector.java:57-62 | rendering a parsed URI gives back the parsed string |
| Uris.Quote | oauthpopup/src/main/java/org/vaadin/addon/oauthpopup/base/OAuthCallbackInjector.java:61 | the five-argument URI constructor writes a non-empty component as a non-empty string that starts with the component's first character or with an escape |
| Uris.QuoteLegal | oauthpopup/src/main/java/org/vaadin/addon/oauthpopup/base/OAuthCallbackInjector.java:61 | whatever the component, what the constructor writes into it holds only characters legal there and well-formed escapes |
| Uris.QuoteKeeps | oauthpopup/src/main/java/org/vaadin/addon/oauthpopup/base/OAuthCallbackInjector.java:61 | a component without '%' whose characters are all legal in it is written unchanged |
| Uris.Construct | oauthpopup/src/main/java/org/vaadin/addon/oauthpopup/base/OAuthCallbackInjector.java:61-62 | the five-argument constructor with `toASCIIString` renders the components it is given; for a well-formed record parsing the result gives those components back |
| Uris.DecodeQuote | oauthpopup/src/main/java/org/vaadin/addon/oauthpopup/base/OAuthCallbackInjector.java:57-61 | the getters undo the constructor's quoting: decoding a quoted component gives back exactly what was quoted, for every string and every part |
| Uris.DecodeUnescaped | oauthpopup/src/main/java/org/vaadin/addon/oauthpopup/base/OAuthCallbackInjector.java:58 | a getter returns a component without escapes as it is |
| Uris.QuoteAppend | oauthpopup/src/main/java/org/vaadin/addon/oauthpopup/base/OAuthCallbackInjector.java:60-61 | the constructor quotes a concatenation piece by piece |
| Uris.QuoteEndsInSlash | oauthpopup/src/main/java/org/vaadin/addon/oauthpopup/base/OAuthCallbackInjector.java:60-61 | a quoted path ends in `/` exactly when the decoded path did, so the `endsWith("/")` test on the decoded path decides the same as one on the rebuilt path |
| Uris.RequotedUnescaped | oauthpopup/src/main/java/org/vaadin/addon/oauthpopup/base/OAuthCallbackInjector.java:57-61 | a well-formed callback without escapes is rebuilt from its getters exactly as it was |
| Uris.RequotedIdempotent | oauthpopup/src/main/java/org/vaadin/addon/oauthpopup/base/OAuthCallbackInjector.java:57-61 | rebuilding a URI from its getters a second time changes nothing more |
| Uris.RequotedWellFormed | oauthpopup/src/main/java/org/vaadin/addon/oauthpopup/base/OAuthCallbackInjector.java:57-61 | of a well-formed callback, the rebuilt authority, query and fragment are always legal and the authority stays non-empty; the rebuilt record is well-formed exactly when its decoded-and-requoted path still fits |
| Uris.ShowExcludes | oauthpopup/src/main/java/org/vaadin/addon/oauthpopup/base/OAuthCallbackInjector.java:57 | a character that no part and no separator may hold appears nowhere in a well-formed URI's string form |
| Uris.SpaceRefused | oauthpopup/src/main/java/org/vaadin/addon/oauthpopup/base/OAuthCallbackInjector.java:57 | `new URI(s)` refuses every string holding a bare space |
| Http.Lookup | oauthpopup/src/main/java/org/vaadin/addon/oauthpopup/base/OAuthCallbackInjector.java:112 | `getParameter` finds a value exactly when the request has a parameter of that name, and the value found is one sent under that name |
| Http.Parameter | oauthpopup/src/main/java/org/vaadin/addon/oauthpopup/base/OAuthCallbackRequestHandlerAbstract.java:53-54 | asking for a parameter under a `null` name gives `null`; otherwise it is the look-up of that name |
| Http.EncodedPiece | oauthpopup/src/main/java/org/vaadin/addon/oauthpopup/base/OAuthCallbackInjector.java:98 | a query piece `name=encode(value)` arrives as the parameter `(name, value)` |
| Http.QueryAppend | oauthpopup/src/main/java/org/vaadin/addon/oauthpopup/base/OAuthCallbackInjector.java:97-99 | appending `name=value` to a query (with `&` when there is one) appends exactly that parameter to the ones the request carries |
| Http.LookupAppend | oauthpopup/src/main/java/org/vaadin/addon/oauthpopup/base/OAuthCallbackInjector.java:112 | a parameter appended at the end is found only when no earlier one has the same name |
| Seqs.RemoveFirst | oauthpopup/src/main/java/org/vaadin/addon/oauthpopup/base/OAuthDataAbstract.java:99-101 | `List.remove` leaves a list without the element unchanged and otherwise removes exactly one element |
| Seqs.RemoveFirstMultiset | oauthpopup/src/main/java/org/vaadin/addon/oauthpopup/base/OAuthDataAbstract.java:99-101 | removal takes exactly one occurrence of the element out of the list's multiset |
| Seqs.RemoveFirstOfAppended | oauthpopup/src/main/java/org/vaadin/addon/oauthpopup/base/OAuthPopupOpenerAbstract.java:100-104 | removing the element that was just appended, when it was not already present, restores the list |
| Seqs.RemoveFirstTwice | oauthpopup/src/main/java/org/vaadin/addon/oauthpopup/base/OAuthPopupUIAbstract.java:66-71 | removing an element held at most once a second time changes nothing |
| Events.Broadcast | oauthpopup/src/main/java/org/vaadin/addon/oauthpopup/base/OAuthDataAbstract.java:182-192 | a notification reaches every registered listener once, in registration order, with the same event |
| Events.Fire | oauthpopup/src/main/java/org/vaadin/addon/oauthpopup/base/OAuthDataAbstract.java:182-192 | the notification loop delivers exactly the broadcast |
| Events.BroadcastAppend | oauthpopup/src/main/java/org/vaadin/addon/oauthpopup/base/OAuthDataAbstract.java:90-92 | a listener added last is notified last |
| Events.NotRegisteredNotNotified | oauthpopup/src/main/java/org/vaadin/addon/oauthpopup/base/OAuthDataAbstract.java:99-101 | a listener that is not registered receives nothing |
| Sessions.Session.constructor | oauthpopup/src/main/java/org/vaadin/addon/oauthpopup/base/OAuthPopupOpenerAbstract.java:81 | a new session has no attributes, no request handlers and no queued tasks |
| Sessions.Session.SetAttribute | oauthpopup/src/main/java/org/vaadin/addon/oauthpopup/base/OAuthPopupOpenerAbstract.java:81 | setting an attribute maps the name to the value, and setting it to `null` removes the name |
| Sessions.Session.GetAttribute | oauthpopup/src/main/java/org/vaadin/addon/oauthpopup/base/OAuthPopupUIAbstract.java:37 | reading an attribute finds a value exactly when the name is mapped, and gives the mapped value |
| Sessions.Session.AddRequestHandler | oauthpopup/src/main/java/org/vaadin/addon/oauthpopup/base/OAuthPopupUIAbstract.java:60 | a handler added to the session is asked before all earlier ones |
| Sessions.Session.RemoveRequestHandler | oauthpopup/src/main/java/org/vaadin/addon/oauthpopup/base/OAuthCallbackRequestHandlerAbstract.java:88 | removing a handler takes its first occurrence out of the handler list |
| Sessions.Session.AccessRemoveHandler | oauthpopup/src/main/java/org/vaadin/addon/oauthpopup/base/OAuthCallbackRequestHandlerAbstract.java:88 | `session.access` queues the removal and does not run it now |
| Scribe.NewBuilder | oauthpopup/src/main/java/org/vaadin/addon/oauthpopup/base/OAuthPopupConfig.java:65 | a fresh service builder carries the key and the secret and no other option |
| Scribe.Build | oauthpopup/src/main/java/org/vaadin/addon/oauthpopup/base/OAuthDataAbstract.java:213 | building against a 1.0a API gives a 1.0a service and against a 2.0 API a 2.0 service |
| CallbackInjector.InjectPath | oauthpopup/src/main/java/org/vaadin/addon/oauthpopup/base/OAuthCallbackInjector.java:55-64 | an unparsable callback raises "Invalid callback URI syntax: " with the callback, as does a rebuilt URI the constructor refuses; a success is the string form of the callback rebuilt from its decoded components with the id path appended, and parses again |
| CallbackInjector.InjectQuery | oauthpopup/src/main/java/org/vaadin/addon/oauthpopup/base/OAuthCallbackInjector.java:94-103 | an unparsable callback raises "Invalid callback URI syntax: " with the callback, as does a rebuilt URI the constructor refuses; a success is the string form of the callback rebuilt from its decoded components with the id query added, and parses again |
| CallbackInjector.PathExtract | oauthpopup/src/main/java/org/vaadin/addon/oauthpopup/base/OAuthCallbackInjector.java:73-87 | path extraction answers exactly when there is a path, at least two pieces and the next-to-last piece equals the key, and then gives the last piece |
| CallbackInjector.QueryExtract | oauthpopup/src/main/java/org/vaadin/addon/oauthpopup/base/OAuthCallbackInjector.java:110-113 | query extraction is the request's first parameter under the key |
| CallbackInjector.PathChangedRequoted | oauthpopup/src/main/java/org/vaadin/addon/oauthpopup/base/OAuthCallbackInjector.java:57-61 | appending the id path to the decoded path and quoting the whole is the callback rebuilt from its getters with the quoted id path appended |
| CallbackInjector.PathChangedWellFormed | oauthpopup/src/main/java/org/vaadin/addon/oauthpopup/base/OAuthCallbackInjector.java:59-61 | appending an id path that does not start with `/` keeps the rebuilt callback well-formed |
| CallbackInjector.PathInjectOnlyChangesPath | oauthpopup/src/main/java/org/vaadin/addon/oauthpopup/base/OAuthCallbackInjector.java:55-62 | path injection into a rebuildable callback succeeds; the result keeps the scheme and the rebuilt authority, query and fragment, and its path is the rebuilt path with the quoted `key/encode(value)` appended, after a `/` only when the path does not already end in one |
| CallbackInjector.PathInjectPlain | oauthpopup/src/main/java/org/vaadin/addon/oauthpopup/base/OAuthCallbackInjector.java:55-62 | for a key and a value of unreserved characters the injected path is the rebuilt path plus `/key/value`, unquoted |
| CallbackInjector.PathExtractFinds | oauthpopup/src/main/java/org/vaadin/addon/oauthpopup/base/OAuthCallbackInjector.java:73-87 | a path ending in `/key/value` extracts to `value` |
| CallbackInjector.AppendedPathExtract | oauthpopup/src/main/java/org/vaadin/addon/oauthpopup/base/OAuthCallbackInjector.java:60-86 | whatever the old path, the path extended by `key/value` extracts to `value` |
| CallbackInjector.PathRoundTrip | oauthpopup/src/main/java/org/vaadin/addon/oauthpopup/base/OAuthCallbackInjector.java:55-87 | the path of the path-injected callback of a rebuildable callback extracts to the injected value, for unreserved keys and values |
| CallbackInjector.QueryChangedRequoted | oauthpopup/src/main/java/org/vaadin/addon/oauthpopup/base/OAuthCallbackInjector.java:95-98 | adding the id query to the decoded query and quoting the whole is the callback rebuilt from its getters with the quoted id query added after a `&`, or alone |
| CallbackInjector.QueryChangedWellFormed | oauthpopup/src/main/java/org/vaadin/addon/oauthpopup/base/OAuthCallbackInjector.java:97-100 | adding to the query keeps the rebuilt callback well-formed |
| CallbackInjector.QueryInjectOnlyChangesQuery | oauthpopup/src/main/java/org/vaadin/addon/oauthpopup/base/OAuthCallbackInjector.java:94-101 | query injection into a rebuildable callback succeeds; the result keeps the scheme and the rebuilt authority, path and fragment, and its query is the rebuilt query with the quoted `key=encode(value)` after a `&`, or alone |
| CallbackInjector.QueryChangedParameters | oauthpopup/src/main/java/org/vaadin/addon/oauthpopup/base/OAuthCallbackInjector.java:97-99 | the new query carries the parameters of the rebuilt (decoded, then quoted) query followed by `(key, value)`, for plain keys and values |
| CallbackInjector.QueryRoundTrip | oauthpopup/src/main/java/org/vaadin/addon/oauthpopup/base/OAuthCallbackInjector.java:94-113 | a request arriving on the query-injected callback finds the injected plain value, unless the rebuilt query already had that key; an escaped `&` or `=` in the callback's query is decoded and then separates parameters |
| CallbackInjector.UriInject | oauthpopup/src/main/java/org/vaadin/addon/oauthpopup/base/OAuthCallbackInjector.java:55-64 | injection into a `null` callback, or of a `null` value, is a `NullPointerException`; an unparsable callback raises the syntax error; a rebuildable one succeeds with the rebuilt callback changed; a success parses again |
| CallbackInjector.UriExtract | oauthpopup/src/main/java/org/vaadin/addon/oauthpopup/base/OAuthCallbackInjector.java:73-113 | the path injector reads the path and the query injector reads the parameter |
| CallbackInjector.UriRoundTrip | oauthpopup/src/main/java/org/vaadin/addon/oauthpopup/base/OAuthCallbackInjector.java:94-113 | for either injector and a rebuildable callback, extraction from the arriving request gives back an injected unreserved value; for the query injector, unless the rebuilt query already had the key |
| CallbackInjector.QueryInjectEncodesTwice | oauthpopup/src/main/java/org/vaadin/addon/oauthpopup/base/OAuthCallbackInjector.java:97-101 | as written, `:` injected under `k` arrives as the parameter value `%3A` |
| CallbackInjector.TwiceEncodedQuery | oauthpopup/src/main/java/org/vaadin/addon/oauthpopup/base/OAuthCallbackInjector.java:98-100 | the query `k=%3A` the URI constructor is given arrives as `("k", "%3A")` |
| CallbackInjector.QuotedQuery | oauthpopup/src/main/java/org/vaadin/addon/oauthpopup/base/OAuthCallbackInjector.java:100-101 | the URI constructor quotes the query `k=%3A` into `k=%253A` |
| CallbackInjector.EncodeLegal | oauthpopup/src/main/java/org/vaadin/addon/oauthpopup/base/OAuthCallbackInjector.java:59-61 | an encoded value is legal in a path or a query as it is |
| CallbackInjector.EncodedQueryChangedWellFormed | oauthpopup/src/main/java/org/vaadin/addon/oauthpopup/base/OAuthCallbackInjector.java:97-100 | adding the already-encoded piece to the rebuilt query keeps a rebuildable callback well-formed |
| CallbackInjector.QueryInjectEncoded | oauthpopup/src/main/java/org/vaadin/addon/oauthpopup/base/OAuthCallbackInjector.java:94-103 | the corrected query injection: the callback is read through the decoding getters and rebuilt by the constructor as the code does, with the same syntax error; only the encoded value is not quoted a second time |
| CallbackInjector.QueryChangedPiece | oauthpopup/src/main/java/org/vaadin/addon/oauthpopup/base/OAuthCallbackInjector.java:97-100 | the code quotes the whole new piece: key, `=` and the already-encoded value, each quoted; so the code and the corrected injection differ only in the value's quoting |
| CallbackInjector.QueryInjectAgrees | oauthpopup/src/main/java/org/vaadin/addon/oauthpopup/base/OAuthCallbackInjector.java:94-103 | for every callback and every value the encoder leaves alone, such as a decimal id, the code's query injection and the corrected one give the same result, errors included |
| CallbackInjector.QueryRoundTripEncoded | oauthpopup/src/main/java/org/vaadin/addon/oauthpopup/base/OAuthCallbackInjector.java:94-113 | with the corrected injection into a rebuildable callback, any value, special characters included, reads back verbatim from the arriving request, unless the rebuilt query already had the key |
| CallbackInjector.EncodedQueryParameters | oauthpopup/src/main/java/org/vaadin/addon/oauthpopup/base/OAuthCallbackInjector.java:97-99 | the corrected query carries the rebuilt query's parameters followed by `(key, value)`, for any value |
| CallbackInjector.InjectValue | oauthpopup/src/main/java/org/vaadin/addon/oauthpopup/base/OAuthCallbackInjector.java:55-107 | the injection the flows use: the same null and syntax errors, the path injector as written, and the query injector corrected (`QueryInjectEncoded`) |
| CallbackInjector.InjectValueAgrees | oauthpopup/src/main/java/org/vaadin/addon/oauthpopup/base/OAuthCallbackInjector.java:55-107 | for values the encoder leaves alone (the decimal flow ids), the injection the flows use is exactly the code's `injectParameterToCallback`, for either injector and every callback |
| CallbackInjector.InjectValueRoundTrip | oauthpopup/src/main/java/org/vaadin/addon/oauthpopup/base/OAuthCallbackInjector.java:94-113 | with the corrected query injection, extraction gives back any injected value from a rebuildable callback whose rebuilt query lacks the key; with the path injector as written, an unreserved one |
| CallbackInjector.DecodedState | oauthpopup/src/main/java/org/vaadin/addon/oauthpopup/base/OAuthCallbackInjector.java:129 | a missing state reads as empty; a present one must decode, or `URLDecoder` throws |
| CallbackInjector.StateWithPair | oauthpopup/src/main/java/org/vaadin/addon/oauthpopup/base/OAuthCallbackInjector.java:126-138 | the new state is the old decoded state, a `,` when it was non-empty, then `key:value`, all encoded; it fails exactly when the old state does not decode |
| CallbackInjector.FirstValueAppend | oauthpopup/src/main/java/org/vaadin/addon/oauthpopup/base/OAuthCallbackInjector.java:145-149 | the pair search stops at the first matching pair, so a later pair is seen only when no earlier one matched |
| CallbackInjector.FirstValueEmpties | oauthpopup/src/main/java/org/vaadin/addon/oauthpopup/base/OAuthCallbackInjector.java:145-149 | empty pieces never match a non-empty key |
| CallbackInjector.FirstValueSplit | oauthpopup/src/main/java/org/vaadin/addon/oauthpopup/base/OAuthCallbackInjector.java:145 | dropping the trailing empty pieces does not change the search |
| CallbackInjector.PairValue | oauthpopup/src/main/java/org/vaadin/addon/oauthpopup/base/OAuthCallbackInjector.java:147-148 | a pair `key:value` without colons in key or value splits into exactly the key and the value |
| CallbackInjector.PairNoComma | oauthpopup/src/main/java/org/vaadin/addon/oauthpopup/base/OAuthCallbackInjector.java:131 | a pair built from comma-free parts holds no comma |
| CallbackInjector.AppendedPairLookup | oauthpopup/src/main/java/org/vaadin/addon/oauthpopup/base/OAuthCallbackInjector.java:130-148 | a pair appended after a comma is found only when no earlier pair has the key |
| CallbackInjector.StateLookupDecoded | oauthpopup/src/main/java/org/vaadin/addon/oauthpopup/base/OAuthCallbackInjector.java:141-154 | the search reads the decoded state |
| CallbackInjector.LonePair | oauthpopup/src/main/java/org/vaadin/addon/oauthpopup/base/OAuthCallbackInjector.java:145-148 | a state holding one pair gives that pair's value for its key |
| CallbackInjector.ExtendedNonEmpty | oauthpopup/src/main/java/org/vaadin/addon/oauthpopup/base/OAuthCallbackInjector.java:130-148 | extending a non-empty state with a pair keeps earlier answers and otherwise finds the new value |
| CallbackInjector.ExtendedEmpty | oauthpopup/src/main/java/org/vaadin/addon/oauthpopup/base/OAuthCallbackInjector.java:130-148 | extending the empty state with a pair finds the new value |
| CallbackInjector.ExtendedLookup | oauthpopup/src/main/java/org/vaadin/addon/oauthpopup/base/OAuthCallbackInjector.java:130-148 | after appending `key:value`, searching for the key gives an earlier pair's value when there is one, and otherwise the new value |
| CallbackInjector.StateRoundTrip | oauthpopup/src/main/java/org/vaadin/addon/oauthpopup/base/OAuthCallbackInjector.java:126-154 | injecting into the state and extracting from it gives back the value, unless the key was already present |
| LegacyInjector.Inject | oauthpopup/src/main/java/org/vaadin/addon/oauthpopup/OAuthCallbackInjector.java:54-68 | the keyed legacy injection behaves as the current path or query injection: same null and syntax-error cases, and a rebuildable callback is rebuilt from its decoded components with the id added |
| LegacyInjector.Extract | oauthpopup/src/main/java/org/vaadin/addon/oauthpopup/OAuthCallbackInjector.java:72-112 | the keyed legacy extraction reads the path or the request parameter just as the current one does |
| LegacyInjector.RoundTrip | oauthpopup/src/main/java/org/vaadin/addon/oauthpopup/OAuthCallbackInjector.java:93-112 | for either legacy injector and a rebuildable callback, an unreserved value reads back from the arriving request; for the query injector, unless the rebuilt query already had the key |
| FixedKeyInjecter.InjectId | oauthpopup/src/main/java/org/vaadin/addon/oauthpopup/OAuthCallbackInjecter.java:51-63 | a `null` callback is a `NullPointerException`, an unparsable one the syntax error; a rebuildable one is rebuilt from its decoded components with `oauthpopupcallback/id` or `oauthpopupcallback=id` added, the id unencoded |
| FixedKeyInjecter.ExtractId | oauthpopup/src/main/java/org/vaadin/addon/oauthpopup/OAuthCallbackInjecter.java:66-108 | the path variant answers only when the next-to-last piece is `oauthpopupcallback`, then with the last piece; the query variant reads the `oauthpopupcallback` parameter |
| FixedKeyInjecter.NameUnreserved | oauthpopup/src/main/java/org/vaadin/addon/oauthpopup/OAuthCallbackInjecter.java:38 | the fixed key needs no encoding |
| FixedKeyInjecter.IdRoundTrip | oauthpopup/src/main/java/org/vaadin/addon/oauthpopup/OAuthCallbackInjecter.java:92-108 | a decimal id injected into a rebuildable callback reads back from the arriving request; through the query, unless the rebuilt query already had the key |
| FixedKeyInjecter.SlashInIdIsCut | oauthpopup/src/main/java/org/vaadin/addon/oauthpopup/OAuthCallbackInjecter.java:66-80 | an id `a/b` containing `/`, injected into the path, does not read back: the path ending in `oauthpopupcallback/a/b` extracts nothing |
| PopupConfig.NonEmpty | oauthpopup/src/main/java/org/vaadin/addon/oauthpopup/base/OAuthPopupConfig.java:66-92 | an option reaches the builder exactly when it is set and non-empty, and unchanged |
| PopupConfig.Config.constructor | oauthpopup/src/main/java/org/vaadin/addon/oauthpopup/base/OAuthPopupConfig.java:51-62 | a new config keeps key and secret, leaves every option unset, and sets the callback from the page location: scheme, `://`, then the authority and the path as their getters decode them |
| PopupConfig.Config.SetScope | oauthpopup/src/main/java/org/vaadin/addon/oauthpopup/base/OAuthPopupConfig.java:130-133 | the setter stores the scope and returns the config itself |
| PopupConfig.Config.SetResponseType | oauthpopup/src/main/java/org/vaadin/addon/oauthpopup/base/OAuthPopupConfig.java:151-154 | the setter stores the response type and returns the config itself |
| PopupConfig.Config.SetCallbackParameterName | oauthpopup/src/main/java/org/vaadin/addon/oauthpopup/base/OAuthPopupConfig.java:172-175 | the setter stores the callback parameter name and returns the config itself |
| PopupConfig.Config.SetCallbackUrl | oauthpopup/src/main/java/org/vaadin/addon/oauthpopup/base/OAuthPopupConfig.java:201-204 | the setter stores the callback URL and returns the config itself |
| PopupConfig.Config.SetVerifierParameterName | oauthpopup/src/main/java/org/vaadin/addon/oauthpopup/base/OAuthPopupConfig.java:213-216 | the setter stores the verifier parameter name and returns the config itself |
| PopupConfig.Config.SetSignatureType | oauthpopup/src/main/java/org/vaadin/addon/oauthpopup/base/OAuthPopupConfig.java:233-236 | the setter stores the signature type and returns the config itself |
| PopupConfig.Config.SetConnectTimeout | oauthpopup/src/main/java/org/vaadin/addon/oauthpopup/base/OAuthPopupConfig.java:254-257 | the setter stores the connect timeout and returns the config itself |
| PopupConfig.Config.SetReadTimeout | oauthpopup/src/main/java/org/vaadin/addon/oauthpopup/base/OAuthPopupConfig.java:274-277 | the setter stores the read timeout and returns the config itself |
| PopupConfig.Config.SetUserAgent | oauthpopup/src/main/java/org/vaadin/addon/oauthpopup/base/OAuthPopupConfig.java:294-297 | the setter stores the user agent and returns the config itself |
| PopupConfig.Config.SetCallbackInjector | oauthpopup/src/main/java/org/vaadin/addon/oauthpopup/base/OAuthPopupConfig.java:317-320 | the setter stores the injector and returns the config itself |
| PopupConfig.Config.SetState | oauthpopup/src/main/java/org/vaadin/addon/oauthpopup/base/OAuthPopupConfig.java:338-341 | the setter stores the state and returns the config itself |
| PopupConfig.Config.SetDebugStream | oauthpopup/src/main/java/org/vaadin/addon/oauthpopup/base/OAuthPopupConfig.java:358-361 | the setter stores the debug stream and returns the config itself |
| PopupConfig.Config.SetErrorParameterName | oauthpopup/src/main/java/org/vaadin/addon/oauthpopup/base/OAuthPopupConfig.java:380-383 | the setter stores the error parameter name and returns the config itself |
| PopupConfig.Config.PutAdditionalParam | oauthpopup/src/main/java/org/vaadin/addon/oauthpopup/base/OAuthPopupConfig.java:385-387 | a caller's `put` into the additional-parameter map adds or replaces exactly that entry |
| PopupConfig.Config.CreateScribeServiceBuilder | oauthpopup/src/main/java/org/vaadin/addon/oauthpopup/base/OAuthPopupConfig.java:64-94 | the builder gets key and secret; callback, scope, user agent, state and response type only when non-empty; signature type, debug stream and timeouts whenever set; never a grant type |
| PopupConfig.InitialCallbackDropsQueryAndFragment | oauthpopup/src/main/java/org/vaadin/addon/oauthpopup/base/OAuthPopupConfig.java:57-62 | the default callback of a location without escapes in its authority and path is that location without its query and fragment |
| PopupConfig.InitialCallbackWithSpace | oauthpopup/src/main/java/org/vaadin/addon/oauthpopup/base/OAuthPopupConfig.java:57-61 | a page whose decoded path holds a space (an escaped `%20`) gets a default callback that does not parse, so every URI injector refuses it |
| PopupConfig.InjectedCallback | oauthpopup/src/main/java/org/vaadin/addon/oauthpopup/base/OAuthDataAbstract.java:51-56 | the callback an injector gives the flow: the state injector leaves the callback as it is and fails only on an undecodable state; the URI injectors are `CallbackInjector.InjectValue`, with the query injection corrected |
| PopupConfig.Inject | oauthpopup/src/main/java/org/vaadin/addon/oauthpopup/base/OAuthCallbackInjector.java:126-138 | the state injector writes the extended state into its config and changes nothing else |
| PopupConfig.StateExtract | oauthpopup/src/main/java/org/vaadin/addon/oauthpopup/base/OAuthCallbackInjector.java:141-154 | the extraction loop gives the first matching pair's value from the decoded state |
| PopupConfig.ExtractAsWritten | oauthpopup/src/main/java/org/vaadin/addon/oauthpopup/base/OAuthCallbackInjector.java:141-154 | as written, the state injector's extraction depends only on the config |
| PopupConfig.Extract | oauthpopup/src/main/java/org/vaadin/addon/oauthpopup/base/OAuthCallbackInjector.java:141-154 | the corrected extraction reads the `state` parameter of the request |
| ConfigFactories.StandardOAuth10aConfig | oauthpopup/src/main/java/org/vaadin/addon/oauthpopup/oauth10a/OAuth10aPopupConfigImpl.java:29-34 | the standard 1.0a config: `oauth_callback`, `oauth_verifier`, query-string signatures, the query injector, the default callback, and nothing else set (no debug stream, timeouts, user agent, scope, state or additional parameters) |
| ConfigFactories.StandardOAuth20Config | oauthpopup/src/main/java/org/vaadin/addon/oauthpopup/oauth20/OAuth20PopupConfigImpl.java:29-36 | the standard 2.0 config: `redirect_uri`, `code` for verifier and response type, query-string signatures, `error`, a state injector bound to this same config, the default callback, and nothing else set (no debug stream, timeouts, user agent, scope, state or additional parameters) |
| OAuthFlow.IdCounter.constructor | oauthpopup/src/main/java/org/vaadin/addon/oauthpopup/base/OAuthDataAbstract.java:27 | the id counter starts at zero |
| OAuthFlow.IdCounter.NextId | oauthpopup/src/main/java/org/vaadin/addon/oauthpopup/base/OAuthDataAbstract.java:29-31 | each id is the decimal form of the counter after it was incremented, so ids never repeat |
| OAuthFlow.AttributeName | oauthpopup/src/main/java/org/vaadin/addon/oauthpopup/base/OAuthDataAbstract.java:72-74 | the session attribute name is the class name, `.DATA.`, then the id |
| OAuthFlow.AttributeNameInjective | oauthpopup/src/main/java/org/vaadin/addon/oauthpopup/base/OAuthDataAbstract.java:72-74 | two flows with different ids never share a session attribute |
| OAuthFlow.Enriched | oauthpopup/src/main/java/org/vaadin/addon/oauthpopup/base/OAuthDataAbstract.java:167-170 | a failure becomes an `OAuthException` whose message names the Scribe API |
| OAuthFlow.CallbackForMe | oauthpopup/src/main/java/org/vaadin/addon/oauthpopup/base/OAuthDataAbstract.java:201-204 | no injector is a `NullPointerException`; otherwise a request is the flow's exactly when its (corrected) extraction gives the flow's id |
| OAuthFlow.CallbackForMeAsWritten | oauthpopup/src/main/java/org/vaadin/addon/oauthpopup/base/OAuthDataAbstract.java:201-204 | the same test over the extraction as written |
| OAuthFlow.Flow.Init | oauthpopup/src/main/java/org/vaadin/addon/oauthpopup/base/OAuthDataAbstract.java:44-49 | a flow starts with no listeners, no access token and no service |
| OAuthFlow.Flow.Create | oauthpopup/src/main/java/org/vaadin/addon/oauthpopup/base/OAuthDataAbstract.java:44-56 | creating a flow takes the next id and injects it into the config's callback with the corrected injection (a missing injector is a `NullPointerException`) |
| OAuthFlow.Flow.AddListener | oauthpopup/src/main/java/org/vaadin/addon/oauthpopup/base/OAuthDataAbstract.java:90-92 | a listener is appended |
| OAuthFlow.Flow.RemoveListener | oauthpopup/src/main/java/org/vaadin/addon/oauthpopup/base/OAuthDataAbstract.java:99-101 | the listener's first occurrence is removed |
| OAuthFlow.Flow.CurrentService | oauthpopup/src/main/java/org/vaadin/addon/oauthpopup/base/OAuthDataAbstract.java:211-216 | the service is the cached one or the one built from the config; its protocol matches the API's |
| OAuthFlow.Flow.GetService | oauthpopup/src/main/java/org/vaadin/addon/oauthpopup/base/OAuthDataAbstract.java:211-216 | the service is built once and then cached |
| OAuthFlow.Flow.SetVerifier | oauthpopup/src/main/java/org/vaadin/addon/oauthpopup/base/OAuthDataAbstract.java:117-128 | on a successful exchange the access token is stored and every listener is told of success; a failed exchange is "Getting access token failed." and notifies no one |
| OAuthFlow.Flow.SetDenied | oauthpopup/src/main/java/org/vaadin/addon/oauthpopup/base/OAuthDataAbstract.java:178-192 | every listener is told of the denial with the reason |
| OAuthFlow.Flow.IsCallbackForMe | oauthpopup/src/main/java/org/vaadin/addon/oauthpopup/base/OAuthDataAbstract.java:201-204 | the method answers `CallbackForMe`, over the corrected extraction, for the flow's injector and id |
| OAuthFlow.Flow.CreateNewRequestToken | oauthpopup/src/main/java/org/vaadin/addon/oauthpopup/oauth10a/OAuth10aDataImpl.java:35-43 | a 1.0a flow asks the service for a request token, and a failure is "Getting request token failed."; a 2.0 flow has none |
| OAuthFlow.Flow.NewRequestToken | oauthpopup/src/main/java/org/vaadin/addon/oauthpopup/oauth10a/OAuth10aDataImpl.java:35-43 | the token obtained is none for 2.0, and any failure is the enriched request-token failure |
| OAuthFlow.Flow.AuthorizationUrlFor | oauthpopup/src/main/java/org/vaadin/addon/oauthpopup/oauth10a/OAuth10aDataImpl.java:51-57 | a 2.0 flow gets exactly the service's URL for the additional parameters; a 1.0a flow without an injector is a `NullPointerException`, and with one gets the callback injected, with the corrected injection, into the service's URL for the request token under the callback parameter name |
| OAuthFlow.Flow.AuthorizationUrl | oauthpopup/src/main/java/org/vaadin/addon/oauthpopup/oauth20/OAuth20DataImpl.java:33-37 | the method gives `AuthorizationUrlFor` (so the corrected injection) and caches the service; a 1.0a flow's state injector records the callback in its state, and a 2.0 flow's state is left unchanged |
| OAuthFlow.UriCallbackReachesItsFlow | oauthpopup/src/main/java/org/vaadin/addon/oauthpopup/base/OAuthDataAbstract.java:51-56 | a request arriving on the injected callback of flow `n` belongs to flow `m` exactly when `m == n`, for a rebuildable callback (for the query injector, one whose rebuilt query has no `callback_id`); the injection equals the code's for these ids |
| OAuthFlow.DecimalHasNoSeparator | oauthpopup/src/main/java/org/vaadin/addon/oauthpopup/base/OAuthCallbackInjector.java:131 | an id never holds the state's separators `,` and `:` |
| OAuthFlow.StateCallbackReachesItsFlow | oauthpopup/src/main/java/org/vaadin/addon/oauthpopup/base/OAuthCallbackInjector.java:126-154 | with the corrected extraction, a request echoing the state of flow `n` belongs to flow `m` exactly when `m == n` |
| OAuthFlow.AsWrittenStateClaimsEveryRequest | oauthpopup/src/main/java/org/vaadin/addon/oauthpopup/base/OAuthCallbackInjector.java:141-154 | as written, once flow `n`'s id is in the state, flow `n` claims every request, whatever it holds |
| OAuthFlow.StateRefusesRequestWithoutState | oauthpopup/src/main/java/org/vaadin/addon/oauthpopup/base/OAuthCallbackInjector.java:141-154 | with the corrected extraction, a request without `state` belongs to no flow |
| OAuthFlow.AuthorizationUrlCarriesCallback | oauthpopup/src/main/java/org/vaadin/addon/oauthpopup/oauth10a/OAuth10aDataImpl.java:51-57 | with the corrected query injection, a 1.0a authorization URL built on a rebuildable provider URL carries the callback URL, readable from the provider's request under the callback parameter name |
| CallbackHandlers.Decide | oauthpopup/src/main/java/org/vaadin/addon/oauthpopup/base/OAuthCallbackRequestHandlerAbstract.java:43-73 | a request not for the flow is declined; a verifier wins; otherwise the error, URL-decoded, or "OAuth failed due to an unspecified reason"; an undecodable error fails |
| CallbackHandlers.Decision | oauthpopup/src/main/java/org/vaadin/addon/oauthpopup/base/OAuthCallbackRequestHandlerAbstract.java:43-51 | the handler declines exactly when its flow says the request is not its own, by the corrected extraction, and an injector failure propagates |
| CallbackHandlers.OnlyItsOwnHandlerResponds | oauthpopup/src/main/java/org/vaadin/addon/oauthpopup/base/OAuthCallbackRequestHandlerAbstract.java:43-51 | a request arriving on flow `n`'s injected callback is declined by the handler of every other flow and by no other, for a rebuildable callback (for the query injector, one whose rebuilt query has no `callback_id`) |
| CallbackHandlers.Response.constructor | oauthpopup/src/main/java/org/vaadin/addon/oauthpopup/base/OAuthCallbackRequestHandlerAbstract.java:78-80 | a response starts with no content type and an empty body |
| CallbackHandlers.CallbackHandler.ForOAuth10a | oauthpopup/src/main/java/org/vaadin/addon/oauthpopup/oauth10a/OAuth10aCallbackRequestHandlerImpl.java:28-32 | the 1.0a handler keeps the flow and the request token |
| CallbackHandlers.CallbackHandler.ForOAuth20 | oauthpopup/src/main/java/org/vaadin/addon/oauthpopup/oauth20/OAuth20CallbackRequestHandlerImpl.java:24-26 | the 2.0 handler keeps the flow and has no request token |
| CallbackHandlers.CallbackHandler.HandleRequest | oauthpopup/src/main/java/org/vaadin/addon/oauthpopup/base/OAuthCallbackRequestHandlerAbstract.java:39-74 | over the corrected extraction: declines without side effects; on a verifier exchanges it, stores the token, notifies success and finishes; on a denial notifies failure and finishes; a failure changes nothing observable |
| CallbackHandlers.CallbackHandler.Finish | oauthpopup/src/main/java/org/vaadin/addon/oauthpopup/base/OAuthCallbackRequestHandlerAbstract.java:78-82 | the response becomes `text/html` with the window-closing page appended, and the handler's removal is queued |
| CallbackHandlers.CallbackHandler.CleanUpSession | oauthpopup/src/main/java/org/vaadin/addon/oauthpopup/base/OAuthCallbackRequestHandlerAbstract.java:87-89 | the handler's removal from the session is queued |
| PopupUI.LookUp | oauthpopup/src/main/java/org/vaadin/addon/oauthpopup/base/OAuthPopupUIAbstract.java:33-40 | the flow is found exactly when the `data` parameter is present and names a session attribute; otherwise one of the two `IllegalStateException`s |
| PopupUI.PopupUI.constructor | oauthpopup/src/main/java/org/vaadin/addon/oauthpopup/base/OAuthPopupUIAbstract.java:24 | a popup UI starts with no handler and no location |
| PopupUI.PopupUI.Init | oauthpopup/src/main/java/org/vaadin/addon/oauthpopup/base/OAuthPopupUIAbstract.java:28-47 | a look-up or token failure installs nothing; otherwise a handler for the flow and its token is put first, then the browser goes to the authorization URL built with the corrected injection; the flow's service is built and cached; a state injector's configuration records the callback only for 1.0a with a successful URL; no other flow or configuration changes |
| PopupUI.PopupUI.AddCallbackHandler | oauthpopup/src/main/java/org/vaadin/addon/oauthpopup/base/OAuthPopupUIAbstract.java:58-61 | a new handler of the API's protocol is installed ahead of every other |
| PopupUI.PopupUI.RemoveCallbackHandler | oauthpopup/src/main/java/org/vaadin/addon/oauthpopup/base/OAuthPopupUIAbstract.java:66-71 | the handler is removed from the session and forgotten; with none it does nothing |
| PopupUI.PopupUI.Detach | oauthpopup/src/main/java/org/vaadin/addon/oauthpopup/base/OAuthPopupUIAbstract.java:50-56 | detaching queues the handler's removal; with no handler it is a `NullPointerException` |
| PopupOpener.RelayedOnce | oauthpopup/src/main/java/org/vaadin/addon/oauthpopup/base/OAuthPopupOpenerAbstract.java:76-97 | a flow event broadcast to the flow's listeners reaches every opener listener once, when the opener's relay is registered once |
| PopupOpener.RelayedNone | oauthpopup/src/main/java/org/vaadin/addon/oauthpopup/base/OAuthPopupOpenerAbstract.java:100-107 | after the relay is removed, flow events reach no opener listener |
| PopupOpener.Opener.constructor | oauthpopup/src/main/java/org/vaadin/addon/oauthpopup/base/OAuthPopupOpenerAbstract.java:33-42 | an opener keeps its flow and starts with no listeners and no relay |
| PopupOpener.Opener.AddOAuthListener | oauthpopup/src/main/java/org/vaadin/addon/oauthpopup/base/OAuthPopupOpenerAbstract.java:60-62 | a listener is appended |
| PopupOpener.Opener.RemoveOAuthListener | oauthpopup/src/main/java/org/vaadin/addon/oauthpopup/base/OAuthPopupOpenerAbstract.java:71-73 | the listener's first occurrence is removed |
| PopupOpener.Opener.Attach | oauthpopup/src/main/java/org/vaadin/addon/oauthpopup/base/OAuthPopupOpenerAbstract.java:76-97 | attaching stores the flow under its attribute name, passes that name as `data`, and registers a fresh relay with the flow |
| PopupOpener.Opener.Detach | oauthpopup/src/main/java/org/vaadin/addon/oauthpopup/base/OAuthPopupOpenerAbstract.java:100-107 | detaching unregisters the relay and removes the flow's attribute |
| PopupOpener.Opener.FireAuthSuccessful | oauthpopup/src/main/java/org/vaadin/addon/oauthpopup/base/OAuthPopupOpenerAbstract.java:109-119 | every opener listener is told of success with the token |
| PopupOpener.Opener.FireAuthFailed | oauthpopup/src/main/java/org/vaadin/addon/oauthpopup/base/OAuthPopupOpenerAbstract.java:121-128 | every opener listener is told of the denial with the reason |
| PopupOpener.Opener.Receive | oauthpopup/src/main/java/org/vaadin/addon/oauthpopup/base/OAuthPopupOpenerAbstract.java:84-95 | the relay forwards a flow event to every opener listener |
| GitHub.AccessTokenEndpoint | oauthpopup/src/main/java/org/vaadin/addon/oauthpopup/buttons/GitHubApi.java:13-21 | the token endpoint is GitHub's access-token URL, distinct from the authorize URL |
| GitHub.AuthorizationUrl | oauthpopup/src/main/java/org/vaadin/addon/oauthpopup/buttons/GitHubApi.java:23-35 | the URL starts with the authorize URL and the key (`null` printed as such); callback and scope are appended raw, each only when present |
| GitHub.UrlShape | oauthpopup/src/main/java/org/vaadin/addon/oauthpopup/buttons/GitHubApi.java:23-35 | the URL is the authorize endpoint, `?`, then `client_id=key`, `&redirect_uri=callback` and `&scope=scope` |
| GitHub.QueryReads | oauthpopup/src/main/java/org/vaadin/addon/oauthpopup/buttons/GitHubApi.java:25-33 | with plain values, GitHub reads back exactly client id, redirect URI and scope |
| GitHub.AuthorizationUrlParameters | oauthpopup/src/main/java/org/vaadin/addon/oauthpopup/buttons/GitHubApi.java:23-35 | with plain key, callback and scope, the URL's query holds exactly the intended parameters |
| GitHub.CallbackQueryIsCut | oauthpopup/src/main/java/org/vaadin/addon/oauthpopup/buttons/GitHubApi.java:26-29 | any callback `c1&y=v` with a query of its own (`cb?x=1&y=2`, say) reaches GitHub as the redirect URI `c1` plus a stray parameter `y=v` |
| LegacyConfig.Config.constructor | oauthpopup/src/main/java/org/vaadin/addon/oauthpopup/OAuthPopupConfig.java:41-44 | a new legacy config keeps key and secret and leaves every option unset, the callback included |
| LegacyConfig.Config.AsScribeConfig | oauthpopup/src/main/java/org/vaadin/addon/oauthpopup/OAuthPopupConfig.java:79-92 | every option reaches Scribe as it is, empty strings included; there is no user agent |
| LegacyConfig.Config.SetScope | oauthpopup/src/main/java/org/vaadin/addon/oauthpopup/OAuthPopupConfig.java:128-131 | the setter stores the scope and returns the config itself |
| LegacyConfig.Config.SetGrantType | oauthpopup/src/main/java/org/vaadin/addon/oauthpopup/OAuthPopupConfig.java:149-152 | the setter stores the grant type and returns the config itself |
| LegacyConfig.Config.SetResponseType | oauthpopup/src/main/java/org/vaadin/addon/oauthpopup/OAuthPopupConfig.java:170-173 | the setter stores the response type and returns the config itself |
| LegacyConfig.Config.SetCallbackParameterName | oauthpopup/src/main/java/org/vaadin/addon/oauthpopup/OAuthPopupConfig.java:191-194 | the setter stores the callback parameter name and returns the config itself |
| LegacyConfig.Config.SetVerifierParameterName | oauthpopup/src/main/java/org/vaadin/addon/oauthpopup/OAuthPopupConfig.java:212-215 | the setter stores the verifier parameter name and returns the config itself |
| LegacyConfig.Config.SetSignatureType | oauthpopup/src/main/java/org/vaadin/addon/oauthpopup/OAuthPopupConfig.java:232-235 | the setter stores the signature type and returns the config itself |
| LegacyConfig.Config.SetConnectTimeout | oauthpopup/src/main/java/org/vaadin/addon/oauthpopup/OAuthPopupConfig.java:254-257 | the setter stores the connect timeout and returns the config itself |
| LegacyConfig.Config.SetReadTimeout | oauthpopup/src/main/java/org/vaadin/addon/oauthpopup/OAuthPopupConfig.java:276-279 | the setter stores the read timeout and returns the config itself |
| LegacyConfig.Config.SetCallbackInjector | oauthpopup/src/main/java/org/vaadin/addon/oauthpopup/OAuthPopupConfig.java:299-302 | the setter stores the injector and returns the config itself |
| LegacyConfig.Config.SetCallback | oauthpopup/src/main/java/org/vaadin/addon/oauthpopup/OAuthPopupConfig.java:320-323 | the setter stores the callback and returns the config itself |
| LegacyConfig.Config.SetState | oauthpopup/src/main/java/org/vaadin/addon/oauthpopup/OAuthPopupConfig.java:341-344 | the setter stores the state and returns the config itself |
| LegacyConfig.Config.SetOutputStream | oauthpopup/src/main/java/org/vaadin/addon/oauthpopup/OAuthPopupConfig.java:361-364 | the setter stores the output stream and returns the config itself |
| LegacyConfig.Config.SetErrorParameterName | oauthpopup/src/main/java/org/vaadin/addon/oauthpopup/OAuthPopupConfig.java:383-386 | the setter stores the error parameter name and returns the config itself |
| LegacyConfig.StandardOAuth10aConfig | oauthpopup/src/main/java/org/vaadin/addon/oauthpopup/OAuthPopupConfig.java:53-59 | the standard legacy 1.0a config and its preset names; every other option, including the debug stream and both timeouts, is unset |
| LegacyConfig.StandardOAuth20Config | oauthpopup/src/main/java/org/vaadin/addon/oauthpopup/OAuthPopupConfig.java:68-77 | the standard legacy 2.0 config: grant type `authorization_code`, the query injector, error name `error`; every other option, including the debug stream and both timeouts, is unset |
| LegacyFlow.Injected | oauthpopup/src/main/java/org/vaadin/addon/oauthpopup/OAuthData.java:64-68 | corrected: legacy injection is the keyed injector's, with the query value encoded once (the as-written one is `LegacyInjector.Inject`) |
| LegacyFlow.CallbackForMe | oauthpopup/src/main/java/org/vaadin/addon/oauthpopup/OAuthData.java:265-267 | no injector is a `NullPointerException`; otherwise the request is the flow's exactly when extraction gives its id |
| LegacyFlow.Flow.Init | oauthpopup/src/main/java/org/vaadin/addon/oauthpopup/OAuthData.java:48-62 | a legacy flow starts with no listeners, no access token and no service |
| LegacyFlow.Flow.Create | oauthpopup/src/main/java/org/vaadin/addon/oauthpopup/OAuthData.java:48-68 | creating a legacy flow takes the next id and injects it into the config's callback |
| LegacyFlow.Flow.IsOAuth10a | oauthpopup/src/main/java/org/vaadin/addon/oauthpopup/OAuthData.java:93-113 | a legacy flow is 1.0a exactly when it is not 2.0 |
| LegacyFlow.Flow.AddListener | oauthpopup/src/main/java/org/vaadin/addon/oauthpopup/OAuthData.java:138-140 | a listener is appended |
| LegacyFlow.Flow.RemoveListener | oauthpopup/src/main/java/org/vaadin/addon/oauthpopup/OAuthData.java:147-149 | the listener's first occurrence is removed |
| LegacyFlow.Flow.CurrentService | oauthpopup/src/main/java/org/vaadin/addon/oauthpopup/OAuthData.java:275-284 | the service is the cached one or the one built from `asScribeConfig`; its protocol matches the API's |
| LegacyFlow.Flow.GetService | oauthpopup/src/main/java/org/vaadin/addon/oauthpopup/OAuthData.java:275-284 | the service is built once and then cached |
| LegacyFlow.Flow.CreateNewRequestToken | oauthpopup/src/main/java/org/vaadin/addon/oauthpopup/OAuthData.java:158-170 | a 1.0a flow asks for a request token and a failure is "Getting request token failed."; a 2.0 flow has none |
| LegacyFlow.Flow.NewRequestToken | oauthpopup/src/main/java/org/vaadin/addon/oauthpopup/OAuthData.java:158-170 | the token obtained is none for 2.0, and any failure is the enriched request-token failure |
| LegacyFlow.Flow.SetVerifier | oauthpopup/src/main/java/org/vaadin/addon/oauthpopup/OAuthData.java:182-198 | a successful exchange notifies success with the token and the protocol, storing the token for 1.0a only; a failure is "Getting access token failed." |
| LegacyFlow.Flow.SetDenied | oauthpopup/src/main/java/org/vaadin/addon/oauthpopup/OAuthData.java:241-256 | every listener is told of the denial with the reason |
| LegacyFlow.Flow.IsCallbackForMe | oauthpopup/src/main/java/org/vaadin/addon/oauthpopup/OAuthData.java:265-267 | the method answers `CallbackForMe` for the flow's injector and id |
| LegacyFlow.Flow.AuthorizationUrlFor | oauthpopup/src/main/java/org/vaadin/addon/oauthpopup/OAuthData.java:292-302 | 2.0 gives the service's URL; 1.0a without an injector is a `NullPointerException`, otherwise the callback is injected, with the corrected injection, into the provider's URL |
| LegacyFlow.Flow.AuthorizationUrl | oauthpopup/src/main/java/org/vaadin/addon/oauthpopup/OAuthData.java:292-302 | the method gives `AuthorizationUrlFor` (so the corrected injection) and caches the service |
| LegacyFlow.CallbackReachesItsFlow | oauthpopup/src/main/java/org/vaadin/addon/oauthpopup/OAuthData.java:64-68 | a request arriving on flow `n`'s injected callback belongs to flow `m` exactly when `m == n`, for a rebuildable callback (for the query injecter, one whose rebuilt query has no `callback_id`); the injection equals the code's for these ids |
| LegacyFlow.SessionAttributeNameInjective | oauthpopup/src/main/java/org/vaadin/addon/oauthpopup/OAuthData.java:84-86 | two legacy flows with different ids never share a session attribute |
| LegacyHandler.PathForMe | oauthpopup/src/main/java/org/vaadin/addon/oauthpopup/OAuthCallbackRequestHandler.java:96-111 | the path test holds exactly when the fixed-key path extraction gives the flow's id |
| LegacyHandler.FirstError | oauthpopup/src/main/java/org/vaadin/addon/oauthpopup/OAuthCallbackRequestHandler.java:75-81 | an error is found exactly when some error name has a parameter, and it is that parameter's value |
| LegacyHandler.FindError | oauthpopup/src/main/java/org/vaadin/addon/oauthpopup/OAuthCallbackRequestHandler.java:75-81 | the loop over the error names gives the first error present |
| LegacyHandler.DenialMessage | oauthpopup/src/main/java/org/vaadin/addon/oauthpopup/OAuthCallbackRequestHandler.java:83-89 | no error gives "OAuth failed."; an error gives "OAuth denied: " followed by it, undecoded |
| LegacyHandler.Decision | oauthpopup/src/main/java/org/vaadin/addon/oauthpopup/OAuthCallbackRequestHandler.java:51-93 | declined exactly on a foreign path or a mismatching `oauth_token`; a verifier means success; otherwise the denial message |
| LegacyHandler.OnlyItsOwnHandlerResponds | oauthpopup/src/main/java/org/vaadin/addon/oauthpopup/OAuthCallbackRequestHandler.java:51-60 | a request on flow `n`'s callback path is declined by the handler of every other flow |
| LegacyHandler.QueryInjectedCallbackDeclined | oauthpopup/src/main/java/org/vaadin/addon/oauthpopup/OAuthCallbackRequestHandler.java:51-60 | the standard legacy configs inject the id into the query as `callback_id`, but the handler looks in the path: the flow's own handler declines the request arriving on its rebuilt callback, unless that callback's path already ended in `oauthpopupcallback/<id>` |
| LegacyHandler.Handler.constructor | oauthpopup/src/main/java/org/vaadin/addon/oauthpopup/OAuthCallbackRequestHandler.java:42-45 | the handler keeps the request token and the flow |
| LegacyHandler.Handler.HandleRequest | oauthpopup/src/main/java/org/vaadin/addon/oauthpopup/OAuthCallbackRequestHandler.java:47-94 | declines without side effects; on a verifier has the flow exchange it and finishes; on a denial notifies failure and finishes |
| LegacyHandler.Handler.Finish | oauthpopup/src/main/java/org/vaadin/addon/oauthpopup/OAuthCallbackRequestHandler.java:113-117 | the response becomes `text/html` with the window-closing page, and the handler's removal is queued |
| LegacyHandler.Handler.CleanUpSession | oauthpopup/src/main/java/org/vaadin/addon/oauthpopup/OAuthCallbackRequestHandler.java:122-129 | the handler's removal from the session is queued |
| LegacyPopupUI.PopupUI.constructor | oauthpopup/src/main/java/org/vaadin/addon/oauthpopup/OAuthPopupUI.java:22 | a legacy popup UI starts with no handler and no location |
| LegacyPopupUI.PopupUI.Init | oauthpopup/src/main/java/org/vaadin/addon/oauthpopup/OAuthPopupUI.java:25-44 | a look-up or token failure installs nothing; otherwise the handler is put first and the browser goes to the authorization URL built with the corrected injection; the flow's service is built and cached; no other flow changes |
| LegacyPopupUI.PopupUI.AddCallbackHandler | oauthpopup/src/main/java/org/vaadin/addon/oauthpopup/OAuthPopupUI.java:56-59 | a new handler for the flow and token is installed ahead of every other |
| LegacyPopupUI.PopupUI.RemoveCallbackHandler | oauthpopup/src/main/java/org/vaadin/addon/oauthpopup/OAuthPopupUI.java:61-66 | the handler is removed and forgotten; with none it does nothing |
| LegacyPopupUI.PopupUI.Detach | oauthpopup/src/main/java/org/vaadin/addon/oauthpopup/OAuthPopupUI.java:46-54 | detaching queues the handler's removal; with none it is a `NullPointerException` |
| LegacyPopupOpener.Opener.constructor | oauthpopup/src/main/java/org/vaadin/addon/oauthpopup/OAuthPopupOpener.java:20-24 | the opener keeps its flow and sets the callback to the default one: scheme, `://`, and the page location's authority and path as their getters decode them |
| LegacyPopupOpener.Opener.SetCallback | oauthpopup/src/main/java/org/vaadin/addon/oauthpopup/OAuthPopupOpener.java:65-67 | the flow's callback is replaced |
| LegacyPopupOpener.Opener.SetCallbackToDefault | oauthpopup/src/main/java/org/vaadin/addon/oauthpopup/OAuthPopupOpener.java:69-80 | the callback becomes scheme, `://`, and the page location's decoded authority and path (the location without query and fragment when it holds no escapes) |
| LegacyPopupOpener.Opener.SetScope | oauthpopup/src/main/java/org/vaadin/addon/oauthpopup/OAuthPopupOpener.java:73-75 | the flow's scope is replaced |
| LegacyPopupOpener.Opener.AddOAuthListener | oauthpopup/src/main/java/org/vaadin/addon/oauthpopup/OAuthPopupOpener.java:26-28 | a listener is appended |
| LegacyPopupOpener.Opener.RemoveOAuthListener | oauthpopup/src/main/java/org/vaadin/addon/oauthpopup/OAuthPopupOpener.java:30-32 | the listener's first occurrence is removed |
| LegacyPopupOpener.Opener.Attach | oauthpopup/src/main/java/org/vaadin/addon/oauthpopup/OAuthPopupOpener.java:35-55 | the flow is stored under its attribute name, passed as `data`, and a fresh relay is registered with it |
| LegacyPopupOpener.Opener.Detach | oauthpopup/src/main/java/org/vaadin/addon/oauthpopup/OAuthPopupOpener.java:58-63 | the relay is unregistered and the flow's attribute removed |
| LegacyPopupOpener.Opener.FireAuthSuccessful | oauthpopup/src/main/java/org/vaadin/addon/oauthpopup/OAuthPopupOpener.java:82-94 | every opener listener is told of success |
| LegacyPopupOpener.Opener.FireAuthFailed | oauthpopup/src/main/java/org/vaadin/addon/oauthpopup/OAuthPopupOpener.java:96-106 | every opener listener is told of the denial |
| LegacyPopupOpener.Opener.Receive | oauthpopup/src/main/java/org/vaadin/addon/oauthpopup/OAuthPopupOpener.java:43-53 | the relay forwards a flow event to every opener listener |

## Left out

- Concurrency: the `synchronized` blocks, the thread on which a provider's redirect arrives, and `UI.access`/`push`. Listener notification is the list of deliveries it makes, and `session.access` only queues its task; running queued tasks is not modelled.
- Vaadin and servlet I/O: the page location is a parameter (`Page.getCurrent()`); the response writer is a string; `Page.setLocation` is the UI's `location` field.
- The path info of a request is the raw path of the URL it arrives on; the servlet decodes it once more, and the model does not. For the unreserved keys and values of the path round-trip lemmas this changes nothing in the segments read.
- CallbackInjector.PathRoundTrip: stated only for keys and values of unreserved characters, such as the decimal flow ids. The path injector percent-encodes the value, and the URI constructor quotes that `%` again: value `:` becomes `%253A` in the path. The servlet undoes one layer only, so extraction returns `%3A`, not `:`. The path injector thus has the same double-encoding defect as the query injector (second row of "## Findings"); the model keeps it as written and does not correct it.
- CallbackInjector.PathInjectOnlyChangesPath: stated for a callback that survives being rebuilt from its decoded components (`Uris.Rebuildable`). Other callbacks are not covered: their rebuilt string can read differently (`http:/%2Fh/x` is rebuilt as `http://h/x`, where `h` now reads as the authority), or the constructor refuses it with the syntax error.
- CallbackInjector.QueryInjectOnlyChangesQuery: stated for a callback that survives being rebuilt from its decoded components (`Uris.Rebuildable`). Other callbacks are not covered: their rebuilt string can read differently (`http:/%2Fh/x` is rebuilt as `http://h/x`, where `h` now reads as the authority), or the constructor refuses it with the syntax error.
- CallbackInjector.UriRoundTrip: stated for a callback that survives being rebuilt from its decoded components (`Uris.Rebuildable`). Other callbacks are not covered: their rebuilt string can read differently (`http:/%2Fh/x` is rebuilt as `http://h/x`, where `h` now reads as the authority), or the constructor refuses it with the syntax error.
- LegacyInjector.RoundTrip: stated for a callback that survives being rebuilt from its decoded components (`Uris.Rebuildable`). Other callbacks are not covered: their rebuilt string can read differently (`http:/%2Fh/x` is rebuilt as `http://h/x`, where `h` now reads as the authority), or the constructor refuses it with the syntax error.
- FixedKeyInjecter.IdRoundTrip: stated for a callback that survives being rebuilt from its decoded components (`Uris.Rebuildable`). Other callbacks are not covered: their rebuilt string can read differently (`http:/%2Fh/x` is rebuilt as `http://h/x`, where `h` now reads as the authority), or the constructor refuses it with the syntax error.
- OAuthFlow.UriCallbackReachesItsFlow: stated for a callback that survives being rebuilt from its decoded components (`Uris.Rebuildable`). Other callbacks are not covered: their rebuilt string can read differently (`http:/%2Fh/x` is rebuilt as `http://h/x`, where `h` now reads as the authority), or the constructor refuses it with the syntax error.
- CallbackHandlers.OnlyItsOwnHandlerResponds: stated for a callback that survives being rebuilt from its decoded components (`Uris.Rebuildable`). Other callbacks are not covered: their rebuilt string can read differently (`http:/%2Fh/x` is rebuilt as `http://h/x`, where `h` now reads as the authority), or the constructor refuses it with the syntax error.
- LegacyFlow.CallbackReachesItsFlow: stated for a callback that survives being rebuilt from its decoded components (`Uris.Rebuildable`). Other callbacks are not covered: their rebuilt string can read differently (`http:/%2Fh/x` is rebuilt as `http://h/x`, where `h` now reads as the authority), or the constructor refuses it with the syntax error.
- PopupConfig.InitialCallbackDropsQueryAndFragment: stated for locations without escapes in their authority and path. With escapes, the default callback holds the decoded characters; `PopupConfig.InitialCallbackWithSpace` shows one consequence.
- Uris.Parse: a simplified `java.net.URI` that handles hierarchical URIs of ASCII characters; opaque URIs, IPv6 hosts and non-ASCII input are not modelled. It also refuses an empty authority after `//` (`file:///x`), which `java.net.URI` accepts.
- UrlCodec.Utf8Decode: a truncated multi-byte sequence becomes one U+FFFD per byte, where Java's decoder emits one U+FFFD for the whole truncated sequence. Only the decoded form of escapes that are not valid UTF-8 differs.
- Exception causes and the exact text `URLDecoder` puts in its exceptions; the undecodable case is one `IllegalArgumentException` value.
- Scribe: the service builder's own validation, its HTTP calls and the token formats; each call is an oracle held by the service that may fail.
- The `long` id counter is unbounded; wrapping after 2^63 ids is not modelled.
- `OAuthPopupOpener.setCallbackInjecter` calls a flow method that does not exist and is not modelled.
- The legacy opener's `(apiClass, key, secret)` constructor calls an `OAuthData` constructor that does not exist; the model's opener receives the flow.
- The legacy listener interface's `authSuccessful(String, String)` does not match what the legacy flow fires. The model uses the flow's `(token, isOAuth20)` event for both.
- A legacy opener sets its callback only after its flow was created, so the flow injects its id into a `null` callback; the model keeps this order and `LegacyFlow.Flow.Create` reports the `NullPointerException` that follows.
- The BrowserWindowOpener machinery (UI class versus URL constructors, popup features), the buttons other than `GitHubApi`'s URL building, the UI factories and the implementation classes that only fix type parameters.
- The Scribe API class behind `GitHubApi` (extractors, verbs); only its two URLs are modelled.
- Exceptions thrown by listeners are not modelled.
- HTML escaping and character encoding of the response page.
- Uris.Quote: `toASCIIString` normalises non-ASCII characters to Unicode NFC before escaping their UTF-8 bytes; the model escapes the characters as they are, since it has no Unicode normalisation. Decoded components holding non-ASCII characters that are not in NFC are quoted differently.
- PopupConfig.InjectedCallback: injects with the corrected query injection. It rebuilds the callback from its decoded components as the code does, but adds the encoded value without quoting it a second time (`CallbackInjector.QueryInject`, second row of "## Findings"). For values the encoder leaves alone the two agree (`CallbackInjector.InjectValueAgrees`).
- PopupConfig.Inject: injects with the corrected query injection. It rebuilds the callback from its decoded components as the code does, but adds the encoded value without quoting it a second time (`CallbackInjector.QueryInject`, second row of "## Findings"). For values the encoder leaves alone the two agree (`CallbackInjector.InjectValueAgrees`).
- CallbackInjector.InjectValue: injects with the corrected query injection. It rebuilds the callback from its decoded components as the code does, but adds the encoded value without quoting it a second time (`CallbackInjector.QueryInject`, second row of "## Findings"). For values the encoder leaves alone the two agree (`CallbackInjector.InjectValueAgrees`).
- LegacyFlow.Injected: injects with the corrected query injection. It rebuilds the callback from its decoded components as the code does, but adds the encoded value without quoting it a second time (`CallbackInjector.QueryInject`, second row of "## Findings"). For values the encoder leaves alone the two agree (`CallbackInjector.InjectValueAgrees`).
- OAuthFlow.Flow.Create: injects the flow id with the corrected query injection. For decimal ids it is the code's injection, for every callback, errors included (`CallbackInjector.InjectValueAgrees`).
- LegacyFlow.Flow.Create: injects the flow id with the corrected query injection. For decimal ids it is the code's injection, for every callback, errors included (`CallbackInjector.InjectValueAgrees`).
- OAuthFlow.Flow.AuthorizationUrlFor: injects the callback into the 1.0a authorization URL with the corrected query injection. Like the code, it rebuilds the provider's URL from its decoded components, so an escape in that URL (`%2B`, say) is decoded and written back as the constructor quotes it (`+`). Unlike the code, it does not quote the encoded callback a second time; as written, a callback holding a character `URLEncoder` escapes, such as `:` or `/`, arrives at the provider encoded twice.
- OAuthFlow.Flow.AuthorizationUrl: injects the callback into the 1.0a authorization URL with the corrected query injection. Like the code, it rebuilds the provider's URL from its decoded components, so an escape in that URL (`%2B`, say) is decoded and written back as the constructor quotes it (`+`). Unlike the code, it does not quote the encoded callback a second time; as written, a callback holding a character `URLEncoder` escapes, such as `:` or `/`, arrives at the provider encoded twice.
- OAuthFlow.AuthorizationUrlCarriesCallback: injects the callback into the 1.0a authorization URL with the corrected query injection. Like the code, it rebuilds the provider's URL from its decoded components, so an escape in that URL (`%2B`, say) is decoded and written back as the constructor quotes it (`+`). Unlike the code, it does not quote the encoded callback a second time; as written, a callback holding a character `URLEncoder` escapes, such as `:` or `/`, arrives at the provider encoded twice.
- LegacyFlow.Flow.AuthorizationUrlFor: injects the callback into the 1.0a authorization URL with the corrected query injection. Like the code, it rebuilds the provider's URL from its decoded components, so an escape in that URL (`%2B`, say) is decoded and written back as the constructor quotes it (`+`). Unlike the code, it does not quote the encoded callback a second time; as written, a callback holding a character `URLEncoder` escapes, such as `:` or `/`, arrives at the provider encoded twice.
- LegacyFlow.Flow.AuthorizationUrl: injects the callback into the 1.0a authorization URL with the corrected query injection. Like the code, it rebuilds the provider's URL from its decoded components, so an escape in that URL (`%2B`, say) is decoded and written back as the constructor quotes it (`+`). Unlike the code, it does not quote the encoded callback a second time; as written, a callback holding a character `URLEncoder` escapes, such as `:` or `/`, arrives at the provider encoded twice.
- PopupUI.PopupUI.Init: navigates to the authorization URL built with the corrected injection.
- LegacyPopupUI.PopupUI.Init: navigates to the authorization URL built with the corrected injection.
- PopupConfig.Extract: uses the corrected `state` extraction, which reads the request; as written, a 2.0 flow with the `state` injector claims every request (`PopupConfig.ExtractAsWritten`, first row of "## Findings").
- OAuthFlow.CallbackForMe: uses the corrected `state` extraction, which reads the request; as written, a 2.0 flow with the `state` injector claims every request (`PopupConfig.ExtractAsWritten`, first row of "## Findings").
- OAuthFlow.Flow.IsCallbackForMe: uses the corrected `state` extraction, which reads the request; as written, a 2.0 flow with the `state` injector claims every request (`PopupConfig.ExtractAsWritten`, first row of "## Findings").
- CallbackHandlers.Decision: uses the corrected `state` extraction, which reads the request; as written, a 2.0 flow with the `state` injector claims every request (`PopupConfig.ExtractAsWritten`, first row of "## Findings").
- CallbackHandlers.CallbackHandler.HandleRequest: uses the corrected `state` extraction, which reads the request; as written, a 2.0 flow with the `state` injector claims every request (`PopupConfig.ExtractAsWritten`, first row of "## Findings").

## Findings

| source | as written | input that shows it | evidently intended | confidence | as-written member | corrected member |
|---|---|---|---|---|---|---|
| oauthpopup/src/main/java/org/vaadin/addon/oauthpopup/base/OAuthCallbackInjector.java:141-154 | the `state` injector's extraction reads the id from the config's own `state` and never looks at the request | a 2.0 flow with id `1` whose config state holds `callback_id:1`, and any request at all, one without a `state` parameter included: the flow claims the request | read the `state` parameter the provider echoes in the request, so that only a request carrying the flow's id belongs to it | not executed | OAuthFlow.AsWrittenStateClaimsEveryRequest | OAuthFlow.StateCallbackReachesItsFlow |
| oauthpopup/src/main/java/org/vaadin/addon/oauthpopup/base/OAuthCallbackInjector.java:97-101 | the query injector encodes the value with `URLEncoder` and then passes the query to the five-argument `URI` constructor, which quotes the `%` a second time (the same in OAuthCallbackInjector.java:96-100) | callback `https://a/cb`, key `k`, value `:`: the query becomes `k=%253A`, and the request carries `k` = `%3A` | the request carries `k` = `:`, the value injected | not executed | CallbackInjector.QueryInjectEncodesTwice | CallbackInjector.QueryRoundTripEncoded |

The flows, handlers and UIs use the corrected definitions: `PopupConfig.Extracted` and `CallbackInjector.InjectValue`. The as-written ones are kept beside them as `PopupConfig.ExtractedAsWritten` and `CallbackInjector.QueryInject`. "## Left out" lists each member built on the corrected ones.
