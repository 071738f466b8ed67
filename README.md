# RSS Guard OAuth 2.0 service and web-view input rules in Dafny

This project models two parts of RSS Guard's network layer and proves properties of them.

- **`OAuth2Service`** (src/network-web/oauth2service.cpp) is the client side of the OAuth 2.0 authorization-code and refresh flows (RFC 6749). It holds an access token, a refresh token, a possibly null expiry time, a refresh-timer id and the client settings. It decides on each `login()` whether to refresh, to ask for authorization, or to report that it is already logged in. It builds the access-token and refresh request bodies (sections 4.1.3 and 6) and the authorization URL (section 4.1.1). It applies token replies (sections 5.1 and 5.2) to its state, and it keeps one 15-minute refresh timer running while it holds a refresh token.
- **`WebView`** (src/network-web/webview.cpp) is the embedded browser widget. The model covers its input decisions: the middle-button gesture resolver, the ctrl+left-click link/image rule, which entries the context menu shows, and the error page after a failed load.

Files:

- `wrappers.dfy`: the `Option` type. A null `QDateTime` and an invalid `QUrl` are `None`.
- `forms.dfy` (module `Forms`): a reader for `application/x-www-form-urlencoded` text. It splits on `&` and cuts each field at its first `=`, with no decoding. It is the inverse the request builders are proved against.
- `oauth2requests.dfy` (module `OAuth2Requests`): the two request bodies and the authorization URL, exactly as the service concatenates them, with their round-trip lemmas.
- `oauth2service.dfy` (module `OAuth2`): the token state as a value, reply handling, the effect log with its timer bookkeeping, and the class `OAuth2Service`.
- `webview.dfy` (module `Web`): the gesture resolver, the context-menu rule and the class `WebView`.

Time is an integer number of seconds, `now`, passed to each operation that reads the clock. `std::rand()` becomes the parameter `randomId`. Each id that `QObject::startTimer` hands out becomes the parameter `freshTimerId`, where 0 means the timer could not be started. Everything either object does outwards is appended, in order, to its `log`:

- `OAuth2Service` posts, opens the authorization page, starts and kills timers, and emits `tokensRetrieveError`, `tokensReceived` and `authFailed`.
- `WebView` emits `linkMiddleClicked` and gesture actions, forwards events to the base widget, and shows the error page.

The class invariant `OAuth2Service.Valid()` says the live timers in the log are exactly the stored timer id when a refresh token is held and that id is above 0, and none otherwise. Every public operation keeps it. `KillRefreshTimer` is the exception: like `killRefreshTimer()` inside `setRefreshToken()` (src/network-web/oauth2service.cpp:265-269), it is a first step after which no timer runs but the refresh token is still held. `Valid()` holds again once `StartRefreshTimer` runs, or once `Logout` has cleared the token.

## Model

| member | source | states |
|---|---|---|
| OAuth2.BearerFor | src/network-web/oauth2service.cpp:81-95 | the bearer value is non-empty exactly when the service is fully logged in, and then it is "Bearer " followed by the access token |
| OAuth2.OAuth2Service.Bearer | src/network-web/oauth2service.cpp:81-95 | `bearer()` on the object yields `BearerFor` of its token state and changes nothing |
| OAuth2.FullyLoggedIn | src/network-web/oauth2service.cpp:97-102 | definition: an expiry strictly after `now` and both tokens non-empty; `IsFullyLoggedIn`, `BearerFor` and `TokenResponseLogsIn` state it about the service |
| OAuth2.OAuth2Service.IsFullyLoggedIn | src/network-web/oauth2service.cpp:97-102 | true exactly when the expiry is strictly after `now` and both tokens are non-empty |
| OAuth2.LoginPathFor | src/network-web/oauth2service.cpp:271-290 | `login()` has three exclusive paths: refresh when a refresh token exists and the expiry is null or before `now`; authorization when there is no refresh token; otherwise already logged in |
| OAuth2.FullyLoggedInMeansAlreadyLoggedIn | src/network-web/oauth2service.cpp:271-290 | a fully logged-in service answers `login()` with true |
| OAuth2.AlreadyLoggedInButNoBearer | src/network-web/oauth2service.cpp:271-290 | the converse fails: with no access token, or with an expiry equal to `now`, `login()` returns true while `bearer()` is empty |
| OAuth2.OAuth2Service.Login | src/network-web/oauth2service.cpp:271-290 | returns true exactly on the already-logged-in path; posts the refresh body with the stored refresh token on the refresh path; opens the authorization URL on the authorization path; otherwise does nothing |
| OAuth2.LoggedOutState | src/network-web/oauth2service.cpp:292-296 | after logout nobody is fully logged in at any time, the bearer is empty and `login()` asks for authorization |
| OAuth2.OAuth2Service.Logout | src/network-web/oauth2service.cpp:292-296 | clears the expiry and both tokens, kills the stored timer if its id is above 0, keeps the stored id, and leaves no timer running |
| OAuth2.IntField | src/network-web/oauth2service.cpp:202 | `toInt()` of `expires_in` is a 32-bit value; the definition reads a missing, non-numeric or out-of-range value as 0 |
| OAuth2.StringField | src/network-web/oauth2service.cpp:194-195 | `toString()` of a key: a non-empty result is the string stored under the key, and a missing key reads as empty |
| OAuth2.Classify | src/network-web/oauth2service.cpp:190-207 | the three reply branches partition the replies: a network error (carrying the toolkit's error text), else an "error" key, else a token response |
| OAuth2.AfterReply | src/network-web/oauth2service.cpp:190-212 | definition of the token state after a reply; its properties are `TransportFailureKeepsTokens`, `ErrorResponseLogsOut`, `TokenResponseUpdates` and `TokenResponseLogsIn` |
| OAuth2.TransportFailureKeepsTokens | src/network-web/oauth2service.cpp:190-192 | a reply with a network error changes no token |
| OAuth2.ErrorResponseLogsOut | src/network-web/oauth2service.cpp:193-200 | a reply with an "error" key leaves the logged-out state, in which the service is not fully logged in |
| OAuth2.TokenResponseUpdates | src/network-web/oauth2service.cpp:201-215 | a success reply sets the access token and the expiry `now + expires_in`, and replaces the refresh token only when the reply's one is non-empty |
| OAuth2.TokenResponseLogsIn | src/network-web/oauth2service.cpp:201-215 | a success reply with an access token, some refresh token and a positive lifetime leaves the service fully logged in, with `login()` answering true, until the lifetime has passed |
| OAuth2.OAuth2Service.TokenRequestFinished | src/network-web/oauth2service.cpp:183-219 | the new token state is the reply applied to the old one. A network error emits `tokensRetrieveError` with an empty code and the error text. An error response logs out and then emits the code and the description. A success response restarts the timer for a new refresh token and emits `tokensReceived` with the new tokens and `expires_in` |
| OAuth2.OAuth2Service.RetrieveAccessToken | src/network-web/oauth2service.cpp:146-159 | posts `AccessTokenBody` of the stored client settings and the code to the token URL |
| OAuth2Requests.AccessTokenBody | src/network-web/oauth2service.cpp:152-156 | definition: the access-token body concatenated without encoding, `%5` the redirect URL and `%4` the grant type; `AccessTokenBodyRoundTrip` and `AccessTokenBodyFieldCount` state what it means |
| OAuth2Requests.AccessTokenBodyRoundTrip | src/network-web/oauth2service.cpp:152-156 | reading the access-token body back yields the five fields client_id, client_secret, code, redirect_uri and grant_type with their values, in that order, when no value contains '&' |
| OAuth2Requests.AccessTokenBodyFieldCount | src/network-web/oauth2service.cpp:152-156 | the body reads back as 5 fields plus one per '&' inside the values, so it reads as exactly five fields exactly when no value contains '&' |
| OAuth2.OAuth2Service.RefreshAccessToken | src/network-web/oauth2service.cpp:161-181 | posts `RefreshBody` to the token URL, using the stored refresh token when the argument is empty |
| OAuth2Requests.RefreshBody | src/network-web/oauth2service.cpp:171-174 | definition: the refresh body concatenated without encoding, with the grant type `refresh_token`; `RefreshBodyRoundTrip` states what it means |
| OAuth2Requests.RefreshBodyRoundTrip | src/network-web/oauth2service.cpp:171-174 | the refresh body reads back as client_id, client_secret, refresh_token and grant_type=refresh_token when no value contains '&' |
| OAuth2.OAuth2Service.RetrieveAuthCode | src/network-web/oauth2service.cpp:310-337 | opens the authorization URL built from the authorization URL, client id, scope, redirect URL and service id |
| OAuth2Requests.AuthorizationQuery | src/network-web/oauth2service.cpp:311-316 | definition: the authorization query concatenated without encoding; `AuthorizationQueryRoundTrip` states what it means |
| OAuth2Requests.AuthorizationUrl | src/network-web/oauth2service.cpp:311 | definition: the authorization URL followed by '?' and the query; `AuthorizationUrlCarriesState` states what it means |
| OAuth2Requests.AuthorizationQueryRoundTrip | src/network-web/oauth2service.cpp:311-316 | the query reads back as client_id, scope, redirect_uri, response_type=code, state, prompt=consent and access_type=offline when no value contains '&' |
| OAuth2Requests.AuthorizationUrlCarriesState | src/network-web/oauth2service.cpp:311-316 | when the base URL has no '?', the text after the first '?' is that query, and its `state` field is the id passed in |
| OAuth2.AuthorizationUrlCarriesServiceId | src/network-web/oauth2service.cpp:311-316 | the `state` field of a fresh service's authorization URL reads back as its whole decimal id, the value that the callback filter (lines 64 and 72) compares against |
| OAuth2.DecimalText | src/network-web/oauth2service.cpp:50 | the id `QString::number(std::rand())` is a non-empty string of decimal digits |
| OAuth2.OAuth2Service.constructor | src/network-web/oauth2service.cpp:48-62 | a fresh service is logged out, with timer id -1, the decimal random id, the localhost redirect URL, the grant type "authorization_code" and the given URLs and client settings |
| OAuth2.OAuth2Service.OnAuthGranted | src/network-web/oauth2service.cpp:63-70 | a granted code is exchanged for tokens exactly when the callback id is empty or equals the service id |
| OAuth2.OAuth2Service.OnAuthRejected | src/network-web/oauth2service.cpp:71-77 | `authFailed` is emitted exactly when the callback id is empty or equals the service id |
| OAuth2.OAuth2Service.OnLoginPageRejected | src/network-web/oauth2service.cpp:318-325 | in the embedded-browser build, a rejection on the login page logs out and then emits `authFailed` |
| OAuth2.OAuth2Service.TimerEvent | src/network-web/oauth2service.cpp:112-129 | posts the refresh body exactly when the event's id equals a non-negative stored id and the expiry minus 15 minutes is before `now`, a null expiry counting as before |
| OAuth2.OAuth2Service.SetRefreshToken | src/network-web/oauth2service.cpp:265-269 | kills the old timer only if its id is above 0, stores the token, and starts a 15-minute timer only for a non-empty token; afterwards the only live timer is the fresh one, and none for an empty token |
| OAuth2.OAuth2Service.KillRefreshTimer | src/network-web/oauth2service.cpp:304-308 | kills the stored timer only when its id is above 0, keeps the stored id, and leaves no timer running |
| OAuth2.OAuth2Service.StartRefreshTimer | src/network-web/oauth2service.cpp:298-302 | with a refresh token, starts a 15-minute timer and stores its id; without one, changes nothing |
| OAuth2.OAuth2Service.SetAccessToken | src/network-web/oauth2service.cpp:225-227 | stores the access token and keeps the timer invariant |
| OAuth2.OAuth2Service.SetTokensExpireIn | src/network-web/oauth2service.cpp:233-235 | stores the expiry and keeps the timer invariant |
| OAuth2.OAuth2Service.SetClientSecret | src/network-web/oauth2service.cpp:241-243 | stores the client secret and nothing else |
| OAuth2.OAuth2Service.SetClientId | src/network-web/oauth2service.cpp:249-251 | stores the client id and nothing else |
| OAuth2.OAuth2Service.SetRedirectUrl | src/network-web/oauth2service.cpp:257-259 | stores the redirect URL and nothing else |
| OAuth2.OAuth2Service.SetId | src/network-web/oauth2service.cpp:135-137 | stores the service id and nothing else |
| OAuth2.OAuth2Service.SetOAuthTokenGrantType | src/network-web/oauth2service.cpp:104-106 | stores the grant type and nothing else |
| Web.MaxDisplacement | src/network-web/webview.cpp:309-313 | the largest of the four displacements bounds each of them and equals one of them |
| Web.ResolveGesture | src/network-web/webview.cpp:308-326 | no action exactly when every displacement is below 40; otherwise the action's displacement is the largest, and every action tested before it moved strictly less |
| Web.ResolveGestureIsFirstAtMaximum | src/network-web/webview.cpp:313-326 | the resolver equals the rule "nothing below the floor, otherwise the first of Back, Forward, Reload, NewTab whose displacement is the largest" |
| Web.GestureExamples | src/network-web/webview.cpp:308-326 | an upward drag reloads, a rightward one goes forward, a drag with every displacement below 40 fires nothing, an exact diagonal tie goes back, and a downward drag of exactly 40 requests a new tab |
| Web.GestureNeedsMiddleButtonAndSetting | src/network-web/webview.cpp:304-326 | a release fires at most one action, and fires one exactly when it is a middle release, gestures are enabled and the drag reached the floor |
| Web.GestureEvents | src/network-web/webview.cpp:304-326 | definition of what a release fires before it is forwarded; `GestureNeedsMiddleButtonAndSetting` states what it means |
| Web.WebView.MouseReleaseEvent | src/network-web/webview.cpp:303-331 | appends the resolved action for a middle release with gestures enabled, then always forwards the release |
| Web.WebView.MousePressEvent | src/network-web/webview.cpp:276-301 | ctrl+left emits the link if valid, else the image if valid, without forwarding, and is forwarded when neither is valid; a middle press records the origin and is not forwarded; any other press is forwarded |
| Web.WebView.OnLoadFinished | src/network-web/webview.cpp:59-64 | a failed load shows the error page; a successful one does nothing |
| Web.ContextMenu | src/network-web/webview.cpp:225-264 | definition of the menu as the page entries, copy-selection and save-as, then the hyperlink and image submenus; the lemmas below state what it contains |
| Web.PageEntriesRule | src/network-web/webview.cpp:227-233 | the page part holds Print exactly for a printable URL and Reload exactly for a printable URL other than the newspaper page, each at most once, and nothing else |
| Web.LinkEntriesRule | src/network-web/webview.cpp:241-249 | the hyperlink part holds the four-action hyperlink submenu, once, exactly when the hit link is valid, and nothing else |
| Web.ImageEntriesRule | src/network-web/webview.cpp:251-264 | the image part holds the image submenu, once, exactly when the hit pixmap is not null, and nothing else |
| Web.ContextMenuContents | src/network-web/webview.cpp:225-264 | Print exactly when the URL is non-empty and neither the empty nor the blank page; Reload exactly when that holds and it is not the newspaper page; copy-selection and save-as always; the four-action hyperlink submenu exactly for a valid link; the image submenu exactly for a non-null pixmap, as the last entry |
| Web.ContextMenuExact | src/network-web/webview.cpp:225-264 | nothing else is in the menu: no other submenu, no plain action besides print, reload, copy-selection and save-as, and exactly one entry per addition the rule makes |
| Web.ContextMenuDistinct | src/network-web/webview.cpp:225-264 | no entry of the menu occurs twice |
| Web.ImageSubmenuContents | src/network-web/webview.cpp:255-263 | the image submenu offers open-in-new-tab and copy-address exactly for a valid image URL, and copy-image is always its last entry |
| Web.WebView.PopupContextMenu | src/network-web/webview.cpp:214-268 | the menu built step by step equals `ContextMenu`; it records the link for a valid link and the image address for a valid image URL under a non-null pixmap, and otherwise keeps the recorded ones |
| Web.WebView.constructor | src/network-web/webview.cpp:47-53 | a fresh view has the gesture origin (0, 0), no recorded link or image and an empty log |

## Left out

- Getters (`accessToken()`, `refreshToken()`, `tokensExpireIn()`, `clientId()`, `clientSecret()`, `redirectUrl()`, `id()`, `oAuthTokenGrantType()`) are the class's public fields and have no members of their own.
- The network: posting a request, reading the reply and parsing its JSON are not modelled. A reply arrives as an error code, the toolkit's text for that error and the top-level JSON object. An unparsable body is the empty object.
- The `application/x-www-form-urlencoded` content type header and the UTF-8 conversion of the body are not modelled; the body is the string before encoding.
- No value is percent-encoded, because the service does not encode any. The round-trip lemmas therefore assume values without '&', and `AccessTokenBodyFieldCount` shows what a '&' does.
- The round-trip lemmas read bodies back with `Forms`, which models no source file. It cuts each field at its first '=' and does no decoding.
- The wall clock, `std::rand()` and Qt timer-id allocation become the parameters `now`, `randomId` and `freshTimerId`. QDateTime arithmetic becomes integer seconds, and a null QDateTime compares earlier than every valid time, as Qt 5 orders them.
- LOCALHOST_ADDRESS, INTERNAL_URL_EMPTY, INTERNAL_URL_BLANK and INTERNAL_URL_NEWSPAPER are parameters. definitions.h is not part of this model.
- GUI messages (`showGuiMessage`), debug output, and opening the URL in the external browser are left out. Opening the page appears only as an `OpenAuthorizationPage` effect.
- The OAuth HTTP handler and the embedded login dialog are left out. Their signals become the methods `OnAuthGranted`, `OnAuthRejected` and `OnLoginPageRejected`.
- `QObject::timerEvent` forwarding and `event->accept()` have no observable effect in the model.
- Web.ResolveGesture: displacements are unbounded integers. The source's `int` overflow on coordinates near the 32-bit limit is not modelled, since widget coordinates never come near it.
- Web.WebView.MousePressEvent: the button is one of four values, rather than a Qt flag tested with `&`.
- QUrl validity is abstracted to `Option`: a valid URL is `Some(text)`.
- The hit test itself (`hitTestContent`) is an input. Showing the menu (`exec`), menu titles and icons are left out.
- The menu assumes QT_VERSION 4.8 or later, so copy-image-URL is always present for a valid image URL.
- Zoom (`increaseWebPageZoom`, `decreaseWebPageZoom`, `resetWebPageZoom`) and `wheelEvent` are left out. They are floating-point zoom-factor arithmetic.
- Saving the page, print preview, icon setup, action initialization and the error-page markup are toolkit calls and file I/O. They are left out, as are the slots the menu actions trigger.
