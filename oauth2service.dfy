/**
 * The OAuth 2.0 client of RSS Guard (src/network-web/oauth2service.cpp): the token
 * state, the authorization-code and refresh flows of RFC 6749, and the refresh timer.
 *
 * Time is a count of seconds `now` handed to each operation; a null QDateTime is `None`
 * and compares earlier than every valid time. A network reply arrives already parsed:
 * its error code, the toolkit's text for that code, and the top-level JSON object
 * (empty when the body was not a JSON object). Everything the service does outwards
 * (posting a request, opening the authorization page, starting or killing a Qt timer,
 * emitting a signal) is appended to the service's `log`.
 */
module OAuth2 {
  import opened Wrappers
  import Forms
  import opened OAuth2Requests

  /** Interval of the refresh timer: 15 minutes, in milliseconds. */
  const RefreshTimerIntervalMs: int := 1000 * 60 * 15
  /** The timer refreshes once the expiry is less than 15 minutes (in seconds) away. */
  const ExpiryWindowSecs: int := 60 * 15
  /** The grant type of a fresh service (RFC 6749 section 4.1.3). */
  const DefaultGrantType: string := "authorization_code"
  /** QNetworkReply::NoError. */
  const NoError: int := 0

  // ---------------------------------------------------------------------------
  // Token state as a value, and what the service decides from it

  datatype Tokens = Tokens(accessToken: string, refreshToken: string, expiresAt: Option<int>)

  /** The state `logout()` leaves behind. */
  const LoggedOut: Tokens := Tokens([], [], None)

  /** `isFullyLoggedIn()`: an expiry strictly after `now` and both tokens present. */
  predicate FullyLoggedIn(t: Tokens, now: int) {
    t.expiresAt.Some? && t.expiresAt.value > now && t.refreshToken != [] && t.accessToken != []
  }

  /** The value of `bearer()`: the Authorization header value, or empty when not logged in. */
  function BearerFor(t: Tokens, now: int): (b: string)
    ensures b != [] <==> FullyLoggedIn(t, now)
    ensures b != [] ==> |b| > 7 && b[..7] == "Bearer " && b[7..] == t.accessToken
  {
    if FullyLoggedIn(t, now) then "Bearer " + t.accessToken else []
  }

  datatype LoginPath = RefreshTokens | RequestAuthorization | AlreadyLoggedIn

  /** Whether `login()` takes the expiry as passed: unknown, or strictly before `now`. */
  predicate Expired(expiresAt: Option<int>, now: int) {
    expiresAt.None? || expiresAt.value < now
  }

  /** Which of its three paths `login()` takes. */
  function LoginPathFor(t: Tokens, now: int): (p: LoginPath)
    ensures p == RefreshTokens <==> t.refreshToken != [] && Expired(t.expiresAt, now)
    ensures p == RequestAuthorization <==> t.refreshToken == []
    ensures p == AlreadyLoggedIn <==>
      t.refreshToken != [] && t.expiresAt.Some? && t.expiresAt.value >= now
  {
    var didTokenExpire := Expired(t.expiresAt, now);
    var doesTokenExist := t.refreshToken != [];
    if doesTokenExist && didTokenExpire then RefreshTokens
    else if !doesTokenExist then RequestAuthorization
    else AlreadyLoggedIn
  }

  /** A fully logged-in service answers `login()` with true. */
  lemma FullyLoggedInMeansAlreadyLoggedIn(t: Tokens, now: int)
    requires FullyLoggedIn(t, now)
    ensures LoginPathFor(t, now) == AlreadyLoggedIn
  {
  }

  /**
   * The converse fails: with a refresh token whose expiry is exactly `now`, or with no
   * access token, `login()` reports success while `bearer()` is still empty.
   */
  lemma AlreadyLoggedInButNoBearer(now: int)
    ensures LoginPathFor(Tokens([], "r", Some(now + 60)), now) == AlreadyLoggedIn
    ensures BearerFor(Tokens([], "r", Some(now + 60)), now) == []
    ensures LoginPathFor(Tokens("a", "r", Some(now)), now) == AlreadyLoggedIn
    ensures BearerFor(Tokens("a", "r", Some(now)), now) == []
  {
  }

  /** After `logout()` nobody is logged in at any time and `login()` asks for authorization. */
  lemma LoggedOutState(now: int)
    ensures !FullyLoggedIn(LoggedOut, now)
    ensures BearerFor(LoggedOut, now) == []
    ensures LoginPathFor(LoggedOut, now) == RequestAuthorization
  {
  }

  /** What `timerEvent()` decides: the event is our timer's and the expiry is close. */
  predicate RefreshesOnTimer(timerId: int, eventId: int, expiresAt: Option<int>, now: int) {
    timerId >= 0 && eventId == timerId &&
    (expiresAt.None? || expiresAt.value - ExpiryWindowSecs < now)
  }

  /** The flows react to a callback only when it names no service or names this one. */
  predicate AcceptsCallback(callbackId: string, id: string) {
    callbackId == [] || callbackId == id
  }

  // ---------------------------------------------------------------------------
  // Token replies

  /** A JSON value as far as the service reads it. `JNumber` is a whole number. */
  datatype JsonValue = JString(s: string) | JNumber(n: int) | JOther

  /** `QJsonValue::toString()`: the string, or empty for a missing key or another type. */
  function StringField(obj: map<string, JsonValue>, key: string): (r: string)
    ensures r != [] ==> key in obj && obj[key] == JString(r)
    ensures key !in obj ==> r == []
  {
    if key in obj && obj[key].JString? then obj[key].s else []
  }

  /** `QJsonValue::toInt()`: a whole number that fits a 32-bit int, otherwise 0. */
  function IntField(obj: map<string, JsonValue>, key: string): (n: int)
    ensures -0x8000_0000 <= n < 0x8000_0000
  {
    if key in obj && obj[key].JNumber? && -0x8000_0000 <= obj[key].n < 0x8000_0000
    then obj[key].n else 0
  }

  datatype NetworkReply = NetworkReply(error: int, errorText: string, body: map<string, JsonValue>)

  /** The three ways `tokenRequestFinished()` reads a reply. */
  datatype ReplyOutcome =
    | TransportFailure(text: string)
    | ErrorResponse(error: string, description: string)
    | TokenResponse(accessToken: string, refreshToken: string, expiresIn: int)

  function Classify(reply: NetworkReply): (r: ReplyOutcome)
    ensures r.TransportFailure? <==> reply.error != NoError
    ensures r.ErrorResponse? <==> reply.error == NoError && "error" in reply.body
    ensures r.TransportFailure? ==> r.text == reply.errorText
  {
    if reply.error != NoError then TransportFailure(reply.errorText)
    else if "error" in reply.body then
      ErrorResponse(StringField(reply.body, "error"), StringField(reply.body, "error_description"))
    else
      TokenResponse(StringField(reply.body, "access_token"), StringField(reply.body, "refresh_token"),
                    IntField(reply.body, "expires_in"))
  }

  /** The token state after `tokenRequestFinished()` at time `now`. */
  function AfterReply(t: Tokens, reply: NetworkReply, now: int): Tokens {
    match Classify(reply)
    case TransportFailure(_) => t
    case ErrorResponse(_, _) => LoggedOut
    case TokenResponse(access, refresh, expiresIn) =>
      Tokens(access, if refresh != [] then refresh else t.refreshToken, Some(now + expiresIn))
  }

  /** A failed transfer changes no token. */
  lemma TransportFailureKeepsTokens(t: Tokens, reply: NetworkReply, now: int)
    requires reply.error != NoError
    ensures AfterReply(t, reply, now) == t
  {
  }

  /** An error response (RFC 6749 section 5.2) logs the service out. */
  lemma ErrorResponseLogsOut(t: Tokens, reply: NetworkReply, now: int)
    requires reply.error == NoError && "error" in reply.body
    ensures AfterReply(t, reply, now) == LoggedOut
    ensures !FullyLoggedIn(AfterReply(t, reply, now), now)
  {
  }

  /**
   * A successful response (RFC 6749 section 5.1) replaces the access token and the
   * expiry, and the refresh token only when the response carries a non-empty one.
   */
  lemma TokenResponseUpdates(t: Tokens, reply: NetworkReply, now: int)
    requires reply.error == NoError && "error" !in reply.body
    ensures AfterReply(t, reply, now).accessToken == StringField(reply.body, "access_token")
    ensures AfterReply(t, reply, now).expiresAt == Some(now + IntField(reply.body, "expires_in"))
    ensures StringField(reply.body, "refresh_token") == [] ==>
      AfterReply(t, reply, now).refreshToken == t.refreshToken
    ensures StringField(reply.body, "refresh_token") != [] ==>
      AfterReply(t, reply, now).refreshToken == StringField(reply.body, "refresh_token")
  {
  }

  /**
   * A successful response with both tokens and a positive lifetime leaves the service
   * fully logged in until that lifetime has passed.
   */
  lemma TokenResponseLogsIn(t: Tokens, reply: NetworkReply, now: int, later: int)
    requires reply.error == NoError && "error" !in reply.body
    requires StringField(reply.body, "access_token") != []
    requires StringField(reply.body, "refresh_token") != [] || t.refreshToken != []
    requires now <= later < now + IntField(reply.body, "expires_in")
    ensures FullyLoggedIn(AfterReply(t, reply, now), later)
    ensures LoginPathFor(AfterReply(t, reply, now), later) == AlreadyLoggedIn
  {
  }

  /** `QString::number(n)` for a non-negative `n`. */
  function DecimalText(n: nat): (s: string)
    ensures s != []
    ensures forall i :: 0 <= i < |s| ==> '0' <= s[i] <= '9'
  {
    var digit := ['0' + (n % 10) as char];
    if n < 10 then digit else DecimalText(n / 10) + digit
  }

  /**
   * A fresh service's id is the decimal text of a random number, which cannot hold '&',
   * so the authorization URL carries it whole as its `state`: the value a callback
   * echoes back is exactly the id that `AcceptsCallback` compares it with.
   */
  lemma AuthorizationUrlCarriesServiceId(authUrl: string, clientId: string, scope: string,
                                        redirectUrl: string, randomId: nat)
    requires '?' !in authUrl && '&' !in clientId && '&' !in scope && '&' !in redirectUrl
    ensures Forms.Lookup(Forms.ParseForm(Query(AuthorizationUrl(authUrl, clientId, scope, redirectUrl,
                                                               DecimalText(randomId)))), "state")
         == Some(DecimalText(randomId))
  {
    var id := DecimalText(randomId);
    AuthorizationUrlCarriesState(authUrl, clientId, scope, redirectUrl, id);
  }

  // ---------------------------------------------------------------------------
  // The service object

  /** What the service does outwards, in order. */
  datatype Effect =
    | Post(url: string, body: string)
    | OpenAuthorizationPage(url: string)
    | StartTimer(timerId: int, intervalMs: int)
    | KillTimer(timerId: int)
    | TokensRetrieveError(error: string, description: string)
    | TokensReceived(accessToken: string, refreshToken: string, expiresIn: int)
    | AuthFailed

  /** The Qt timers the log leaves running: a started id above 0 runs until it is killed. */
  function LiveTimers(log: seq<Effect>): set<int>
    decreases |log|
  {
    if log == [] then {}
    else
      TimerStep(LiveTimers(log[..|log| - 1]), log[|log| - 1])
  }

  /** How one effect changes the set of running timers. */
  function TimerStep(live: set<int>, e: Effect): set<int> {
    if e.StartTimer? then (if e.timerId > 0 then live + {e.timerId} else live)
    else if e.KillTimer? then live - {e.timerId}
    else live
  }

  lemma LiveTimersStep(log: seq<Effect>, e: Effect)
    ensures LiveTimers(log + [e]) == TimerStep(LiveTimers(log), e)
  {
    assert (log + [e])[..|log + [e]| - 1] == log;
  }

  /** The timer effects of `killRefreshTimer()` for a stored id. */
  function KillEffects(timerId: int): seq<Effect> {
    if timerId > 0 then [KillTimer(timerId)] else []
  }

  /** The effects of `setRefreshToken()`: kill the old timer, then start one for a non-empty token. */
  function SetRefreshEffects(oldTimerId: int, token: string, freshTimerId: nat): seq<Effect> {
    KillEffects(oldTimerId) + (if token != [] then [StartTimer(freshTimerId, RefreshTimerIntervalMs)] else [])
  }

  /**
   * The timer invariant: exactly one refresh timer runs while a refresh token is held,
   * and it is the stored one (none if `startTimer` failed and returned 0); none runs
   * without a refresh token.
   */
  predicate TimerInvariant(timerId: int, refreshToken: string, live: set<int>) {
    live == if refreshToken != [] && timerId > 0 then {timerId} else {}
  }

  class OAuth2Service {
    var id: string
    var timerId: int
    var tokensExpireIn: Option<int>
    var accessToken: string
    var refreshToken: string
    var clientId: string
    var clientSecret: string
    var scope: string
    var redirectUrl: string
    var tokenGrantType: string
    var authUrl: string
    var tokenUrl: string
    var log: seq<Effect>

    ghost predicate Valid()
      reads this
    {
      TimerInvariant(timerId, refreshToken, LiveTimers(log))
    }

    function TokenState(): Tokens
      reads this
    {
      Tokens(accessToken, refreshToken, tokensExpireIn)
    }

    /**
     * `randomId` stands for `std::rand()` and `localhostAddress` for LOCALHOST_ADDRESS,
     * whose definitions are not part of this model.
     */
    constructor (authUrl: string, tokenUrl: string, clientId: string, clientSecret: string,
                 scope: string, randomId: nat, localhostAddress: string)
      ensures Valid()
      ensures id == DecimalText(randomId) && timerId == -1
      ensures TokenState() == LoggedOut
      ensures redirectUrl == localhostAddress && tokenGrantType == DefaultGrantType
      ensures this.authUrl == authUrl && this.tokenUrl == tokenUrl
      ensures this.clientId == clientId && this.clientSecret == clientSecret && this.scope == scope
      ensures log == []
    {
      id := DecimalText(randomId);
      timerId := -1;
      tokensExpireIn := None;
      accessToken := [];
      refreshToken := [];
      redirectUrl := localhostAddress;
      tokenGrantType := DefaultGrantType;
      this.tokenUrl := tokenUrl;
      this.authUrl := authUrl;
      this.clientId := clientId;
      this.clientSecret := clientSecret;
      this.scope := scope;
      log := [];
    }

    method IsFullyLoggedIn(now: int) returns (r: bool)
      ensures r == FullyLoggedIn(TokenState(), now)
    {
      var isExpirationValid := tokensExpireIn.Some? && tokensExpireIn.value > now;
      var doTokensExist := refreshToken != [] && accessToken != [];
      r := isExpirationValid && doTokensExist;
    }

    /** `bearer()`; the "login first" GUI message it shows when empty is not modelled. */
    method Bearer(now: int) returns (b: string)
      ensures b == BearerFor(TokenState(), now)
    {
      var loggedIn := IsFullyLoggedIn(now);
      if !loggedIn {
        b := [];
      } else {
        b := "Bearer " + accessToken;
      }
    }

    method SetAccessToken(token: string)
      requires Valid()
      modifies this`accessToken
      ensures Valid() && accessToken == token
    {
      accessToken := token;
    }

    method SetTokensExpireIn(expiresAt: Option<int>)
      requires Valid()
      modifies this`tokensExpireIn
      ensures Valid() && tokensExpireIn == expiresAt
    {
      tokensExpireIn := expiresAt;
    }

    method SetClientId(value: string)
      modifies this`clientId
      ensures clientId == value
    {
      clientId := value;
    }

    method SetClientSecret(value: string)
      modifies this`clientSecret
      ensures clientSecret == value
    {
      clientSecret := value;
    }

    method SetRedirectUrl(value: string)
      modifies this`redirectUrl
      ensures redirectUrl == value
    {
      redirectUrl := value;
    }

    method SetId(value: string)
      modifies this`id
      ensures id == value
    {
      id := value;
    }

    method SetOAuthTokenGrantType(value: string)
      modifies this`tokenGrantType
      ensures tokenGrantType == value
    {
      tokenGrantType := value;
    }

    /** Kills the stored timer when its id is above 0; the stored id is kept. */
    method KillRefreshTimer()
      requires Valid()
      modifies this`log
      ensures log == old(log) + KillEffects(timerId)
      ensures LiveTimers(log) == {}
    {
      if timerId > 0 {
        LiveTimersStep(log, KillTimer(timerId));
        log := log + [KillTimer(timerId)];
      }
    }

    /** Starts a fresh 15-minute timer, with the id Qt hands out, when a refresh token is held. */
    method StartRefreshTimer(freshTimerId: nat)
      requires LiveTimers(log) == {}
      modifies this`timerId, this`log
      ensures Valid()
      ensures timerId == if refreshToken != [] then freshTimerId else old(timerId)
      ensures log == old(log) + if refreshToken != [] then [StartTimer(freshTimerId, RefreshTimerIntervalMs)] else []
    {
      if refreshToken != [] {
        LiveTimersStep(log, StartTimer(freshTimerId, RefreshTimerIntervalMs));
        timerId := freshTimerId;
        log := log + [StartTimer(freshTimerId, RefreshTimerIntervalMs)];
      }
    }

    method SetRefreshToken(token: string, freshTimerId: nat)
      requires Valid()
      modifies this`refreshToken, this`timerId, this`log
      ensures Valid() && refreshToken == token
      ensures timerId == if token != [] then freshTimerId else old(timerId)
      ensures log == old(log) + SetRefreshEffects(old(timerId), token, freshTimerId)
      ensures LiveTimers(log) == if token != [] && freshTimerId > 0 then {freshTimerId} else {}
    {
      KillRefreshTimer();
      refreshToken := token;
      StartRefreshTimer(freshTimerId);
    }

    method Logout()
      requires Valid()
      modifies this`tokensExpireIn, this`accessToken, this`refreshToken, this`timerId, this`log
      ensures Valid() && TokenState() == LoggedOut
      ensures timerId == old(timerId)
      ensures log == old(log) + KillEffects(old(timerId))
      ensures LiveTimers(log) == {}
    {
      SetTokensExpireIn(None);
      SetAccessToken([]);
      SetRefreshToken([], 0);
    }

    /** Posts the access-token request for an authorization code. */
    method RetrieveAccessToken(code: string)
      requires Valid()
      modifies this`log
      ensures Valid()
      ensures log == old(log) + [Post(tokenUrl, AccessTokenBody(clientId, clientSecret, code, redirectUrl, tokenGrantType))]
    {
      var content := AccessTokenBody(clientId, clientSecret, code, redirectUrl, tokenGrantType);
      LiveTimersStep(log, Post(tokenUrl, content));
      log := log + [Post(tokenUrl, content)];
    }

    /** Posts the refresh request; an empty argument means the stored refresh token. */
    method RefreshAccessToken(token: string)
      requires Valid()
      modifies this`log
      ensures Valid()
      ensures log == old(log) + [Post(tokenUrl, RefreshBody(clientId, clientSecret, if token == [] then refreshToken else token))]
    {
      var refresh := token;
      if refresh == [] {
        refresh := refreshToken;
      }
      var content := RefreshBody(clientId, clientSecret, refresh);
      LiveTimersStep(log, Post(tokenUrl, content));
      log := log + [Post(tokenUrl, content)];
    }

    /** Opens the authorization page, whose `state` is the service id. */
    method RetrieveAuthCode()
      requires Valid()
      modifies this`log
      ensures Valid()
      ensures log == old(log) + [OpenAuthorizationPage(AuthorizationUrl(authUrl, clientId, scope, redirectUrl, id))]
    {
      var url := AuthorizationUrl(authUrl, clientId, scope, redirectUrl, id);
      LiveTimersStep(log, OpenAuthorizationPage(url));
      log := log + [OpenAuthorizationPage(url)];
    }

    method Login(now: int) returns (loggedIn: bool)
      requires Valid()
      modifies this`log
      ensures Valid()
      ensures loggedIn <==> LoginPathFor(TokenState(), now) == AlreadyLoggedIn
      ensures log == old(log) +
        match LoginPathFor(TokenState(), now)
        case RefreshTokens => [Post(tokenUrl, RefreshBody(clientId, clientSecret, refreshToken))]
        case RequestAuthorization => [OpenAuthorizationPage(AuthorizationUrl(authUrl, clientId, scope, redirectUrl, id))]
        case AlreadyLoggedIn => []
    {
      var didTokenExpire := tokensExpireIn.None? || tokensExpireIn.value < now;
      var doesTokenExist := refreshToken != [];
      if doesTokenExist && didTokenExpire {
        RefreshAccessToken([]);
        loggedIn := false;
      } else if !doesTokenExist {
        RetrieveAuthCode();
        loggedIn := false;
      } else {
        loggedIn := true;
      }
    }

    /** `timerEvent()` for a timer event with id `eventId` at time `now`. */
    method TimerEvent(eventId: int, now: int)
      requires Valid()
      modifies this`log
      ensures Valid()
      ensures log == old(log) +
        if RefreshesOnTimer(timerId, eventId, tokensExpireIn, now)
        then [Post(tokenUrl, RefreshBody(clientId, clientSecret, refreshToken))] else []
    {
      if timerId >= 0 && eventId == timerId {
        var aboutToExpire := tokensExpireIn.None? || tokensExpireIn.value - ExpiryWindowSecs < now;
        if aboutToExpire {
          RefreshAccessToken([]);
        }
      }
    }

    /**
     * `tokenRequestFinished()` for a reply received at `now`; `freshTimerId` is the id Qt
     * hands out if a new refresh token starts a timer.
     */
    method TokenRequestFinished(reply: NetworkReply, now: int, freshTimerId: nat)
      requires Valid()
      modifies this`tokensExpireIn, this`accessToken, this`refreshToken, this`timerId, this`log
      ensures Valid()
      ensures TokenState() == AfterReply(old(TokenState()), reply, now)
      ensures reply.error != NoError ==>
        log == old(log) + [TokensRetrieveError([], reply.errorText)]
      ensures reply.error == NoError && "error" in reply.body ==>
        log == old(log) + KillEffects(old(timerId)) +
          [TokensRetrieveError(StringField(reply.body, "error"), StringField(reply.body, "error_description"))]
      ensures reply.error == NoError && "error" !in reply.body ==>
        var refresh := StringField(reply.body, "refresh_token");
        log == old(log) + (if refresh != [] then SetRefreshEffects(old(timerId), refresh, freshTimerId) else []) +
          [TokensReceived(accessToken, refreshToken, IntField(reply.body, "expires_in"))]
      ensures timerId == if reply.error == NoError && "error" !in reply.body &&
        StringField(reply.body, "refresh_token") != [] then freshTimerId else old(timerId)
    {
      ghost var before := TokenState();
      if reply.error != NoError {
        assert Classify(reply) == TransportFailure(reply.errorText);
        LiveTimersStep(log, TokensRetrieveError([], reply.errorText));
        log := log + [TokensRetrieveError([], reply.errorText)];
      } else if "error" in reply.body {
        var error := StringField(reply.body, "error");
        var errorDescription := StringField(reply.body, "error_description");
        assert Classify(reply) == ErrorResponse(error, errorDescription);
        Logout();
        LiveTimersStep(log, TokensRetrieveError(error, errorDescription));
        log := log + [TokensRetrieveError(error, errorDescription)];
      } else {
        var expires := IntField(reply.body, "expires_in");
        var access := StringField(reply.body, "access_token");
        var refresh := StringField(reply.body, "refresh_token");
        assert Classify(reply) == TokenResponse(access, refresh, expires);
        SetTokensExpireIn(Some(now + expires));
        SetAccessToken(access);
        if refresh != [] {
          SetRefreshToken(refresh, freshTimerId);
        }
        assert TokenState() == AfterReply(before, reply, now);
        LiveTimersStep(log, TokensReceived(accessToken, refreshToken, expires));
        log := log + [TokensReceived(accessToken, refreshToken, expires)];
      }
    }

    /** The HTTP handler granted an authorization code for the service named `callbackId`. */
    method OnAuthGranted(code: string, callbackId: string)
      requires Valid()
      modifies this`log
      ensures Valid()
      ensures log == old(log) +
        if AcceptsCallback(callbackId, id)
        then [Post(tokenUrl, AccessTokenBody(clientId, clientSecret, code, redirectUrl, tokenGrantType))] else []
    {
      if callbackId == [] || callbackId == id {
        RetrieveAccessToken(code);
      }
    }

    /** The HTTP handler reported a rejected authorization for the service named `callbackId`. */
    method OnAuthRejected(description: string, callbackId: string)
      requires Valid()
      modifies this`log
      ensures Valid()
      ensures log == old(log) + if AcceptsCallback(callbackId, id) then [AuthFailed] else []
    {
      if callbackId == [] || callbackId == id {
        LiveTimersStep(log, AuthFailed);
        log := log + [AuthFailed];
      }
    }

    /** In the embedded-browser build, the login page reported a rejected authorization. */
    method OnLoginPageRejected()
      requires Valid()
      modifies this`tokensExpireIn, this`accessToken, this`refreshToken, this`timerId, this`log
      ensures Valid() && TokenState() == LoggedOut && timerId == old(timerId)
      ensures log == old(log) + KillEffects(old(timerId)) + [AuthFailed]
    {
      Logout();
      LiveTimersStep(log, AuthFailed);
      log := log + [AuthFailed];
    }
  }
}
