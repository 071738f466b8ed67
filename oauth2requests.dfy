/**
 * The requests the OAuth 2.0 client of src/network-web/oauth2service.cpp sends: the
 * authorization URL (RFC 6749 section 4.1.1), the access-token request body (section
 * 4.1.3) and the refresh request body (section 6). They are filled in by plain text
 * substitution, without percent-encoding, so what they mean is stated by reading them
 * back with `Forms.ParseForm`.
 */
module OAuth2Requests {
  import opened Wrappers
  import Forms

  /** The body of the access-token request (RFC 6749 section 4.1.3). */
  function AccessTokenBody(clientId: string, clientSecret: string, code: string,
                           redirectUrl: string, grantType: string): string
  {
    "client_id=" + clientId + "&client_secret=" + clientSecret + "&code=" + code +
    "&redirect_uri=" + redirectUrl + "&grant_type=" + grantType
  }

  /** The body of the refresh request (RFC 6749 section 6). */
  function RefreshBody(clientId: string, clientSecret: string, refreshToken: string): string
  {
    "client_id=" + clientId + "&client_secret=" + clientSecret + "&refresh_token=" + refreshToken +
    "&grant_type=" + "refresh_token"
  }

  /** The query of the authorization request, with `state` set to `state`. */
  function AuthorizationQuery(clientId: string, scope: string, redirectUrl: string, state: string): string
  {
    "client_id=" + clientId + "&scope=" + scope + "&redirect_uri=" + redirectUrl +
    "&response_type=" + "code" + "&state=" + state + "&prompt=" + "consent" + "&access_type=" + "offline"
  }

  /** The authorization request URL (RFC 6749 section 4.1.1). */
  function AuthorizationUrl(authUrl: string, clientId: string, scope: string,
                            redirectUrl: string, state: string): string
  {
    authUrl + "?" + AuthorizationQuery(clientId, scope, redirectUrl, state)
  }

  function AccessTokenFields(clientId: string, clientSecret: string, code: string,
                             redirectUrl: string, grantType: string): seq<(string, string)>
  {
    [("client_id", clientId), ("client_secret", clientSecret), ("code", code),
     ("redirect_uri", redirectUrl), ("grant_type", grantType)]
  }

  function RefreshFields(clientId: string, clientSecret: string, refreshToken: string): seq<(string, string)>
  {
    [("client_id", clientId), ("client_secret", clientSecret), ("refresh_token", refreshToken),
     ("grant_type", "refresh_token")]
  }

  function AuthorizationFields(clientId: string, scope: string, redirectUrl: string,
                               state: string): seq<(string, string)>
  {
    [("client_id", clientId), ("scope", scope), ("redirect_uri", redirectUrl),
     ("response_type", "code"), ("state", state), ("prompt", "consent"), ("access_type", "offline")]
  }

  /** The query of a URL: what follows its first `?`. */
  function Query(url: string): string {
    Forms.Cut(url, '?').1
  }

  // The template pieces, one lemma each so that each literal is examined once.
  lemma ClientIdPiece() ensures Forms.FirstKeyLiteral("client_id=", "client_id") {}
  lemma ClientSecretPiece() ensures Forms.KeyLiteral("&client_secret=", "client_secret") {}
  lemma CodePiece() ensures Forms.KeyLiteral("&code=", "code") {}
  lemma RedirectUriPiece() ensures Forms.KeyLiteral("&redirect_uri=", "redirect_uri") {}
  lemma GrantTypePiece() ensures Forms.KeyLiteral("&grant_type=", "grant_type") {}
  lemma RefreshTokenPiece() ensures Forms.KeyLiteral("&refresh_token=", "refresh_token") {}
  lemma ScopePiece() ensures Forms.KeyLiteral("&scope=", "scope") {}
  lemma ResponseTypePiece() ensures Forms.KeyLiteral("&response_type=", "response_type") {}
  lemma StatePiece() ensures Forms.KeyLiteral("&state=", "state") {}
  lemma PromptPiece() ensures Forms.KeyLiteral("&prompt=", "prompt") {}
  lemma AccessTypePiece() ensures Forms.KeyLiteral("&access_type=", "access_type") {}
  lemma FixedValues() ensures '&' !in "refresh_token" && '&' !in "code" && '&' !in "consent" && '&' !in "offline" {}

  /**
   * When no value contains `&`, the access-token body reads back as exactly its five
   * fields, in order.
   */
  lemma AccessTokenBodyRoundTrip(clientId: string, clientSecret: string, code: string,
                                 redirectUrl: string, grantType: string)
    requires '&' !in clientId && '&' !in clientSecret && '&' !in code
    requires '&' !in redirectUrl && '&' !in grantType
    ensures Forms.ParseForm(AccessTokenBody(clientId, clientSecret, code, redirectUrl, grantType))
         == AccessTokenFields(clientId, clientSecret, code, redirectUrl, grantType)
  {
    ClientIdPiece(); ClientSecretPiece(); CodePiece(); RedirectUriPiece(); GrantTypePiece();
    var p1 := "client_id=" + clientId;
    var p2 := p1 + "&client_secret=" + clientSecret;
    var p3 := p2 + "&code=" + code;
    var p4 := p3 + "&redirect_uri=" + redirectUrl;
    Forms.ParseSingleLiteral("client_id=", "client_id", clientId);
    Forms.ParseAppendLiteral(p1, "&client_secret=", "client_secret", clientSecret);
    Forms.ParseAppendLiteral(p2, "&code=", "code", code);
    Forms.ParseAppendLiteral(p3, "&redirect_uri=", "redirect_uri", redirectUrl);
    Forms.ParseAppendLiteral(p4, "&grant_type=", "grant_type", grantType);
  }

  /**
   * Without encoding, the body reads back as five fields exactly when no value holds `&`:
   * otherwise each `&` in a value ends a field early.
   */
  lemma AccessTokenBodyFieldCount(clientId: string, clientSecret: string, code: string,
                                  redirectUrl: string, grantType: string)
    ensures |Forms.ParseForm(AccessTokenBody(clientId, clientSecret, code, redirectUrl, grantType))|
         == 5 + Forms.Ampersands(clientId) + Forms.Ampersands(clientSecret) + Forms.Ampersands(code)
              + Forms.Ampersands(redirectUrl) + Forms.Ampersands(grantType)
    ensures |Forms.ParseForm(AccessTokenBody(clientId, clientSecret, code, redirectUrl, grantType))| == 5
        <==> '&' !in clientId && '&' !in clientSecret && '&' !in code && '&' !in redirectUrl && '&' !in grantType
  {
    ClientIdPiece(); ClientSecretPiece(); CodePiece(); RedirectUriPiece(); GrantTypePiece();
    var p1 := "client_id=" + clientId;
    var p2 := p1 + "&client_secret=" + clientSecret;
    var p3 := p2 + "&code=" + code;
    var p4 := p3 + "&redirect_uri=" + redirectUrl;
    assert Forms.Ampersands(p1) == Forms.Ampersands(clientId) by {
      Forms.AmpersandsSingleLiteral("client_id=", "client_id", clientId);
    }
    assert Forms.Ampersands(p2) == Forms.Ampersands(p1) + 1 + Forms.Ampersands(clientSecret) by {
      Forms.AmpersandsAppendLiteral(p1, "&client_secret=", "client_secret", clientSecret);
    }
    assert Forms.Ampersands(p3) == Forms.Ampersands(p2) + 1 + Forms.Ampersands(code) by {
      Forms.AmpersandsAppendLiteral(p2, "&code=", "code", code);
    }
    assert Forms.Ampersands(p4) == Forms.Ampersands(p3) + 1 + Forms.Ampersands(redirectUrl) by {
      Forms.AmpersandsAppendLiteral(p3, "&redirect_uri=", "redirect_uri", redirectUrl);
    }
    var body := p4 + "&grant_type=" + grantType;
    assert Forms.Ampersands(body) == Forms.Ampersands(p4) + 1 + Forms.Ampersands(grantType) by {
      Forms.AmpersandsAppendLiteral(p4, "&grant_type=", "grant_type", grantType);
    }
    Forms.FieldCount(body);
    Forms.AmpersandsZero(clientId);
    Forms.AmpersandsZero(clientSecret);
    Forms.AmpersandsZero(code);
    Forms.AmpersandsZero(redirectUrl);
    Forms.AmpersandsZero(grantType);
  }

  /** When no value contains `&`, the refresh body reads back as exactly its four fields. */
  lemma RefreshBodyRoundTrip(clientId: string, clientSecret: string, refreshToken: string)
    requires '&' !in clientId && '&' !in clientSecret && '&' !in refreshToken
    ensures Forms.ParseForm(RefreshBody(clientId, clientSecret, refreshToken))
         == RefreshFields(clientId, clientSecret, refreshToken)
  {
    ClientIdPiece(); ClientSecretPiece(); RefreshTokenPiece(); GrantTypePiece(); FixedValues();
    var p1 := "client_id=" + clientId;
    var p2 := p1 + "&client_secret=" + clientSecret;
    var p3 := p2 + "&refresh_token=" + refreshToken;
    Forms.ParseSingleLiteral("client_id=", "client_id", clientId);
    Forms.ParseAppendLiteral(p1, "&client_secret=", "client_secret", clientSecret);
    Forms.ParseAppendLiteral(p2, "&refresh_token=", "refresh_token", refreshToken);
    Forms.ParseAppendLiteral(p3, "&grant_type=", "grant_type", "refresh_token");
  }

  /** When no value contains `&`, the authorization query reads back as its seven fields. */
  lemma AuthorizationQueryRoundTrip(clientId: string, scope: string, redirectUrl: string, state: string)
    requires '&' !in clientId && '&' !in scope && '&' !in redirectUrl && '&' !in state
    ensures Forms.ParseForm(AuthorizationQuery(clientId, scope, redirectUrl, state))
         == AuthorizationFields(clientId, scope, redirectUrl, state)
  {
    ClientIdPiece(); ScopePiece(); RedirectUriPiece(); ResponseTypePiece(); StatePiece();
    PromptPiece(); AccessTypePiece(); FixedValues();
    var q1 := "client_id=" + clientId;
    var q2 := q1 + "&scope=" + scope;
    var q3 := q2 + "&redirect_uri=" + redirectUrl;
    var q4 := q3 + "&response_type=" + "code";
    var q5 := q4 + "&state=" + state;
    var q6 := q5 + "&prompt=" + "consent";
    Forms.ParseSingleLiteral("client_id=", "client_id", clientId);
    Forms.ParseAppendLiteral(q1, "&scope=", "scope", scope);
    Forms.ParseAppendLiteral(q2, "&redirect_uri=", "redirect_uri", redirectUrl);
    Forms.ParseAppendLiteral(q3, "&response_type=", "response_type", "code");
    Forms.ParseAppendLiteral(q4, "&state=", "state", state);
    Forms.ParseAppendLiteral(q5, "&prompt=", "prompt", "consent");
    Forms.ParseAppendLiteral(q6, "&access_type=", "access_type", "offline");
  }

  /**
   * When the authorization endpoint has no `?` and no value contains `&`, the query of
   * the authorization URL reads back as its seven fields and its `state` is `state`.
   */
  lemma AuthorizationUrlCarriesState(authUrl: string, clientId: string, scope: string,
                                     redirectUrl: string, state: string)
    requires '?' !in authUrl
    requires '&' !in clientId && '&' !in scope && '&' !in redirectUrl && '&' !in state
    ensures Forms.ParseForm(Query(AuthorizationUrl(authUrl, clientId, scope, redirectUrl, state)))
         == AuthorizationFields(clientId, scope, redirectUrl, state)
    ensures Forms.Lookup(Forms.ParseForm(Query(AuthorizationUrl(authUrl, clientId, scope, redirectUrl, state))),
                         "state") == Some(state)
  {
    var q := AuthorizationQuery(clientId, scope, redirectUrl, state);
    Forms.CutField(authUrl, q, '?');
    AuthorizationQueryRoundTrip(clientId, scope, redirectUrl, state);
    var fs := AuthorizationFields(clientId, scope, redirectUrl, state);
    assert fs[4] == ("state", state);
  }
}
