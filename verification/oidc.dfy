/** webstd/oidc.go: the OIDC `Authenticator` built from configuration, the PKCE code verifier
    (sections 4.1 and 4.2 of RFC 7636), and the ID-token verification entry points. The OIDC
    discovery request, the token source, JWT verification, SHA-256, base64 and the random
    source are parameters. */
module Oidc {
  import opened Wrappers
  import opened Strs
  import Hex

  /** `webstd.OIDCProvider`. */
  datatype ProviderConfig = ProviderConfig(
    issuerURL: string,
    clientID: string,
    clientSecret: string,
    rawTokenClientIDs: seq<string>,
    withPKCE: bool,
    skipIssuerVerification: bool,
    discoveryURL: string,
    additionalScopes: seq<string>,
    callbackURL: string)

  datatype AuthStyle = AuthStyleAutoDetect | AuthStyleInParams | AuthStyleInHeader

  /** `oauth2.Endpoint`. */
  datatype Endpoint = Endpoint(authURL: string, tokenURL: string, authStyle: AuthStyle)

  /** What discovery yields: the provider's endpoint and the outcome of decoding its
      `end_session_endpoint` claim (a missing claim decodes to `""`). */
  datatype Provider = Provider(endpoint: Endpoint, endSessionEndpoint: Result<string>)

  /** `oauth2.Config`. */
  datatype OAuthConfig = OAuthConfig(
    clientID: string, clientSecret: string, redirectURL: string, endpoint: Endpoint, scopes: seq<string>)

  datatype Authenticator = Authenticator(
    provider: Provider, config: OAuthConfig, withPKCE: bool, rawTokenClientIDs: seq<string>)

  const ScopeOpenID: string := "openid"

  /** The discovery request: the URL fetched, and the issuer to accept instead of that URL
      (`oidc.InsecureIssuerURLContext`) when issuer verification is skipped. */
  datatype Discovery = Discovery(url: string, insecureIssuer: Option<string>)

  function DiscoveryFor(cfg: ProviderConfig): Discovery {
    if cfg.skipIssuerVerification then Discovery(cfg.discoveryURL, Some(cfg.issuerURL))
    else Discovery(cfg.issuerURL, None)
  }

  /** `NewAuthenticator`. */
  function NewAuthenticator(cfg: ProviderConfig, discover: Discovery -> Result<Provider>): (r: Result<Authenticator>)
    ensures r.Ok? <==> discover(DiscoveryFor(cfg)).Ok?
    ensures r.Err? ==> r == Err(discover(DiscoveryFor(cfg)).msg)
    ensures r.Ok? ==>
      var p := discover(DiscoveryFor(cfg)).value;
      && r.value.provider == p
      && r.value.config.scopes == [ScopeOpenID] + cfg.additionalScopes
      && r.value.config.endpoint == p.endpoint.(authStyle := AuthStyleInParams)
      && r.value.config.clientID == cfg.clientID
      && r.value.config.clientSecret == cfg.clientSecret
      && r.value.config.redirectURL == cfg.callbackURL
      && r.value.withPKCE == cfg.withPKCE
      && r.value.rawTokenClientIDs == cfg.rawTokenClientIDs
  {
    match discover(DiscoveryFor(cfg))
    case Err(e) => Err(e)
    case Ok(provider) =>
      var endpoint := provider.endpoint.(authStyle := AuthStyleInParams);
      var conf := OAuthConfig(cfg.clientID, cfg.clientSecret, cfg.callbackURL, endpoint,
                              [ScopeOpenID] + cfg.additionalScopes);
      Ok(Authenticator(provider, conf, cfg.withPKCE, cfg.rawTokenClientIDs))
  }

  /** Discovery fetches the discovery URL exactly when issuer verification is skipped (and then
      accepts the configured issuer), and the issuer URL otherwise. */
  lemma DiscoveryChoice(cfg: ProviderConfig, discover: Discovery -> Result<Provider>)
    ensures cfg.skipIssuerVerification ==>
      DiscoveryFor(cfg) == Discovery(cfg.discoveryURL, Some(cfg.issuerURL))
    ensures !cfg.skipIssuerVerification ==> DiscoveryFor(cfg) == Discovery(cfg.issuerURL, None)
    ensures cfg.discoveryURL != cfg.issuerURL ==>
      (DiscoveryFor(cfg).url == cfg.discoveryURL <==> cfg.skipIssuerVerification)
  {
  }

  /** The scopes always start with "openid", followed by the additional scopes in order. */
  lemma ScopesStartWithOpenID(cfg: ProviderConfig, discover: Discovery -> Result<Provider>)
    requires NewAuthenticator(cfg, discover).Ok?
    ensures var s := NewAuthenticator(cfg, discover).value.config.scopes;
      && |s| == |cfg.additionalScopes| + 1
      && s[0] == ScopeOpenID
      && forall i :: 0 <= i < |cfg.additionalScopes| ==> s[i + 1] == cfg.additionalScopes[i]
  {
  }

  // --- PKCE ------------------------------------------------------------------------------

  /** The unreserved characters of section 4.1 of RFC 7636. */
  predicate Unreserved(c: char) {
    'A' <= c <= 'Z' || 'a' <= c <= 'z' || '0' <= c <= '9' || c == '-' || c == '.' || c == '_' || c == '~'
  }

  /** A code verifier as section 4.1 of RFC 7636 defines it: 43 to 128 unreserved characters. */
  predicate IsCodeVerifier(v: string) {
    43 <= |v| <= 128 && forall i :: 0 <= i < |v| ==> Unreserved(v[i])
  }

  /** The S256 code challenge of section 4.2 of RFC 7636:
      BASE64URL-ENCODE(SHA256(ASCII(code_verifier))), unpadded. */
  function S256(verifier: string, sha256: string -> seq<Hex.byte>, base64url: seq<Hex.byte> -> string): string {
    base64url(sha256(verifier))
  }

  datatype PKCECodeVerifier = PKCECodeVerifier(verifier: string, challenge: string)

  /** `randomBytesInHex`: `read` is the outcome of `io.ReadFull` on a `count`-byte buffer. */
  function RandomBytesInHex(count: nat, read: Result<seq<Hex.byte>>): (r: Result<string>)
    requires read.Ok? ==> |read.value| == count
    ensures r.Ok? <==> read.Ok?
    ensures r.Ok? ==> |r.value| == 2 * count && Hex.Decode(r.value) == Ok(read.value)
    ensures r.Ok? ==> forall i :: 0 <= i < |r.value| ==> Hex.IsHexDigit(r.value[i])
    ensures r.Err? ==> r.msg == "Could not generate " + Decimal(count) + " random bytes: " + read.msg
  {
    match read
    case Err(e) => Err("Could not generate " + Decimal(count) + " random bytes: " + e)
    case Ok(buf) =>
      Hex.DecodeEncode(buf);
      Ok(Hex.Encode(buf))
  }

  /** `NewCodeVerifier`: 32 random bytes in hex, and their S256 challenge. Writing to a
      SHA-256 hash never fails, so that error branch of the source is absent. */
  function NewCodeVerifier(read: Result<seq<Hex.byte>>, sha256: string -> seq<Hex.byte>,
                           base64url: seq<Hex.byte> -> string): (r: Result<PKCECodeVerifier>)
    requires read.Ok? ==> |read.value| == 32
    ensures r.Ok? <==> read.Ok?
    ensures r.Ok? ==> IsCodeVerifier(r.value.verifier) && |r.value.verifier| == 64
    ensures r.Ok? ==> Hex.Decode(r.value.verifier) == Ok(read.value)
    ensures r.Ok? ==> r.value.challenge == S256(r.value.verifier, sha256, base64url)
    ensures r.Err? ==> r.msg == "Could not create a code verifier: " + RandomBytesInHex(32, read).msg
  {
    match RandomBytesInHex(32, read)
    case Err(e) => Err("Could not create a code verifier: " + e)
    case Ok(v) =>
      assert forall i :: 0 <= i < |v| ==> Unreserved(v[i]) by {
        forall i | 0 <= i < |v| ensures Unreserved(v[i]) {
          assert Hex.IsHexDigit(v[i]);
        }
      }
      Ok(PKCECodeVerifier(v, base64url(sha256(v))))
  }

  // --- ID tokens --------------------------------------------------------------------------

  /** The JSON values an OAuth2 token's extra fields may hold, as far as the model cares. */
  datatype Json = JStr(s: string) | JOther

  /** `oauth2.Token`; `expiry` is a Unix time in seconds. */
  datatype Token = Token(accessToken: string, refreshToken: string, expiry: int, extra: map<string, Json>)

  /** `token.Extra("id_token").(string)`. */
  function RawIDToken(t: Token): Option<string> {
    if "id_token" in t.extra && t.extra["id_token"].JStr? then Some(t.extra["id_token"].s) else None
  }

  /** The verified claims of an ID token. */
  datatype IDToken = IDToken(subject: string, claims: map<string, Json>)

  /** `oidc.Config` as far as verification goes: the audience to check, or none. */
  datatype VerifierConfig = VerifierConfig(clientID: string, skipClientIDCheck: bool)

  /** The outcome of `provider.Verifier(cfg).Verify(ctx, raw)`. */
  type Verify = (VerifierConfig, string) -> Result<IDToken>

  /** `VerifyIDTokenStr`: verification against the authenticator's own client ID. */
  function VerifyIDTokenStr(a: Authenticator, tokenStr: string, verify: Verify): Result<IDToken> {
    verify(VerifierConfig(a.config.clientID, false), tokenStr)
  }

  /** `VerifyIDToken`: a token without a string `id_token` is refused before any verification. */
  function VerifyIDToken(a: Authenticator, token: Token, verify: Verify): (r: Result<IDToken>)
    ensures RawIDToken(token).None? ==> r == Err("no id_token field in oauth2 token")
    ensures RawIDToken(token).Some? ==>
      r == verify(VerifierConfig(a.config.clientID, false), RawIDToken(token).value)
    ensures r.Ok? ==> RawIDToken(token).Some?
  {
    match RawIDToken(token)
    case None => Err("no id_token field in oauth2 token")
    case Some(raw) => VerifyIDTokenStr(a, raw, verify)
  }

  datatype Refreshed = Refreshed(rawIDToken: string, idToken: IDToken, token: Token)

  /** A token's embedded ID token is verified exactly as the same string handed to
      `VerifyIDTokenStr`: with the client ID checked. */
  lemma VerifyIDTokenIsStrOfRaw(a: Authenticator, token: Token, verify: Verify)
    requires RawIDToken(token).Some?
    ensures VerifyIDToken(a, token, verify) == VerifyIDTokenStr(a, RawIDToken(token).value, verify)
    ensures VerifyIDTokenStr(a, RawIDToken(token).value, verify)
         == verify(VerifierConfig(a.config.clientID, false), RawIDToken(token).value)
  {
  }

  /** `RefreshIDToken`: `tokenSource` is the token the refresh grant returns. */
  function RefreshIDToken(a: Authenticator, refreshToken: string, tokenSource: string -> Result<Token>,
                          verify: Verify): (r: Result<Refreshed>)
    ensures r.Ok? <==>
      && tokenSource(refreshToken).Ok?
      && RawIDToken(tokenSource(refreshToken).value).Some?
      && VerifyIDToken(a, tokenSource(refreshToken).value, verify).Ok?
    ensures r.Ok? ==>
      && r.value.token == tokenSource(refreshToken).value
      && RawIDToken(r.value.token) == Some(r.value.rawIDToken)
      && verify(VerifierConfig(a.config.clientID, false), r.value.rawIDToken) == Ok(r.value.idToken)
  {
    match tokenSource(refreshToken)
    case Err(e) => Err(e)
    case Ok(token) =>
      match RawIDToken(token)
      case None => Err("no id_token field in oauth2 token")
      case Some(raw) =>
        match VerifyIDToken(a, token, verify)
        case Err(e) => Err(e)
        case Ok(idToken) => Ok(Refreshed(raw, idToken, token))
  }

  /** The loop of `VerifyRawToken`: the first client ID, in order, whose verification succeeds. */
  function FirstVerified(ids: seq<string>, rawToken: string, verify: Verify): (r: Result<IDToken>)
    ensures r.Ok? <==> exists i :: 0 <= i < |ids| && verify(VerifierConfig(ids[i], false), rawToken).Ok?
    ensures r.Ok? ==> exists i :: (0 <= i < |ids| && r == verify(VerifierConfig(ids[i], false), rawToken)
      && forall j :: 0 <= j < i ==> verify(VerifierConfig(ids[j], false), rawToken).Err?)
    ensures r.Err? ==> r == Err("invalid id token")
    decreases |ids|
  {
    if |ids| == 0 then Err("invalid id token")
    else
      match verify(VerifierConfig(ids[0], false), rawToken)
      case Ok(t) => Ok(t)
      case Err(_) =>
        var r := FirstVerified(ids[1..], rawToken, verify);
        FirstVerifiedShift(ids, rawToken, verify, r);
        r
  }

  /** The step of `FirstVerified` past a first client ID that fails: indices into the tail move up by one. */
  lemma FirstVerifiedShift(ids: seq<string>, rawToken: string, verify: Verify, r: Result<IDToken>)
    requires |ids| > 0 && verify(VerifierConfig(ids[0], false), rawToken).Err?
    requires r.Ok? <==> exists i :: 0 <= i < |ids[1..]| && verify(VerifierConfig(ids[1..][i], false), rawToken).Ok?
    requires r.Ok? ==> exists i :: (0 <= i < |ids[1..]| && r == verify(VerifierConfig(ids[1..][i], false), rawToken)
      && forall j :: 0 <= j < i ==> verify(VerifierConfig(ids[1..][j], false), rawToken).Err?)
    ensures r.Ok? <==> exists i :: 0 <= i < |ids| && verify(VerifierConfig(ids[i], false), rawToken).Ok?
    ensures r.Ok? ==> exists i :: (0 <= i < |ids| && r == verify(VerifierConfig(ids[i], false), rawToken)
      && forall j :: 0 <= j < i ==> verify(VerifierConfig(ids[j], false), rawToken).Err?)
  {
    if r.Ok? {
      var i :| 0 <= i < |ids[1..]| && r == verify(VerifierConfig(ids[1..][i], false), rawToken)
        && forall j :: 0 <= j < i ==> verify(VerifierConfig(ids[1..][j], false), rawToken).Err?;
      assert r == verify(VerifierConfig(ids[i + 1], false), rawToken);
      forall j | 0 <= j < i + 1 ensures verify(VerifierConfig(ids[j], false), rawToken).Err? {
        if j > 0 { assert ids[j] == ids[1..][j - 1]; }
      }
    } else {
      forall i | 0 <= i < |ids| ensures verify(VerifierConfig(ids[i], false), rawToken).Err? {
        if i > 0 { assert ids[i] == ids[1..][i - 1]; }
      }
    }
  }

  /** `VerifyRawToken`: with no configured client IDs, one verification with the audience check
      skipped; otherwise the first client ID that verifies. */
  function VerifyRawToken(a: Authenticator, rawToken: string, verify: Verify): (r: Result<IDToken>)
    ensures |a.rawTokenClientIDs| == 0 ==> r == verify(VerifierConfig("", true), rawToken)
    ensures |a.rawTokenClientIDs| > 0 ==> (r.Ok? <==>
      exists i :: 0 <= i < |a.rawTokenClientIDs| && verify(VerifierConfig(a.rawTokenClientIDs[i], false), rawToken).Ok?)
    ensures |a.rawTokenClientIDs| > 0 && r.Err? ==> r == Err("invalid id token")
  {
    if |a.rawTokenClientIDs| == 0 then verify(VerifierConfig("", true), rawToken)
    else FirstVerified(a.rawTokenClientIDs, rawToken, verify)
  }

  /** A raw token accepted under the first client ID is returned as that verification gave it,
      whatever the later IDs would say. */
  lemma FirstClientIDWins(a: Authenticator, rawToken: string, verify: Verify)
    requires |a.rawTokenClientIDs| > 0
    requires verify(VerifierConfig(a.rawTokenClientIDs[0], false), rawToken).Ok?
    ensures VerifyRawToken(a, rawToken, verify) == verify(VerifierConfig(a.rawTokenClientIDs[0], false), rawToken)
  {
  }

  /** `LogoutURL`: the `end_session_endpoint` claim, or `""` when the claims do not decode. */
  function LogoutURL(a: Authenticator): (u: string)
    ensures a.provider.endSessionEndpoint.Err? ==> u == ""
    ensures a.provider.endSessionEndpoint.Ok? ==> u == a.provider.endSessionEndpoint.value
  {
    match a.provider.endSessionEndpoint
    case Err(_) => ""
    case Ok(e) => e
  }

  /** `GetOIDCURLParams`: the sensitive query parameters of the OIDC flow. */
  function GetOIDCURLParams(): (r: seq<string>)
    ensures |r| == 6
    ensures forall i, j :: 0 <= i < j < |r| ==> r[i] != r[j]
    ensures (set p | p in r) == {"code", "state", "client_id", "code_challenge", "code_challenge_method", "scope"}
  {
    ["code", "state", "client_id", "code_challenge", "code_challenge_method", "scope"]
  }
}
