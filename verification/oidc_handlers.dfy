/** webstd/chistd/oidc_handlers.go: the register, login, logout and callback handlers of the
    OIDC client flow, as functions from a session map (the scs session of the request) to a
    response and the session afterwards. The CSRF token check, the code exchange, ID-token
    verification and claim decoding are parameters. */
module OidcHandlers {
  import opened Wrappers
  import Urls
  import Oidc
  import Hex

  const OIDCRegisterPath: string := "/oidc/register"
  const OIDCLoginPath: string := "/oidc/login"
  const OIDCLogoutPath: string := "/oidc/logout"
  const OIDCCallbackPath: string := "/oidc/callback"

  const IDTokenSessionKey: string := "id_token"
  const AccessTokenSessionKey: string := "access_token"
  const AccessTokenExpirySessionKey: string := "access_token_expiry"
  const RefreshTokenSessionKey: string := "refresh_token"
  const UserProfileSessionKey: string := "profile"
  const ContinueToURLSessionKey: string := "continue_to"
  const PKCECodeVerifierSessionKey: string := "pkce_code_verifier"

  /** The user profile decoded from the ID-token claims. */
  type Profile = map<string, Oidc.Json>

  /** Values stored in the session; `SNil` is a stored `nil`. */
  datatype SVal = SNil | SStr(s: string) | STime(unix: int) | SProfile(p: Profile) | SOther

  type Session = map<string, SVal>

  /** `sessMgr.Get`: `nil` for a missing key. */
  function Lookup(sess: Session, key: string): SVal {
    if key in sess then sess[key] else SNil
  }

  /** `sessMgr.GetString`: the stored string, or `""` for a missing key or a non-string value. */
  function GetString(sess: Session, key: string): (s: string)
    ensures Lookup(sess, key).SStr? ==> s == Lookup(sess, key).s
    ensures !Lookup(sess, key).SStr? ==> s == ""
  {
    match Lookup(sess, key)
    case SStr(v) => v
    case _ => ""
  }

  /** An `oauth2.SetAuthURLParam` option. */
  type Param = (string, string)

  datatype Response =
    | AuthRedirect(state: string, params: seq<Param>)   // 307 to the IdP's AuthCodeURL
    | Redirect(location: string)                        // 307 within the app
    | Status(code: int)
    | Panic                                              // a failed type assertion

  datatype HandlerContext = HandlerContext(auth: Oidc.Authenticator, homePath: string)

  datatype LoginSetup = LoginSetup(state: string, opts: seq<Param>, sess: Session)

  /** `oidcSetupLogin`: `stateToken` is the request's CSRF token and `newVerifier` the outcome
      of `NewCodeVerifier`, consulted only with PKCE. */
  function SetupLogin(h: HandlerContext, stateToken: string, newVerifier: Result<Oidc.PKCECodeVerifier>,
                      sess: Session): (r: Result<LoginSetup>)
    ensures !h.auth.withPKCE ==> r == Ok(LoginSetup(stateToken, [], sess))
    ensures h.auth.withPKCE ==> (r.Ok? <==> newVerifier.Ok?)
    ensures h.auth.withPKCE && r.Ok? ==>
      && r.value.state == stateToken
      && r.value.opts == [("code_challenge_method", "S256"), ("code_challenge", newVerifier.value.challenge)]
      && r.value.sess == sess[PKCECodeVerifierSessionKey := SStr(newVerifier.value.verifier)]
  {
    if !h.auth.withPKCE then Ok(LoginSetup(stateToken, [], sess))
    else
      match newVerifier
      case Err(e) => Err(e)
      case Ok(cv) =>
        Ok(LoginSetup(stateToken,
                      [("code_challenge_method", "S256"), ("code_challenge", cv.challenge)],
                      sess[PKCECodeVerifierSessionKey := SStr(cv.verifier)]))
  }

  /** `oidcLoginHandler`: a failed setup answers 500 and leaves the session alone. */
  function Login(h: HandlerContext, stateToken: string, newVerifier: Result<Oidc.PKCECodeVerifier>,
                 sess: Session): (out: (Response, Session))
    ensures SetupLogin(h, stateToken, newVerifier, sess).Err? ==> out == (Status(500), sess)
    ensures SetupLogin(h, stateToken, newVerifier, sess).Ok? ==>
      var setup := SetupLogin(h, stateToken, newVerifier, sess).value;
      out == (AuthRedirect(setup.state, setup.opts), setup.sess)
  {
    match SetupLogin(h, stateToken, newVerifier, sess)
    case Err(_) => (Status(500), sess)
    case Ok(setup) => (AuthRedirect(setup.state, setup.opts), setup.sess)
  }

  /** `oidcRegisterHandler`: the login request with `prompt=create` appended. */
  function Register(h: HandlerContext, stateToken: string, newVerifier: Result<Oidc.PKCECodeVerifier>,
                    sess: Session): (out: (Response, Session))
    ensures SetupLogin(h, stateToken, newVerifier, sess).Err? ==> out == (Status(500), sess)
    ensures SetupLogin(h, stateToken, newVerifier, sess).Ok? ==>
      && out.0.AuthRedirect?
      && out.0.params == Login(h, stateToken, newVerifier, sess).0.params + [("prompt", "create")]
      && out.0.state == stateToken
      && out.1 == Login(h, stateToken, newVerifier, sess).1
  {
    match SetupLogin(h, stateToken, newVerifier, sess)
    case Err(_) => (Status(500), sess)
    case Ok(setup) => (AuthRedirect(setup.state, setup.opts + [("prompt", "create")]), setup.sess)
  }

  /** `oidcLogoutHandler`: `destroyed` is the outcome of destroying the session. */
  function Logout(sess: Session, destroyed: Outcome): (out: (Response, Session))
    ensures destroyed.Pass? ==> out.0 == Redirect(OIDCLoginPath) && out.1 == map[]
    ensures destroyed.Fail? ==> out.0 == Status(500) && out.1 == sess
  {
    match destroyed
    case Pass => (Redirect(OIDCLoginPath), map[])
    case Fail(_) => (Status(500), sess)
  }

  /** The options the callback passes to the code exchange, read from the session. */
  datatype ExchangeOptions = Options(opts: seq<Param>) | NoVerifier | VerifierNotString

  function CallbackOptions(h: HandlerContext, sess: Session): (r: ExchangeOptions)
    ensures !h.auth.withPKCE ==> r == Options([])
    ensures h.auth.withPKCE ==> (r.NoVerifier? <==> Lookup(sess, PKCECodeVerifierSessionKey).SNil?)
    ensures h.auth.withPKCE && Lookup(sess, PKCECodeVerifierSessionKey).SStr? ==>
      r == Options([("code_verifier", Lookup(sess, PKCECodeVerifierSessionKey).s)])
  {
    if !h.auth.withPKCE then Options([])
    else
      match Lookup(sess, PKCECodeVerifierSessionKey)
      case SNil => NoVerifier
      case SStr(v) => Options([("code_verifier", v)])
      case _ => VerifierNotString
  }

  /** The session after a successful callback. */
  function SignedIn(sess: Session, rawIDToken: string, token: Oidc.Token, profile: Profile): Session {
    sess[IDTokenSessionKey := SStr(rawIDToken)]
        [AccessTokenSessionKey := SStr(token.accessToken)]
        [AccessTokenExpirySessionKey := STime(token.expiry)]
        [RefreshTokenSessionKey := SStr(token.refreshToken)]
        [UserProfileSessionKey := SProfile(profile)]
        [PKCECodeVerifierSessionKey := SNil]
  }

  /** Where a successful callback redirects: the stored `continue_to` string, else the home path. */
  function ContinueTo(h: HandlerContext, sess: Session): string {
    match Lookup(sess, ContinueToURLSessionKey)
    case SStr(s) => s
    case _ => h.homePath
  }

  /** Every step of the callback succeeds: the state matches the CSRF token, the PKCE verifier
      (if required) is a stored string, and the exchange, the ID-token verification and the
      claim decoding all succeed. */
  predicate SignInSucceeds(h: HandlerContext, sess: Session, query: Urls.Values, csrfToken: string,
                           verifyToken: (string, string) -> bool,
                           exchange: (string, seq<Param>) -> Result<Oidc.Token>,
                           verify: Oidc.Verify, claims: Oidc.IDToken -> Result<Profile>)
  {
    && verifyToken(csrfToken, Urls.Get(query, "state"))
    && CallbackOptions(h, sess).Options?
    && var token := exchange(Urls.Get(query, "code"), CallbackOptions(h, sess).opts);
    && token.Ok?
    && Oidc.VerifyIDToken(h.auth, token.value, verify).Ok?
    && claims(Oidc.VerifyIDToken(h.auth, token.value, verify).value).Ok?
  }

  /** `oidcCallbackHandler`. `query` is the callback URL's query, `csrfToken` the request's
      CSRF token, `verifyToken` nosurf's token comparison, `exchange` the code exchange and
      `claims` the decoding of the ID token's claims into the profile. */
  function Callback(h: HandlerContext, sess: Session, query: Urls.Values, csrfToken: string,
                    verifyToken: (string, string) -> bool,
                    exchange: (string, seq<Param>) -> Result<Oidc.Token>,
                    verify: Oidc.Verify, claims: Oidc.IDToken -> Result<Profile>): (out: (Response, Session))
    ensures !verifyToken(csrfToken, Urls.Get(query, "state")) ==> out == (Redirect(OIDCLoginPath), sess)
    ensures verifyToken(csrfToken, Urls.Get(query, "state")) && CallbackOptions(h, sess).NoVerifier? ==>
      out == (Status(500), sess)
    ensures verifyToken(csrfToken, Urls.Get(query, "state")) && CallbackOptions(h, sess).VerifierNotString? ==>
      out == (Panic, sess)
    ensures verifyToken(csrfToken, Urls.Get(query, "state")) && CallbackOptions(h, sess).Options?
            && !SignInSucceeds(h, sess, query, csrfToken, verifyToken, exchange, verify, claims) ==>
      out == (Redirect(OIDCLoginPath), sess)
    ensures !SignInSucceeds(h, sess, query, csrfToken, verifyToken, exchange, verify, claims) ==>
      out.1 == sess && out.0 in {Redirect(OIDCLoginPath), Status(500), Panic}
    ensures SignInSucceeds(h, sess, query, csrfToken, verifyToken, exchange, verify, claims) ==>
      var token := exchange(Urls.Get(query, "code"), CallbackOptions(h, sess).opts).value;
      var profile := claims(Oidc.VerifyIDToken(h.auth, token, verify).value).value;
      && Oidc.RawIDToken(token).Some?
      && out == (Redirect(ContinueTo(h, sess)), SignedIn(sess, Oidc.RawIDToken(token).value, token, profile))
  {
    if !verifyToken(csrfToken, Urls.Get(query, "state")) then (Redirect(OIDCLoginPath), sess)
    else
      match CallbackOptions(h, sess)
      case NoVerifier => (Status(500), sess)
      case VerifierNotString => (Panic, sess)
      case Options(opts) =>
        match exchange(Urls.Get(query, "code"), opts)
        case Err(_) => (Redirect(OIDCLoginPath), sess)
        case Ok(token) =>
          match Oidc.VerifyIDToken(h.auth, token, verify)
          case Err(_) => (Redirect(OIDCLoginPath), sess)
          case Ok(idToken) =>
            var rawIDToken := Oidc.RawIDToken(token).value;
            match claims(idToken)
            case Err(_) => (Redirect(OIDCLoginPath), sess)
            case Ok(profile) =>
              var sess' := SignedIn(sess, rawIDToken, token, profile);
              var continueTo := match Lookup(sess', ContinueToURLSessionKey)
                                case SStr(s) => s
                                case _ => h.homePath;
              (Redirect(continueTo), sess')
  }

  // ---------------------------------------------------------------------------------------

  /** After a successful sign-in the session holds the tokens, their expiry and the profile,
      and no PKCE verifier. */
  lemma SignedInHoldsTokens(h: HandlerContext, sess: Session, query: Urls.Values, csrfToken: string,
                            verifyToken: (string, string) -> bool,
                            exchange: (string, seq<Param>) -> Result<Oidc.Token>,
                            verify: Oidc.Verify, claims: Oidc.IDToken -> Result<Profile>)
    requires SignInSucceeds(h, sess, query, csrfToken, verifyToken, exchange, verify, claims)
    ensures var s := Callback(h, sess, query, csrfToken, verifyToken, exchange, verify, claims).1;
      var token := exchange(Urls.Get(query, "code"), CallbackOptions(h, sess).opts).value;
      && GetString(s, IDTokenSessionKey) == Oidc.RawIDToken(token).value
      && GetString(s, AccessTokenSessionKey) == token.accessToken
      && GetString(s, RefreshTokenSessionKey) == token.refreshToken
      && Lookup(s, AccessTokenExpirySessionKey) == STime(token.expiry)
      && Lookup(s, UserProfileSessionKey).SProfile?
      && Lookup(s, PKCECodeVerifierSessionKey) == SNil
      && (forall k :: k in sess && k !in SignInKeys ==> k in s && s[k] == sess[k])
  {
  }

  const SignInKeys: set<string> := {IDTokenSessionKey, AccessTokenSessionKey, AccessTokenExpirySessionKey,
                                    RefreshTokenSessionKey, UserProfileSessionKey, PKCECodeVerifierSessionKey}

  /** The PKCE round trip: a login that stores a fresh verifier sends its S256 challenge to the
      IdP, and the callback on the resulting session hands exactly that verifier to the code
      exchange, as section 4.5 of RFC 7636 requires. */
  lemma LoginThenCallbackSendsVerifier(h: HandlerContext, stateToken: string, read: Result<seq<Hex.byte>>,
                                       sha256: string -> seq<Hex.byte>,
                                       base64url: seq<Hex.byte> -> string, sess: Session)
    requires h.auth.withPKCE
    requires read.Ok? && |read.value| == 32
    ensures var cv := Oidc.NewCodeVerifier(read, sha256, base64url);
      var out := Login(h, stateToken, cv, sess);
      && cv.Ok?
      && out.0 == AuthRedirect(stateToken, [("code_challenge_method", "S256"),
                                           ("code_challenge", Oidc.S256(cv.value.verifier, sha256, base64url))])
      && CallbackOptions(h, out.1) == Options([("code_verifier", cv.value.verifier)])
      && Oidc.IsCodeVerifier(cv.value.verifier)
  {
  }

  /** Every parameter a login adds to the authorization URL is one the request logger treats
      as sensitive; registration adds only `prompt` besides. */
  lemma LoginParamsAreSensitive(h: HandlerContext, stateToken: string, newVerifier: Result<Oidc.PKCECodeVerifier>,
                                sess: Session)
    requires Login(h, stateToken, newVerifier, sess).0.AuthRedirect?
    ensures var ps := Login(h, stateToken, newVerifier, sess).0.params;
      forall i :: 0 <= i < |ps| ==> ps[i].0 in Oidc.GetOIDCURLParams()
  {
    var ps := Login(h, stateToken, newVerifier, sess).0.params;
    var names := Oidc.GetOIDCURLParams();
    assert names[3] == "code_challenge" && names[4] == "code_challenge_method";
  }

  /** A callback that fails verification of the CSRF state never touches the session, whatever
      the IdP would answer. */
  lemma ForgedStateChangesNothing(h: HandlerContext, sess: Session, query: Urls.Values, csrfToken: string,
                                  verifyToken: (string, string) -> bool,
                                  exchange: (string, seq<Param>) -> Result<Oidc.Token>,
                                  exchange2: (string, seq<Param>) -> Result<Oidc.Token>,
                                  verify: Oidc.Verify, claims: Oidc.IDToken -> Result<Profile>)
    requires !verifyToken(csrfToken, Urls.Get(query, "state"))
    ensures Callback(h, sess, query, csrfToken, verifyToken, exchange, verify, claims)
         == Callback(h, sess, query, csrfToken, verifyToken, exchange2, verify, claims)
         == (Redirect(OIDCLoginPath), sess)
  {
  }
}
