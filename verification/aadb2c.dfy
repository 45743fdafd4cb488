/** webstd/idp/aadb2c/aadb2c.go: the Azure AD B2C identity-provider service. Graph API calls
    (credential, client, domain listing, user create/patch/delete) and the password generator
    are parameters; a Graph `*string` is an `Option<string>`. */
module AADB2C {
  import opened Wrappers
  import opened Strs
  import Urls
  import Oidc
  import OidcHandlers
  import PrimitivePtr

  const TenantSuffix: string := "onmicrosoft.com"

  /** The first domain ID, in list order, that ends with "onmicrosoft.com"; `nil` IDs read as `""`. */
  function FindMainTenantDomain(ds: seq<Option<string>>): (d: string)
    ensures d == "" <==> forall i :: 0 <= i < |ds| ==> !HasSuffix(PrimitivePtr.StringDeref(ds[i]), TenantSuffix)
    ensures d != "" ==> exists i :: (0 <= i < |ds| && d == PrimitivePtr.StringDeref(ds[i])
      && HasSuffix(d, TenantSuffix)
      && forall j :: 0 <= j < i ==> !HasSuffix(PrimitivePtr.StringDeref(ds[j]), TenantSuffix))
    decreases |ds|
  {
    if |ds| == 0 then ""
    else
      var did := PrimitivePtr.StringDeref(ds[0]);
      if HasSuffix(did, TenantSuffix) then did
      else
        var d := FindMainTenantDomain(ds[1..]);
        FindShift(ds, d);
        d
  }

  /** The step of `FindMainTenantDomain` past a first domain without the suffix. */
  lemma FindShift(ds: seq<Option<string>>, d: string)
    requires |ds| > 0 && !HasSuffix(PrimitivePtr.StringDeref(ds[0]), TenantSuffix)
    requires d == "" <==> forall i :: 0 <= i < |ds[1..]| ==> !HasSuffix(PrimitivePtr.StringDeref(ds[1..][i]), TenantSuffix)
    requires d != "" ==> exists i :: (0 <= i < |ds[1..]| && d == PrimitivePtr.StringDeref(ds[1..][i])
      && HasSuffix(d, TenantSuffix)
      && forall j :: 0 <= j < i ==> !HasSuffix(PrimitivePtr.StringDeref(ds[1..][j]), TenantSuffix))
    ensures d == "" <==> forall i :: 0 <= i < |ds| ==> !HasSuffix(PrimitivePtr.StringDeref(ds[i]), TenantSuffix)
    ensures d != "" ==> exists i :: (0 <= i < |ds| && d == PrimitivePtr.StringDeref(ds[i])
      && HasSuffix(d, TenantSuffix)
      && forall j :: 0 <= j < i ==> !HasSuffix(PrimitivePtr.StringDeref(ds[j]), TenantSuffix))
  {
    if d != "" {
      var i :| 0 <= i < |ds[1..]| && d == PrimitivePtr.StringDeref(ds[1..][i])
        && HasSuffix(d, TenantSuffix)
        && forall j :: 0 <= j < i ==> !HasSuffix(PrimitivePtr.StringDeref(ds[1..][j]), TenantSuffix);
      assert d == PrimitivePtr.StringDeref(ds[i + 1]);
      forall j | 0 <= j < i + 1 ensures !HasSuffix(PrimitivePtr.StringDeref(ds[j]), TenantSuffix) {
        if j > 0 { assert ds[j] == ds[1..][j - 1]; }
      }
    } else {
      forall i | 0 <= i < |ds| ensures !HasSuffix(PrimitivePtr.StringDeref(ds[i]), TenantSuffix) {
        if i > 0 { assert ds[i] == ds[1..][i - 1]; }
      }
    }
  }

  datatype Service = Service(appURL: Urls.Url, tenantDomain: string, auth: Oidc.Authenticator)

  /** `fmt.Sprintf("%v", ids)` for a list of strings. */
  function FormatList(ids: seq<string>): string {
    "[" + JoinWith(ids, ' ') + "]"
  }

  function DerefAll(ds: seq<Option<string>>): (r: seq<string>)
    ensures |r| == |ds|
    ensures forall i :: 0 <= i < |ds| ==> r[i] == PrimitivePtr.StringDeref(ds[i])
  {
    seq(|ds|, i requires 0 <= i < |ds| => PrimitivePtr.StringDeref(ds[i]))
  }

  /** `NewAADB2C`: `domains` is the outcome of creating the Graph client and listing the
      tenant's domains. Without a main tenant domain the constructor fails. */
  function NewAADB2C(appURL: Urls.Url, auth: Oidc.Authenticator, domains: Result<seq<Option<string>>>)
    : (r: Result<Service>)
    ensures domains.Err? ==> r == Err(domains.msg)
    ensures domains.Ok? ==> (r.Ok? <==> FindMainTenantDomain(domains.value) != "")
    ensures domains.Ok? && r.Err? ==>
      r.msg == "Could not find main tenant domain from list of domains: " + FormatList(DerefAll(domains.value))
    ensures r.Ok? ==>
      && HasSuffix(r.value.tenantDomain, TenantSuffix)
      && r.value.tenantDomain == FindMainTenantDomain(domains.value)
      && r.value.appURL == appURL && r.value.auth == auth
  {
    match domains
    case Err(e) => Err(e)
    case Ok(ds) =>
      var d := FindMainTenantDomain(ds);
      if d == "" then Err("Could not find main tenant domain from list of domains: " + FormatList(DerefAll(ds)))
      else Ok(Service(appURL, d, auth))
  }

  /** `idp.UserProfile`. */
  datatype UserProfile = UserProfile(id: string, firstName: string, lastName: string, primaryEmail: string)

  datatype ObjectIdentity = ObjectIdentity(issuer: string, signInType: string, issuerAssignedId: string)

  datatype PasswordProfile = PasswordProfile(forceChangePasswordNextSignIn: bool, password: string)

  /** The Graph `User` fields this service sets; `None` is a field left unset. */
  datatype User = User(
    givenName: string,
    surname: string,
    displayName: string,
    identities: seq<ObjectIdentity>,
    accountEnabled: Option<bool>,
    creationType: Option<string>,
    passwordProfile: Option<PasswordProfile>)

  /** `newUserFromProfile`: names copied, display name "first last", and one e-mail sign-in
      identity issued by the tenant domain. */
  function NewUserFromProfile(a: Service, profile: UserProfile): (u: User)
    ensures u.givenName == profile.firstName && u.surname == profile.lastName
    ensures u.displayName == profile.firstName + " " + profile.lastName
    ensures u.identities == [ObjectIdentity(a.tenantDomain, "emailAddress", profile.primaryEmail)]
    ensures u.accountEnabled.None? && u.creationType.None? && u.passwordProfile.None?
  {
    User(profile.firstName, profile.lastName, profile.firstName + " " + profile.lastName,
         [ObjectIdentity(a.tenantDomain, "emailAddress", PrimitivePtr.StringDeref(PrimitivePtr.String(profile.primaryEmail)))],
         None, None, None)
  }

  /** The arguments of `password.Generate(length, numDigits, numSymbols, noUpper, allowRepeat)`. */
  datatype PasswordSpec = PasswordSpec(length: int, numDigits: int, numSymbols: int, noUpper: bool, allowRepeat: bool)

  /** The user `AddUser` posts: `r1` and `r2` are the two draws of `rand.Intn(5)` and `generate`
      the password generator. */
  function AddUserRequest(a: Service, profile: UserProfile, r1: int, r2: int,
                          generate: PasswordSpec -> Result<string>): (r: Result<User>)
    requires 0 <= r1 < 5 && 0 <= r2 < 5
    ensures var spec := PasswordSpec(20, r1 + 1, r2 + 1, false, false);
      && (r.Ok? <==> generate(spec).Ok?)
      && (r.Ok? ==> r.value == NewUserFromProfile(a, profile).(
            accountEnabled := Some(true),
            creationType := Some("LocalAccount"),
            passwordProfile := Some(PasswordProfile(true, generate(spec).value))))
      && 1 <= spec.numDigits <= 5 && 1 <= spec.numSymbols <= 5
  {
    var user := NewUserFromProfile(a, profile).(accountEnabled := Some(true), creationType := PrimitivePtr.String("LocalAccount"));
    match generate(PasswordSpec(20, r1 + 1, r2 + 1, false, false))
    case Err(e) => Err(e)
    case Ok(genp) => Ok(user.(passwordProfile := Some(PasswordProfile(true, genp))))
  }

  /** `AddUser`: `post` creates the user and answers with its (possibly nil) ID. */
  function AddUser(a: Service, profile: UserProfile, r1: int, r2: int,
                   generate: PasswordSpec -> Result<string>, post: User -> Result<Option<string>>): (r: Result<string>)
    requires 0 <= r1 < 5 && 0 <= r2 < 5
    ensures r.Ok? <==> AddUserRequest(a, profile, r1, r2, generate).Ok?
                       && post(AddUserRequest(a, profile, r1, r2, generate).value).Ok?
    ensures r.Ok? ==> r.value == PrimitivePtr.StringDeref(post(AddUserRequest(a, profile, r1, r2, generate).value).value)
  {
    match AddUserRequest(a, profile, r1, r2, generate)
    case Err(e) => Err(e)
    case Ok(user) =>
      match post(user)
      case Err(e) => Err(e)
      case Ok(id) => Ok(PrimitivePtr.StringDeref(id))
  }

  /** `UpdateUser`: the patch sent for the profile's user ID carries only the profile fields. */
  function UpdateUserRequest(a: Service, profile: UserProfile): (req: (string, User))
    ensures req.0 == profile.id
    ensures req.1.accountEnabled.None? && req.1.creationType.None? && req.1.passwordProfile.None?
    ensures req.1.identities == [ObjectIdentity(a.tenantDomain, "emailAddress", profile.primaryEmail)]
  {
    (profile.id, NewUserFromProfile(a, profile))
  }

  /** The end-session URL `GetLogoutURL` renders, with its query as a value. */
  datatype LogoutTarget = LogoutTarget(endpoint: Urls.Url, query: Urls.Values)

  /** `GetLogoutURL`, up to rendering: the IdP's end-session endpoint with its query replaced by
      exactly `post_logout_redirect_uri` (the app URL with path /oidc/logout, rendered by
      `render`) and `id_token_hint` (a fresh ID token obtained with the session's refresh token). */
  function LogoutTargetFor(a: Service, sess: OidcHandlers.Session, parse: string -> Result<Urls.Url>,
                           render: Urls.Url -> string, tokenSource: string -> Result<Oidc.Token>,
                           verify: Oidc.Verify): (r: Result<LogoutTarget>)
    ensures Oidc.LogoutURL(a.auth) == "" ==> r == Err("Missing expected end_session_endpoint in OIDC discovery claims")
    ensures r.Ok? ==>
      var refreshed := Oidc.RefreshIDToken(a.auth, OidcHandlers.GetString(sess, OidcHandlers.RefreshTokenSessionKey),
                                           tokenSource, verify);
      && Oidc.LogoutURL(a.auth) != ""
      && parse(Oidc.LogoutURL(a.auth)).Ok?
      && r.value.endpoint == parse(Oidc.LogoutURL(a.auth)).value
      && refreshed.Ok?
      && r.value.query.Keys == {"post_logout_redirect_uri", "id_token_hint"}
      && r.value.query["post_logout_redirect_uri"] == [render(a.appURL.(path := OidcHandlers.OIDCLogoutPath))]
      && r.value.query["id_token_hint"] == [refreshed.value.rawIDToken]
    ensures Oidc.LogoutURL(a.auth) != "" && parse(Oidc.LogoutURL(a.auth)).Ok? ==>
      (r.Ok? <==> Oidc.RefreshIDToken(a.auth, OidcHandlers.GetString(sess, OidcHandlers.RefreshTokenSessionKey),
                                      tokenSource, verify).Ok?)
  {
    var idpLogoutURL := Oidc.LogoutURL(a.auth);
    if idpLogoutURL == "" then Err("Missing expected end_session_endpoint in OIDC discovery claims")
    else
      match parse(idpLogoutURL)
      case Err(e) => Err(e)
      case Ok(parsed) =>
        var refreshToken := OidcHandlers.GetString(sess, OidcHandlers.RefreshTokenSessionKey);
        match Oidc.RefreshIDToken(a.auth, refreshToken, tokenSource, verify)
        case Err(e) => Err(e)
        case Ok(refreshed) =>
          var appURLCopy := a.appURL.(path := OidcHandlers.OIDCLogoutPath);
          var qp: Urls.Values := map[];
          var qp := Urls.Set(qp, "post_logout_redirect_uri", render(appURLCopy));
          var qp := Urls.Set(qp, "id_token_hint", refreshed.rawIDToken);
          Ok(LogoutTarget(parsed, qp))
  }

  /** `GetLogoutURL`. */
  function GetLogoutURL(a: Service, sess: OidcHandlers.Session, parse: string -> Result<Urls.Url>,
                        render: Urls.Url -> string, qc: Urls.QueryCodec,
                        tokenSource: string -> Result<Oidc.Token>, verify: Oidc.Verify): (r: Result<string>)
    ensures r.Ok? <==> LogoutTargetFor(a, sess, parse, render, tokenSource, verify).Ok?
    ensures r.Ok? ==>
      var t := LogoutTargetFor(a, sess, parse, render, tokenSource, verify).value;
      r.value == render(t.endpoint.(rawQuery := qc.encode(t.query)))
  {
    match LogoutTargetFor(a, sess, parse, render, tokenSource, verify)
    case Err(e) => Err(e)
    case Ok(t) => Ok(render(t.endpoint.(rawQuery := qc.encode(t.query))))
  }

  /** The logout URL's query, parsed back, is exactly the two logout parameters, and the
      rest of the end-session endpoint URL is kept. */
  lemma LogoutQueryRoundTrip(a: Service, sess: OidcHandlers.Session, parse: string -> Result<Urls.Url>,
                             render: Urls.Url -> string, qc: Urls.QueryCodec,
                             tokenSource: string -> Result<Oidc.Token>, verify: Oidc.Verify)
    requires Urls.QueryRoundTrips(qc)
    requires LogoutTargetFor(a, sess, parse, render, tokenSource, verify).Ok?
    ensures var t := LogoutTargetFor(a, sess, parse, render, tokenSource, verify).value;
      && qc.parse(qc.encode(t.query)) == Ok(t.query)
      && Urls.Get(t.query, "post_logout_redirect_uri") == render(a.appURL.(path := "/oidc/logout"))
      && t.endpoint == parse(Oidc.LogoutURL(a.auth)).value
  {
    var t := LogoutTargetFor(a, sess, parse, render, tokenSource, verify).value;
    assert qc.parse(qc.encode(t.query)) == Ok(t.query);
  }
}
