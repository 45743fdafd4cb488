/** tfcommons/registry_client.go: a thin client of the Terraform module registry protocol.
    HTTP requests, JSON decoding of the response, URL parsing and rendering and the
    go-getter download are parameters. */
module RegistryClient {
  import opened Wrappers
  import Paths
  import Urls
  import CredentialConfig

  const TerraformSDPath := "/.well-known/terraform.json"
  const ModulesV1Key := "modules.v1"
  /** `http.CanonicalHeaderKey("X-Terraform-Get")`. */
  const TfSrcHdrKey := "X-Terraform-Get"

  const StatusOK := 200
  const StatusNoContent := 204

  /** A GET request as the resty client sends it: the rendered URL and the bearer token set
      with `SetAuthToken`, if any. */
  datatype Request = Request(url: string, authToken: Option<string>)

  /** A response: status, raw body, headers, and the value `SetResult` decoded into
      (the zero value when nothing was decoded). */
  datatype Response<T> = Response(status: int, body: string, header: Urls.Values, result: T)

  /** A transport: a transport failure or a response. */
  type Http<T> = Request -> Result<Response<T>>

  /** The service-discovery document: service name to its endpoint. */
  type Services = map<string, string>

  /** `tfaddr.ModulePackage`: `<host>/<namespace>/<name>/<targetSystem>`. */
  datatype ModulePackage = ModulePackage(host: string, namespace: string, name: string, targetSystem: string)

  datatype ModuleVersion = ModuleVersion(version: string)
  datatype ModuleVersionList = ModuleVersionList(versions: seq<ModuleVersion>)
  /** `ModuleVersionsResp`: the registry wraps the version list in a singleton list. */
  datatype ModuleVersionsResp = ModuleVersionsResp(modules: seq<ModuleVersionList>)

  /** `RegistryClient`: the modules endpoint and the token the HTTP client carries. */
  datatype Client = Client(modulesEndpoint: Urls.Url, authToken: Option<string>)

  /** The service-discovery URL `https://<host><path>`. */
  function DiscoveryUrl(host: string, path: string): (u: Urls.Url)
    ensures u.scheme == "https" && u.host == host && u.path == path
    ensures u.user.None? && u.rawQuery == ""
  {
    Urls.Url("https", None, host, path, "")
  }

  /** The token `SetAuthToken` installs: that of the host's credential when a config was loaded
      and holds the host. */
  function AuthToken(creds: Option<CredentialConfig.Config>, host: string): (t: Option<string>)
    ensures t.Some? <==> creds.Some? && host in creds.value.credentialMap
    ensures t.Some? ==> t.value == creds.value.credentialMap[host].token
  {
    match creds
    case None => None
    case Some(cfg) => if host in cfg.credentialMap then Some(cfg.credentialMap[host].token) else None
  }

  /** A discovered endpoint given as a path is made absolute on the registry host. */
  function Absolutize(host: string, endpoint: string): (s: string)
    ensures |endpoint| > 0 && endpoint[0] == '/' ==> s == "https://" + host + endpoint
    ensures !(|endpoint| > 0 && endpoint[0] == '/') ==> s == endpoint
  {
    if |endpoint| > 0 && endpoint[0] == '/' then "https://" + host + endpoint else endpoint
  }

  /** Every absolutised path endpoint lies on the registry host over https. */
  lemma AbsolutizedPathStaysOnHost(host: string, endpoint: string)
    requires |endpoint| > 0 && endpoint[0] == '/'
    ensures var s := Absolutize(host, endpoint);
      && s[..8] == "https://" && s[8..8 + |host|] == host && s[8 + |host|..] == endpoint
  {
  }

  /** The discovery step shared with the Fensak extension client: load credentials, request the
      discovery document with the host's token, look up the service `key`, absolutise and parse it. */
  function Discover(host: string, sdPath: string, key: string,
                    creds: Result<Option<CredentialConfig.Config>>,
                    http: Http<Services>, render: Urls.Url -> string,
                    parse: string -> Result<Urls.Url>): (r: Result<(Urls.Url, Option<string>)>)
    ensures creds.Err? ==> r == Err(creds.msg)
    ensures creds.Ok? ==>
      var token := AuthToken(creds.value, host);
      var resp := http(Request(render(DiscoveryUrl(host, sdPath)), token));
      && (resp.Err? ==> r == Err(resp.msg))
      && (resp.Ok? && key !in resp.value.result ==> r == Err("no " + key + " key in services list"))
      && (resp.Ok? && key in resp.value.result ==>
            r == (match parse(Absolutize(host, resp.value.result[key]))
                  case Err(e) => Err(e)
                  case Ok(u) => Ok((u, token))))
  {
    match creds
    case Err(e) => Err(e)
    case Ok(cfg) =>
      var token := AuthToken(cfg, host);
      match http(Request(render(DiscoveryUrl(host, sdPath)), token))
      case Err(e) => Err(e)
      case Ok(resp) =>
        if key !in resp.result then Err("no " + key + " key in services list")
        else
          match parse(Absolutize(host, resp.result[key]))
          case Err(e) => Err(e)
          case Ok(u) => Ok((u, token))
  }

  /** `NewRegistryClient`. `creds` is the outcome of `LoadCredentialConfig`. */
  function NewRegistryClient(host: string, creds: Result<Option<CredentialConfig.Config>>,
                             http: Http<Services>, render: Urls.Url -> string,
                             parse: string -> Result<Urls.Url>): (r: Result<Client>)
    ensures r.Ok? <==> Discover(host, TerraformSDPath, ModulesV1Key, creds, http, render, parse).Ok?
    ensures r.Ok? ==> r.value.authToken == AuthToken(creds.value, host)
    ensures r.Ok? ==> exists resp :: (http(Request(render(DiscoveryUrl(host, TerraformSDPath)), r.value.authToken)) == Ok(resp)
      && ModulesV1Key in resp.result
      && parse(Absolutize(host, resp.result[ModulesV1Key])) == Ok(r.value.modulesEndpoint))
    ensures r.Err? ==> r.msg == Discover(host, TerraformSDPath, ModulesV1Key, creds, http, render, parse).msg
  {
    match Discover(host, TerraformSDPath, ModulesV1Key, creds, http, render, parse)
    case Err(e) => Err(e)
    case Ok((u, token)) => Ok(Client(u, token))
  }

  /** A copy of `endpoint` whose path has `tail` joined onto it; the endpoint itself is a value
      and stays as it was. */
  function EndpointWith(endpoint: Urls.Url, tail: seq<string>): (u: Urls.Url)
    ensures u == endpoint.(path := Paths.Join([endpoint.path] + tail))
  {
    endpoint.(path := Paths.Join([endpoint.path] + tail))
  }

  /** The versions URL: `<endpoint path>/<namespace>/<name>/<targetSystem>/versions`. */
  function VersionsUrl(c: Client, m: ModulePackage): Urls.Url {
    EndpointWith(c.modulesEndpoint, [m.namespace, m.name, m.targetSystem, "versions"])
  }

  /** The download URL: `<endpoint path>/<namespace>/<name>/<targetSystem>/<version>/download`. */
  function DownloadUrl(c: Client, m: ModulePackage, version: string): Urls.Url {
    EndpointWith(c.modulesEndpoint, [m.namespace, m.name, m.targetSystem, version, "download"])
  }

  /** A module address made of plain path elements. */
  predicate PlainModule(m: ModulePackage) {
    Paths.Plain(m.namespace) && Paths.Plain(m.name) && Paths.Plain(m.targetSystem)
  }

  /** With a non-empty endpoint path and plain module components, the versions and download
      URLs extend the endpoint's path by exactly the module's components, and differ from the
      endpoint in nothing else. */
  lemma ModuleUrls(c: Client, m: ModulePackage, version: string)
    requires c.modulesEndpoint.path != "" && PlainModule(m) && Paths.Plain(version)
    ensures VersionsUrl(c, m).(path := c.modulesEndpoint.path) == c.modulesEndpoint
    ensures Paths.Rooted(VersionsUrl(c, m).path) == Paths.Rooted(c.modulesEndpoint.path)
    ensures Paths.Elements(VersionsUrl(c, m).path)
         == Paths.Elements(c.modulesEndpoint.path) + [m.namespace, m.name, m.targetSystem, "versions"]
    ensures Paths.Elements(DownloadUrl(c, m, version).path)
         == Paths.Elements(c.modulesEndpoint.path) + [m.namespace, m.name, m.targetSystem, version, "download"]
  {
    Paths.JoinPlain(c.modulesEndpoint.path, [m.namespace, m.name, m.targetSystem, "versions"]);
    Paths.JoinPlain(c.modulesEndpoint.path, [m.namespace, m.name, m.targetSystem, version, "download"]);
  }

  /** The runtime error of indexing an empty `Modules` list. */
  const IndexPanic := "panic: runtime error: index out of range [0] with length 0"

  /** `GetVersions`: the first element of `modules` of a 200 response. */
  function GetVersions(c: Client, m: ModulePackage, http: Http<ModuleVersionsResp>,
                       render: Urls.Url -> string): (r: Result<ModuleVersionList>)
    ensures var resp := http(Request(render(VersionsUrl(c, m)), c.authToken));
      && (r.Ok? <==> resp.Ok? && resp.value.status == StatusOK && |resp.value.result.modules| > 0)
      && (r.Ok? ==> r.value == resp.value.result.modules[0])
      && (resp.Err? ==> r == Err(resp.msg))
      && (resp.Ok? && resp.value.status != StatusOK ==> r == Err("Error fetching versions: " + resp.value.body))
      && (resp.Ok? && resp.value.status == StatusOK && |resp.value.result.modules| == 0 ==> r == Err(IndexPanic))
  {
    match http(Request(render(VersionsUrl(c, m)), c.authToken))
    case Err(e) => Err(e)
    case Ok(resp) =>
      if resp.status != StatusOK then Err("Error fetching versions: " + resp.body)
      else if |resp.result.modules| == 0 then Err(IndexPanic)
      else Ok(resp.result.modules[0])
  }

  /** `DownloadToPath`: a 204 response names the source in `X-Terraform-Get`, which `getAny`
      (go-getter's `GetAny`) fetches into `destDir`. */
  function DownloadToPath(c: Client, m: ModulePackage, version: string, destDir: string,
                          http: Http<()>, render: Urls.Url -> string,
                          getAny: (string, string) -> Outcome): (r: Outcome)
    ensures var resp := http(Request(render(DownloadUrl(c, m, version)), c.authToken));
      && (resp.Err? ==> r == Fail(resp.msg))
      && (resp.Ok? && resp.value.status != StatusNoContent ==> r == Fail("Error getting download URL: " + resp.value.body))
      && (resp.Ok? && resp.value.status == StatusNoContent ==>
            r == getAny(destDir, Urls.Get(resp.value.header, TfSrcHdrKey)))
  {
    match http(Request(render(DownloadUrl(c, m, version)), c.authToken))
    case Err(e) => Fail(e)
    case Ok(resp) =>
      if resp.status != StatusNoContent then Fail("Error getting download URL: " + resp.body)
      else getAny(destDir, Urls.Get(resp.header, TfSrcHdrKey))
  }

  /** A registry that lists its modules under a path serves them from its own host over https,
      and every later request carries the token of the host's credential. */
  lemma PathEndpointIsOnHost(host: string, creds: Result<Option<CredentialConfig.Config>>,
                             http: Http<Services>, render: Urls.Url -> string,
                             parse: string -> Result<Urls.Url>, endpoint: string)
    requires creds.Ok?
    requires var resp := http(Request(render(DiscoveryUrl(host, TerraformSDPath)), AuthToken(creds.value, host)));
      resp.Ok? && ModulesV1Key in resp.value.result && resp.value.result[ModulesV1Key] == endpoint
    requires |endpoint| > 0 && endpoint[0] == '/'
    ensures var r := NewRegistryClient(host, creds, http, render, parse);
      r.Ok? ==> parse("https://" + host + endpoint) == Ok(r.value.modulesEndpoint)
    ensures var r := NewRegistryClient(host, creds, http, render, parse);
      r.Ok? ==> (r.value.authToken.Some? <==> creds.value.Some? && host in creds.value.value.credentialMap)
  {
  }
}
