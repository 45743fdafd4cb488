/** tfcommons/fensak_registry_client.go: the client of the Fensak extensions to the Terraform
    registry protocol, which serve the provenance attestation of a module version. */
module FensakRegistryClient {
  import opened Wrappers
  import Paths
  import Urls
  import CredentialConfig
  import RC = RegistryClient

  const TerraformFensakExtSDPath := "/.well-known/terraform_ext_fensak.json"
  const ProvenanceV0Key := "provenance.v0"

  /** `RegistryFensakExtClient`. */
  datatype Client = Client(provenanceEndpoint: Urls.Url, authToken: Option<string>)

  /** `RegistrySupportsFensakExt`: whether the extension discovery document answers 200. The
      request goes out on a fresh client, without any credential. */
  function RegistrySupportsFensakExt(host: string, http: RC.Http<()>, render: Urls.Url -> string)
    : (r: (bool, Option<string>))
    ensures var resp := http(RC.Request(render(RC.DiscoveryUrl(host, TerraformFensakExtSDPath)), None));
      && (r.1.Some? <==> resp.Err?)
      && (resp.Err? ==> r == (false, Some(resp.msg)))
      && (resp.Ok? ==> (r.0 <==> resp.value.status == RC.StatusOK))
  {
    match http(RC.Request(render(RC.DiscoveryUrl(host, TerraformFensakExtSDPath)), None))
    case Err(e) => (false, Some(e))
    case Ok(resp) => (resp.status == RC.StatusOK, None)
  }

  /** `NewRegistryFensakExtClient`: discovery of `provenance.v0`, with the host's credential. */
  function NewRegistryFensakExtClient(host: string, creds: Result<Option<CredentialConfig.Config>>,
                                      http: RC.Http<RC.Services>, render: Urls.Url -> string,
                                      parse: string -> Result<Urls.Url>): (r: Result<Client>)
    ensures creds.Err? ==> r == Err(creds.msg)
    ensures r.Ok? <==> RC.Discover(host, TerraformFensakExtSDPath, ProvenanceV0Key, creds, http, render, parse).Ok?
    ensures r.Err? ==> r.msg == RC.Discover(host, TerraformFensakExtSDPath, ProvenanceV0Key, creds, http, render, parse).msg
    ensures r.Ok? ==> r.value.authToken == RC.AuthToken(creds.value, host)
    ensures r.Ok? ==> exists resp :: (http(RC.Request(render(RC.DiscoveryUrl(host, TerraformFensakExtSDPath)), r.value.authToken)) == Ok(resp)
      && ProvenanceV0Key in resp.result
      && parse(RC.Absolutize(host, resp.result[ProvenanceV0Key])) == Ok(r.value.provenanceEndpoint))
    ensures creds.Ok? ==>
      var resp := http(RC.Request(render(RC.DiscoveryUrl(host, TerraformFensakExtSDPath)), RC.AuthToken(creds.value, host)));
      resp.Ok? && ProvenanceV0Key !in resp.value.result ==> r == Err("no " + ProvenanceV0Key + " key in services list")
  {
    match RC.Discover(host, TerraformFensakExtSDPath, ProvenanceV0Key, creds, http, render, parse)
    case Err(e) => Err(e)
    case Ok((u, token)) => Ok(Client(u, token))
  }

  /** The attestation URL: `<endpoint path>/<namespace>/<name>/<targetSystem>/<version>/download`. */
  function AttestationUrl(c: Client, m: RC.ModulePackage, version: string): Urls.Url {
    RC.EndpointWith(c.provenanceEndpoint, [m.namespace, m.name, m.targetSystem, version, "download"])
  }

  /** `GetAttestation`: only a 204 answer is accepted. The statement is the one `SetResult`
      was given, `zero` (the zero `intoto.ProvenanceStatement`): the HTTP client decodes no
      result from a 204 answer, which has no body, so the transport's answer carries none
      here. `moduleString` renders the module address. */
  function GetAttestation<Statement>(c: Client, m: RC.ModulePackage, version: string,
                                     http: RC.Http<()>, render: Urls.Url -> string,
                                     moduleString: RC.ModulePackage -> string, zero: Statement): (r: Result<Statement>)
    ensures var resp := http(RC.Request(render(AttestationUrl(c, m, version)), c.authToken));
      && (r.Ok? <==> resp.Ok? && resp.value.status == RC.StatusNoContent)
      && (r.Ok? ==> r.value == zero)
      && (resp.Err? ==> r == Err(resp.msg))
      && (resp.Ok? && resp.value.status != RC.StatusNoContent ==>
            r == Err("Error getting attestation for module " + moduleString(m) + ": " + resp.value.body))
  {
    match http(RC.Request(render(AttestationUrl(c, m, version)), c.authToken))
    case Err(e) => Err(e)
    case Ok(resp) =>
      if resp.status != RC.StatusNoContent
      then Err("Error getting attestation for module " + moduleString(m) + ": " + resp.body)
      else Ok(zero)
  }

  /** Whatever a registry answers, a successful `GetAttestation` returns the same statement:
      two transports that both accept the request yield equal results. */
  lemma AttestationIgnoresRegistry<Statement>(c: Client, m: RC.ModulePackage, version: string,
                                              http1: RC.Http<()>, http2: RC.Http<()>,
                                              render: Urls.Url -> string,
                                              moduleString: RC.ModulePackage -> string, zero: Statement)
    requires GetAttestation(c, m, version, http1, render, moduleString, zero).Ok?
    requires GetAttestation(c, m, version, http2, render, moduleString, zero).Ok?
    ensures GetAttestation(c, m, version, http1, render, moduleString, zero)
         == GetAttestation(c, m, version, http2, render, moduleString, zero)
  {
  }

  /** The attestation of a version sits at the same relative path under the provenance endpoint
      as the module download does under the modules endpoint. */
  lemma AttestationMirrorsDownload(c: Client, rc: RC.Client, m: RC.ModulePackage, version: string)
    requires c.provenanceEndpoint.path != "" && rc.modulesEndpoint.path != ""
    requires RC.PlainModule(m) && Paths.Plain(version)
    ensures AttestationUrl(c, m, version).(path := c.provenanceEndpoint.path) == c.provenanceEndpoint
    ensures Paths.Elements(AttestationUrl(c, m, version).path)
         == Paths.Elements(c.provenanceEndpoint.path) + [m.namespace, m.name, m.targetSystem, version, "download"]
    ensures Paths.Elements(RC.DownloadUrl(rc, m, version).path)
         == Paths.Elements(rc.modulesEndpoint.path) + [m.namespace, m.name, m.targetSystem, version, "download"]
  {
    Paths.JoinPlain(c.provenanceEndpoint.path, [m.namespace, m.name, m.targetSystem, version, "download"]);
    RC.ModuleUrls(rc, m, version);
  }

  /** The extension probe never sends a credential, whatever the host's configuration. */
  lemma ProbeIsAnonymous(host: string, http: RC.Http<()>, render: Urls.Url -> string, status: int)
    requires http(RC.Request(render(RC.DiscoveryUrl(host, TerraformFensakExtSDPath)), None)) == Ok(RC.Response(status, "", map[], ()))
    ensures RegistrySupportsFensakExt(host, http, render) == (status == 200, None)
  {
  }
}
