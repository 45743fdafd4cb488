# gostd in Dafny

A Dafny model of the self-contained logic in the `gostd` Go helper library. Once the
libraries it wraps are taken out, these parts remain:

- **Document-store session providers.** There are two: `webstd/chistd` and the older
  `webcommons/chistd`. Each is a per-request attribute map (`SessionDocumentStore`) plus a
  provider that keeps one document per session under `prefix + sid`. The provider offers
  release, read, exist, destroy, regenerate and count, and its `Init` rewrites the
  primary key for each backend.
- **Terraform helpers.**
  - Module-source classification: a local prefix first, then a registry address, then
    go-getter detection.
  - Module discovery: exclude patterns, de-duplication and sorting.
  - The registry client and the Fensak-extension client, following the Terraform remote
    service discovery protocol and the module registry protocol ("list versions" and
    "download").
  - Locating and loading the CLI credential configuration.
- **String and URL parsers.**
  - Bearer-token extraction.
  - The MongoDB collection-URL opener.
  - Custom docstore opener dispatch by scheme.
- **Authentication.**
  - OIDC authenticator construction.
  - The PKCE verifier and its S256 challenge (sections 4.1 and 4.2 of RFC 7636).
  - ID-token verification, including the raw-token client-ID search.
  - The login, register, logout and callback handlers, as a state machine over the
    session map.
  - Azure AD B2C tenant-domain selection, user payloads and the logout URL.
- **Task envelope.** The worker publisher stamps `type=Task` on each message, and the
  subscriber checks that stamp. Both pick an engine by name and close their handles in
  order.
- **Configuration mappings.**
  - The session cookie's SameSite mode.
  - The CSRF cookie.
  - The zap configuration merge.
  - The HTML renderer's template sets.
  - `primitiveptr`.
  - Context-key strings.

**How library calls are modelled.** Every library call is a function-typed parameter, so
each contract holds for every possible library behaviour. This covers:

- HTTP transports;
- `url.Parse` and query encoding;
- gob encoding;
- regexp compile and match;
- SHA-256, base64url and the random source;
- OIDC discovery and JWT verification;
- Graph API calls;
- `filepath.Walk` and `filepath.Rel`;
- go-getter detection and download;
- HCL decoding;
- protobuf marshalling;
- broker SDKs;
- `fs.Glob` and template parsing.

Where a property needs a law about such a library, the law is a hypothesis of the lemma
(for example `GobRoundTrips`, `QueryRoundTrips`).

**Errors and panics.** Go errors are `Result`, `Option` or `Outcome` values. A Go panic
that the source can reach is modelled explicitly:

- indexing an empty `Modules` list in `GetVersions` is an error carrying the runtime's
  panic message;
- the `.(string)` type assertion on a PKCE verifier of another type in the OIDC callback
  is the handler response `Panic`.

**Library models.** Go's `path` package (`Clean`, `Join`, `Dir`, `Ext`) and the `strings`
helpers are modelled in `Paths` and `Strs`, with their own lemmas.

## Model

| member | source | states |
|---|---|---|
| SessionStore.NewStore | webstd/chistd/session_docstore.go:54-66 | the store keeps prefix, sid and data, and its duration is always 0 because the `dur` argument is dropped |
| SessionStore.IDIsStable | webstd/chistd/session_docstore.go:87-89 | `ID` is the sid the store was built with, unchanged by Set, Delete and Flush, and the document id is the prefix followed by it |
| SessionStore.Set | webstd/chistd/session_docstore.go:69-72 | after Set the key reads back as the value; every other key reads as before; the key set grows by the key |
| SessionStore.Get | webstd/chistd/session_docstore.go:75-78 | a key that was never set reads as nil |
| SessionStore.Delete | webstd/chistd/session_docstore.go:81-84 | the key reads as nil afterwards, deleting an absent key changes nothing, other keys unchanged |
| SessionStore.Flush | webstd/chistd/session_docstore.go:137-140 | afterwards every key reads as nil and the attribute map is empty |
| SessionStore.GetAfterSetThenDelete | webstd/chistd/session_docstore.go:69-84 | set-then-get returns the value, set-then-delete reads nil, delete is idempotent |
| SessionStore.ParseLifetime | webstd/chistd/session_docstore.go:157-160 | the lifetime in seconds is accepted exactly when its nanosecond count fits int64, and is then that count |
| SessionStore.ParseLifetimeBoundIsTight | webstd/chistd/session_docstore.go:157-160 | 9223372036 seconds fit in int64 nanoseconds and one second more does not |
| SessionStore.Count | webstd/chistd/session_docstore.go:266-282 | -1 if the scan reports an error; otherwise the number of documents, which equals the number of keys when the scan lists each key once |
| SessionStore.EnumerationSize | webstd/chistd/session_docstore.go:266-282 | a scan that lists each key exactly once is as long as the key set |
| WebstdSession.Release | webstd/chistd/session_docstore.go:92-134 | an empty session writes nothing; a gob error is returned; a new session gets a document with id prefix+sid, TTL = duration and the expiry epoch = Unix seconds of the expiry time; an existing document keeps its expiry fields and gets new attributes and the remaining seconds as TTL; no other document changes |
| WebstdSession.Read | webstd/chistd/session_docstore.go:193-214 | an absent sid reads as an empty store with no error; a present one decodes its stored attributes; the store always has duration 0 |
| WebstdSession.ExistTracksReleaseAndDestroy | webstd/chistd/session_docstore.go:217-227 | `Exist` finds a session after a successful release of a non-empty store and not after `Destroy`; destroying one sid leaves `Exist` of every other sid as it was |
| WebstdSession.Destroy | webstd/chistd/session_docstore.go:224-227 | the session's document is gone and every other document is untouched |
| WebstdSession.Regenerate | webstd/chistd/session_docstore.go:230-261 | a taken new id is an error with the collection unchanged; otherwise the old document moves to the new id (when it exists) and the result is a Read of the new id |
| WebstdSession.Rewrite | webstd/chistd/session_docstore.go:171-181 | firestore, dynamodb and mongo/mongodb get their primary-key option set to `ID`, mem gets path `/ID`, every other scheme keeps its query; the URL's query is the encoding of the new values and its scheme, user and host are unchanged |
| WebstdSession.Init | webstd/chistd/session_docstore.go:156-190 | fails exactly when the lifetime, URL or query does not parse or the rewritten URL does not open through the custom-opener registry; on success the provider's duration is the lifetime in nanoseconds and the collection is the one the rewritten URL opened |
| WebstdSession.InitRejectsMongoUrlWithoutCollection | webstd/chistd/session_docstore.go:176-186 | with the MongoDB opener registered, a `mongodb` URL whose path names only a database makes Init fail |
| WebstdSession.ReleaseThenRead | webstd/chistd/session_docstore.go:92-214 | under a gob round trip, reading a released non-empty session gives back its attributes |
| WebstdSession.FirstReleaseIsAlreadyExpired | webstd/chistd/session_docstore.go:122-133 | a store read for a new sid has duration 0, so its first release stores TTL 0 and an expiry at the release time |
| WebstdSession.ReleaseWellKeyed | webstd/chistd/session_docstore.go:92-134 | release keeps every document stored under its own id |
| WebstdSession.RegenerateWellKeyed | webstd/chistd/session_docstore.go:230-261 | regenerate keeps every document stored under its own id |
| WebstdSession.RegenerateKeepsAttributes | webstd/chistd/session_docstore.go:230-261 | the regenerated session carries the attributes stored under the old id |
| WebstdSession.InitNamesPrimaryKey | webstd/chistd/session_docstore.go:171-181 | under a query round trip, the opened URL names `ID` as the primary key for every backend that has a key option |
| WebcommonsSession.Release | webcommons/chistd/session_docstore.go:77-101 | an empty session writes nothing; otherwise the document prefix+sid is upserted with the encoded attributes and the store's duration as TTL; no other document changes |
| WebcommonsSession.Read | webcommons/chistd/session_docstore.go:160-181 | an absent sid reads as an empty store; a present one decodes its attributes; duration is always 0 |
| WebcommonsSession.ExistTracksReleaseAndDestroy | webcommons/chistd/session_docstore.go:184-194 | `Exist` finds a session after a successful release of a non-empty store and not after `Destroy`; destroying one sid leaves `Exist` of every other sid as it was |
| WebcommonsSession.Destroy | webcommons/chistd/session_docstore.go:191-194 | the session's document is gone, every other document untouched |
| WebcommonsSession.Regenerate | webcommons/chistd/session_docstore.go:197-228 | a taken new id is an error with nothing changed; otherwise the old record moves to the new id and the result is a Read of the new id |
| WebcommonsSession.Rewrite | webcommons/chistd/session_docstore.go:138-148 | only the `mongo` scheme gets `id_field`, mem gets path `/ID`, firestore and dynamodb get their key options, other schemes keep their query |
| WebcommonsSession.Init | webcommons/chistd/session_docstore.go:123-157 | fails exactly when the lifetime, URL or query does not parse or gocloud cannot open the rewritten URL; on success the collection is the one that URL opened |
| WebcommonsSession.ReleaseThenRead | webcommons/chistd/session_docstore.go:77-181 | under a gob round trip, reading a released non-empty session gives back its attributes |
| WebcommonsSession.ReleaseAfterReadStoresZeroTTL | webcommons/chistd/session_docstore.go:77-101 | a release of a store obtained from Read always writes TTL 0 |
| WebcommonsSession.InitLeavesMongodbSchemeAlone | webcommons/chistd/session_docstore.go:138-148 | a `mongodb` URL keeps its parsed query: this provider sets no primary key for it |
| WebcommonsSession.RegenerateWellKeyed | webcommons/chistd/session_docstore.go:197-228 | regenerate keeps every document stored under its own id |
| Docstorextd.RegisterCustomOpener | gocloudxtd/docstore/docstore_xtd.go:18-20 | the key maps to the new opener, replacing any earlier one; other keys keep their openers |
| Docstorextd.OpenCollection | gocloudxtd/docstore/docstore_xtd.go:24-34 | an unparseable URL is an error; a registered scheme uses its opener; any other scheme goes to the default opener |
| Docstorextd.RegisteredOpenerIsUsed | gocloudxtd/docstore/docstore_xtd.go:18-34 | after registration every parseable URL of that scheme is opened by the new opener |
| Docstorextd.RegistrationIsLocal | gocloudxtd/docstore/docstore_xtd.go:18-34 | registering one scheme changes nothing for URLs of other schemes |
| MongoOpener.CollectionOpener | gocloudxtd/docstore/mongodb/mongodb.go:18-56 | succeeds exactly when the URL parses, its path has two slashes and starts with one, and the query parses; the wrong count is reported with the segment count; the server URL keeps scheme, user and host and drops path and query; database and collection are the two segments; `id_field` comes from the query |
| MongoOpener.Register | gocloudxtd/docstore/mongodb/mongodb.go:58-60 | the "mongodb" key opens with the collection opener |
| MongoOpener.OpensNamedCollection | gocloudxtd/docstore/mongodb/mongodb.go:27-56 | `/db/coll` with slash-free names opens collection coll of database db through the registry |
| MongoOpener.RejectsDeepPath | gocloudxtd/docstore/mongodb/mongodb.go:27-30 | a path with three or more segments is refused |
| MongoOpener.RejectsSingleSegment | gocloudxtd/docstore/mongodb/mongodb.go:27-30 | a path naming a database but no collection is refused |
| BearerToken.GetBearerToken | webcommons/request.go:9-20 | the token is space-free and, when non-empty, the Authorization header is exactly "Bearer " followed by it |
| BearerToken.GinGetBearerToken | gincommons/request.go:10-21 | the same for the gin copy |
| BearerToken.BearerRoundTrip | webcommons/request.go:16-20 | a header "Bearer t" with a space-free t yields exactly t, in both copies |
| BearerToken.LowercaseSchemeRejected | webcommons/request.go:16-20 | the scheme word is case-sensitive: "bearer t" yields "" |
| BearerToken.CopiesAgree | gincommons/request.go:10-21 | the webcommons and gin copies agree on every header |
| Oidc.NewAuthenticator | webstd/oidc.go:26-54 | fails exactly when discovery fails; otherwise keeps the provider, uses in-params client auth, scopes are openid then the extra scopes, and copies client id, secret, callback, PKCE flag and raw-token client ids |
| Oidc.DiscoveryChoice | webstd/oidc.go:27-31 | the discovery URL is used (with the issuer accepted as given) exactly when issuer verification is skipped; otherwise the issuer URL |
| Oidc.ScopesStartWithOpenID | webstd/oidc.go:45 | the scope list is "openid" followed by the additional scopes in order |
| Oidc.RandomBytesInHex | webstd/oidc.go:150-157 | fails exactly when the random read fails, with the byte count in the message; otherwise lower-case hex of length 2n that decodes back to the bytes read |
| Oidc.NewCodeVerifier | webstd/oidc.go:64-78 | the verifier is 64 characters drawn from the RFC 7636 unreserved set, hex-decodes to the 32 random bytes, and the challenge is base64url(sha256(verifier)) |
| Hex.DecodeEncode | webstd/oidc.go:150-157 | the hex text of any byte string decodes back to it |
| Hex.EncodeInjective | webstd/oidc.go:150-157 | distinct byte strings give distinct hex texts |
| Oidc.VerifyIDToken | webstd/oidc.go:81-87 | a token without an `id_token` extra is the fixed error; otherwise the raw token is verified with the client ID |
| Oidc.VerifyIDTokenIsStrOfRaw | webstd/oidc.go:81-95 | verifying a token with an `id_token` is `VerifyIDTokenStr` of that string, which verifies it with the client ID checked |
| Oidc.RefreshIDToken | webstd/oidc.go:98-114 | succeeds exactly when the token source answers with a token carrying a verifiable id_token, and returns that raw token, its verification and the token |
| Oidc.FirstVerified | webstd/oidc.go:118-133 | succeeds exactly when some client ID verifies, returning the first such verification; otherwise "invalid id token" |
| Oidc.VerifyRawToken | webstd/oidc.go:118-133 | with no client IDs, verification skips the client-ID check; otherwise the first client ID that verifies wins |
| Oidc.FirstClientIDWins | webstd/oidc.go:124-131 | when the first client ID verifies, its result is returned |
| Oidc.LogoutURL | webstd/oidc.go:139-148 | the end-session endpoint claim, or "" when the claim is missing |
| Oidc.GetOIDCURLParams | webstd/oidc.go:161-170 | six distinct names: code, state, client_id, code_challenge, code_challenge_method, scope |
| OidcHandlers.SetupLogin | webstd/chistd/oidc_handlers.go:102-121 | without PKCE the state is the CSRF token with no options and no session change; with PKCE it fails exactly when verifier creation fails, else adds the S256 method and challenge and stores the verifier in the session |
| OidcHandlers.Login | webstd/chistd/oidc_handlers.go:88-100 | a failed setup answers 500 with the session unchanged; otherwise redirects to the IdP with the setup's state and options |
| OidcHandlers.Register | webstd/chistd/oidc_handlers.go:70-86 | the login redirect with `prompt=create` appended |
| OidcHandlers.Logout | webstd/chistd/oidc_handlers.go:123-137 | a destroyed session redirects to the login path with an empty session; a failure answers 500 |
| OidcHandlers.CallbackOptions | webstd/chistd/oidc_handlers.go:155-164 | with PKCE the stored verifier is sent as `code_verifier`; a missing verifier is its own failure |
| OidcHandlers.Callback | webstd/chistd/oidc_handlers.go:139-221 | a bad state redirects to login untouched; a missing verifier answers 500; a verifier of the wrong type panics; any failed exchange, verification or claims decode redirects to login; any failure of exchange, verification or claims leaves the session unchanged; success stores the tokens and profile, clears the verifier and redirects to continue_to or home |
| OidcHandlers.SignedInHoldsTokens | webstd/chistd/oidc_handlers.go:201-208 | after a successful callback the session holds the id, access and refresh tokens, the expiry and a profile, and no verifier; other keys are kept |
| OidcHandlers.LoginThenCallbackSendsVerifier | webstd/chistd/oidc_handlers.go:102-164 | the verifier stored at login is exactly the one sent at the callback, and the IdP saw its S256 challenge |
| OidcHandlers.LoginParamsAreSensitive | webstd/chistd/oidc_handlers.go:102-121 | every parameter a login adds is one of the OIDC URL parameters |
| OidcHandlers.ForgedStateChangesNothing | webstd/chistd/oidc_handlers.go:143-152 | a callback whose state fails verification never consults the IdP and never touches the session |
| AADB2C.FindMainTenantDomain | webstd/idp/aadb2c/aadb2c.go:185-193 | "" exactly when no domain ends with onmicrosoft.com; otherwise the first such domain in list order |
| AADB2C.NewAADB2C | webstd/idp/aadb2c/aadb2c.go:38-96 | a listing error is returned; a missing tenant domain is an error listing every domain id; otherwise the service keeps app URL, authenticator and the found domain |
| AADB2C.NewUserFromProfile | webstd/idp/aadb2c/aadb2c.go:195-214 | names copied, display name "first last", one emailAddress identity issued by the tenant domain, nothing else set |
| AADB2C.AddUserRequest | webstd/idp/aadb2c/aadb2c.go:110-128 | the new user is enabled, a local account (creation type `LocalAccount`) signing in by email address, and gets a 20-character password with 1 to 5 digits and symbols that must change at next sign-in |
| AADB2C.AddUser | webstd/idp/aadb2c/aadb2c.go:110-140 | succeeds exactly when password generation and the create call succeed, returning the new ID |
| AADB2C.UpdateUserRequest | webstd/idp/aadb2c/aadb2c.go:142-154 | the patch targets the profile's ID and carries only the profile fields |
| AADB2C.LogoutTargetFor | webstd/idp/aadb2c/aadb2c.go:156-183 | a missing end-session endpoint is an error; otherwise the endpoint with its query replaced by exactly post_logout_redirect_uri (app URL with path /oidc/logout) and id_token_hint |
| AADB2C.GetLogoutURL | webstd/idp/aadb2c/aadb2c.go:156-183 | fails exactly when the target cannot be built, otherwise renders it |
| AADB2C.LogoutQueryRoundTrip | webstd/idp/aadb2c/aadb2c.go:157-182 | the rendered query parses back to exactly the two logout parameters |
| SourceType.String | tfcommons/source_type.go:26-43 | the name is never empty, and is "unknown" exactly for Unknown and HG |
| SourceType.StringOnlyConfusesHG | tfcommons/source_type.go:26-43 | String() tells every pair of types apart except HG and Unknown |
| SourceType.LocalCharacterized | tfcommons/source_type.go:83-86 | a source is local exactly when it starts with "." or ".." followed by `/` or `\` |
| SourceType.DotsAreNotLocal | tfcommons/source_type.go:83-86 | ".", ".." and "..foo" are not local, ".\x" is |
| SourceType.FirstDetected | tfcommons/source_type.go:95-111 | the first getter in order that detects the source, with none before it erroring; none if a detector errors first or none detects |
| SourceType.GetGoGetterSourceType | tfcommons/source_type.go:95-121 | some getter is found exactly when one wins in the S3, GCS, then go-getter order |
| SourceType.GetTerraformModSrcType | tfcommons/source_type.go:51-79 | local before registry before detection; Registry only for registry addresses; otherwise the detected getter's type |
| SourceType.DetectorsConsultedLast | tfcommons/source_type.go:51-58 | local and registry sources are classified whatever the detectors say |
| SourceType.S3DetectorFirst | tfcommons/source_type.go:113-121 | a non-local, non-registry source claimed by the S3 detector is S3 |
| SourceType.DetectErrorStopsSearch | tfcommons/source_type.go:103-106 | a detector error ends detection with Unknown |
| SourceType.GetterTypeUnknown | tfcommons/source_type.go:60-78 | a getter maps to Unknown exactly when there is none or it has no type case |
| SourceType.UnknownMeansNoKnownGetter | tfcommons/source_type.go:60-78 | Unknown means no getter or a getter with no type case |
| Terraform.CompileAll | tfcommons/terraform.go:22-29 | succeeds exactly when every pattern compiles, giving the matchers in order; otherwise the error of the first pattern that fails to compile |
| Terraform.Walk | tfcommons/terraform.go:32-55 | a reported error is the `Rel` error of a visited file, with every earlier file's `Rel` succeeding; no error means every file's `Rel` succeeded |
| Terraform.WalkErrorSticky | tfcommons/terraform.go:32-55 | once the walk callback fails, later entries change nothing |
| Terraform.WalkCharacterized | tfcommons/terraform.go:34-53 | each recorded directory is the Dir of some visited .tf file that no pattern excludes; without error every such file's directory is recorded |
| Terraform.ExcludeEverything | tfcommons/terraform.go:44-48 | when every file path is excluded nothing is recorded |
| Terraform.ExcludedPrefixIsSkipped | tfcommons/terraform.go:44-48 | a pattern covering a prefix keeps every file under it from contributing |
| Terraform.Insert | tfcommons/terraform.go:57-64 | inserting keeps the list strictly sorted and adds exactly the new element |
| Terraform.SortedUnique | tfcommons/terraform.go:57-64 | a strictly sorted list is determined by its elements, so de-duplication plus sort has one answer |
| Terraform.FindTerraformModules | tfcommons/terraform.go:18-66 | a bad pattern gives nil and the compile error; otherwise the sorted, duplicate-free directories of the walk and the walk's error |
| Terraform.FindNothingWhenAllExcluded | tfcommons/terraform_test.go:33-38 | excluding every file yields an empty, non-nil list |
| CredentialConfig.UnixSearchPaths | tfcommons/credential_config_unix.go:10-24 | a non-empty TF_CLI_CONFIG_FILE first; home/.terraformrc last when the home directory resolves; at most two paths |
| CredentialConfig.UnixConfigInHome | tfcommons/credential_config_unix.go:18-23 | the last path is the home directory's elements followed by .terraformrc |
| CredentialConfig.WindowsSearchPaths | tfcommons/credential_config_windows.go:8-18 | a non-empty TF_CLI_CONFIG_FILE first; always ends with Join(APPDATA, "terraform.rc") |
| CredentialConfig.FirstConfigFile | tfstd/credential_config.go:68-77 | the first search path that exists and is not a directory; none when there is no such path |
| CredentialConfig.CredentialMap | tfstd/credential_config.go:60-63 | the keys are exactly the block labels; with per-iteration loop variables each host maps to its own block, before Go 1.22 every entry is the last block |
| CredentialConfig.LoadCredentialConfig | tfstd/credential_config.go:38-66 | no file gives no config and no error; read and parse errors are returned, and a decode failure returns the decoder's message; otherwise the decoded blocks, with the credential map keyed by exactly their hosts and equal to `CredentialMap` of them |
| CredentialConfig.HostHasCredential | tfstd/credential_config.go:60-63 | with per-iteration semantics a host maps to its last block |
| RegistryClient.AuthToken | tfcommons/registry_client.go:47-52 | a token is set exactly when a config was loaded and has the host, and is that credential's token |
| RegistryClient.Absolutize | tfcommons/registry_client.go:71-74 | an endpoint starting with "/" becomes https://host + endpoint, anything else is kept |
| RegistryClient.Discover | tfcommons/registry_client.go:40-79 | credential and transport errors are returned; a service key missing from the discovery document is the error "no <key> key in services list"; otherwise the absolutised endpoint is parsed and returned with the host's token |
| RegistryClient.NewRegistryClient | tfcommons/registry_client.go:40-85 | credential errors and transport errors are returned; a missing modules.v1 is an error; otherwise the endpoint is the parsed absolutised modules.v1 and the client carries the host's token |
| RegistryClient.ModuleUrls | tfcommons/registry_client.go:88-110 | versions and download URLs extend the endpoint path by namespace, name, target system and "versions" or version/"download", and differ from the endpoint in nothing else |
| RegistryClient.GetVersions | tfcommons/registry_client.go:87-104 | succeeds exactly on status 200 with a non-empty module list, returning its first element; other statuses give "Error fetching versions: " + body |
| RegistryClient.DownloadToPath | tfcommons/registry_client.go:108-122 | any status but 204 is "Error getting download URL: " + body; a 204 fetches the X-Terraform-Get header's source into the destination |
| RegistryClient.PathEndpointIsOnHost | tfcommons/registry_client.go:66-79 | a path endpoint is served from https on the registry host |
| FensakRegistryClient.RegistrySupportsFensakExt | tfcommons/fensak_registry_client.go:30-41 | true exactly when the anonymous probe answers 200; a transport error gives false and the error |
| FensakRegistryClient.NewRegistryFensakExtClient | tfcommons/fensak_registry_client.go:49-94 | succeeds exactly when registry-client discovery of provenance.v0 under the Fensak discovery path succeeds, with that discovery's error message otherwise; a missing key is an error |
| FensakRegistryClient.GetAttestation | tfcommons/fensak_registry_client.go:97-112 | only status 204 is accepted, and then the result is the zero statement, since a 204 answer carries no body to decode; otherwise an error naming the module and body |
| FensakRegistryClient.AttestationIgnoresRegistry | tfcommons/fensak_registry_client.go:102-111 | two successful fetches return the same statement whatever the registries answered |
| FensakRegistryClient.AttestationMirrorsDownload | tfcommons/fensak_registry_client.go:100-101 | the attestation sits at the same relative path under its endpoint as the module download under the modules endpoint |
| FensakRegistryClient.ProbeIsAnonymous | tfcommons/fensak_registry_client.go:36-40 | the probe's answer depends only on the status of the request without token |
| Pubsub.EngineOf | workercommons/pub_client.go:28-34 | only "azuresb" and "rabbitmq" are engines; anything else is "Unknown engine" |
| Pubsub.RabbitURL | workercommons/pub_client.go:109 | the dial address is "amqp://" + connection string + "/" |
| Pubsub.CloseAll | workercommons/pub_client.go:38-62 | handles are closed in order, stopping at the first error, which is returned; no error means all were closed |
| PubClient.NewPubClient | workercommons/pub_client.go:27-35 | an unknown engine is an error; Azure clients hold a sender, RabbitMQ clients a connection dialled at the amqp URL |
| PubClient.Close | workercommons/pub_client.go:38-63 | nil closes nothing; otherwise the topic first, then sender and connection when present, stopping and logging at the first error, which is the failing handle's own close error |
| PubClient.SendTask | workercommons/pub_client.go:66-78 | a marshal error is returned and nothing is sent; otherwise the message is the marshalled task with metadata exactly {type: Task} |
| PubClient.RabbitDependsOnConnectionOnly | workercommons/pub_client.go:106-121 | a RabbitMQ publisher depends only on the connection string, never on the topic or subscription names or the Azure calls |
| SubClient.ReceiverFor | workerstd/sub_client.go:107-120 | a queue receiver when no subscription is configured, a subscription receiver otherwise |
| SubClient.NewSubClient | workerstd/sub_client.go:26-34 | an unknown engine is an error; Azure clients hold the chosen receiver, RabbitMQ clients a connection |
| SubClient.Close | workerstd/sub_client.go:37-64 | nil closes nothing; otherwise subscription, then receiver and connection when present, stopping at the first error, which is the failing handle's own close error |
| SubClient.ReceiveTask | workerstd/sub_client.go:69-92 | a receive error is returned without nack; a missing or non-Task type and an unmarshal failure nack with an error; success returns the message and task, neither acked nor nacked |
| SubClient.SentTaskIsReceived | workercommons/pub_client.go:71-77 | a sent task passes both envelope checks and, when unmarshal inverts marshal, is received as the same task without nack |
| Cookies.ParseSameSite | webstd/scs.go:21-35 | lax, strict and none map to their modes and anything else to the default mode; a warning only for none and unknown values |
| Cookies.SetSessionSettings | webstd/scs.go:11-36 | lifetime, cookie name and Secure copied, HttpOnly always true, SameSite parsed; no other manager field changes |
| Cookies.SetSessionSettingsIdempotent | webstd/scs.go:11-36 | configuring twice with the same block is the same as once |
| Cookies.UpperCaseModeIsDefault | webstd/scs.go:29-34 | "Lax" and "" fall back to the default mode with a warning |
| Cookies.BaseCookie | webstd/middleware_nosurf.go:14-29 | Secure exactly when not in dev mode, MaxAge from the config, nosurf's cookie name, HttpOnly, path "/" and SameSite Lax |
| Cookies.BaseCookieDependsOnConfigOnly | webstd/middleware_nosurf.go:14-29 | two configs give the same cookie exactly when they are equal |
| Logging.SetAtomicLevel | logstd/config.go:16-23 | stores the parsed level, or returns the parse error |
| Logging.GetZapConfig | logstd/logging.go:8-26 | nil gives the production defaults; level, encoding and output paths are overridden only when set; other fields stay default |
| Logging.EmptyConfigIsProduction | logstd/logging.go:15-25 | an all-empty block gives exactly the defaults |
| Logging.ParsedLevelIsUsed | logstd/logging.go:15-17 | after SetAtomicLevel the merged level is the parsed one |
| Logging.UnparsedLevelIsZero | logstd/logging.go:15-17 | a level string whose SetAtomicLevel never ran installs the zero atomic level |
| Render.Functions | webstd/render/html_renderer.go:34-39 | custom functions override sprig's of the same name, and the rest of sprig's are kept |
| Render.AddAll | webstd/render/html_renderer.go:94-104 | every path is parsed into the set in order, or the loop stops at the first failure: the error is that of a path all of whose predecessors loaded |
| Render.LoadAll | webstd/render/html_renderer.go:83-106 | succeeds exactly when the root and every other included path load; the set is the root followed by the included paths without the root |
| Render.BuildMap | webstd/render/html_renderer.go:58-65 | the keys are exactly the component and page paths, each bound to its loaded set; a failure is the load error of the first key (in order) whose set fails to load |
| Render.NewRenderer | webstd/render/html_renderer.go:30-69 | each glob error is returned in layout, component, page order; after the globs, it succeeds exactly when every component and page set loads, failing with the first key's load error otherwise; the keys are the component and page paths, and each set holds the layouts and components |
| Render.TemplateSetsShareLayoutsNotPages | webstd/render/html_renderer.go:51-65 | every set holds all layouts and components and the custom functions; a page that is not a layout or component never appears in another page's set |
| Render.LayoutsAreNotKeys | webstd/render/html_renderer.go:58-65 | a layout that is not also a component or page is never a key |
| Render.RenderHTML | webstd/render/html_renderer.go:72-81 | an unknown path renders "" with an error; a known one executes its set |
| PrimitivePtr.String | primitiveptr/primitiveptr.go:3-5 | never nil, and points at the value |
| PrimitivePtr.StringDeref | primitiveptr/primitiveptr.go:7-12 | "" for nil, the pointed-to string otherwise |
| PrimitivePtr.DerefString | primitiveptr/primitiveptr.go:3-12 | dereferencing undoes String |
| PrimitivePtr.DerefForgetsNil | primitiveptr/primitiveptr.go:7-12 | nil and a pointer to "" dereference alike, though they differ |
| ContextKey.NewAppContextKey | webstd/context_key.go:17-22 | app and name are stored unchanged |
| ContextKey.String | webstd/context_key.go:13-15 | app, then " context value ", then name; the length is the sum plus 15 |
| ContextKey.StringInjective | webstd/context_key.go:13-15 | keys with equally long app names print alike only if they have equal app and name |

## Left out

- Transport and storage faults of the document store are not modelled: a collection is a
  map and every `Get`, `Put`, `Create`, `Replace` or `Delete` on it succeeds. Only gob
  failures and the ones the source checks itself are modelled.
- The docstore revision field of `sessionDocument` is not modelled. It is maintained by
  the docstore driver.
- `time.Until(...).Seconds()` is floating point. The model takes integer nanoseconds and
  truncates toward zero, as the conversion to `int64` does.
- `GC` of both providers is left out: it is a no-op.
- The providers' `init` functions, which register them under a name, are left out: they
  are library wiring.
- `filepath.Walk` is given as the list of entries it visits. The nil `info` that Walk
  passes on a walk error would panic in the callback; the model assumes every entry has
  its info.
- `filepath.Rel` and Windows path separators are parameters. `Dir` and `Ext` follow Go's
  `path` package with `/` separators.
- `AADB2C.RemoveUser` is left out: it only forwards to the
  Graph SDK.
- The Graph client setup in `NewAADB2C` is a single parameter, the outcome of listing
  the domains.
- `password.Generate` and `rand.Intn` are parameters. Their ranges are preconditions of
  `AADB2C.AddUserRequest`.
- The `sha256.Write` error branch of `NewCodeVerifier` is left out: writing to a hash
  never fails.
- `Oidc.NewCodeVerifier`'s `Hex.Decode` accepts lower-case digits only. That is all
  `hex.EncodeToString` produces.
- The Azure Service Bus setup chains (credential, client, sender or receiver, topic or
  subscription) are one parameter each. Only the choice of receiver is modelled.
- Log output is not modelled; only the outcome of each call is. This covers the
  `UPDATE/CREATE SESSION` lines of the webstd `Release` and the logger calls of the OIDC
  handlers, of `AADB2C` and of the worker clients' `Close`. `PubClient.Close` keeps its
  log lines as a returned value.
- `GetSugaredLoggerWithoutConfig`, `GetLogger` and `GetSugaredLogger` are left out: they
  only build zap loggers.
- The concurrency pieces are left out, because a sequential model cannot express their
  behaviour (goroutines, channels, wait groups and timeouts):
  - the signal-handling and shutdown loops of the workers and HTTP servers;
  - `quit`.
- The following are left out because they are SDK forwarding, middleware wiring or
  plain configuration without behaviour of their own:
  - the Zitadel and no-op identity providers;
  - routers and static routes;
  - flag binding;
  - configuration structs;
  - the chistd and webcommons nosurf wrappers;
  - the file renderer.
- `ContextKey.NewAppContextKey`: Go returns a pointer, and context keys compare by pointer
  identity, so two calls with the same app and name give different keys. The model's keys
  are values, equal whenever app and name are.
- `Cookies.BaseCookie`: nosurf's cookie name is written as the constant `csrf_token`.
  The nosurf package is not part of this model.
- `Cookies.SetSessionSettings` covers the session manager's lifetime, idle timeout and
  cookie attributes. Other scs fields are not represented.
- `RegistryClient.GetVersions`: indexing an empty module list panics in Go. The model
  returns an error carrying the runtime's panic message.
- `Terraform.FindTerraformModules` returns the sorted list built by insertion. The Go
  code fills a slice from the map in random order, then sorts it. `Terraform.SortedUnique`
  shows both give the same list.
- `CredentialConfig.CredentialMap`: the values depend on the Go version's loop-variable
  semantics. That version is a parameter; the key set is the same either way.
- `CredentialConfig.LoadCredentialConfig`: HCL parse and decode diagnostics are one
  parameter.
- The environment variable credentials are left out: the source only mentions them in a
  TODO.
- `MongoOpener.CollectionOpener` does not dial the server: the result is the target it
  would connect to.
- `Docstorextd.OpenCollection`: the open of the default URL mux is a parameter.
