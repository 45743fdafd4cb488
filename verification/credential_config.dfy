/** tfstd/credential_config.go with the search paths of tfcommons/credential_config_unix.go
    and tfcommons/credential_config_windows.go: locating the Terraform CLI config file and
    loading its `credentials` blocks. Environment variables, the home directory, `os.Stat`,
    `os.ReadFile` and HCL parsing and decoding are parameters. */
module CredentialConfig {
  import opened Wrappers
  import Paths

  /** A `credentials "<host>" { token = ... }` block. */
  datatype Credential = Credential(registryHost: string, token: string)

  /** `CredentialConfig`: the decoded blocks and the host-indexed map computed at load time. */
  datatype Config = Config(credentials: seq<Credential>, credentialMap: map<string, Credential>)

  /** `credentialConfigSearchPaths` on Unix: `custom` is `$TF_CLI_CONFIG_FILE` and `home` the
      outcome of resolving the home directory. */
  function UnixSearchPaths(custom: string, home: Result<string>): (paths: seq<string>)
    ensures |paths| <= 2
    ensures custom != "" ==> |paths| >= 1 && paths[0] == custom
    ensures home.Ok? ==> |paths| >= 1 && paths[|paths| - 1] == Paths.Join([home.value, ".terraformrc"])
    ensures |paths| == (if custom != "" then 1 else 0) + (if home.Ok? then 1 else 0)
  {
    var searchPaths := if custom != "" then [custom] else [];
    match home
    case Err(_) => searchPaths
    case Ok(h) => searchPaths + [Paths.Join([h, ".terraformrc"])]
  }

  /** The Unix config file sits directly in the home directory, and is absolute exactly when
      the home directory is. */
  lemma UnixConfigInHome(custom: string, home: string)
    requires home != ""
    ensures var paths := UnixSearchPaths(custom, Ok(home));
      && Paths.Elements(paths[|paths| - 1]) == Paths.Elements(home) + [".terraformrc"]
      && Paths.Rooted(paths[|paths| - 1]) == Paths.Rooted(home)
  {
    Paths.JoinPlain(home, [".terraformrc"]);
  }

  /** `credentialConfigSearchPaths` on Windows: `appData` is `%APPDATA%` (possibly empty) and
      `winJoin` is Windows' `filepath.Join`. */
  function WindowsSearchPaths(custom: string, appData: string, winJoin: (string, string) -> string)
    : (paths: seq<string>)
    ensures 1 <= |paths| <= 2
    ensures |paths| == 2 <==> custom != ""
    ensures custom != "" ==> paths[0] == custom
    ensures paths[|paths| - 1] == winJoin(appData, "terraform.rc")
  {
    var searchPaths := if custom != "" then [custom] else [];
    searchPaths + [winJoin(appData, "terraform.rc")]
  }

  /** The outcome of `os.Stat`: whether the path names a directory. */
  datatype FileInfo = FileInfo(isDir: bool)

  /** The path is a usable config file. */
  predicate IsConfigFile(p: string, stat: string -> Result<FileInfo>) {
    stat(p).Ok? && !stat(p).value.isDir
  }

  /** The search-path loop of `findCredentialConfigFile`: the first path that exists and is not a directory. */
  function FirstConfigFile(paths: seq<string>, stat: string -> Result<FileInfo>): (r: Option<string>)
    ensures r.None? <==> forall i :: 0 <= i < |paths| ==> !IsConfigFile(paths[i], stat)
    ensures r.Some? ==> exists i :: (0 <= i < |paths| && paths[i] == r.value && IsConfigFile(r.value, stat)
      && (forall j :: 0 <= j < i ==> !IsConfigFile(paths[j], stat)))
    decreases |paths|
  {
    if |paths| == 0 then None
    else if IsConfigFile(paths[0], stat) then Some(paths[0])
    else
      var r := FirstConfigFile(paths[1..], stat);
      FirstConfigShift(paths, stat, r);
      r
  }

  lemma FirstConfigShift(paths: seq<string>, stat: string -> Result<FileInfo>, r: Option<string>)
    requires |paths| > 0 && !IsConfigFile(paths[0], stat)
    requires r.None? <==> forall i :: 0 <= i < |paths[1..]| ==> !IsConfigFile(paths[1..][i], stat)
    requires r.Some? ==> exists i :: (0 <= i < |paths[1..]| && paths[1..][i] == r.value && IsConfigFile(r.value, stat)
      && (forall j :: 0 <= j < i ==> !IsConfigFile(paths[1..][j], stat)))
    ensures r.None? <==> forall i :: 0 <= i < |paths| ==> !IsConfigFile(paths[i], stat)
    ensures r.Some? ==> exists i :: (0 <= i < |paths| && paths[i] == r.value && IsConfigFile(r.value, stat)
      && (forall j :: 0 <= j < i ==> !IsConfigFile(paths[j], stat)))
  {
    if r.Some? {
      var i :| 0 <= i < |paths[1..]| && paths[1..][i] == r.value && IsConfigFile(r.value, stat)
        && (forall j :: 0 <= j < i ==> !IsConfigFile(paths[1..][j], stat));
      assert paths[i + 1] == r.value;
      forall j | 0 <= j < i + 1 ensures !IsConfigFile(paths[j], stat) {
        if j > 0 { assert paths[j] == paths[1..][j - 1]; }
      }
    } else {
      forall i | 0 <= i < |paths| ensures !IsConfigFile(paths[i], stat) {
        if i > 0 { assert paths[i] == paths[1..][i - 1]; }
      }
    }
  }

  /** `findCredentialConfigFile`: `""` when no search path holds a file. */
  function FindCredentialConfigFile(paths: seq<string>, stat: string -> Result<FileInfo>): (p: string)
    ensures FirstConfigFile(paths, stat).None? ==> p == ""
    ensures FirstConfigFile(paths, stat).Some? ==> p == FirstConfigFile(paths, stat).value
  {
    match FirstConfigFile(paths, stat)
    case None => ""
    case Some(p) => p
  }

  /** The map built by the loop `credentialMap[cred.RegistryHost] = &cred`. With Go 1.22
      loop-variable semantics (`perIteration`) each host maps to its last block; before Go 1.22
      every entry points at the one loop variable, which ends holding the last block. */
  function CredentialMap(creds: seq<Credential>, perIteration: bool): (m: map<string, Credential>)
    ensures m.Keys == set c | c in creds :: c.registryHost
    ensures perIteration ==> forall h :: h in m ==> m[h].registryHost == h
    ensures !perIteration ==> forall h :: h in m ==> m[h] == creds[|creds| - 1]
    decreases |creds|
  {
    if |creds| == 0 then map[]
    else
      var init := creds[..|creds| - 1];
      var last := creds[|creds| - 1];
      var m := CredentialMap(init, perIteration);
      assert forall c :: c in creds <==> c in init || c == last by {
        assert creds == init + [last];
      }
      if perIteration then m[last.registryHost := last]
      else map h | h in m.Keys + {last.registryHost} :: last
  }

  /** Reading, parsing and decoding the file: `decode` yields the credential blocks or the
      error diagnostics of parsing or decoding. */
  function LoadCredentialConfig(paths: seq<string>, stat: string -> Result<FileInfo>,
                                read: string -> Result<string>,
                                decode: (string, string) -> Result<seq<Credential>>,
                                perIteration: bool): (r: Result<Option<Config>>)
    ensures FindCredentialConfigFile(paths, stat) == "" ==> r == Ok(None)
    ensures FindCredentialConfigFile(paths, stat) != "" ==>
      var p := FindCredentialConfigFile(paths, stat);
      && FirstConfigFile(paths, stat) == Some(p)
      && (read(p).Err? ==> r == Err(read(p).msg))
      && (read(p).Ok? ==> (r.Ok? <==> decode(read(p).value, p).Ok?))
      && (read(p).Ok? && decode(read(p).value, p).Err? ==> r == Err(decode(read(p).value, p).msg))
      && (read(p).Ok? && decode(read(p).value, p).Ok? ==> r.Ok? && r.value.Some?)
    ensures r.Ok? && r.value.Some? ==>
      var p := FindCredentialConfigFile(paths, stat);
      var creds := decode(read(p).value, p).value;
      && r.value.value.credentials == creds
      && r.value.value.credentialMap.Keys == (set c | c in creds :: c.registryHost)
      && r.value.value.credentialMap == CredentialMap(creds, perIteration)
  {
    var path := FindCredentialConfigFile(paths, stat);
    if path == "" then Ok(None)
    else
      match read(path)
      case Err(e) => Err(e)
      case Ok(data) =>
        match decode(data, path)
        case Err(diags) => Err(diags)
        case Ok(creds) => Ok(Some(Config(creds, CredentialMap(creds, perIteration))))
  }

  /** A host has a credential exactly when some block carries its label; under Go 1.22
      semantics the token found is that of the last such block. */
  lemma {:induction false} HostHasCredential(creds: seq<Credential>, host: string, k: nat)
    requires k < |creds| && creds[k].registryHost == host
    requires forall j :: k < j < |creds| ==> creds[j].registryHost != host
    ensures host in CredentialMap(creds, true) && CredentialMap(creds, true)[host] == creds[k]
    decreases |creds|
  {
    if k < |creds| - 1 {
      var init := creds[..|creds| - 1];
      HostHasCredential(init, host, k);
    }
  }
}
